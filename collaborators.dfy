/**
 * The code the request handler calls but does not implement: the kubeconfig parser,
 * the resource cache (`resouce_cache`), the application registry (`appmeta_manager`)
 * and the local profile store (`nocalhost.GetProfileV2`, `app.NewApplication`).
 * Each is an oracle: a function field of a datatype, so the model says nothing about
 * what it returns beyond its type.
 */
module Collaborators {
  import opened Wrappers

  /** A cluster object as returned by the cache; only its name and creation time are read. */
  datatype ClusterObject = ClusterObject(kind: string, namespace: string, name: string, creationTimestamp: int)

  /** `appmeta_manager.ApplicationMeta`: only `Application`, the application's name, is read. */
  datatype ApplicationMeta = ApplicationMeta(application: string, namespace: string)

  /** `profile.SvcProfileV2`: a locally stored service profile, keyed by `Name`. */
  datatype SvcProfileV2 = SvcProfileV2(name: string, serviceType: string)

  /** `profile.AppProfileV2`: the stored profile document; only its kubeconfig is read. */
  datatype ProfileV2 = ProfileV2(kubeconfig: string)

  /** `GetDescription()`'s result: the service profiles of an application, entries may be nil. */
  datatype Description = Description(svcProfile: seq<Option<SvcProfileV2>>)

  /** `app.Application`: `description` is what its `GetDescription()` returns. */
  datatype NocalhostApp = NocalhostApp(description: Option<Description>)

  /** A parsed kubeconfig; `namespace` is what its `Namespace()` reports. */
  datatype ClientConfig = ClientConfig(namespace: string)

  /** `clientcmd.NewClientConfigFromBytes`: a possibly nil config and whether an error was reported. */
  datatype ParsedConfig = ParsedConfig(config: Option<ClientConfig>, failed: bool)

  /** An opaque `*resouce_cache.Search` handle. */
  datatype Search = Search(id: nat)

  /** `resouce_cache.GetSearch`: a possibly nil handle and whether an error was reported. */
  datatype SearchReply = SearchReply(search: Option<Search>, failed: bool)

  /**
   * The resource cache. The query functions receive the handle as a possibly nil
   * receiver; what a query on a nil handle does is the cache's business.
   */
  datatype Cache = Cache(
    getSearch: (string, string) -> SearchReply,                       // (kubeconfig, namespace)
    getAllByResourceType: (Option<Search>, string) -> Fallible<seq<ClusterObject>>,
    getByResourceAndNamespace: (Option<Search>, string, string, string) -> Fallible<seq<ClusterObject>>,
    // (search, resource, name, app, namespace)
    getByResourceAndNameAndAppAndNamespace: (Option<Search>, string, string, string, string) -> Fallible<seq<ClusterObject>>)

  /** The application registry; a failure shows up as a nil result, not an error. */
  datatype Registry = Registry(
    getApplicationMetas: (string, string) -> Option<seq<Option<ApplicationMeta>>>,  // (namespace, kubeconfig)
    getApplicationMeta: (string, string, string) -> Option<ApplicationMeta>)        // (namespace, name, kubeconfig)

  /** The local profile store. Errors are only logged by the caller, so only nil-ness is kept. */
  datatype ProfileStore = ProfileStore(
    getProfileV2: (string, string) -> Option<ProfileV2>,               // (namespace, appName)
    newApplication: (string, string, string) -> Option<NocalhostApp>)  // (appName, namespace, kubeconfig)

  /** Everything the handler talks to. */
  datatype Env = Env(
    parseKubeconfig: string -> ParsedConfig,
    cache: Cache,
    registry: Registry,
    profiles: ProfileStore)
}
