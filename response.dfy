/**
 * The response data model of the handler: the `Result`/`App`/`Group`/`Resource`/`Item`
 * tree, the fixed kind-to-group table, and the union of the values the handler can
 * return through its `interface{}` result.
 */
module ResourceInfo {
  import opened Wrappers
  import opened Collaborators

  /** One cluster object and the profile of the service of the same name, if any. */
  datatype Item = Item(metadata: ClusterObject, description: Option<SvcProfileV2>)

  /** All objects of one resource kind. */
  datatype Resource = Resource(name: string, list: seq<Item>)

  /** The resources of one group of the kind table. */
  datatype Group = Group(groupName: string, list: seq<Resource>)

  /** One application and its groups. */
  datatype App = App(name: string, groups: seq<Group>)

  /** One namespace and its applications. */
  datatype Result = Result(namespace: string, application: seq<App>)

  /**
   * What `HandleGetResourceInfoRequest` returns. `Nil` is the untyped nil of
   * `return nil`; `Metas(None)` and `SingleMeta(None)` are the typed nil slice and nil
   * pointer the registry may hand back, which the handler returns as they are.
   */
  datatype Response =
    | Nil
    | Results(results: seq<Result>)
    | SingleResult(result: Result)
    | Metas(metas: Option<seq<Option<ApplicationMeta>>>)
    | SingleMeta(meta: Option<ApplicationMeta>)
    | Items(items: seq<Item>)
    | SingleItem(item: Item)

  const Workloads := "Workloads"
  const Networks := "Networks"
  const Configurations := "Configurations"
  const Storages := "Storages"

  const WorkloadKinds: seq<string> := ["deployments", "statefulsets", "daemonsets", "jobs", "cronjobs", "pods"]
  const NetworkKinds: seq<string> := ["services", "endpoints", "ingresses", "networkpolicies"]
  const ConfigurationKinds: seq<string> :=
    ["configmaps", "secrets", "horizontalpodautoscalers", "resourcequotas", "poddisruptionbudgets"]
  const StorageKinds: seq<string> := ["persistentvolumes", "persistentvolumeclaims", "storageclasses"]

  /** The hard-coded partition of resource kinds into four display groups. */
  const GroupToTypeMap: map<string, seq<string>> := map[
    Workloads := WorkloadKinds,
    Networks := NetworkKinds,
    Configurations := ConfigurationKinds,
    Storages := StorageKinds
  ]

  predicate Distinct(kinds: seq<string>)
  {
    forall p, q :: 0 <= p < q < |kinds| ==> kinds[p] != kinds[q]
  }

  predicate Disjoint(a: seq<string>, b: seq<string>)
  {
    forall p, q :: 0 <= p < |a| && 0 <= q < |b| ==> a[p] != b[q]
  }

  /** The table has exactly the four group names. */
  lemma GroupTableKeys()
    ensures GroupToTypeMap.Keys == {Workloads, Networks, Configurations, Storages}
    ensures |GroupToTypeMap| == 4
  {
  }

  /** No group lists a kind twice and no kind is listed by two groups. */
  lemma GroupTableIsPartition()
    ensures forall g :: g in GroupToTypeMap ==> Distinct(GroupToTypeMap[g])
    ensures forall g, h :: g in GroupToTypeMap && h in GroupToTypeMap && g != h ==>
      Disjoint(GroupToTypeMap[g], GroupToTypeMap[h])
  {
  }
}
