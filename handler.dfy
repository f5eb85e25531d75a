/**
 * `HandleGetResourceInfoRequest`: resolves a cache handle, then dispatches on the
 * requested resource kind to the namespace tree (`"all"`), the application list
 * (`"app"`, `"application"`) or a flat query for any other kind.
 */
module GetResourceInfo {
  import opened Wrappers
  import opened Collaborators
  import opened ResourceInfo
  import opened ServiceProfiles
  import opened ApplicationTree
  import opened Sorting

  /** The request; the handler may overwrite its `namespace`. */
  class GetResourceInfoCommand {
    var kubeConfig: string
    var namespace: string
    var appName: string
    var resource: string
    var resourceName: string

    constructor (kubeConfig: string, namespace: string, appName: string, resource: string, resourceName: string)
      ensures this.kubeConfig == kubeConfig && this.namespace == namespace && this.appName == appName
      ensures this.resource == resource && this.resourceName == resourceName
    {
      this.kubeConfig := kubeConfig;
      this.namespace := namespace;
      this.appName := appName;
      this.resource := resource;
      this.resourceName := resourceName;
    }
  }

  /**
   * The namespace derived from the kubeconfig when the request names none. As written,
   * it is read only when parsing reported an error and still returned a config: a
   * kubeconfig that parses cleanly yields the empty namespace.
   */
  function DefaultNamespace(parsed: ParsedConfig): (ns: string)
    ensures !parsed.failed ==> ns == ""
    ensures ns != "" ==> parsed.config.Some? && ns == parsed.config.value.namespace
    ensures parsed.failed && parsed.config.Some? ==> ns == parsed.config.value.namespace
  {
    if parsed.failed && parsed.config.Some? then parsed.config.value.namespace else ""
  }

  datatype Resolution = Aborted | Resolved(ns: string, search: Option<Search>)

  /**
   * The cache handle the handler works with, or Aborted. Only a failure of the handle
   * lookup for a namespace named in the request aborts; with no namespace the lookup's
   * error is assigned to a shadowing variable and never checked.
   */
  function ResolveSearch(env: Env, kubeConfig: string, namespace: string): (r: Resolution)
    ensures r.Aborted? <==> namespace != "" && env.cache.getSearch(kubeConfig, namespace).failed
    ensures r.Resolved? && namespace != "" ==> r.ns == "" && r.search == env.cache.getSearch(kubeConfig, namespace).search
    ensures r.Resolved? && namespace == "" ==>
      r.ns == DefaultNamespace(env.parseKubeconfig(kubeConfig)) && r.search == env.cache.getSearch(kubeConfig, r.ns).search
  {
    if namespace == "" then
      var ns := DefaultNamespace(env.parseKubeconfig(kubeConfig));
      Resolved(ns, env.cache.getSearch(kubeConfig, ns).search)
    else
      var reply := env.cache.getSearch(kubeConfig, namespace);
      if reply.failed then Aborted else Resolved("", reply.search)
  }

  /** The loop of the `"all"` case: one namespace tree per namespace object, in enumeration order. */
  method CollectResults(env: Env, search: Option<Search>, kubeConfig: string, nsObjectList: seq<ClusterObject>)
    returns (results: seq<Result>)
    ensures |results| == |nsObjectList|
    ensures forall t :: 0 <= t < |results| ==> IsResultOf(env, search, kubeConfig, nsObjectList[t].name, results[t])
  {
    results := [];
    for i := 0 to |nsObjectList|
      invariant |results| == i
      invariant forall t :: 0 <= t < i ==> IsResultOf(env, search, kubeConfig, nsObjectList[t].name, results[t])
    {
      var result := GetApplicationByNs(env, nsObjectList[i].name, kubeConfig, search);
      results := results + [result];
    }
  }

  /**
   * The `"all"` case. With no namespace and a non-empty namespace enumeration: one tree per
   * namespace. Otherwise one tree, for the request's namespace or, when it names none, the
   * derived one, which is then written into the request.
   */
  ghost predicate AllResponse(env: Env, search: Option<Search>, kubeConfig: string, namespace: string, ns: string,
                              r: Response, newNamespace: string)
  {
    var listed := env.cache.getAllByResourceType(search, "namespaces");
    if namespace == "" && listed.Success? && |listed.value| > 0 then
      && newNamespace == namespace
      && r.Results?
      && |r.results| == |listed.value|
      && forall t :: 0 <= t < |r.results| ==> IsResultOf(env, search, kubeConfig, listed.value[t].name, r.results[t])
    else
      && newNamespace == (if namespace == "" then ns else namespace)
      && r.SingleResult?
      && IsResultOf(env, search, kubeConfig, newNamespace, r.result)
  }

  /** The sort key of a meta: its application name, or "" for a nil meta. */
  function MetaKey(meta: Option<ApplicationMeta>): string
  {
    if meta.Some? then meta.value.application else ""
  }

  /** The comparator given to `sort.SliceStable`: not `n1 > n2`, so true on equal names. */
  predicate MetaNotGreater(x: Option<ApplicationMeta>, y: Option<ApplicationMeta>)
  {
    LexLessEq(MetaKey(x), MetaKey(y))
  }

  /** The meta comparator is a total preorder, so sorting with it is well defined. */
  lemma MetaNotGreaterIsTotalPreorder()
    ensures Total(MetaNotGreater) && Transitive(MetaNotGreater)
  {
    forall x, y
      ensures MetaNotGreater(x, y) || MetaNotGreater(y, x)
    {
      LexTotal(MetaKey(x), MetaKey(y));
    }
    forall x, y, z | MetaNotGreater(x, y) && MetaNotGreater(y, z)
      ensures MetaNotGreater(x, z)
    {
      LexTransitive(MetaKey(x), MetaKey(y), MetaKey(z));
    }
  }

  /**
   * The `"app"`/`"application"` case. With no resource name: the registry's list, nil passed
   * through, otherwise rearranged into non-decreasing order of application name with nil
   * entries keyed as "". With a name: the registry's single meta, unchanged.
   */
  ghost predicate AppResponse(env: Env, kubeConfig: string, namespace: string, resourceName: string, r: Response)
  {
    if resourceName == "" then
      var metas := env.registry.getApplicationMetas(namespace, kubeConfig);
      && r.Metas?
      && r.metas.Some? == metas.Some?
      && (metas.Some? ==>
            && multiset(r.metas.value) == multiset(metas.value)
            && SortedBy(r.metas.value, MetaNotGreater))
    else
      r == SingleMeta(env.registry.getApplicationMeta(namespace, resourceName, kubeConfig))
  }

  /** The `"app"`/`"application"` case of the switch. */
  method HandleApplicationQuery(env: Env, kubeConfig: string, namespace: string, resourceName: string)
    returns (r: Response)
    ensures AppResponse(env, kubeConfig, namespace, resourceName, r)
  {
    if resourceName == "" {
      var metas := env.registry.getApplicationMetas(namespace, kubeConfig);
      if metas.Some? {
        var list := metas.value;
        var a := new Option<ApplicationMeta>[|list|](i requires 0 <= i < |list| => list[i]);
        assert a[..] == list;
        MetaNotGreaterIsTotalPreorder();
        SortSliceStable(a, MetaNotGreater);
        r := Metas(Some(a[..]));
      } else {
        r := Metas(None);
      }
    } else {
      r := SingleMeta(env.registry.getApplicationMeta(namespace, resourceName, kubeConfig));
    }
  }

  /** The flat query: application-scoped exactly when an application name is given. */
  function FlatQuery(cache: Cache, search: Option<Search>, resource: string, resourceName: string,
                     appName: string, namespace: string): Fallible<seq<ClusterObject>>
  {
    if appName == "" then cache.getByResourceAndNamespace(search, resource, resourceName, namespace)
    else cache.getByResourceAndNameAndAppAndNamespace(search, resource, resourceName, appName, namespace)
  }

  /** The order `SortByCreateTimestampAsc` establishes. */
  predicate CreatedNoLater(x: ClusterObject, y: ClusterObject)
  {
    x.creationTimestamp <= y.creationTimestamp
  }

  function Metadata(items: seq<Item>): seq<ClusterObject>
  {
    seq(|items|, t requires 0 <= t < |items| => items[t].metadata)
  }

  /**
   * The default case. A failed or empty query gives nil. With no resource name: one item per
   * object, ordered by creation time, each with the profile of its name. With a name: one
   * item, for the first object only. Profiles are those of `(namespace, resourceName)`.
   */
  ghost predicate ResourceResponse(env: Env, search: Option<Search>, namespace: string, appName: string,
                                   resource: string, resourceName: string, r: Response)
  {
    var profileMap := ProfileMapFor(env.profiles, namespace, resourceName);
    var query := FlatQuery(env.cache, search, resource, resourceName, appName, namespace);
    if query.Failure? || |query.value| == 0 then
      r == Nil
    else if resourceName == "" then
      && r.Items?
      && |r.items| == |query.value|
      && multiset(Metadata(r.items)) == multiset(query.value)
      && SortedBy(Metadata(r.items), CreatedNoLater)
      && r.items == ItemsOf(Metadata(r.items), profileMap)
    else
      r == SingleItem(Item(query.value[0], Lookup(profileMap, query.value[0].name)))
  }

  /** The default case of the switch: a query for any other resource kind. */
  method HandleResourceQuery(env: Env, search: Option<Search>, namespace: string, appName: string,
                             resource: string, resourceName: string) returns (r: Response)
    ensures ResourceResponse(env, search, namespace, appName, resource, resourceName, r)
  {
    var serviceMap := GetServiceProfile(env.profiles, namespace, resourceName);
    var items: Fallible<seq<ClusterObject>>;
    if resourceName == "" {
      if appName == "" {
        items := env.cache.getByResourceAndNamespace(search, resource, "", namespace);
      } else {
        items := env.cache.getByResourceAndNameAndAppAndNamespace(search, resource, "", appName, namespace);
      }
      if items.Failure? || |items.value| == 0 {
        return Nil;
      }
      var objs := items.value;
      var a := new ClusterObject[|objs|](i requires 0 <= i < |objs| => objs[i]);
      assert a[..] == objs;
      SortSliceStable(a, CreatedNoLater);
      var sorted := a[..];
      var result := CollectItems(sorted, serviceMap);
      assert Metadata(result) == sorted;
      r := Items(result);
    } else {
      if appName == "" {
        items := env.cache.getByResourceAndNamespace(search, resource, resourceName, namespace);
      } else {
        items := env.cache.getByResourceAndNameAndAppAndNamespace(search, resource, resourceName, appName, namespace);
      }
      if items.Failure? || |items.value| == 0 {
        return Nil;
      }
      r := SingleItem(Item(items.value[0], Lookup(serviceMap, items.value[0].name)));
    }
  }

  /**
   * `HandleGetResourceInfoRequest(request)`. Only the request's namespace may change, and
   * only in the `"all"` case's fallback to a single namespace.
   */
  method HandleGetResourceInfoRequest(env: Env, request: GetResourceInfoCommand) returns (r: Response)
    modifies request`namespace
    ensures var resolution := ResolveSearch(env, request.kubeConfig, old(request.namespace));
      resolution.Aborted? ==> r == Nil && request.namespace == old(request.namespace)
    ensures var resolution := ResolveSearch(env, request.kubeConfig, old(request.namespace));
      resolution.Resolved? && request.resource == "all" ==>
        AllResponse(env, resolution.search, request.kubeConfig, old(request.namespace), resolution.ns, r, request.namespace)
    ensures var resolution := ResolveSearch(env, request.kubeConfig, old(request.namespace));
      resolution.Resolved? && (request.resource == "app" || request.resource == "application") ==>
        request.namespace == old(request.namespace) &&
        AppResponse(env, request.kubeConfig, request.namespace, request.resourceName, r)
    ensures var resolution := ResolveSearch(env, request.kubeConfig, old(request.namespace));
      resolution.Resolved? && request.resource !in {"all", "app", "application"} ==>
        request.namespace == old(request.namespace) &&
        ResourceResponse(env, resolution.search, request.namespace, request.appName, request.resource, request.resourceName, r)
  {
    var s: Option<Search>;
    var err := false;
    var ns := "";
    if request.namespace == "" {
      var config := env.parseKubeconfig(request.kubeConfig);
      if config.failed && config.config.Some? {
        ns := config.config.value.namespace;
      }
      var reply := env.cache.getSearch(request.kubeConfig, ns);
      s := reply.search;  // reply.failed lands in the inner, shadowing `err` and is dropped
    } else {
      var reply := env.cache.getSearch(request.kubeConfig, request.namespace);
      s, err := reply.search, reply.failed;
    }
    if err {
      return Nil;
    }

    if request.resource == "all" {
      if request.namespace == "" {
        var nsObjectList := env.cache.getAllByResourceType(s, "namespaces");
        if nsObjectList.Success? && |nsObjectList.value| > 0 {
          var results := CollectResults(env, s, request.kubeConfig, nsObjectList.value);
          return Results(results);
        } else {
          request.namespace := ns;
        }
      }
      var result := GetApplicationByNs(env, request.namespace, request.kubeConfig, s);
      r := SingleResult(result);
    } else if request.resource == "app" || request.resource == "application" {
      r := HandleApplicationQuery(env, request.kubeConfig, request.namespace, request.resourceName);
    } else {
      r := HandleResourceQuery(env, s, request.namespace, request.appName, request.resource, request.resourceName);
    }
  }
}
