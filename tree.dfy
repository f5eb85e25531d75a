/**
 * `getApp` and `getApplicationByNs`: the per-namespace application tree. Each
 * application gets all four groups of the kind table; within a group a kind whose
 * query fails is left out and the others are unaffected.
 */
module ApplicationTree {
  import opened Wrappers
  import opened Collaborators
  import opened ResourceInfo
  import opened ServiceProfiles

  /** The items of a query result, each with the profile looked up by the object's name. */
  function ItemsOf(objs: seq<ClusterObject>, profileMap: map<string, SvcProfileV2>): seq<Item>
  {
    seq(|objs|, t requires 0 <= t < |objs| => Item(objs[t], Lookup(profileMap, objs[t].name)))
  }

  /** The cache query `getApp` makes for one kind: all objects of that kind in the namespace. */
  function KindQuery(cache: Cache, search: Option<Search>, namespace: string, kind: string): Fallible<seq<ClusterObject>>
  {
    cache.getByResourceAndNamespace(search, kind, "", namespace)
  }

  /** The resources of a list of kinds: one per kind whose query succeeded, in list order. */
  function ResourcesOf(cache: Cache, search: Option<Search>, namespace: string,
                       profileMap: map<string, SvcProfileV2>, kinds: seq<string>): seq<Resource>
  {
    if kinds == [] then []
    else
      var kind := kinds[|kinds| - 1];
      var earlier := ResourcesOf(cache, search, namespace, profileMap, kinds[..|kinds| - 1]);
      match KindQuery(cache, search, namespace, kind)
      case Failure(_) => earlier
      case Success(objs) => earlier + [Resource(kind, ItemsOf(objs, profileMap))]
  }

  /** The kinds of a list whose query succeeded, in list order. */
  function SucceededKinds(cache: Cache, search: Option<Search>, namespace: string, kinds: seq<string>): seq<string>
  {
    if kinds == [] then []
    else
      var rest := SucceededKinds(cache, search, namespace, kinds[1..]);
      if KindQuery(cache, search, namespace, kinds[0]).Success? then [kinds[0]] + rest else rest
  }

  function ResourceNames(resources: seq<Resource>): seq<string>
  {
    seq(|resources|, t requires 0 <= t < |resources| => resources[t].name)
  }

  /** Resources of a concatenation are the concatenation of the resources: the order follows the list. */
  lemma {:induction false} ResourcesOfAppend(cache: Cache, search: Option<Search>, namespace: string,
                                             profileMap: map<string, SvcProfileV2>, a: seq<string>, b: seq<string>)
    ensures ResourcesOf(cache, search, namespace, profileMap, a + b)
         == ResourcesOf(cache, search, namespace, profileMap, a) + ResourcesOf(cache, search, namespace, profileMap, b)
  {
    if b != [] {
      var n := |b| - 1;
      assert (a + b)[..|a + b| - 1] == a + b[..n];
      ResourcesOfAppend(cache, search, namespace, profileMap, a, b[..n]);
    } else {
      assert a + b == a;
    }
  }

  /** The resource names are exactly the kinds whose query succeeded, in list order. */
  lemma {:induction false} ResourceNamesAreSucceededKinds(cache: Cache, search: Option<Search>, namespace: string,
                                                          profileMap: map<string, SvcProfileV2>, kinds: seq<string>)
    ensures ResourceNames(ResourcesOf(cache, search, namespace, profileMap, kinds)) == SucceededKinds(cache, search, namespace, kinds)
  {
    if kinds != [] {
      ResourcesOfAppend(cache, search, namespace, profileMap, [kinds[0]], kinds[1..]);
      assert [kinds[0]] + kinds[1..] == kinds;
      ResourceNamesAreSucceededKinds(cache, search, namespace, profileMap, kinds[1..]);
      assert [kinds[0]][..0] == [];
    }
  }

  /**
   * Every resource is a listed kind whose query succeeded, and its items correspond one to
   * one, in order, to that query's objects, each with its profile looked up by name.
   */
  lemma {:induction false} ResourcesOfContents(cache: Cache, search: Option<Search>, namespace: string,
                                               profileMap: map<string, SvcProfileV2>, kinds: seq<string>, r: Resource)
    requires r in ResourcesOf(cache, search, namespace, profileMap, kinds)
    ensures r.name in kinds
    ensures KindQuery(cache, search, namespace, r.name).Success?
    ensures |r.list| == |KindQuery(cache, search, namespace, r.name).value|
    ensures forall t :: 0 <= t < |r.list| ==>
      var obj := KindQuery(cache, search, namespace, r.name).value[t];
      r.list[t] == Item(obj, Lookup(profileMap, obj.name))
  {
    var n := |kinds| - 1;
    var earlier := ResourcesOf(cache, search, namespace, profileMap, kinds[..n]);
    if r in earlier {
      ResourcesOfContents(cache, search, namespace, profileMap, kinds[..n], r);
      assert r.name in kinds[..n];
    }
  }

  /** A listed kind whose query succeeded has a resource; one whose query failed has none. */
  lemma {:induction false} ResourcesOfPresence(cache: Cache, search: Option<Search>, namespace: string,
                                               profileMap: map<string, SvcProfileV2>, kinds: seq<string>, kind: string)
    requires kind in kinds
    ensures (exists r :: r in ResourcesOf(cache, search, namespace, profileMap, kinds) && r.name == kind)
        <==> KindQuery(cache, search, namespace, kind).Success?
  {
    var resources := ResourcesOf(cache, search, namespace, profileMap, kinds);
    var n := |kinds| - 1;
    var earlier := ResourcesOf(cache, search, namespace, profileMap, kinds[..n]);
    if KindQuery(cache, search, namespace, kind).Success? {
      if kind == kinds[n] {
        assert resources[|resources| - 1].name == kind;
      } else {
        assert kind in kinds[..n];
        ResourcesOfPresence(cache, search, namespace, profileMap, kinds[..n], kind);
        var r :| r in earlier && r.name == kind;
        assert r in resources;
      }
    } else {
      forall r | r in resources
        ensures r.name != kind
      {
        ResourcesOfContents(cache, search, namespace, profileMap, kinds, r);
      }
    }
  }

  /** Removes the resources of one kind. */
  function WithoutKind(resources: seq<Resource>, kind: string): seq<Resource>
  {
    if resources == [] then []
    else
      var earlier := WithoutKind(resources[..|resources| - 1], kind);
      if resources[|resources| - 1].name == kind then earlier else earlier + [resources[|resources| - 1]]
  }

  /**
   * Failure isolation: if a second cache agrees with the first on every kind but one,
   * and fails on that one, its resources are the first cache's resources with that
   * kind's entry removed.
   */
  lemma {:induction false} FailureIsolation(c1: Cache, c2: Cache, search: Option<Search>, namespace: string,
                                            profileMap: map<string, SvcProfileV2>, kinds: seq<string>, failing: string)
    requires forall k :: k in kinds && k != failing ==> KindQuery(c1, search, namespace, k) == KindQuery(c2, search, namespace, k)
    requires KindQuery(c2, search, namespace, failing).Failure?
    ensures ResourcesOf(c2, search, namespace, profileMap, kinds)
         == WithoutKind(ResourcesOf(c1, search, namespace, profileMap, kinds), failing)
  {
    if kinds != [] {
      var n := |kinds| - 1;
      var kind := kinds[n];
      var before := ResourcesOf(c1, search, namespace, profileMap, kinds[..n]);
      FailureIsolation(c1, c2, search, namespace, profileMap, kinds[..n], failing);
      match KindQuery(c1, search, namespace, kind)
      case Failure(_) =>
        assert kind != failing ==> KindQuery(c2, search, namespace, kind).Failure?;
      case Success(objs) =>
        var all := before + [Resource(kind, ItemsOf(objs, profileMap))];
        assert all[..|all| - 1] == before;
    }
  }

  /** `g` is the group `table` names `g.groupName`, built with the given profile map. */
  ghost predicate IsGroupOf(cache: Cache, search: Option<Search>, namespace: string,
                            profileMap: map<string, SvcProfileV2>, table: map<string, seq<string>>, g: Group)
  {
    g.groupName in table &&
    g.list == ResourcesOf(cache, search, namespace, profileMap, table[g.groupName])
  }

  /** The names of some groups. */
  function GroupNames(groups: seq<Group>): set<string>
  {
    if groups == [] then {} else GroupNames(groups[..|groups| - 1]) + {groups[|groups| - 1].groupName}
  }

  /** A name is among the group names exactly when some group carries it. */
  lemma {:induction false} GroupNamesMembership(groups: seq<Group>, name: string)
    ensures name in GroupNames(groups) <==> exists t :: 0 <= t < |groups| && groups[t].groupName == name
  {
    if groups != [] {
      var n := |groups| - 1;
      GroupNamesMembership(groups[..n], name);
      assert forall t :: 0 <= t < n ==> groups[..n][t] == groups[t];
    }
  }

  /** `groups` holds the groups of `table` named in `done`, each exactly once, in some order. */
  ghost predicate GroupsFor(cache: Cache, search: Option<Search>, namespace: string,
                            profileMap: map<string, SvcProfileV2>, table: map<string, seq<string>>,
                            groups: seq<Group>, done: set<string>)
  {
    && |groups| == |done|
    && GroupNames(groups) == done
    && (forall t :: 0 <= t < |groups| ==> IsGroupOf(cache, search, namespace, profileMap, table, groups[t]))
    && (forall t, u :: 0 <= t < u < |groups| ==> groups[t].groupName != groups[u].groupName)
  }

  /** `groups` holds every group of `table` exactly once, in some order. */
  ghost predicate IsGroupsOf(cache: Cache, search: Option<Search>, namespace: string,
                             profileMap: map<string, SvcProfileV2>, table: map<string, seq<string>>, groups: seq<Group>)
  {
    GroupsFor(cache, search, namespace, profileMap, table, groups, table.Keys)
  }

  /** Appending the group of a name not yet visited keeps each visited group exactly once. */
  lemma AddGroup(cache: Cache, search: Option<Search>, namespace: string,
                 profileMap: map<string, SvcProfileV2>, table: map<string, seq<string>>,
                 groups: seq<Group>, done: set<string>, g: Group)
    requires GroupsFor(cache, search, namespace, profileMap, table, groups, done)
    requires g.groupName !in done && IsGroupOf(cache, search, namespace, profileMap, table, g)
    ensures GroupsFor(cache, search, namespace, profileMap, table, groups + [g], done + {g.groupName})
  {
    var after := groups + [g];
    assert after[..|after| - 1] == groups;
    forall t | 0 <= t < |groups|
      ensures after[t] == groups[t] && groups[t].groupName != g.groupName
    {
      GroupNamesMembership(groups, g.groupName);
    }
  }

  /**
   * `app` is what `getApp(namespace, appName)` may return: every group of the kind table
   * exactly once, in some order, each built with the application's profile map.
   */
  ghost predicate IsAppOf(env: Env, search: Option<Search>, namespace: string, appName: string, app: App)
  {
    && app.name == appName
    && IsGroupsOf(env.cache, search, namespace, ProfileMapFor(env.profiles, namespace, appName), GroupToTypeMap, app.groups)
  }

  /**
   * An application always has four groups, one named by each of the table's keys, each
   * exactly once, whatever the queries returned.
   */
  lemma FourGroups(env: Env, search: Option<Search>, namespace: string, appName: string, app: App)
    requires IsAppOf(env, search, namespace, appName, app)
    ensures |app.groups| == 4
    ensures forall t :: 0 <= t < |app.groups| ==> app.groups[t].groupName in {Workloads, Networks, Configurations, Storages}
    ensures forall name :: name in GroupToTypeMap ==> exists t :: 0 <= t < |app.groups| && app.groups[t].groupName == name
    ensures forall t, u :: 0 <= t < u < |app.groups| ==> app.groups[t].groupName != app.groups[u].groupName
  {
    GroupTableKeys();
    forall name | name in GroupToTypeMap
      ensures exists t :: 0 <= t < |app.groups| && app.groups[t].groupName == name
    {
      GroupNamesMembership(app.groups, name);
    }
  }

  /** When every kind of a list fails its query, the list yields no resources. */
  lemma {:induction false} AllQueriesFail(cache: Cache, search: Option<Search>, namespace: string,
                                          profileMap: map<string, SvcProfileV2>, kinds: seq<string>)
    requires forall k :: k in kinds ==> KindQuery(cache, search, namespace, k).Failure?
    ensures ResourcesOf(cache, search, namespace, profileMap, kinds) == []
  {
    if kinds != [] {
      var n := |kinds| - 1;
      assert forall k :: k in kinds[..n] ==> k in kinds;
      AllQueriesFail(cache, search, namespace, profileMap, kinds[..n]);
    }
  }

  /** The innermost loop of `getApp`: one item per object, in order. */
  method CollectItems(objs: seq<ClusterObject>, profileMap: map<string, SvcProfileV2>) returns (items: seq<Item>)
    ensures items == ItemsOf(objs, profileMap)
  {
    items := [];
    for k := 0 to |objs|
      invariant items == ItemsOf(objs[..k], profileMap)
    {
      items := items + [Item(objs[k], Lookup(profileMap, objs[k].name))];
    }
    assert objs[..|objs|] == objs;
  }

  /** The loop of `getApp` over one group's kinds: a kind whose query fails is skipped. */
  method CollectResources(cache: Cache, search: Option<Search>, namespace: string,
                          profileMap: map<string, SvcProfileV2>, types: seq<string>) returns (resources: seq<Resource>)
    ensures resources == ResourcesOf(cache, search, namespace, profileMap, types)
  {
    resources := [];
    for j := 0 to |types|
      invariant resources == ResourcesOf(cache, search, namespace, profileMap, types[..j])
    {
      assert types[..j + 1][..j] == types[..j];
      var resourceList := cache.getByResourceAndNamespace(search, types[j], "", namespace);
      if resourceList.Success? {
        var items := CollectItems(resourceList.value, profileMap);
        resources := resources + [Resource(types[j], items)];
      }
    }
    assert types[..|types|] == types;
  }

  /**
   * When every kind of the table fails its query, an application still has its four
   * groups, each with an empty resource list.
   */
  lemma AllQueriesFailApp(env: Env, search: Option<Search>, namespace: string, appName: string, app: App)
    requires IsAppOf(env, search, namespace, appName, app)
    requires forall g, k :: g in GroupToTypeMap && k in GroupToTypeMap[g] ==>
      KindQuery(env.cache, search, namespace, k).Failure?
    ensures |app.groups| == 4
    ensures forall t :: 0 <= t < |app.groups| ==> app.groups[t].list == []
  {
    FourGroups(env, search, namespace, appName, app);
    var profileMap := ProfileMapFor(env.profiles, namespace, appName);
    forall t | 0 <= t < |app.groups|
      ensures app.groups[t].list == []
    {
      AllQueriesFail(env.cache, search, namespace, profileMap, GroupToTypeMap[app.groups[t].groupName]);
    }
  }

  /** The loop of `getApp` over the groups of `table`, visited in an unspecified order. */
  method CollectGroups(cache: Cache, search: Option<Search>, namespace: string,
                       profileMap: map<string, SvcProfileV2>, table: map<string, seq<string>>) returns (groups: seq<Group>)
    ensures IsGroupsOf(cache, search, namespace, profileMap, table, groups)
  {
    groups := [];
    var remaining := table.Keys;
    ghost var done: set<string> := {};
    while remaining != {}
      invariant remaining + done == table.Keys && remaining !! done
      invariant GroupsFor(cache, search, namespace, profileMap, table, groups, done)
      decreases remaining
    {
      var groupName :| groupName in remaining;
      var resources := CollectResources(cache, search, namespace, profileMap, table[groupName]);
      AddGroup(cache, search, namespace, profileMap, table, groups, done, Group(groupName, resources));
      groups := groups + [Group(groupName, resources)];
      remaining := remaining - {groupName};
      done := done + {groupName};
    }
    assert done == table.Keys;
  }

  /** `getApp(namespace, appName, search)`. */
  method GetApp(env: Env, namespace: string, appName: string, search: Option<Search>) returns (app: App)
    ensures IsAppOf(env, search, namespace, appName, app)
  {
    var profileMap := GetServiceProfile(env.profiles, namespace, appName);
    var groups := CollectGroups(env.cache, search, namespace, profileMap, GroupToTypeMap);
    app := App(appName, groups);
  }

  /** The names of the non-nil metas, in registry order. */
  function AppNames(metas: seq<Option<ApplicationMeta>>): seq<string>
  {
    if metas == [] then []
    else
      var earlier := AppNames(metas[..|metas| - 1]);
      match metas[|metas| - 1]
      case None => earlier
      case Some(meta) => earlier + [meta.application]
  }

  /** Names of a concatenation are the concatenation of the names: registry order is kept. */
  lemma {:induction false} AppNamesAppend(a: seq<Option<ApplicationMeta>>, b: seq<Option<ApplicationMeta>>)
    ensures AppNames(a + b) == AppNames(a) + AppNames(b)
  {
    if b != [] {
      var n := |b| - 1;
      assert (a + b)[..|a + b| - 1] == a + b[..n];
      AppNamesAppend(a, b[..n]);
    } else {
      assert a + b == a;
    }
  }

  /** One name per non-nil meta: nil metas are skipped, and nothing else is. */
  lemma {:induction false} AppNamesCount(metas: seq<Option<ApplicationMeta>>)
    ensures |AppNames(metas)| == |metas| - multiset(metas)[None]
  {
    if metas != [] {
      var n := |metas| - 1;
      AppNamesCount(metas[..n]);
      assert metas == metas[..n] + [metas[n]];
      assert multiset(metas) == multiset(metas[..n]) + multiset{metas[n]};
    }
  }

  /** A name is listed exactly when some non-nil meta carries it. */
  lemma {:induction false} AppNamesMembership(metas: seq<Option<ApplicationMeta>>, name: string)
    ensures name in AppNames(metas) <==>
      exists i :: 0 <= i < |metas| && metas[i].Some? && metas[i].value.application == name
  {
    if metas != [] {
      var n := |metas| - 1;
      AppNamesMembership(metas[..n], name);
      assert forall i :: 0 <= i < n ==> metas[..n][i] == metas[i];
    }
  }

  /**
   * `r` is what `getApplicationByNs(ns, kubeconfig, search)` returns: the namespace, and one
   * application per non-nil meta of the registry's list, in order.
   */
  ghost predicate IsResultOf(env: Env, search: Option<Search>, kubeconfig: string, ns: string, r: Result)
  {
    var metas := env.registry.getApplicationMetas(ns, kubeconfig);
    var names := AppNames(if metas.Some? then metas.value else []);
    && r.namespace == ns
    && |r.application| == |names|
    && forall t :: 0 <= t < |names| ==> IsAppOf(env, search, ns, names[t], r.application[t])
  }

  /** `getApplicationByNs(ns, kubeconfig, search)`. */
  method GetApplicationByNs(env: Env, ns: string, kubeconfig: string, search: Option<Search>) returns (result: Result)
    ensures IsResultOf(env, search, kubeconfig, ns, result)
  {
    var applicationMetaList := env.registry.getApplicationMetas(ns, kubeconfig);
    var metas := if applicationMetaList.Some? then applicationMetaList.value else [];
    var apps: seq<App> := [];
    for i := 0 to |metas|
      invariant |apps| == |AppNames(metas[..i])|
      invariant forall t :: 0 <= t < |apps| ==> IsAppOf(env, search, ns, AppNames(metas[..i])[t], apps[t])
    {
      assert metas[..i + 1][..i] == metas[..i];
      if metas[i].Some? {
        var app := GetApp(env, ns, metas[i].value.application, search);
        apps := apps + [app];
      }
    }
    assert metas[..|metas|] == metas;
    result := Result(ns, apps);
  }
}
