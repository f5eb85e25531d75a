/**
 * `getServiceProfile`: the map from service name to locally stored service profile
 * of one application. Every failure of the profile store is absorbed: the result is
 * then the empty map.
 */
module ServiceProfiles {
  import opened Wrappers
  import opened Collaborators

  /**
   * The service-profile entries the store describes for `(ns, appName)`, or none when
   * the profile, the application built from it, or its description is nil.
   */
  function DescribedProfiles(store: ProfileStore, ns: string, appName: string): seq<Option<SvcProfileV2>>
  {
    match store.getProfileV2(ns, appName)
    case None => []
    case Some(profileV2) =>
      match store.newApplication(appName, ns, profileV2.kubeconfig)
      case None => []
      case Some(nocalhostApp) =>
        match nocalhostApp.description
        case None => []
        case Some(description) => description.svcProfile
  }

  /** Entries entered into a map in order, nil entries skipped, a later name overwriting an earlier one. */
  function ProfileMap(entries: seq<Option<SvcProfileV2>>): map<string, SvcProfileV2>
  {
    if entries == [] then map[]
    else
      var m := ProfileMap(entries[..|entries| - 1]);
      match entries[|entries| - 1]
      case None => m
      case Some(p) => m[p.name := p]
  }

  /** The profile map of `(ns, appName)`: what `getServiceProfile` returns. */
  function ProfileMapFor(store: ProfileStore, ns: string, appName: string): map<string, SvcProfileV2>
  {
    ProfileMap(DescribedProfiles(store, ns, appName))
  }

  /** Go's `serviceMap[name]`: the profile stored under `name`, or nil. */
  function Lookup(profileMap: map<string, SvcProfileV2>, name: string): (r: Option<SvcProfileV2>)
    ensures r.Some? <==> name in profileMap
    ensures r.Some? ==> r.value == profileMap[name]
  {
    if name in profileMap then Some(profileMap[name]) else None
  }

  /** Entry `i` is a non-nil profile named `name`. */
  predicate NamedAt(entries: seq<Option<SvcProfileV2>>, i: int, name: string)
    requires 0 <= i < |entries|
  {
    entries[i].Some? && entries[i].value.name == name
  }

  /** Entry `i` is the last non-nil profile named `name`. */
  predicate LastNamedAt(entries: seq<Option<SvcProfileV2>>, i: int, name: string)
    requires 0 <= i < |entries|
  {
    NamedAt(entries, i, name) && forall j :: i < j < |entries| ==> !NamedAt(entries, j, name)
  }

  /**
   * The keys of the map are exactly the names of the non-nil entries, and the value under
   * a key is the last non-nil entry with that name.
   */
  lemma {:induction false} ProfileMapIsLastByName(entries: seq<Option<SvcProfileV2>>, name: string)
    ensures name in ProfileMap(entries) <==> exists i :: 0 <= i < |entries| && NamedAt(entries, i, name)
    ensures name in ProfileMap(entries) ==>
      exists i :: 0 <= i < |entries| && LastNamedAt(entries, i, name) && entries[i] == Some(ProfileMap(entries)[name])
  {
    if entries != [] {
      var n := |entries| - 1;
      var prefix := entries[..n];
      ProfileMapIsLastByName(prefix, name);
      assert forall i :: 0 <= i < n ==> NamedAt(prefix, i, name) == NamedAt(entries, i, name);
      if NamedAt(entries, n, name) {
        assert LastNamedAt(entries, n, name);
      } else if name in ProfileMap(entries) {
        assert name in ProfileMap(prefix) && ProfileMap(entries)[name] == ProfileMap(prefix)[name];
        var i :| 0 <= i < n && LastNamedAt(prefix, i, name) && prefix[i] == Some(ProfileMap(prefix)[name]);
        assert LastNamedAt(entries, i, name);
      }
    }
  }

  /** Every value of the map is stored under its own name. */
  lemma {:induction false} ProfileMapKeyedByName(entries: seq<Option<SvcProfileV2>>, name: string)
    requires name in ProfileMap(entries)
    ensures ProfileMap(entries)[name].name == name
  {
    var n := |entries| - 1;
    if entries[n].None? || entries[n].value.name != name {
      ProfileMapKeyedByName(entries[..n], name);
    }
  }

  /**
   * `getServiceProfile(ns, appName)`: builds the map by a loop over the description's
   * entries. It never reports an error; a nil profile, application or description
   * gives the empty map.
   */
  method GetServiceProfile(store: ProfileStore, ns: string, appName: string) returns (serviceMap: map<string, SvcProfileV2>)
    ensures serviceMap == ProfileMapFor(store, ns, appName)
    ensures store.getProfileV2(ns, appName).None? ==> serviceMap == map[]
    ensures var p := store.getProfileV2(ns, appName);
      p.Some? && store.newApplication(appName, ns, p.value.kubeconfig).None? ==> serviceMap == map[]
    ensures var p := store.getProfileV2(ns, appName);
      p.Some? ==> var a := store.newApplication(appName, ns, p.value.kubeconfig);
      a.Some? && a.value.description.None? ==> serviceMap == map[]
  {
    serviceMap := map[];
    var profileV2 := store.getProfileV2(ns, appName);
    if profileV2.Some? {
      var nocalhostApp := store.newApplication(appName, ns, profileV2.value.kubeconfig);
      if nocalhostApp.Some? {
        var description := nocalhostApp.value.description;
        if description.Some? {
          var entries := description.value.svcProfile;
          for i := 0 to |entries|
            invariant serviceMap == ProfileMap(entries[..i])
          {
            assert entries[..i + 1][..i] == entries[..i];
            if entries[i].Some? {
              serviceMap := serviceMap[entries[i].value.name := entries[i].value];
            }
          }
          assert entries[..|entries|] == entries;
        }
      }
    }
  }
}
