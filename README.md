# Resource-info request handler (nocalhost daemon), modelled in Dafny

This project models the read-only request handler `HandleGetResourceInfoRequest` of the
nocalhost daemon and the helpers in the same file. It answers an inspection query about
a cluster by picking one of several response shapes:

- for resource `"all"`, a per-namespace tree of applications, groups, resources and items;
- for `"app"` or `"application"`, the application metadata list sorted by name, or one
  application's metadata;
- for any other resource kind, a flat list of items sorted by creation time, or a single item.

The handler calls four collaborators it does not implement. Each one is an oracle, a
function-valued field of a datatype in module `Collaborators`:

- the kubeconfig parser;
- the resource cache (`resouce_cache`): the search handle and the three query methods;
- the application registry (`appmeta_manager`);
- the local profile store (`nocalhost.GetProfileV2`, `app.NewApplication`, `GetDescription`).

Modules, leaf first:

- `Wrappers`: `Option` for Go's nil, `Fallible` for a `(value, error)` pair.
- `Collaborators`: the collaborators' data types and oracles.
- `Sorting`: Go's string order, plus the in-place sort used for `sort.SliceStable`.
- `ResourceInfo`: the response tree, the four-group kind table and the response union.
- `ServiceProfiles`: `getServiceProfile`.
- `ApplicationTree`: `getApp` and `getApplicationByNs`.
- `GetResourceInfo`: the request class and the dispatcher.

The request is a `class`, because the handler overwrites its `Namespace`.

Loops in the source are `method`s with loop invariants. Each is proved against a
specification function or predicate, and the properties of those are proved as lemmas.

The order of the groups comes from iterating a Go map, so it is not fixed. `CollectGroups`
models it by picking each next key with `:|` from the keys not yet visited. The contract of
an application (`IsAppOf`) is therefore a relation and not a function: every group of the
table exactly once, in some order.

Behaviour kept as the code has it, where the natural reading of the design differs:

- With no namespace in the request, the namespace taken from the kubeconfig is read only
  when parsing reported an error and still returned a config (get.go:59). A kubeconfig that
  parses cleanly gives the empty namespace.
- With no namespace in the request, the error of the cache-handle lookup is assigned to a
  shadowing variable (get.go:58, 62) and never checked. Only a failed lookup for a namespace
  named in the request aborts the request with nil (get.go:64-68).
- The comparator passed to `sort.SliceStable` answers "less" for equal names (get.go:99-102).
  Go's stable sort assumes a strict order. On up to twenty elements it runs insertion sort,
  which moves an element left while `less(a[j], a[j-1])` holds, so each element moves past
  all its equals and equal names come out in reverse registry order. The model promises a
  permutation in non-decreasing name order and nothing about ties.
- The `"all"` fallback writes the derived namespace into the request (get.go:83). That is
  the only change the handler makes to the request.
- `"app"` with no resource name returns the registry's nil list unchanged, as a typed nil
  (`Metas(None)`). A failed or empty flat query returns the untyped nil (`Nil`).

## Model

| member | source | states |
|---|---|---|
| `ServiceProfiles.GetServiceProfile` | internal/nhctl/daemon_handler/get.go:28-51 | the loop's result is the profile map of the described entries; it is empty when the profile, the application built from it, or its description is nil; no error is surfaced |
| `ServiceProfiles.ProfileMapIsLastByName` | internal/nhctl/daemon_handler/get.go:42-46 | the map's keys are exactly the names of the non-nil entries; the value under a name is the last non-nil entry with that name, so a later duplicate overwrites an earlier one |
| `ServiceProfiles.ProfileMapKeyedByName` | internal/nhctl/daemon_handler/get.go:44 | every profile in the map is stored under its own `Name` |
| `ServiceProfiles.Lookup` | internal/nhctl/daemon_handler/get.go:126 | a map read yields the stored profile when the name is a key and nil otherwise |
| `ResourceInfo.GroupTableKeys` | internal/nhctl/daemon_handler/get.go:156-161 | the kind table has exactly the four groups Workloads, Networks, Configurations, Storages |
| `ResourceInfo.GroupTableIsPartition` | internal/nhctl/daemon_handler/get.go:156-161 | no group lists a kind twice and no kind is listed by two groups |
| `ApplicationTree.CollectItems` | internal/nhctl/daemon_handler/get.go:169-172 | one item per query object, in order, each with the profile looked up by the object's name |
| `ApplicationTree.CollectResources` | internal/nhctl/daemon_handler/get.go:165-175 | the loop over one group's kinds builds exactly the group's resource list `ResourcesOf` |
| `ApplicationTree.ResourcesOfAppend` | internal/nhctl/daemon_handler/get.go:166-174 | resources follow the kind list's order: the resources of a concatenation are the concatenation of the resources |
| `ApplicationTree.ResourceNamesAreSucceededKinds` | internal/nhctl/daemon_handler/get.go:166-174 | the resource names are exactly the kinds whose query succeeded, in list order |
| `ApplicationTree.ResourcesOfContents` | internal/nhctl/daemon_handler/get.go:167-173 | each resource is a listed kind whose query succeeded; its items match that query's objects one to one and in order, with descriptions looked up by object name |
| `ApplicationTree.ResourcesOfPresence` | internal/nhctl/daemon_handler/get.go:167-168 | a listed kind has a resource if and only if its query succeeded; a failing kind is absent, not an empty placeholder |
| `ApplicationTree.FailureIsolation` | internal/nhctl/daemon_handler/get.go:166-175 | if one kind's query fails where it succeeded before and all other kinds are unchanged, the result is the earlier one minus that kind's entry |
| `ApplicationTree.AllQueriesFail` | internal/nhctl/daemon_handler/get.go:165-175 | a kind list whose queries all fail yields the empty resource list |
| `ApplicationTree.AllQueriesFailApp` | internal/nhctl/daemon_handler/get.go:155-177 | when every kind of the table fails its query, an application still has its four groups, each with an empty resource list |
| `ApplicationTree.GroupNamesMembership` | internal/nhctl/daemon_handler/get.go:176 | a name is among the emitted group names exactly when some emitted group carries it |
| `ApplicationTree.AddGroup` | internal/nhctl/daemon_handler/get.go:176 | appending the group of a key not yet visited keeps every visited group present exactly once |
| `ApplicationTree.CollectGroups` | internal/nhctl/daemon_handler/get.go:164-177 | the loop over the map emits every group of the table exactly once, in unspecified order, each built from its own kind list |
| `ApplicationTree.GetApp` | internal/nhctl/daemon_handler/get.go:155-179 | the application carries its name and every group of the table once, built with the application's profile map |
| `ApplicationTree.FourGroups` | internal/nhctl/daemon_handler/get.go:156-177 | an application has exactly four groups, one per table key, with distinct names, whatever the queries returned |
| `ApplicationTree.AppNamesAppend` | internal/nhctl/daemon_handler/get.go:147-151 | applications keep the registry's order: the names of a concatenation are the concatenation of the names |
| `ApplicationTree.AppNamesCount` | internal/nhctl/daemon_handler/get.go:147-151 | there is one application per non-nil meta: the count is the list length minus the nil entries |
| `ApplicationTree.AppNamesMembership` | internal/nhctl/daemon_handler/get.go:147-151 | an application name is listed exactly when some non-nil meta carries it |
| `ApplicationTree.GetApplicationByNs` | internal/nhctl/daemon_handler/get.go:144-153 | the result has the given namespace and one application per non-nil meta, in registry order; with no metas the list is empty |
| `Sorting.LexTotal` | internal/nhctl/daemon_handler/get.go:99 | Go's string order relates every two names one way or the other |
| `Sorting.LexTransitive` | internal/nhctl/daemon_handler/get.go:99 | Go's string order is transitive |
| `Sorting.LexReflexive` | internal/nhctl/daemon_handler/get.go:99-102 | equal names are not greater than each other, so the comparator answers true on ties |
| `Sorting.SortSliceStable` | internal/nhctl/daemon_handler/get.go:91-103 | the in-place sort leaves the array in the comparator's order and a permutation of its input |
| `GetResourceInfo.MetaNotGreaterIsTotalPreorder` | internal/nhctl/daemon_handler/get.go:91-103 | the meta comparator, with nil metas keyed as "", is total and transitive |
| `GetResourceInfo.DefaultNamespace` | internal/nhctl/daemon_handler/get.go:57-61 | the derived namespace is empty unless parsing reported an error and returned a config, in which case it is that config's namespace |
| `GetResourceInfo.ResolveSearch` | internal/nhctl/daemon_handler/get.go:54-68 | the request aborts exactly when a namespace is given and the handle lookup for it fails; with no namespace the lookup's error is ignored |
| `GetResourceInfo.CollectResults` | internal/nhctl/daemon_handler/get.go:76-80 | one namespace tree per namespace object, in enumeration order |
| `GetResourceInfo.HandleApplicationQuery` | internal/nhctl/daemon_handler/get.go:87-108 | with no name: nil passed through, otherwise a permutation of the registry list in non-decreasing name order; with a name: the registry's meta unchanged |
| `GetResourceInfo.HandleResourceQuery` | internal/nhctl/daemon_handler/get.go:109-140 | app-scoped query exactly when an app name is given; error or no objects give nil; with no name a list of the same length, sorted by creation time, each item with its profile; with a name a single item for the first object; profiles keyed by (namespace, resource name) |
| `GetResourceInfo.HandleGetResourceInfoRequest` | internal/nhctl/daemon_handler/get.go:53-142 | aborts with nil only per `ResolveSearch`; otherwise dispatches on the resource kind; only the `"all"` fallback changes the request, setting its namespace to the derived one |

## Left out

- `log.Error` calls: diagnostics only, with no effect on results.
- The JSON tags and `omitempty` encoding of the response types: wire encoding belongs to the transport. A Go nil slice and an empty slice are therefore not told apart inside the response tree; for example, `getApplicationByNs` leaves `Application` nil when there are no metas, and the model gives an empty sequence.
- The `metav1.Object` type assertions: cluster objects are records with a name and a creation time. A failed assertion would panic, and that is not modelled.
- The internals of the kubeconfig parser, the resource cache, the application registry and the profile store: they are oracles. Errors from `GetProfileV2` and `NewApplication` are only logged, so only whether their results are nil is modelled. The constant last argument of `NewApplication` is dropped.
- What the cache does when queried through a nil handle (possible after the unchecked lookup error): that is up to the cache oracle.
- `resouce_cache.SortByCreateTimestampAsc`: foreign code. It is stood in for by the same insertion sort ordered by timestamps with `<=`, and only "sorted permutation" is relied on. Creation times are integers.
- `sort.SliceStable` for slices longer than twenty elements (block insertion sort followed by in-place merging): only the insertion-sort algorithm is modelled. The contract does not depend on the length.
- GetResourceInfo.HandleApplicationQuery: does not promise that applications with equal names keep their registry order. The comparator is true on ties, so Go's stable sort does not guarantee that either.
- Aliasing: Go sorts in place the slice the registry returned (get.go:91) and the slice the cache returned (get.go:123), either of which its owner may share with other code. The model sorts a copy of each, so it does not capture any effect of those sorts on the registry's or the cache's own data.
- Names as text: Go compares strings byte by byte, and a Go string need not be valid UTF-8. The model holds names as sequences of Unicode characters and compares them by code point, which agrees with Go's order only on valid UTF-8.
- Go map iteration order beyond "unspecified": modelled as an arbitrary choice of the next key.
