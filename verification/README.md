# goset, modelled in Dafny

goset is a small generic set library for Go. A set stores its members as the
keys of a map field `data map[T]struct{}`; it offers a variadic constructor
that drops duplicate items, `Contains`, `Insert`, `Remove`, `Size`, `IsEmpty`,
`Clear` and `ToSlice`, which copies the members into a new slice in no
particular order. The same container exists twice: `Set[T]` in set.go and
`ThreadUnsafeSet[T]` in thread_unsafe_set.go, the unsynchronized set that the
lock-guarded `ThreadSafeSet` wraps.

The project has four modules:

- `SetSpec` (set_spec.dfy) is the abstract specification both containers
  share. A set's value is a mathematical `set<T>`. `InsertInto`, `RemoveFrom`
  and `FromItems` give the effect of Insert, Remove and construction.
  `Enumerates(s, c)` says that `s` lists every member of `c` exactly once, in
  any order. The lemmas give the promised properties: duplicates collapse, an
  enumeration has the set's size as its length, and repeated inserts or
  removals of an absent element change nothing. Another lemma describes
  membership after any sequence of Insert/Remove calls.
- `PlainSet` (set.dfy) holds the class `Set`, and `UnsafeSet`
  (thread_unsafe_set.dfy) holds the class `ThreadUnsafeSet`. Each class has
  a field `data: map<T, ()>` that its methods reassign, as the Go methods
  update the map in place. A ghost field `contents` is the abstract value,
  and `Valid()` ties it to `data.Keys`. Insert and Remove state their new
  `contents` as the matching `SetSpec` function of the old one, and Clear
  states that `contents` becomes empty. That is how both classes refine the
  one specification. The constructor fills a local
  map in a loop, as the Go code does. `ToSlice` takes the keys one at a time
  with a nondeterministic choice, so no order is promised.
- `Scenarios` (scenarios.dfy) is client code. It replays the cases of
  thread_unsafe_set_test.go and the command-line demo against the classes.
  Each method returns what its case observes, and its postcondition states
  the expected value.

set.go declares `NewSet(items...)` with no flag, so the flag-taking
`NewSet(flag, items...)` that the tests and the demo call is not modelled;
the scenarios use the constructors declared in set.go and
thread_unsafe_set.go.

## Model

| member | source | states |
|---|---|---|
| SetSpec.InsertInto | set.go:26-29 | after an insert the item is a member, no other membership changes, and the size grows by one exactly when the item was absent |
| SetSpec.RemoveFrom | set.go:31-35 | after a removal the item is not a member, no other membership changes, and the size drops by one exactly when the item was present |
| SetSpec.FromItems | set.go:9-18 | inserting the items one after another yields a set that holds every item, holds nothing else, and has no more members than there were items |
| SetSpec.FromItemsIsElements | thread_unsafe_set.go:8-17 | the constructed set is exactly the set of distinct items |
| SetSpec.DistinctItemsSize | thread_unsafe_set_test.go:16-27 | constructing from pairwise distinct items gives a size equal to the number of items |
| SetSpec.DuplicateItemsCollapse | thread_unsafe_set_test.go:29-39 | the items 1, 2, 2, 3, 3, 3 give the set {1, 2, 3} of size 3 |
| SetSpec.EnumerationLength | set.go:52-59 | a duplicate-free listing of a set's members has the set's size as its length |
| SetSpec.EnumerationOfSingleton | thread_unsafe_set_test.go:248-257 | the only listing of a one-member set {x} is [x] |
| SetSpec.InsertIdempotent | thread_unsafe_set_test.go:77-87 | inserting the same item twice gives the same set and size as inserting it once |
| SetSpec.RemoveAbsentIsNoOp | thread_unsafe_set_test.go:133-157 | removing an item that is not a member leaves the set unchanged |
| SetSpec.RunMembership | set.go:26-35 | after any sequence of Insert/Remove calls, an item is a member iff the last call naming it was an Insert, or no call named it and it was a member at the start |
| SetSpec.InsertThenRemoveEnumeration | thread_unsafe_set_test.go:281-308 | from {1, 2, 3}, Insert(4) then Remove(2) leaves a set whose every listing has length 3 and lists 1, 3 and 4 but not 2 |
| PlainSet.Set.constructor | set.go:9-18 | the new set's members are exactly the distinct items given, and its size is at most the number of items |
| PlainSet.Set.Contains | set.go:20-24 | true iff the item is a member; it reads the set and changes nothing |
| PlainSet.Set.Insert | set.go:26-29 | the new contents are the old contents plus the item; the size grows by one iff the item was absent |
| PlainSet.Set.Remove | set.go:31-35 | the new contents are the old contents minus the item; the size drops by one iff the item was present and otherwise stays the same |
| PlainSet.Set.Size | set.go:37-40 | the number of members |
| PlainSet.Set.IsEmpty | set.go:42-45 | true iff the set has no members, that is iff Size() is 0 |
| PlainSet.Set.Clear | set.go:47-50 | afterwards the set is empty, its size is 0, and no former member is contained |
| PlainSet.Set.ToSlice | set.go:52-59 | returns a duplicate-free sequence that lists exactly the members, in no promised order, with length equal to Size(); the set is not modified |
| UnsafeSet.ThreadUnsafeSet.constructor | thread_unsafe_set.go:7-17 | the new set's members are exactly the distinct items given, and its size is at most the number of items |
| UnsafeSet.ThreadUnsafeSet.Contains | thread_unsafe_set.go:19-22 | true iff the item is a member; it reads the set and changes nothing |
| UnsafeSet.ThreadUnsafeSet.Insert | thread_unsafe_set.go:24-26 | the new contents are the old contents plus the item; the size grows by one iff the item was absent |
| UnsafeSet.ThreadUnsafeSet.Remove | thread_unsafe_set.go:28-30 | the new contents are the old contents minus the item; the size drops by one iff the item was present and otherwise stays the same |
| UnsafeSet.ThreadUnsafeSet.Size | thread_unsafe_set.go:32-34 | the number of members |
| UnsafeSet.ThreadUnsafeSet.IsEmpty | thread_unsafe_set.go:36-38 | true iff the set has no members, that is iff Size() is 0 |
| UnsafeSet.ThreadUnsafeSet.Clear | thread_unsafe_set.go:40-42 | afterwards the set is empty, its size is 0, and no former member is contained |
| UnsafeSet.ThreadUnsafeSet.ToSlice | thread_unsafe_set.go:44-51 | returns a duplicate-free sequence that lists exactly the members, in no promised order, with length equal to Size(); the set is not modified |
| Scenarios.DemoContains | cmd/cli/main.go:10-14 | the set {1, 2, 3} contains 1 and does not contain 5 |
| Scenarios.NewEmpty | thread_unsafe_set_test.go:6-14 | a set built from no items has size 0, is empty and contains nothing |
| Scenarios.NewWithItems | thread_unsafe_set_test.go:16-27 | a set built from 1, 2, 3 has size 3 and contains each item |
| Scenarios.NewWithDuplicates | thread_unsafe_set_test.go:29-39 | a set built from 1, 2, 2, 3, 3, 3 has size 3 and contains 1, 2 and 3 |
| Scenarios.InsertNew | thread_unsafe_set_test.go:66-75 | inserting 1 into the empty set gives size 1 and membership of 1 |
| Scenarios.InsertExisting | thread_unsafe_set_test.go:77-87 | inserting the member 2 into {1, 2, 3} leaves the size at 3 and 2 a member |
| Scenarios.MultipleInserts | thread_unsafe_set_test.go:89-103 | inserting 1 to 5 in a loop gives size 5 with each one a member |
| Scenarios.RemoveExisting | thread_unsafe_set_test.go:107-131 | removing 4 from {3, 4, 5, 6, 7} takes the size from 5 to 4 and 4 is no longer a member |
| Scenarios.RemoveAbsent | thread_unsafe_set_test.go:133-157 | removing 1022 from {3, 4, 5, 6, 7} leaves the size at 5 and 1022 absent |
| Scenarios.SizeAfterModifications | thread_unsafe_set_test.go:177-190 | {1, 2, 3} has size 3, then 4 after Insert(4), then 3 after Remove(1) |
| Scenarios.NonEmpty | thread_unsafe_set_test.go:201-206 | a set built from 3, 4, 5 is not empty |
| Scenarios.ClearEmpty | thread_unsafe_set_test.go:210-219 | clearing the empty set leaves it empty with size 0 |
| Scenarios.ClearNonEmpty | thread_unsafe_set_test.go:221-236 | {3, 4, 5} is not empty and has size 3 before Clear; afterwards it is empty with size 0 and none of 3, 4, 5 contained |
| Scenarios.ToSliceEmpty | thread_unsafe_set_test.go:240-246 | the slice of the empty set is empty |
| Scenarios.ToSliceSingle | thread_unsafe_set_test.go:248-257 | the slice of {42} is exactly [42] |
| Scenarios.ToSliceMultiple | thread_unsafe_set_test.go:259-279 | the slice of {1, 2, 3, 4, 5} has length 5 and lists each item |
| Scenarios.ToSliceAfterModifications | thread_unsafe_set_test.go:281-308 | after Insert(4) and Remove(2) on {1, 2, 3} the slice has length 3 and lists 1, 3 and 4 but not 2 |
| Scenarios.ToSliceIndependence | thread_unsafe_set_test.go:310-326 | overwriting the first entry of the returned slice with 999 leaves 999 absent and 1, 2, 3 members |

## Left out

- thread_safe_set.go is not part of this model. Its only addition is a `sync.RWMutex` taken around each forwarded call; locking, blocking and linearizability are concurrency and are not modelled.
- The boolean-flag factory `NewSet(flag, items...)` that the tests and the demo call is not declared in set.go or thread_unsafe_set.go, which declare `NewSet(items...)` and `newThreadUnsafeSet(items...)`. Which variant its flag selects is not modelled; the scenarios use the two declared constructors.
- The demo's output to standard output (cmd/cli/main.go:12-13) is left out; `Scenarios.DemoContains` returns the two booleans instead.
- Go map iteration order is left unspecified on purpose: `ToSlice` picks the next key with a nondeterministic choice, and its contract fixes no order.
- The capacity hints of `make(..., len(items))` and `make([]T, 0, s.Size())` only affect performance and are not modelled.
- `Size` returns an unbounded `nat`. Go's `int` is platform-sized (32 or 64 bits), but a map cannot hold more keys than that type can count, so no wrap-around is modelled.
- The type parameter `T(==)` stands for a reflexive equality. Go's `comparable` admits floating-point keys, and a NaN key is unequal to itself: each `Insert` of NaN adds a new key (set.go:28), `Contains` of NaN stays false (set.go:22), `Remove` of NaN deletes nothing (set.go:34), and only `Clear` removes such keys (set.go:49). The contracts of `Insert`, `Contains`, `Remove` and `Size` do not hold for such keys, and the model does not cover them.
- Go's `comparable` also admits interface types such as `any`, whose dynamic values may be unhashable (a `[]int`, say); inserting one panics at run time, in `Insert` (set.go:28) or in the constructor (set.go:12). The model has no such failure: every `T(==)` value can be a key.
- The model covers only sets built by the constructors. `Set` is exported, so a caller can declare a zero-value `Set` whose `data` map is nil; `Insert` on it panics (set.go:28). The Dafny classes always hold a map, so this case is not modelled.
- `Clear` assigns an empty map instead of emptying the same map object with Go's `clear`. The map is never shared outside its set, so the two cannot be told apart.
- `ToSlice` returns a `seq<T>`, which is a value. The result therefore cannot alias `data`, and the independence scenario holds by construction rather than by a freshness argument about a mutable slice.
