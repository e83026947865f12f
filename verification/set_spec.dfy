/**
 The abstract specification shared by both set classes of goset (`Set` in
 set.go and `ThreadUnsafeSet` in thread_unsafe_set.go). A set value is a
 mathematical `set<T>`; each class keeps a ghost `contents` of this type and
 states every operation in terms of the functions below.
 */
module SetSpec {

  datatype Option<T> = None | Some(value: T)

  /** The members of a sequence, taken as a set. */
  ghost function Elements<T>(s: seq<T>): set<T>
  {
    set x | x in s
  }

  /** No element occurs twice in `s`. */
  ghost predicate NoDuplicates<T>(s: seq<T>)
  {
    forall i, j :: 0 <= i < j < |s| ==> s[i] != s[j]
  }

  /** `s` lists every member of `c` exactly once, in some unspecified order:
      what a slice built from the keys of a map holds. */
  ghost predicate Enumerates<T>(s: seq<T>, c: set<T>)
  {
    NoDuplicates(s) && Elements(s) == c
  }

  /** The set after adding `x`: `x` is a member, nothing else changes, and
      the size grows by one exactly when `x` was absent. */
  ghost function InsertInto<T>(c: set<T>, x: T): (r: set<T>)
    ensures x in r && c <= r && r - c <= {x}
    ensures |r| == if x in c then |c| else |c| + 1
  {
    c + {x}
  }

  /** The set after deleting `x`: `x` is not a member, nothing else changes,
      and the size drops by one exactly when `x` was present. */
  ghost function RemoveFrom<T>(c: set<T>, x: T): (r: set<T>)
    ensures x !in r && r <= c && c - r <= {x}
    ensures |r| == if x in c then |c| - 1 else |c|
  {
    c - {x}
  }

  /** The set a variadic constructor builds: start from the empty set and
      insert the items one after another, in argument order. */
  ghost function FromItems<T>(items: seq<T>): (c: set<T>)
    ensures forall i :: 0 <= i < |items| ==> items[i] in c
    ensures c <= Elements(items)
    ensures |c| <= |items|
  {
    if items == [] then {}
    else InsertInto(FromItems(items[..|items| - 1]), items[|items| - 1])
  }

  /** Duplicates collapse: the constructor keeps exactly the distinct items. */
  lemma FromItemsIsElements<T>(items: seq<T>)
    ensures FromItems(items) == Elements(items)
  {
  }

  /** An enumeration of `c` has exactly `|c|` entries, so a slice built from
      the keys has the set's size as its length. */
  lemma {:induction false} EnumerationLength<T>(s: seq<T>, c: set<T>)
    requires Enumerates(s, c)
    ensures |s| == |c|
  {
    if s != [] {
      var last := s[|s| - 1];
      var init := s[..|s| - 1];
      assert Elements(init) == c - {last} by {
        forall x | x in c - {last} ensures x in init {
          var k :| 0 <= k < |s| && s[k] == x;
          assert k < |s| - 1;
          assert init[k] == x;
        }
      }
      EnumerationLength(init, c - {last});
    }
  }

  /** Constructing from pairwise distinct items gives one member per item. */
  lemma DistinctItemsSize<T>(items: seq<T>)
    requires NoDuplicates(items)
    ensures |FromItems(items)| == |items|
  {
    FromItemsIsElements(items);
    EnumerationLength(items, FromItems(items));
  }

  /** The only enumeration of a one-member set is the one-element sequence. */
  lemma EnumerationOfSingleton<T>(s: seq<T>, x: T)
    requires Enumerates(s, {x})
    ensures s == [x]
  {
    EnumerationLength(s, {x});
    assert s[0] in Elements(s);
  }

  /** Inserting twice is the same as inserting once. */
  lemma InsertIdempotent<T>(c: set<T>, x: T)
    ensures InsertInto(InsertInto(c, x), x) == InsertInto(c, x)
    ensures |InsertInto(InsertInto(c, x), x)| == |InsertInto(c, x)|
  {
  }

  /** Removing an absent element changes nothing. */
  lemma RemoveAbsentIsNoOp<T>(c: set<T>, x: T)
    requires x !in c
    ensures RemoveFrom(c, x) == c
  {
  }

  /** One call of a mutator, for reasoning about sequences of calls. */
  datatype Op<T> = Insert(item: T) | Remove(item: T)

  /** The set after one mutator call. */
  ghost function Step<T>(c: set<T>, op: Op<T>): set<T>
  {
    match op
    case Insert(x) => InsertInto(c, x)
    case Remove(x) => RemoveFrom(c, x)
  }

  /** The set after a sequence of mutator calls, first call first. */
  ghost function Run<T>(c: set<T>, ops: seq<Op<T>>): set<T>
  {
    if ops == [] then c else Step(Run(c, ops[..|ops| - 1]), ops[|ops| - 1])
  }

  /** Whether the last call in `ops` that names `x` is an Insert; `None`
      when no call names `x`. */
  ghost function LastCallInserts<T>(ops: seq<Op<T>>, x: T): Option<bool>
  {
    if ops == [] then None
    else if ops[|ops| - 1].item == x then Some(ops[|ops| - 1].Insert?)
    else LastCallInserts(ops[..|ops| - 1], x)
  }

  /** Membership after a sequence of Insert/Remove calls: `x` is a member
      exactly when the last call naming it was an Insert, or, if no call
      named it, when it was a member to begin with. */
  lemma {:induction false} RunMembership<T>(c: set<T>, ops: seq<Op<T>>, x: T)
    ensures x in Run(c, ops) <==>
      match LastCallInserts(ops, x)
      case None => x in c
      case Some(inserted) => inserted
  {
    if ops != [] {
      RunMembership(c, ops[..|ops| - 1], x);
    }
  }

  /** Constructing from 1, 2, 2, 3, 3, 3 gives the three members 1, 2, 3. */
  lemma DuplicateItemsCollapse()
    ensures FromItems([1, 2, 2, 3, 3, 3]) == {1, 2, 3}
    ensures |FromItems([1, 2, 2, 3, 3, 3])| == 3
  {
    FromItemsIsElements([1, 2, 2, 3, 3, 3]);
    assert Elements([1, 2, 2, 3, 3, 3]) == {1, 2, 3};
  }

  /** Starting from {1, 2, 3}, Insert(4) then Remove(2): any enumeration of
      the result has length 3, lists 1, 3 and 4, and does not list 2. */
  lemma InsertThenRemoveEnumeration(s: seq<int>)
    requires Enumerates(s, RemoveFrom(InsertInto({1, 2, 3}, 4), 2))
    ensures |s| == 3
    ensures 1 in s && 3 in s && 4 in s && 2 !in s
  {
    var c := RemoveFrom(InsertInto({1, 2, 3}, 4), 2);
    assert c == {1, 3, 4};
    EnumerationLength(s, c);
    assert 1 in Elements(s) && 3 in Elements(s) && 4 in Elements(s);
  }
}
