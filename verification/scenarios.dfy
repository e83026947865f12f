/**
 Client code that drives the two set classes through the scenarios of
 thread_unsafe_set_test.go and of the command-line demo; each method returns
 what the scenario observes and its postcondition states the expected value.
 */
module Scenarios {
  import opened SetSpec
  import PlainSet
  import UnsafeSet

  /** The demo builds {1, 2, 3} and asks for 1 and for 5. */
  method DemoContains() returns (has1: bool, has5: bool)
    ensures has1 && !has5
  {
    var s := new PlainSet.Set([1, 2, 3]);
    has1 := s.Contains(1);
    has5 := s.Contains(5);
  }

  /** A set built from no items is empty. */
  method NewEmpty() returns (size: nat, empty: bool, has1: bool)
    ensures size == 0 && empty && !has1
  {
    var s := new UnsafeSet.ThreadUnsafeSet<int>([]);
    size := s.Size();
    empty := s.IsEmpty();
    has1 := s.Contains(1);
  }

  /** Distinct items 1, 2, 3: size 3, each one a member, 4 is not. */
  method NewWithItems() returns (size: nat, has1: bool, has2: bool, has3: bool, has4: bool)
    ensures size == 3 && has1 && has2 && has3 && !has4
  {
    var items := [1, 2, 3];
    var s := new UnsafeSet.ThreadUnsafeSet(items);
    assert s.contents == {1, 2, 3};
    size := s.Size();
    has1, has2, has3, has4 := s.Contains(1), s.Contains(2), s.Contains(3), s.Contains(4);
  }

  /** Items 1, 2, 2, 3, 3, 3 collapse to three members. */
  method NewWithDuplicates() returns (size: nat, has1: bool, has2: bool, has3: bool)
    ensures size == 3 && has1 && has2 && has3
  {
    var s := new UnsafeSet.ThreadUnsafeSet([1, 2, 2, 3, 3, 3]);
    assert s.contents == {1, 2, 3};
    size := s.Size();
    has1, has2, has3 := s.Contains(1), s.Contains(2), s.Contains(3);
  }

  /** Inserting into the empty set gives a one-member set. */
  method InsertNew() returns (size: nat, has1: bool)
    ensures size == 1 && has1
  {
    var s := new UnsafeSet.ThreadUnsafeSet<int>([]);
    s.Insert(1);
    size := s.Size();
    has1 := s.Contains(1);
  }

  /** Inserting a member again leaves the size as it was. */
  method InsertExisting() returns (before: nat, after: nat, has2: bool)
    ensures before == after == 3 && has2
  {
    var items := [1, 2, 3];
    var s := new UnsafeSet.ThreadUnsafeSet(items);
    assert s.contents == {1, 2, 3};
    before := s.Size();
    s.Insert(2);
    after := s.Size();
    has2 := s.Contains(2);
  }

  /** Inserting 1 to 5 one by one into the empty set gives those five members. */
  method MultipleInserts() returns (size: nat, all: bool)
    ensures size == 5 && all
  {
    var items := [1, 2, 3, 4, 5];
    var s := new UnsafeSet.ThreadUnsafeSet<int>([]);
    for i := 0 to |items|
      invariant s.Valid() && s.contents <= {1, 2, 3, 4, 5}
      invariant forall j :: 0 <= j < i ==> items[j] in s.contents
    {
      s.Insert(items[i]);
    }
    assert items[0] in s.contents && items[1] in s.contents && items[2] in s.contents;
    assert items[3] in s.contents && items[4] in s.contents;
    assert s.contents == {1, 2, 3, 4, 5};
    size := s.Size();
    all := s.Contains(1) && s.Contains(2) && s.Contains(3) && s.Contains(4) && s.Contains(5);
  }

  /** Removing the member 4 of {3, 4, 5, 6, 7} leaves four members. */
  method RemoveExisting() returns (before: nat, after: nat, has4: bool)
    ensures before == 5 && after == 4 && !has4
  {
    var items := [3, 4, 5, 6, 7];
    var s := new UnsafeSet.ThreadUnsafeSet(items);
    assert s.contents == {3, 4, 5, 6, 7};
    before := s.Size();
    s.Remove(4);
    after := s.Size();
    has4 := s.Contains(4);
  }

  /** Removing 1022, which is not a member, changes nothing. */
  method RemoveAbsent() returns (before: nat, after: nat, has1022: bool)
    ensures before == after == 5 && !has1022
  {
    var items := [3, 4, 5, 6, 7];
    var s := new UnsafeSet.ThreadUnsafeSet(items);
    assert s.contents == {3, 4, 5, 6, 7};
    before := s.Size();
    s.Remove(1022);
    after := s.Size();
    has1022 := s.Contains(1022);
  }

  /** Sizes along {1, 2, 3}, Insert(4), Remove(1): 3, then 4, then 3. */
  method SizeAfterModifications() returns (initial: nat, afterInsert: nat, afterRemove: nat)
    ensures initial == 3 && afterInsert == 4 && afterRemove == 3
  {
    var items := [1, 2, 3];
    var s := new UnsafeSet.ThreadUnsafeSet(items);
    assert s.contents == {1, 2, 3};
    initial := s.Size();
    s.Insert(4);
    afterInsert := s.Size();
    s.Remove(1);
    afterRemove := s.Size();
  }

  /** A set built from 3, 4, 5 is not empty. */
  method NonEmpty() returns (empty: bool)
    ensures !empty
  {
    var s := new UnsafeSet.ThreadUnsafeSet([3, 4, 5]);
    assert 3 in s.contents;
    empty := s.IsEmpty();
  }

  /** Clearing the empty set keeps it empty. */
  method ClearEmpty() returns (size: nat, empty: bool)
    ensures size == 0 && empty
  {
    var s := new UnsafeSet.ThreadUnsafeSet<int>([]);
    s.Clear();
    size := s.Size();
    empty := s.IsEmpty();
  }

  /** {3, 4, 5} is not empty before Clear; clearing removes every former member. */
  method ClearNonEmpty() returns (emptyBefore: bool, before: nat, size: nat, empty: bool, anyLeft: bool)
    ensures !emptyBefore && before == 3 && size == 0 && empty && !anyLeft
  {
    var items := [3, 4, 5];
    var s := new UnsafeSet.ThreadUnsafeSet(items);
    assert s.contents == {3, 4, 5};
    emptyBefore := s.IsEmpty();
    before := s.Size();
    s.Clear();
    size := s.Size();
    empty := s.IsEmpty();
    anyLeft := s.Contains(3) || s.Contains(4) || s.Contains(5);
  }

  /** The slice of the empty set is empty. */
  method ToSliceEmpty() returns (slice: seq<int>)
    ensures slice == []
  {
    var s := new UnsafeSet.ThreadUnsafeSet<int>([]);
    slice := s.ToSlice();
  }

  /** The slice of {42} is exactly [42]. */
  method ToSliceSingle() returns (slice: seq<int>)
    ensures slice == [42]
  {
    var s := new UnsafeSet.ThreadUnsafeSet([42]);
    slice := s.ToSlice();
    EnumerationOfSingleton(slice, 42);
  }

  /** The slice of {1, 2, 3, 4, 5} has length 5 and lists each item. */
  method ToSliceMultiple() returns (slice: seq<int>)
    ensures |slice| == 5
    ensures 1 in slice && 2 in slice && 3 in slice && 4 in slice && 5 in slice
  {
    var items := [1, 2, 3, 4, 5];
    var s := new UnsafeSet.ThreadUnsafeSet(items);
    assert s.contents == {1, 2, 3, 4, 5};
    slice := s.ToSlice();
    assert forall x :: x in items ==> x in Elements(slice);
  }

  /** {1, 2, 3}, Insert(4), Remove(2): the slice lists 1, 3 and 4, not 2. */
  method ToSliceAfterModifications() returns (slice: seq<int>)
    ensures |slice| == 3
    ensures 1 in slice && 3 in slice && 4 in slice && 2 !in slice
  {
    var s := new UnsafeSet.ThreadUnsafeSet([1, 2, 3]);
    assert s.contents == {1, 2, 3};
    s.Insert(4);
    s.Remove(2);
    slice := s.ToSlice();
    InsertThenRemoveEnumeration(slice);
  }

  /** Overwriting an entry of the returned slice leaves the set as it was. */
  method ToSliceIndependence() returns (has999: bool, has1: bool, has2: bool, has3: bool)
    ensures !has999 && has1 && has2 && has3
  {
    var s := new UnsafeSet.ThreadUnsafeSet([1, 2, 3]);
    var slice := s.ToSlice();
    if |slice| > 0 {
      slice := slice[0 := 999];
    }
    has999 := s.Contains(999);
    has1, has2, has3 := s.Contains(1), s.Contains(2), s.Contains(3);
  }
}
