/**
 `Set[T]` of set.go: a generic set whose members are the keys of a map
 field `data`, changed in place by Insert, Remove and Clear.
 */
module PlainSet {
  import opened SetSpec

  class Set<T(==)> {
    /** The backing map; the unit value plays the part of Go's `struct{}`. */
    var data: map<T, ()>
    /** The abstract value: the set of members. */
    ghost var contents: set<T>

    ghost predicate Valid()
      reads this
    {
      contents == data.Keys
    }

    /** NewSet: a set holding exactly the distinct items given. */
    constructor (items: seq<T>)
      ensures Valid()
      ensures contents == Elements(items)
      ensures Size() <= |items|
    {
      var m: map<T, ()> := map[];
      for i := 0 to |items|
        invariant m.Keys == FromItems(items[..i])
      {
        assert items[..i + 1][..i] == items[..i];
        m := m[items[i] := ()];
      }
      assert items[..|items|] == items;
      FromItemsIsElements(items);
      data := m;
      contents := m.Keys;
    }

    /** Whether `item` is a member; reads only. */
    function Contains(item: T): (b: bool)
      reads this
      requires Valid()
      ensures b <==> item in contents
    {
      item in data
    }

    /** Adds `item`; a no-op when it is already a member. */
    method Insert(item: T)
      requires Valid()
      modifies this
      ensures Valid()
      ensures contents == InsertInto(old(contents), item)
      ensures Size() == if item in old(contents) then old(Size()) else old(Size()) + 1
    {
      data := data[item := ()];
      contents := contents + {item};
    }

    /** Deletes `item`; a no-op when it is not a member. */
    method Remove(item: T)
      requires Valid()
      modifies this
      ensures Valid()
      ensures contents == RemoveFrom(old(contents), item)
      ensures Size() == if item in old(contents) then old(Size()) - 1 else old(Size())
    {
      data := data - {item};
      contents := contents - {item};
    }

    /** The number of members. */
    function Size(): (n: nat)
      reads this
      requires Valid()
      ensures n == |contents|
    {
      |data|
    }

    /** Whether there are no members. */
    function IsEmpty(): (b: bool)
      reads this
      requires Valid()
      ensures b <==> contents == {}
      ensures b <==> Size() == 0
    {
      Size() == 0
    }

    /** Removes every member. */
    method Clear()
      requires Valid()
      modifies this
      ensures Valid()
      ensures contents == {} && Size() == 0
      ensures forall x :: x in old(contents) ==> !Contains(x)
    {
      data := map[];
      contents := {};
    }

    /** A new sequence listing every member once, in an order the set does
        not promise; the set itself is not changed. */
    method ToSlice() returns (items: seq<T>)
      requires Valid()
      ensures Enumerates(items, contents)
      ensures |items| == Size()
    {
      items := [];
      var rest := data.Keys;
      while rest != {}
        invariant NoDuplicates(items)
        invariant Elements(items) !! rest
        invariant Elements(items) + rest == contents
        decreases rest
      {
        var item :| item in rest;
        items := items + [item];
        rest := rest - {item};
      }
      EnumerationLength(items, contents);
    }
  }
}
