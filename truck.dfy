/**
 * Trucks: the collection volume whose list of items is the score (Assets/Scripts/Truck/Truck.cs).
 * Entries are appended without a duplicate check; an exit removes the first occurrence.
 */
module Trucks {
  import opened Items

  /** Only colliders with this tag are recorded. */
  const ItemTag: string := "Item"

  /** The summed value of a list of items, accumulated front to back. */
  function ValueSum(items: seq<Item>): (total: real)
    ensures (forall k :: 0 <= k < |items| ==> items[k].value >= 0.0) ==> total >= 0.0
  {
    if items == [] then 0.0 else ValueSum(items[..|items| - 1]) + items[|items| - 1].value
  }

  /** The list with its first occurrence of `x` removed (List.Remove); unchanged when `x` is absent. */
  function RemoveFirst(items: seq<Item>, x: Item): (r: seq<Item>)
    ensures x in items ==> |r| == |items| - 1 && multiset(r) + multiset{x} == multiset(items)
    ensures x !in items ==> r == items
  {
    if items == [] then []
    else
      assert items == [items[0]] + items[1..];
      if items[0] == x then items[1..]
      else [items[0]] + RemoveFirst(items[1..], x)
  }

  lemma {:induction false} ValueSumAppend(s: seq<Item>, t: seq<Item>)
    ensures ValueSum(s + t) == ValueSum(s) + ValueSum(t)
    decreases |t|
  {
    if t != [] {
      var last := |t| - 1;
      assert (s + t)[..|s + t| - 1] == s + t[..last];
      ValueSumAppend(s, t[..last]);
    } else {
      assert s + t == s;
    }
  }

  /** Removing one occurrence of a present item lowers the total by exactly that item's value. */
  lemma {:induction false} ValueSumRemoveFirst(items: seq<Item>, x: Item)
    requires x in items
    ensures ValueSum(RemoveFirst(items, x)) == ValueSum(items) - x.value
    decreases |items|
  {
    var rest := items[1..];
    assert items == [items[0]] + rest;
    ValueSumAppend([items[0]], rest);
    assert ValueSum([items[0]]) == items[0].value by {
      assert [items[0]][..0] == [];
    }
    if items[0] != x {
      ValueSumRemoveFirst(rest, x);
      ValueSumAppend([items[0]], RemoveFirst(rest, x));
    }
  }

  /** An item entering and then leaving the truck restores its count and total (the order may change). */
  lemma EnterThenExit(items: seq<Item>, x: Item)
    ensures |RemoveFirst(items + [x], x)| == |items|
    ensures multiset(RemoveFirst(items + [x], x)) == multiset(items)
    ensures ValueSum(RemoveFirst(items + [x], x)) == ValueSum(items)
  {
    assert x in items + [x];
    var r := RemoveFirst(items + [x], x);
    assert multiset(items + [x]) == multiset(items) + multiset{x};
    assert multiset(r) == (multiset(r) + multiset{x}) - multiset{x};
    assert (multiset(items) + multiset{x}) - multiset{x} == multiset(items);
    ValueSumRemoveFirst(items + [x], x);
    assert (items + [x])[..|items|] == items;
  }

  /** Entering the same item twice counts it twice. */
  lemma EnterTwice(items: seq<Item>, x: Item)
    ensures |items + [x] + [x]| == |items| + 2
    ensures ValueSum(items + [x] + [x]) == ValueSum(items) + 2.0 * x.value
  {
  }

  class Truck {
    var items: seq<Item>

    constructor ()
      ensures items == []
    {
      items := [];
    }

    /** The number of recorded entries; zero exactly when nothing is recorded. */
    function ItemsCount(): (n: nat)
      reads this
      ensures n == |multiset(items)|
      ensures n == 0 <==> items == []
    {
      |items|
    }

    /** The summed value of every recorded entry, accumulated in list order. */
    method TotalValue() returns (total: real)
      ensures total == ValueSum(items)
      ensures items == [] ==> total == 0.0
    {
      total := 0.0;
      var i := 0;
      while i < |items|
        invariant 0 <= i <= |items|
        invariant total == ValueSum(items[..i])
      {
        assert items[..i + 1][..i] == items[..i];
        total := total + items[i].value;
        i := i + 1;
      }
      assert items[..|items|] == items;
    }

    /** A collider entering the truck: an Item-tagged one is appended, even if already recorded. */
    method OnTriggerEnter2D(other: Collider)
      requires other.tag == ItemTag ==> other.item != null
      modifies this
      ensures other.tag == ItemTag ==> items == old(items) + [other.item]
      ensures other.tag != ItemTag ==> items == old(items)
    {
      if other.tag == ItemTag {
        items := items + [other.item];
      }
    }

    /**
     * A collider leaving the truck: while the scene is loaded, an Item-tagged one loses one
     * recorded occurrence if it has any.
     */
    method OnTriggerExit2D(other: Collider, sceneLoaded: bool)
      modifies this
      ensures sceneLoaded && other.tag == ItemTag && other.item != null ==> items == RemoveFirst(old(items), other.item)
      ensures !sceneLoaded || other.tag != ItemTag || other.item == null ==> items == old(items)
    {
      if !sceneLoaded {
        return;
      }
      if other.tag == ItemTag && other.item != null {
        if other.item in items {
          items := RemoveFirst(items, other.item);
        }
      }
    }
  }
}
