/** The inventory list: an ordered sequence of non-owning product
    references that tolerates duplicates. */
module Inventory {
  import opened Products

  /** What `remove` keeps: the elements whose id differs from `id`, in their
      original order. */
  function WithoutId(s: seq<Product>, id: int): (r: seq<Product>)
    ensures |r| <= |s|
    ensures forall i :: 0 <= i < |r| ==> r[i] in s && r[i].id != id
    ensures forall i :: 0 <= i < |s| && s[i].id != id ==> s[i] in r
    decreases |s|
  {
    if s == [] then []
    else WithoutId(s[..|s| - 1], id) + (if s[|s| - 1].id != id then [s[|s| - 1]] else [])
  }

  /** Position of the first element with id `id`, or `|s|` when there is none. */
  function IndexOfId(s: seq<Product>, id: int): (k: nat)
    ensures k <= |s|
    ensures forall j :: 0 <= j < k ==> s[j].id != id
    ensures k < |s| ==> s[k].id == id
    decreases |s|
  {
    if s == [] then 0
    else if s[0].id == id then 0
    else 1 + IndexOfId(s[1..], id)
  }

  /** What `find` returns: the first element with id `id`, or null. */
  function FirstWithId(s: seq<Product>, id: int): (r: Product?)
    ensures r == null <==> forall j :: 0 <= j < |s| ==> s[j].id != id
    ensures r != null ==> r in s && r.id == id
  {
    var k := IndexOfId(s, id);
    if k < |s| then s[k] else null
  }

  /** After a removal nothing with that id can be found any more. */
  lemma RemoveThenFind(s: seq<Product>, id: int)
    ensures FirstWithId(WithoutId(s, id), id) == null
  {
  }

  /** Removal keeps each element with a different id exactly as often as it
      occurred, and drops every element with the removed id. */
  lemma {:induction false} WithoutIdCount(s: seq<Product>, id: int, q: Product)
    ensures multiset(WithoutId(s, id))[q] == if q.id == id then 0 else multiset(s)[q]
    decreases |s|
  {
    if s != [] {
      var init, last := s[..|s| - 1], s[|s| - 1];
      assert s == init + [last];
      WithoutIdCount(init, id, q);
    }
  }

  /** Removal works element by element: it commutes with concatenation, so
      the relative order of the survivors is that of the input. */
  lemma {:induction false} WithoutIdAppend(a: seq<Product>, b: seq<Product>, id: int)
    ensures WithoutId(a + b, id) == WithoutId(a, id) + WithoutId(b, id)
    decreases |b|
  {
    if b != [] {
      var init, last := b[..|b| - 1], b[|b| - 1];
      assert (a + b)[..|a + b| - 1] == a + init;
      WithoutIdAppend(a, init, id);
    } else {
      assert a + b == a;
    }
  }

  /** Removing an id changes the list exactly when some element has it. */
  lemma {:induction false} WithoutIdUnchanged(s: seq<Product>, id: int)
    ensures WithoutId(s, id) == s <==> forall j :: 0 <= j < |s| ==> s[j].id != id
    decreases |s|
  {
    if s != [] {
      var init := s[..|s| - 1];
      WithoutIdUnchanged(init, id);
      if forall j :: 0 <= j < |s| ==> s[j].id != id {
        assert s == init + [s[|s| - 1]];
      } else {
        var j :| 0 <= j < |s| && s[j].id == id;
        assert s[j] in s;
        assert s[j] !in WithoutId(s, id);
      }
    }
  }

  /** Removing twice is removing once. */
  lemma RemoveIdempotent(s: seq<Product>, id: int)
    ensures WithoutId(WithoutId(s, id), id) == WithoutId(s, id)
  {
    WithoutIdUnchanged(WithoutId(s, id), id);
  }

  /** Appending never hides an earlier match: `find` after `add` returns the
      earlier element with that id if there is one, else the added one if its
      id matches. */
  lemma {:induction false} AddThenFind(s: seq<Product>, x: Product, id: int)
    ensures FirstWithId(s + [x], id) ==
      if FirstWithId(s, id) != null then FirstWithId(s, id)
      else if x.id == id then x else null
  {
    var k := IndexOfId(s, id);
    var t := s + [x];
    var m := IndexOfId(t, id);
    if k < |s| {
      assert t[k] == s[k];
      assert m == k;
    } else {
      assert forall j :: 0 <= j < |s| ==> t[j] == s[j];
      assert t[|s|] == x;
      assert m >= |s|;
      if x.id == id {
        assert m == |s|;
      }
    }
  }

  /** The list object. The C++ template is instantiated only with product
      pointers, so the elements are product references. */
  class InventoryList {
    var data: seq<Product>

    constructor ()
      ensures data == []
    {
      data := [];
    }

    /** Append at the end; no uniqueness check. */
    method Add(item: Product)
      modifies this
      ensures data == old(data) + [item]
    {
      data := data + [item];
    }

    /** Erase every element equal to `item`, that is, with the same id. */
    method Remove(item: Product)
      modifies this
      ensures data == WithoutId(old(data), item.id)
    {
      var s, kept := data, [];
      var i := 0;
      while i < |s|
        invariant 0 <= i <= |s|
        invariant kept == WithoutId(s[..i], item.id)
      {
        var same := s[i].Equals(item);
        if !same {
          kept := kept + [s[i]];
        }
        assert s[..i + 1][..i] == s[..i];
        i := i + 1;
      }
      assert s[..i] == s;
      data := kept;
    }

    /** Linear scan in insertion order for the first element with id `id`. */
    method Find(id: int) returns (r: Product?)
      ensures r == FirstWithId(data, id)
      ensures r == null <==> forall j :: 0 <= j < |data| ==> data[j].id != id
    {
      var i := 0;
      while i < |data|
        invariant 0 <= i <= |data|
        invariant forall j :: 0 <= j < i ==> data[j].id != id
      {
        if data[i].id == id {
          return data[i];
        }
        i := i + 1;
      }
      return null;
    }

    method Size() returns (n: nat)
      ensures n == |data|
    {
      n := |data|;
    }
  }
}
