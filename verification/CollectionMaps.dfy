/** The IR's collections while a file is read: a vector that owns the items and a map by input offset. */
module CollectionMaps {
  /** An item; `offset` is zero while unassigned. */
  class Item {
    var offset: nat

    constructor ()
      ensures offset == 0
    {
      offset := 0;
    }
  }

  /** The input offset, and for a code item also the offset of its debug info. */
  type Key = (nat, nat)

  predicate Less(a: Key, b: Key) {
    a.0 < b.0 || (a.0 == b.0 && a.1 < b.1)
  }

  predicate SortedKeys(ks: seq<Key>) {
    forall i, j | 0 <= i < j < |ks| :: Less(ks[i], ks[j])
  }

  lemma Total(a: Key, b: Key)
    ensures a == b || Less(a, b) || Less(b, a)
  {
  }

  /** The smallest key. */
  method SmallestKey(keys: set<Key>) returns (least: Key)
    requires keys != {}
    ensures least in keys && forall k | k in keys :: k == least || Less(least, k)
  {
    least :| least in keys;
    var rest := keys - {least};
    while rest != {}
      invariant least in keys && rest <= keys
      invariant forall k | k in keys - rest :: k == least || Less(least, k)
      decreases |rest|
    {
      var k :| k in rest;
      Total(k, least);
      if Less(k, least) {
        least := k;
      }
      forall x | x in keys - (rest - {k}) ensures x == least || Less(least, x) {
        assert x == k || x in keys - rest;
      }
      rest := rest - {k};
    }
  }

  /** The order in which the ordered map is walked. */
  method KeysInOrder(keys: set<Key>) returns (ks: seq<Key>)
    ensures SortedKeys(ks) && |ks| == |keys| && forall k :: k in ks <==> k in keys
  {
    ks := [];
    var rest := keys;
    while rest != {}
      invariant rest <= keys && |ks| + |rest| == |keys|
      invariant forall k :: k in ks <==> k in keys - rest
      invariant SortedKeys(ks) && forall a, b | a in ks && b in rest :: Less(a, b)
      decreases |rest|
    {
      var k := SmallestKey(rest);
      ks := ks + [k];
      rest := rest - {k};
    }
  }

  predicate NoDuplicates(s: seq<Item>) {
    forall i, j | 0 <= i < j < |s| :: s[i] != s[j]
  }

  /** Different keys have different items. */
  predicate Injective(m: map<Key, Item>) {
    forall a, b | a in m && b in m && a != b :: m[a] != m[b]
  }

  /** The vector and the map are in bijection. */
  predicate Bijection(vector: seq<Item>, m: map<Key, Item>) {
    && NoDuplicates(vector) && Injective(m)
    && (forall x | x in vector :: x in m.Values) && (forall k | k in m :: m[k] in vector)
    && |vector| == |m|
  }

  class Collection {
    var vector: seq<Item>
    var byOffset: map<Key, Item>

    ghost predicate Valid()
      reads this
    {
      Bijection(vector, byOffset)
    }

    constructor ()
      ensures Valid() && vector == [] && byOffset == map[]
    {
      vector := [];
      byOffset := map[];
    }

    /** `CreateAndAddItem`, with its check that the offset is new. */
    method CreateAndAddItem(key: Key, eagerlyAssignOffsets: bool) returns (item: Item)
      requires Valid() && key !in byOffset
      modifies this
      ensures Valid() && fresh(item)
      ensures vector == old(vector) + [item] && byOffset == old(byOffset)[key := item]
      ensures item.offset == if eagerlyAssignOffsets then key.0 else 0
    {
      item := new Item();
      if eagerlyAssignOffsets {
        item.offset := key.0;
      }
      BijectionGrows(vector, byOffset, key, item);
      vector := vector + [item];
      byOffset := byOffset[key := item];
    }

    lemma ItemsDiffer()
      requires Valid()
      ensures forall a, b | a in byOffset && b in byOffset && a != b :: byOffset[a] != byOffset[b]
    {
    }

    /** The readers of items that may be shared: the item already read from there, or a new one. */
    method GetOrCreate(key: Key, eagerlyAssignOffsets: bool) returns (item: Item)
      requires Valid()
      modifies this
      ensures Valid() && key in byOffset && item == byOffset[key] && item in vector
      ensures key in old(byOffset) ==> vector == old(vector) && byOffset == old(byOffset)
      ensures key !in old(byOffset) ==> fresh(item) && vector == old(vector) + [item] && byOffset == old(byOffset)[key := item]
      ensures key !in old(byOffset) ==> item.offset == if eagerlyAssignOffsets then key.0 else 0
    {
      if key in byOffset {
        item := byOffset[key];
        assert item in byOffset.Values;
      } else {
        item := CreateAndAddItem(key, eagerlyAssignOffsets);
      }
    }

    /**
      * `SortByMapOrder`: the owning pointers are moved out of the vector into a temporary map and
      * moved back in the order of the offsets. None is lost, none is there twice.
      */
    method SortByMapOrder() returns (ghost keys: seq<Key>)
      requires Valid()
      modifies this`vector
      ensures Valid() && byOffset == old(byOffset)
      ensures multiset(vector) == multiset(old(vector))
      ensures |keys| == |vector| && forall i, j | 0 <= i < j < |keys| :: keys[i].0 < keys[j].0 || (keys[i].0 == keys[j].0 && keys[i].1 < keys[j].1)
      ensures forall i | 0 <= i < |vector| :: keys[i] in byOffset && vector[i] == byOffset[keys[i]]
    {
      var slots, pointers := MoveOut(vector);
      var ks := KeysInOrder(byOffset.Keys);
      var sorted := MoveBack(slots, pointers, ks);
      keys := ks;
      SamePermutation(vector, byOffset, ks, sorted);
      vector := sorted;
    }

    /** Every pointer leaves the vector and is kept under its own address. */
    method MoveOut(elements: seq<Item?>) returns (slots: seq<Item?>, pointers: map<Item, Item?>)
      requires Valid() && elements == vector
      ensures |slots| == |vector| && forall i | 0 <= i < |slots| :: slots[i] == null
      ensures forall x | x in vector :: x in pointers && pointers[x] == x
    {
      slots := elements;
      pointers := map[];
      for i := 0 to |slots|
        invariant |slots| == |vector|
        invariant forall j | 0 <= j < i :: slots[j] == null && vector[j] in pointers && pointers[vector[j]] == vector[j]
        invariant forall j | i <= j < |slots| :: slots[j] == vector[j]
      {
        var element: Item := slots[i];
        pointers := pointers[element := element];
        slots := slots[i := null];
      }
    }

    /** The pointers, moved back in the order of the keys. Each is still there when its turn comes. */
    method MoveBack(slots: seq<Item?>, pointers: map<Item, Item?>, ks: seq<Key>) returns (sorted: seq<Item>)
      requires Valid() && |slots| == |vector| == |ks| && SortedKeys(ks) && forall k :: k in ks <==> k in byOffset
      requires forall x | x in vector :: x in pointers && pointers[x] == x
      ensures |sorted| == |ks| && forall i | 0 <= i < |sorted| :: ks[i] in byOffset && sorted[i] == byOffset[ks[i]]
    {
      var left := pointers;
      sorted := [];
      for i := 0 to |slots|
        invariant |sorted| == i && forall j | 0 <= j < i :: ks[j] in byOffset && sorted[j] == byOffset[ks[j]]
        invariant forall j | i <= j < |ks| :: ks[j] in byOffset && byOffset[ks[j]] in left && left[byOffset[ks[j]]] == byOffset[ks[j]]
      {
        assert ks[i] in ks;
        var x := byOffset[ks[i]];
        var moved: Item := left[x];
        left := left[x := null];
        sorted := sorted + [moved];
        forall j | i + 1 <= j < |ks| ensures byOffset[ks[j]] != x { assert Less(ks[i], ks[j]); }
      }
    }
  }

  predicate Distinct(offsets: seq<nat>) {
    forall i, j | 0 <= i < j < |offsets| :: offsets[i] != offsets[j]
  }

  /**
    * The string table's reader, which does not look an offset up before it creates the item: it
    * gets through, one item for each string, exactly when no two strings share their data. At the
    * first repeated offset `AddItem` aborts.
    */
  method ReadStrings(offsets: seq<nat>, eagerlyAssignOffsets: bool) returns (c: Collection, aborted: bool)
    ensures fresh(c) && c.Valid() && (aborted <==> !Distinct(offsets))
    ensures !aborted ==> |c.vector| == |offsets|
    ensures !aborted ==> forall i | 0 <= i < |offsets| :: (offsets[i], 0) in c.byOffset && c.byOffset[(offsets[i], 0)] == c.vector[i]
  {
    hide *;
    c := new Collection();
    NoOffsets(offsets);
    for n := 0 to |offsets|
      invariant fresh(c) && c.Valid() && |c.vector| == n && Distinct(offsets[..n])
      invariant forall i | 0 <= i < n :: (offsets[i], 0) in c.byOffset && c.byOffset[(offsets[i], 0)] == c.vector[i]
      invariant forall k | k in c.byOffset :: k.1 == 0 && k.0 in offsets[..n]
    {
      var key := (offsets[n], 0);
      OneMoreOffset(offsets, n);
      if key in c.byOffset {
        return c, true;
      }
      forall i | 0 <= i < n ensures offsets[i] != offsets[n] { assert (offsets[i], 0) in c.byOffset; }
      assert offsets[..n + 1] == offsets[..n] + [offsets[n]];
      var item := c.CreateAndAddItem(key, eagerlyAssignOffsets);
    }
    assert offsets[..|offsets|] == offsets;
    aborted := false;
  }

  lemma NoOffsets(offsets: seq<nat>)
    ensures Distinct(offsets[..0])
  {
  }

  lemma OneMoreOffset(offsets: seq<nat>, n: nat)
    requires n < |offsets| && Distinct(offsets[..n])
    ensures offsets[n] in offsets[..n] ==> !Distinct(offsets)
    ensures (forall i | 0 <= i < n :: offsets[i] != offsets[n]) ==> Distinct(offsets[..n + 1])
  {
    if offsets[n] in offsets[..n] {
      var i :| 0 <= i < n && offsets[i] == offsets[n];
    }
    if forall i | 0 <= i < n :: offsets[i] != offsets[n] {
      forall i, j | 0 <= i < j < n + 1 ensures offsets[i] != offsets[j] {
        if j < n { assert offsets[..n][i] != offsets[..n][j]; }
      }
    }
  }

  /**
    * A build of a collection of shared items that reads the given offsets in turn and then sorts:
    * reads of equal offsets share one item, reads of different offsets never do, and the vector ends
    * up with exactly the items read, in the order of their offsets.
    */
  method Build(keys: seq<Key>, eagerlyAssignOffsets: bool) returns (c: Collection, items: seq<Item>, ghost order: seq<Key>)
    ensures fresh(c) && c.Valid() && |items| == |keys|
    ensures forall i, j | 0 <= i < |keys| && 0 <= j < |keys| :: items[i] == items[j] <==> keys[i] == keys[j]
    ensures forall k :: k in c.byOffset <==> k in keys
    ensures forall i | 0 <= i < |keys| :: items[i].offset == if eagerlyAssignOffsets then keys[i].0 else 0
    ensures |order| == |c.vector| && forall i, j | 0 <= i < j < |order| :: order[i].0 < order[j].0 || (order[i].0 == order[j].0 && order[i].1 < order[j].1)
    ensures forall i | 0 <= i < |order| :: order[i] in keys && c.vector[i] == c.byOffset[order[i]]
  {
    hide *;
    c := new Collection();
    items := [];
    for n := 0 to |keys|
      invariant fresh(c) && c.Valid() && |items| == n
      invariant forall k :: k in c.byOffset <==> k in keys[..n]
      invariant forall i | 0 <= i < n :: keys[i] in c.byOffset && items[i] == c.byOffset[keys[i]]
      invariant forall i | 0 <= i < n :: items[i].offset == if eagerlyAssignOffsets then keys[i].0 else 0
    {
      assert keys[..n + 1] == keys[..n] + [keys[n]];
      var item := c.GetOrCreate(keys[n], eagerlyAssignOffsets);
      items := items + [item];
    }
    assert keys[..|keys|] == keys;
    c.ItemsDiffer();
    order := c.SortByMapOrder();
  }

  lemma BijectionGrows(vector: seq<Item>, m: map<Key, Item>, key: Key, item: Item)
    requires Bijection(vector, m) && key !in m && item !in vector
    ensures Bijection(vector + [item], m[key := item])
  {
    ValuesGrow(m, key, item);
    forall k | k in m ensures m[k] != item { assert m[k] in vector; }
  }

  lemma ValuesGrow(m: map<Key, Item>, key: Key, item: Item)
    requires key !in m
    ensures m[key := item].Values == m.Values + {item} && |m[key := item]| == |m| + 1
  {
    var n := m[key := item];
    assert n.Keys == m.Keys + {key};
    forall x | x in m.Values ensures x in n.Values {
      var k :| k in m && m[k] == x;
      assert n[k] == x;
    }
    assert n[key] == item;
  }

  lemma SamePermutation(vector: seq<Item>, m: map<Key, Item>, ks: seq<Key>, sorted: seq<Item>)
    requires Bijection(vector, m)
    requires SortedKeys(ks) && (forall k :: k in ks <==> k in m)
    requires |sorted| == |ks| && forall i | 0 <= i < |sorted| :: ks[i] in m && sorted[i] == m[ks[i]]
    requires |ks| == |m|
    ensures multiset(sorted) == multiset(vector) && Bijection(sorted, m)
  {
    forall i, j | 0 <= i < j < |sorted| ensures sorted[i] != sorted[j] { assert Less(ks[i], ks[j]); }
    forall k | k in m ensures m[k] in sorted {
      var i :| 0 <= i < |ks| && ks[i] == k;
      assert sorted[i] == m[k];
    }
    forall x | x in vector ensures x in sorted {
      assert x in m.Values;
      var k :| k in m && m[k] == x;
    }
    forall x: Item ensures multiset(sorted)[x] == multiset(vector)[x] {
      CountOf(sorted, x);
      CountOf(vector, x);
    }
  }

  lemma {:induction false} CountOf(s: seq<Item>, x: Item)
    requires NoDuplicates(s)
    ensures multiset(s)[x] == if x in s then 1 else 0
  {
    if s != [] {
      var n := |s| - 1;
      assert s == s[..n] + [s[n]];
      CountOf(s[..n], x);
      assert s[n] !in s[..n];
    }
  }
}
