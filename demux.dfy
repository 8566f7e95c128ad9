/**
 * Response Demultiplexer: the slots of one grid response grouped by their
 * `itemId` (script.py, the `slots_by_item.setdefault(...).append(...)` loops).
 * A Python dict keeps its keys in first-insertion order; `Groups.keys` is that order.
 */
module Demux {
  import opened Slots

  /** The slots the JSON importer keeps: an empty filter keeps all of them. */
  function Kept(slots: seq<RawSlot>, filter: set<int>): seq<RawSlot>
  {
    if slots == [] then []
    else
      var last := slots[|slots| - 1];
      Kept(slots[..|slots| - 1], filter) + (if filter == {} || last.itemId in filter then [last] else [])
  }

  /** The slots of room `id`, in input order. */
  function SlotsFor(slots: seq<RawSlot>, id: int): seq<RawSlot>
  {
    if slots == [] then []
    else
      var last := slots[|slots| - 1];
      SlotsFor(slots[..|slots| - 1], id) + (if last.itemId == id then [last] else [])
  }

  /** The distinct item ids, in order of first appearance. */
  function ItemOrder(slots: seq<RawSlot>): seq<int>
  {
    if slots == [] then []
    else
      var prefix := ItemOrder(slots[..|slots| - 1]);
      var id := slots[|slots| - 1].itemId;
      if id in prefix then prefix else prefix + [id]
  }

  predicate Distinct(ids: seq<int>)
  {
    forall i, j :: 0 <= i < j < |ids| ==> ids[i] != ids[j]
  }

  /** The groups of `keys`, concatenated in key order. */
  function Concat(keys: seq<int>, slots: seq<RawSlot>): seq<RawSlot>
  {
    if keys == [] then [] else Concat(keys[..|keys| - 1], slots) + SlotsFor(slots, keys[|keys| - 1])
  }

  /** `slots_by_item`: its keys in insertion order and the list each key maps to. */
  datatype Groups = Groups(keys: seq<int>, slotsOf: map<int, seq<RawSlot>>)

  /**
   * Groups the slots by item id, dropping those outside a non-empty filter
   * (the importer's `filter_item_ids`; the batch orchestrator passes no filter).
   */
  method GroupByItem(slots: seq<RawSlot>, filter: set<int>) returns (g: Groups)
    ensures g.keys == ItemOrder(Kept(slots, filter))
    ensures forall id :: id in g.slotsOf <==> id in g.keys
    ensures forall id :: id in g.slotsOf ==> g.slotsOf[id] == SlotsFor(Kept(slots, filter), id)
  {
    var keys: seq<int> := [];
    var slotsOf: map<int, seq<RawSlot>> := map[];
    ghost var kept: seq<RawSlot> := [];
    for i := 0 to |slots|
      invariant kept == Kept(slots[..i], filter)
      invariant GroupsOf(kept, keys, slotsOf)
    {
      var slot := slots[i];
      var id := slot.itemId;
      KeptSnoc(slots, i, filter);
      if filter == {} || id in filter {
        GroupSnoc(kept, slot, keys, slotsOf);
        if id in slotsOf {
          slotsOf := slotsOf[id := slotsOf[id] + [slot]];
        } else {
          slotsOf := slotsOf[id := [slot]];
          keys := keys + [id];
        }
        kept := kept + [slot];
      }
    }
    assert slots[..|slots|] == slots;
    g := Groups(keys, slotsOf);
  }

  /** `keys` and `slotsOf` are the key order and the groups of `slots`. */
  ghost predicate GroupsOf(slots: seq<RawSlot>, keys: seq<int>, slotsOf: map<int, seq<RawSlot>>)
  {
    && keys == ItemOrder(slots)
    && (forall id :: id in slotsOf <==> id in keys)
    && (forall id :: id in slotsOf ==> slotsOf[id] == SlotsFor(slots, id))
  }

  lemma KeptSnoc(slots: seq<RawSlot>, i: nat, filter: set<int>)
    requires i < |slots|
    ensures Kept(slots[..i + 1], filter)
         == Kept(slots[..i], filter) + (if filter == {} || slots[i].itemId in filter then [slots[i]] else [])
  {
    assert slots[..i + 1][..i] == slots[..i];
  }

  /** Appending one slot appends it to its group, opening the group (last in key order) if it is new. */
  lemma GroupSnoc(slots: seq<RawSlot>, x: RawSlot, keys: seq<int>, slotsOf: map<int, seq<RawSlot>>)
    requires GroupsOf(slots, keys, slotsOf)
    ensures x.itemId in slotsOf ==> GroupsOf(slots + [x], keys, slotsOf[x.itemId := slotsOf[x.itemId] + [x]])
    ensures x.itemId !in slotsOf ==> GroupsOf(slots + [x], keys + [x.itemId], slotsOf[x.itemId := [x]])
  {
    assert (slots + [x])[..|slots|] == slots;
    ItemOrderMembership(slots, x.itemId);
  }

  /** An id is a group key exactly when it has at least one slot. */
  lemma {:induction false} ItemOrderMembership(slots: seq<RawSlot>, id: int)
    ensures id in ItemOrder(slots) <==> SlotsFor(slots, id) != []
  {
    if slots != [] {
      ItemOrderMembership(slots[..|slots| - 1], id);
    }
  }

  /** A group holds only slots of its own item id. */
  lemma {:induction false} SlotsForOwnId(slots: seq<RawSlot>, id: int)
    ensures forall s :: s in SlotsFor(slots, id) ==> s.itemId == id
  {
    if slots != [] {
      SlotsForOwnId(slots[..|slots| - 1], id);
    }
  }

  /** Every slot has a group, and it is in the group of its own item id. */
  lemma {:induction false} EverySlotGrouped(slots: seq<RawSlot>, i: nat)
    requires i < |slots|
    ensures slots[i].itemId in ItemOrder(slots)
    ensures slots[i] in SlotsFor(slots, slots[i].itemId)
  {
    var n := |slots| - 1;
    if i < n {
      assert slots[..n][i] == slots[i];
      EverySlotGrouped(slots[..n], i);
    }
    ItemOrderMembership(slots, slots[i].itemId);
  }

  /** Group keys never repeat. */
  lemma {:induction false} ItemOrderDistinct(slots: seq<RawSlot>)
    ensures Distinct(ItemOrder(slots))
  {
    if slots != [] {
      ItemOrderDistinct(slots[..|slots| - 1]);
    }
  }

  /** Adding one slot at the end adds it to exactly the one group among distinct keys that is its own. */
  lemma {:induction false} ConcatSnoc(keys: seq<int>, slots: seq<RawSlot>, x: RawSlot)
    requires Distinct(keys)
    ensures multiset(Concat(keys, slots + [x]))
         == multiset(Concat(keys, slots)) + (if x.itemId in keys then multiset{x} else multiset{})
  {
    if keys != [] {
      var init := keys[..|keys| - 1];
      var k := keys[|keys| - 1];
      assert Distinct(init);
      ConcatSnoc(init, slots, x);
      SlotsForSnoc(slots, x, k);
      assert keys == init + [k];
      ConcatSnocStep(init, k, slots, x);
    }
  }

  /** The inductive step of `ConcatSnoc`, for the last key `k`. */
  lemma ConcatSnocStep(init: seq<int>, k: int, slots: seq<RawSlot>, x: RawSlot)
    requires k !in init
    requires multiset(Concat(init, slots + [x])) == multiset(Concat(init, slots)) + (if x.itemId in init then multiset{x} else multiset{})
    requires SlotsFor(slots + [x], k) == SlotsFor(slots, k) + (if x.itemId == k then [x] else [])
    ensures multiset(Concat(init + [k], slots + [x]))
         == multiset(Concat(init + [k], slots)) + (if x.itemId in init + [k] then multiset{x} else multiset{})
  {
    assert (init + [k])[..|init|] == init;
    var a, g := Concat(init, slots), SlotsFor(slots, k);
    var a', g' := Concat(init, slots + [x]), SlotsFor(slots + [x], k);
    var eg: seq<RawSlot> := if x.itemId == k then [x] else [];
    assert Concat(init + [k], slots) == a + g;
    assert Concat(init + [k], slots + [x]) == a' + g';
    MultisetAppend(a, g);
    MultisetAppend(a', g');
    MultisetAppend(g, eg);
    var ea: multiset<RawSlot> := if x.itemId in init then multiset{x} else multiset{};
    MultisetShuffle(multiset(a), ea, multiset(g), multiset(eg));
    assert x.itemId in init + [k] <==> x.itemId in init || x.itemId == k;
    assert (if x.itemId in init + [k] then multiset{x} else multiset{}) == ea + multiset(eg);
  }

  lemma MultisetAppend(a: seq<RawSlot>, b: seq<RawSlot>)
    ensures multiset(a + b) == multiset(a) + multiset(b)
  {
  }

  lemma MultisetShuffle(ma: multiset<RawSlot>, ea: multiset<RawSlot>, mg: multiset<RawSlot>, eg: multiset<RawSlot>)
    ensures (ma + ea) + (mg + eg) == (ma + mg) + (ea + eg)
  {
  }

  lemma SlotsForSnoc(slots: seq<RawSlot>, x: RawSlot, id: int)
    ensures SlotsFor(slots + [x], id) == SlotsFor(slots, id) + (if x.itemId == id then [x] else [])
  {
    assert (slots + [x])[..|slots|] == slots;
  }

  /** The groups, taken together, are the input slots: none dropped and none duplicated. */
  lemma {:induction false} GroupsPartition(slots: seq<RawSlot>)
    ensures multiset(Concat(ItemOrder(slots), slots)) == multiset(slots)
    ensures |Concat(ItemOrder(slots), slots)| == |slots|
  {
    if slots != [] {
      var init := slots[..|slots| - 1];
      var x := slots[|slots| - 1];
      assert slots == init + [x];
      GroupsPartition(init);
      ItemOrderDistinct(init);
      ConcatSnoc(ItemOrder(init), init, x);
      ItemOrderMembership(init, x.itemId);
      if x.itemId !in ItemOrder(init) {
        ConcatFreshKey(ItemOrder(init), init, x);
      }
    }
    assert |multiset(Concat(ItemOrder(slots), slots))| == |Concat(ItemOrder(slots), slots)|;
  }

  /** A new key's group is the one new slot, and the other groups are unaffected by it. */
  lemma ConcatFreshKey(keys: seq<int>, slots: seq<RawSlot>, x: RawSlot)
    requires Distinct(keys) && x.itemId !in keys && SlotsFor(slots, x.itemId) == []
    ensures multiset(Concat(keys + [x.itemId], slots + [x])) == multiset(Concat(keys, slots)) + multiset{x}
  {
    assert (keys + [x.itemId])[..|keys|] == keys;
    assert (slots + [x])[..|slots|] == slots;
    ConcatSnoc(keys, slots, x);
  }

  /** The importer's filter: an empty one keeps everything, a non-empty one keeps exactly its ids. */
  lemma {:induction false} KeptFilter(slots: seq<RawSlot>, filter: set<int>)
    ensures filter == {} ==> Kept(slots, filter) == slots
    ensures forall s :: s in Kept(slots, filter) ==> s in slots && (filter == {} || s.itemId in filter)
    ensures forall i :: 0 <= i < |slots| && slots[i].itemId in filter ==> slots[i] in Kept(slots, filter)
  {
    if slots != [] {
      var init := slots[..|slots| - 1];
      KeptFilter(init, filter);
      assert slots == init + [slots[|slots| - 1]];
      forall i | 0 <= i < |slots| - 1 ensures slots[i] == init[i] { }
    }
  }

  /** The example of a response with item ids 10, 10, 20: two groups, in order, nothing lost. */
  lemma GroupExample(a: RawSlot, b: RawSlot, c: RawSlot)
    requires a.itemId == 10 && b.itemId == 10 && c.itemId == 20
    ensures ItemOrder([a, b, c]) == [10, 20]
    ensures SlotsFor([a, b, c], 10) == [a, b]
    ensures SlotsFor([a, b, c], 20) == [c]
  {
    assert [a, b, c][..2] == [a, b];
    assert [a, b][..1] == [a];
    assert [a][..0] == [];
    assert ItemOrder([a]) == [10];
    assert ItemOrder([a, b]) == [10];
    assert SlotsFor([a], 10) == [a] && SlotsFor([a, b], 10) == [a, b];
    assert SlotsFor([a], 20) == [];
    assert SlotsFor([a, b], 20) == SlotsFor([a], 20);
  }
}
