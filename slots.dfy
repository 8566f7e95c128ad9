/**
 * Slot Classifier: a raw LibCal slot record becomes a normalised
 * `{start, end, item_id, checksum, status}` record, and a list of raw slots is
 * split into the available and the unavailable ones (script.py,
 * `process_slots_to_availability`).
 */
module Slots {
  import opened Wrappers

  /** The CSS class LibCal puts on a slot that is already booked. */
  const CheckoutClass: string := "s-lc-eq-checkout"

  /** One element of the `slots` array of a grid response; `className` and `checksum` may be absent. */
  datatype RawSlot = RawSlot(
    start: string,
    end: string,
    itemId: int,
    className: Option<string>,
    checksum: Option<string>)

  datatype Status = Available | Unavailable

  /** The normalised slot (`slot_info` in the source). */
  datatype SlotInfo = SlotInfo(start: string, end: string, itemId: int, checksum: string, status: Status)

  /** The dictionary returned by `process_slots_to_availability`. */
  datatype Availability = Availability(available: seq<SlotInfo>, unavailable: seq<SlotInfo>, totalSlots: nat)

  /** The per-slot decision: booked exactly when the class is the checkout marker. */
  function StatusOf(slot: RawSlot): (st: Status)
    ensures st == Unavailable <==> slot.className == Some(CheckoutClass)
    ensures st == Available <==> slot.className.None? || slot.className.value != CheckoutClass
  {
    if slot.className.None? || slot.className.value != CheckoutClass then Available else Unavailable
  }

  /** `slot.get('checksum', '')` */
  function ChecksumOrEmpty(slot: RawSlot): string
  {
    match slot.checksum
    case Some(c) => c
    case None => ""
  }

  /** The normalised record of one raw slot, with a missing checksum defaulted to the empty string. */
  function ToSlotInfo(slot: RawSlot): (info: SlotInfo)
    ensures info.start == slot.start && info.end == slot.end && info.itemId == slot.itemId
    ensures slot.checksum.None? ==> info.checksum == ""
    ensures slot.checksum.Some? ==> info.checksum == slot.checksum.value
    ensures info.status == Unavailable <==> slot.className == Some(CheckoutClass)
  {
    SlotInfo(slot.start, slot.end, slot.itemId, ChecksumOrEmpty(slot), StatusOf(slot))
  }

  /** The normalised records of all slots, in input order. */
  function AllInfos(slots: seq<RawSlot>): seq<SlotInfo>
  {
    if slots == [] then [] else AllInfos(slots[..|slots| - 1]) + [ToSlotInfo(slots[|slots| - 1])]
  }

  /** The normalised records of the slots whose status is `st`, in input order. */
  function InfosWith(slots: seq<RawSlot>, st: Status): seq<SlotInfo>
  {
    if slots == [] then []
    else
      var last := slots[|slots| - 1];
      InfosWith(slots[..|slots| - 1], st) + (if StatusOf(last) == st then [ToSlotInfo(last)] else [])
  }

  /** The specification of `process_slots_to_availability`. */
  function Classify(slots: seq<RawSlot>): Availability
  {
    var available := InfosWith(slots, Available);
    var unavailable := InfosWith(slots, Unavailable);
    Availability(available, unavailable, |available| + |unavailable|)
  }

  /** The list a caller stores: available slots first, then the unavailable ones. */
  function Ordered(a: Availability): seq<SlotInfo>
  {
    a.available + a.unavailable
  }

  /** Fills the two lists by appending in one pass over the slots. */
  method ProcessSlotsToAvailability(slots: seq<RawSlot>) returns (a: Availability)
    ensures a == Classify(slots)
    ensures a.totalSlots == |slots|
  {
    var available: seq<SlotInfo> := [];
    var unavailable: seq<SlotInfo> := [];
    for i := 0 to |slots|
      invariant available == InfosWith(slots[..i], Available)
      invariant unavailable == InfosWith(slots[..i], Unavailable)
    {
      assert slots[..i + 1][..i] == slots[..i];
      var slot := slots[i];
      var info := ToSlotInfo(slot);
      if slot.className.None? || slot.className.value != CheckoutClass {
        available := available + [info];
      } else {
        unavailable := unavailable + [info];
      }
    }
    assert slots[..|slots|] == slots;
    ClassifyCounts(slots);
    a := Availability(available, unavailable, |available| + |unavailable|);
  }

  /** Every record in the `st` list carries status `st`. */
  lemma {:induction false} InfosWithStatus(slots: seq<RawSlot>, st: Status)
    ensures forall info :: info in InfosWith(slots, st) ==> info.status == st
  {
    if slots != [] {
      InfosWithStatus(slots[..|slots| - 1], st);
    }
  }

  /** The two lists together hold every input slot exactly once: no drops, no duplicates. */
  lemma {:induction false} ClassifyPartition(slots: seq<RawSlot>)
    ensures multiset(InfosWith(slots, Available) + InfosWith(slots, Unavailable)) == multiset(AllInfos(slots))
  {
    if slots != [] {
      ClassifyPartition(slots[..|slots| - 1]);
    }
  }

  /** `total_slots` is the number of input slots. */
  lemma ClassifyCounts(slots: seq<RawSlot>)
    ensures |InfosWith(slots, Available)| + |InfosWith(slots, Unavailable)| == |slots|
    ensures Classify(slots).totalSlots == |slots|
  {
    ClassifyPartition(slots);
    AllInfosLength(slots);
    assert |multiset(AllInfos(slots))| == |AllInfos(slots)|;
  }

  lemma {:induction false} AllInfosLength(slots: seq<RawSlot>)
    ensures |AllInfos(slots)| == |slots|
  {
    if slots != [] {
      AllInfosLength(slots[..|slots| - 1]);
    }
  }

  /** Classification keeps input order: classifying a concatenation concatenates the results. */
  lemma {:induction false} InfosWithAppend(s1: seq<RawSlot>, s2: seq<RawSlot>, st: Status)
    ensures InfosWith(s1 + s2, st) == InfosWith(s1, st) + InfosWith(s2, st)
  {
    if s2 == [] {
      assert s1 + s2 == s1;
    } else {
      assert (s1 + s2)[..|s1 + s2| - 1] == s1 + s2[..|s2| - 1];
      InfosWithAppend(s1, s2[..|s2| - 1], st);
    }
  }

  /** The classification of one slot: it lands in exactly one list, the one its status names. */
  lemma SingleSlot(slot: RawSlot)
    ensures slot.className == Some(CheckoutClass) ==>
      Classify([slot]) == Availability([], [ToSlotInfo(slot)], 1)
    ensures slot.className != Some(CheckoutClass) ==>
      Classify([slot]) == Availability([ToSlotInfo(slot)], [], 1)
  {
    assert [slot][..0] == [];
    assert InfosWith([slot], Available) == if StatusOf(slot) == Available then [ToSlotInfo(slot)] else [];
    assert InfosWith([slot], Unavailable) == if StatusOf(slot) == Unavailable then [ToSlotInfo(slot)] else [];
  }
}
