/**
 * API Client, without the HTTP call: the fixed form payload of the grid request
 * and what `fetch_room_availability_api` makes of a decoded response
 * (script.py, `fetch_room_availability_api_raw` and `fetch_room_availability_api`).
 */
module ApiClient {
  import opened Wrappers
  import opened Slots

  /** A decoded JSON response object; `slots` may be absent. */
  datatype Response = Response(slots: Option<seq<RawSlot>>)

  /** A form-encoded request body: key/value pairs in order. */
  type FormFields = seq<(string, string)>

  /** The LibCal library id every request carries. */
  const LibraryId: string := "3446"
  /** The paging window every request carries. */
  const PageSize: string := "18"

  function DigitChar(d: nat): char
    requires d < 10
  {
    "0123456789"[d]
  }

  function DigitValue(c: char): Option<nat>
  {
    if '0' <= c <= '9' then Some((c as int - '0' as int) as nat) else None
  }

  /** Python's `str` of a non-negative int: decimal digits, no leading zero. */
  function NatToString(n: nat): (s: string)
    ensures |s| > 0 && s[0] != '-'
    decreases n
  {
    if n < 10 then [DigitChar(n)] else NatToString(n / 10) + [DigitChar(n % 10)]
  }

  /** Python's `str` of an int. */
  function IntToString(n: int): string
  {
    if n < 0 then "-" + NatToString(-n) else NatToString(n)
  }

  /** Reads back a string of decimal digits. */
  function ParseNat(s: string): Option<nat>
    decreases |s|
  {
    if |s| == 0 then None
    else if |s| == 1 then DigitValue(s[0])
    else
      match (ParseNat(s[..|s| - 1]), DigitValue(s[|s| - 1]))
      case (Some(high), Some(low)) => Some(high * 10 + low)
      case _ => None
  }

  /** Reads back the decimal text of an int. */
  function ParseInt(s: string): Option<int>
  {
    if |s| > 0 && s[0] == '-' then
      match ParseNat(s[1..])
      case Some(n) => Some(-(n as int))
      case None => None
    else
      match ParseNat(s)
      case Some(n) => Some(n)
      case None => None
  }

  /** The value of the first field named `key`. */
  function Lookup(fields: FormFields, key: string): Option<string>
  {
    if fields == [] then None
    else if fields[0].0 == key then Some(fields[0].1)
    else Lookup(fields[1..], key)
  }

  function FieldNames(fields: FormFields): seq<string>
  {
    seq(|fields|, i requires 0 <= i < |fields| => fields[i].0)
  }

  /** The `payload` dict of the grid request for one room and date range. */
  function BuildPayload(spaceId: int, gid: int, startDate: string, endDate: string): FormFields
  {
    [ ("lid", LibraryId),
      ("gid", IntToString(gid)),
      ("eid", IntToString(spaceId)),
      ("seat", "0"),
      ("seatId", "0"),
      ("zone", "0"),
      ("start", startDate),
      ("end", endDate),
      ("pageIndex", "0"),
      ("pageSize", PageSize) ]
  }

  /** Decimal text reads back as the number it was written from. */
  lemma {:induction false} NatRoundTrip(n: nat)
    ensures ParseNat(NatToString(n)) == Some(n)
    decreases n
  {
    if n >= 10 {
      NatRoundTrip(n / 10);
      var s := NatToString(n);
      assert s[..|s| - 1] == NatToString(n / 10);
      assert DigitValue(s[|s| - 1]) == Some(n % 10);
    } else {
      assert DigitValue(DigitChar(n)) == Some(n);
    }
  }

  lemma IntRoundTrip(n: int)
    ensures ParseInt(IntToString(n)) == Some(n)
  {
    if n < 0 {
      NatRoundTrip(-n);
      assert IntToString(n)[1..] == NatToString(-n);
    } else {
      NatRoundTrip(n);
    }
  }

  /**
   * The request carries the ten fixed fields in order, the constant ones with their fixed values,
   * and names the room and its group so that both read back exactly.
   */
  lemma PayloadFields(spaceId: int, gid: int, startDate: string, endDate: string)
    ensures var p := BuildPayload(spaceId, gid, startDate, endDate);
      && FieldNames(p) == ["lid", "gid", "eid", "seat", "seatId", "zone", "start", "end", "pageIndex", "pageSize"]
      && Lookup(p, "lid") == Some(LibraryId)
      && Lookup(p, "zone") == Some("0") && Lookup(p, "seat") == Some("0") && Lookup(p, "seatId") == Some("0")
      && Lookup(p, "start") == Some(startDate) && Lookup(p, "end") == Some(endDate)
      && Lookup(p, "pageIndex") == Some("0") && Lookup(p, "pageSize") == Some(PageSize)
      && Lookup(p, "eid").Some? && ParseInt(Lookup(p, "eid").value) == Some(spaceId)
      && Lookup(p, "gid").Some? && ParseInt(Lookup(p, "gid").value) == Some(gid)
  {
    var p := BuildPayload(spaceId, gid, startDate, endDate);
    assert FieldNames(p) == ["lid", "gid", "eid", "seat", "seatId", "zone", "start", "end", "pageIndex", "pageSize"];
    PayloadNamesDistinct(p);
    LookupFirst(p);
    LookupLast(p);
    IntRoundTrip(spaceId);
    IntRoundTrip(gid);
  }

  lemma LookupFirst(p: FormFields)
    requires |p| == 10 && forall i, j :: 0 <= i < j < |p| ==> p[i].0 != p[j].0
    ensures Lookup(p, p[0].0) == Some(p[0].1) && Lookup(p, p[1].0) == Some(p[1].1) && Lookup(p, p[2].0) == Some(p[2].1)
    ensures Lookup(p, p[3].0) == Some(p[3].1) && Lookup(p, p[4].0) == Some(p[4].1)
  {
    LookupAt(p, 0); LookupAt(p, 1); LookupAt(p, 2); LookupAt(p, 3); LookupAt(p, 4);
  }

  lemma LookupLast(p: FormFields)
    requires |p| == 10 && forall i, j :: 0 <= i < j < |p| ==> p[i].0 != p[j].0
    ensures Lookup(p, p[5].0) == Some(p[5].1) && Lookup(p, p[6].0) == Some(p[6].1) && Lookup(p, p[7].0) == Some(p[7].1)
    ensures Lookup(p, p[8].0) == Some(p[8].1) && Lookup(p, p[9].0) == Some(p[9].1)
  {
    LookupAt(p, 5); LookupAt(p, 6); LookupAt(p, 7); LookupAt(p, 8); LookupAt(p, 9);
  }

  /** No two fields of the payload share a name. */
  lemma PayloadNamesDistinct(p: FormFields)
    requires FieldNames(p) == ["lid", "gid", "eid", "seat", "seatId", "zone", "start", "end", "pageIndex", "pageSize"]
    ensures forall i, j :: 0 <= i < j < |p| ==> p[i].0 != p[j].0
  {
    var names := FieldNames(p);
    assert forall i :: 0 <= i < |p| ==> p[i].0 == names[i];
  }

  /** With distinct names, looking up a field's name finds that field. */
  lemma {:induction false} LookupAt(fields: FormFields, i: nat)
    requires i < |fields|
    requires forall j :: 0 <= j < i ==> fields[j].0 != fields[i].0
    ensures Lookup(fields, fields[i].0) == Some(fields[i].1)
  {
    if i > 0 {
      LookupAt(fields[1..], i - 1);
    }
  }

  /** True when some slot lacks a `checksum` key. */
  predicate MissingChecksum(slots: seq<RawSlot>)
  {
    exists i :: 0 <= i < |slots| && slots[i].checksum.None?
  }

  /**
   * The classification inside `fetch_room_availability_api`: `None` when the request failed;
   * empty lists when the response has no `slots`; `None` when a slot has no checksum (this copy
   * reads `slot['checksum']`, and the resulting error is caught and turned into `None`);
   * otherwise the same split as `process_slots_to_availability`.
   */
  method FetchRoomAvailability(data: Option<Response>) returns (r: Option<Availability>)
    ensures data.None? ==> r.None?
    ensures data.Some? && data.value.slots.None? ==> r == Some(Availability([], [], 0))
    ensures data.Some? && data.value.slots.Some? ==>
      (r.None? <==> MissingChecksum(data.value.slots.value))
    ensures data.Some? && data.value.slots.Some? && r.Some? ==>
      r.value == Classify(data.value.slots.value)
  {
    if data.None? {
      return None;
    }
    var available: seq<SlotInfo> := [];
    var unavailable: seq<SlotInfo> := [];
    if data.value.slots.Some? {
      var slots := data.value.slots.value;
      for i := 0 to |slots|
        invariant !MissingChecksum(slots[..i])
        invariant available == InfosWith(slots[..i], Available)
        invariant unavailable == InfosWith(slots[..i], Unavailable)
      {
        assert slots[..i + 1][..i] == slots[..i];
        var slot := slots[i];
        if slot.checksum.None? {
          assert slots[i].checksum.None?;
          return None;
        }
        var info := SlotInfo(slot.start, slot.end, slot.itemId, slot.checksum.value, StatusOf(slot));
        assert info == ToSlotInfo(slot);
        if slot.className.None? || slot.className.value != CheckoutClass {
          available := available + [info];
        } else {
          unavailable := unavailable + [info];
        }
        assert forall j :: 0 <= j < i + 1 ==> slots[..i + 1][j] == slots[j];
      }
      assert slots[..|slots|] == slots;
      ClassifyCounts(slots);
    }
    r := Some(Availability(available, unavailable, |available| + |unavailable|));
  }
}
