/**
 * Batch Orchestrator: `check_all_rooms_availability_sqlite` (script.py). One
 * grid request per unprocessed room of the room list; the target room's slots
 * are saved if the response has any, and every other unprocessed room in the
 * response is saved as a bonus room. The HTTP call is an oracle `fetch` from
 * the request payload to the decoded response (or `None` on any failure).
 */
module Orchestrator {
  import opened Wrappers
  import opened Slots
  import opened Demux
  import opened Store
  import opened ApiClient

  /** One row of the room list: `(space_id, gid, room_name)` without the name, which is only logged. */
  datatype Target = Target(spaceId: int, gid: int)

  type Fetcher = FormFields -> Option<Response>

  /**
   * Everything a run reads and writes: the two tables, the set `processed_rooms`, the three
   * counters, and `pauses`, the number of `time.sleep(0.5)` calls taken.
   */
  datatype RunState = RunState(
    rooms: map<int, Room>,
    timeSlots: seq<TimeSlotRow>,
    processed: set<int>,
    success: nat,
    errors: nat,
    bonus: nat,
    pauses: nat)

  /** What the run reports at the end. */
  datatype Summary = Summary(processed: set<int>, success: nat, errors: nat, bonus: nat, pauses: nat)

  /** The rows after classifying `slots` and saving them under `(spaceId, queryDate)`. */
  function SaveRows(rows: seq<TimeSlotRow>, spaceId: int, gid: int, slots: seq<RawSlot>, queryDate: string): seq<TimeSlotRow>
  {
    Replaced(rows, spaceId, queryDate, RowsOf(spaceId, gid, Ordered(Classify(slots)), queryDate))
  }

  /** The target room is saved only when the response holds slots for it. */
  function SaveTarget(st: RunState, t: Target, slots: seq<RawSlot>, queryDate: string): RunState
  {
    if t.spaceId in ItemOrder(slots) then
      st.(timeSlots := SaveRows(st.timeSlots, t.spaceId, t.gid, SlotsFor(slots, t.spaceId), queryDate),
          processed := st.processed + {t.spaceId},
          success := st.success + 1)
    else st
  }

  /** One group of the response that is neither the target nor already processed becomes a bonus room. */
  function SaveBonus(st: RunState, spaceId: int, id: int, slots: seq<RawSlot>, meta: map<int, Room>, queryDate: string): RunState
  {
    if id != spaceId && id !in st.processed then
      st.(rooms := if id !in st.rooms && id in meta then st.rooms[id := meta[id]] else st.rooms,
          timeSlots := SaveRows(st.timeSlots, id, MetaGid(meta, id), SlotsFor(slots, id), queryDate),
          processed := st.processed + {id},
          bonus := st.bonus + 1)
    else st
  }

  /** The bonus loop over the groups `keys`, in order. */
  function SaveBonuses(st: RunState, spaceId: int, keys: seq<int>, slots: seq<RawSlot>, meta: map<int, Room>, queryDate: string): RunState
  {
    if keys == [] then st
    else SaveBonus(SaveBonuses(st, spaceId, keys[..|keys| - 1], slots, meta, queryDate), spaceId, keys[|keys| - 1], slots, meta, queryDate)
  }

  /** The slots of a usable response: one that arrived and has a `slots` key. */
  function ResponseSlots(response: Option<Response>): Option<seq<RawSlot>>
  {
    if response.Some? && response.value.slots.Some? then response.value.slots else None
  }

  /** One iteration of the room loop. Every slot is stored under the run's start date. */
  function VisitRoom(st: RunState, t: Target, fetch: Fetcher, meta: map<int, Room>, startDate: string, endDate: string): RunState
  {
    if t.spaceId in st.processed then st
    else
      match ResponseSlots(fetch(BuildPayload(t.spaceId, t.gid, startDate, endDate)))
      case Some(slots) =>
        var saved := SaveBonuses(SaveTarget(st, t, slots, startDate), t.spaceId, ItemOrder(slots), slots, meta, startDate);
        saved.(pauses := saved.pauses + 1)
      case None =>
        st.(errors := st.errors + 1)
  }

  /** The room loop over `targets`, in order. */
  function RunRooms(st: RunState, targets: seq<Target>, fetch: Fetcher, meta: map<int, Room>, startDate: string, endDate: string): RunState
  {
    if targets == [] then st
    else VisitRoom(RunRooms(st, targets[..|targets| - 1], fetch, meta, startDate, endDate), targets[|targets| - 1], fetch, meta, startDate, endDate)
  }

  /** The state a run starts from: all time slots wiped, nothing processed, counters at zero. */
  function InitialState(rooms: map<int, Room>): RunState
  {
    RunState(rooms, [], {}, 0, 0, 0, 0)
  }

  function CheckAll(rooms: map<int, Room>, targets: seq<Target>, fetch: Fetcher, meta: map<int, Room>, startDate: string, endDate: string): RunState
  {
    RunRooms(InitialState(rooms), targets, fetch, meta, startDate, endDate)
  }

  /**
   * `check_all_rooms_availability_sqlite` over the room list `targets` and the metadata map `meta`.
   * The whole new database and the reported summary are those of `CheckAll`.
   */
  method CheckAllRoomsAvailability(db: Database, targets: seq<Target>, startDate: string, endDate: string,
                                   meta: map<int, Room>, fetch: Fetcher) returns (summary: Summary)
    modifies db
    ensures var r := CheckAll(old(db.rooms), targets, fetch, meta, startDate, endDate);
      && db.rooms == r.rooms && db.timeSlots == r.timeSlots
      && summary == Summary(r.processed, r.success, r.errors, r.bonus, r.pauses)
  {
    db.DeleteAllTimeSlots();
    var processed: set<int> := {};
    var success, errors, bonus, pauses := 0, 0, 0, 0;
    for i := 0 to |targets|
      invariant RunState(db.rooms, db.timeSlots, processed, success, errors, bonus, pauses)
             == RunRooms(InitialState(old(db.rooms)), targets[..i], fetch, meta, startDate, endDate)
    {
      RunRoomsSnoc(InitialState(old(db.rooms)), targets, i, fetch, meta, startDate, endDate);
      ghost var st := RunState(db.rooms, db.timeSlots, processed, success, errors, bonus, pauses);
      processed, success, errors, bonus, pauses
        := VisitOneRoom(db, targets[i], startDate, endDate, meta, fetch, processed, success, errors, bonus, pauses, st);
    }
    assert targets[..|targets|] == targets;
    summary := Summary(processed, success, errors, bonus, pauses);
  }

  /** The body of the room loop, for the room `t`; the state before it is `st`. */
  method VisitOneRoom(db: Database, t: Target, startDate: string, endDate: string, meta: map<int, Room>, fetch: Fetcher,
                      processed0: set<int>, success0: nat, errors0: nat, bonus0: nat, pauses0: nat, ghost st: RunState)
      returns (processed: set<int>, success: nat, errors: nat, bonus: nat, pauses: nat)
    requires st == RunState(db.rooms, db.timeSlots, processed0, success0, errors0, bonus0, pauses0)
    modifies db
    ensures RunState(db.rooms, db.timeSlots, processed, success, errors, bonus, pauses)
         == VisitRoom(st, t, fetch, meta, startDate, endDate)
  {
    processed, success, errors, bonus, pauses := processed0, success0, errors0, bonus0, pauses0;
    var queryDate := startDate;
    if t.spaceId !in processed {
      var response := fetch(BuildPayload(t.spaceId, t.gid, startDate, endDate));
      if response.Some? && response.value.slots.Some? {
        var slots := response.value.slots.value;
        var groups := GroupByItem(slots, {});
        KeptFilter(slots, {});
        processed, success := SaveTargetRoom(db, t, groups, slots, queryDate, processed, success, st);
        ghost var afterTarget := RunState(db.rooms, db.timeSlots, processed, success, errors, bonus, pauses);
        processed, bonus := SaveBonusRooms(db, t.spaceId, groups, slots, meta, queryDate, processed, bonus, afterTarget);
        pauses := pauses + 1;
      } else {
        errors := errors + 1;
      }
    }
  }

  /** `if space_id in slots_by_item`: the target room's save. */
  method SaveTargetRoom(db: Database, t: Target, groups: Groups, ghost slots: seq<RawSlot>, queryDate: string,
                        processed0: set<int>, success0: nat, ghost st: RunState)
      returns (processed: set<int>, success: nat)
    requires GroupsOf(slots, groups.keys, groups.slotsOf)
    requires st.rooms == db.rooms && st.timeSlots == db.timeSlots && st.processed == processed0 && st.success == success0
    modifies db
    ensures SaveTarget(st, t, slots, queryDate)
         == st.(rooms := db.rooms, timeSlots := db.timeSlots, processed := processed, success := success)
  {
    processed, success := processed0, success0;
    if t.spaceId in groups.slotsOf {
      var availability := ProcessSlotsToAvailability(groups.slotsOf[t.spaceId]);
      SaveAvailability(db, t.spaceId, t.gid, availability, queryDate);
      processed := processed + {t.spaceId};
      success := success + 1;
    }
  }

  /** The bonus loop of one iteration: `for item_id, slots in slots_by_item.items()`. */
  method SaveBonusRooms(db: Database, spaceId: int, groups: Groups, ghost slots: seq<RawSlot>, meta: map<int, Room>,
                        queryDate: string, processed0: set<int>, bonus0: nat, ghost st: RunState)
      returns (processed: set<int>, bonus: nat)
    requires GroupsOf(slots, groups.keys, groups.slotsOf)
    requires st.rooms == db.rooms && st.timeSlots == db.timeSlots && st.processed == processed0 && st.bonus == bonus0
    modifies db
    ensures SaveBonuses(st, spaceId, groups.keys, slots, meta, queryDate)
         == st.(rooms := db.rooms, timeSlots := db.timeSlots, processed := processed, bonus := bonus)
  {
    processed, bonus := processed0, bonus0;
    var keys := groups.keys;
    for j := 0 to |keys|
      invariant SaveBonuses(st, spaceId, keys[..j], slots, meta, queryDate)
             == st.(rooms := db.rooms, timeSlots := db.timeSlots, processed := processed, bonus := bonus)
    {
      var id := keys[j];
      assert id in groups.slotsOf;
      SaveBonusesSnoc(st, spaceId, keys, j, slots, meta, queryDate);
      if id != spaceId && id !in processed {
        if id !in db.rooms {
          if id in meta {
            db.InsertOrReplaceRoom(id, meta[id]);
          }
        }
        var availability := ProcessSlotsToAvailability(groups.slotsOf[id]);
        var bonusGid := MetaGid(meta, id);
        SaveAvailability(db, id, bonusGid, availability, queryDate);
        processed := processed + {id};
        bonus := bonus + 1;
      }
    }
    assert keys[..|keys|] == keys;
  }

  lemma SaveBonusesSnoc(st: RunState, spaceId: int, keys: seq<int>, j: nat, slots: seq<RawSlot>, meta: map<int, Room>, queryDate: string)
    requires j < |keys|
    ensures SaveBonuses(st, spaceId, keys[..j + 1], slots, meta, queryDate)
         == SaveBonus(SaveBonuses(st, spaceId, keys[..j], slots, meta, queryDate), spaceId, keys[j], slots, meta, queryDate)
  {
    assert keys[..j + 1][..j] == keys[..j];
  }

  lemma RunRoomsSnoc(st: RunState, targets: seq<Target>, i: nat, fetch: Fetcher, meta: map<int, Room>, startDate: string, endDate: string)
    requires i < |targets|
    ensures RunRooms(st, targets[..i + 1], fetch, meta, startDate, endDate)
         == VisitRoom(RunRooms(st, targets[..i], fetch, meta, startDate, endDate), targets[i], fetch, meta, startDate, endDate)
  {
    assert targets[..i + 1][..i] == targets[..i];
  }

  // ----- Properties of the room loop -----

  function Elems(ids: seq<int>): set<int>
  {
    set id | id in ids
  }

  /** The bookkeeping invariant: every processed room was counted once, as a success or as a bonus. */
  predicate Counted(st: RunState)
  {
    |st.processed| == st.success + st.bonus
  }

  /** Existing rooms are never rewritten; a room that appears was taken from the metadata. */
  ghost predicate RoomsGrow(before: map<int, Room>, after: map<int, Room>, meta: map<int, Room>)
  {
    && (forall id :: id in before ==> id in after && after[id] == before[id])
    && (forall id :: id in after && id !in before ==> id in meta && after[id] == meta[id])
  }

  /** The rooms the bonus loop saves, in order: groups of unprocessed rooms other than the target. */
  function BonusIds(processed: set<int>, spaceId: int, keys: seq<int>): seq<int>
  {
    if keys == [] then []
    else
      var earlier := BonusIds(processed, spaceId, keys[..|keys| - 1]);
      var id := keys[|keys| - 1];
      if id != spaceId && id !in processed && id !in earlier then earlier + [id] else earlier
  }

  /** The rooms one iteration saves, in order: the target (if present in the response), then the bonus rooms. */
  function VisitSaves(st: RunState, t: Target, fetch: Fetcher, startDate: string, endDate: string): seq<int>
  {
    if t.spaceId in st.processed then []
    else
      match ResponseSlots(fetch(BuildPayload(t.spaceId, t.gid, startDate, endDate)))
      case Some(slots) =>
        var target := if t.spaceId in ItemOrder(slots) then [t.spaceId] else [];
        target + BonusIds(st.processed + Elems(target), t.spaceId, ItemOrder(slots))
      case None => []
  }

  /** The rooms a whole run saves, in order. */
  function RunSaves(st: RunState, targets: seq<Target>, fetch: Fetcher, meta: map<int, Room>, startDate: string, endDate: string): seq<int>
  {
    if targets == [] then []
    else
      var init := targets[..|targets| - 1];
      RunSaves(st, init, fetch, meta, startDate, endDate)
        + VisitSaves(RunRooms(st, init, fetch, meta, startDate, endDate), targets[|targets| - 1], fetch, startDate, endDate)
  }

  lemma {:induction false} BonusIdsFresh(processed: set<int>, spaceId: int, keys: seq<int>)
    ensures Distinct(BonusIds(processed, spaceId, keys))
    ensures forall id :: id in BonusIds(processed, spaceId, keys) ==> id !in processed && id != spaceId && id in keys
  {
    if keys != [] {
      BonusIdsFresh(processed, spaceId, keys[..|keys| - 1]);
    }
  }

  /** What the bonus loop changes: it adds exactly the rooms it saves, each one counted once as a bonus. */
  lemma {:induction false} SaveBonusesBookkeeping(st: RunState, spaceId: int, keys: seq<int>, slots: seq<RawSlot>, meta: map<int, Room>, queryDate: string)
    ensures var r := SaveBonuses(st, spaceId, keys, slots, meta, queryDate);
      var ids := BonusIds(st.processed, spaceId, keys);
      && r.success == st.success && r.errors == st.errors && r.pauses == st.pauses
      && r.processed == st.processed + Elems(ids)
      && r.bonus == st.bonus + |ids|
      && RoomsGrow(st.rooms, r.rooms, meta)
  {
    if keys != [] {
      var init := keys[..|keys| - 1];
      SaveBonusesBookkeeping(st, spaceId, init, slots, meta, queryDate);
      var ids := BonusIds(st.processed, spaceId, init);
      var id := keys[|keys| - 1];
      if id != spaceId && id !in st.processed && id !in ids {
        assert Elems(ids + [id]) == Elems(ids) + {id};
      }
    }
  }

  /**
   * The three outcomes of one iteration. An already processed room is skipped with no change at
   * all. A failed fetch, or a response without `slots`, only adds one error: no save, no pause, no
   * change to the processed set. Otherwise no error is counted, one pause is taken, a success is
   * counted exactly when the response holds slots of the target room, and rooms are only added.
   */
  lemma VisitRoomOutcomes(st: RunState, t: Target, fetch: Fetcher, meta: map<int, Room>, startDate: string, endDate: string)
    ensures var r := VisitRoom(st, t, fetch, meta, startDate, endDate);
      var response := ResponseSlots(fetch(BuildPayload(t.spaceId, t.gid, startDate, endDate)));
      && (t.spaceId in st.processed ==> r == st)
      && (t.spaceId !in st.processed && response.None? ==> r == st.(errors := st.errors + 1))
      && (t.spaceId !in st.processed && response.Some? ==>
            && r.errors == st.errors && r.pauses == st.pauses + 1
            && r.success == st.success + (if t.spaceId in ItemOrder(response.value) then 1 else 0)
            && st.processed <= r.processed)
      && RoomsGrow(st.rooms, r.rooms, meta)
  {
    var response := ResponseSlots(fetch(BuildPayload(t.spaceId, t.gid, startDate, endDate)));
    if t.spaceId !in st.processed && response.Some? {
      var slots := response.value;
      SaveBonusesBookkeeping(SaveTarget(st, t, slots, startDate), t.spaceId, ItemOrder(slots), slots, meta, startDate);
    }
  }

  /**
   * One iteration adds to the processed set exactly the rooms it saves; they are distinct and were
   * not processed before, and each one is counted once, as a success or as a bonus.
   */
  lemma VisitRoomSaves(st: RunState, t: Target, fetch: Fetcher, meta: map<int, Room>, startDate: string, endDate: string)
    ensures var r := VisitRoom(st, t, fetch, meta, startDate, endDate);
      var ids := VisitSaves(st, t, fetch, startDate, endDate);
      && Distinct(ids)
      && (forall id :: id in ids ==> id !in st.processed)
      && r.processed == st.processed + Elems(ids)
      && r.success + r.bonus == st.success + st.bonus + |ids|
  {
    var response := ResponseSlots(fetch(BuildPayload(t.spaceId, t.gid, startDate, endDate)));
    if t.spaceId !in st.processed && response.Some? {
      TargetAndBonusSaves(st, t, response.value, meta, startDate);
    }
  }

  /** The saves of one usable response: the target if present, then its bonus rooms. */
  lemma TargetAndBonusSaves(st: RunState, t: Target, slots: seq<RawSlot>, meta: map<int, Room>, queryDate: string)
    requires t.spaceId !in st.processed
    ensures var r := SaveBonuses(SaveTarget(st, t, slots, queryDate), t.spaceId, ItemOrder(slots), slots, meta, queryDate);
      var target := if t.spaceId in ItemOrder(slots) then [t.spaceId] else [];
      var ids := target + BonusIds(st.processed + Elems(target), t.spaceId, ItemOrder(slots));
      && Distinct(ids)
      && (forall id :: id in ids ==> id !in st.processed)
      && r.processed == st.processed + Elems(ids)
      && r.success + r.bonus == st.success + st.bonus + |ids|
  {
    var target := if t.spaceId in ItemOrder(slots) then [t.spaceId] else [];
    var mid := SaveTarget(st, t, slots, queryDate);
    assert mid.processed == st.processed + Elems(target);
    SaveBonusesBookkeeping(mid, t.spaceId, ItemOrder(slots), slots, meta, queryDate);
    var bonusIds := BonusIds(mid.processed, t.spaceId, ItemOrder(slots));
    BonusIdsFresh(mid.processed, t.spaceId, ItemOrder(slots));
    DistinctConcat(target, bonusIds);
    assert Elems(target + bonusIds) == Elems(target) + Elems(bonusIds);
  }

  lemma DistinctConcat(a: seq<int>, b: seq<int>)
    requires Distinct(a) && Distinct(b)
    requires forall id :: id in a ==> id !in b
    ensures Distinct(a + b)
  {
    forall i, j | 0 <= i < j < |a + b| ensures (a + b)[i] != (a + b)[j] {
      if j < |a| {
      } else if i >= |a| {
        assert (a + b)[i] == b[i - |a|] && (a + b)[j] == b[j - |a|];
      } else {
        assert (a + b)[i] in a && (a + b)[j] == b[j - |a|];
      }
    }
  }

  /**
   * No room is saved twice in one run: the rooms saved are distinct, none was processed before the
   * run, they make up the processed set, and (from a counted state) the processed set has as many
   * rooms as successes and bonuses together.
   */
  lemma {:induction false} NoRoomSavedTwice(st: RunState, targets: seq<Target>, fetch: Fetcher, meta: map<int, Room>, startDate: string, endDate: string)
    ensures var r := RunRooms(st, targets, fetch, meta, startDate, endDate);
      var ids := RunSaves(st, targets, fetch, meta, startDate, endDate);
      && Distinct(ids)
      && (forall id :: id in ids ==> id !in st.processed)
      && r.processed == st.processed + Elems(ids)
      && r.success + r.bonus == st.success + st.bonus + |ids|
  {
    if targets != [] {
      var init := targets[..|targets| - 1];
      var t := targets[|targets| - 1];
      NoRoomSavedTwice(st, init, fetch, meta, startDate, endDate);
      var mid := RunRooms(st, init, fetch, meta, startDate, endDate);
      var earlier := RunSaves(st, init, fetch, meta, startDate, endDate);
      var later := VisitSaves(mid, t, fetch, startDate, endDate);
      VisitRoomSaves(mid, t, fetch, meta, startDate, endDate);
      DistinctConcat(earlier, later);
      assert Elems(earlier + later) == Elems(earlier) + Elems(later);
    }
  }

  lemma {:induction false} DistinctCard(ids: seq<int>)
    requires Distinct(ids)
    ensures |Elems(ids)| == |ids|
  {
    if ids != [] {
      var init := ids[..|ids| - 1];
      DistinctCard(init);
      assert Elems(ids) == Elems(init) + {ids[|ids| - 1]};
    }
  }

  /** Any stretch of the room loop keeps the counts straight: |processed_rooms| = successes + bonuses. */
  lemma RunKeepsCounted(st: RunState, targets: seq<Target>, fetch: Fetcher, meta: map<int, Room>, startDate: string, endDate: string)
    requires Counted(st)
    ensures Counted(RunRooms(st, targets, fetch, meta, startDate, endDate))
  {
    var ids := RunSaves(st, targets, fetch, meta, startDate, endDate);
    NoRoomSavedTwice(st, targets, fetch, meta, startDate, endDate);
    DistinctCard(ids);
    assert st.processed !! Elems(ids);
  }

  /** At the end of a run, |processed_rooms| = success_count + bonus_rooms_count. */
  lemma RunCounts(rooms: map<int, Room>, targets: seq<Target>, fetch: Fetcher, meta: map<int, Room>, startDate: string, endDate: string)
    ensures Counted(CheckAll(rooms, targets, fetch, meta, startDate, endDate))
  {
    RunKeepsCounted(InitialState(rooms), targets, fetch, meta, startDate, endDate);
  }

  // ----- What a run leaves in `time_slots` and `rooms` -----

  /** The rows of room `id` after one save: its own slots, classified, available ones first. */
  function SavedRowsOf(id: int, gid: int, slots: seq<RawSlot>, queryDate: string): seq<TimeSlotRow>
  {
    RowsOf(id, gid, Ordered(Classify(SlotsFor(slots, id))), queryDate)
  }

  lemma SaveRowsEffect(rows: seq<TimeSlotRow>, id: int, gid: int, slots: seq<RawSlot>, queryDate: string, s: int, q: string)
    ensures WithKey(SaveRows(rows, id, gid, SlotsFor(slots, id), queryDate), s, q)
         == if (s, q) == (id, queryDate) then SavedRowsOf(id, gid, slots, queryDate) else WithKey(rows, s, q)
  {
    var inserted := RowsOf(id, gid, Ordered(Classify(SlotsFor(slots, id))), queryDate);
    RowsOfShape(id, gid, Ordered(Classify(SlotsFor(slots, id))), queryDate);
    ReplacedRows(rows, id, queryDate, inserted);
  }

  /**
   * The bonus loop rewrites the rows of the rooms it saves, under the query date, and of no other
   * key; each saved room's rows are its own group, with the metadata's gid or 0.
   */
  lemma {:induction false} SaveBonusesRows(st: RunState, spaceId: int, keys: seq<int>, slots: seq<RawSlot>, meta: map<int, Room>, queryDate: string)
    ensures var r := SaveBonuses(st, spaceId, keys, slots, meta, queryDate);
      var ids := BonusIds(st.processed, spaceId, keys);
      && (forall s, q :: s !in ids || q != queryDate ==> WithKey(r.timeSlots, s, q) == WithKey(st.timeSlots, s, q))
      && (forall id :: id in ids ==> WithKey(r.timeSlots, id, queryDate) == SavedRowsOf(id, MetaGid(meta, id), slots, queryDate))
  {
    if keys != [] {
      var init := keys[..|keys| - 1];
      var id := keys[|keys| - 1];
      var mid := SaveBonuses(st, spaceId, init, slots, meta, queryDate);
      var r := SaveBonuses(st, spaceId, keys, slots, meta, queryDate);
      var earlier := BonusIds(st.processed, spaceId, init);
      SaveBonusesRows(st, spaceId, init, slots, meta, queryDate);
      SaveBonusesBookkeeping(st, spaceId, init, slots, meta, queryDate);
      if id != spaceId && id !in mid.processed {
        assert BonusIds(st.processed, spaceId, keys) == earlier + [id];
        forall s, q ensures WithKey(r.timeSlots, s, q)
          == if (s, q) == (id, queryDate) then SavedRowsOf(id, MetaGid(meta, id), slots, queryDate) else WithKey(mid.timeSlots, s, q)
        {
          SaveRowsEffect(mid.timeSlots, id, MetaGid(meta, id), slots, queryDate, s, q);
        }
      }
    }
  }

  /**
   * One iteration rewrites the rows of the rooms it saves, under the run's start date, and of no
   * other key. Afterwards each saved room's rows are exactly its own slots from the response,
   * classified, available ones first, with the target's gid or a bonus room's metadata gid (or 0).
   */
  lemma VisitRoomRows(st: RunState, t: Target, fetch: Fetcher, meta: map<int, Room>, startDate: string, endDate: string)
    ensures var r := VisitRoom(st, t, fetch, meta, startDate, endDate);
      var ids := VisitSaves(st, t, fetch, startDate, endDate);
      var response := ResponseSlots(fetch(BuildPayload(t.spaceId, t.gid, startDate, endDate)));
      && (forall s, q :: s !in ids || q != startDate ==> WithKey(r.timeSlots, s, q) == WithKey(st.timeSlots, s, q))
      && (response.Some? ==> forall id :: id in ids ==>
            WithKey(r.timeSlots, id, startDate)
            == SavedRowsOf(id, if id == t.spaceId then t.gid else MetaGid(meta, id), response.value, startDate))
  {
    var response := ResponseSlots(fetch(BuildPayload(t.spaceId, t.gid, startDate, endDate)));
    if t.spaceId !in st.processed && response.Some? {
      var slots := response.value;
      var mid := SaveTarget(st, t, slots, startDate);
      var target := if t.spaceId in ItemOrder(slots) then [t.spaceId] else [];
      var bonusIds := BonusIds(mid.processed, t.spaceId, ItemOrder(slots));
      assert mid.processed == st.processed + Elems(target);
      assert VisitSaves(st, t, fetch, startDate, endDate) == target + bonusIds;
      SaveBonusesRows(mid, t.spaceId, ItemOrder(slots), slots, meta, startDate);
      BonusIdsFresh(mid.processed, t.spaceId, ItemOrder(slots));
      if target != [] {
        forall s, q ensures WithKey(mid.timeSlots, s, q)
          == if (s, q) == (t.spaceId, startDate) then SavedRowsOf(t.spaceId, t.gid, slots, startDate) else WithKey(st.timeSlots, s, q)
        {
          SaveRowsEffect(st.timeSlots, t.spaceId, t.gid, slots, startDate, s, q);
        }
      }
    }
  }

  /** Over any stretch of the room loop, only the rooms saved in it have their rows rewritten, only under the start date. */
  lemma {:induction false} RunRowsUntouched(st: RunState, targets: seq<Target>, fetch: Fetcher, meta: map<int, Room>, startDate: string, endDate: string)
    ensures var r := RunRooms(st, targets, fetch, meta, startDate, endDate);
      var ids := RunSaves(st, targets, fetch, meta, startDate, endDate);
      forall s, q :: s !in ids || q != startDate ==> WithKey(r.timeSlots, s, q) == WithKey(st.timeSlots, s, q)
  {
    if targets != [] {
      var init := targets[..|targets| - 1];
      RunRowsUntouched(st, init, fetch, meta, startDate, endDate);
      VisitRoomRows(RunRooms(st, init, fetch, meta, startDate, endDate), targets[|targets| - 1], fetch, meta, startDate, endDate);
    }
  }

  /** Rows saved for a room stay as they are for the rest of the run: a processed room is never saved again. */
  lemma SavedRowsSurvive(st: RunState, targets: seq<Target>, fetch: Fetcher, meta: map<int, Room>, startDate: string, endDate: string, id: int)
    requires id in st.processed
    ensures forall q :: WithKey(RunRooms(st, targets, fetch, meta, startDate, endDate).timeSlots, id, q) == WithKey(st.timeSlots, id, q)
  {
    NoRoomSavedTwice(st, targets, fetch, meta, startDate, endDate);
    RunRowsUntouched(st, targets, fetch, meta, startDate, endDate);
  }

  lemma {:induction false} WithKeyHasRow(rows: seq<TimeSlotRow>, row: TimeSlotRow)
    requires row in rows
    ensures WithKey(rows, row.spaceId, row.queryDate) != []
  {
    var init := rows[..|rows| - 1];
    if row != rows[|rows| - 1] {
      assert rows == init + [rows[|rows| - 1]];
      WithKeyHasRow(init, row);
    }
  }

  /**
   * After a run, every row of `time_slots` carries the run's start date as its query date and
   * belongs to a room processed in the run: the table was wiped first.
   */
  lemma RunRowsDated(rooms: map<int, Room>, targets: seq<Target>, fetch: Fetcher, meta: map<int, Room>, startDate: string, endDate: string)
    ensures var r := CheckAll(rooms, targets, fetch, meta, startDate, endDate);
      forall row :: row in r.timeSlots ==> row.queryDate == startDate && row.spaceId in r.processed
  {
    var st := InitialState(rooms);
    var r := CheckAll(rooms, targets, fetch, meta, startDate, endDate);
    RunRowsUntouched(st, targets, fetch, meta, startDate, endDate);
    NoRoomSavedTwice(st, targets, fetch, meta, startDate, endDate);
    forall row | row in r.timeSlots ensures row.queryDate == startDate && row.spaceId in r.processed {
      WithKeyHasRow(r.timeSlots, row);
    }
  }

  lemma RoomsGrowTrans(a: map<int, Room>, b: map<int, Room>, c: map<int, Room>, meta: map<int, Room>)
    requires RoomsGrow(a, b, meta) && RoomsGrow(b, c, meta)
    ensures RoomsGrow(a, c, meta)
  {
  }

  /** Over a run, existing room records are never rewritten, and every new one is the room's metadata. */
  lemma {:induction false} RunRoomsGrow(st: RunState, targets: seq<Target>, fetch: Fetcher, meta: map<int, Room>, startDate: string, endDate: string)
    ensures RoomsGrow(st.rooms, RunRooms(st, targets, fetch, meta, startDate, endDate).rooms, meta)
  {
    if targets != [] {
      var init := targets[..|targets| - 1];
      var mid := RunRooms(st, init, fetch, meta, startDate, endDate);
      RunRoomsGrow(st, init, fetch, meta, startDate, endDate);
      VisitRoomOutcomes(mid, targets[|targets| - 1], fetch, meta, startDate, endDate);
      RoomsGrowTrans(st.rooms, mid.rooms, RunRooms(st, targets, fetch, meta, startDate, endDate).rooms, meta);
    }
  }

  // ----- Re-running a batch -----

  /** Two states that differ at most in the `rooms` table. */
  predicate SameButRooms(a: RunState, b: RunState)
  {
    a.(rooms := b.rooms) == b
  }

  /** Every listed room that has metadata has a room record. */
  ghost predicate Covered(rooms: map<int, Room>, meta: map<int, Room>, ids: seq<int>)
  {
    forall id :: id in ids && id in meta ==> id in rooms
  }

  lemma {:induction false} SaveBonusesIgnoresRooms(a: RunState, b: RunState, spaceId: int, keys: seq<int>, slots: seq<RawSlot>, meta: map<int, Room>, queryDate: string)
    requires SameButRooms(a, b)
    ensures SameButRooms(SaveBonuses(a, spaceId, keys, slots, meta, queryDate), SaveBonuses(b, spaceId, keys, slots, meta, queryDate))
  {
    if keys != [] {
      SaveBonusesIgnoresRooms(a, b, spaceId, keys[..|keys| - 1], slots, meta, queryDate);
    }
  }

  /** The `rooms` table never steers the run: two runs from states that differ only in it differ only in it. */
  lemma {:induction false} RunIgnoresRooms(a: RunState, b: RunState, targets: seq<Target>, fetch: Fetcher, meta: map<int, Room>, startDate: string, endDate: string)
    requires SameButRooms(a, b)
    ensures SameButRooms(RunRooms(a, targets, fetch, meta, startDate, endDate), RunRooms(b, targets, fetch, meta, startDate, endDate))
    ensures RunSaves(a, targets, fetch, meta, startDate, endDate) == RunSaves(b, targets, fetch, meta, startDate, endDate)
  {
    if targets != [] {
      var init := targets[..|targets| - 1];
      var t := targets[|targets| - 1];
      RunIgnoresRooms(a, b, init, fetch, meta, startDate, endDate);
      var ma := RunRooms(a, init, fetch, meta, startDate, endDate);
      var mb := RunRooms(b, init, fetch, meta, startDate, endDate);
      var response := ResponseSlots(fetch(BuildPayload(t.spaceId, t.gid, startDate, endDate)));
      if t.spaceId !in ma.processed && response.Some? {
        var slots := response.value;
        SaveBonusesIgnoresRooms(SaveTarget(ma, t, slots, startDate), SaveTarget(mb, t, slots, startDate), t.spaceId, ItemOrder(slots), slots, meta, startDate);
      }
    }
  }

  lemma {:induction false} SaveBonusesCovers(st: RunState, spaceId: int, keys: seq<int>, slots: seq<RawSlot>, meta: map<int, Room>, queryDate: string)
    ensures Covered(SaveBonuses(st, spaceId, keys, slots, meta, queryDate).rooms, meta, BonusIds(st.processed, spaceId, keys))
  {
    if keys != [] {
      var init := keys[..|keys| - 1];
      SaveBonusesCovers(st, spaceId, init, slots, meta, queryDate);
      SaveBonusesBookkeeping(st, spaceId, init, slots, meta, queryDate);
    }
  }

  /** After a run over rooms that all have records, every saved room with metadata has a record. */
  lemma {:induction false} RunCovers(st: RunState, targets: seq<Target>, fetch: Fetcher, meta: map<int, Room>, startDate: string, endDate: string)
    requires forall i :: 0 <= i < |targets| ==> targets[i].spaceId in st.rooms
    ensures Covered(RunRooms(st, targets, fetch, meta, startDate, endDate).rooms, meta, RunSaves(st, targets, fetch, meta, startDate, endDate))
  {
    if targets != [] {
      var init := targets[..|targets| - 1];
      var t := targets[|targets| - 1];
      var mid := RunRooms(st, init, fetch, meta, startDate, endDate);
      var r := RunRooms(st, targets, fetch, meta, startDate, endDate);
      RunCovers(st, init, fetch, meta, startDate, endDate);
      RunRoomsGrow(st, init, fetch, meta, startDate, endDate);
      VisitRoomOutcomes(mid, t, fetch, meta, startDate, endDate);
      var response := ResponseSlots(fetch(BuildPayload(t.spaceId, t.gid, startDate, endDate)));
      if t.spaceId !in mid.processed && response.Some? {
        var slots := response.value;
        var afterTarget := SaveTarget(mid, t, slots, startDate);
        SaveBonusesCovers(afterTarget, t.spaceId, ItemOrder(slots), slots, meta, startDate);
        SaveBonusesBookkeeping(afterTarget, t.spaceId, ItemOrder(slots), slots, meta, startDate);
        var target := if t.spaceId in ItemOrder(slots) then [t.spaceId] else [];
        assert afterTarget.processed == mid.processed + Elems(target);
      }
    }
  }

  lemma {:induction false} SaveBonusesKeepsCoveredRooms(st: RunState, spaceId: int, keys: seq<int>, slots: seq<RawSlot>, meta: map<int, Room>, queryDate: string)
    requires Covered(st.rooms, meta, BonusIds(st.processed, spaceId, keys))
    ensures SaveBonuses(st, spaceId, keys, slots, meta, queryDate).rooms == st.rooms
  {
    if keys != [] {
      var init := keys[..|keys| - 1];
      SaveBonusesBookkeeping(st, spaceId, init, slots, meta, queryDate);
      SaveBonusesKeepsCoveredRooms(st, spaceId, init, slots, meta, queryDate);
    }
  }

  /** A run whose saved rooms are all covered already inserts no room record. */
  lemma {:induction false} RunKeepsCoveredRooms(st: RunState, targets: seq<Target>, fetch: Fetcher, meta: map<int, Room>, startDate: string, endDate: string)
    requires Covered(st.rooms, meta, RunSaves(st, targets, fetch, meta, startDate, endDate))
    ensures RunRooms(st, targets, fetch, meta, startDate, endDate).rooms == st.rooms
  {
    if targets != [] {
      var init := targets[..|targets| - 1];
      var t := targets[|targets| - 1];
      RunKeepsCoveredRooms(st, init, fetch, meta, startDate, endDate);
      var mid := RunRooms(st, init, fetch, meta, startDate, endDate);
      var response := ResponseSlots(fetch(BuildPayload(t.spaceId, t.gid, startDate, endDate)));
      if t.spaceId !in mid.processed && response.Some? {
        var slots := response.value;
        var afterTarget := SaveTarget(mid, t, slots, startDate);
        var target := if t.spaceId in ItemOrder(slots) then [t.spaceId] else [];
        assert afterTarget.processed == mid.processed + Elems(target);
        SaveBonusesKeepsCoveredRooms(afterTarget, t.spaceId, ItemOrder(slots), slots, meta, startDate);
      }
    }
  }

  /**
   * Re-running the batch for the same dates, on the same responses and metadata, over the same
   * room list, yields the same tables and the same tallies. The room list must name rooms of the
   * table; whether a second run reads back the same list is `RerunFromUnchangedTable`'s concern.
   */
  lemma RerunIsIdempotent(rooms: map<int, Room>, targets: seq<Target>, fetch: Fetcher, meta: map<int, Room>, startDate: string, endDate: string)
    requires forall i :: 0 <= i < |targets| ==> targets[i].spaceId in rooms
    ensures var first := CheckAll(rooms, targets, fetch, meta, startDate, endDate);
      CheckAll(first.rooms, targets, fetch, meta, startDate, endDate) == first
  {
    var first := CheckAll(rooms, targets, fetch, meta, startDate, endDate);
    var a := InitialState(rooms);
    var b := InitialState(first.rooms);
    RunCovers(a, targets, fetch, meta, startDate, endDate);
    RunIgnoresRooms(a, b, targets, fetch, meta, startDate, endDate);
    RunKeepsCoveredRooms(b, targets, fetch, meta, startDate, endDate);
  }

  /**
   * `get_available_rooms_from_sqlite`: the room list is every record of the `rooms` table, one
   * each, ordered by `space_id`, with the record's gid.
   */
  ghost predicate ListedFrom(rooms: map<int, Room>, targets: seq<Target>)
  {
    && (forall i, j :: 0 <= i < j < |targets| ==> targets[i].spaceId < targets[j].spaceId)
    && (forall i :: 0 <= i < |targets| ==> targets[i].spaceId in rooms && targets[i].gid == rooms[targets[i].spaceId].gid)
    && (forall id :: id in rooms ==> exists i :: 0 <= i < |targets| && targets[i].spaceId == id)
  }

  /** The table determines its room list. */
  lemma {:induction false} ListedFromUnique(rooms: map<int, Room>, a: seq<Target>, b: seq<Target>)
    requires ListedFrom(rooms, a) && ListedFrom(rooms, b)
    ensures a == b
    decreases |a|
  {
    if a == [] {
      EmptyListed(rooms, a, b);
    } else if b == [] {
      EmptyListed(rooms, b, a);
    } else {
      HeadListed(rooms, a, b);
      TailListed(rooms, a);
      TailListed(rooms, b);
      ListedFromUnique(rooms - {a[0].spaceId}, a[1..], b[1..]);
      assert a == [a[0]] + a[1..] && b == [b[0]] + b[1..];
    }
  }

  /** An empty list lists an empty table, whose only list is empty. */
  lemma EmptyListed(rooms: map<int, Room>, a: seq<Target>, b: seq<Target>)
    requires ListedFrom(rooms, a) && ListedFrom(rooms, b) && a == []
    ensures b == []
  {
    NoListedIds(rooms, a);
    if b != [] {
      HeadInTable(rooms, b);
      assert false;
    }
  }

  /** An empty list lists a table with no room. */
  lemma NoListedIds(rooms: map<int, Room>, a: seq<Target>)
    requires ListedFrom(rooms, a) && a == []
    ensures forall id :: id !in rooms
  {
  }

  /** The first room of a list is a room of the table. */
  lemma HeadInTable(rooms: map<int, Room>, b: seq<Target>)
    requires ListedFrom(rooms, b) && b != []
    ensures b[0].spaceId in rooms.Keys
  {
  }

  /** Two lists of one table start with the same record: the smallest space id. */
  lemma HeadListed(rooms: map<int, Room>, a: seq<Target>, b: seq<Target>)
    requires ListedFrom(rooms, a) && ListedFrom(rooms, b) && a != [] && b != []
    ensures a[0] == b[0]
  {
    var x := a[0].spaceId;
    var y := b[0].spaceId;
    assert x in rooms && y in rooms;
    var j :| 0 <= j < |b| && b[j].spaceId == x;
    var k :| 0 <= k < |a| && a[k].spaceId == y;
    assert y <= x by {
      if j != 0 { assert b[0].spaceId < b[j].spaceId; }
    }
  }

  /** Without its first record, the table lists the rest of the list. */
  lemma TailListed(rooms: map<int, Room>, a: seq<Target>)
    requires ListedFrom(rooms, a) && a != []
    ensures ListedFrom(rooms - {a[0].spaceId}, a[1..])
  {
    var x := a[0].spaceId;
    var rest := rooms - {x};
    forall id | id in rest
      ensures exists i :: 0 <= i < |a[1..]| && a[1..][i].spaceId == id
    {
      var i :| 0 <= i < |a| && a[i].spaceId == id;
      assert i != 0;
      assert a[1..][i - 1].spaceId == id;
    }
  }

  /**
   * When the first run adds no room record, a second run reads back the same room list and then
   * repeats the first run's tables and tallies exactly.
   */
  lemma RerunFromUnchangedTable(rooms: map<int, Room>, targets: seq<Target>, again: seq<Target>, fetch: Fetcher, meta: map<int, Room>, startDate: string, endDate: string)
    requires ListedFrom(rooms, targets)
    requires CheckAll(rooms, targets, fetch, meta, startDate, endDate).rooms.Keys == rooms.Keys
    requires ListedFrom(CheckAll(rooms, targets, fetch, meta, startDate, endDate).rooms, again)
    ensures again == targets
    ensures CheckAll(CheckAll(rooms, targets, fetch, meta, startDate, endDate).rooms, again, fetch, meta, startDate, endDate)
      == CheckAll(rooms, targets, fetch, meta, startDate, endDate)
  {
    var first := CheckAll(rooms, targets, fetch, meta, startDate, endDate);
    assert first == RunRooms(InitialState(rooms), targets, fetch, meta, startDate, endDate);
    RunRoomsGrow(InitialState(rooms), targets, fetch, meta, startDate, endDate);
    assert RoomsGrow(rooms, first.rooms, meta);
    GrowWithSameKeys(rooms, first.rooms, meta);
    ListedFromUnique(rooms, targets, again);
    RerunIsIdempotent(rooms, targets, fetch, meta, startDate, endDate);
  }

  /** Growing without new keys changes nothing. */
  lemma GrowWithSameKeys(before: map<int, Room>, after: map<int, Room>, meta: map<int, Room>)
    requires RoomsGrow(before, after, meta) && after.Keys == before.Keys
    ensures after == before
  {
    forall id | id in after ensures id in before && after[id] == before[id] {
      assert id in after.Keys;
    }
  }

  /** The room records, the slot and the metadata of `RerunFromGrownTableDiffers`. */
  const ListedRoom := Room("R2", 4, 5, "")
  const BonusRoom := Room("R1", 6, 9, "")
  const BonusSlot := RawSlot("2025-01-01 09:00:00", "2025-01-01 09:30:00", 1, None, Some("c"))

  /** A fetch that answers every request with the one slot of room 1. */
  ghost predicate AnswersBonusSlot(fetch: Fetcher)
  {
    forall f :: fetch(f) == Some(Response(Some([BonusSlot])))
  }

  /** The first run over room 2 saves room 1 as a bonus room and adds its record. */
  lemma FirstRunAddsBonusRoom(fetch: Fetcher)
    requires AnswersBonusSlot(fetch)
    ensures var first := CheckAll(map[2 := ListedRoom], [Target(2, 5)], fetch, map[1 := BonusRoom], "2025-01-01", "2025-01-02");
      first.rooms == map[2 := ListedRoom, 1 := BonusRoom] && first.success == 0 && first.bonus == 1
  {
    var meta := map[1 := BonusRoom];
    var sd, ed := "2025-01-01", "2025-01-02";
    var s := BonusSlot;
    assert ItemOrder([s]) == [1];
    var e0 := InitialState(map[2 := ListedRoom]);
    assert [Target(2, 5)][..0] == [] && [1][..0] == [];
    assert fetch(BuildPayload(2, 5, sd, ed)) == Some(Response(Some([s])));
    var a0 := SaveTarget(e0, Target(2, 5), [s], sd);
    assert a0 == e0;
    assert SaveBonuses(a0, 2, [], [s], meta, sd) == a0;
    assert RunRooms(e0, [], fetch, meta, sd, ed) == e0;
    var b1 := SaveBonuses(a0, 2, [1], [s], meta, sd);
    assert b1 == SaveBonus(e0, 2, 1, [s], meta, sd);
    assert b1.rooms == map[2 := ListedRoom, 1 := BonusRoom] && b1.bonus == 1 && b1.success == 0;
    var first := CheckAll(map[2 := ListedRoom], [Target(2, 5)], fetch, meta, sd, ed);
    assert first == VisitRoom(e0, Target(2, 5), fetch, meta, sd, ed);
  }

  /** The second run's first visit saves room 1 as its target and finds no bonus room. */
  lemma SecondRunFirstVisit(fetch: Fetcher)
    requires AnswersBonusSlot(fetch)
    ensures var mid := RunRooms(InitialState(map[2 := ListedRoom, 1 := BonusRoom]), [Target(1, 9)], fetch, map[1 := BonusRoom], "2025-01-01", "2025-01-02");
      mid.success == 1 && mid.bonus == 0 && mid.processed == {1}
  {
    var meta := map[1 := BonusRoom];
    var sd, ed := "2025-01-01", "2025-01-02";
    var s := BonusSlot;
    var t1 := Target(1, 9);
    assert ItemOrder([s]) == [1];
    assert [t1][..0] == [] && [1][..0] == [];
    assert fetch(BuildPayload(1, 9, sd, ed)) == Some(Response(Some([s])));
    var e1 := InitialState(map[2 := ListedRoom, 1 := BonusRoom]);
    assert RunRooms(e1, [], fetch, meta, sd, ed) == e1;
    var a1 := SaveTarget(e1, t1, [s], sd);
    assert a1.success == 1 && a1.bonus == 0 && a1.processed == {1};
    assert SaveBonuses(a1, 1, [], [s], meta, sd) == a1;
    var c1 := SaveBonuses(a1, 1, [1], [s], meta, sd);
    assert c1 == SaveBonus(a1, 1, 1, [s], meta, sd) == a1;
  }

  /** The second run, over rooms 1 and 2, counts room 1 as a success and finds no bonus room. */
  lemma SecondRunCountsTarget(fetch: Fetcher)
    requires AnswersBonusSlot(fetch)
    ensures var second := CheckAll(map[2 := ListedRoom, 1 := BonusRoom], [Target(1, 9), Target(2, 5)], fetch, map[1 := BonusRoom], "2025-01-01", "2025-01-02");
      second.success == 1 && second.bonus == 0
  {
    var meta := map[1 := BonusRoom];
    var sd, ed := "2025-01-01", "2025-01-02";
    var s := BonusSlot;
    var t1, t2 := Target(1, 9), Target(2, 5);
    SecondRunFirstVisit(fetch);
    assert ItemOrder([s]) == [1];
    assert [t1, t2][..1] == [t1] && [1][..0] == [];
    assert fetch(BuildPayload(2, 5, sd, ed)) == Some(Response(Some([s])));
    var e1 := InitialState(map[2 := ListedRoom, 1 := BonusRoom]);
    var mid := RunRooms(e1, [t1], fetch, meta, sd, ed);
    assert 2 !in ItemOrder([s]);
    var a2 := SaveTarget(mid, t2, [s], sd);
    assert a2 == mid;
    assert SaveBonuses(a2, 2, [], [s], meta, sd) == a2;
    var c2 := SaveBonuses(a2, 2, [1], [s], meta, sd);
    assert c2 == SaveBonus(mid, 2, 1, [s], meta, sd) == mid;
    var second := CheckAll(e1.rooms, [t1, t2], fetch, meta, sd, ed);
    assert second == VisitRoom(mid, t2, fetch, meta, sd, ed);
  }

  /**
   * A first run that adds a bonus room's record changes the room list a second run reads back,
   * and then the tallies differ: room 2 is listed, every response holds one slot of room 1, and
   * the metadata knows room 1.
   */
  lemma RerunFromGrownTableDiffers(fetch: Fetcher)
    requires AnswersBonusSlot(fetch)
    ensures var first := CheckAll(map[2 := ListedRoom], [Target(2, 5)], fetch, map[1 := BonusRoom], "2025-01-01", "2025-01-02");
      var second := CheckAll(first.rooms, [Target(1, 9), Target(2, 5)], fetch, map[1 := BonusRoom], "2025-01-01", "2025-01-02");
      && ListedFrom(map[2 := ListedRoom], [Target(2, 5)])
      && ListedFrom(first.rooms, [Target(1, 9), Target(2, 5)])
      && (first.success, first.bonus) == (0, 1)
      && (second.success, second.bonus) == (1, 0)
  {
    FirstRunAddsBonusRoom(fetch);
    SecondRunCountsTarget(fetch);
    var listed := [Target(1, 9), Target(2, 5)];
    assert ListedFrom(map[2 := ListedRoom, 1 := BonusRoom], listed) by {
      assert listed[0].spaceId == 1 && listed[1].spaceId == 2;
    }
  }
}
