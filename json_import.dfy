/**
 * JSON batch importer: `check_all_rooms_availability_sqlite_from_json`
 * (script.py), from the decoded file onwards. It groups the slots by item id
 * (dropping those outside a non-empty filter), inserts missing room records
 * from the metadata, and for each group deletes the rows of one query date and
 * inserts the group's rows. The delete key takes its date from the LAST slot of
 * the group, while each inserted row is dated by its own start time.
 */
module JsonImport {
  import opened Wrappers
  import opened Slots
  import opened Demux
  import opened Store
  import opened ApiClient

  /** Python's `s[:10]`: the first ten characters, or all of a shorter string. */
  function DatePrefix(s: string): (p: string)
    ensures |p| <= 10 && p <= s
    ensures |s| >= 10 ==> |p| == 10
  {
    if |s| <= 10 then s else s[..10]
  }

  /** The rows the importer inserts: each one's query date is its own start's date prefix. */
  function DatedRowsOf(spaceId: int, gid: int, infos: seq<SlotInfo>): seq<TimeSlotRow>
  {
    if infos == [] then []
    else
      var last := infos[|infos| - 1];
      DatedRowsOf(spaceId, gid, infos[..|infos| - 1]) + [RowOf(spaceId, gid, last, DatePrefix(last.start))]
  }

  /** The date the importer deletes: the last slot's date prefix (`today` only for an empty group). */
  function DeleteDate(group: seq<RawSlot>, today: string): string
  {
    if group == [] then today else DatePrefix(group[|group| - 1].start)
  }

  datatype Tables = Tables(rooms: map<int, Room>, timeSlots: seq<TimeSlotRow>)

  /** One group: room record if new and known, delete one date, insert the group's rows. */
  function ImportGroup(tb: Tables, id: int, group: seq<RawSlot>, meta: map<int, Room>, existing: set<int>, today: string): Tables
  {
    Tables(
      if id !in existing && id in meta then tb.rooms[id := meta[id]] else tb.rooms,
      Deleted(tb.timeSlots, id, DeleteDate(group, today)) + DatedRowsOf(id, MetaGid(meta, id), Ordered(Classify(group))))
  }

  function ImportGroups(tb: Tables, keys: seq<int>, slots: seq<RawSlot>, meta: map<int, Room>, existing: set<int>, today: string): Tables
  {
    if keys == [] then tb
    else
      var id := keys[|keys| - 1];
      ImportGroup(ImportGroups(tb, keys[..|keys| - 1], slots, meta, existing, today), id, SlotsFor(slots, id), meta, existing, today)
  }

  /** The whole import; a missing file or a file without `slots` changes nothing. */
  function Import(tb: Tables, data: Option<Response>, meta: map<int, Room>, filter: set<int>, today: string): Tables
  {
    match data
    case Some(Response(Some(slots))) =>
      var kept := Kept(slots, filter);
      ImportGroups(tb, ItemOrder(kept), kept, meta, tb.rooms.Keys, today)
    case _ => tb
  }

  /** The number of rooms the importer reports: one per group. */
  function GroupCount(data: Option<Response>, filter: set<int>): nat
  {
    match data
    case Some(Response(Some(slots))) => |ItemOrder(Kept(slots, filter))|
    case _ => 0
  }

  /**
   * Imports one decoded JSON file (`None` when the file does not exist); `today` stands for the
   * current date, used only for a group without slots. Returns the reported count `imported`.
   */
  method ImportFromJson(db: Database, data: Option<Response>, meta: map<int, Room>, filter: set<int>, today: string)
      returns (imported: nat)
    modifies db
    ensures Tables(db.rooms, db.timeSlots) == Import(Tables(old(db.rooms), old(db.timeSlots)), data, meta, filter, today)
    ensures imported == GroupCount(data, filter)
  {
    if data.None? || data.value.slots.None? {
      return 0;
    }
    var slots := data.value.slots.value;
    ghost var kept := Kept(slots, filter);
    var existing := db.rooms.Keys;
    var groups := GroupByItem(slots, filter);
    ImportAllGroups(db, groups, kept, meta, existing, today);
    imported := |groups.keys|;
  }

  /** The group loop: `for item_id, slots in slots_by_item.items()`. */
  method ImportAllGroups(db: Database, groups: Groups, ghost kept: seq<RawSlot>, meta: map<int, Room>, existing: set<int>, today: string)
    requires forall id :: id in groups.slotsOf <==> id in groups.keys
    requires forall id :: id in groups.slotsOf ==> groups.slotsOf[id] == SlotsFor(kept, id)
    modifies db
    ensures Tables(db.rooms, db.timeSlots) == ImportGroups(Tables(old(db.rooms), old(db.timeSlots)), groups.keys, kept, meta, existing, today)
  {
    ghost var tb0 := Tables(db.rooms, db.timeSlots);
    var keys := groups.keys;
    for j := 0 to |keys|
      invariant Tables(db.rooms, db.timeSlots) == ImportGroups(tb0, keys[..j], kept, meta, existing, today)
    {
      var id := keys[j];
      assert id in groups.slotsOf;
      ImportGroupsSnoc(tb0, keys, j, kept, meta, existing, today);
      ImportOneGroup(db, id, groups.slotsOf[id], meta, existing, today);
    }
    assert keys[..|keys|] == keys;
  }

  lemma ImportGroupsSnoc(tb: Tables, keys: seq<int>, j: nat, slots: seq<RawSlot>, meta: map<int, Room>, existing: set<int>, today: string)
    requires j < |keys|
    ensures ImportGroups(tb, keys[..j + 1], slots, meta, existing, today)
         == ImportGroup(ImportGroups(tb, keys[..j], slots, meta, existing, today), keys[j], SlotsFor(slots, keys[j]), meta, existing, today)
  {
    assert keys[..j + 1][..j] == keys[..j];
  }

  /** The body of the group loop. */
  method ImportOneGroup(db: Database, id: int, group: seq<RawSlot>, meta: map<int, Room>, existing: set<int>, today: string)
    modifies db
    ensures Tables(db.rooms, db.timeSlots) == ImportGroup(Tables(old(db.rooms), old(db.timeSlots)), id, group, meta, existing, today)
  {
    if id !in existing {
      if id in meta {
        db.InsertOrReplaceRoom(id, meta[id]);
      }
    }
    var availability := ProcessSlotsToAvailability(group);
    var queryDate := if |group| > 0 then DatePrefix(group[|group| - 1].start) else today;
    db.DeleteTimeSlots(id, queryDate);
    InsertDatedRows(db, id, MetaGid(meta, id), availability.available + availability.unavailable);
  }

  /** The insert loop of one group: each row dated by its own start. */
  method InsertDatedRows(db: Database, id: int, gid: int, infos: seq<SlotInfo>)
    modifies db
    ensures db.timeSlots == old(db.timeSlots) + DatedRowsOf(id, gid, infos)
    ensures db.rooms == old(db.rooms)
  {
    for k := 0 to |infos|
      invariant db.timeSlots == old(db.timeSlots) + DatedRowsOf(id, gid, infos[..k])
      invariant db.rooms == old(db.rooms)
    {
      assert infos[..k + 1][..k] == infos[..k];
      var info := infos[k];
      db.InsertTimeSlot(TimeSlotRow(id, gid, info.start, info.end, info.status, info.itemId, info.checksum, DatePrefix(info.start)));
    }
    assert infos[..|infos|] == infos;
  }

  /** All slots of the group start on day `day`. */
  predicate SingleDay(group: seq<RawSlot>, day: string)
  {
    forall i :: 0 <= i < |group| ==> DatePrefix(group[i].start) == day
  }

  lemma {:induction false} InfosWithDay(group: seq<RawSlot>, st: Status, day: string)
    requires SingleDay(group, day)
    ensures forall info :: info in InfosWith(group, st) ==> DatePrefix(info.start) == day
  {
    if group != [] {
      InfosWithDay(group[..|group| - 1], st, day);
    }
  }

  lemma {:induction false} DatedRowsOnOneDay(spaceId: int, gid: int, infos: seq<SlotInfo>, day: string)
    requires forall info :: info in infos ==> DatePrefix(info.start) == day
    ensures DatedRowsOf(spaceId, gid, infos) == RowsOf(spaceId, gid, infos, day)
  {
    if infos != [] {
      DatedRowsOnOneDay(spaceId, gid, infos[..|infos| - 1], day);
    }
  }

  /**
   * For a group whose slots all fall on one day, the import is a proper replace: that day's rows
   * of the room become the group's rows, available ones first, the other keys keep their rows, and
   * importing the same group again changes nothing.
   */
  lemma ImportSingleDayReplaces(tb: Tables, id: int, group: seq<RawSlot>, meta: map<int, Room>, existing: set<int>, today: string)
    requires group != [] && SingleDay(group, DatePrefix(group[|group| - 1].start))
    ensures var day := DatePrefix(group[|group| - 1].start);
      var after := ImportGroup(tb, id, group, meta, existing, today);
      && WithKey(after.timeSlots, id, day) == RowsOf(id, MetaGid(meta, id), Ordered(Classify(group)), day)
      && (forall s, q :: (s, q) != (id, day) ==> WithKey(after.timeSlots, s, q) == WithKey(tb.timeSlots, s, q))
      && ImportGroup(after, id, group, meta, existing, today) == after
  {
    var day := DatePrefix(group[|group| - 1].start);
    var infos := Ordered(Classify(group));
    InfosWithDay(group, Available, day);
    InfosWithDay(group, Unavailable, day);
    DatedRowsOnOneDay(id, MetaGid(meta, id), infos, day);
    SavedRows(tb.timeSlots, id, MetaGid(meta, id), Classify(group), day);
    RowsOfAppend(id, MetaGid(meta, id), Classify(group).available, Classify(group).unavailable, day);
  }

  /**
   * A group that spans two days is not replaced on re-import: the earlier day's rows are never
   * deleted, so importing the same file twice into empty tables leaves them twice.
   */
  lemma ReimportDuplicatesEarlierDay(a: RawSlot, b: RawSlot)
    requires a.itemId == b.itemId && a.className.None? && b.className.None?
    requires DatePrefix(a.start) != DatePrefix(b.start)
    ensures var data := Some(Response(Some([a, b])));
      var once := Import(Tables(map[], []), data, map[], {}, DatePrefix(b.start));
      var twice := Import(once, data, map[], {}, DatePrefix(b.start));
      && |WithKey(once.timeSlots, a.itemId, DatePrefix(a.start))| == 1
      && |WithKey(twice.timeSlots, a.itemId, DatePrefix(a.start))| == 2
  {
    var id, da, db := a.itemId, DatePrefix(a.start), DatePrefix(b.start);
    var ra, rb := RowOf(id, 0, ToSlotInfo(a), da), RowOf(id, 0, ToSlotInfo(b), db);
    var data := Some(Response(Some([a, b])));
    ImportTwoSlots(a, b, Tables(map[], []));
    var once := Import(Tables(map[], []), data, map[], {}, db);
    assert once.timeSlots == [ra, rb] by {
      assert [] + [ra, rb] == [ra, rb];
    }
    TwoDaysRows(ra, rb, id, da, db);
    ImportTwoSlots(a, b, once);
    var twice := Import(once, data, map[], {}, db);
    assert twice.timeSlots == [ra, ra, rb] by {
      assert [ra] + [ra, rb] == [ra, ra, rb];
    }
  }

  /** Importing the two-slot file: delete the second slot's day, then append both rows. */
  lemma ImportTwoSlots(a: RawSlot, b: RawSlot, tb: Tables)
    requires a.itemId == b.itemId && a.className.None? && b.className.None?
    ensures Import(tb, Some(Response(Some([a, b]))), map[], {}, DatePrefix(b.start))
         == Tables(tb.rooms, Deleted(tb.timeSlots, a.itemId, DatePrefix(b.start))
                             + [RowOf(a.itemId, 0, ToSlotInfo(a), DatePrefix(a.start)), RowOf(a.itemId, 0, ToSlotInfo(b), DatePrefix(b.start))])
  {
    var id := a.itemId;
    TwoSlotsOneGroup(a, b);
    assert [id][..0] == [];
    assert ImportGroups(tb, [id], [a, b], map[], tb.rooms.Keys, DatePrefix(b.start))
        == ImportGroup(tb, id, [a, b], map[], tb.rooms.Keys, DatePrefix(b.start));
  }

  lemma TwoSlotsOneGroup(a: RawSlot, b: RawSlot)
    requires a.itemId == b.itemId && a.className.None? && b.className.None?
    ensures Kept([a, b], {}) == [a, b]
    ensures ItemOrder([a, b]) == [a.itemId]
    ensures SlotsFor([a, b], a.itemId) == [a, b]
    ensures Ordered(Classify([a, b])) == [ToSlotInfo(a), ToSlotInfo(b)]
    ensures DatedRowsOf(a.itemId, 0, [ToSlotInfo(a), ToSlotInfo(b)])
      == [RowOf(a.itemId, 0, ToSlotInfo(a), DatePrefix(a.start)), RowOf(a.itemId, 0, ToSlotInfo(b), DatePrefix(b.start))]
  {
    KeptFilter([a, b], {});
    TwoSlotsGrouped(a, b);
    TwoSlotsClassified(a, b);
    TwoInfosDated(a.itemId, ToSlotInfo(a), ToSlotInfo(b));
  }

  lemma TwoSlotsGrouped(a: RawSlot, b: RawSlot)
    requires a.itemId == b.itemId
    ensures ItemOrder([a, b]) == [a.itemId]
    ensures SlotsFor([a, b], a.itemId) == [a, b]
  {
    assert [a, b][..1] == [a];
    assert [a][..0] == [];
    assert ItemOrder([a]) == [a.itemId];
    assert SlotsFor([a], a.itemId) == [a];
  }

  lemma TwoSlotsClassified(a: RawSlot, b: RawSlot)
    requires a.className.None? && b.className.None?
    ensures Ordered(Classify([a, b])) == [ToSlotInfo(a), ToSlotInfo(b)]
  {
    assert [a, b][..1] == [a];
    assert [a][..0] == [];
    assert InfosWith([a], Available) == [ToSlotInfo(a)];
    assert InfosWith([a], Unavailable) == [];
  }

  lemma TwoInfosDated(id: int, ia: SlotInfo, ib: SlotInfo)
    ensures DatedRowsOf(id, 0, [ia, ib]) == [RowOf(id, 0, ia, DatePrefix(ia.start)), RowOf(id, 0, ib, DatePrefix(ib.start))]
  {
    assert [ia, ib][..1] == [ia];
    assert [ia][..0] == [];
    assert DatedRowsOf(id, 0, [ia]) == [RowOf(id, 0, ia, DatePrefix(ia.start))];
  }

  lemma TwoDaysRows(ra: TimeSlotRow, rb: TimeSlotRow, id: int, da: string, db: string)
    requires ra.spaceId == id && rb.spaceId == id && ra.queryDate == da && rb.queryDate == db && da != db
    ensures Deleted([ra, rb], id, db) == [ra]
    ensures WithKey([ra, rb], id, da) == [ra]
    ensures WithKey([ra, ra, rb], id, da) == [ra, ra]
  {
    assert HasKey(rb, id, db) && !HasKey(ra, id, db);
    assert !HasKey(rb, id, da) && HasKey(ra, id, da);
    DeletedPair(ra, rb, id, db);
    WithKeyPair(ra, rb, id, da);
    WithKeyTriple(ra, rb, id, da);
  }

  lemma DeletedPair(ra: TimeSlotRow, rb: TimeSlotRow, id: int, q: string)
    requires !HasKey(ra, id, q) && HasKey(rb, id, q)
    ensures Deleted([ra, rb], id, q) == [ra]
  {
    assert [ra, rb][..1] == [ra];
    assert [ra][..0] == [];
    assert Deleted([ra], id, q) == [ra];
  }

  lemma WithKeyPair(ra: TimeSlotRow, rb: TimeSlotRow, id: int, q: string)
    requires HasKey(ra, id, q) && !HasKey(rb, id, q)
    ensures WithKey([ra, rb], id, q) == [ra]
  {
    assert [ra, rb][..1] == [ra];
    assert [ra][..0] == [];
    assert WithKey([ra], id, q) == [ra];
  }

  lemma WithKeyTriple(ra: TimeSlotRow, rb: TimeSlotRow, id: int, q: string)
    requires HasKey(ra, id, q) && !HasKey(rb, id, q)
    ensures WithKey([ra, ra, rb], id, q) == [ra, ra]
  {
    assert [ra, ra, rb][..2] == [ra, ra];
    assert [ra, ra][..1] == [ra];
    assert [ra][..0] == [];
    assert WithKey([ra], id, q) == [ra];
    assert WithKey([ra, ra], id, q) == [ra, ra];
  }

  /** One concrete file that shows the duplication. */
  lemma ReimportDuplicatesExample()
    ensures var a := RawSlot("2025-01-01T10:00:00", "2025-01-01T10:30:00", 7, None, Some("c1"));
      var b := RawSlot("2025-01-02T10:00:00", "2025-01-02T10:30:00", 7, None, Some("c2"));
      var data := Some(Response(Some([a, b])));
      var once := Import(Tables(map[], []), data, map[], {}, "2025-01-02");
      var twice := Import(once, data, map[], {}, "2025-01-02");
      && |WithKey(once.timeSlots, 7, "2025-01-01")| == 1
      && |WithKey(twice.timeSlots, 7, "2025-01-01")| == 2
  {
    var a := RawSlot("2025-01-01T10:00:00", "2025-01-01T10:30:00", 7, None, Some("c1"));
    var b := RawSlot("2025-01-02T10:00:00", "2025-01-02T10:30:00", 7, None, Some("c2"));
    assert DatePrefix(a.start) == "2025-01-01";
    assert DatePrefix(b.start) == "2025-01-02";
    ReimportDuplicatesEarlierDay(a, b);
  }

  /** Every slot of a group is a slot of the input. */
  lemma {:induction false} SlotsForIn(slots: seq<RawSlot>, id: int)
    ensures forall s :: s in SlotsFor(slots, id) ==> s in slots
  {
    if slots != [] {
      SlotsForIn(slots[..|slots| - 1], id);
    }
  }

  lemma {:induction false} DatedRowsOwnRoom(spaceId: int, gid: int, infos: seq<SlotInfo>, s: int, q: string)
    requires s != spaceId
    ensures WithKey(DatedRowsOf(spaceId, gid, infos), s, q) == []
  {
    if infos != [] {
      var init := infos[..|infos| - 1];
      var last := infos[|infos| - 1];
      DatedRowsOwnRoom(spaceId, gid, init, s, q);
      WithKeyAppend(DatedRowsOf(spaceId, gid, init), [RowOf(spaceId, gid, last, DatePrefix(last.start))], s, q);
      assert [RowOf(spaceId, gid, last, DatePrefix(last.start))][..0] == [];
    }
  }

  /** The group loop touches only the rows and records of the rooms it imports. */
  lemma {:induction false} ImportGroupsTouchesOnlyKeys(tb: Tables, keys: seq<int>, slots: seq<RawSlot>, meta: map<int, Room>, existing: set<int>, today: string, s: int, q: string)
    requires s !in keys
    ensures var after := ImportGroups(tb, keys, slots, meta, existing, today);
      && WithKey(after.timeSlots, s, q) == WithKey(tb.timeSlots, s, q)
      && (s in after.rooms <==> s in tb.rooms)
      && (s in tb.rooms ==> after.rooms[s] == tb.rooms[s])
  {
    if keys != [] {
      var init := keys[..|keys| - 1];
      var id := keys[|keys| - 1];
      var mid := ImportGroups(tb, init, slots, meta, existing, today);
      ImportGroupsTouchesOnlyKeys(tb, init, slots, meta, existing, today, s, q);
      var group := SlotsFor(slots, id);
      DeletedRows(mid.timeSlots, id, DeleteDate(group, today), s, q);
      WithKeyAppend(Deleted(mid.timeSlots, id, DeleteDate(group, today)), DatedRowsOf(id, MetaGid(meta, id), Ordered(Classify(group))), s, q);
      DatedRowsOwnRoom(id, MetaGid(meta, id), Ordered(Classify(group)), s, q);
    }
  }

  lemma KeptIds(slots: seq<RawSlot>, filter: set<int>, id: int)
    requires id in ItemOrder(Kept(slots, filter))
    ensures filter == {} || id in filter
  {
    var kept := Kept(slots, filter);
    ItemOrderMembership(kept, id);
    SlotsForOwnId(kept, id);
    SlotsForIn(kept, id);
    KeptFilter(slots, filter);
    assert SlotsFor(kept, id)[0] in SlotsFor(kept, id);
  }

  /**
   * With a non-empty filter, rooms outside it are left alone: their rows and their room records
   * are exactly as before the import.
   */
  lemma ImportRespectsFilter(tb: Tables, data: Option<Response>, meta: map<int, Room>, filter: set<int>, today: string, s: int, q: string)
    requires filter != {} && s !in filter
    ensures var after := Import(tb, data, meta, filter, today);
      && WithKey(after.timeSlots, s, q) == WithKey(tb.timeSlots, s, q)
      && (s in after.rooms <==> s in tb.rooms)
      && (s in tb.rooms ==> after.rooms[s] == tb.rooms[s])
  {
    if data.Some? && data.value.slots.Some? {
      var slots := data.value.slots.value;
      if s in ItemOrder(Kept(slots, filter)) {
        KeptIds(slots, filter, s);
      }
      ImportGroupsTouchesOnlyKeys(tb, ItemOrder(Kept(slots, filter)), Kept(slots, filter), meta, tb.rooms.Keys, today, s, q);
    }
  }

  /** Room records are only added, only from metadata, and only for rooms absent when the import began. */
  lemma {:induction false} ImportRoomsFromMeta(tb: Tables, keys: seq<int>, slots: seq<RawSlot>, meta: map<int, Room>, today: string)
    ensures var after := ImportGroups(tb, keys, slots, meta, tb.rooms.Keys, today);
      && (forall id :: id in tb.rooms ==> id in after.rooms && after.rooms[id] == tb.rooms[id])
      && (forall id :: id in after.rooms && id !in tb.rooms ==> id in keys && id in meta && after.rooms[id] == meta[id])
  {
    if keys != [] {
      ImportRoomsFromMeta(tb, keys[..|keys| - 1], slots, meta, today);
    }
  }
}
