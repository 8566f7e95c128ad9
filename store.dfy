/**
 * Persistence Writer: the SQLite database as in-memory state. The `rooms`
 * table is a map keyed by `space_id`; the `time_slots` table is a sequence of
 * rows in insertion order (script.py, `init_sqlite_database`,
 * `save_availability_to_sqlite`).
 */
module Store {
  import opened Slots

  /** A row of `rooms` (and of the room metadata CSV), without its key. */
  datatype Room = Room(name: string, capacity: int, gid: int, url: string)

  /** A row of `time_slots`, without the database-assigned `id` and `created_at`. */
  datatype TimeSlotRow = TimeSlotRow(
    spaceId: int,
    gid: int,
    startTime: string,
    endTime: string,
    status: Status,
    itemId: int,
    checksum: string,
    queryDate: string)

  predicate HasKey(row: TimeSlotRow, spaceId: int, queryDate: string)
  {
    row.spaceId == spaceId && row.queryDate == queryDate
  }

  /** `DELETE FROM time_slots WHERE space_id = ? AND query_date = ?` */
  function Deleted(rows: seq<TimeSlotRow>, spaceId: int, queryDate: string): seq<TimeSlotRow>
  {
    if rows == [] then []
    else
      var last := rows[|rows| - 1];
      Deleted(rows[..|rows| - 1], spaceId, queryDate) + (if HasKey(last, spaceId, queryDate) then [] else [last])
  }

  /** `SELECT ... FROM time_slots WHERE space_id = ? AND query_date = ?`, in insertion order. */
  function WithKey(rows: seq<TimeSlotRow>, spaceId: int, queryDate: string): seq<TimeSlotRow>
  {
    if rows == [] then []
    else
      var last := rows[|rows| - 1];
      WithKey(rows[..|rows| - 1], spaceId, queryDate) + (if HasKey(last, spaceId, queryDate) then [last] else [])
  }

  /** The row inserted for one normalised slot. */
  function RowOf(spaceId: int, gid: int, info: SlotInfo, queryDate: string): TimeSlotRow
  {
    TimeSlotRow(spaceId, gid, info.start, info.end, info.status, info.itemId, info.checksum, queryDate)
  }

  /** The rows inserted for a list of normalised slots, in list order. */
  function RowsOf(spaceId: int, gid: int, infos: seq<SlotInfo>, queryDate: string): seq<TimeSlotRow>
  {
    if infos == [] then []
    else RowsOf(spaceId, gid, infos[..|infos| - 1], queryDate) + [RowOf(spaceId, gid, infos[|infos| - 1], queryDate)]
  }

  /** The specification of a delete-then-insert for one `(space_id, query_date)` key. */
  function Replaced(rows: seq<TimeSlotRow>, spaceId: int, queryDate: string, inserted: seq<TimeSlotRow>): seq<TimeSlotRow>
  {
    Deleted(rows, spaceId, queryDate) + inserted
  }

  predicate AllKeyed(rows: seq<TimeSlotRow>, spaceId: int, queryDate: string)
  {
    forall r :: r in rows ==> HasKey(r, spaceId, queryDate)
  }

  /** `int(room_meta.get(id, {}).get('gid', 0))`: the metadata's gid, or 0 when the room has no metadata. */
  function MetaGid(meta: map<int, Room>, id: int): int
  {
    if id in meta then meta[id].gid else 0
  }

  /** The database: the two tables the pipeline writes. */
  class Database {
    var rooms: map<int, Room>
    var timeSlots: seq<TimeSlotRow>

    constructor (rooms: map<int, Room>, timeSlots: seq<TimeSlotRow>)
      ensures this.rooms == rooms && this.timeSlots == timeSlots
    {
      this.rooms := rooms;
      this.timeSlots := timeSlots;
    }

    /** `INSERT OR REPLACE INTO rooms`: the row keyed by `spaceId` becomes `room`. */
    method InsertOrReplaceRoom(spaceId: int, room: Room)
      modifies this
      ensures rooms == old(rooms)[spaceId := room]
      ensures timeSlots == old(timeSlots)
    {
      rooms := rooms[spaceId := room];
    }

    /** `DELETE FROM time_slots WHERE space_id = ? AND query_date = ?` */
    method DeleteTimeSlots(spaceId: int, queryDate: string)
      modifies this
      ensures timeSlots == Deleted(old(timeSlots), spaceId, queryDate)
      ensures rooms == old(rooms)
    {
      timeSlots := Deleted(timeSlots, spaceId, queryDate);
    }

    /** `DELETE FROM time_slots` */
    method DeleteAllTimeSlots()
      modifies this
      ensures timeSlots == []
      ensures rooms == old(rooms)
    {
      timeSlots := [];
    }

    /** `INSERT INTO time_slots`: the new row goes after all existing ones. */
    method InsertTimeSlot(row: TimeSlotRow)
      modifies this
      ensures timeSlots == old(timeSlots) + [row]
      ensures rooms == old(rooms)
    {
      timeSlots := timeSlots + [row];
    }
  }

  /**
   * `save_availability_to_sqlite`: deletes the rows of `(spaceId, queryDate)`, then inserts the
   * available slots followed by the unavailable ones, each tagged with `spaceId`, `gid` and `queryDate`.
   */
  method SaveAvailability(db: Database, spaceId: int, gid: int, availability: Availability, queryDate: string)
    modifies db
    ensures db.timeSlots == Replaced(old(db.timeSlots), spaceId, queryDate, RowsOf(spaceId, gid, Ordered(availability), queryDate))
    ensures db.rooms == old(db.rooms)
  {
    db.DeleteTimeSlots(spaceId, queryDate);
    ghost var kept := db.timeSlots;
    var infos := availability.available + availability.unavailable;
    for i := 0 to |infos|
      invariant db.timeSlots == kept + RowsOf(spaceId, gid, infos[..i], queryDate)
      invariant db.rooms == old(db.rooms)
    {
      assert infos[..i + 1][..i] == infos[..i];
      var slot := infos[i];
      db.InsertTimeSlot(TimeSlotRow(spaceId, gid, slot.start, slot.end, slot.status, slot.itemId, slot.checksum, queryDate));
    }
    assert infos[..|infos|] == infos;
  }

  /** Every row built for a key carries that key and the given gid, and mirrors its slot field by field. */
  lemma {:induction false} RowsOfShape(spaceId: int, gid: int, infos: seq<SlotInfo>, queryDate: string)
    ensures |RowsOf(spaceId, gid, infos, queryDate)| == |infos|
    ensures AllKeyed(RowsOf(spaceId, gid, infos, queryDate), spaceId, queryDate)
    ensures forall i :: 0 <= i < |infos| ==>
      var row := RowsOf(spaceId, gid, infos, queryDate)[i];
      row.gid == gid && row.startTime == infos[i].start && row.endTime == infos[i].end &&
      row.status == infos[i].status && row.itemId == infos[i].itemId && row.checksum == infos[i].checksum
  {
    if infos != [] {
      RowsOfShape(spaceId, gid, infos[..|infos| - 1], queryDate);
    }
  }

  /** Rows in insertion order: building rows of a concatenation concatenates the rows. */
  lemma {:induction false} RowsOfAppend(spaceId: int, gid: int, a: seq<SlotInfo>, b: seq<SlotInfo>, queryDate: string)
    ensures RowsOf(spaceId, gid, a + b, queryDate) == RowsOf(spaceId, gid, a, queryDate) + RowsOf(spaceId, gid, b, queryDate)
  {
    if b == [] {
      assert a + b == a;
    } else {
      assert (a + b)[..|a + b| - 1] == a + b[..|b| - 1];
      RowsOfAppend(spaceId, gid, a, b[..|b| - 1], queryDate);
    }
  }

  /** Deleting a key leaves no row with that key and keeps the rows of every other key, in order. */
  lemma {:induction false} DeletedRows(rows: seq<TimeSlotRow>, spaceId: int, queryDate: string, s: int, q: string)
    ensures WithKey(Deleted(rows, spaceId, queryDate), s, q)
         == if (s, q) == (spaceId, queryDate) then [] else WithKey(rows, s, q)
  {
    if rows != [] {
      var init := rows[..|rows| - 1];
      var last := rows[|rows| - 1];
      DeletedRows(init, spaceId, queryDate, s, q);
      WithKeyAppend(Deleted(init, spaceId, queryDate), if HasKey(last, spaceId, queryDate) then [] else [last], s, q);
    }
  }

  /** Selecting a key distributes over concatenation. */
  lemma {:induction false} WithKeyAppend(a: seq<TimeSlotRow>, b: seq<TimeSlotRow>, s: int, q: string)
    ensures WithKey(a + b, s, q) == WithKey(a, s, q) + WithKey(b, s, q)
  {
    if b == [] {
      assert a + b == a;
    } else {
      assert (a + b)[..|a + b| - 1] == a + b[..|b| - 1];
      WithKeyAppend(a, b[..|b| - 1], s, q);
    }
  }

  /** Selecting from rows that all carry one key gives them all back for that key and none for another. */
  lemma {:induction false} WithKeyAllKeyed(rows: seq<TimeSlotRow>, spaceId: int, queryDate: string, s: int, q: string)
    requires AllKeyed(rows, spaceId, queryDate)
    ensures WithKey(rows, s, q) == if (s, q) == (spaceId, queryDate) then rows else []
  {
    if rows != [] {
      var init := rows[..|rows| - 1];
      assert rows == init + [rows[|rows| - 1]];
      assert rows[|rows| - 1] in rows;
      WithKeyAllKeyed(init, spaceId, queryDate, s, q);
    }
  }

  /**
   * After a replace, the rows of the key are exactly the new rows, in order, and the rows of
   * every other key are what they were.
   */
  lemma ReplacedRows(rows: seq<TimeSlotRow>, spaceId: int, queryDate: string, inserted: seq<TimeSlotRow>)
    requires AllKeyed(inserted, spaceId, queryDate)
    ensures WithKey(Replaced(rows, spaceId, queryDate, inserted), spaceId, queryDate) == inserted
    ensures forall s, q :: (s, q) != (spaceId, queryDate) ==>
      WithKey(Replaced(rows, spaceId, queryDate, inserted), s, q) == WithKey(rows, s, q)
  {
    forall s, q
      ensures WithKey(Replaced(rows, spaceId, queryDate, inserted), s, q)
           == if (s, q) == (spaceId, queryDate) then inserted else WithKey(rows, s, q)
    {
      DeletedRows(rows, spaceId, queryDate, s, q);
      WithKeyAppend(Deleted(rows, spaceId, queryDate), inserted, s, q);
      WithKeyAllKeyed(inserted, spaceId, queryDate, s, q);
    }
  }

  /** Deleting a key twice is deleting it once. */
  lemma {:induction false} DeletedTwice(rows: seq<TimeSlotRow>, spaceId: int, queryDate: string)
    ensures Deleted(Deleted(rows, spaceId, queryDate), spaceId, queryDate) == Deleted(rows, spaceId, queryDate)
  {
    if rows != [] {
      var init := rows[..|rows| - 1];
      var last := rows[|rows| - 1];
      DeletedTwice(init, spaceId, queryDate);
      DeletedAppend(Deleted(init, spaceId, queryDate), if HasKey(last, spaceId, queryDate) then [] else [last], spaceId, queryDate);
      assert [last][..0] == [];
    }
  }

  /** Repeating a replace with the same rows leaves the table as the first replace left it. */
  lemma ReplacedIdempotent(rows: seq<TimeSlotRow>, spaceId: int, queryDate: string, inserted: seq<TimeSlotRow>)
    requires AllKeyed(inserted, spaceId, queryDate)
    ensures Replaced(Replaced(rows, spaceId, queryDate, inserted), spaceId, queryDate, inserted)
         == Replaced(rows, spaceId, queryDate, inserted)
  {
    var d := Deleted(rows, spaceId, queryDate);
    DeletedAppend(d, inserted, spaceId, queryDate);
    DeletedTwice(rows, spaceId, queryDate);
    DeletedAllKeyed(inserted, spaceId, queryDate);
    assert Deleted(d + inserted, spaceId, queryDate) == d + [];
    assert d + [] == d;
  }

  lemma {:induction false} DeletedAppend(a: seq<TimeSlotRow>, b: seq<TimeSlotRow>, spaceId: int, queryDate: string)
    ensures Deleted(a + b, spaceId, queryDate) == Deleted(a, spaceId, queryDate) + Deleted(b, spaceId, queryDate)
  {
    if b == [] {
      assert a + b == a;
    } else {
      assert (a + b)[..|a + b| - 1] == a + b[..|b| - 1];
      DeletedAppend(a, b[..|b| - 1], spaceId, queryDate);
    }
  }

  lemma {:induction false} DeletedAllKeyed(rows: seq<TimeSlotRow>, spaceId: int, queryDate: string)
    requires AllKeyed(rows, spaceId, queryDate)
    ensures Deleted(rows, spaceId, queryDate) == []
  {
    if rows != [] {
      DeletedAllKeyed(rows[..|rows| - 1], spaceId, queryDate);
    }
  }

  /**
   * What `save_availability_to_sqlite` leaves behind: the key's rows are the available slots
   * followed by the unavailable ones, tagged with the key and `gid`; every other key's rows are
   * unchanged; saving the same availability again changes nothing.
   */
  lemma SavedRows(rows: seq<TimeSlotRow>, spaceId: int, gid: int, a: Availability, queryDate: string)
    ensures var after := Replaced(rows, spaceId, queryDate, RowsOf(spaceId, gid, Ordered(a), queryDate));
      && WithKey(after, spaceId, queryDate)
         == RowsOf(spaceId, gid, a.available, queryDate) + RowsOf(spaceId, gid, a.unavailable, queryDate)
      && (forall s, q :: (s, q) != (spaceId, queryDate) ==> WithKey(after, s, q) == WithKey(rows, s, q))
      && Replaced(after, spaceId, queryDate, RowsOf(spaceId, gid, Ordered(a), queryDate)) == after
  {
    var inserted := RowsOf(spaceId, gid, Ordered(a), queryDate);
    RowsOfShape(spaceId, gid, Ordered(a), queryDate);
    RowsOfAppend(spaceId, gid, a.available, a.unavailable, queryDate);
    ReplacedRows(rows, spaceId, queryDate, inserted);
    ReplacedIdempotent(rows, spaceId, queryDate, inserted);
  }
}
