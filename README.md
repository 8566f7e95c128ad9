# Better-Robarts Timetable: LibCal ingestion core in Dafny

This project models the ingestion core of `script.py`, which collects room availability for the Robarts Library study rooms from the University of Toronto's LibCal booking system. It covers these parts of that pipeline:

- **Slot classifier** (`process_slots_to_availability` and its inlined copies). A slot whose `className` is `s-lc-eq-checkout` is booked; every other slot is available. The slots are split into the two lists, and each keeps the input order.
- **Response demultiplexer** (the `slots_by_item.setdefault(...)` loops). It groups one grid response by `itemId`, with keys in first-appearance order, as a Python dict keeps them. The importer's variant drops items outside a non-empty filter.
- **Persistence writer** (`save_availability_to_sqlite` and the room upserts). The model keeps the `rooms` and `time_slots` tables as a `Database` class. The class has a room map and a row sequence, and its primitive SQL operations are methods. A save deletes the rows of one `(space_id, query_date)` key, then inserts the available rows followed by the unavailable ones.
- **Batch orchestrator** (`check_all_rooms_availability_sqlite`). It wipes `time_slots` and walks the room list. A room processed earlier is skipped. For each other room it fetches one grid, saves the target room only when the response holds slots for it, and saves every other unprocessed room of the response as a "bonus" room. It counts successes, errors and bonus rooms, and pauses after every usable response. The method is proved equal to a pure fold, `CheckAll`, over a `RunState`, and the run's properties are proved about that fold.
- **JSON importer** (`check_all_rooms_availability_sqlite_from_json`), from the decoded file onwards. It keeps one quirk of the source: each inserted row is dated by its own start time, but the delete key takes its date from the last slot of the group only.
- **Latest CSV** (`get_latest_csv_file`). Among the names of a directory listing that start with `uoft_study_rooms` and end with `.csv`, it returns the greatest in Python string order.
- **Fetch payload and response classification** (`fetch_room_availability_api_raw` and `fetch_room_availability_api`, without the HTTP call).

The network is an oracle, `Fetcher = FormFields -> Option<Response>`, consulted with the exact form the source posts. `None` stands for a failed request or an undecodable body. The clock, the directory listing and the CSV metadata file are inputs: `startDate`, `today`, `names`, and the map `meta` from space id to room record.

Files:
- `wrappers.dfy` defines `Option`;
- `slots.dfy`, the classifier;
- `demux.dfy`, grouping;
- `store.dfy`, the database and the save;
- `api_client.dfy`, the payload and the fetch classification;
- `orchestrator.dfy`, the batch run;
- `json_import.dfy`, the importer;
- `csv_files.dfy`, the latest CSV.

The model follows the code where it differs from what the project's documentation states it does:
- The batch run wipes the whole `time_slots` table at its start (script.py:595), not only the rows of the dates it queries.
- `fetch_room_availability_api` reads `slot['checksum']` without a default (script.py:233). One slot without a checksum therefore makes the whole call fail (`None`), even though the other copies of the classifier default it to `""`.
- A response without a `slots` key gives empty lists from `fetch_room_availability_api` (script.py:227, 247-251), not a failure. The batch run counts the same response as an error (script.py:637, 691-693).
- The batch run stores every row under the run's start date (script.py:602), whatever day the slot falls on.
- Re-running the batch is not idempotent in general, against the documented claim that a second run gives the same tallies. Each run reads its room list from the `rooms` table (script.py:605, 394). A first run may add the record of a bonus room to that table (script.py:664-675). That room is then visited as a target in the second run, so success and bonus counts move between the two. `Orchestrator.RerunFromGrownTableDiffers` shows such a case, and `Orchestrator.RerunFromUnchangedTable` proves idempotence when the first run adds no record.

## Model

| member | source | states |
|---|---|---|
| Slots.StatusOf | script.py:166-174 | a slot is Unavailable exactly when its className is present and equals `s-lc-eq-checkout`, and Available exactly otherwise |
| Slots.ToSlotInfo | script.py:157-163 | the normalised record keeps start, end and itemId; a missing checksum becomes `""`, a present one is kept; the status follows the checkout class |
| Slots.ProcessSlotsToAvailability | script.py:152-178 | the loop returns exactly the classification `Classify`: available and unavailable slots in input order, and `total_slots` equals the number of input slots |
| Slots.InfosWithStatus | script.py:167-174 | every record in the available list has status Available and every record in the unavailable list has status Unavailable |
| Slots.ClassifyPartition | script.py:156-178 | available ++ unavailable is a permutation of the normalised input: no slot is lost or duplicated |
| Slots.ClassifyCounts | script.py:174-178 | the two list lengths add up to the input length, and `total_slots` equals it |
| Slots.AllInfosLength | script.py:156-163 | normalisation maps each slot to one record |
| Slots.InfosWithAppend | script.py:156-174 | classification distributes over concatenation of slot lists (it is a per-slot filter, so order is kept) |
| Slots.SingleSlot | script.py:166-174 | a single booked slot lands only in the unavailable list, and any other single slot lands only in the available list |
| Demux.GroupByItem | script.py:639-642 | the keys (also for the filtered copy at script.py:25-30) are the distinct kept item ids in first-appearance order; a key has a group iff it is a key; each group is the kept slots of that id in input order |
| Demux.ItemOrderMembership | script.py:639-642 | an id is a key exactly when the response holds at least one slot of it |
| Demux.SlotsForOwnId | script.py:641-642 | every slot in the group of an id carries that id |
| Demux.EverySlotGrouped | script.py:639-642 | every input slot's id is a key, and the slot is in that id's group |
| Demux.ItemOrderDistinct | script.py:642 | no item id appears twice among the keys |
| Demux.GroupsPartition | script.py:639-642 | concatenating the groups in key order gives a permutation of the input of the same length |
| Demux.ConcatFreshKey | script.py:642 | a slot with a new id opens a new group at the end of the key order |
| Demux.KeptFilter | script.py:27-29 | an empty filter keeps every slot; a kept slot comes from the input and its id is in a non-empty filter; every input slot whose id is in the filter is kept |
| Demux.GroupExample | script.py:639-642 | the slots of ids 10, 10, 20 give keys [10, 20], with groups [a, b] and [c] |
| Store.Database.constructor | script.py:263-310 | a database holds the given room map and time-slot rows |
| Store.Database.InsertOrReplaceRoom | script.py:665-674 | `INSERT OR REPLACE INTO rooms` sets the record of the space id and leaves the rows alone (the importer's upsert at script.py:39-48 is the same) |
| Store.Database.DeleteTimeSlots | script.py:357-361 | deletes exactly the rows of one (space_id, query_date) key and keeps the other rows in order |
| Store.Database.DeleteAllTimeSlots | script.py:595 | `DELETE FROM time_slots` empties the table and keeps the rooms |
| Store.Database.InsertTimeSlot | script.py:364-378 | appends one row and keeps the rooms |
| Store.SaveAvailability | script.py:351-386 | the new rows are the old rows minus the key's rows, followed by one row per available slot and then one per unavailable slot, all under the key; rooms are unchanged |
| Store.RowsOfShape | script.py:364-378 | one row per slot, each carrying the key, the gid and the slot's start, end, status, item id and checksum |
| Store.RowsOfAppend | script.py:364 | the rows of available ++ unavailable are the available rows followed by the unavailable rows |
| Store.DeletedRows | script.py:357-361 | after the delete, the key has no rows and every other key has exactly its old rows |
| Store.WithKeyAppend | script.py:357-378 | selecting a key's rows distributes over appending rows |
| Store.WithKeyAllKeyed | script.py:364-378 | rows that all carry one key are all selected for that key, and none for any other key |
| Store.ReplacedRows | script.py:357-378 | after a replace, the key's rows are exactly the inserted rows and every other key keeps its rows |
| Store.DeletedTwice | script.py:357-361 | deleting a key twice is the same as deleting it once |
| Store.ReplacedIdempotent | script.py:357-378 | replacing a key with the same rows twice is the same as once |
| Store.DeletedAppend | script.py:357-361 | the delete distributes over appended row lists |
| Store.DeletedAllKeyed | script.py:357-361 | deleting the key of rows that all carry it removes them all |
| Store.SavedRows | script.py:351-386 | a save leaves the key holding exactly the classified rows, available rows first; other keys are unchanged; saving the same data again changes nothing |
| ApiClient.NatToString | script.py:114-115 | the decimal text of a number is non-empty and carries no sign |
| ApiClient.NatRoundTrip | script.py:114-115 | parsing the decimal text of a natural number gives it back |
| ApiClient.IntRoundTrip | script.py:114-115 | `str(n)` of any integer, including negatives, parses back to `n` |
| ApiClient.PayloadFields | script.py:112-123 | the form has the ten fields in the source's order: `lid` is `3446`, `seat`, `seatId`, `zone` and `pageIndex` are `0`, `pageSize` is `18`, `start` and `end` are the dates, and `eid` and `gid` parse back to the space id and the group id |
| ApiClient.LookupAt | script.py:112-123 | looking up a form field whose name is not repeated earlier gives its value |
| ApiClient.FetchRoomAvailability | script.py:180-261 | no response gives None; a response without slots gives empty lists and total 0; otherwise the result is None iff some slot lacks a checksum, and is the classification of the slots when defined |
| Orchestrator.CheckAllRoomsAvailability | script.py:582-704 | the new rooms, the new rows and the reported processed set, counters and pauses are exactly those of the fold `CheckAll` from an empty `time_slots` |
| Orchestrator.VisitOneRoom | script.py:626-698 | one iteration of the room loop leaves the database and the counters as `VisitRoom` says |
| Orchestrator.SaveTargetRoom | script.py:644-651 | the target room is saved, added to the processed set and counted as a success exactly as `SaveTarget` says, and only when the response has slots for it |
| Orchestrator.SaveBonusRooms | script.py:656-684 | the bonus loop's database, processed set and bonus counter follow `SaveBonuses` over the response's keys in order |
| Orchestrator.BonusIdsFresh | script.py:658 | the bonus rooms of one response are distinct, none was processed before, none is the target, and each is a key of the response |
| Orchestrator.SaveBonusesBookkeeping | script.py:656-684 | the bonus loop adds exactly its bonus rooms to the processed set and their count to the bonus counter; success, errors and pauses are unchanged; room records are only added, from metadata |
| Orchestrator.VisitRoomOutcomes | script.py:626-698 | a processed room changes nothing; a failed fetch adds exactly one error, with no pause and nothing else; a usable response adds one pause, no error, and one success iff the target is in the response |
| Orchestrator.VisitRoomSaves | script.py:644-684 | one room visit saves a duplicate-free list of rooms, all new, adds them to the processed set, and raises success + bonus by their number |
| Orchestrator.NoRoomSavedTwice | script.py:621-698 | across the whole room loop no space id is saved twice, and the processed set grows by exactly the saved rooms |
| Orchestrator.RunKeepsCounted | script.py:621-698 | the room loop keeps the invariant that the processed set's size is success + bonus |
| Orchestrator.RunCounts | script.py:621-704 | at the end of a run, `len(processed_rooms) == success_count + bonus_rooms_count` |
| Orchestrator.SaveRowsEffect | script.py:646-680 | saving a group sets its key to the classified rows of the group and leaves every other key unchanged |
| Orchestrator.SaveBonusesRows | script.py:656-684 | after the bonus loop, each bonus room's rows under the query date are its classified group with the metadata gid (or 0); every other key is unchanged |
| Orchestrator.VisitRoomRows | script.py:644-684 | after one visit, every saved room's rows under the start date are its classified group (the target with its own gid); other keys are unchanged |
| Orchestrator.RunRowsUntouched | script.py:621-698 | the room loop changes only keys (saved room, start date) |
| Orchestrator.SavedRowsSurvive | script.py:627-629 | a room already processed keeps its rows for every date through the rest of the loop |
| Orchestrator.RunRowsDated | script.py:595-698 | after a run, every row is dated by the start date and belongs to a processed room |
| Orchestrator.RunRoomsGrow | script.py:660-675 | the run never removes or changes a room record; a room added by it comes from the metadata |
| Orchestrator.RunIgnoresRooms | script.py:621-698 | the rows, processed set and counters of a run do not depend on the room table it starts from |
| Orchestrator.RunCovers | script.py:660-675 | after a run, every saved room that was not a target is in the room table if the metadata knows it |
| Orchestrator.RunKeepsCoveredRooms | script.py:660-675 | a run whose saved rooms are already present or unknown to the metadata leaves the room table as it is |
| Orchestrator.RerunIsIdempotent | script.py:582-704 | running the batch again over the same room list, on the first run's room table and with the same responses, gives the same database and the same counters |
| Orchestrator.ListedFromUnique | script.py:388-400 | the room list `SELECT ... FROM rooms ORDER BY space_id` is determined by the room table: two lists of one table are equal |
| Orchestrator.RerunFromUnchangedTable | script.py:582-704 | when the first run adds no room record, the room list a second run reads back is the first run's, and the second run gives the same database and counters |
| Orchestrator.RerunFromGrownTableDiffers | script.py:605-675 | a first run over room 2 that saves room 1 as a bonus room adds room 1's record; the second run then lists rooms 1 and 2, and its success and bonus counts are (1, 0) instead of (0, 1) |
| JsonImport.DatePrefix | script.py:67-82 | `s[:10]` has at most ten characters, is a prefix of `s`, and has exactly ten when `s` is long enough |
| JsonImport.ImportFromJson | script.py:1-88 | the new tables are those of `Import`; `imported` is the number of groups; a missing file or a file without `slots` changes nothing |
| JsonImport.ImportAllGroups | script.py:34-86 | the group loop leaves the tables as `ImportGroups` over the keys in dict order |
| JsonImport.ImportOneGroup | script.py:34-86 | one group adds the room record when it was absent at the start and known to the metadata, deletes the key (room, last slot's date), then appends its rows each dated by its own start |
| JsonImport.InsertDatedRows | script.py:70-83 | the inserted rows are the group's rows in order, each with `query_date` its own start's date prefix |
| JsonImport.ImportSingleDayReplaces | script.py:66-83 | for a group on a single day, that day's rows of the room become the group's classified rows, other keys are unchanged, and re-importing the group changes nothing |
| JsonImport.ReimportDuplicatesEarlierDay | script.py:67-82 | for a group whose two slots fall on different days, importing the file twice leaves the earlier day's row twice |
| JsonImport.ReimportDuplicatesExample | script.py:67-82 | the same for the concrete slots of 2025-01-01 and 2025-01-02 of room 7 |
| JsonImport.ImportGroupsTouchesOnlyKeys | script.py:34-86 | the group loop changes neither the rows nor the room record of a room that is not one of its keys |
| JsonImport.KeptIds | script.py:27-29 | every key of a filtered import is in a non-empty filter |
| JsonImport.ImportRespectsFilter | script.py:27-29 | with a non-empty filter, rooms outside it keep their rows for every date and their room record |
| JsonImport.ImportRoomsFromMeta | script.py:19-48 | existing room records are kept; a new record belongs to a key of the import, comes from the metadata, and is added only for a room absent when the import began |
| CsvFiles.LexLeTotal | script.py:711 | Python string order is total |
| CsvFiles.LexLeAntisymmetric | script.py:711 | two strings each at most the other are equal |
| CsvFiles.LexLeTransitive | script.py:711 | Python string order is transitive |
| CsvFiles.RoomCsvFiles | script.py:708 | a name is kept exactly when it is in the listing and starts with `uoft_study_rooms` and ends with `.csv` |
| CsvFiles.Greatest | script.py:711-712 | the last element after sorting is a member that every member is at most |
| CsvFiles.LatestCsvFile | script.py:706-713 | None exactly when no name matches; otherwise a matching listed name that no matching name exceeds |
| CsvFiles.LatestIsUnique | script.py:706-713 | a matching name that bounds all matching names is the answer, whatever the listing order |
| CsvFiles.LexLeCommonPrefix | script.py:711 | names that agree up to position k compare by their character at k, so a later timestamp in the name wins |

## Left out

- HTTP (`requests.post`, headers, status codes, JSON decoding and every exception there) is the `Fetcher` oracle; a failure of any kind is `None`.
- `time.sleep(0.5)` is modelled only as the `pauses` counter.
- `datetime.now()` defaults for the dates are inputs: `startDate`, `endDate`, `today`.
- `print` output and the log messages are left out.
- Reading JSON files and CSV files (`csv.DictReader`, `int(row[...])`) is left out: the decoded slot list and the metadata map `meta` are inputs, and JSON `null` values, wrong types and non-numeric CSV fields are not modelled. In the source, a null `checksum` is stored as NULL, a null `className` makes the slot available, a null `itemId` becomes a group key, and a null `start` raises in the importer at the `[:10]` slices (script.py:67, 82).
- `os.listdir` and `os.path.exists` are left out: the listing `names` is an input, and a missing JSON file is `None`.
- SQLite plumbing is left out: connections, commits, transactions, the DDL of `init_sqlite_database`, and SQL errors. The autoincrement `id` and the `created_at` columns of `time_slots` are not modelled.
- The room list of the batch run (`get_available_rooms_from_sqlite`) is the input `targets`; `Orchestrator.ListedFrom` states what it is for a given table, and the early return on an empty list is its caller's concern.
- Orchestrator.RerunIsIdempotent: it keeps the first run's room list for the second run, whereas the source re-reads the list from the grown `rooms` table; `Orchestrator.RerunFromUnchangedTable` covers the case where the two lists agree, and `Orchestrator.RerunFromGrownTableDiffers` shows that the tallies can differ otherwise.
- The `except Exception` path of the batch run is left out: the model has no exceptions apart from the fetch failing.
- The reporting queries (`check_database_stats`, `query_room_availability`), `save_availability_to_csv`, `save_rooms_to_sqlite`'s CSV loop, `get_available_rooms_from_csv`, `main` and the web app are outside the ingestion core.
- A series of calls to `fetch_room_availability_api` is not modelled; the model covers one call, with the response as the input.
- `ApiClient.FetchRoomAvailability`: a JSON body that is not a dictionary, and slot fields other than `checksum` being absent, are not modelled.
