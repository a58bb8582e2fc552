/** The `record_media` table and the statements `RecordRepository` runs on it
    (internal/repository/record_repository.go). */
module RecordRepo {
  import opened Wrappers
  import opened Tables
  import opened Sql

  /** A `record_media` row; `None` is SQL NULL. */
  datatype RecordMedia = RecordMedia(
    id: nat,
    egressId: Option<string>,
    room: Option<string>,
    fileName: Option<string>,
    filePath: Option<string>,
    fileSize: Option<int>,
    duration: Option<int>,
    recordType: Option<string>,
    status: Option<string>,
    dtmCreated: Option<string>,
    dtmCompleted: Option<string>,
    hls: Option<string>,
    encode: Option<int>,
    uploader: Option<string>,
    startRecord: Option<string>,
    endRecord: Option<string>,
    dtmUpdated: Option<string>)

  datatype CreateRecordParams = CreateRecordParams(
    egressId: string,
    room: string,
    fileName: string,
    filePath: string,
    fileSize: int,
    duration: int,
    recordType: string,
    status: string,
    hls: string,
    encode: int,
    uploader: string)

  /** The row `Create` inserts: creation and start time are both `now`. */
  function Inserted(id: nat, p: CreateRecordParams, now: string): (r: RecordMedia)
    ensures r.id == id && r.egressId == Some(p.egressId) && r.status == Some(p.status)
    ensures r.filePath == Some(p.filePath) && r.room == Some(p.room)
    ensures r.dtmCreated == r.startRecord == Some(now)
  {
    RecordMedia(id, Some(p.egressId), Some(p.room), Some(p.fileName), Some(p.filePath),
      Some(p.fileSize), Some(p.duration), Some(p.recordType), Some(p.status), Some(now), None,
      Some(p.hls), Some(p.encode), Some(p.uploader), Some(now), None, None)
  }

  /** `WHERE status = 'recording'` */
  function IsRecording(r: RecordMedia): bool {
    r.status == Some("recording")
  }

  function HasEgress(egressId: string): RecordMedia -> bool {
    (r: RecordMedia) => r.egressId == Some(egressId)
  }

  function HasId(id: nat): RecordMedia -> bool {
    (r: RecordMedia) => r.id == id
  }

  /** The filter `GetFileHistory` applies: the room's rows, or every row when no room is given. */
  function HistoryFilter(room: string): RecordMedia -> bool {
    (r: RecordMedia) => room == "" || r.room == Some(room)
  }

  /** The number of recordings in progress, as both availability queries count them. */
  function ActiveCount(t: seq<RecordMedia>): (n: nat)
    ensures n <= |t|
    ensures n == 0 <==> forall i :: 0 <= i < |t| ==> !IsRecording(t[i])
  {
    CountBounded(t, IsRecording);
    CountZeroIffNone(t, IsRecording);
    CountWhere(t, IsRecording)
  }

  /** `UpdateByEgressID`: the egress's rows get the final file data and status; completion and
      end time are both `now`. */
  function Completed(t: seq<RecordMedia>, egressId: string, fileName: string, filePath: string,
                     status: string, fileSize: int, duration: int, now: string): (r: seq<RecordMedia>)
    ensures |r| == |t|
    ensures forall i :: 0 <= i < |t| && t[i].egressId != Some(egressId) ==> r[i] == t[i]
    ensures forall i :: 0 <= i < |t| && t[i].egressId == Some(egressId) ==>
      r[i] == t[i].(fileName := Some(fileName), filePath := Some(filePath), fileSize := Some(fileSize),
        duration := Some(duration), status := Some(status), dtmUpdated := Some(now),
        dtmCompleted := Some(now), endRecord := Some(now))
  {
    UpdateWhere(t, HasEgress(egressId), (x: RecordMedia) => x.(fileName := Some(fileName),
      filePath := Some(filePath), fileSize := Some(fileSize), duration := Some(duration),
      status := Some(status), dtmUpdated := Some(now), dtmCompleted := Some(now), endRecord := Some(now)))
  }

  /** The recording queue holds exactly the rows in progress, as many as the active count. */
  lemma RecordQueueIsActive(t: seq<RecordMedia>)
    ensures |Filter(t, IsRecording)| == ActiveCount(t)
    ensures forall r :: r in Filter(t, IsRecording) <==> r in t && IsRecording(r)
  {
    FilterIsSelection(t, IsRecording);
  }

  /** Inserting a row in status `recording` adds one to the active count; any other status
      leaves it. */
  lemma InsertCountsActive(t: seq<RecordMedia>, id: nat, p: CreateRecordParams, now: string)
    ensures ActiveCount(t + [Inserted(id, p, now)]) == ActiveCount(t) + (if p.status == "recording" then 1 else 0)
  {
    CountAppend(t, Inserted(id, p, now), IsRecording);
  }

  /** Completing an egress with a status other than `recording` never adds to the active count. */
  lemma {:induction false} CompletedNotMoreActive(t: seq<RecordMedia>, egressId: string, fileName: string,
      filePath: string, status: string, fileSize: int, duration: int, now: string)
    requires status != "recording"
    ensures ActiveCount(Completed(t, egressId, fileName, filePath, status, fileSize, duration, now)) <= ActiveCount(t)
    decreases |t|
  {
    var u := Completed(t, egressId, fileName, filePath, status, fileSize, duration, now);
    if t != [] {
      var t', u' := t[..|t| - 1], u[..|u| - 1];
      assert u' == Completed(t', egressId, fileName, filePath, status, fileSize, duration, now);
      CompletedNotMoreActive(t', egressId, fileName, filePath, status, fileSize, duration, now);
    }
  }

  /** `GetFileHistory`'s statement: `WHERE room = ?` and its argument are added together, only
      for a non-empty room. */
  method FileHistoryStatement(room: string) returns (st: Statement)
    ensures Bound(st)
    ensures room == "" <==> st.args == []
    ensures room != "" ==> st.args == [Str(room)]
  {
    var query: Query := [Text("SELECT * FROM record_media")];
    var args: seq<Arg> := [];
    if room != "" {
      HolesAppend(query, [Text(" WHERE room = "), Hole]);
      query := query + [Text(" WHERE room = "), Hole];
      args := args + [Str(room)];
    }
    HolesAppend(query, [Text(" ORDER BY dtmCreated DESC")]);
    query := query + [Text(" ORDER BY dtmCreated DESC")];
    st := Statement(query, args);
  }

  class RecordRepository {
    var rows: seq<RecordMedia>
    var nextId: nat

    /** Ids are below the next id and ascend along the table, as an auto-increment key does. */
    predicate Valid()
      reads this
    {
      && (forall i :: 0 <= i < |rows| ==> rows[i].id < nextId)
      && (forall i, j :: 0 <= i < j < |rows| ==> rows[i].id < rows[j].id)
    }

    constructor (rows: seq<RecordMedia>, nextId: nat)
      requires forall i :: 0 <= i < |rows| ==> rows[i].id < nextId
      requires forall i, j :: 0 <= i < j < |rows| ==> rows[i].id < rows[j].id
      ensures this.rows == rows && this.nextId == nextId && Valid()
    {
      this.rows := rows;
      this.nextId := nextId;
    }

    method Create(p: CreateRecordParams, now: string, db: Outcome) returns (id: int, err: Error)
      requires Valid()
      modifies this
      ensures Valid()
      ensures err == Wrap("create record", db)
      ensures db.Success? ==>
        id == old(nextId) && rows == old(rows) + [Inserted(old(nextId), p, now)] && nextId == old(nextId) + 1
      ensures db.Failure? ==> id == 0 && rows == old(rows) && nextId == old(nextId)
    {
      err := Wrap("create record", db);
      if db.Success? {
        id := nextId;
        rows := rows + [Inserted(nextId, p, now)];
        nextId := nextId + 1;
      } else {
        id := 0;
      }
    }

    /** No matching row is `(nil, nil)`. */
    method GetByID(id: nat, db: Outcome) returns (r: Option<RecordMedia>, err: Error)
      ensures err == Wrap("get record", db)
      ensures r == if db.Success? then FirstWhere(rows, HasId(id)) else None
    {
      err := Wrap("get record", db);
      r := if db.Success? then FirstWhere(rows, HasId(id)) else None;
    }

    /** No matching row is `(nil, nil)`. */
    method GetByEgressID(egressId: string, db: Outcome) returns (r: Option<RecordMedia>, err: Error)
      ensures err == Wrap("get record by egress ID", db)
      ensures r == if db.Success? then FirstWhere(rows, HasEgress(egressId)) else None
    {
      err := Wrap("get record by egress ID", db);
      r := if db.Success? then FirstWhere(rows, HasEgress(egressId)) else None;
    }

    method UpdateByEgressID(egressId: string, fileName: string, filePath: string, status: string,
                            fileSize: int, duration: int, now: string, db: Outcome) returns (err: Error)
      requires Valid()
      modifies this`rows
      ensures Valid()
      ensures err == Wrap("update record by egress ID", db)
      ensures rows == if db.Success? then Completed(old(rows), egressId, fileName, filePath, status, fileSize, duration, now)
                      else old(rows)
    {
      err := Wrap("update record by egress ID", db);
      if db.Success? {
        rows := Completed(rows, egressId, fileName, filePath, status, fileSize, duration, now);
      }
    }

    /** The selected rows, newest first (`ORDER BY dtmCreated DESC`). */
    method GetFileHistory(room: string, db: Outcome) returns (records: seq<RecordMedia>, err: Error)
      ensures err == Wrap("get file history", db)
      ensures db.Success? ==> records == Reversed(Filter(rows, HistoryFilter(room)))
      ensures db.Success? ==> forall r :: r in records <==> r in rows && (room == "" || r.room == Some(room))
      ensures db.Success? && room == "" ==> records == Reversed(rows)
      ensures db.Failure? ==> records == []
    {
      var st := FileHistoryStatement(room);
      err := Wrap("get file history", db);
      if db.Success? {
        records := Reversed(Filter(rows, HistoryFilter(room)));
        FilterIsSelection(rows, HistoryFilter(room));
        ReversedSameRows(Filter(rows, HistoryFilter(room)));
        if room == "" {
          FilterKeepsAll(rows, HistoryFilter(room));
        }
      } else {
        records := [];
      }
    }

    /** The recordings in progress, newest first (`ORDER BY dtmCreated DESC`). */
    method GetRecordQueue(db: Outcome) returns (records: seq<RecordMedia>, err: Error)
      ensures err == Wrap("get record queue", db)
      ensures db.Success? ==> records == Reversed(Filter(rows, IsRecording))
      ensures db.Success? ==> |records| == ActiveCount(rows)
      ensures db.Success? ==> forall r :: r in records <==> r in rows && IsRecording(r)
      ensures db.Failure? ==> records == []
    {
      err := Wrap("get record queue", db);
      if db.Success? {
        records := Reversed(Filter(rows, IsRecording));
        RecordQueueIsActive(rows);
        ReversedSameRows(Filter(rows, IsRecording));
      } else {
        records := [];
      }
    }

    /** Fewer recordings in progress than the limit. */
    method CheckEgressAvailable(limit: int, db: Outcome) returns (available: bool, err: Error)
      ensures err == Wrap("check egress availability", db)
      ensures available <==> db.Success? && ActiveCount(rows) < limit
    {
      err := Wrap("check egress availability", db);
      available := db.Success? && ActiveCount(rows) < limit;
    }

    method GetActiveRecordCount(db: Outcome) returns (count: nat, err: Error)
      ensures err == Wrap("get active record count", db)
      ensures count == if db.Success? then ActiveCount(rows) else 0
    {
      err := Wrap("get active record count", db);
      count := if db.Success? then ActiveCount(rows) else 0;
    }
  }
}
