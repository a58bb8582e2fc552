/** The `room_conference` table and the statements `RoomRepository` runs on it
    (internal/repository/room_repository.go). Timestamps are `YYYY-MM-DD HH:MM:SS` strings;
    the caller supplies the current one. */
module RoomRepo {
  import opened Wrappers
  import opened Text
  import opened Tables
  import opened Sql

  /** A `room_conference` row; `None` is SQL NULL. */
  datatype RoomConference = RoomConference(
    id: nat,
    nodeLivekitId: Option<int>,
    status: Option<string>,
    roomType: Option<string>,
    room: Option<string>,
    service: Option<int>,
    recordStatus: Option<int>,
    recordId: Option<string>,
    autoRecord: Option<int>,
    recordType: Option<string>,
    encodingOptionsPreset: Option<string>,
    chatEnabled: Option<int>,
    messageUnread: Option<int>,
    agentSeen: Option<string>,
    userAgent: Option<string>,
    webSocketUrl: Option<string>,
    dtmCreated: Option<string>,
    dtmUpdated: Option<string>,
    dtmClosed: Option<string>,
    dtmExpired: Option<string>,
    dtmRoomStarted: Option<string>,
    dtmRoomFinished: Option<string>,
    dtmStartRecord: Option<string>,
    dtmStopRecord: Option<string>,
    syncAt: Option<string>)

  datatype CreateRoomParams = CreateRoomParams(
    room: string,
    service: int,
    status: string,
    roomType: string,
    autoRecord: int,
    recordType: string,
    encodingOptionsPreset: string,
    chatEnabled: int,
    webSocketUrl: string,
    userAgent: string,
    dtmCreated: string,
    dtmUpdated: string,
    dtmExpired: string)

  datatype UpdateRoomTypeParams = UpdateRoomTypeParams(
    room: string,
    roomType: string,
    autoRecord: int,
    chatEnabled: int,
    webSocketUrl: string,
    userAgent: string,
    dtmUpdated: string)

  /** The row `Create` inserts under the id the table assigns: the given columns, an empty
      `recordId`, and NULL in every column the statement does not name. */
  function Inserted(id: nat, p: CreateRoomParams): (r: RoomConference)
    ensures r.id == id && r.room == Some(p.room) && r.status == Some(p.status)
    ensures r.recordId == Some("")
    ensures r.dtmExpired == Some(p.dtmExpired) && r.dtmCreated == Some(p.dtmCreated)
  {
    RoomConference(id, None, Some(p.status), Some(p.roomType), Some(p.room), Some(p.service), None,
      Some(""), Some(p.autoRecord), Some(p.recordType), Some(p.encodingOptionsPreset),
      Some(p.chatEnabled), None, None, Some(p.userAgent), Some(p.webSocketUrl),
      Some(p.dtmCreated), Some(p.dtmUpdated), None, Some(p.dtmExpired), None, None, None, None, None)
  }

  /** `WHERE room = ?` */
  function InRoom(room: string): RoomConference -> bool {
    (r: RoomConference) => r.room == Some(room)
  }

  /** `WHERE id = ?` */
  function HasId(id: nat): RoomConference -> bool {
    (r: RoomConference) => r.id == id
  }

  /** The rows `CloseRoom` changes: that room's rows not already closed. MySQL reports only
      changed rows as affected. */
  function Closable(room: string): RoomConference -> bool {
    (r: RoomConference) => r.room == Some(room) && r.status != Some("close")
  }

  function IsOpen(r: RoomConference): bool {
    r.status == Some("open")
  }

  /** `dtmExpired < ? AND room = ?`; a NULL expiry never compares true. */
  function ExpiredInRoom(room: string, now: string): RoomConference -> bool {
    (r: RoomConference) => r.room == Some(room) && r.dtmExpired.Some? && LexLess(r.dtmExpired.value, now)
  }

  // The table after each UPDATE / DELETE.

  /** `SET status = ?, messageUnread = 0 WHERE room = ?` */
  function WithStatus(t: seq<RoomConference>, room: string, status: string): (r: seq<RoomConference>)
    ensures |r| == |t|
    ensures forall i :: 0 <= i < |t| && t[i].room == Some(room) ==>
      r[i] == t[i].(status := Some(status), messageUnread := Some(0))
    ensures forall i :: 0 <= i < |t| && t[i].room != Some(room) ==> r[i] == t[i]
  {
    UpdateWhere(t, InRoom(room), (x: RoomConference) => x.(status := Some(status), messageUnread := Some(0)))
  }

  /** `SET status = 'close' WHERE room = ?` */
  function Closed(t: seq<RoomConference>, room: string): (r: seq<RoomConference>)
    ensures |r| == |t|
    ensures forall i :: 0 <= i < |t| && t[i].room == Some(room) ==> r[i] == t[i].(status := Some("close"))
    ensures forall i :: 0 <= i < |t| && t[i].room != Some(room) ==> r[i] == t[i]
  {
    UpdateWhere(t, InRoom(room), (x: RoomConference) => x.(status := Some("close")))
  }

  /** `SET status = 'close' WHERE status = 'open'` */
  function AllClosed(t: seq<RoomConference>): (r: seq<RoomConference>)
    ensures |r| == |t|
    ensures forall i :: 0 <= i < |t| && IsOpen(t[i]) ==> r[i] == t[i].(status := Some("close"))
    ensures forall i :: 0 <= i < |t| && !IsOpen(t[i]) ==> r[i] == t[i]
  {
    UpdateWhere(t, IsOpen, (x: RoomConference) => x.(status := Some("close")))
  }

  function WithRoomType(t: seq<RoomConference>, p: UpdateRoomTypeParams): (r: seq<RoomConference>)
    ensures |r| == |t|
    ensures forall i :: 0 <= i < |t| && t[i].room == Some(p.room) ==>
      r[i] == t[i].(roomType := Some(p.roomType), autoRecord := Some(p.autoRecord),
        chatEnabled := Some(p.chatEnabled), webSocketUrl := Some(p.webSocketUrl),
        userAgent := Some(p.userAgent), dtmUpdated := Some(p.dtmUpdated))
    ensures forall i :: 0 <= i < |t| && t[i].room != Some(p.room) ==> r[i] == t[i]
  {
    UpdateWhere(t, InRoom(p.room), (x: RoomConference) => x.(roomType := Some(p.roomType), autoRecord := Some(p.autoRecord),
      chatEnabled := Some(p.chatEnabled), webSocketUrl := Some(p.webSocketUrl),
      userAgent := Some(p.userAgent), dtmUpdated := Some(p.dtmUpdated)))
  }

  /** `DELETE ... WHERE room = ?` */
  function Deleted(t: seq<RoomConference>, room: string): (r: seq<RoomConference>)
  {
    Filter(t, (x: RoomConference) => x.room != Some(room))
  }

  /** `UpdateRecordStatus`: for the room name `"all"`, every row gets `recordStatus = 0` and
      `recordId = ''` whatever the status argument; otherwise only that room's `recordStatus`
      changes. */
  function WithRecordStatus(t: seq<RoomConference>, room: string, status: int): (r: seq<RoomConference>)
    ensures |r| == |t|
    ensures room == "all" ==> forall i :: 0 <= i < |t| ==>
      r[i] == t[i].(recordStatus := Some(0), recordId := Some(""))
    ensures room != "all" ==> forall i :: 0 <= i < |t| ==>
      r[i] == (if t[i].room == Some(room) then t[i].(recordStatus := Some(status)) else t[i])
  {
    if room == "all" then UpdateWhere(t, (x: RoomConference) => true, (x: RoomConference) => x.(recordStatus := Some(0), recordId := Some("")))
    else UpdateWhere(t, InRoom(room), (x: RoomConference) => x.(recordStatus := Some(status)))
  }

  function WithRecordId(t: seq<RoomConference>, room: string, recordId: string): (r: seq<RoomConference>)
    ensures |r| == |t|
    ensures forall i :: 0 <= i < |t| ==>
      r[i] == (if t[i].room == Some(room) then t[i].(recordId := Some(recordId)) else t[i])
  {
    UpdateWhere(t, InRoom(room), (x: RoomConference) => x.(recordId := Some(recordId)))
  }

  /** `UpdateRoomStartedFinished`: `started` wins over `finished`; neither changes nothing. */
  function WithStartedFinished(t: seq<RoomConference>, room: string, started: bool, finished: bool, now: string)
    : (r: seq<RoomConference>)
    ensures |r| == |t|
    ensures !started && !finished ==> r == t
    ensures forall i :: 0 <= i < |t| && t[i].room == Some(room) ==>
      r[i] == (if started then t[i].(dtmRoomStarted := Some(now))
               else if finished then t[i].(dtmRoomFinished := Some(now))
               else t[i])
    ensures forall i :: 0 <= i < |t| && t[i].room != Some(room) ==> r[i] == t[i]
  {
    if started then UpdateWhere(t, InRoom(room), (x: RoomConference) => x.(dtmRoomStarted := Some(now)))
    else if finished then UpdateWhere(t, InRoom(room), (x: RoomConference) => x.(dtmRoomFinished := Some(now)))
    else t
  }

  /** `UpdateStartStopRecord`: `dtmStartRecord` when starting, `dtmStopRecord` otherwise. */
  function WithStartStopRecord(t: seq<RoomConference>, room: string, isStart: bool, now: string)
    : (r: seq<RoomConference>)
    ensures |r| == |t|
    ensures forall i :: 0 <= i < |t| ==>
      r[i] == (if t[i].room != Some(room) then t[i]
               else if isStart then t[i].(dtmStartRecord := Some(now))
               else t[i].(dtmStopRecord := Some(now)))
  {
    if isStart then UpdateWhere(t, InRoom(room), (x: RoomConference) => x.(dtmStartRecord := Some(now)))
    else UpdateWhere(t, InRoom(room), (x: RoomConference) => x.(dtmStopRecord := Some(now)))
  }

  /** `GetByRoom` selects fifteen columns; the other ten are left as Go zero values. */
  function RoomView(r: RoomConference): RoomConference {
    r.(nodeLivekitId := None, service := None, recordStatus := None, agentSeen := None, dtmUpdated := None,
       dtmClosed := None, dtmExpired := None, dtmRoomStarted := None, dtmRoomFinished := None, syncAt := None)
  }

  /** `GetExpiredRooms` selects only `room` and `dtmExpired`; the other fields are Go zero values. */
  function ExpiredView(r: RoomConference): RoomConference {
    RoomConference(0, None, None, None, r.room, None, None, None, None, None, None, None, None, None,
      None, None, None, None, None, r.dtmExpired, None, None, None, None, None)
  }

  /** `status = 'open' AND dtmExpired < ?` */
  function ExpiredOpen(now: string): RoomConference -> bool {
    (r: RoomConference) => IsOpen(r) && r.dtmExpired.Some? && LexLess(r.dtmExpired.value, now)
  }

  // Properties of the statements.

  /** After `CloseAllRooms` no row is open, and the rows that were not open are untouched. */
  lemma CloseAllLeavesNoneOpen(t: seq<RoomConference>)
    ensures CountWhere(AllClosed(t), IsOpen) == 0
    ensures Filter(AllClosed(t), (x: RoomConference) => !IsOpen(x)) == AllClosed(t)
  {
    CountZeroIffNone(AllClosed(t), IsOpen);
    FilterKeepsAll(AllClosed(t), (x: RoomConference) => !IsOpen(x));
  }

  /** `CloseRoom` closes every row of the room, so a second `CloseRoom` affects no row, and the
      count it returns the first time is the number of that room's rows not yet closed. */
  lemma CloseRoomTwiceAffectsNothing(t: seq<RoomConference>, room: string)
    ensures CountWhere(Closed(t, room), Closable(room)) == 0
    ensures Closed(Closed(t, room), room) == Closed(t, room)
    ensures CountWhere(t, Closable(room)) == 0 ==>
      forall i :: 0 <= i < |t| && t[i].room == Some(room) ==> t[i].status == Some("close")
  {
    CountZeroIffNone(Closed(t, room), Closable(room));
    CountZeroIffNone(t, Closable(room));
  }

  /** After `Delete(room)` no row of the room is left, and every other row is kept. */
  lemma DeleteRemovesOnlyRoom(t: seq<RoomConference>, room: string)
    ensures forall x :: x in Deleted(t, room) <==> x in t && x.room != Some(room)
    ensures |Deleted(t, room)| == |t| - CountWhere(t, InRoom(room))
  {
    FilterIsSelection(t, (x: RoomConference) => x.room != Some(room));
    CountComplement(t, InRoom(room), (x: RoomConference) => x.room != Some(room));
  }

  /** `CheckRoomExpired(room)` is true exactly when some row of the room expired before `now`. */
  lemma CheckRoomExpiredMeaning(t: seq<RoomConference>, room: string, now: string)
    ensures CountWhere(t, ExpiredInRoom(room, now)) > 0 <==>
      exists i :: 0 <= i < |t| && t[i].room == Some(room) && t[i].dtmExpired.Some?
        && LexLess(t[i].dtmExpired.value, now)
  {
    CountZeroIffNone(t, ExpiredInRoom(room, now));
    if CountWhere(t, ExpiredInRoom(room, now)) > 0 {
      var i :| 0 <= i < |t| && ExpiredInRoom(room, now)(t[i]);
    }
  }

  /** `UpdateRecordStatus` on a single room never touches any `recordId`. */
  lemma RecordStatusKeepsRecordIds(t: seq<RoomConference>, room: string, status: int)
    requires room != "all"
    ensures forall i :: 0 <= i < |t| ==> WithRecordStatus(t, room, status)[i].recordId == t[i].recordId
    ensures forall i :: 0 <= i < |t| ==>
      WithRecordStatus(t, room, status)[i].(recordStatus := t[i].recordStatus) == t[i]
  {
  }

  /** A freshly inserted row is what a lookup by its id finds, provided no earlier row has that id. */
  lemma InsertedFoundById(t: seq<RoomConference>, id: nat, p: CreateRoomParams)
    requires forall i :: 0 <= i < |t| ==> t[i].id < id
    ensures FirstWhere(t + [Inserted(id, p)], HasId(id)) == Some(Inserted(id, p))
  {
    FirstWhereAfterAppend(t, Inserted(id, p), HasId(id));
  }

  /** The table: its rows in primary-key order and the next auto-increment id. */
  class RoomRepository {
    var rows: seq<RoomConference>
    var nextId: nat

    /** Ids are below the next id and ascend along the table, as an auto-increment key does. */
    predicate Valid()
      reads this
    {
      && (forall i :: 0 <= i < |rows| ==> rows[i].id < nextId)
      && (forall i, j :: 0 <= i < j < |rows| ==> rows[i].id < rows[j].id)
    }

    constructor (rows: seq<RoomConference>, nextId: nat)
      requires forall i :: 0 <= i < |rows| ==> rows[i].id < nextId
      requires forall i, j :: 0 <= i < j < |rows| ==> rows[i].id < rows[j].id
      ensures this.rows == rows && this.nextId == nextId && Valid()
    {
      this.rows := rows;
      this.nextId := nextId;
    }

    /** `INSERT INTO room_conference ...`; returns the new id. */
    method Create(p: CreateRoomParams, db: Outcome) returns (id: int, err: Error)
      requires Valid()
      modifies this
      ensures Valid()
      ensures err == Wrap("create room", db)
      ensures db.Success? ==>
        id == old(nextId) && rows == old(rows) + [Inserted(old(nextId), p)] && nextId == old(nextId) + 1
      ensures db.Failure? ==> id == 0 && rows == old(rows) && nextId == old(nextId)
    {
      err := Wrap("create room", db);
      if db.Success? {
        id := nextId;
        rows := rows + [Inserted(nextId, p)];
        nextId := nextId + 1;
      } else {
        id := 0;
      }
    }

    /** `SELECT <fifteen columns> ... WHERE room = ? LIMIT 1`; no row is `(nil, nil)`. */
    method GetByRoom(room: string, db: Outcome) returns (r: Option<RoomConference>, err: Error)
      ensures err == Wrap("get room", db)
      ensures db.Success? ==> r == Project(FirstWhere(rows, InRoom(room)), RoomView)
      ensures db.Success? ==> (r.Some? <==> exists x :: x in rows && x.room == Some(room))
      ensures r.Some? ==> r.value.room == Some(room) && r.value.dtmExpired.None? && r.value.service.None?
      ensures db.Failure? ==> r.None?
    {
      err := Wrap("get room", db);
      r := if db.Success? then Project(FirstWhere(rows, InRoom(room)), RoomView) else None;
      FirstWhereIsFirst(rows, InRoom(room));
    }

    /** `SELECT * ... WHERE id = ? LIMIT 1`; no row is `(nil, nil)`. */
    method GetByID(id: nat, db: Outcome) returns (r: Option<RoomConference>, err: Error)
      ensures err == Wrap("get room by ID", db)
      ensures db.Success? ==> r == FirstWhere(rows, HasId(id))
      ensures db.Failure? ==> r.None?
    {
      err := Wrap("get room by ID", db);
      r := if db.Success? then FirstWhere(rows, HasId(id)) else None;
    }

    method UpdateStatus(room: string, status: string, db: Outcome) returns (err: Error)
      requires Valid()
      modifies this`rows
      ensures Valid()
      ensures err == Wrap("update room status", db)
      ensures rows == if db.Success? then WithStatus(old(rows), room, status) else old(rows)
    {
      err := Wrap("update room status", db);
      if db.Success? {
        rows := WithStatus(rows, room, status);
      }
    }

    /** Returns the number of rows the statement changed. */
    method CloseRoom(room: string, db: Outcome) returns (affected: nat, err: Error)
      requires Valid()
      modifies this`rows
      ensures Valid()
      ensures err == Wrap("close room", db)
      ensures db.Success? ==> rows == Closed(old(rows), room) && affected == CountWhere(old(rows), Closable(room))
      ensures db.Failure? ==> rows == old(rows) && affected == 0
    {
      err := Wrap("close room", db);
      if db.Success? {
        affected := CountWhere(rows, Closable(room));
        rows := Closed(rows, room);
      } else {
        affected := 0;
      }
    }

    method CloseAllRooms(db: Outcome) returns (err: Error)
      requires Valid()
      modifies this`rows
      ensures Valid()
      ensures err == Wrap("close all rooms", db)
      ensures rows == if db.Success? then AllClosed(old(rows)) else old(rows)
    {
      err := Wrap("close all rooms", db);
      if db.Success? {
        rows := AllClosed(rows);
      }
    }

    method UpdateRoomType(p: UpdateRoomTypeParams, db: Outcome) returns (err: Error)
      requires Valid()
      modifies this`rows
      ensures Valid()
      ensures err == Wrap("update room type", db)
      ensures rows == if db.Success? then WithRoomType(old(rows), p) else old(rows)
    {
      err := Wrap("update room type", db);
      if db.Success? {
        rows := WithRoomType(rows, p);
      }
    }

    method Delete(room: string, db: Outcome) returns (err: Error)
      requires Valid()
      modifies this`rows
      ensures Valid()
      ensures err == Wrap("delete room", db)
      ensures rows == if db.Success? then Deleted(old(rows), room) else old(rows)
    {
      err := Wrap("delete room", db);
      if db.Success? {
        FilterIsSelection(rows, (x: RoomConference) => x.room != Some(room));
        assert forall x :: x in rows ==> x.id < nextId;
        FilterKeepsAscending(rows, (x: RoomConference) => x.room != Some(room), (x: RoomConference) => x.id);
        rows := Deleted(rows, room);
        assert forall i :: 0 <= i < |rows| ==> rows[i] in old(rows);
      }
    }

    /** Open rooms whose expiry is before `now`, as `(room, dtmExpired)` pairs. */
    method GetExpiredRooms(now: string, db: Outcome) returns (rooms: seq<RoomConference>, err: Error)
      ensures err == Wrap("get expired rooms", db)
      ensures db.Success? ==> |rooms| == |Filter(rows, ExpiredOpen(now))| == CountWhere(rows, ExpiredOpen(now))
      ensures db.Success? ==> forall i :: 0 <= i < |rooms| ==> rooms[i] == ExpiredView(Filter(rows, ExpiredOpen(now))[i])
      ensures db.Success? ==> rooms == ProjectAll(Filter(rows, ExpiredOpen(now)), ExpiredView)
      ensures db.Failure? ==> rooms == []
    {
      err := Wrap("get expired rooms", db);
      if db.Success? {
        var expired := Filter(rows, ExpiredOpen(now));
        FilterIsSelection(rows, ExpiredOpen(now));
        rooms := ProjectAll(expired, ExpiredView);
      } else {
        rooms := [];
      }
    }

    method CheckRoomExpired(room: string, now: string, db: Outcome) returns (expired: bool, err: Error)
      ensures err == Wrap("check room expiration", db)
      ensures expired <==> db.Success? && CountWhere(rows, ExpiredInRoom(room, now)) > 0
    {
      err := Wrap("check room expiration", db);
      expired := db.Success? && CountWhere(rows, ExpiredInRoom(room, now)) > 0;
    }

    /** The `"all"` branch returns the driver error unwrapped. */
    method UpdateRecordStatus(room: string, status: int, db: Outcome) returns (err: Error)
      requires Valid()
      modifies this`rows
      ensures Valid()
      ensures err == if room == "all" then ErrorOf(db) else Wrap("update record status", db)
      ensures rows == if db.Success? then WithRecordStatus(old(rows), room, status) else old(rows)
    {
      if room == "all" {
        err := ErrorOf(db);
      } else {
        err := Wrap("update record status", db);
      }
      if db.Success? {
        rows := WithRecordStatus(rows, room, status);
      }
    }

    method UpdateRecordID(room: string, recordId: string, db: Outcome) returns (err: Error)
      requires Valid()
      modifies this`rows
      ensures Valid()
      ensures err == Wrap("update record ID", db)
      ensures rows == if db.Success? then WithRecordId(old(rows), room, recordId) else old(rows)
    {
      err := Wrap("update record ID", db);
      if db.Success? {
        rows := WithRecordId(rows, room, recordId);
      }
    }

    /** Neither flag set: returns nil without a statement. */
    method UpdateRoomStartedFinished(room: string, started: bool, finished: bool, now: string, db: Outcome)
      returns (err: Error)
      requires Valid()
      modifies this`rows
      ensures Valid()
      ensures !started && !finished ==> err.None? && rows == old(rows)
      ensures started || finished ==> err == Wrap("update room timestamps", db)
      ensures started || finished ==> rows == if db.Success? then WithStartedFinished(old(rows), room, started, finished, now) else old(rows)
    {
      if !started && !finished {
        return None;
      }
      err := Wrap("update room timestamps", db);
      if db.Success? {
        rows := WithStartedFinished(rows, room, started, finished, now);
      }
    }

    method UpdateStartStopRecord(room: string, isStart: bool, now: string, db: Outcome) returns (err: Error)
      requires Valid()
      modifies this`rows
      ensures Valid()
      ensures err == Wrap("update record timestamps", db)
      ensures rows == if db.Success? then WithStartStopRecord(old(rows), room, isStart, now) else old(rows)
    {
      err := Wrap("update record timestamps", db);
      if db.Success? {
        rows := WithStartStopRecord(rows, room, isStart, now);
      }
    }
  }
}
