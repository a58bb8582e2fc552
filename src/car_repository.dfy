/** The `car_track` table and the statements `CarRepository` runs on it
    (internal/repository/car_repository.go). */
module CarRepo {
  import opened Wrappers
  import opened Tables
  import opened Sql

  /** A reported position; the coordinates are carried as opaque values. */
  datatype Position = Position(
    latitude: real,
    longitude: real,
    accuracy: real,
    altitude: real,
    altitudeAccuracy: real,
    speed: int,
    heading: int)

  /** A `car_track` row; `None` is SQL NULL. */
  datatype CarTrack = CarTrack(
    id: nat,
    uid: Option<string>,
    status: Option<string>,
    mobile: Option<string>,
    userName: Option<string>,
    room: Option<string>,
    position: Option<Position>,
    dtmUpdated: Option<string>,
    dtmCreated: Option<string>,
    dtmStarted: Option<string>,
    dtmArrived: Option<string>,
    dtmCanceled: Option<string>,
    dtmCompleted: Option<string>)

  datatype CreateTaskParams = CreateTaskParams(uid: string, status: string, mobile: string, userName: string, room: string)

  /** The row `CreateTask` inserts, created and updated at `now`. */
  function Inserted(id: nat, p: CreateTaskParams, now: string): (r: CarTrack)
    ensures r.id == id && r.uid == Some(p.uid) && r.status == Some(p.status) && r.room == Some(p.room)
    ensures r.dtmCreated == r.dtmUpdated == Some(now) && r.position.None?
  {
    CarTrack(id, Some(p.uid), Some(p.status), Some(p.mobile), Some(p.userName), Some(p.room), None,
      Some(now), Some(now), None, None, None, None)
  }

  /** The timestamp column a task status stamps, besides `dtmUpdated`. */
  datatype StampColumn = StartedAt | ArrivedAt | CanceledAt | CompletedAt | NoStamp

  function StampFor(status: string): (c: StampColumn)
    ensures c == StartedAt <==> status == "started"
    ensures c == ArrivedAt <==> status == "arrived"
    ensures c == CanceledAt <==> status == "canceled"
    ensures c == CompletedAt <==> status == "completed"
  {
    match status
    case "started" => StartedAt
    case "arrived" => ArrivedAt
    case "canceled" => CanceledAt
    case "completed" => CompletedAt
    case _ => NoStamp
  }

  function HasId(id: int): CarTrack -> bool {
    (r: CarTrack) => r.id == id
  }

  function HasUid(uid: string): CarTrack -> bool {
    (r: CarTrack) => r.uid == Some(uid)
  }

  function InRoom(room: string): CarTrack -> bool {
    (r: CarTrack) => r.room == Some(room)
  }

  function UserInRoom(userName: string, room: string): CarTrack -> bool {
    (r: CarTrack) => r.userName == Some(userName) && r.room == Some(room)
  }

  /** `GetTaskList`'s filter: the status, or every row when none is given. */
  function StatusFilter(status: string): CarTrack -> bool {
    (r: CarTrack) => status == "" || r.status == Some(status)
  }

  /** One row after `UpdateTask`. */
  function Stamped(r: CarTrack, status: string, now: string): CarTrack {
    var u := r.(status := Some(status), dtmUpdated := Some(now));
    match StampFor(status)
    case StartedAt => u.(dtmStarted := Some(now))
    case ArrivedAt => u.(dtmArrived := Some(now))
    case CanceledAt => u.(dtmCanceled := Some(now))
    case CompletedAt => u.(dtmCompleted := Some(now))
    case NoStamp => u
  }

  /** `UpdateTask`: the task's rows get the status and `dtmUpdated`, and exactly the one
      timestamp column the status names gets the same time; no other column changes. */
  function WithTask(t: seq<CarTrack>, id: int, status: string, now: string): (r: seq<CarTrack>)
    ensures |r| == |t|
    ensures forall i :: 0 <= i < |t| && t[i].id != id ==> r[i] == t[i]
    ensures forall i :: 0 <= i < |t| && t[i].id == id ==>
      && r[i].status == Some(status) && r[i].dtmUpdated == Some(now)
      && r[i].dtmStarted == (if status == "started" then r[i].dtmUpdated else t[i].dtmStarted)
      && r[i].dtmArrived == (if status == "arrived" then r[i].dtmUpdated else t[i].dtmArrived)
      && r[i].dtmCanceled == (if status == "canceled" then r[i].dtmUpdated else t[i].dtmCanceled)
      && r[i].dtmCompleted == (if status == "completed" then r[i].dtmUpdated else t[i].dtmCompleted)
      && r[i].(status := t[i].status, dtmUpdated := t[i].dtmUpdated, dtmStarted := t[i].dtmStarted,
               dtmArrived := t[i].dtmArrived, dtmCanceled := t[i].dtmCanceled, dtmCompleted := t[i].dtmCompleted) == t[i]
  {
    UpdateWhere(t, HasId(id), (r: CarTrack) => Stamped(r, status, now))
  }

  /** `UpdatePosition`: only rows of that user in that room move. */
  function WithPosition(t: seq<CarTrack>, userName: string, room: string, pos: Position, now: string): (r: seq<CarTrack>)
    ensures |r| == |t|
    ensures forall i :: 0 <= i < |t| ==>
      r[i] == if t[i].userName == Some(userName) && t[i].room == Some(room)
              then t[i].(position := Some(pos), dtmUpdated := Some(now)) else t[i]
  {
    UpdateWhere(t, UserInRoom(userName, room), (r: CarTrack) => r.(position := Some(pos), dtmUpdated := Some(now)))
  }

  /** `GetTaskList`'s statement: the status clause and its argument are added together, and
      `limit, offset` are always the last two arguments. */
  method TaskListStatement(status: string, limit: int, offset: int) returns (st: Statement)
    ensures Bound(st)
    ensures |st.args| >= 2 && st.args[|st.args| - 2..] == [Int(limit), Int(offset)]
    ensures st.args == if status == "" then [Int(limit), Int(offset)] else [Str(status), Int(limit), Int(offset)]
  {
    var query: Query := [Text("SELECT * FROM car_track")];
    var args: seq<Arg> := [];
    if status != "" {
      HolesAppend(query, [Text(" WHERE status = "), Hole]);
      query := query + [Text(" WHERE status = "), Hole];
      args := args + [Str(status)];
    }
    HolesAppend(query, [Text(" ORDER BY dtmCreated DESC LIMIT "), Hole]);
    query := query + [Text(" ORDER BY dtmCreated DESC LIMIT "), Hole];
    HolesAppend(query, [Text(" OFFSET "), Hole]);
    query := query + [Text(" OFFSET "), Hole];
    args := args + [Int(limit), Int(offset)];
    st := Statement(query, args);
  }

  class CarRepository {
    var rows: seq<CarTrack>
    var nextId: nat

    /** Ids are below the next id and ascend along the table, as an auto-increment key does. */
    predicate Valid()
      reads this
    {
      && (forall i :: 0 <= i < |rows| ==> rows[i].id < nextId)
      && (forall i, j :: 0 <= i < j < |rows| ==> rows[i].id < rows[j].id)
    }

    constructor (rows: seq<CarTrack>, nextId: nat)
      requires forall i :: 0 <= i < |rows| ==> rows[i].id < nextId
      requires forall i, j :: 0 <= i < j < |rows| ==> rows[i].id < rows[j].id
      ensures this.rows == rows && this.nextId == nextId && Valid()
    {
      this.rows := rows;
      this.nextId := nextId;
    }

    method CreateTask(p: CreateTaskParams, now: string, db: Outcome) returns (id: int, err: Error)
      requires Valid()
      modifies this
      ensures Valid()
      ensures err == Wrap("create car task", db)
      ensures db.Success? ==>
        id == old(nextId) && rows == old(rows) + [Inserted(old(nextId), p, now)] && nextId == old(nextId) + 1
      ensures db.Failure? ==> id == 0 && rows == old(rows) && nextId == old(nextId)
    {
      err := Wrap("create car task", db);
      if db.Success? {
        id := nextId;
        rows := rows + [Inserted(nextId, p, now)];
        nextId := nextId + 1;
      } else {
        id := 0;
      }
    }

    /** No matching row is `(nil, nil)`. */
    method GetByID(id: int, db: Outcome) returns (r: Option<CarTrack>, err: Error)
      ensures err == Wrap("get car task", db)
      ensures r == if db.Success? then FirstWhere(rows, HasId(id)) else None
    {
      err := Wrap("get car task", db);
      r := if db.Success? then FirstWhere(rows, HasId(id)) else None;
    }

    method GetByUID(uid: string, db: Outcome) returns (r: Option<CarTrack>, err: Error)
      ensures err == Wrap("get car task by UID", db)
      ensures r == if db.Success? then FirstWhere(rows, HasUid(uid)) else None
    {
      err := Wrap("get car task by UID", db);
      r := if db.Success? then FirstWhere(rows, HasUid(uid)) else None;
    }

    /** The room's newest task; none is `(nil, nil)`. */
    method GetByRoom(room: string, db: Outcome) returns (r: Option<CarTrack>, err: Error)
      ensures err == Wrap("get car task by room", db)
      ensures r == if db.Success? then LastWhere(rows, InRoom(room)) else None
      ensures Valid() && r.Some? ==>
        r.value in rows && r.value.room == Some(room)
        && forall x :: x in rows && InRoom(room)(x) ==> x.id <= r.value.id
    {
      err := Wrap("get car task by room", db);
      r := if db.Success? then LastWhere(rows, InRoom(room)) else None;
      if Valid() {
        LastWhereHasGreatestKey(rows, InRoom(room), (x: CarTrack) => x.id);
      }
    }

    /** A status without its own column returns the driver error unwrapped. */
    method UpdateTask(id: int, status: string, now: string, db: Outcome) returns (err: Error)
      requires Valid()
      modifies this`rows
      ensures Valid()
      ensures err == if StampFor(status) == NoStamp then ErrorOf(db) else Wrap("update car task", db)
      ensures rows == if db.Success? then WithTask(old(rows), id, status, now) else old(rows)
    {
      if StampFor(status) == NoStamp {
        err := ErrorOf(db);
      } else {
        err := Wrap("update car task", db);
      }
      if db.Success? {
        rows := WithTask(rows, id, status, now);
      }
    }

    method UpdatePosition(userName: string, room: string, pos: Position, now: string, db: Outcome) returns (err: Error)
      requires Valid()
      modifies this`rows
      ensures Valid()
      ensures err == Wrap("update car position", db)
      ensures rows == if db.Success? then WithPosition(old(rows), userName, room, pos, now) else old(rows)
    {
      err := Wrap("update car position", db);
      if db.Success? {
        rows := WithPosition(rows, userName, room, pos, now);
      }
    }

    /** A page of the tasks with that status (every task when the status is empty), newest
        first. */
    method GetTaskList(status: string, limit: nat, offset: nat, db: Outcome)
      returns (tasks: seq<CarTrack>, err: Error, ghost st: Statement)
      ensures Bound(st)
      ensures err == Wrap("get task list", db)
      ensures tasks == if db.Success? then Page(Reversed(Filter(rows, StatusFilter(status))), limit, offset) else []
      ensures |tasks| <= limit
      ensures forall x :: x in tasks ==> x in rows && (status == "" || x.status == Some(status))
    {
      st := TaskListStatement(status, limit, offset);
      err := Wrap("get task list", db);
      if db.Success? {
        tasks := Page(Reversed(Filter(rows, StatusFilter(status))), limit, offset);
        PageOfMatches(rows, StatusFilter(status), limit, offset);
      } else {
        tasks := [];
      }
    }
  }
}
