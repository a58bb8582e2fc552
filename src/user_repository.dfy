/** The `room_user` table and the statements `UserRepository` runs on it
    (internal/repository/user_repository.go). */
module UserRepo {
  import opened Wrappers
  import opened Tables
  import opened Sql

  /** A `room_user` row; `None` is SQL NULL. Latitude, longitude and accuracy are kept as the
      text the database holds. */
  datatype RoomUser = RoomUser(
    id: nat,
    room: Option<string>,
    identity: Option<string>,
    color: Option<string>,
    userName: Option<string>,
    userType: Option<string>,
    status: Option<string>,
    socketId: Option<string>,
    conference: Option<int>,
    cameraMicrophoneStatus: Option<string>,
    camera: Option<int>,
    microphone: Option<int>,
    latitude: Option<string>,
    longitude: Option<string>,
    accuracy: Option<string>,
    userAgent: Option<string>,
    dtmCreated: Option<string>,
    dtmUpdated: string)

  datatype AddUserParams = AddUserParams(
    room: string,
    identity: string,
    userName: string,
    userType: string,
    status: string,
    socketId: string,
    color: string,
    conference: int,
    userAgent: string)

  /** The row `AddUser` inserts; creation and update time are both `now`. */
  function Inserted(id: nat, p: AddUserParams, now: string): (r: RoomUser)
    ensures r.room == Some(p.room) && r.identity == Some(p.identity) && r.status == Some(p.status)
    ensures r.dtmCreated == Some(now) && r.dtmUpdated == now
  {
    RoomUser(id, Some(p.room), Some(p.identity), Some(p.color), Some(p.userName), Some(p.userType),
      Some(p.status), Some(p.socketId), Some(p.conference), None, None, None, None, None, None,
      Some(p.userAgent), Some(now), now)
  }

  /** Go booleans are stored as 1 and 0. */
  function Flag(b: bool): (i: int)
    ensures i == 0 || i == 1
    ensures i == 1 <==> b
  {
    if b then 1 else 0
  }

  /** `WHERE room = ? AND identity = ?` */
  function InRoomAs(room: string, identity: string): RoomUser -> bool {
    (u: RoomUser) => u.room == Some(room) && u.identity == Some(identity)
  }

  function HasSocket(socketId: string): RoomUser -> bool {
    (u: RoomUser) => u.socketId == Some(socketId)
  }

  function HasIdentity(identity: string): RoomUser -> bool {
    (u: RoomUser) => u.identity == Some(identity)
  }

  function IsConnected(u: RoomUser): bool {
    u.status == Some("connection")
  }

  /** `UpdateUser`'s statement: `userName` always, `socketId` and `color` only when non-empty,
      and `room`, `identity` last. */
  method UpdateUserStatement(room: string, identity: string, userName: string, color: string, socketId: string)
    returns (st: Statement)
    ensures Bound(st)
    ensures st.args == [Str(userName)] + (if socketId != "" then [Str(socketId)] else [])
      + (if color != "" then [Str(color)] else []) + [Str(room), Str(identity)]
    ensures 3 <= |st.args| <= 5
    ensures st.args[0] == Str(userName) && st.args[|st.args| - 2..] == [Str(room), Str(identity)]
  {
    var query: Query := [Text("UPDATE room_user SET userName = "), Hole];
    var args: seq<Arg> := [Str(userName)];
    if socketId != "" {
      HolesAppend(query, [Text(", socketId = "), Hole]);
      query := query + [Text(", socketId = "), Hole];
      args := args + [Str(socketId)];
    }
    if color != "" {
      HolesAppend(query, [Text(", color = "), Hole]);
      query := query + [Text(", color = "), Hole];
      args := args + [Str(color)];
    }
    HolesAppend(query, [Text(" WHERE room = "), Hole]);
    query := query + [Text(" WHERE room = "), Hole];
    HolesAppend(query, [Text(" AND identity = "), Hole]);
    query := query + [Text(" AND identity = "), Hole];
    args := args + [Str(room), Str(identity)];
    st := Statement(query, args);
  }

  /** `UpdateUser` on the matching rows. */
  function WithUserUpdate(t: seq<RoomUser>, room: string, identity: string, userName: string, color: string,
                          socketId: string): (r: seq<RoomUser>)
    ensures |r| == |t|
    ensures forall i :: 0 <= i < |t| && !InRoomAs(room, identity)(t[i]) ==> r[i] == t[i]
    ensures forall i :: 0 <= i < |t| && InRoomAs(room, identity)(t[i]) ==>
      r[i] == t[i].(userName := Some(userName),
                    socketId := if socketId != "" then Some(socketId) else t[i].socketId,
                    color := if color != "" then Some(color) else t[i].color)
  {
    UpdateWhere(t, InRoomAs(room, identity), (u: RoomUser) => u.(userName := Some(userName),
      socketId := if socketId != "" then Some(socketId) else u.socketId,
      color := if color != "" then Some(color) else u.color))
  }

  /** `UpdateUserStatus` also turns camera and microphone back on. */
  function WithUserStatus(t: seq<RoomUser>, room: string, identity: string, status: string): (r: seq<RoomUser>)
    ensures |r| == |t|
    ensures forall i :: 0 <= i < |t| && !InRoomAs(room, identity)(t[i]) ==> r[i] == t[i]
    ensures forall i :: 0 <= i < |t| && InRoomAs(room, identity)(t[i]) ==>
      r[i] == t[i].(status := Some(status), camera := Some(1), microphone := Some(1))
  {
    UpdateWhere(t, InRoomAs(room, identity), (u: RoomUser) => u.(status := Some(status), camera := Some(1), microphone := Some(1)))
  }

  /** `UpdateUserDisconnect`: the socket's rows lose their socket id and get camera and
      microphone back on. */
  function Disconnected(t: seq<RoomUser>, socketId: string): (r: seq<RoomUser>)
    ensures |r| == |t|
    ensures forall i :: 0 <= i < |t| && t[i].socketId != Some(socketId) ==> r[i] == t[i]
    ensures forall i :: 0 <= i < |t| && t[i].socketId == Some(socketId) ==>
      r[i] == t[i].(socketId := Some(""), camera := Some(1), microphone := Some(1))
  {
    UpdateWhere(t, HasSocket(socketId), (u: RoomUser) => u.(socketId := Some(""), camera := Some(1), microphone := Some(1)))
  }

  /** The two media flags a participant row carries. */
  datatype Device = Camera | Microphone

  /** `UpdateUserCamera` and `UpdateUserMicrophone`: the identity's rows get the device's flag
      as 1 or 0, and nothing else changes. */
  function WithDevice(t: seq<RoomUser>, identity: string, device: Device, on: bool): (r: seq<RoomUser>)
    ensures |r| == |t|
    ensures forall i :: 0 <= i < |t| && t[i].identity != Some(identity) ==> r[i] == t[i]
    ensures forall i :: 0 <= i < |t| && t[i].identity == Some(identity) ==>
      r[i] == if device == Camera then t[i].(camera := Some(Flag(on))) else t[i].(microphone := Some(Flag(on)))
  {
    UpdateWhere(t, HasIdentity(identity), (u: RoomUser) =>
      if device == Camera then u.(camera := Some(Flag(on))) else u.(microphone := Some(Flag(on))))
  }

  /** `InitUserExist`: `connection` rows become `disconnect`. */
  function AllDisconnected(t: seq<RoomUser>): (r: seq<RoomUser>)
    ensures |r| == |t|
    ensures forall i :: 0 <= i < |t| ==>
      r[i] == if IsConnected(t[i]) then t[i].(status := Some("disconnect")) else t[i]
  {
    UpdateWhere(t, IsConnected, (u: RoomUser) => u.(status := Some("disconnect")))
  }

  /** After `InitUserExist` no row is connected, and it changes nothing a second time. */
  lemma InitUserExistIdempotent(t: seq<RoomUser>)
    ensures CountWhere(AllDisconnected(t), IsConnected) == 0
    ensures AllDisconnected(AllDisconnected(t)) == AllDisconnected(t)
  {
    CountZeroIffNone(AllDisconnected(t), IsConnected);
  }

  /** Which lookup `GetUserDetail` runs. */
  datatype DetailQuery = ByRoomIdentity(room: string, identity: string) | BySocket(socketId: string)

  /** (room, identity) when both are given; otherwise the socket id when given; otherwise no
      query at all. */
  function DetailQueryFor(room: string, identity: string, socketId: string): (q: Option<DetailQuery>)
    ensures room != "" && identity != "" ==> q == Some(ByRoomIdentity(room, identity))
    ensures (room == "" || identity == "") && socketId != "" ==> q == Some(BySocket(socketId))
    ensures q.None? <==> (room == "" || identity == "") && socketId == ""
  {
    if room != "" && identity != "" then Some(ByRoomIdentity(room, identity))
    else if socketId != "" then Some(BySocket(socketId))
    else None
  }

  function DetailMatch(q: DetailQuery): RoomUser -> bool {
    match q
    case ByRoomIdentity(room, identity) => InRoomAs(room, identity)
    case BySocket(socketId) => HasSocket(socketId)
  }

  /** The columns `GetUserDetail` selects; the rest are Go zero values. */
  function DetailView(u: RoomUser): RoomUser {
    RoomUser(0, u.room, u.identity, u.color, u.userName, u.userType, u.status, None, u.conference, None,
      u.camera, u.microphone, None, None, None, None, None, "")
  }

  const ErrInvalidDetailParams := "invalid parameters: room and identity or socketID required"

  /** `GetUserAlreadyInRoom` holds exactly when some row has that room and identity. */
  lemma AlreadyInRoomMeaning(t: seq<RoomUser>, room: string, identity: string)
    ensures CountWhere(t, InRoomAs(room, identity)) > 0 <==>
      exists i :: 0 <= i < |t| && t[i].room == Some(room) && t[i].identity == Some(identity)
  {
    CountZeroIffNone(t, InRoomAs(room, identity));
    if CountWhere(t, InRoomAs(room, identity)) > 0 {
      var i :| 0 <= i < |t| && InRoomAs(room, identity)(t[i]);
    }
  }

  class UserRepository {
    var rows: seq<RoomUser>
    var nextId: nat
    /** The `color_scheme` palette `GetRandomColor` draws from. */
    const colors: seq<string>

    /** Ids are below the next id and ascend along the table, as an auto-increment key does. */
    predicate Valid()
      reads this
    {
      && (forall i :: 0 <= i < |rows| ==> rows[i].id < nextId)
      && (forall i, j :: 0 <= i < j < |rows| ==> rows[i].id < rows[j].id)
    }

    constructor (rows: seq<RoomUser>, nextId: nat, colors: seq<string>)
      requires forall i :: 0 <= i < |rows| ==> rows[i].id < nextId
      requires forall i, j :: 0 <= i < j < |rows| ==> rows[i].id < rows[j].id
      ensures this.rows == rows && this.nextId == nextId && this.colors == colors && Valid()
    {
      this.rows := rows;
      this.nextId := nextId;
      this.colors := colors;
    }

    method AddUser(p: AddUserParams, now: string, db: Outcome) returns (err: Error)
      requires Valid()
      modifies this
      ensures Valid()
      ensures err == Wrap("add user", db)
      ensures db.Success? ==> rows == old(rows) + [Inserted(old(nextId), p, now)] && nextId == old(nextId) + 1
      ensures db.Failure? ==> rows == old(rows) && nextId == old(nextId)
    {
      err := Wrap("add user", db);
      if db.Success? {
        rows := rows + [Inserted(nextId, p, now)];
        nextId := nextId + 1;
      }
    }

    method UpdateUser(room: string, identity: string, userName: string, color: string, socketId: string, db: Outcome)
      returns (err: Error)
      requires Valid()
      modifies this`rows
      ensures Valid()
      ensures err == Wrap("update user", db)
      ensures rows == if db.Success? then WithUserUpdate(old(rows), room, identity, userName, color, socketId) else old(rows)
    {
      var st := UpdateUserStatement(room, identity, userName, color, socketId);
      err := Wrap("update user", db);
      if db.Success? {
        rows := WithUserUpdate(rows, room, identity, userName, color, socketId);
      }
    }

    method UpdateUserStatus(room: string, identity: string, status: string, db: Outcome) returns (err: Error)
      requires Valid()
      modifies this`rows
      ensures Valid()
      ensures err == Wrap("update user status", db)
      ensures rows == if db.Success? then WithUserStatus(old(rows), room, identity, status) else old(rows)
    {
      err := Wrap("update user status", db);
      if db.Success? {
        rows := WithUserStatus(rows, room, identity, status);
      }
    }

    method UpdateUserCamera(identity: string, camera: bool, db: Outcome) returns (err: Error)
      requires Valid()
      modifies this`rows
      ensures Valid()
      ensures err == Wrap("update user camera", db)
      ensures rows == if db.Success? then WithDevice(old(rows), identity, Camera, camera) else old(rows)
    {
      err := Wrap("update user camera", db);
      if db.Success? {
        rows := WithDevice(rows, identity, Camera, camera);
      }
    }

    method UpdateUserMicrophone(identity: string, microphone: bool, db: Outcome) returns (err: Error)
      requires Valid()
      modifies this`rows
      ensures Valid()
      ensures err == Wrap("update user microphone", db)
      ensures rows == if db.Success? then WithDevice(old(rows), identity, Microphone, microphone) else old(rows)
    {
      err := Wrap("update user microphone", db);
      if db.Success? {
        rows := WithDevice(rows, identity, Microphone, microphone);
      }
    }

    method UpdateUserDisconnect(socketId: string, db: Outcome) returns (err: Error)
      requires Valid()
      modifies this`rows
      ensures Valid()
      ensures err == Wrap("update user disconnect", db)
      ensures rows == if db.Success? then Disconnected(old(rows), socketId) else old(rows)
    {
      err := Wrap("update user disconnect", db);
      if db.Success? {
        rows := Disconnected(rows, socketId);
      }
    }

    /** No usable key is an error without a query; no matching row is `(nil, nil)`. */
    method GetUserDetail(room: string, identity: string, socketId: string, db: Outcome)
      returns (user: Option<RoomUser>, err: Error)
      ensures DetailQueryFor(room, identity, socketId).None? ==> user.None? && err == Some(ErrInvalidDetailParams)
      ensures DetailQueryFor(room, identity, socketId).Some? ==> err == Wrap("get user detail", db)
      ensures user.Some? ==> db.Success? && DetailQueryFor(room, identity, socketId).Some?
      ensures db.Success? && DetailQueryFor(room, identity, socketId).Some? ==>
        var found := FirstWhere(rows, DetailMatch(DetailQueryFor(room, identity, socketId).value));
        user == if found.Some? then Some(DetailView(found.value)) else None
    {
      var q := DetailQueryFor(room, identity, socketId);
      if q.None? {
        return None, Some(ErrInvalidDetailParams);
      }
      err := Wrap("get user detail", db);
      if db.Failure? {
        return None, err;
      }
      var found := FirstWhere(rows, DetailMatch(q.value));
      user := if found.Some? then Some(DetailView(found.value)) else None;
    }

    method IsUserInRoom(room: string, identity: string, db: Outcome) returns (count: nat, err: Error)
      ensures err == Wrap("check user in room", db)
      ensures count == if db.Success? then CountWhere(rows, InRoomAs(room, identity)) else 0
    {
      err := Wrap("check user in room", db);
      count := if db.Success? then CountWhere(rows, InRoomAs(room, identity)) else 0;
    }

    method GetUserAlreadyInRoom(room: string, identity: string, db: Outcome) returns (present: bool, err: Error)
      ensures err == Wrap("check user in room", db)
      ensures present <==> db.Success? && exists i :: 0 <= i < |rows| && rows[i].room == Some(room) && rows[i].identity == Some(identity)
    {
      var count;
      count, err := IsUserInRoom(room, identity, db);
      AlreadyInRoomMeaning(rows, room, identity);
      present := err.None? && count > 0;
    }

    /** `ORDER BY RAND() LIMIT 1`: the palette entry the database picks (`pick`), or an error
        when the query fails or the palette is empty. */
    method GetRandomColor(pick: nat, db: Outcome) returns (color: Result<string>)
      ensures color.Ok? <==> db.Success? && colors != []
      ensures color.Ok? ==> color.value in colors
      ensures db.Failure? ==> color == Err(Wrap("get random color", db).value)
    {
      if db.Failure? {
        return Err(Wrap("get random color", db).value);
      }
      if colors == [] {
        return Err("failed to get random color: sql: no rows in result set");
      }
      color := Ok(colors[pick % |colors|]);
    }

    method InitUserExist(db: Outcome) returns (err: Error)
      requires Valid()
      modifies this`rows
      ensures Valid()
      ensures err == Wrap("init user exist", db)
      ensures rows == if db.Success? then AllDisconnected(old(rows)) else old(rows)
    {
      err := Wrap("init user exist", db);
      if db.Success? {
        rows := AllDisconnected(rows);
      }
    }
  }
}
