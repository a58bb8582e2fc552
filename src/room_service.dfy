/** Room lifecycle (internal/service/room_service.go): creation with defaults, closing, the
    expired-room sweep and deletion. LiveKit's room API is an oracle whose errors the service
    ignores; the calls it makes are reported in a ghost trace. */
module RoomService {
  import opened Wrappers
  import opened Tables
  import opened Sql
  import opened Helpers
  import opened RoomRepo

  datatype LiveKitCall = CreateLiveKitRoom(name: string) | DeleteLiveKitRoom(name: string)

  datatype CreateRoomOptions = CreateRoomOptions(
    service: int,
    roomType: string,
    autoRecord: int,
    recordType: string,
    encodingOptionsPreset: string,
    chatEnabled: int,
    webSocketUrl: string,
    userAgent: string,
    daysExpired: int)

  /** A room lives for the requested number of days, or for the configured default when the
      request says 0. */
  function ExpiryDays(opts: CreateRoomOptions, defaultDays: int): (days: int)
    ensures opts.daysExpired != 0 ==> days == opts.daysExpired
    ensures opts.daysExpired == 0 ==> days == defaultDays
  {
    if opts.daysExpired == 0 then defaultDays else opts.daysExpired
  }

  /** The row parameters `CreateRoom` inserts: always status `open`. */
  function CreateParams(name: string, opts: CreateRoomOptions, now: string, expiredAt: string): (p: CreateRoomParams)
    ensures p.room == name && p.status == "open" && p.dtmCreated == p.dtmUpdated == now && p.dtmExpired == expiredAt
  {
    CreateRoomParams(name, opts.service, "open", opts.roomType, opts.autoRecord, opts.recordType,
      opts.encodingOptionsPreset, opts.chatEnabled, opts.webSocketUrl, opts.userAgent, now, now, expiredAt)
  }

  /** The row `CreateRoom` inserts carries the request's options column for column, with no
      record, status and recording state yet. */
  lemma CreatedRowCarriesOptions(id: nat, name: string, opts: CreateRoomOptions, now: string, expiredAt: string)
    ensures var r := Inserted(id, CreateParams(name, opts, now, expiredAt));
      && r.id == id && r.room == Some(name) && r.status == Some("open")
      && r.service == Some(opts.service) && r.roomType == Some(opts.roomType)
      && r.autoRecord == Some(opts.autoRecord) && r.recordType == Some(opts.recordType)
      && r.encodingOptionsPreset == Some(opts.encodingOptionsPreset) && r.chatEnabled == Some(opts.chatEnabled)
      && r.webSocketUrl == Some(opts.webSocketUrl) && r.userAgent == Some(opts.userAgent)
      && r.dtmCreated == Some(now) && r.dtmUpdated == Some(now) && r.dtmExpired == Some(expiredAt)
      && r.recordId == Some("") && r.recordStatus.None? && r.dtmClosed.None? && r.dtmStartRecord.None?
  {
  }

  /** The table after the expired-room sweep: each listed room with a name is closed in turn,
      when its close statement (`closeDb(i)` for the i-th listed room) succeeds. */
  function CloseEach(t: seq<RoomConference>, rooms: seq<RoomConference>, closeDb: nat -> Outcome): seq<RoomConference>
  {
    if rooms == [] then t
    else
      var n := |rooms| - 1;
      var before := CloseEach(t, rooms[..n], closeDb);
      if rooms[n].room.Some? && closeDb(n).Success? then Closed(before, rooms[n].room.value) else before
  }

  /** The LiveKit deletions the sweep asks for: one per listed room whose close succeeded. */
  function SweepCalls(rooms: seq<RoomConference>, closeDb: nat -> Outcome, liveKit: bool): seq<LiveKitCall>
  {
    if rooms == [] then []
    else
      var n := |rooms| - 1;
      SweepCalls(rooms[..n], closeDb, liveKit)
        + (if liveKit && rooms[n].room.Some? && closeDb(n).Success? then [DeleteLiveKitRoom(rooms[n].room.value)] else [])
  }

  /** Closing rooms never reopens one: a closed row stays closed. */
  lemma {:induction false} CloseEachKeepsClosed(t: seq<RoomConference>, rooms: seq<RoomConference>,
                                                closeDb: nat -> Outcome, k: nat)
    requires k < |t| && t[k].status == Some("close")
    ensures |CloseEach(t, rooms, closeDb)| == |t| && CloseEach(t, rooms, closeDb)[k].status == Some("close")
  {
    if rooms != [] {
      CloseEachKeepsClosed(t, rooms[..|rooms| - 1], closeDb, k);
    }
  }

  /** After the sweep, every row of a listed room whose close succeeded is closed. */
  lemma {:induction false} SweepClosesListed(t: seq<RoomConference>, rooms: seq<RoomConference>,
                                             closeDb: nat -> Outcome, i: nat, k: nat)
    requires i < |rooms| && rooms[i].room.Some? && closeDb(i).Success?
    requires k < |t| && t[k].room == rooms[i].room
    ensures |CloseEach(t, rooms, closeDb)| == |t|
    ensures CloseEach(t, rooms, closeDb)[k].status == Some("close")
  {
    var n := |rooms| - 1;
    var before := CloseEach(t, rooms[..n], closeDb);
    CloseEachLength(t, rooms[..n], closeDb);
    if i == n {
      RoomsKept(t, rooms[..n], closeDb, k);
    } else {
      SweepClosesListed(t, rooms[..n], closeDb, i, k);
    }
  }

  lemma {:induction false} CloseEachLength(t: seq<RoomConference>, rooms: seq<RoomConference>, closeDb: nat -> Outcome)
    ensures |CloseEach(t, rooms, closeDb)| == |t|
  {
    if rooms != [] {
      CloseEachLength(t, rooms[..|rooms| - 1], closeDb);
    }
  }

  /** Closing never renames: each row keeps its room name. */
  lemma {:induction false} RoomsKept(t: seq<RoomConference>, rooms: seq<RoomConference>, closeDb: nat -> Outcome, k: nat)
    requires k < |t|
    ensures |CloseEach(t, rooms, closeDb)| == |t| && CloseEach(t, rooms, closeDb)[k].room == t[k].room
  {
    if rooms != [] {
      RoomsKept(t, rooms[..|rooms| - 1], closeDb, k);
    }
  }

  class RoomService {
    const roomRepo: RoomRepository
    const rng: Rand
    /** Whether the LiveKit manager and its room client exist. */
    const liveKitRooms: bool
    const roomDayDefaultTimeout: int

    constructor (roomRepo: RoomRepository, rng: Rand, liveKitRooms: bool, roomDayDefaultTimeout: int)
      ensures this.roomRepo == roomRepo && this.rng == rng
      ensures this.liveKitRooms == liveKitRooms && this.roomDayDefaultTimeout == roomDayDefaultTimeout
    {
      this.roomRepo := roomRepo;
      this.rng := rng;
      this.liveKitRooms := liveKitRooms;
      this.roomDayDefaultTimeout := roomDayDefaultTimeout;
    }

    /** Generates a six-letter name, inserts an `open` row expiring `ExpiryDays` days after now
        (`addDays(d)` is the formatted time d days ahead), asks LiveKit to create the room
        (ignoring its answer), then reads the new row back by id. */
    method CreateRoom(opts: CreateRoomOptions, now: string, addDays: int -> string, createDb: Outcome, lookupDb: Outcome)
      returns (room: Option<RoomConference>, err: Error, ghost calls: seq<LiveKitCall>)
      requires roomRepo.Valid()
      modifies roomRepo, rng
      ensures roomRepo.Valid()
      ensures createDb.Failure? ==>
        err == Wrap("create room", createDb) && room.None? && calls == [] && roomRepo.rows == old(roomRepo.rows)
      ensures createDb.Success? ==> |roomRepo.rows| == |old(roomRepo.rows)| + 1
      ensures createDb.Success? ==>
        var r := roomRepo.rows[|roomRepo.rows| - 1];
        && r.status == Some("open") && r.recordId == Some("")
        && r.dtmExpired == Some(addDays(ExpiryDays(opts, roomDayDefaultTimeout)))
        && r.room.Some? && |r.room.value| == 6 && (forall i :: 0 <= i < 6 ==> IsAsciiLetter(r.room.value[i]))
        && calls == (if liveKitRooms then [CreateLiveKitRoom(r.room.value)] else [])
        && err == Wrap("get room by ID", lookupDb)
        && room == (if lookupDb.Success? then Some(r) else None)
      ensures createDb.Success? ==>
        var r := roomRepo.rows[|roomRepo.rows| - 1];
        && r.room.Some?
        && roomRepo.rows == old(roomRepo.rows) + [Inserted(old(roomRepo.nextId),
             CreateParams(r.room.value, opts, now, addDays(ExpiryDays(opts, roomDayDefaultTimeout))))]
    {
      calls := [];
      var name := GenerateRoomName(rng);
      var days := ExpiryDays(opts, roomDayDefaultTimeout);
      var p := CreateParams(name, opts, now, addDays(days));
      ghost var before := roomRepo.rows;
      var id;
      id, err := roomRepo.Create(p, createDb);
      if err.Some? {
        return None, err, calls;
      }
      InsertedFoundById(before, id, p);
      if liveKitRooms {
        calls := calls + [CreateLiveKitRoom(name)];
      }
      room, err := roomRepo.GetByID(id, lookupDb);
    }

    /** Closes the room's rows; a database error is returned, and only after a successful close
        is LiveKit asked to delete the room, whose answer is ignored. */
    method CloseRoom(name: string, db: Outcome) returns (err: Error, ghost calls: seq<LiveKitCall>)
      requires roomRepo.Valid()
      modifies roomRepo`rows
      ensures roomRepo.Valid()
      ensures err == Wrap("close room", db)
      ensures roomRepo.rows == if db.Success? then Closed(old(roomRepo.rows), name) else old(roomRepo.rows)
      ensures calls == if db.Success? && liveKitRooms then [DeleteLiveKitRoom(name)] else []
    {
      var affected;
      affected, err := roomRepo.CloseRoom(name, db);
      calls := if err.None? && liveKitRooms then [DeleteLiveKitRoom(name)] else [];
    }

    method UpdateRoomStatus(name: string, status: string, db: Outcome) returns (err: Error)
      requires roomRepo.Valid()
      modifies roomRepo`rows
      ensures roomRepo.Valid()
      ensures err == Wrap("update room status", db)
      ensures roomRepo.rows == if db.Success? then WithStatus(old(roomRepo.rows), name, status) else old(roomRepo.rows)
    {
      err := roomRepo.UpdateStatus(name, status, db);
    }

    /** The path's room name and the current time override whatever the options held. */
    method UpdateRoomType(name: string, opts: UpdateRoomTypeParams, now: string, db: Outcome) returns (err: Error)
      requires roomRepo.Valid()
      modifies roomRepo`rows
      ensures roomRepo.Valid()
      ensures err == Wrap("update room type", db)
      ensures roomRepo.rows == if db.Success? then WithRoomType(old(roomRepo.rows), opts.(room := name, dtmUpdated := now))
                               else old(roomRepo.rows)
    {
      err := roomRepo.UpdateRoomType(opts.(room := name, dtmUpdated := now), db);
    }

    method UpdateRecordStatus(name: string, status: int, db: Outcome) returns (err: Error)
      requires roomRepo.Valid()
      modifies roomRepo`rows
      ensures roomRepo.Valid()
      ensures err == if name == "all" then ErrorOf(db) else Wrap("update record status", db)
      ensures roomRepo.rows == if db.Success? then WithRecordStatus(old(roomRepo.rows), name, status) else old(roomRepo.rows)
    {
      err := roomRepo.UpdateRecordStatus(name, status, db);
    }

    /** Lists the open rooms expired before `now` and closes each one that has a name, carrying
        on past failures (`closeDb(i)` is the outcome for the i-th listed room); only a listing
        failure is returned. */
    method AutoRoomExpiredClose(now: string, listDb: Outcome, closeDb: nat -> Outcome)
      returns (err: Error, ghost listed: seq<RoomConference>, ghost calls: seq<LiveKitCall>)
      requires roomRepo.Valid()
      modifies roomRepo`rows
      ensures roomRepo.Valid()
      ensures err == Wrap("get expired rooms", listDb)
      ensures listDb.Failure? ==> roomRepo.rows == old(roomRepo.rows) && calls == []
      ensures listDb.Success? ==> listed == ProjectAll(Filter(old(roomRepo.rows), ExpiredOpen(now)), ExpiredView)
      ensures listDb.Success? ==> forall r :: r in listed <==>
        exists i :: 0 <= i < |old(roomRepo.rows)| && r == ExpiredView(old(roomRepo.rows)[i])
          && ExpiredOpen(now)(old(roomRepo.rows)[i])
      ensures listDb.Success? ==>
        roomRepo.rows == CloseEach(old(roomRepo.rows), listed, closeDb)
        && calls == SweepCalls(listed, closeDb, liveKitRooms)
    {
      var rooms;
      rooms, err := roomRepo.GetExpiredRooms(now, listDb);
      listed, calls := rooms, [];
      if err.Some? {
        return;
      }
      ExpiredListing(old(roomRepo.rows), now, rooms);
      ghost var start := roomRepo.rows;
      var i := 0;
      while i < |rooms|
        invariant 0 <= i <= |rooms|
        invariant roomRepo.Valid()
        invariant roomRepo.rows == CloseEach(start, rooms[..i], closeDb)
        invariant calls == SweepCalls(rooms[..i], closeDb, liveKitRooms)
      {
        assert rooms[..i + 1][..i] == rooms[..i];
        if rooms[i].room.Some? {
          var closeErr, c := CloseRoom(rooms[i].room.value, closeDb(i));
          calls := calls + c;
        }
        i := i + 1;
      }
      assert rooms[..i] == rooms;
    }

    /** Asks LiveKit to delete the room first, ignoring its answer, then deletes the rows and
        returns that statement's result. */
    method DeleteRoom(name: string, db: Outcome) returns (err: Error, ghost calls: seq<LiveKitCall>)
      requires roomRepo.Valid()
      modifies roomRepo`rows
      ensures roomRepo.Valid()
      ensures err == Wrap("delete room", db)
      ensures roomRepo.rows == if db.Success? then Deleted(old(roomRepo.rows), name) else old(roomRepo.rows)
      ensures calls == if liveKitRooms then [DeleteLiveKitRoom(name)] else []
    {
      calls := if liveKitRooms then [DeleteLiveKitRoom(name)] else [];
      err := roomRepo.Delete(name, db);
    }
  }

  /** The listing holds the `(room, dtmExpired)` view of exactly the open rows expired before `now`. */
  lemma ExpiredListing(t: seq<RoomConference>, now: string, rooms: seq<RoomConference>)
    requires |rooms| == |Filter(t, ExpiredOpen(now))|
    requires forall i :: 0 <= i < |rooms| ==> rooms[i] == ExpiredView(Filter(t, ExpiredOpen(now))[i])
    ensures forall r :: r in rooms <==> exists i :: 0 <= i < |t| && r == ExpiredView(t[i]) && ExpiredOpen(now)(t[i])
  {
    var f := Filter(t, ExpiredOpen(now));
    FilterIsSelection(t, ExpiredOpen(now));
    forall r
      ensures r in rooms <==> exists i :: 0 <= i < |t| && r == ExpiredView(t[i]) && ExpiredOpen(now)(t[i])
    {
      if r in rooms {
        var j :| 0 <= j < |rooms| && rooms[j] == r;
        assert f[j] in f;
        var i :| 0 <= i < |t| && t[i] == f[j];
      }
      if exists i :: 0 <= i < |t| && r == ExpiredView(t[i]) && ExpiredOpen(now)(t[i]) {
        var i :| 0 <= i < |t| && r == ExpiredView(t[i]) && ExpiredOpen(now)(t[i]);
        assert t[i] in f;
        var j :| 0 <= j < |f| && f[j] == t[i];
        assert rooms[j] == r;
      }
    }
  }
}
