/** The LiveKit webhook (internal/handler/webhook_handler.go): the event dispatch decides which
    store writes happen, as a pure table (`Effects`), and the handler performs them through the
    room, user and record services, ignoring their errors. */
module Webhook {
  import opened Wrappers
  import opened Sql
  import RoomRepo
  import UserRepo
  import RecordRepo
  import RoomService
  import UserService
  import RecordService

  type EgressStatus = RecordService.EgressStatus

  datatype Room = Room(name: string)
  datatype Participant = Participant(identity: string, name: string)
  datatype FileResult = FileResult(filename: string, size: int, duration: int)
  datatype Egress = Egress(egressId: string, roomName: string, status: EgressStatus, fileResults: seq<FileResult>)
  datatype WebhookEvent = WebhookEvent(
    event: string,
    room: Option<Room>,
    participant: Option<Participant>,
    egressInfo: Option<Egress>)

  datatype Response = Response(status: int, message: string)

  /** One write the webhook asks of the services. */
  datatype StoreCall =
    | RoomStatus(room: string, status: string)
    | UserStatus(room: string, identity: string, status: string)
    | RecordByEgress(egressId: string, fileName: string, filePath: string, status: string, fileSize: int, duration: int)
    | RoomRecordStatus(room: string, recordStatus: int)

  const NanosPerSecond := 1_000_000_000

  /** Go's integer division, which truncates toward zero. */
  function TruncDiv(a: int, b: int): (q: int)
    requires b > 0
    ensures a >= 0 ==> q >= 0 && q * b <= a < q * b + b
    ensures a < 0 ==> q <= 0 && q * b - b < a <= q * b
  {
    if a >= 0 then a / b else -((-a) / b)
  }

  /** The file data recorded for a completed egress: taken from the first file result only,
      with the duration in whole seconds; no result gives empty names and zeros. */
  datatype FileInfo = FileInfo(fileName: string, filePath: string, fileSize: int, duration: int)

  function CompletedFile(e: Egress): (f: FileInfo)
    ensures e.fileResults == [] ==> f == FileInfo("", "", 0, 0)
    ensures e.fileResults != [] ==>
      f.fileName == f.filePath == e.fileResults[0].filename && f.fileSize == e.fileResults[0].size
    ensures e.fileResults != [] && e.fileResults[0].duration >= 0 ==>
      f.duration * NanosPerSecond <= e.fileResults[0].duration < (f.duration + 1) * NanosPerSecond
  {
    if e.fileResults == [] then FileInfo("", "", 0, 0)
    else
      var r := e.fileResults[0];
      FileInfo(r.filename, r.filename, r.size, TruncDiv(r.duration, NanosPerSecond))
  }

  /** Only the first file result matters: results after it never change what is recorded. */
  lemma CompletedFileIgnoresRest(e: Egress, more: seq<FileResult>)
    requires e.fileResults != []
    ensures CompletedFile(e.(fileResults := e.fileResults + more)) == CompletedFile(e)
  {
  }

  /** The writes an `egress_ended` event asks for: a completed egress records its file data and
      then clears the room's record status; a failed one is marked failed; any other status
      writes nothing. */
  function EgressCalls(e: Egress): (calls: seq<StoreCall>)
    ensures e.status.Complete? ==>
      var f := CompletedFile(e);
      calls == [RecordByEgress(e.egressId, f.fileName, f.filePath, "complete", f.fileSize, f.duration),
                RoomRecordStatus(e.roomName, 0)]
    ensures e.status.Failed? ==> calls == [RecordByEgress(e.egressId, "", "", "failed", 0, 0)]
    ensures calls == [] <==> !(e.status.Complete? || e.status.Failed?)
  {
    if e.status.Complete? then
      var f := CompletedFile(e);
      [RecordByEgress(e.egressId, f.fileName, f.filePath, "complete", f.fileSize, f.duration), RoomRecordStatus(e.roomName, 0)]
    else if e.status.Failed? then
      [RecordByEgress(e.egressId, "", "", "failed", 0, 0)]
    else []
  }

  /** The writes each parsed event asks for, in order. */
  function Effects(ev: WebhookEvent): (calls: seq<StoreCall>)
    ensures calls != [] ==>
      ev.event == "room_finished" || ev.event == "participant_joined" || ev.event == "participant_left"
      || ev.event == "egress_ended"
    ensures ev.event == "room_finished" ==>
      calls == if ev.room.Some? then [RoomStatus(ev.room.value.name, "close")] else []
    ensures ev.event == "participant_joined" || ev.event == "participant_left" ==>
      calls == if ev.room.Some? && ev.participant.Some?
               then [UserStatus(ev.room.value.name, ev.participant.value.identity,
                       if ev.event == "participant_joined" then "connect" else "disconnect")]
               else []
    ensures ev.event == "egress_ended" ==>
      calls == if ev.egressInfo.Some? then EgressCalls(ev.egressInfo.value) else []
  {
    match ev.event
    case "room_finished" =>
      if ev.room.Some? then [RoomStatus(ev.room.value.name, "close")] else []
    case "participant_joined" =>
      if ev.participant.Some? && ev.room.Some? then [UserStatus(ev.room.value.name, ev.participant.value.identity, "connect")] else []
    case "participant_left" =>
      if ev.participant.Some? && ev.room.Some? then [UserStatus(ev.room.value.name, ev.participant.value.identity, "disconnect")] else []
    case "egress_ended" =>
      if ev.egressInfo.Some? then EgressCalls(ev.egressInfo.value) else []
    case _ => []
  }

  /** The room table after the calls, each room write applied when `db` succeeds. */
  function RoomTableAfter(t: seq<RoomRepo.RoomConference>, calls: seq<StoreCall>, db: Outcome): seq<RoomRepo.RoomConference>
    decreases |calls|
  {
    if calls == [] || db.Failure? then t
    else
      match calls[0]
      case RoomStatus(room, status) => RoomTableAfter(RoomRepo.WithStatus(t, room, status), calls[1..], db)
      case RoomRecordStatus(room, s) => RoomTableAfter(RoomRepo.WithRecordStatus(t, room, s), calls[1..], db)
      case _ => RoomTableAfter(t, calls[1..], db)
  }

  function UserTableAfter(t: seq<UserRepo.RoomUser>, calls: seq<StoreCall>, db: Outcome): seq<UserRepo.RoomUser>
    decreases |calls|
  {
    if calls == [] || db.Failure? then t
    else
      match calls[0]
      case UserStatus(room, identity, status) => UserTableAfter(UserRepo.WithUserStatus(t, room, identity, status), calls[1..], db)
      case _ => UserTableAfter(t, calls[1..], db)
  }

  function RecordTableAfter(t: seq<RecordRepo.RecordMedia>, calls: seq<StoreCall>, db: Outcome, now: string): seq<RecordRepo.RecordMedia>
    decreases |calls|
  {
    if calls == [] || db.Failure? then t
    else
      match calls[0]
      case RecordByEgress(id, fileName, filePath, status, size, duration) =>
        RecordTableAfter(RecordRepo.Completed(t, id, fileName, filePath, status, size, duration, now), calls[1..], db, now)
      case _ => RecordTableAfter(t, calls[1..], db, now)
  }

  /** Events that only log leave every table as it was. */
  lemma LogOnlyEventsChangeNothing(ev: WebhookEvent, rooms: seq<RoomRepo.RoomConference>, users: seq<UserRepo.RoomUser>,
                                   records: seq<RecordRepo.RecordMedia>, roomDb: Outcome, userDb: Outcome,
                                   recordDb: Outcome, now: string)
    requires ev.event != "room_finished" && ev.event != "participant_joined" && ev.event != "participant_left"
    requires ev.event != "egress_ended"
    ensures RoomTableAfter(rooms, Effects(ev), roomDb) == rooms
    ensures UserTableAfter(users, Effects(ev), userDb) == users
    ensures RecordTableAfter(records, Effects(ev), recordDb, now) == records
  {
  }

  /** A completed egress stores its file data on the egress's rows and then clears the room's
      record status; a failed one marks the rows failed and leaves the room alone. */
  lemma EgressEndedBookkeeping(e: Egress, rooms: seq<RoomRepo.RoomConference>, records: seq<RecordRepo.RecordMedia>,
                               roomDb: Outcome, recordDb: Outcome, now: string)
    requires roomDb.Success? && recordDb.Success?
    ensures var ev := WebhookEvent("egress_ended", None, None, Some(e));
      e.status.Complete? ==>
        var f := CompletedFile(e);
        && RoomTableAfter(rooms, Effects(ev), roomDb) == RoomRepo.WithRecordStatus(rooms, e.roomName, 0)
        && RecordTableAfter(records, Effects(ev), recordDb, now)
           == RecordRepo.Completed(records, e.egressId, f.fileName, f.filePath, "complete", f.fileSize, f.duration, now)
    ensures var ev := WebhookEvent("egress_ended", None, None, Some(e));
      e.status.Failed? ==>
        && RoomTableAfter(rooms, Effects(ev), roomDb) == rooms
        && RecordTableAfter(records, Effects(ev), recordDb, now)
           == RecordRepo.Completed(records, e.egressId, "", "", "failed", 0, 0, now)
  {
    var ev := WebhookEvent("egress_ended", None, None, Some(e));
    if e.status.Complete? {
      var f := CompletedFile(e);
      var rest := [RoomRecordStatus(e.roomName, 0)];
      assert Effects(ev)[1..] == rest && rest[1..] == [];
      var completed := RecordRepo.Completed(records, e.egressId, f.fileName, f.filePath, "complete", f.fileSize, f.duration, now);
      assert RecordTableAfter(records, Effects(ev), recordDb, now) == RecordTableAfter(completed, rest, recordDb, now);
      assert RecordTableAfter(completed, rest, recordDb, now) == RecordTableAfter(completed, [], recordDb, now);
      assert RoomTableAfter(rooms, Effects(ev), roomDb) == RoomTableAfter(rooms, rest, roomDb);
      assert RoomTableAfter(rooms, rest, roomDb) == RoomTableAfter(RoomRepo.WithRecordStatus(rooms, e.roomName, 0), [], roomDb);
    }
  }

  /** Egress bookkeeping never writes the user table. */
  lemma EgressSkipsUsers(e: Egress, users: seq<UserRepo.RoomUser>, db: Outcome)
    ensures UserTableAfter(users, EgressCalls(e), db) == users
  {
    var calls := EgressCalls(e);
    if e.status.Complete? && db.Success? {
      assert calls[1..] == [RoomRecordStatus(e.roomName, 0)] && calls[1..][1..] == [];
      assert UserTableAfter(users, calls, db) == UserTableAfter(users, calls[1..], db);
      assert UserTableAfter(users, calls[1..], db) == UserTableAfter(users, [], db);
    } else if e.status.Failed? && db.Success? {
      assert calls[1..] == [];
      assert UserTableAfter(users, calls, db) == UserTableAfter(users, [], db);
    }
  }

  class WebhookHandler {
    const roomService: RoomService.RoomService
    const userService: UserService.UserService
    const recordService: RecordService.RecordService

    constructor (roomService: RoomService.RoomService, userService: UserService.UserService,
                 recordService: RecordService.RecordService)
      ensures this.roomService == roomService && this.userService == userService
      ensures this.recordService == recordService
    {
      this.roomService := roomService;
      this.userService := userService;
      this.recordService := recordService;
    }

    /** The `egress_ended` bookkeeping: the first file result's name, size and duration (in
        whole seconds) for a completed egress, followed by clearing the room's record status;
        empty data and status `failed` for a failed one. */
    method EgressEnded(e: Egress, now: string, roomDb: Outcome, recordDb: Outcome) returns (ghost calls: seq<StoreCall>)
      requires roomService.roomRepo.Valid() && recordService.recordRepo.Valid()
      modifies roomService.roomRepo`rows, recordService.recordRepo`rows
      ensures roomService.roomRepo.Valid() && recordService.recordRepo.Valid()
      ensures calls == EgressCalls(e)
      ensures roomService.roomRepo.rows == RoomTableAfter(old(roomService.roomRepo.rows), calls, roomDb)
      ensures recordService.recordRepo.rows == RecordTableAfter(old(recordService.recordRepo.rows), calls, recordDb, now)
    {
      calls := [];
      var ignored: Error;
      if e.status.Complete? {
        ghost var records := recordService.recordRepo.rows;
        ghost var rooms := roomService.roomRepo.rows;
        var fileName, filePath, fileSize, duration := "", "", 0, 0;
        if |e.fileResults| > 0 {
          var result := e.fileResults[0];
          fileName := result.filename;
          filePath := result.filename;
          fileSize := result.size;
          duration := TruncDiv(result.duration, NanosPerSecond);
        }
        ignored := recordService.UpdateRecordByEgressID(e.egressId, fileName, filePath, "complete",
                                                        fileSize, duration, now, recordDb);
        ignored := roomService.UpdateRecordStatus(e.roomName, 0, roomDb);
        calls := [RecordByEgress(e.egressId, fileName, filePath, "complete", fileSize, duration),
                  RoomRecordStatus(e.roomName, 0)];
        assert calls[1..] == [RoomRecordStatus(e.roomName, 0)] && calls[1..][1..] == [];
        ghost var done := if recordDb.Success?
          then RecordRepo.Completed(records, e.egressId, fileName, filePath, "complete", fileSize, duration, now)
          else records;
        assert RecordTableAfter(done, calls[1..], recordDb, now) == RecordTableAfter(done, [], recordDb, now);
        if roomDb.Success? {
          assert RoomTableAfter(rooms, calls, roomDb) == RoomTableAfter(rooms, calls[1..], roomDb);
          assert RoomTableAfter(rooms, calls[1..], roomDb)
              == RoomTableAfter(RoomRepo.WithRecordStatus(rooms, e.roomName, 0), [], roomDb);
        }
      } else if e.status.Failed? {
        ignored := recordService.UpdateRecordByEgressID(e.egressId, "", "", "failed", 0, 0, now, recordDb);
        calls := [RecordByEgress(e.egressId, "", "", "failed", 0, 0)];
      }
    }

    /** `body` is the parsed event, `None` when it does not parse. `roomDb`, `userDb` and
        `recordDb` are the outcomes of the writes on each table; they are ignored. */
    method HandleLiveKitWebhook(authorization: string, body: Option<WebhookEvent>, now: string,
                                roomDb: Outcome, userDb: Outcome, recordDb: Outcome)
      returns (resp: Response, ghost calls: seq<StoreCall>)
      requires roomService.roomRepo.Valid() && userService.userRepo.Valid() && recordService.recordRepo.Valid()
      modifies roomService.roomRepo`rows, userService.userRepo`rows, recordService.recordRepo`rows
      ensures roomService.roomRepo.Valid() && userService.userRepo.Valid() && recordService.recordRepo.Valid()
      ensures authorization == "" ==> resp == Response(401, "Authorization required")
      ensures authorization != "" && body.None? ==> resp == Response(400, "Invalid event data")
      ensures authorization == "" || body.None? ==>
        && calls == []
        && roomService.roomRepo.rows == old(roomService.roomRepo.rows)
        && userService.userRepo.rows == old(userService.userRepo.rows)
        && recordService.recordRepo.rows == old(recordService.recordRepo.rows)
      ensures authorization != "" && body.Some? ==>
        && resp.status == 200
        && calls == Effects(body.value)
        && roomService.roomRepo.rows == RoomTableAfter(old(roomService.roomRepo.rows), calls, roomDb)
        && userService.userRepo.rows == UserTableAfter(old(userService.userRepo.rows), calls, userDb)
        && recordService.recordRepo.rows == RecordTableAfter(old(recordService.recordRepo.rows), calls, recordDb, now)
    {
      calls := [];
      if authorization == "" {
        return Response(401, "Authorization required"), calls;
      }
      if body.None? {
        return Response(400, "Invalid event data"), calls;
      }
      var ev := body.value;
      var ignored: Error;
      match ev.event {
        case "room_finished" =>
          if ev.room.Some? {
            ignored := roomService.UpdateRoomStatus(ev.room.value.name, "close", roomDb);
            calls := [RoomStatus(ev.room.value.name, "close")];
          }
        case "participant_joined" =>
          if ev.participant.Some? && ev.room.Some? {
            ignored := userService.UpdateUserStatus(ev.room.value.name, ev.participant.value.identity, "connect", userDb);
            calls := [UserStatus(ev.room.value.name, ev.participant.value.identity, "connect")];
          }
        case "participant_left" =>
          if ev.participant.Some? && ev.room.Some? {
            ignored := userService.UpdateUserStatus(ev.room.value.name, ev.participant.value.identity, "disconnect", userDb);
            calls := [UserStatus(ev.room.value.name, ev.participant.value.identity, "disconnect")];
          }
        case "egress_ended" =>
          if ev.egressInfo.Some? {
            calls := EgressEnded(ev.egressInfo.value, now, roomDb, recordDb);
            EgressSkipsUsers(ev.egressInfo.value, old(userService.userRepo.rows), userDb);
          }
        case _ =>
      }
      resp := Response(200, "");
    }
  }
}
