/** Recording admission and egress bookkeeping (internal/service/record_service.go). The
    LiveKit egress service is an oracle: the caller supplies what each of its calls returns, and
    the calls made are reported in a ghost trace. */
module RecordService {
  import opened Wrappers
  import opened Tables
  import opened Sql
  import opened RecordRepo
  import opened RoomRepo

  const ErrLiveKitNotConfigured := "LiveKit not configured"
  const ErrEgressLimit := "egress limit reached"

  datatype EgressStatus = Starting | Active | Ending | Complete | Failed | Aborted | LimitReached
  datatype EgressInfo = EgressInfo(egressId: string, status: EgressStatus)

  /** A call to the egress service. */
  datatype EgressCall = StartEgress(room: string, filePath: string) | ListEgress(room: string) | StopEgress(egressId: string)

  datatype StartRecordOptions = StartRecordOptions(room: string, recordType: string, filePath: string)

  /** Where the recording is written: the requested path, or `<RecordPath>/<room>.mp4`. */
  function RecordFilePath(recordPath: string, opts: StartRecordOptions): (path: string)
    ensures opts.filePath != "" ==> path == opts.filePath
    ensures opts.filePath == "" ==> path == recordPath + "/" + opts.room + ".mp4"
  {
    if opts.filePath == "" then recordPath + "/" + opts.room + ".mp4" else opts.filePath
  }

  /** The egresses `StopAllActiveRecords` stops, in listing order: the active ones whose stop
      call (`stopped(i)` for the i-th listed egress) succeeds. */
  function Stopped(egresses: seq<EgressInfo>, stopped: nat -> bool): seq<string>
  {
    if egresses == [] then []
    else
      var n := |egresses| - 1;
      Stopped(egresses[..n], stopped) + (if egresses[n].status == Active && stopped(n) then [egresses[n].egressId] else [])
  }

  /** The stop calls `StopAllActiveRecords` makes: one per active egress, in listing order. */
  function StopCalls(egresses: seq<EgressInfo>): seq<EgressCall>
  {
    if egresses == [] then []
    else
      var n := |egresses| - 1;
      StopCalls(egresses[..n]) + (if egresses[n].status == Active then [StopEgress(egresses[n].egressId)] else [])
  }

  /** A returned id belongs to an active egress whose stop succeeded, and every such egress's id
      is returned. */
  lemma {:induction false} StoppedMeaning(egresses: seq<EgressInfo>, stopped: nat -> bool)
    ensures forall id :: id in Stopped(egresses, stopped) <==>
      exists i :: 0 <= i < |egresses| && egresses[i].egressId == id && egresses[i].status == Active && stopped(i)
  {
    if egresses != [] {
      var n := |egresses| - 1;
      StoppedMeaning(egresses[..n], stopped);
      forall id
        ensures id in Stopped(egresses, stopped) <==>
          exists i :: 0 <= i < |egresses| && egresses[i].egressId == id && egresses[i].status == Active && stopped(i)
      {
        if id in Stopped(egresses[..n], stopped) {
          var i :| 0 <= i < n && egresses[..n][i].egressId == id && egresses[..n][i].status == Active && stopped(i);
          assert egresses[i] == egresses[..n][i];
        }
        if exists i :: 0 <= i < |egresses| && egresses[i].egressId == id && egresses[i].status == Active && stopped(i) {
          var i :| 0 <= i < |egresses| && egresses[i].egressId == id && egresses[i].status == Active && stopped(i);
          if i < n {
            assert egresses[..n][i] == egresses[i];
          }
        }
      }
    }
  }

  /** Only active egresses are ever stopped, so a listing with no active egress stops nothing. */
  lemma {:induction false} NoActiveNoStops(egresses: seq<EgressInfo>, stopped: nat -> bool)
    requires forall i :: 0 <= i < |egresses| ==> egresses[i].status != Active
    ensures StopCalls(egresses) == [] && Stopped(egresses, stopped) == []
  {
    if egresses != [] {
      NoActiveNoStops(egresses[..|egresses| - 1], stopped);
    }
  }

  class RecordService {
    const recordRepo: RecordRepository
    const roomRepo: RoomRepository
    /** Whether the LiveKit manager and its egress client exist. */
    const liveKitConfigured: bool
    const egressLimit: int
    const recordPath: string

    constructor (recordRepo: RecordRepository, roomRepo: RoomRepository, liveKitConfigured: bool,
                 egressLimit: int, recordPath: string)
      ensures this.recordRepo == recordRepo && this.roomRepo == roomRepo
      ensures this.liveKitConfigured == liveKitConfigured && this.egressLimit == egressLimit
      ensures this.recordPath == recordPath
    {
      this.recordRepo := recordRepo;
      this.roomRepo := roomRepo;
      this.liveKitConfigured := liveKitConfigured;
      this.egressLimit := egressLimit;
      this.recordPath := recordPath;
    }

    /** Check the egress limit, start the egress, then mark the room as recording and insert a
        `recording` row. `availability` is the count query's outcome, `started` what the egress
        service returns (its egress id), and the last three the outcomes of the writes, whose
        errors are ignored. */
    method StartRecord(opts: StartRecordOptions, availability: Outcome, started: Result<string>,
                       statusDb: Outcome, recordIdDb: Outcome, createDb: Outcome, now: string)
      returns (info: Result<string>, ghost calls: seq<EgressCall>)
      requires recordRepo.Valid() && roomRepo.Valid()
      modifies recordRepo, roomRepo
      ensures recordRepo.Valid() && roomRepo.Valid()
      ensures !liveKitConfigured ==> info == Err(ErrLiveKitNotConfigured) && calls == []
      ensures liveKitConfigured && availability.Failure? ==>
        info == Err(Wrap("check egress availability", availability).value) && calls == []
      ensures liveKitConfigured && availability.Success? && ActiveCount(old(recordRepo.rows)) >= egressLimit ==>
        info == Err(ErrEgressLimit) && calls == []
      ensures info.Ok? ==> liveKitConfigured && availability.Success? && ActiveCount(old(recordRepo.rows)) < egressLimit
      ensures liveKitConfigured && availability.Success? && ActiveCount(old(recordRepo.rows)) < egressLimit ==>
        calls == [StartEgress(opts.room, RecordFilePath(recordPath, opts))] && info == started
      ensures info.Err? ==> unchanged(recordRepo, roomRepo)
      ensures info.Ok? ==>
        var afterStatus := if statusDb.Success? then WithRecordStatus(old(roomRepo.rows), opts.room, 1) else old(roomRepo.rows);
        roomRepo.rows == (if recordIdDb.Success? then WithRecordId(afterStatus, opts.room, info.value) else afterStatus)
      ensures info.Ok? && createDb.Success? ==>
        recordRepo.rows == old(recordRepo.rows) + [RecordRepo.Inserted(old(recordRepo.nextId),
          CreateRecordParams(info.value, opts.room, "", RecordFilePath(recordPath, opts), 0, 0, opts.recordType,
            "recording", "", 0, ""), now)]
        && ActiveCount(recordRepo.rows) == ActiveCount(old(recordRepo.rows)) + 1 <= egressLimit
      ensures info.Ok? && createDb.Failure? ==> recordRepo.rows == old(recordRepo.rows)
    {
      calls := [];
      if !liveKitConfigured {
        return Err(ErrLiveKitNotConfigured), calls;
      }
      var available, err := recordRepo.CheckEgressAvailable(egressLimit, availability);
      if err.Some? {
        return Err(err.value), calls;
      }
      if !available {
        return Err(ErrEgressLimit), calls;
      }
      var filePath := RecordFilePath(recordPath, opts);
      calls := [StartEgress(opts.room, filePath)];
      if started.Err? {
        return started, calls;
      }
      var egressId := started.value;
      var _ := roomRepo.UpdateRecordStatus(opts.room, 1, statusDb);
      var _ := roomRepo.UpdateRecordID(opts.room, egressId, recordIdDb);
      var p := CreateRecordParams(egressId, opts.room, "", filePath, 0, 0, opts.recordType, "recording", "", 0, "");
      ghost var before := recordRepo.rows;
      var _, _ := recordRepo.Create(p, now, createDb);
      if createDb.Success? {
        InsertCountsActive(before, recordRepo.nextId - 1, p, now);
      }
      info := started;
    }

    /** Stop every active egress, carrying on past failed stops; returns the ids stopped.
        `listing` is what listing all egresses returns and `stopped(i)` whether stopping the
        i-th listed egress succeeds. */
    method StopAllActiveRecords(listing: Result<seq<EgressInfo>>, stopped: nat -> bool)
      returns (ids: Result<seq<string>>, ghost calls: seq<EgressCall>)
      ensures !liveKitConfigured ==> ids == Err(ErrLiveKitNotConfigured) && calls == []
      ensures liveKitConfigured && listing.Err? ==> ids == Err(listing.error) && calls == [ListEgress("")]
      ensures liveKitConfigured && listing.Ok? ==>
        ids == Ok(Stopped(listing.value, stopped)) && calls == [ListEgress("")] + StopCalls(listing.value)
    {
      calls := [];
      if !liveKitConfigured {
        return Err(ErrLiveKitNotConfigured), calls;
      }
      calls := [ListEgress("")];
      if listing.Err? {
        return Err(listing.error), calls;
      }
      var egresses := listing.value;
      var out: seq<string> := [];
      var i := 0;
      while i < |egresses|
        invariant 0 <= i <= |egresses|
        invariant out == Stopped(egresses[..i], stopped)
        invariant calls == [ListEgress("")] + StopCalls(egresses[..i])
      {
        assert egresses[..i + 1][..i] == egresses[..i];
        if egresses[i].status == Active {
          calls := calls + [StopEgress(egresses[i].egressId)];
          if stopped(i) {
            out := out + [egresses[i].egressId];
          }
        }
        i := i + 1;
      }
      assert egresses[..i] == egresses;
      ids := Ok(out);
    }

    method UpdateRecordByEgressID(egressId: string, fileName: string, filePath: string, status: string,
                                  fileSize: int, duration: int, now: string, db: Outcome) returns (err: Error)
      requires recordRepo.Valid()
      modifies recordRepo`rows
      ensures recordRepo.Valid()
      ensures err == Wrap("update record by egress ID", db)
      ensures recordRepo.rows == if db.Success? then Completed(old(recordRepo.rows), egressId, fileName, filePath, status, fileSize, duration, now)
                                 else old(recordRepo.rows)
    {
      err := recordRepo.UpdateByEgressID(egressId, fileName, filePath, status, fileSize, duration, now, db);
    }
  }
}
