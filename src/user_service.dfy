/** User creation, LiveKit access grants and participant removal
    (internal/service/user_service.go). Token signing and LiveKit's participant API are oracles
    whose answers the caller supplies. */
module UserService {
  import opened Wrappers
  import opened Text
  import opened Helpers
  import opened Tables
  import opened Sql
  import opened UserRepo

  const ErrLiveKitNotConfigured := "LiveKit not configured"
  /** 24 hours, in seconds. */
  const TokenTtlSeconds := 24 * 60 * 60
  const DefaultColor := "#000000"

  /** The LiveKit video grant; `None` is a permission left unset. */
  datatype VideoGrant = VideoGrant(roomJoin: bool, room: string, roomAdmin: bool,
                                   canPublish: Option<bool>, canPublishData: Option<bool>)

  /** What is handed to LiveKit for signing. */
  datatype TokenRequest = TokenRequest(identity: string, name: string, room: string, grant: VideoGrant,
                                       metadata: string, ttlSeconds: int)

  /** The grant for a user type. */
  function GrantFor(userType: string, room: string): (g: VideoGrant)
    ensures g.roomJoin && g.room == room
    ensures g.canPublish.Some? && g.canPublishData.Some?
    ensures g.roomAdmin <==> userType == "admin" || userType == "host"
    ensures g.canPublish.value <==> userType != "viewer"
    ensures g.canPublishData == g.canPublish
  {
    if userType == "admin" || userType == "host" then VideoGrant(true, room, true, Some(true), Some(true))
    else if userType == "viewer" then VideoGrant(true, room, false, Some(false), Some(false))
    else VideoGrant(true, room, false, Some(true), Some(true))
  }

  /** Viewers can neither publish nor administer; every other type can publish. */
  lemma ViewerOnlyWatches(room: string)
    ensures var g := GrantFor("viewer", room); !g.roomAdmin && g.canPublish == Some(false) && g.canPublishData == Some(false)
    ensures forall t :: t != "viewer" ==> GrantFor(t, room).canPublish == Some(true)
  {
  }

  datatype GenerateUserOptions = GenerateUserOptions(linkId: string, room: string, userName: string,
                                                     userType: string, userAgent: string, serviceId: int)

  datatype GenerateUserResult = GenerateUserResult(token: string, identity: string, room: string, url: string,
                                                   userName: string, color: string)

  class UserService {
    const userRepo: UserRepository
    const rng: Rand
    /** Whether the LiveKit manager exists, and whether its room client does. */
    const liveKitPresent: bool
    const roomClientPresent: bool
    const liveKitHost: string

    constructor (userRepo: UserRepository, rng: Rand, liveKitPresent: bool, roomClientPresent: bool, liveKitHost: string)
      ensures this.userRepo == userRepo && this.rng == rng
      ensures this.liveKitPresent == liveKitPresent && this.roomClientPresent == roomClientPresent
      ensures this.liveKitHost == liveKitHost
    {
      this.userRepo := userRepo;
      this.rng := rng;
      this.liveKitPresent := liveKitPresent;
      this.roomClientPresent := roomClientPresent;
      this.liveKitHost := liveKitHost;
    }

    /** Builds the grant for the user type and asks LiveKit to sign it for 24 hours; `signed` is
        what signing returns. */
    method GenerateLiveKitToken(identity: string, name: string, room: string, userType: string, signed: Result<string>)
      returns (token: Result<string>, ghost request: Option<TokenRequest>)
      ensures !liveKitPresent ==> token == Err(ErrLiveKitNotConfigured) && request.None?
      ensures liveKitPresent ==>
        token == signed && request == Some(TokenRequest(identity, name, room, GrantFor(userType, room), "", TokenTtlSeconds))
    {
      if !liveKitPresent {
        return Err(ErrLiveKitNotConfigured), None;
      }
      request := Some(TokenRequest(identity, name, room, GrantFor(userType, room), "", TokenTtlSeconds));
      token := signed;
    }

    /** A new identity, a palette color (black when the lookup fails), the given name or a
        generated guest name, a `connect` row, then a token. */
    method GenerateUser(opts: GenerateUserOptions, colorPick: nat, colorDb: Outcome, now: string, addDb: Outcome,
                        signed: Result<string>)
      returns (result: Result<GenerateUserResult>, ghost request: Option<TokenRequest>)
      requires userRepo.Valid()
      modifies userRepo, rng
      ensures userRepo.Valid()
      ensures addDb.Failure? ==>
        result == Err(Wrap("add user", addDb).value) && request.None? && userRepo.rows == old(userRepo.rows)
      ensures addDb.Success? ==>
        |userRepo.rows| == |old(userRepo.rows)| + 1 && userRepo.rows[..|old(userRepo.rows)|] == old(userRepo.rows)
      ensures addDb.Success? ==>
        var u := userRepo.rows[|userRepo.rows| - 1];
        && u.status == Some("connect") && u.socketId == Some("") && u.conference == Some(0)
        && u.room == Some(opts.room) && u.userType == Some(opts.userType)
        && (colorDb.Failure? || userRepo.colors == [] ==> u.color == Some(DefaultColor))
        && (colorDb.Success? && userRepo.colors != [] ==> u.color.Some? && u.color.value in userRepo.colors)
        && (opts.userName != "" ==> u.userName == Some(opts.userName))
        && (opts.userName == "" ==> exists n :: 0 <= n < 100 && u.userName == Some("Guest-" + Decimal(n)))
        && u.identity.Some? && |u.identity.value| == 10
      ensures addDb.Failure? ==> userRepo.nextId == old(userRepo.nextId)
      ensures addDb.Success? ==>
        var u := userRepo.rows[|userRepo.rows| - 1];
        && u.id == old(userRepo.nextId) && userRepo.nextId == old(userRepo.nextId) + 1
        && u.userAgent == Some(opts.userAgent) && u.dtmCreated == Some(now) && u.dtmUpdated == now
        && u.identity.Some? && u.userName.Some? && u.color.Some?
        && userRepo.rows == old(userRepo.rows) + [Inserted(old(userRepo.nextId),
             AddUserParams(opts.room, u.identity.value, u.userName.value, opts.userType, "connect", "",
                           u.color.value, 0, opts.userAgent), now)]
      ensures addDb.Success? && !liveKitPresent ==> result == Err(ErrLiveKitNotConfigured)
      ensures addDb.Success? && liveKitPresent && signed.Err? ==> result == Err(signed.error)
      ensures result.Ok? ==>
        var u := userRepo.rows[|userRepo.rows| - 1];
        && result.value.token == signed.value && result.value.url == liveKitHost && result.value.room == opts.room
        && Some(result.value.identity) == u.identity && Some(result.value.userName) == u.userName
        && Some(result.value.color) == u.color
        && request == Some(TokenRequest(result.value.identity, result.value.userName, opts.room,
             GrantFor(opts.userType, opts.room), "", TokenTtlSeconds))
    {
      var identity := GenerateIdentity(rng);
      var found := userRepo.GetRandomColor(colorPick, colorDb);
      var color := if found.Ok? then found.value else DefaultColor;
      var userName := opts.userName;
      if userName == "" {
        userName := GenerateGuestName(rng);
      }
      var p := AddUserParams(opts.room, identity, userName, opts.userType, "connect", "", color, 0, opts.userAgent);
      var err := userRepo.AddUser(p, now, addDb);
      if err.Some? {
        return Err(err.value), None;
      }
      var token;
      token, request := GenerateLiveKitToken(identity, userName, opts.room, opts.userType, signed);
      if token.Err? {
        return Err(token.error), request;
      }
      result := Ok(GenerateUserResult(token.value, identity, opts.room, liveKitHost, userName, color));
    }

    /** Marks the user disconnected (ignoring a failed update), then asks LiveKit to remove the
        participant and returns LiveKit's answer, `removal`. */
    method RemoveParticipant(room: string, identity: string, statusDb: Outcome, removal: Error)
      returns (err: Error, ghost removed: bool)
      requires userRepo.Valid()
      modifies userRepo`rows
      ensures userRepo.Valid()
      ensures !(liveKitPresent && roomClientPresent) ==>
        err == Some(ErrLiveKitNotConfigured) && !removed && userRepo.rows == old(userRepo.rows)
      ensures liveKitPresent && roomClientPresent ==> err == removal && removed
      ensures liveKitPresent && roomClientPresent ==>
        userRepo.rows == if statusDb.Success? then WithUserStatus(old(userRepo.rows), room, identity, "disconnect")
                            else old(userRepo.rows)
    {
      if !(liveKitPresent && roomClientPresent) {
        return Some(ErrLiveKitNotConfigured), false;
      }
      var _ := userRepo.UpdateUserStatus(room, identity, "disconnect", statusDb);
      err, removed := removal, true;
    }

    /** A pass-through to the repository: a missing user is `(nil, nil)`, never `ErrUserNotFound`. */
    method GetUserDetail(room: string, identity: string, socketId: string, db: Outcome)
      returns (user: Option<RoomUser>, err: Error)
      ensures DetailQueryFor(room, identity, socketId).None? ==> user.None? && err == Some(ErrInvalidDetailParams)
      ensures user.Some? ==> err.None?
      ensures db.Success? && DetailQueryFor(room, identity, socketId).Some? ==> err.None?
      ensures db.Success? && DetailQueryFor(room, identity, socketId).Some? ==>
        var found := FirstWhere(userRepo.rows, DetailMatch(DetailQueryFor(room, identity, socketId).value));
        user == if found.Some? then Some(DetailView(found.value)) else None
    {
      user, err := userRepo.GetUserDetail(room, identity, socketId, db);
    }

    method UpdateUserStatus(room: string, identity: string, status: string, db: Outcome) returns (err: Error)
      requires userRepo.Valid()
      modifies userRepo`rows
      ensures userRepo.Valid()
      ensures err == Wrap("update user status", db)
      ensures userRepo.rows == if db.Success? then WithUserStatus(old(userRepo.rows), room, identity, status)
                               else old(userRepo.rows)
    {
      err := userRepo.UpdateUserStatus(room, identity, status, db);
    }
  }
}
