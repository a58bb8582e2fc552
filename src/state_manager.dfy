/** Per-connection session records, kept in the Redis state database when Redis is configured
    and in a process-local map otherwise (internal/socket/state_manager.go). */
module StateManager {
  import opened Wrappers
  import opened Text
  import Tables
  import opened Glob

  datatype SocketState = SocketState(socketId: string, room: string, identity: string,
                                     userName: string, userType: string, createdAt: string)

  /** Key of a session in the local map. */
  function LocalKey(room: string, identity: string): string
  {
    room + ":" + identity
  }

  const SessionPrefix := "socket:session:"
  /** Expiry given to every session key: 24 hours. */
  const SessionTtlSeconds := 24 * 60 * 60

  /** Key of a session in Redis. */
  function RedisKey(room: string, identity: string): string
  {
    SessionPrefix + room + ":" + identity
  }

  /** The keys of a room's sessions all start with `socket:session:<room>:`. */
  function RoomKeyPrefix(room: string): string
  {
    SessionPrefix + room + ":"
  }

  /** The KEYS pattern of a room's sessions, `socket:session:<room>:*`. The room text goes into
      the pattern unescaped, so glob characters in it act as glob characters. */
  function RoomPattern(room: string): string
  {
    RoomKeyPrefix(room) + "*"
  }

  /** The KEYS pattern of every session, `socket:session:*`. */
  const SessionPattern := SessionPrefix + "*"

  lemma SessionPrefixIsLiteral()
    ensures Literal(SessionPrefix)
  {
  }

  /** Every session key lies under the session pattern and under its room's key prefix, and
      what follows that prefix is the identity; when the room holds no glob character the key
      also matches its room's pattern. */
  lemma RedisKeyInRoomPattern(room: string, identity: string)
    ensures HasPrefix(RedisKey(room, identity), RoomKeyPrefix(room))
    ensures TrimPrefix(RedisKey(room, identity), RoomKeyPrefix(room)) == identity
    ensures Match(SessionPattern, RedisKey(room, identity))
    ensures Literal(room) ==> Match(RoomPattern(room), RedisKey(room, identity))
  {
    assert RedisKey(room, identity) == RoomKeyPrefix(room) + identity;
    assert RedisKey(room, identity) == SessionPrefix + (room + ":" + identity);
    SessionPrefixIsLiteral();
    LiteralStarIsPrefix(SessionPrefix, RedisKey(room, identity));
    if Literal(room) {
      RoomKeyPrefixIsLiteral(room);
      LiteralStarIsPrefix(RoomKeyPrefix(room), RedisKey(room, identity));
    }
  }

  lemma RoomKeyPrefixIsLiteral(room: string)
    requires Literal(room)
    ensures Literal(RoomKeyPrefix(room))
  {
    var t := RoomKeyPrefix(room);
    forall i | 0 <= i < |t| ensures !IsMeta(t[i]) {
      if i < |SessionPrefix| {
        assert t[i] == SessionPrefix[i];
      } else if i < |SessionPrefix| + |room| {
        assert t[i] == room[i - |SessionPrefix|];
      } else {
        assert t[i] == ':';
      }
    }
  }

  /** For a room without glob characters, its pattern selects exactly the keys under its
      key prefix. */
  lemma RoomPatternIsPrefix(room: string, k: string)
    requires Literal(room)
    ensures Match(RoomPattern(room), k) <==> HasPrefix(k, RoomKeyPrefix(room))
  {
    RoomKeyPrefixIsLiteral(room);
    LiteralStarIsPrefix(RoomKeyPrefix(room), k);
  }

  /** The session pattern selects exactly the keys under the session prefix. */
  lemma SessionPatternIsPrefix(k: string)
    ensures Match(SessionPattern, k) <==> HasPrefix(k, SessionPrefix)
  {
    SessionPrefixIsLiteral();
    LiteralStarIsPrefix(SessionPrefix, k);
  }

  /** The room text is not escaped: the pattern of room `[ab]` selects the sessions of room `a`
      and not the room's own. */
  lemma GlobRoomPattern(identity: string)
    ensures Match(RoomPattern("[ab]"), RedisKey("a", identity))
    ensures !Match(RoomPattern("[ab]"), RedisKey("[ab]", identity))
  {
    SessionPrefixIsLiteral();
    var p := "[ab]:*";
    assert RoomPattern("[ab]") == SessionPrefix + p;
    assert RedisKey("a", identity) == SessionPrefix + ("a:" + identity);
    assert RedisKey("[ab]", identity) == SessionPrefix + ("[ab]:" + identity);
    LiteralHead(SessionPrefix, p, "a:" + identity);
    LiteralHead(SessionPrefix, p, "[ab]:" + identity);
    assert Members("]:*", 'a') == ClassScan(false, ":*");
    assert Members("b]:*", 'a') == ClassScan(false, ":*");
    assert Class("ab]:*", 'a') == ClassScan(true, ":*");
    assert p[1..] == "ab]:*";
    StarMatchesAll(identity);
    assert (":" + identity)[1..] == identity;
    assert Match(":*", ":" + identity);
    assert ("a:" + identity)[1..] == ":" + identity;
    assert Match(p, "a:" + identity);
    assert Members("]:*", '[') == ClassScan(false, ":*");
    assert Members("b]:*", '[') == ClassScan(false, ":*");
    assert Class("ab]:*", '[') == ClassScan(false, ":*");
    assert !Match(p, "[ab]:" + identity);
  }

  datatype Ttl = NoExpiry | ExpiresIn(seconds: nat)

  /** A value in the state database: a session that decodes, or text that does not. */
  datatype Value = Session(state: SocketState) | Undecodable(text: string)

  datatype Entry = Entry(value: Value, ttl: Ttl)

  /** The error GET reports for a missing key. */
  const RedisNil := "redis: nil"
  const DecodeError := "invalid session JSON"

  ghost function LocalRoomKeys(local: map<string, SocketState>, keys: set<string>, room: string): set<string>
    requires keys <= local.Keys
  {
    set k | k in keys && local[k].room == room
  }

  /** Keys a Redis-mode scan reads successfully: matching `pattern`, readable, and decodable. */
  ghost function ReadableSessionKeys(remote: map<string, Entry>, keys: set<string>, pattern: string,
                                     getFailures: set<string>): set<string>
    requires keys <= remote.Keys
  {
    set k | k in keys && Match(pattern, k) && k !in getFailures && remote[k].value.Session?
  }

  ghost function UnexpiringSessionKeys(remote: map<string, Entry>, keys: set<string>,
                                       ttlFailures: set<string>): set<string>
    requires keys <= remote.Keys
  {
    set k | k in keys && Match(SessionPattern, k) && k !in ttlFailures && remote[k].ttl.NoExpiry?
  }

  /** The state database after the cleanup gave a 24-hour expiry to the keys in `fixed`. */
  function WithSessionTtl(remote: map<string, Entry>, fixed: set<string>): map<string, Entry>
  {
    map k | k in remote :: if k in fixed then Entry(remote[k].value, ExpiresIn(SessionTtlSeconds)) else remote[k]
  }

  lemma UnexpiringStep(remote: map<string, Entry>, done: set<string>, k: string, ttlFailures: set<string>)
    requires done <= remote.Keys && k in remote && k !in done && Match(SessionPattern, k)
    ensures UnexpiringSessionKeys(remote, done + {k}, ttlFailures) ==
      UnexpiringSessionKeys(remote, done, ttlFailures)
        + (if k !in ttlFailures && remote[k].ttl.NoExpiry? then {k} else {})
  {
  }

  lemma WithSessionTtlStep(remote: map<string, Entry>, fixed: set<string>, k: string, expireFailures: set<string>)
    requires k in remote && k !in expireFailures
    ensures WithSessionTtl(remote, (fixed + {k}) - expireFailures) ==
      WithSessionTtl(remote, fixed - expireFailures)[k := Entry(remote[k].value, ExpiresIn(SessionTtlSeconds))]
  {
    assert (fixed + {k}) - expireFailures == (fixed - expireFailures) + {k};
  }

  lemma WithSessionTtlUntouched(remote: map<string, Entry>, fixed: set<string>, k: string)
    requires k in remote && k !in fixed
    ensures k in WithSessionTtl(remote, fixed) && WithSessionTtl(remote, fixed)[k] == remote[k]
  {
  }

  /** One iteration of the cleanup: query the TTL of `k` and, when it has none, set it. */
  method ExpireKey(ghost start: map<string, Entry>, store: map<string, Entry>, ghost fixed: set<string>,
                   cleaned: nat, k: string, ttlFailures: set<string>, expireFailures: set<string>)
    returns (store': map<string, Entry>, ghost fixed': set<string>, cleaned': nat)
    requires k in start && k !in fixed
    requires store == WithSessionTtl(start, fixed - expireFailures)
    requires cleaned == |fixed|
    ensures fixed' == fixed + (if k !in ttlFailures && start[k].ttl.NoExpiry? then {k} else {})
    ensures cleaned' == |fixed'|
    ensures store' == WithSessionTtl(start, fixed' - expireFailures)
  {
    WithSessionTtlUntouched(start, fixed - expireFailures, k);
    store', fixed', cleaned' := store, fixed, cleaned;
    if k !in ttlFailures && store[k].ttl.NoExpiry? {
      if k !in expireFailures {
        WithSessionTtlStep(start, fixed, k, expireFailures);
        store' := store[k := Entry(store[k].value, ExpiresIn(SessionTtlSeconds))];
      } else {
        assert (fixed + {k}) - expireFailures == fixed - expireFailures;
      }
      cleaned' := cleaned + 1;
      fixed' := fixed + {k};
    }
  }

  /** The loop of the cleanup over the session keys found by KEYS. */
  method ExpireSessionKeys(start: map<string, Entry>, keys: set<string>, ttlFailures: set<string>,
                           expireFailures: set<string>)
    returns (store: map<string, Entry>, cleaned: nat)
    requires keys <= start.Keys
    requires forall k :: k in keys ==> Match(SessionPattern, k)
    ensures cleaned == |UnexpiringSessionKeys(start, keys, ttlFailures)|
    ensures store == WithSessionTtl(start, UnexpiringSessionKeys(start, keys, ttlFailures) - expireFailures)
  {
    store := start;
    ghost var fixed: set<string> := {};
    cleaned := 0;
    var rest := keys;
    assert store == WithSessionTtl(start, fixed - expireFailures);
    while rest != {}
      invariant rest <= keys
      invariant fixed == UnexpiringSessionKeys(start, keys - rest, ttlFailures)
      invariant cleaned == |fixed|
      invariant store == WithSessionTtl(start, fixed - expireFailures)
      decreases |rest|
    {
      var k :| k in rest;
      UnexpiringStep(start, keys - rest, k, ttlFailures);
      store, fixed, cleaned := ExpireKey(start, store, fixed, cleaned, k, ttlFailures, expireFailures);
      assert keys - (rest - {k}) == (keys - rest) + {k};
      rest := rest - {k};
    }
    assert keys - rest == keys;
  }

  class SocketStateManager {
    const redisConfigured: bool
    /** The fallback store, used only when Redis is not configured. */
    var local: map<string, SocketState>
    /** The Redis state database. */
    var remote: map<string, Entry>

    constructor (redisConfigured: bool, remote: map<string, Entry>)
      ensures this.redisConfigured == redisConfigured && this.remote == remote && local == map[]
    {
      this.redisConfigured := redisConfigured;
      this.remote := remote;
      local := map[];
    }

    /** Stores a session under its room and identity. `reply` is the Redis server's answer to SET. */
    method SetUserSession(room: string, identity: string, state: SocketState, reply: Outcome)
      returns (err: Error)
      modifies this`local, this`remote
      ensures !redisConfigured ==>
        err == None && local == old(local)[LocalKey(room, identity) := state] && remote == old(remote)
      ensures redisConfigured ==> err == ErrorOf(reply) && local == old(local)
      ensures redisConfigured && reply.Success? ==>
        remote == old(remote)[RedisKey(room, identity) := Entry(Session(state), ExpiresIn(SessionTtlSeconds))]
      ensures redisConfigured && reply.Failure? ==> remote == old(remote)
    {
      if !redisConfigured {
        local := local[LocalKey(room, identity) := state];
        return None;
      }
      if reply.Success? {
        remote := remote[RedisKey(room, identity) := Entry(Session(state), ExpiresIn(SessionTtlSeconds))];
      }
      return ErrorOf(reply);
    }

    /** Looks a session up. Locally a missing session is no session and no error; in Redis a
        missing key, an unreachable server and a value that does not decode are errors. */
    method GetUserSession(room: string, identity: string, reply: Outcome)
      returns (r: Result<Option<SocketState>>)
      ensures !redisConfigured ==>
        r == Ok(if LocalKey(room, identity) in local then Some(local[LocalKey(room, identity)]) else None)
      ensures redisConfigured && reply.Failure? ==> r == Err(reply.message)
      ensures redisConfigured && reply.Success? ==>
        var key := RedisKey(room, identity);
        r == (if key !in remote then Err(RedisNil)
              else if remote[key].value.Undecodable? then Err(DecodeError)
              else Ok(Some(remote[key].value.state)))
      ensures r.Ok? && redisConfigured ==> r.value.Some?
    {
      if !redisConfigured {
        var key := LocalKey(room, identity);
        if key in local {
          return Ok(Some(local[key]));
        }
        return Ok(None);
      }
      var key := RedisKey(room, identity);
      if reply.Failure? {
        return Err(reply.message);
      }
      if key !in remote {
        return Err(RedisNil);
      }
      match remote[key].value
      case Undecodable(_) => return Err(DecodeError);
      case Session(state) => return Ok(Some(state));
    }

    method RemoveUserSession(room: string, identity: string, reply: Outcome) returns (err: Error)
      modifies this`local, this`remote
      ensures !redisConfigured ==>
        err == None && local == old(local) - {LocalKey(room, identity)} && remote == old(remote)
      ensures redisConfigured ==> err == ErrorOf(reply) && local == old(local)
      ensures redisConfigured && reply.Success? ==> remote == old(remote) - {RedisKey(room, identity)}
      ensures redisConfigured && reply.Failure? ==> remote == old(remote)
    {
      if !redisConfigured {
        local := local - {LocalKey(room, identity)};
        return None;
      }
      if reply.Success? {
        remote := remote - {RedisKey(room, identity)};
      }
      return ErrorOf(reply);
    }

    /** The local sessions whose own room field is `room`, one entry per stored key. */
    method LocalRoomSessions(room: string) returns (sessions: seq<SocketState>)
      ensures forall s :: s in sessions <==> s in local.Values && s.room == room
      ensures |sessions| == |LocalRoomKeys(local, local.Keys, room)|
    {
      sessions := [];
      var rest := local.Keys;
      while rest != {}
        invariant rest <= local.Keys
        invariant forall s :: s in sessions <==>
          exists k :: k in local.Keys - rest && local[k] == s && s.room == room
        invariant |sessions| == |LocalRoomKeys(local, local.Keys - rest, room)|
        decreases |rest|
      {
        var k :| k in rest;
        ghost var before := LocalRoomKeys(local, local.Keys - rest, room);
        if local[k].room == room {
          sessions := sessions + [local[k]];
          assert LocalRoomKeys(local, local.Keys - (rest - {k}), room) == before + {k};
        } else {
          assert LocalRoomKeys(local, local.Keys - (rest - {k}), room) == before;
        }
        rest := rest - {k};
      }
      assert local.Keys - rest == local.Keys;
    }

    /** The sessions stored under a key matching `socket:session:<room>:*`, skipping keys whose
        GET fails (`getFailures`) or whose value does not decode. */
    method RedisRoomSessions(room: string, getFailures: set<string>) returns (sessions: seq<SocketState>)
      ensures forall s :: s in sessions <==>
        exists k :: k in ReadableSessionKeys(remote, remote.Keys, RoomPattern(room), getFailures)
                    && remote[k].value == Session(s)
      ensures |sessions| == |ReadableSessionKeys(remote, remote.Keys, RoomPattern(room), getFailures)|
    {
      sessions := [];
      var rest := set k | k in remote && Match(RoomPattern(room), k);
      ghost var matching := rest;
      while rest != {}
        invariant rest <= matching
        invariant forall s :: s in sessions <==>
          exists k :: k in ReadableSessionKeys(remote, matching - rest, RoomPattern(room), getFailures)
                      && remote[k].value == Session(s)
        invariant |sessions| == |ReadableSessionKeys(remote, matching - rest, RoomPattern(room), getFailures)|
        decreases |rest|
      {
        var k :| k in rest;
        ghost var before := ReadableSessionKeys(remote, matching - rest, RoomPattern(room), getFailures);
        if k !in getFailures && remote[k].value.Session? {
          sessions := sessions + [remote[k].value.state];
          assert ReadableSessionKeys(remote, matching - (rest - {k}), RoomPattern(room), getFailures)
              == before + {k};
        } else {
          assert ReadableSessionKeys(remote, matching - (rest - {k}), RoomPattern(room), getFailures)
              == before;
        }
        rest := rest - {k};
      }
      assert matching - rest == matching;
      assert ReadableSessionKeys(remote, matching, RoomPattern(room), getFailures)
          == ReadableSessionKeys(remote, remote.Keys, RoomPattern(room), getFailures);
    }

    /** The sessions of a room. In Redis mode the KEYS scan can fail (`keysReply`), and then
        nothing is returned. */
    method GetRoomSessions(room: string, keysReply: Outcome, getFailures: set<string>)
      returns (sessions: seq<SocketState>, err: Error)
      ensures !redisConfigured ==> err == None
      ensures !redisConfigured ==> forall s :: s in sessions <==> s in local.Values && s.room == room
      ensures redisConfigured ==> err == ErrorOf(keysReply)
      ensures redisConfigured && keysReply.Failure? ==> sessions == []
      ensures redisConfigured && keysReply.Success? ==> forall s :: s in sessions <==>
        exists k :: k in ReadableSessionKeys(remote, remote.Keys, RoomPattern(room), getFailures)
                    && remote[k].value == Session(s)
    {
      if !redisConfigured {
        sessions := LocalRoomSessions(room);
        return sessions, None;
      }
      if keysReply.Failure? {
        return [], ErrorOf(keysReply);
      }
      sessions := RedisRoomSessions(room, getFailures);
      return sessions, None;
    }

    /** Gives a 24-hour expiry to every session key that has none. Keys whose TTL query fails
        (`ttlFailures`) are skipped; a failed EXPIRE (`expireFailures`) is ignored but the key is
        still counted in `cleaned`, the number the cleanup logs. */
    method CleanupExpiredData(keysReply: Outcome, ttlFailures: set<string>, expireFailures: set<string>)
      returns (err: Error, cleaned: nat)
      modifies this`remote
      ensures !redisConfigured ==> err == None && cleaned == 0 && remote == old(remote)
      ensures redisConfigured && keysReply.Failure? ==>
        err == ErrorOf(keysReply) && cleaned == 0 && remote == old(remote)
      ensures redisConfigured && keysReply.Success? ==>
        err == None &&
        cleaned == |UnexpiringSessionKeys(old(remote), old(remote).Keys, ttlFailures)| &&
        remote == WithSessionTtl(old(remote),
                                 UnexpiringSessionKeys(old(remote), old(remote).Keys, ttlFailures) - expireFailures)
    {
      if !redisConfigured {
        return None, 0;
      }
      if keysReply.Failure? {
        return ErrorOf(keysReply), 0;
      }
      var keys := set k | k in remote && Match(SessionPattern, k);
      var store;
      store, cleaned := ExpireSessionKeys(remote, keys, ttlFailures, expireFailures);
      assert UnexpiringSessionKeys(remote, keys, ttlFailures)
          == UnexpiringSessionKeys(remote, remote.Keys, ttlFailures);
      remote := store;
      return None, cleaned;
    }

    /** The Room fields of the local sessions. */
    method LocalRoomSet() returns (roomSet: set<string>)
      ensures forall r :: r in roomSet <==> exists s :: s in local.Values && s.room == r
    {
      roomSet := {};
      var rest := local.Keys;
      while rest != {}
        invariant rest <= local.Keys
        invariant forall r :: r in roomSet <==> exists k :: k in local.Keys - rest && local[k].room == r
        decreases |rest|
      {
        var k :| k in rest;
        roomSet := roomSet + {local[k].room};
        rest := rest - {k};
      }
      assert local.Keys - rest == local.Keys;
    }

    /** The Room fields read from the readable, decodable values under the session pattern. */
    method RedisRoomSet(getFailures: set<string>) returns (roomSet: set<string>)
      ensures forall r :: r in roomSet <==>
        exists k :: k in ReadableSessionKeys(remote, remote.Keys, SessionPattern, getFailures)
                    && remote[k].value.state.room == r
    {
      roomSet := {};
      var rest := set k | k in remote && Match(SessionPattern, k);
      ghost var matching := rest;
      while rest != {}
        invariant rest <= matching
        invariant forall r :: r in roomSet <==>
          exists k :: k in ReadableSessionKeys(remote, matching - rest, SessionPattern, getFailures)
                      && remote[k].value.state.room == r
        decreases |rest|
      {
        var k :| k in rest;
        ghost var before := ReadableSessionKeys(remote, matching - rest, SessionPattern, getFailures);
        if k !in getFailures && remote[k].value.Session? {
          roomSet := roomSet + {remote[k].value.state.room};
          assert ReadableSessionKeys(remote, matching - (rest - {k}), SessionPattern, getFailures) == before + {k};
        } else {
          assert ReadableSessionKeys(remote, matching - (rest - {k}), SessionPattern, getFailures) == before;
        }
        rest := rest - {k};
      }
      assert ReadableSessionKeys(remote, matching, SessionPattern, getFailures)
          == ReadableSessionKeys(remote, remote.Keys, SessionPattern, getFailures);
    }

    /** The distinct rooms that have a session. In Redis mode the room is read from each
        readable, decodable session value, not from its key. */
    method GetActiveRooms(keysReply: Outcome, getFailures: set<string>) returns (rooms: seq<string>, err: Error)
      ensures forall i, j :: 0 <= i < j < |rooms| ==> rooms[i] != rooms[j]
      ensures !redisConfigured ==> err == None
      ensures !redisConfigured ==> forall r :: r in rooms <==> exists s :: s in local.Values && s.room == r
      ensures redisConfigured ==> err == ErrorOf(keysReply)
      ensures redisConfigured && keysReply.Failure? ==> rooms == []
      ensures redisConfigured && keysReply.Success? ==> forall r :: r in rooms <==>
        exists k :: k in ReadableSessionKeys(remote, remote.Keys, SessionPattern, getFailures)
                    && remote[k].value.state.room == r
    {
      if !redisConfigured {
        var roomSet := LocalRoomSet();
        rooms := Tables.SetToSeq(roomSet);
        return rooms, None;
      }
      if keysReply.Failure? {
        return [], ErrorOf(keysReply);
      }
      var roomSet := RedisRoomSet(getFailures);
      rooms := Tables.SetToSeq(roomSet);
      return rooms, None;
    }
  }
}
