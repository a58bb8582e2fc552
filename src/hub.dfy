/** The realtime hub: which namespaces exist, which handlers the Socket.IO server was given
    for them, and what each handler broadcasts and publishes (internal/socket/hub.go).
    The Socket.IO server itself is outside the model: handler registrations and broadcasts
    are recorded in ghost traces, in the order the hub issues them. */
module Hub {
  import opened Wrappers
  import opened Text
  import Tables
  import SC = SocketConstants
  import EM = EventManager
  import SM = StateManager

  /** The namespace of a room's sockets. */
  function RoomNamespace(room: string): string
  {
    "/" + room
  }

  /** The cross-instance handler a room namespace installs: it re-broadcasts into `room`
      of `namespace` on this instance. */
  datatype RoomRelay = RoomRelay(namespace: string, room: string)

  /** The client event a cross-instance event becomes when it is relayed; queue updates and
      new cases are not relayed. */
  function ClientEventFor(event: EM.EventType): (name: Option<string>)
    ensures event == EM.EventUserDisconnect <==> name == Some(SC.UserDisconnect)
    ensures event == EM.EventUserConnect <==> name == Some(SC.UserConnection)
    ensures event == EM.EventCarPosition <==> name == Some(SC.AgentCar)
    ensures event == EM.EventChatMessage <==> name == Some(SC.ChatMessage)
    ensures event == EM.EventRoomRecord <==> name == Some(SC.RoomRecord)
    ensures event == EM.EventQueueUpdate || event == EM.EventNewCase ==> name == None
  {
    if event == EM.EventUserDisconnect then Some("user-disconnect")
    else if event == EM.EventUserConnect then Some("user-connection")
    else if event == EM.EventCarPosition then Some("agentCar")
    else if event == EM.EventChatMessage then Some("chat-message")
    else if event == EM.EventRoomRecord then Some("room-record")
    else None
  }

  /** A `BroadcastToRoom(namespace, room, event, data)` call on the Socket.IO server. */
  datatype Broadcast = Broadcast(namespace: string, room: string, event: string, data: EM.Data)

  /** What the hub asks of the outside world, in order. */
  datatype Effect =
    | Broadcasted(broadcast: Broadcast)
    | Published(namespace: string, event: EM.EventType, data: EM.Data)

  /** A handler given to the Socket.IO server. */
  datatype Registration =
    | OnConnect(namespace: string)
    | OnEvent(namespace: string, event: string)
    | OnError(namespace: string)
    | OnDisconnect(namespace: string)

  /** The context a connection carries: none yet, a session record, or something else
      (the default namespace stores an empty string, the mobile namespace a task map). */
  datatype ConnContext = NoContext | SessionContext(state: SM.SocketState) | OtherContext(value: string)

  /** The client events a room namespace listens for, in registration order. */
  const RoomEvents: seq<string> := [
    SC.JoinChat, SC.ChatMessage, SC.GetChatHistory, SC.UserPosition, SC.Position,
    SC.GetUserDetail, SC.GetUserList, SC.UpdateUsername, SC.UserConference,
    SC.AuthJoinConference, SC.AuthJoinConferenceAnswer, SC.RoomRecord, SC.CaseData]

  function OnEvents(namespace: string, events: seq<string>): (r: seq<Registration>)
    ensures |r| == |events|
    ensures forall i :: 0 <= i < |events| ==> r[i] == OnEvent(namespace, events[i])
  {
    if events == [] then [] else [OnEvent(namespace, events[0])] + OnEvents(namespace, events[1..])
  }

  /** Everything `InitRoomNamespace` gives the server for one room namespace. */
  function RoomRegistrations(namespace: string): seq<Registration>
  {
    [OnConnect(namespace)] + OnEvents(namespace, RoomEvents) + [OnDisconnect(namespace)]
  }

  /** A room namespace gets its connect handler first and its disconnect handler last, and in
      between a handler for exactly the room events, all under that namespace. */
  lemma RoomRegistrationsCoverRoomEvents(namespace: string)
    ensures RoomRegistrations(namespace)[0] == OnConnect(namespace)
    ensures RoomRegistrations(namespace)[|RoomRegistrations(namespace)| - 1] == OnDisconnect(namespace)
    ensures forall e :: OnEvent(namespace, e) in RoomRegistrations(namespace) <==> e in RoomEvents
  {
    var regs := RoomRegistrations(namespace);
    var events := OnEvents(namespace, RoomEvents);
    assert regs == [OnConnect(namespace)] + events + [OnDisconnect(namespace)];
    forall e | OnEvent(namespace, e) in regs
      ensures e in RoomEvents
    {
      var k :| 0 <= k < |regs| && regs[k] == OnEvent(namespace, e);
      assert 0 < k < |regs| - 1;
      assert regs[k] == events[k - 1];
    }
    forall e | e in RoomEvents
      ensures OnEvent(namespace, e) in regs
    {
      var k :| 0 <= k < |RoomEvents| && RoomEvents[k] == e;
      assert regs[k + 1] == events[k];
    }
  }

  const MobileNamespace := "/mobile"
  const QueueNamespace := "/queue"
  const NewQueueNamespace := "/newqueue"
  const NotificationNamespace := "/notification"

  /** What `Start` registers, namespace by namespace in the order it initialises them. */
  const FixedRegistrations: seq<Registration> :=
    [OnConnect(MobileNamespace), OnEvent(MobileNamespace, "location"), OnDisconnect(MobileNamespace)] +
    [OnConnect(QueueNamespace), OnEvent(QueueNamespace, "queue"), OnDisconnect(QueueNamespace)] +
    [OnConnect(NewQueueNamespace), OnEvent(NewQueueNamespace, "queue"),
     OnEvent(NewQueueNamespace, "case-data"), OnDisconnect(NewQueueNamespace)] +
    [OnConnect(NotificationNamespace), OnEvent(NotificationNamespace, "all"),
     OnEvent(NotificationNamespace, "unread"), OnEvent(NotificationNamespace, "new"),
     OnDisconnect(NotificationNamespace)]

  /** The broadcast a fixed (roomless) namespace makes when a client sends `event` to it,
      if it listens for that event. Each such namespace broadcasts into one room named
      after itself, with the event name unchanged. */
  function FixedNamespaceBroadcast(namespace: string, event: string, data: EM.Data): (b: Option<Broadcast>)
    ensures b.Some? <==>
      (namespace == QueueNamespace && event == "queue") ||
      (namespace == NewQueueNamespace && (event == "queue" || event == "case-data")) ||
      (namespace == NotificationNamespace && (event == "all" || event == "unread" || event == "new"))
    ensures b.Some? ==> b.value.namespace == namespace && b.value.event == event && b.value.data == data
    ensures b.Some? ==> "/" + b.value.room == namespace
  {
    if namespace == QueueNamespace && event == "queue" then
      Some(Broadcast(namespace, "queue", event, data))
    else if namespace == NewQueueNamespace && (event == "queue" || event == "case-data") then
      Some(Broadcast(namespace, "newqueue", event, data))
    else if namespace == NotificationNamespace && (event == "all" || event == "unread" || event == "new") then
      Some(Broadcast(namespace, "notification", event, data))
    else None
  }

  /** The broadcasts a relayed cross-instance event causes on this instance. */
  function RelayBroadcasts(relay: RoomRelay, event: EM.EventType, data: EM.Data): (r: seq<Effect>)
    ensures |r| <= 1
    ensures r == [] <==> ClientEventFor(event).None?
    ensures r != [] ==> r[0].Broadcasted? && r[0].broadcast.namespace == relay.namespace
                        && r[0].broadcast.room == relay.room && r[0].broadcast.data == data
  {
    match ClientEventFor(event)
    case None => []
    case Some(name) => [Broadcasted(Broadcast(relay.namespace, relay.room, name, data))]
  }

  /** The payload of the as-written connection broadcast cannot reach its room: the broadcast
      names the namespace `room`, whereas the room's sockets live in `"/" + room`. Every
      namespace the hub registers begins with a slash. */
  lemma ConnectionBroadcastNamespaceUnregistered(namespaces: set<string>, room: string)
    requires forall ns :: ns in namespaces ==> HasPrefix(ns, "/")
    requires !HasPrefix(room, "/")
    ensures room != RoomNamespace(room)
    ensures room !in namespaces
  {
    assert |RoomNamespace(room)| == |room| + 1;
  }

  class Hub {
    var namespaces: set<string>
    const eventMgr: EM.CrossInstanceEventManager<RoomRelay>
    const stateMgr: SM.SocketStateManager
    /** Closed `done` channel: the hub was stopped. */
    var stopped: bool
    ghost var registrations: seq<Registration>
    ghost var effects: seq<Effect>

    /** Every registered namespace begins with a slash. */
    predicate Valid()
      reads this
    {
      forall ns :: ns in namespaces ==> HasPrefix(ns, "/")
    }

    /** Creates the server's hub: initializes the event manager and registers the default
        namespace handlers; no namespace is in the set yet. */
    constructor (redisConfigured: bool, adapterAvailable: bool, remote: map<string, SM.Entry>)
      ensures Valid() && namespaces == {} && !stopped
      ensures fresh(eventMgr) && fresh(stateMgr)
      ensures eventMgr.initialized && eventMgr.handlers == map[]
      ensures eventMgr.subscribed == (redisConfigured && adapterAvailable)
      ensures eventMgr.redisConfigured == redisConfigured && eventMgr.adapterAvailable == adapterAvailable
      ensures !eventMgr.cancelled && eventMgr.published == []
      ensures stateMgr.redisConfigured == redisConfigured && stateMgr.remote == remote && stateMgr.local == map[]
      ensures registrations == [OnConnect("/"), OnError("/"), OnDisconnect("/")]
      ensures effects == []
    {
      eventMgr := new EM.CrossInstanceEventManager(redisConfigured, adapterAvailable);
      stateMgr := new SM.SocketStateManager(redisConfigured, remote);
      namespaces := {};
      stopped := false;
      effects := [];
      new;
      var _ := eventMgr.Initialize();
      registrations := [OnConnect("/"), OnError("/"), OnDisconnect("/")];
    }

    /** Registers a room's namespace `"/" + room` once: its connect, event and disconnect
        handlers and its cross-instance relay, keyed by the bare room name. */
    method InitRoomNamespace(room: string)
      requires Valid()
      modifies this`namespaces, this`registrations, eventMgr`handlers
      ensures Valid()
      ensures RoomNamespace(room) in namespaces
      ensures old(RoomNamespace(room) in namespaces) ==>
        namespaces == old(namespaces) && registrations == old(registrations)
        && eventMgr.handlers == old(eventMgr.handlers)
      ensures old(RoomNamespace(room) !in namespaces) ==>
        namespaces == old(namespaces) + {RoomNamespace(room)}
        && registrations == old(registrations) + RoomRegistrations(RoomNamespace(room))
        && eventMgr.handlers == old(eventMgr.handlers)[room := RoomRelay(RoomNamespace(room), room)]
    {
      var namespace := RoomNamespace(room);
      if namespace in namespaces {
        return;
      }
      registrations := registrations + [OnConnect(namespace)];
      registrations := registrations + OnEvents(namespace, RoomEvents);
      registrations := registrations + [OnDisconnect(namespace)];
      eventMgr.RegisterHandler(room, RoomRelay(namespace, room));
      namespaces := namespaces + {namespace};
    }

    /** A socket connects to a room namespace: a fresh connection gets a session context, and a
        non-empty identity is announced with `user-connection`, addressed as written to the
        namespace `room` rather than `"/" + room`. */
    method HandleRoomConnection(context: ConnContext, socketId: string, room: string, identity: string)
      returns (newContext: ConnContext)
      modifies this`effects
      ensures context == NoContext ==>
        newContext == SessionContext(SM.SocketState(socketId, room, identity, "", "", ""))
      ensures context != NoContext ==> newContext == context
      ensures identity == "" ==> effects == old(effects)
      ensures identity != "" ==>
        effects == old(effects) +
          [Broadcasted(Broadcast(room, room, SC.UserConnection, map["identity" := identity, "status" := "connect"]))]
    {
      newContext := context;
      if context == NoContext {
        newContext := SessionContext(SM.SocketState(socketId, room, identity, "", "", ""));
      }
      if identity != "" {
        effects := effects +
          [Broadcasted(Broadcast(room, room, "user-connection", map["identity" := identity, "status" := "connect"]))];
      }
    }

    /** The connection announcement addressed to the room's own namespace, where its sockets
        are. */
    method HandleRoomConnectionCorrected(context: ConnContext, socketId: string, room: string, identity: string)
      returns (newContext: ConnContext)
      modifies this`effects
      ensures context == NoContext ==>
        newContext == SessionContext(SM.SocketState(socketId, room, identity, "", "", ""))
      ensures context != NoContext ==> newContext == context
      ensures identity == "" ==> effects == old(effects)
      ensures identity != "" ==>
        effects == old(effects) +
          [Broadcasted(Broadcast(RoomNamespace(room), room, SC.UserConnection,
                                 map["identity" := identity, "status" := "connect"]))]
    {
      newContext := context;
      if context == NoContext {
        newContext := SessionContext(SM.SocketState(socketId, room, identity, "", "", ""));
      }
      if identity != "" {
        effects := effects +
          [Broadcasted(Broadcast(RoomNamespace(room), room, "user-connection",
                                 map["identity" := identity, "status" := "connect"]))];
      }
    }

    /** A socket leaves a room namespace. Without a session context nothing happens; otherwise
        the departure is broadcast locally and then published for the other instances. */
    method HandleRoomDisconnect(context: ConnContext, room: string, sent: Outcome)
      modifies this`effects, eventMgr`published
      ensures !context.SessionContext? ==>
        effects == old(effects) && eventMgr.published == old(eventMgr.published)
      ensures context.SessionContext? ==>
        var state := context.state;
        effects == old(effects) + [
          Broadcasted(Broadcast(RoomNamespace(room), room, SC.UserDisconnect,
            map["status" := SC.StatusDisconnect, "identity" := state.identity, "userName" := state.userName])),
          Published(room, EM.EventUserDisconnect, map["identity" := state.identity, "userName" := state.userName])]
      ensures context.SessionContext? && eventMgr.Enabled() && sent.Success? ==>
        eventMgr.published == old(eventMgr.published) + [EM.Marshal(EM.CrossInstanceEvent(room,
          EM.EventUserDisconnect, map["identity" := context.state.identity, "userName" := context.state.userName]))]
      ensures !(eventMgr.Enabled() && sent.Success?) ==> eventMgr.published == old(eventMgr.published)
    {
      if context == NoContext {
        return;
      }
      if !context.SessionContext? {
        return;
      }
      var state := context.state;
      effects := effects + [Broadcasted(Broadcast("/" + room, room, "user-disconnect",
        map["status" := "disconnect", "identity" := state.identity, "userName" := state.userName]))];
      var data := map["identity" := state.identity, "userName" := state.userName];
      effects := effects + [Published(room, EM.EventUserDisconnect, data)];
      var _ := eventMgr.PublishEvent(EM.Background, room, EM.EventUserDisconnect, data, sent);
    }

    /** The listener hands a received payload to the manager, and the relay registered for its
        namespace re-broadcasts it locally. Nothing happens once the listener has stopped. */
    method DeliverCrossInstance(payload: EM.Payload)
      modifies this`effects
      ensures !eventMgr.Listening() || !payload.Json? || payload.event.namespace !in eventMgr.handlers ==>
        effects == old(effects)
      ensures eventMgr.Listening() && payload.Json? && payload.event.namespace in eventMgr.handlers ==>
        effects == old(effects) +
          RelayBroadcasts(eventMgr.handlers[payload.event.namespace], payload.event.event, payload.event.data)
    {
      if !eventMgr.Listening() {
        return;
      }
      var call := eventMgr.HandleMessage(payload);
      if call.Some? {
        effects := effects + RelayBroadcasts(call.value.handler, call.value.event, call.value.data);
      }
    }

    /** A chat message is stamped with `dtmcreated` (the formatted time `now`), broadcast to the
        room and then published. */
    method HandleChatMessage(room: string, data: EM.Data, now: string, sent: Outcome)
      modifies this`effects, eventMgr`published
      ensures var stamped := data["dtmcreated" := now];
        effects == old(effects) + [Broadcasted(Broadcast(RoomNamespace(room), room, SC.ChatMessage, stamped)),
                                   Published(room, EM.EventChatMessage, stamped)]
      ensures eventMgr.Enabled() && sent.Success? ==>
        eventMgr.published == old(eventMgr.published) +
          [EM.Marshal(EM.CrossInstanceEvent(room, EM.EventChatMessage, data["dtmcreated" := now]))]
      ensures !(eventMgr.Enabled() && sent.Success?) ==> eventMgr.published == old(eventMgr.published)
    {
      var stamped := data["dtmcreated" := now];
      effects := effects + [Broadcasted(Broadcast("/" + room, room, "chat-message", stamped))];
      effects := effects + [Published(room, EM.EventChatMessage, stamped)];
      var _ := eventMgr.PublishEvent(EM.Background, room, EM.EventChatMessage, stamped, sent);
    }

    /** A user's position is broadcast to the room only; it is never published. */
    method HandleUserPosition(room: string, data: EM.Data)
      modifies this`effects
      ensures effects == old(effects) + [Broadcasted(Broadcast(RoomNamespace(room), room, SC.UserPosition, data))]
    {
      effects := effects + [Broadcasted(Broadcast("/" + room, room, "user-position", data))];
    }

    /** A car position is broadcast as `position` and handed to the event manager as a
        car-position event, as written with a nil context: the publish never reaches the
        channel, so other instances never relay it. */
    method HandlePosition(room: string, data: EM.Data, sent: Outcome)
      modifies this`effects, eventMgr`published
      ensures effects == old(effects) + [Broadcasted(Broadcast(RoomNamespace(room), room, SC.Position, data)),
                                         Published(room, EM.EventCarPosition, data)]
      ensures eventMgr.published == old(eventMgr.published)
    {
      effects := effects + [Broadcasted(Broadcast("/" + room, room, "position", data))];
      effects := effects + [Published(room, EM.EventCarPosition, data)];
      var _ := eventMgr.PublishEvent(EM.NilContext, room, EM.EventCarPosition, data, sent);
    }

    /** The car position published with a live context, as the other handlers do, so that other
        instances relay it as `agentCar`. */
    method HandlePositionCorrected(room: string, data: EM.Data, sent: Outcome)
      modifies this`effects, eventMgr`published
      ensures effects == old(effects) + [Broadcasted(Broadcast(RoomNamespace(room), room, SC.Position, data)),
                                         Published(room, EM.EventCarPosition, data)]
      ensures eventMgr.Enabled() && sent.Success? ==>
        eventMgr.published == old(eventMgr.published) + [EM.Marshal(EM.CrossInstanceEvent(room, EM.EventCarPosition, data))]
      ensures !(eventMgr.Enabled() && sent.Success?) ==> eventMgr.published == old(eventMgr.published)
    {
      effects := effects + [Broadcasted(Broadcast("/" + room, room, "position", data))];
      effects := effects + [Published(room, EM.EventCarPosition, data)];
      var _ := eventMgr.PublishEvent(EM.Background, room, EM.EventCarPosition, data, sent);
    }

    /** The handlers for `update-username`, `user-conference`, `auth-join-conference` and
        `auth-join-conference-answer` echo the event, unchanged, to the room. */
    method HandleRoomEcho(room: string, event: string, data: EM.Data)
      requires event in {SC.UpdateUsername, SC.UserConference, SC.AuthJoinConference, SC.AuthJoinConferenceAnswer}
      modifies this`effects
      ensures effects == old(effects) + [Broadcasted(Broadcast(RoomNamespace(room), room, event, data))]
    {
      effects := effects + [Broadcasted(Broadcast("/" + room, room, event, data))];
    }

    /** `case-data` sent to a room namespace is broadcast to that namespace's room. */
    method HandleCaseData(namespace: string, room: string, data: EM.Data)
      modifies this`effects
      ensures effects == old(effects) + [Broadcasted(Broadcast(namespace, room, SC.CaseData, data))]
    {
      effects := effects + [Broadcasted(Broadcast(namespace, room, "case-data", data))];
    }

    /** A record request is answered by broadcasting and publishing `{status: recording, room}`. */
    method HandleRoomRecord(room: string, sent: Outcome)
      modifies this`effects, eventMgr`published
      ensures var response := map["status" := "recording", "room" := room];
        effects == old(effects) + [Broadcasted(Broadcast(RoomNamespace(room), room, SC.RoomRecord, response)),
                                   Published(room, EM.EventRoomRecord, response)]
      ensures eventMgr.Enabled() && sent.Success? ==>
        eventMgr.published == old(eventMgr.published) +
          [EM.Marshal(EM.CrossInstanceEvent(room, EM.EventRoomRecord, map["status" := "recording", "room" := room]))]
      ensures !(eventMgr.Enabled() && sent.Success?) ==> eventMgr.published == old(eventMgr.published)
    {
      var response := map["status" := "recording", "room" := room];
      effects := effects + [Broadcasted(Broadcast("/" + room, room, "room-record", response))];
      effects := effects + [Published(room, EM.EventRoomRecord, response)];
      var _ := eventMgr.PublishEvent(EM.Background, room, EM.EventRoomRecord, response, sent);
    }

    /** A client event arriving on a fixed namespace. */
    method HandleFixedNamespaceEvent(namespace: string, event: string, data: EM.Data)
      modifies this`effects
      ensures FixedNamespaceBroadcast(namespace, event, data).None? ==> effects == old(effects)
      ensures FixedNamespaceBroadcast(namespace, event, data).Some? ==>
        effects == old(effects) + [Broadcasted(FixedNamespaceBroadcast(namespace, event, data).value)]
    {
      var b := FixedNamespaceBroadcast(namespace, event, data);
      if b.Some? {
        effects := effects + [Broadcasted(b.value)];
      }
    }

    method InitMobileNamespace()
      requires Valid()
      modifies this`namespaces, this`registrations
      ensures Valid()
      ensures namespaces == old(namespaces) + {MobileNamespace}
      ensures registrations == old(registrations) +
        [OnConnect(MobileNamespace), OnEvent(MobileNamespace, "location"), OnDisconnect(MobileNamespace)]
    {
      var namespace := "/mobile";
      registrations := registrations + [OnConnect(namespace), OnEvent(namespace, "location"), OnDisconnect(namespace)];
      namespaces := namespaces + {namespace};
    }

    method InitQueueNamespace()
      requires Valid()
      modifies this`namespaces, this`registrations
      ensures Valid()
      ensures namespaces == old(namespaces) + {QueueNamespace}
      ensures registrations == old(registrations) +
        [OnConnect(QueueNamespace), OnEvent(QueueNamespace, "queue"), OnDisconnect(QueueNamespace)]
    {
      var namespace := "/queue";
      registrations := registrations + [OnConnect(namespace), OnEvent(namespace, "queue"), OnDisconnect(namespace)];
      namespaces := namespaces + {namespace};
    }

    method InitNewQueueNamespace()
      requires Valid()
      modifies this`namespaces, this`registrations
      ensures Valid()
      ensures namespaces == old(namespaces) + {NewQueueNamespace}
      ensures registrations == old(registrations) +
        [OnConnect(NewQueueNamespace), OnEvent(NewQueueNamespace, "queue"),
         OnEvent(NewQueueNamespace, "case-data"), OnDisconnect(NewQueueNamespace)]
    {
      var namespace := "/newqueue";
      registrations := registrations + [OnConnect(namespace), OnEvent(namespace, "queue"),
                                        OnEvent(namespace, "case-data"), OnDisconnect(namespace)];
      namespaces := namespaces + {namespace};
    }

    method InitNotificationNamespace()
      requires Valid()
      modifies this`namespaces, this`registrations
      ensures Valid()
      ensures namespaces == old(namespaces) + {NotificationNamespace}
      ensures registrations == old(registrations) +
        [OnConnect(NotificationNamespace), OnEvent(NotificationNamespace, "all"),
         OnEvent(NotificationNamespace, "unread"), OnEvent(NotificationNamespace, "new"),
         OnDisconnect(NotificationNamespace)]
    {
      var namespace := "/notification";
      registrations := registrations + [OnConnect(namespace), OnEvent(namespace, "all"),
                                        OnEvent(namespace, "unread"), OnEvent(namespace, "new"),
                                        OnDisconnect(namespace)];
      namespaces := namespaces + {namespace};
    }

    /** Registers the four fixed namespaces. The periodic cleanup task and serving are not part
        of the model; one cleanup tick is `CleanupTick`. */
    method Start() returns (err: Error)
      requires Valid()
      modifies this`namespaces, this`registrations
      ensures Valid() && err == None
      ensures namespaces == old(namespaces) + {MobileNamespace, QueueNamespace, NewQueueNamespace, NotificationNamespace}
      ensures registrations == old(registrations) + FixedRegistrations
    {
      InitMobileNamespace();
      InitQueueNamespace();
      InitNewQueueNamespace();
      InitNotificationNamespace();
      return None;
    }

    /** One tick of the cleanup task: the session store's TTL repair, whose error is only logged. */
    method CleanupTick(keysReply: Outcome, ttlFailures: set<string>, expireFailures: set<string>)
      modifies stateMgr`remote
      ensures !stateMgr.redisConfigured || keysReply.Failure? ==> stateMgr.remote == old(stateMgr.remote)
      ensures stateMgr.redisConfigured && keysReply.Success? ==>
        stateMgr.remote == SM.WithSessionTtl(old(stateMgr.remote),
          SM.UnexpiringSessionKeys(old(stateMgr.remote), old(stateMgr.remote).Keys, ttlFailures) - expireFailures)
    {
      var _, _ := stateMgr.CleanupExpiredData(keysReply, ttlFailures, expireFailures);
    }

    /** Stops the hub: the event manager is cleaned up (its error is only logged) and the result
        of closing the server is returned. Stopping twice closes a closed channel, which panics. */
    method Stop(pubsubClosed: Outcome, serverClosed: Outcome) returns (err: Error)
      requires !stopped
      modifies this`stopped, eventMgr`cancelled, eventMgr`handlers
      ensures stopped && eventMgr.cancelled
      ensures err == ErrorOf(serverClosed)
      ensures !(eventMgr.subscribed && pubsubClosed.Failure?) ==> eventMgr.handlers == map[]
      ensures eventMgr.subscribed && pubsubClosed.Failure? ==> eventMgr.handlers == old(eventMgr.handlers)
    {
      stopped := true;
      var _ := eventMgr.Cleanup(pubsubClosed);
      return ErrorOf(serverClosed);
    }

    /** The hub's own broadcast entry point. */
    method BroadcastToRoom(namespace: string, room: string, event: string, data: EM.Data)
      modifies this`effects
      ensures effects == old(effects) + [Broadcasted(Broadcast(namespace, room, event, data))]
    {
      effects := effects + [Broadcasted(Broadcast(namespace, room, event, data))];
    }

    /** The registered namespaces, each once, in no particular order. */
    method GetRegisteredNamespaces() returns (list: seq<string>)
      ensures forall ns :: ns in list <==> ns in namespaces
      ensures |list| == |namespaces|
      ensures forall i, j :: 0 <= i < j < |list| ==> list[i] != list[j]
    {
      list := Tables.SetToSeq(namespaces);
    }
  }
}
