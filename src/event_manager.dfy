/** Cross-instance event relay over a publish/subscribe channel
    (internal/socket/event_manager.go). The manager does not know what a handler does,
    so it is generic over the handler type `H`. */
module EventManager {
  import opened Wrappers

  type EventType = string

  const EventUserDisconnect: EventType := "user_disconnect"
  const EventUserConnect: EventType := "user_connect"
  const EventCarPosition: EventType := "car_position"
  const EventChatMessage: EventType := "chat_message"
  const EventRoomRecord: EventType := "room_record"
  const EventQueueUpdate: EventType := "queue_update"
  const EventNewCase: EventType := "newcase"

  /** Event payloads are JSON objects; the model keeps their string-valued fields. */
  type Data = map<string, string>

  datatype CrossInstanceEvent = CrossInstanceEvent(namespace: string, event: EventType, data: Data)

  /** A message on the channel: either the JSON text of an event or text that does not decode. */
  datatype Payload = Json(event: CrossInstanceEvent) | Malformed(text: string)

  const ChannelName := "socket:events"

  /** The context a caller hands to `PublishEvent`: a live one, or Go's untyped `nil`. */
  datatype Context = Background | NilContext

  /** What the Redis client reports when handed a nil context: it consults the context before
      it sends PUBLISH, and that dereferences nil. */
  const NilDereference := "runtime error: invalid memory address or nil pointer dereference"

  /** The channel's payloads after one publish of `e`: the event lands only when publishing is
      enabled, the client got a live context and the server accepted PUBLISH. */
  function AfterPublish(enabled: bool, ctx: Context, sent: Outcome, before: seq<Payload>, e: CrossInstanceEvent)
    : (r: seq<Payload>)
    ensures r == before || r == before + [Marshal(e)]
    ensures |r| > |before| <==> enabled && ctx == Background && sent.Success?
  {
    if enabled && ctx == Background && sent.Success? then before + [Marshal(e)] else before
  }

  /** A publish handed a nil context never reaches the channel, whatever the server would have
      answered, whereas the same publish with a live context lands once the server accepts it. */
  lemma NilContextNeverPublishes(before: seq<Payload>, e: CrossInstanceEvent, sent: Outcome)
    ensures AfterPublish(true, NilContext, sent, before, e) == before
    ensures AfterPublish(true, Background, Success, before, e) == before + [Marshal(e)]
  {
  }

  function Unmarshal(p: Payload): (r: Option<CrossInstanceEvent>)
    ensures r.Some? <==> p.Json?
  {
    match p
    case Json(e) => Some(e)
    case Malformed(_) => None
  }

  function Marshal(e: CrossInstanceEvent): (p: Payload)
    ensures Unmarshal(p) == Some(e)
  {
    Json(e)
  }

  /** One call of a registered handler: `handler(event, data)`. */
  datatype Dispatch<H> = Dispatch(handler: H, event: EventType, data: Data)

  class CrossInstanceEventManager<H> {
    /** A Redis manager was given. */
    const redisConfigured: bool
    /** The Redis manager hands out an adapter client. */
    const adapterAvailable: bool
    var handlers: map<string, H>
    var initialized: bool
    /** The channel subscription exists (`pubsub != nil`). */
    var subscribed: bool
    /** The context of the listener was cancelled. */
    var cancelled: bool
    /** Payloads this instance published on `ChannelName`, oldest first. */
    var published: seq<Payload>
    ghost var subscriptions: nat

    /** Publishing and subscribing are possible at all. */
    predicate Enabled()
    {
      redisConfigured && adapterAvailable
    }

    /** The listener goroutine is running and feeding `HandleMessage`. */
    predicate Listening()
      reads this
    {
      subscribed && !cancelled
    }

    constructor (redisConfigured: bool, adapterAvailable: bool)
      ensures this.redisConfigured == redisConfigured && this.adapterAvailable == adapterAvailable
      ensures handlers == map[] && published == []
      ensures !initialized && !subscribed && !cancelled && subscriptions == 0
    {
      this.redisConfigured := redisConfigured;
      this.adapterAvailable := adapterAvailable;
      handlers := map[];
      initialized := false;
      subscribed := false;
      cancelled := false;
      published := [];
      subscriptions := 0;
    }

    /** Subscribes at most once over the manager's life; without Redis it only marks itself
        initialized. Never fails. */
    method Initialize() returns (err: Error)
      modifies this`initialized, this`subscribed, this`subscriptions
      ensures err == None
      ensures initialized
      ensures old(initialized) ==> subscribed == old(subscribed) && subscriptions == old(subscriptions)
      ensures !old(initialized) ==> subscribed == (Enabled() || old(subscribed))
      ensures !old(initialized) && Enabled() ==> subscriptions == old(subscriptions) + 1
      ensures !Enabled() ==> subscriptions == old(subscriptions)
    {
      if initialized {
        return None;
      }
      if !redisConfigured {
        initialized := true;
        return None;
      }
      if !adapterAvailable {
        initialized := true;
        return None;
      }
      subscribed := true;
      subscriptions := subscriptions + 1;
      initialized := true;
      return None;
    }

    /** Decodes a received payload and looks up the handler of its namespace; a payload that
        does not decode, or whose namespace has no handler, is dropped. */
    method HandleMessage(payload: Payload) returns (call: Option<Dispatch<H>>)
      ensures call.Some? <==> payload.Json? && payload.event.namespace in handlers
      ensures call.Some? ==>
        call.value == Dispatch(handlers[payload.event.namespace], payload.event.event, payload.event.data)
    {
      var decoded := Unmarshal(payload);
      if decoded.None? {
        return None;
      }
      var event := decoded.value;
      if event.namespace in handlers {
        return Some(Dispatch(handlers[event.namespace], event.event, event.data));
      }
      return None;
    }

    /** Publishes an event on the channel; silently does nothing when Redis or its adapter
        client is missing. `sent` is what the Redis server answered to PUBLISH; a nil `ctx`
        stops the client before it sends anything. */
    method PublishEvent(ctx: Context, namespace: string, event: EventType, data: Data, sent: Outcome)
      returns (err: Error)
      modifies this`published
      ensures published == AfterPublish(Enabled(), ctx, sent, old(published), CrossInstanceEvent(namespace, event, data))
      ensures !Enabled() ==> err == None && published == old(published)
      ensures Enabled() && ctx == Background ==> err == ErrorOf(sent)
      ensures Enabled() && ctx == NilContext ==> err == Some(NilDereference)
      ensures Enabled() && ctx == Background && sent.Success? ==>
        published == old(published) + [Marshal(CrossInstanceEvent(namespace, event, data))]
      ensures Enabled() && (ctx == NilContext || sent.Failure?) ==> published == old(published)
    {
      if !redisConfigured {
        return None;
      }
      if !adapterAvailable {
        return None;
      }
      var payload := Marshal(CrossInstanceEvent(namespace, event, data));
      if ctx == NilContext {
        return Some(NilDereference);
      }
      if sent.Success? {
        published := published + [payload];
      }
      return ErrorOf(sent);
    }

    /** Installs `handler` for `namespace`, replacing any earlier one. */
    method RegisterHandler(namespace: string, handler: H)
      modifies this`handlers
      ensures handlers == old(handlers)[namespace := handler]
    {
      handlers := handlers[namespace := handler];
    }

    method UnregisterHandler(namespace: string)
      modifies this`handlers
      ensures handlers == old(handlers) - {namespace}
    {
      handlers := handlers - {namespace};
    }

    /** Cancels the listener, closes the subscription and drops every handler; when closing the
        subscription fails the error is returned and the handlers are kept. */
    method Cleanup(closed: Outcome) returns (err: Error)
      modifies this`cancelled, this`handlers
      ensures cancelled && !Listening()
      ensures subscribed && closed.Failure? ==> err == ErrorOf(closed) && handlers == old(handlers)
      ensures !(subscribed && closed.Failure?) ==> err == None && handlers == map[]
    {
      cancelled := true;
      if subscribed {
        if closed.Failure? {
          return ErrorOf(closed);
        }
      }
      handlers := map[];
      return None;
    }
  }
}
