/**
 * The topic API: turns one inbound request on a connection into at most one router
 * command on the shared command channel, or into an error response.
 */
module ApiTopic {
  import opened Wrappers
  import opened Ws
  import opened MessageSchema
  import Router

  /** Which request a handler serves. */
  datatype ActionType = Create | Send | Subscribe

  /** Payload of a create request. */
  datatype TopicCreate = TopicCreate(topicId: string)

  /** Payload of a subscribe request. */
  datatype TopicSubscribe = TopicSubscribe(topicId: string, subscriberId: string)

  /** Payload of a send request. */
  datatype TopicMessage = TopicMessage(topicId: string, senderId: string, message: string)

  /**
   * JSON decoding of a request text into each of the three request shapes; `None` stands
   * for a decoding error. The decoder itself is not part of this model.
   */
  datatype Decoders = Decoders(
    create: string -> Option<MessageRequestText<TopicCreate>>,
    message: string -> Option<MessageRequestText<TopicMessage>>,
    subscribe: string -> Option<MessageRequestText<TopicSubscribe>>)

  const InvalidPayload: string := "InvalidPayload"
  const CreateEvent: string := "unicorn.topic.create"
  /** The event of both the send and the subscribe error responses. */
  const SendEvent: string := "unicorn.topic.send"

  /** How a call to `execute` ends: it returns an optional response, or it panics. */
  datatype Outcome = Returned(response: Option<MessageResponse>) | Panicked

  /** What one `execute` call decides: the command to transmit, if any, and how it ends. */
  datatype Decision = Decision(command: Option<Router.RouterCommand>, outcome: Outcome)

  /** The error response `execute` returns when the request text does not decode. */
  function DecodeError(action: ActionType): MessageResponse {
    Error(if action == Create then CreateEvent else SendEvent, InvalidPayload)
  }

  /**
   * What `execute` does with the request `text` on the connection `s`, for a handler of
   * type `action`.
   */
  function Decide(action: Option<ActionType>, d: Decoders, s: Handle, text: string): (r: Decision)
    ensures action.None? ==> r == Decision(None, Returned(None))
    ensures r.command.Some? ==> r.outcome == Returned(None)
    ensures r.outcome == Panicked ==> r.command.None?
    ensures r.outcome.Returned? && r.outcome.response.Some? ==>
      && action.Some? && r.command.None?
      && r.outcome.response == Some(DecodeError(action.value))
      && r.outcome.response.value.error == Some(InvalidPayload)
    ensures r.command.Some? ==> match r.command.value
      case CreateTopic(_) => action == Some(Create)
      case Send(_, _, m) => action == Some(Send) && m.Text?
      case Subscribe(_, _, h) => action == Some(Subscribe) && h == s
      case Broadcast(_, _) => false
      case Unsubscribe(_, _) => false
  {
    match action
    case None => Decision(None, Returned(None))
    case Some(Create) =>
      (match d.create(text)
       case None => Decision(None, Returned(Some(DecodeError(Create))))
       case Some(q) =>
         if q.payload.None? then Decision(None, Panicked)
         else Decision(Some(Router.CreateTopic(q.payload.value.topicId)), Returned(None)))
    case Some(Send) =>
      (match d.message(text)
       case None => Decision(None, Returned(Some(DecodeError(Send))))
       case Some(q) =>
         if q.payload.None? then Decision(None, Panicked)
         else
           var p := q.payload.value;
           Decision(Some(Router.Send(p.topicId, p.senderId, Text(p.message))), Returned(None)))
    case Some(Subscribe) =>
      (match d.subscribe(text)
       case None => Decision(None, Returned(Some(DecodeError(Subscribe))))
       case Some(q) =>
         if q.payload.None? then Decision(None, Panicked)
         else
           var p := q.payload.value;
           Decision(Some(Router.Subscribe(p.topicId, p.subscriberId, s)), Returned(None)))
  }

  /**
   * The producer side of the command channel, shared by every handler. `accepting` is false
   * when taking the lock or sending fails, which drops the command silently.
   */
  class CommandChannel {
    var sent: seq<Router.RouterCommand>
    var accepting: bool

    constructor (accepting: bool)
      ensures sent == [] && this.accepting == accepting
    {
      sent := [];
      this.accepting := accepting;
    }
  }

  /** The handler behind the topic methods: the shared channel and the handler's action type. */
  datatype TopicApi = TopicApi(tx: CommandChannel, actionType: Option<ActionType>) {

    /** Appends `c` to the channel, or drops it when the channel does not accept it. */
    method Transmit(c: Router.RouterCommand)
      modifies tx
      ensures tx.sent == if old(tx.accepting) then old(tx.sent) + [c] else old(tx.sent)
      ensures tx.accepting == old(tx.accepting)
    {
      if tx.accepting {
        tx.sent := tx.sent + [c];
      }
    }

    /**
     * Handles one inbound message `m` on the connection `s`: reads it as text (a binary frame
     * through `utf8`), transmits at most one command and returns what `Decide` says.
     */
    method Execute(s: Handle, m: Message, d: Decoders, utf8: Utf8Decoder) returns (outcome: Outcome)
      modifies tx
      ensures var dec := Decide(actionType, d, s, TextOrEmpty(m, utf8));
        && outcome == dec.outcome
        && tx.sent == old(tx.sent) + (if dec.command.Some? && old(tx.accepting) then [dec.command.value] else [])
      ensures tx.accepting == old(tx.accepting)
    {
      var text := TextOrEmpty(m, utf8);
      match actionType
      case Some(Create) =>
        var q := d.create(text);
        if q.Some? {
          if q.value.payload.None? {
            return Panicked;
          }
          Transmit(Router.CreateTopic(q.value.payload.value.topicId));
          return Returned(None);
        } else {
          return Returned(Some(Error(CreateEvent, InvalidPayload)));
        }
      case Some(Send) =>
        var q := d.message(text);
        if q.Some? {
          if q.value.payload.None? {
            return Panicked;
          }
          var payload := q.value.payload.value;
          Transmit(Router.Send(payload.topicId, payload.senderId, Text(payload.message)));
          return Returned(None);
        } else {
          return Returned(Some(Error(SendEvent, InvalidPayload)));
        }
      case Some(Subscribe) =>
        var q := d.subscribe(text);
        if q.Some? {
          if q.value.payload.None? {
            return Panicked;
          }
          var payload := q.value.payload.value;
          Transmit(Router.Subscribe(payload.topicId, payload.subscriberId, s));
          return Returned(None);
        } else {
          return Returned(Some(Error(SendEvent, InvalidPayload)));
        }
      case None =>
        return Returned(None);
    }
  }

  /** A handler on the channel `tx` with no action type yet. */
  function WithTx(tx: CommandChannel): (api: TopicApi)
    ensures api.tx == tx && api.actionType == None
  {
    TopicApi(tx, None)
  }

  /**
   * Sets the action type from its name: only "create", "send" and "subscribe" are known,
   * every other name leaves the handler with no action. The channel is kept.
   */
  function SetType(api: TopicApi, t: string): (r: TopicApi)
    ensures r.tx == api.tx
    ensures r.actionType == Some(Create) <==> t == "create"
    ensures r.actionType == Some(Send) <==> t == "send"
    ensures r.actionType == Some(Subscribe) <==> t == "subscribe"
    ensures r.actionType == None <==> t != "create" && t != "send" && t != "subscribe"
  {
    var action :=
      if t == "create" then Some(Create)
      else if t == "send" then Some(Send)
      else if t == "subscribe" then Some(Subscribe)
      else None;
    api.(actionType := action)
  }

  /**
   * The server registers its publish and unsubscribe methods with the type names "publish"
   * and "unsubscribe", which `SetType` does not know: those handlers answer nothing and
   * transmit nothing, whatever the request.
   */
  lemma PublishAndUnsubscribeAreSilent(api: TopicApi, d: Decoders, s: Handle, text: string)
    ensures Decide(SetType(api, "publish").actionType, d, s, text) == Decision(None, Returned(None))
    ensures Decide(SetType(api, "unsubscribe").actionType, d, s, text) == Decision(None, Returned(None))
  {
  }

  /** A create request that decodes with a payload transmits `CreateTopic` of its topic id. */
  lemma CreateTransmits(d: Decoders, s: Handle, text: string)
    requires d.create(text).Some? && d.create(text).value.payload.Some?
    ensures Decide(Some(Create), d, s, text) ==
      Decision(Some(Router.CreateTopic(d.create(text).value.payload.value.topicId)), Returned(None))
  {
  }

  /** A send request that decodes with a payload transmits `Send` of its fields, the message as text. */
  lemma SendTransmits(d: Decoders, s: Handle, text: string)
    requires d.message(text).Some? && d.message(text).value.payload.Some?
    ensures var p := d.message(text).value.payload.value;
      Decide(Some(Send), d, s, text) ==
        Decision(Some(Router.Send(p.topicId, p.senderId, Text(p.message))), Returned(None))
  {
  }

  /** A subscribe request that decodes with a payload transmits `Subscribe`, bound to the caller's handle. */
  lemma SubscribeTransmits(d: Decoders, s: Handle, text: string)
    requires d.subscribe(text).Some? && d.subscribe(text).value.payload.Some?
    ensures var p := d.subscribe(text).value.payload.value;
      Decide(Some(Subscribe), d, s, text) ==
        Decision(Some(Router.Subscribe(p.topicId, p.subscriberId, s)), Returned(None))
  {
  }

  /**
   * A request text that does not decode transmits nothing and answers `InvalidPayload`,
   * under the create event for create and under the send event for send and subscribe.
   */
  lemma DecodeFailureAnswersInvalidPayload(action: ActionType, d: Decoders, s: Handle, text: string)
    requires match action
      case Create => d.create(text).None?
      case Send => d.message(text).None?
      case Subscribe => d.subscribe(text).None?
    ensures var r := Decide(Some(action), d, s, text);
      && r.command.None?
      && r.outcome.Returned? && r.outcome.response.Some?
      && r.outcome.response.value.event == (if action == Create then "unicorn.topic.create" else "unicorn.topic.send")
      && r.outcome.response.value.error == Some("InvalidPayload")
      && r.outcome.response.value.payload.None?
  {
  }

  /** A request that decodes without a payload panics before anything is transmitted. */
  lemma MissingPayloadPanics(action: ActionType, d: Decoders, s: Handle, text: string)
    requires match action
      case Create => d.create(text).Some? && d.create(text).value.payload.None?
      case Send => d.message(text).Some? && d.message(text).value.payload.None?
      case Subscribe => d.subscribe(text).Some? && d.subscribe(text).value.payload.None?
    ensures Decide(Some(action), d, s, text) == Decision(None, Panicked)
  {
  }
}
