/**
 The in-memory broker of faststream_mq/testing.py:132-203, and how far its RPC agrees
 with the real one.
 */
module TestBroker {
  import opened Wrappers
  import opened MqIds
  import opened Messages

  /** The identity fields of the messages the test broker makes. */
  datatype TestMessage = TestMessage(body: seq<byte>, queue: string, correlationId: Option<string>, messageId: Option<string>)

  /** What `process_message` comes to: a response, an exception, or nothing in the time allowed. */
  datatype Handled = Responds(body: seq<byte>, messageId: Option<string>) | Raises | TooSlow

  datatype TestSubscriber = TestSubscriber(routing: string, handled: Handled)

  datatype TestError = SubscriberNotFound | BadId | HandlerRaised | TimedOut

  /** `build_message`; `generated` is what `generate_mq_id` returns. */
  function BuildMessage(queue: string, body: seq<byte>, correlationId: Option<string>, messageId: Option<string>, generated: string)
    : Result<TestMessage, TestError>
  {
    match NormalizeMqId(correlationId)
    case Err(_) => Err(BadId)
    case Ok(correlation) =>
      match NormalizeMqId(messageId)
      case Err(_) => Err(BadId)
      case Ok(id) => Ok(TestMessage(body, queue, correlation, if id.Some? then id else Some(generated)))
  }

  /** `_execute_handler` under the request's timeout: the reply is correlated with the id of the message it answers. */
  function ExecuteHandler(incoming: TestMessage, handler: TestSubscriber, generated: string): Result<TestMessage, TestError> {
    match handler.handled
    case Responds(body, messageId) => BuildMessage(incoming.queue, body, incoming.messageId, messageId, generated)
    case Raises => Err(HandlerRaised)
    case TooSlow => Err(TimedOut)
  }

  /** The in-memory RPC for the handler that takes the request. */
  function TestReply(cmd: Command, handler: TestSubscriber, generated: string, generatedReply: string): Result<TestMessage, TestError> {
    match BuildMessage(cmd.destination, cmd.body, cmd.correlationId, cmd.messageId, generated)
    case Err(e) => Err(e)
    case Ok(incoming) => ExecuteHandler(incoming, handler, generatedReply)
  }

  /** `FakeProducer.request`: the first subscriber of the destination answers. */
  method Request(subscribers: seq<TestSubscriber>, cmd: Command, generated: string, generatedReply: string)
    returns (reply: Result<TestMessage, TestError>)
    ensures BuildMessage(cmd.destination, cmd.body, cmd.correlationId, cmd.messageId, generated).Err? ==> reply == Err(BadId)
    ensures BuildMessage(cmd.destination, cmd.body, cmd.correlationId, cmd.messageId, generated).Ok? ==>
      if exists i :: 0 <= i < |subscribers| && subscribers[i].routing == cmd.destination
      then exists i :: 0 <= i < |subscribers| && subscribers[i].routing == cmd.destination
             && (forall j :: 0 <= j < i ==> subscribers[j].routing != cmd.destination)
             && reply == TestReply(cmd, subscribers[i], generated, generatedReply)
             && (subscribers[i].handled.TooSlow? ==> reply == Err(TimedOut))
             && (subscribers[i].handled.Raises? ==> reply == Err(HandlerRaised))
      else reply == Err(SubscriberNotFound)
  {
    var incoming := BuildMessage(cmd.destination, cmd.body, cmd.correlationId, cmd.messageId, generated);
    if incoming.Err? {
      return Err(incoming.error);
    }
    for i := 0 to |subscribers|
      invariant forall j :: 0 <= j < i ==> subscribers[j].routing != cmd.destination
    {
      if subscribers[i].routing == cmd.destination {
        return ExecuteHandler(incoming.value, subscribers[i], generatedReply);
      }
    }
    return Err(SubscriberNotFound);
  }

  // ---------- the real path ----------

  /** The request as its handler sees it. */
  function RealRequest(cmd: Command, replyQueue: string, queueManagerName: string, newId: MqId): Result<RawMessage, IdError> {
    match RequestDraft(cmd, replyQueue, queueManagerName)
    case Err(e) => Err(e)
    case Ok(draft) => Ok(Receive(Stamp(draft, newId), cmd.destination))
  }

  /** The reply as the requester sees it. */
  function RealReply(request: RawMessage, response: Command, replyQueue: string, newId: MqId): Result<RawMessage, IdError> {
    match PublishDraft(ReplyCommand(request, response))
    case Err(e) => Err(e)
    case Ok(draft) => Ok(Receive(Stamp(draft, newId), replyQueue))
  }

  /** Identifiers the queue manager makes up, and those of `generate_mq_id`, are real ones. */
  predicate IsRealId(id: MqId) {
    |id| == MQ_ID_BYTES_LENGTH && !AllZero(id)
  }

  /** The identifier a normal form stands for. */
  lemma NormalIdBytes(id: string)
    requires NormalizeMqId(Some(id)) == Ok(Some(id))
    ensures MqIdToBytes(Some(id)).Ok? && MqIdToBytes(Some(id)).value.Some?
    ensures var raw := MqIdToBytes(Some(id)).value.value; |raw| == MQ_ID_BYTES_LENGTH && ToHex(raw) == id
  {
    NormalFormIsCanonical(id, id);
  }

  /** The identifier a request is put under. */
  function RequestId(cmd: Command, newId: MqId): MqId {
    match MqIdToBytes(cmd.messageId)
    case Ok(Some(raw)) => if AllZero(raw) then newId else raw
    case _ => newId
  }

  lemma RequestIsDrafted(cmd: Command, replyQueue: string, queueManagerName: string, newId: MqId)
    requires NormalIds(cmd) && IsRealId(newId)
    ensures var draft := RequestDraft(cmd, replyQueue, queueManagerName);
            draft.Ok? && Stamp(draft.value, newId).msgId == RequestId(cmd, newId)
    ensures IsRealId(RequestId(cmd, newId))
    ensures ToHex(RequestId(cmd, newId)) ==
      if cmd.messageId.Some? && !AllZero(MqIdToBytes(cmd.messageId).value.value) then cmd.messageId.value else ToHex(newId)
  {
    if cmd.messageId.Some? { NormalIdBytes(cmd.messageId.value); }
    if cmd.correlationId.Some? { NormalIdBytes(cmd.correlationId.value); }
  }

  /** Both ends read a real native identifier as its hex text. */
  lemma ReceivedIds(m: Message, queue: string)
    ensures IsRealId(m.msgId) ==> Receive(m, queue).messageId == Some(ToHex(m.msgId)) && Receive(m, queue).nativeMessageId == m.msgId
    ensures IsRealId(m.correlId) ==> Receive(m, queue).correlationId == Some(ToHex(m.correlId))
  {
  }

  lemma ReplyIsDrafted(request: RawMessage, response: Command, newId: MqId)
    requires NormalIds(response)
    ensures var draft := PublishDraft(ReplyCommand(request, response));
            draft.Ok? && Stamp(draft.value, newId).correlId == request.nativeMessageId
  {
    if response.messageId.Some? { NormalIdBytes(response.messageId.value); }
  }

  /** On the real path the reply's correlation id is the canonical form of the request's own identifier, whatever either side set. */
  lemma RealReplyIsCorrelated(cmd: Command, response: Command, replyQueue: string, queueManagerName: string, newId: MqId, newReplyId: MqId)
    requires NormalIds(cmd) && NormalIds(response) && IsRealId(newId)
    ensures RealRequest(cmd, replyQueue, queueManagerName, newId).Ok?
    ensures var request := RealRequest(cmd, replyQueue, queueManagerName, newId).value;
            && RealReply(request, response, replyQueue, newReplyId).Ok?
            && RealReply(request, response, replyQueue, newReplyId).value.correlationId == request.messageId
            && request.messageId == Some(ToHex(RequestId(cmd, newId)))
  {
    RequestIsDrafted(cmd, replyQueue, queueManagerName, newId);
    ReceivedIds(Stamp(RequestDraft(cmd, replyQueue, queueManagerName).value, newId), cmd.destination);
    var request := RealRequest(cmd, replyQueue, queueManagerName, newId).value;
    ReplyIsDrafted(request, response, newReplyId);
    ReceivedIds(Stamp(PublishDraft(ReplyCommand(request, response)).value, newReplyId), replyQueue);
  }

  /** The handler responds, with a message id that can be one. */
  predicate Answers(handler: TestSubscriber) {
    handler.handled.Responds? && NormalizeMqId(handler.handled.messageId).Ok?
  }

  /** In memory it is the canonical form of the identifier the request message was given. */
  lemma TestReplyIsCorrelated(cmd: Command, handler: TestSubscriber, generated: MqId, generatedReply: string)
    requires NormalIds(cmd) && Answers(handler) && |generated| == MQ_ID_BYTES_LENGTH
    ensures var reply := TestReply(cmd, handler, ToHex(generated), generatedReply);
            && reply.Ok?
            && reply.value.correlationId == Some(if cmd.messageId.Some? then cmd.messageId.value else ToHex(generated))
            && reply.value.body == handler.handled.body && reply.value.queue == cmd.destination
            && (handler.handled.messageId.None? ==> reply.value.messageId == Some(generatedReply))
            && (handler.handled.messageId.Some? && handler.handled.messageId.value != "" ==>
                  Ok(reply.value.messageId) == NormalizeMqId(handler.handled.messageId))
  {
    GeneratedIsNormal(generated);
    var id := if cmd.messageId.Some? then cmd.messageId.value else ToHex(generated);
    Built(cmd.destination, cmd.body, cmd.correlationId, cmd.messageId, ToHex(generated));
    Built(cmd.destination, handler.handled.body, Some(id), handler.handled.messageId, generatedReply);
  }

  /** What a message of the test broker is, if its identifiers can be converted. */
  lemma Built(queue: string, body: seq<byte>, correlationId: Option<string>, messageId: Option<string>, generated: string)
    requires NormalizeMqId(correlationId) == Ok(correlationId) && NormalizeMqId(messageId).Ok?
    ensures var built, id := BuildMessage(queue, body, correlationId, messageId, generated), NormalizeMqId(messageId).value;
            built == Ok(TestMessage(body, queue, correlationId, if id.Some? then id else Some(generated)))
  {
  }

  lemma GeneratedIsNormal(generated: MqId)
    requires |generated| == MQ_ID_BYTES_LENGTH
    ensures NormalizeMqId(Some(ToHex(generated))) == Ok(Some(ToHex(generated)))
  {
    HexRoundTrip(generated);
    assert |ToHex(generated)| == 48;
  }

  /**
   The two agree for every request that carries an identifier, exactly when it is not the
   all-zero one: MQPUT replaces that by one of its own, the test broker keeps it.
   */
  lemma TestBrokerAgrees(
    cmd: Command, response: Command, handler: TestSubscriber, replyQueue: string, queueManagerName: string,
    newId: MqId, newReplyId: MqId, generated: MqId, generatedReply: string)
    requires NormalIds(cmd) && NormalIds(response) && Answers(handler)
    requires IsRealId(newId) && IsRealId(generated) && cmd.messageId.Some?
    ensures RealRequest(cmd, replyQueue, queueManagerName, newId).Ok?
    ensures var request := RealRequest(cmd, replyQueue, queueManagerName, newId).value;
            var actual, simulated := RealReply(request, response, replyQueue, newReplyId), TestReply(cmd, handler, ToHex(generated), generatedReply);
            && actual.Ok? && simulated.Ok?
            && (actual.value.correlationId == simulated.value.correlationId <==> !AllZero(MqIdToBytes(cmd.messageId).value.value))
  {
    RealReplyIsCorrelated(cmd, response, replyQueue, queueManagerName, newId, newReplyId);
    RequestIsDrafted(cmd, replyQueue, queueManagerName, newId);
    TestReplyIsCorrelated(cmd, handler, generated, generatedReply);
    NormalIdBytes(cmd.messageId.value);
    HexRoundTrip(newId);
    HexRoundTrip(MqIdToBytes(cmd.messageId).value.value);
  }
}
