/**
 What is in the messages: the fields of a command, as they lie on a queue, and as a consumer reads
 them again.
 */
module Content {
  import opened Wrappers
  import opened MqIds
  import opened HeaderNames
  import opened Messages
  import opened Mqi
  import opened Client
  import opened Handles
  import opened Transactions
  import opened Requests
  import opened Consuming
  import opened ReplyAtomicity

  /** An identifier field on the wire: what the text spells, or none. */
  predicate Spells(id: MqId, text: Option<string>) {
    if text.None? then id == NoId() else |id| == MQ_ID_BYTES_LENGTH && ToHex(id) == text.value
  }

  /** The properties on the wire are the sender's headers and the defaults. */
  ghost predicate HasHeaders(cmd: Command, properties: Items) {
    UniqueKeys(cmd.headers) && AllTravel(cmd.headers) ==>
      HeadersFrom(properties) == WithDefaults(DictOf(cmd.headers), cmd.contentType, cmd.messageType)
  }

  /** A published command as it lies on its destination. */
  ghost predicate HasContent(cmd: Command, parcel: Parcel) {
    && parcel.0 == cmd.destination
    && parcel.1.body == cmd.body
    && parcel.1.replyToQ == cmd.replyTo && parcel.1.replyToQMgr == cmd.replyToQmgr
    && HasHeaders(cmd, parcel.1.properties)
    && (if cmd.nativeCorrelationId.Some? then parcel.1.correlId == cmd.nativeCorrelationId.value
        else NormalIds(cmd) ==> Spells(parcel.1.correlId, cmd.correlationId))
    && (NormalIds(cmd) && RealIdText(cmd.messageId) ==> Spells(parcel.1.msgId, cmd.messageId))
  }

  /** A request as it lies on its destination: the reply queue is its own, and no native correlation id is heeded. */
  ghost predicate HasRequestContent(cmd: Command, replyQueue: string, queueManagerName: string, parcel: Parcel) {
    && parcel.0 == cmd.destination
    && parcel.1.body == cmd.body
    && parcel.1.replyToQ == replyQueue && parcel.1.replyToQMgr == queueManagerName
    && HasHeaders(cmd, parcel.1.properties)
    && (NormalIds(cmd) ==> Spells(parcel.1.correlId, cmd.correlationId))
    && (NormalIds(cmd) && RealIdText(cmd.messageId) ==> Spells(parcel.1.msgId, cmd.messageId))
  }

  lemma HeadersOnTheWire(cmd: Command)
    ensures HasHeaders(cmd, PropertiesOf(HeadersToPublish(cmd)))
  {
    if UniqueKeys(cmd.headers) && AllTravel(cmd.headers) {
      PublishedHeaders(cmd);
      HeadersSurvive(HeadersToPublish(cmd));
    }
  }

  /** An identifier in normal form is spelled by its bytes. */
  lemma NormalSpells(text: Option<string>)
    requires NormalizeMqId(text) == Ok(text)
    ensures MqIdToBytes(text).Ok? && (MqIdToBytes(text).value.None? <==> text.None?)
    ensures text.Some? ==> Spells(MqIdToBytes(text).value.value, text)
  {
    if text.Some? {
      NormalFormIsCanonical(text.value, text.value);
    }
  }

  lemma DraftSpells(messageId: Option<string>, native: Option<MqId>, correlationId: Option<string>)
    requires NormalizeMqId(messageId) == Ok(messageId) && NormalizeMqId(correlationId) == Ok(correlationId)
    ensures var ids := DraftIds(messageId, native, correlationId);
            && ids.Ok? && Spells(ids.value.0, messageId)
            && (native.None? ==> Spells(ids.value.1, correlationId))
            && (RealIdText(messageId) ==> !AllZero(ids.value.0))
  {
    NormalSpells(messageId);
    NormalSpells(correlationId);
  }

  /** Every copy a publish makes has its command's content. */
  lemma CopyHasContent(cmd: Command, parcel: Parcel)
    requires IsCopy(cmd, parcel)
    ensures HasContent(cmd, parcel)
  {
    HeadersOnTheWire(cmd);
    if NormalIds(cmd) {
      DraftSpells(cmd.messageId, cmd.nativeCorrelationId, cmd.correlationId);
    }
  }

  lemma RequestHasContent(cmd: Command, replyQueue: string, queueManagerName: string, parcel: Parcel)
    requires IsRequest(cmd, replyQueue, queueManagerName, parcel)
    ensures HasRequestContent(cmd, replyQueue, queueManagerName, parcel)
  {
    HeadersOnTheWire(cmd);
    if NormalIds(cmd) {
      DraftSpells(cmd.messageId, None, cmd.correlationId);
    }
  }

  // ---------- what the operations put ----------

  ghost predicate AllHaveContent(cmd: Command, placed: seq<Parcel>) {
    forall i :: 0 <= i < |placed| ==> HasContent(cmd, placed[i])
  }

  /** What `publish` makes pending or visible, over any faults, has the command's content, and nothing else is added. */
  lemma PublishedContent(s: State, cmd: Command) returns (lost: bool, placed: seq<Parcel>)
    requires Sound(s)
    ensures var r := Perform(s, PublishOp(cmd));
            && AllHaveContent(cmd, placed)
            && WorkOf(r.st.qm) == AddTo(LostIf(lost, WorkOf(s.qm)), cmd.syncpoint, placed)
            && (r.out.Return? ==> placed != [])
  {
    lost, placed := PublishEffect(s, cmd);
    forall i | 0 <= i < |placed| ensures HasContent(cmd, placed[i]) {
      assert IsCopy(cmd, placed[i]);
      CopyHasContent(cmd, placed[i]);
    }
  }

  /** The last message made visible is the published request, with its command's content, the reply queue and identifier that are returned. */
  ghost predicate LastIsRequest(s: State, cmd: Command, p: Published, sent: seq<Parcel>) {
    && sent != []
    && HasRequestContent(cmd, p.replyHandle.queue, s.queueManagerName, sent[|sent| - 1])
    && sent[|sent| - 1].1.msgId == p.requestId
  }

  lemma PlacedHasContent(s: State, cmd: Command, p: Published, sent: seq<Parcel>)
    requires IsPlaced(s, cmd, p, sent)
    ensures LastIsRequest(s, cmd, p, sent)
  {
    RequestHasContent(cmd, p.replyHandle.queue, s.queueManagerName, sent[|sent| - 1]);
  }

  /** So it is over any faults. */
  lemma RequestedContent(s: State, cmd: Command)
    requires Sound(s) && PublishRequest(s, cmd, 0).out.Return?
    ensures var r := PublishRequest(s, cmd, 0); LastIsRequest(s, cmd, r.out.value, r.st.qm.sent)
  {
    PublishedIsPlaced(s, cmd, 0);
    PlacedHasContent(s, cmd, PublishRequest(s, cmd, 0).out.value, PublishRequest(s, cmd, 0).st.qm.sent);
  }

  // ---------- the round trip ----------

  /** What a consumer reads of a message on queue q. */
  ghost predicate ReadsAs(raw: RawMessage, q: string, body: seq<byte>, replyTo: string, replyToQmgr: string, headers: map<string, Value>) {
    && raw.queue == q && raw.body == body
    && raw.replyTo == MqStr(replyTo) && raw.replyToQmgr == MqStr(replyToQmgr)
    && raw.headers == headers - {"message_id", "correlation_id"}
    && raw.contentType == (if "content-type" in headers then Some(headers["content-type"]) else None)
  }

  /** Whatever is published is read again: body, reply fields, headers, content type, and a real message id in its canonical form. */
  lemma MessageRoundTrip(cmd: Command, parcel: Parcel)
    requires IsCopy(cmd, parcel) && UniqueKeys(cmd.headers) && AllTravel(cmd.headers)
    ensures var raw := Receive(parcel.1, cmd.destination);
            && ReadsAs(raw, cmd.destination, cmd.body, cmd.replyTo, cmd.replyToQmgr,
                       WithDefaults(DictOf(cmd.headers), cmd.contentType, cmd.messageType))
            && raw.nativeMessageId == parcel.1.msgId && raw.nativeCorrelationId == parcel.1.correlId
            && (NormalIds(cmd) && RealIdText(cmd.messageId) ==> raw.messageId == cmd.messageId)
  {
    CopyHasContent(cmd, parcel);
    ReadFields(parcel.1, cmd.destination);
    if NormalIds(cmd) && RealIdText(cmd.messageId) {
      RealSpelled(parcel.1.msgId, cmd.messageId);
    }
  }

  lemma ReadFields(m: Message, q: string)
    ensures ReadsAs(Receive(m, q), q, m.body, m.replyToQ, m.replyToQMgr, HeadersFrom(m.properties))
    ensures TryParseMqId(PyBytes(m.msgId)).Some? ==> Receive(m, q).messageId == TryParseMqId(PyBytes(m.msgId))
  {
  }

  lemma RealSpelled(id: MqId, text: Option<string>)
    requires RealIdText(text) && Spells(id, text) && NormalizeMqId(text) == Ok(text)
    ensures TryParseMqId(PyBytes(id)) == text
  {
    NormalSpells(text);
    var bytes := MqIdToBytes(text).value.value;
    HexRoundTrip(id);
    HexRoundTrip(bytes);
    assert id == bytes;
  }

  lemma RequestRoundTrip(cmd: Command, replyQueue: string, queueManagerName: string, parcel: Parcel)
    requires IsRequest(cmd, replyQueue, queueManagerName, parcel) && UniqueKeys(cmd.headers) && AllTravel(cmd.headers)
    ensures ReadsAs(Receive(parcel.1, cmd.destination), cmd.destination, cmd.body, replyQueue, queueManagerName,
                    WithDefaults(DictOf(cmd.headers), cmd.contentType, cmd.messageType))
  {
    RequestHasContent(cmd, replyQueue, queueManagerName, parcel);
    ReadFields(parcel.1, cmd.destination);
  }

  // ---------- replies ----------

  function BodyOf(response: AnyCommand): seq<byte> {
    match response
    case Generic(body, _, _, _, _, _) => body
    case Native(cmd) => cmd.body
  }

  function HeadersOf(response: AnyCommand): Items {
    match response
    case Generic(_, _, _, headers, _, _) => headers
    case Native(cmd) => cmd.headers
  }

  function ContentTypeOf(response: AnyCommand): Option<string> {
    match response
    case Generic(_, contentType, _, _, _, _) => contentType
    case Native(cmd) => cmd.contentType
  }

  /** Converting a generic command keeps its content; only a malformed correlation id is an error. */
  lemma FromCmdKeeps(response: AnyCommand)
    ensures FromCmd(response).Err? <==> response.Generic? && NormalizeMqId(response.correlationId).Err?
    ensures FromCmd(response).Ok? ==>
              var cmd := FromCmd(response).value;
              && cmd.body == BodyOf(response) && cmd.headers == HeadersOf(response) && cmd.contentType == ContentTypeOf(response)
              && (response.Native? ==> cmd == response.cmd)
              && (response.Generic? ==>
                    && cmd.destination == response.destination && cmd.replyTo == response.replyTo
                    && Ok(cmd.correlationId) == NormalizeMqId(response.correlationId)
                    && cmd.messageId == None && cmd.nativeCorrelationId == None && !cmd.syncpoint)
  {
  }

  /** A reply that is put has the content of what the handler returned, and goes to whom the request says. */
  lemma ReplyHasContent(raw: RawMessage, h: Handling, parcel: Parcel)
    requires IsReply(raw, h, parcel)
    ensures var response := h.response.value;
            && parcel.0 == raw.replyTo && parcel.1.replyToQMgr == raw.replyToQmgr && parcel.1.correlId == raw.nativeMessageId
            && parcel.1.body == BodyOf(response)
            && (UniqueKeys(HeadersOf(response)) && AllTravel(HeadersOf(response)) ==>
                  exists messageType :: HeadersFrom(parcel.1.properties) == WithDefaults(DictOf(HeadersOf(response)), ContentTypeOf(response), messageType))
  {
    FromCmdKeeps(h.response.value);
    var cmd := ReplyCommand(raw, FromCmd(h.response.value).value);
    CopyHasContent(cmd, parcel);
    if UniqueKeys(cmd.headers) && AllTravel(cmd.headers) {
      assert HeadersFrom(parcel.1.properties) == WithDefaults(DictOf(cmd.headers), cmd.contentType, cmd.messageType);
    }
  }
}
