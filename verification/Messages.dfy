/**
 Publish commands, wire messages and received messages, and the functions of
 faststream_mq/helpers/client.py, response.py and publisher/fake.py that turn one
 into another. Bodies are already encoded: the serializer is not part of the model.
 */
module Messages {
  import opened Wrappers
  import opened MqIds
  import opened HeaderNames

  /** The property values `_normalize_property_value` passes through unchanged. */
  datatype Value = Text(text: string) | Binary(bytes: seq<byte>) | Flag(flag: bool) | Whole(whole: int) | Float(float: real) | Null

  /** A Python dict in insertion order; also the properties of a message in the order they are listed. */
  type Items = seq<(string, Value)>

  /** A message on the wire: the descriptor fields the adapter uses, and the user properties. */
  datatype Message = Message(
    body: seq<byte>,
    msgId: MqId,
    correlId: MqId,
    replyToQ: string,
    replyToQMgr: string,
    properties: Items)

  /** `MQPublishCommand`. */
  datatype Command = Command(
    body: seq<byte>,
    contentType: Option<string>,
    destination: string,
    headers: Items,
    correlationId: Option<string>,
    messageId: Option<string>,
    replyTo: string,
    replyToQmgr: string,
    messageType: Option<string>,
    nativeCorrelationId: Option<MqId>,
    syncpoint: bool)

  /** The fields of `MQRawMessage` that never change after construction. */
  datatype RawMessage = RawMessage(
    body: seq<byte>,
    queue: string,
    headers: map<string, Value>,
    replyTo: string,
    replyToQmgr: string,
    contentType: Option<Value>,
    correlationId: Option<string>,
    messageId: Option<string>,
    nativeMessageId: MqId,
    nativeCorrelationId: MqId,
    metadata: Message)

  // ---------- dictionaries ----------

  predicate HasKey(items: Items, key: string) {
    exists i :: 0 <= i < |items| && items[i].0 == key
  }

  ghost predicate UniqueKeys(items: Items) {
    forall i, j :: 0 <= i < j < |items| ==> items[i].0 != items[j].0
  }

  function DictOf(items: Items): map<string, Value> {
    if items == [] then map[]
    else
      var last := items[|items| - 1];
      DictOf(items[..|items| - 1])[last.0 := last.1]
  }

  /** `dict.setdefault` */
  function SetDefault(items: Items, key: string, value: Value): Items {
    if HasKey(items, key) then items else items + [(key, value)]
  }

  /** Assignment to a key: an existing entry keeps its place. */
  function SetProperty(items: Items, name: string, value: Value): Items {
    if items == [] then [(name, value)]
    else if items[0].0 == name then [(name, value)] + items[1..]
    else [items[0]] + SetProperty(items[1..], name, value)
  }

  predicate Truthy(text: Option<string>) {
    text.Some? && text.value != ""
  }

  // ---------- sending ----------

  /** `_headers_to_publish` */
  function HeadersToPublish(cmd: Command): Items {
    var withType := if Truthy(cmd.contentType) then SetDefault(cmd.headers, "content-type", Text(cmd.contentType.value)) else cmd.headers;
    if Truthy(cmd.messageType) then SetDefault(withType, "message_type", Text(cmd.messageType.value)) else withType
  }

  /** The properties a message handle holds after the loop over `headers.items()`. */
  function PropertiesOf(headers: Items): Items {
    if headers == [] then []
    else
      var last := headers[|headers| - 1];
      SetProperty(PropertiesOf(headers[..|headers| - 1]), PropertyName(last.0), last.1)
  }

  /** MQMI_NONE and MQCI_NONE. */
  function NoId(): (id: MqId)
    ensures |id| == MQ_ID_BYTES_LENGTH && AllZero(id)
  {
    AllZeroMeans(seq(MQ_ID_BYTES_LENGTH, i => 0));
    seq(MQ_ID_BYTES_LENGTH, i => 0)
  }

  /** MQPUT keeps the MsgId it is given unless that is all zero; then it makes one up. */
  function Stamp(draft: Message, newId: MqId): Message {
    if AllZero(draft.msgId) then draft.(msgId := newId) else draft
  }

  /** The two identifiers of a draft. `normalize_mq_id` has run before, so an error here means a tampered command. */
  function DraftIds(messageId: Option<string>, native: Option<MqId>, correlationId: Option<string>): Result<(MqId, MqId), IdError> {
    match MqIdToBytes(messageId)
    case Err(e) => Err(e)
    case Ok(msgId) =>
      match if native.Some? then Ok(native) else MqIdToBytes(correlationId)
      case Err(e) => Err(e)
      case Ok(correlId) =>
        Ok((if msgId.Some? then msgId.value else NoId(), if correlId.Some? then correlId.value else NoId()))
  }

  /** What `__publish_sync` hands to `queue.put` (client.py:393-437). */
  function PublishDraft(cmd: Command): Result<Message, IdError> {
    match DraftIds(cmd.messageId, cmd.nativeCorrelationId, cmd.correlationId)
    case Err(e) => Err(e)
    case Ok(ids) =>
      Ok(Message(cmd.body, ids.0, ids.1, cmd.replyTo, cmd.replyToQmgr, PropertiesOf(HeadersToPublish(cmd))))
  }

  /** What `_publish_request_sync` hands to `queue.put` (client.py:501-553): its own reply queue, no native correlation. */
  function RequestDraft(cmd: Command, replyQueue: string, queueManager: string): Result<Message, IdError> {
    match DraftIds(cmd.messageId, None, cmd.correlationId)
    case Err(e) => Err(e)
    case Ok(ids) =>
      Ok(Message(cmd.body, ids.0, ids.1, replyQueue, queueManager, PropertiesOf(HeadersToPublish(cmd))))
  }

  // ---------- receiving ----------

  /** The headers `_read_headers` builds, as a fold over the listed properties. */
  function HeadersFrom(properties: Items): map<string, Value> {
    if properties == [] then map[]
    else
      var last := properties[|properties| - 1];
      HeadersFrom(properties[..|properties| - 1])[HeaderName(last.0) := last.1]
  }

  function AsPython(headers: map<string, Value>, key: string): PyValue {
    if key !in headers then PyNone
    else
      match headers[key]
      case Text(t) => PyStr(t)
      case Binary(b) => PyBytes(b)
      case Null => PyNone
      case _ => PyOther
  }

  function OrElse<T>(first: Option<T>, second: Option<T>): Option<T> {
    if first.Some? then first else second
  }

  /** `_build_raw_message`, on the headers `_read_headers` returned. */
  function BuildRawMessage(message: Message, headers: map<string, Value>, queue: string): RawMessage {
    var rest := headers - {"message_id", "correlation_id"};
    RawMessage(
      message.body, queue, rest, MqStr(message.replyToQ), MqStr(message.replyToQMgr),
      if "content-type" in rest then Some(rest["content-type"]) else None,
      OrElse(TryParseMqId(PyBytes(message.correlId)), TryParseMqId(AsPython(headers, "correlation_id"))),
      OrElse(TryParseMqId(PyBytes(message.msgId)), TryParseMqId(AsPython(headers, "message_id"))),
      message.msgId, message.correlId, message)
  }

  function Receive(message: Message, queue: string): RawMessage {
    BuildRawMessage(message, HeadersFrom(message.properties), queue)
  }

  // ---------- replying ----------

  /** FastStream's own `PublishCommand`, or already an `MQPublishCommand`. */
  datatype AnyCommand =
    | Generic(body: seq<byte>, contentType: Option<string>, destination: string, headers: Items,
              correlationId: Option<string>, replyTo: string)
    | Native(cmd: Command)

  /** `MQPublishCommand.from_cmd`: a native command is taken as it is, a generic one is normalised. */
  function FromCmd(cmd: AnyCommand): Result<Command, IdError> {
    match cmd
    case Native(c) => Ok(c)
    case Generic(body, contentType, destination, headers, correlationId, replyTo) =>
      match NormalizeMqId(correlationId)
      case Err(e) => Err(e)
      case Ok(id) => Ok(Command(body, contentType, destination, headers, id, None, replyTo, "", None, None, false))
  }

  /** The reply command `MQFakePublisher.patch_command` makes for the message being answered. */
  function ReplyCommand(request: RawMessage, cmd: Command): Command {
    cmd.(destination := request.replyTo, replyToQmgr := request.replyToQmgr,
         nativeCorrelationId := Some(request.nativeMessageId), syncpoint := true)
  }

  /** The identifier fields as the `MQPublishCommand` constructor leaves them. */
  predicate NormalIds(cmd: Command) {
    && NormalizeMqId(cmd.messageId) == Ok(cmd.messageId)
    && NormalizeMqId(cmd.correlationId) == Ok(cmd.correlationId)
  }

  // ---------- the header map round trip ----------

  ghost predicate Travels(name: string) {
    Escapable(name) && !EndsInSpace(name)
  }

  ghost predicate AllTravel(items: Items) {
    forall i :: 0 <= i < |items| ==> Travels(items[i].0)
  }

  lemma {:induction false} DictOfKeys(items: Items)
    ensures forall k :: k in DictOf(items) <==> HasKey(items, k)
  {
    if items != [] {
      var front := items[..|items| - 1];
      DictOfKeys(front);
      forall k ensures HasKey(items, k) <==> HasKey(front, k) || items[|items| - 1].0 == k {
        if HasKey(front, k) {
          var i :| 0 <= i < |front| && front[i].0 == k;
          assert items[i].0 == k;
        }
        if HasKey(items, k) {
          var i :| 0 <= i < |items| && items[i].0 == k;
          if i < |front| { assert front[i].0 == k; }
        }
      }
    }
  }

  lemma {:induction false} SetNewProperty(items: Items, name: string, value: Value)
    requires !HasKey(items, name)
    ensures SetProperty(items, name, value) == items + [(name, value)]
  {
    if items != [] {
      assert forall i :: 0 <= i < |items[1..]| ==> items[1..][i] == items[i + 1];
      SetNewProperty(items[1..], name, value);
    }
  }

  /** Distinct names that travel become distinct properties, listed in the order of the headers. */
  lemma {:induction false} PropertiesKeepOrder(headers: Items)
    requires UniqueKeys(headers) && AllTravel(headers)
    ensures |PropertiesOf(headers)| == |headers|
    ensures forall i :: 0 <= i < |headers| ==> PropertiesOf(headers)[i] == (PropertyName(headers[i].0), headers[i].1)
  {
    if headers != [] {
      var front, last := headers[..|headers| - 1], headers[|headers| - 1];
      PropertiesKeepOrder(front);
      var ps := PropertiesOf(front);
      forall i | 0 <= i < |ps| ensures ps[i].0 != PropertyName(last.0) {
        HeaderNameRoundTrip(front[i].0);
        HeaderNameRoundTrip(last.0);
      }
      SetNewProperty(ps, PropertyName(last.0), last.1);
    }
  }

  /** What one side writes as headers the other side reads as the same headers. */
  lemma {:induction false} HeadersSurvive(headers: Items)
    requires UniqueKeys(headers) && AllTravel(headers)
    ensures HeadersFrom(PropertiesOf(headers)) == DictOf(headers)
  {
    if headers != [] {
      var front, last := headers[..|headers| - 1], headers[|headers| - 1];
      HeadersSurvive(front);
      PropertiesKeepOrder(headers);
      PropertiesKeepOrder(front);
      assert PropertiesOf(headers)[..|headers| - 1] == PropertiesOf(front);
      HeaderNameRoundTrip(last.0);
    }
  }

  /** The sender's dictionary with the two defaults filled in where they are absent. */
  function WithDefaults(headers: map<string, Value>, contentType: Option<string>, messageType: Option<string>): map<string, Value> {
    var a := if Truthy(contentType) && "content-type" !in headers then headers["content-type" := Text(contentType.value)] else headers;
    if Truthy(messageType) && "message_type" !in a then a["message_type" := Text(messageType.value)] else a
  }

  lemma FirstTwo(s: string, pattern: string)
    requires |pattern| >= 2 && Contains(s, pattern)
    ensures exists i :: 0 <= i < |s| - 1 && s[i] == pattern[0] && s[i + 1] == pattern[1]
  {
    var i :| 0 <= i <= |s| - |pattern| && s[i..][..|pattern|] == pattern;
    assert s[i] == s[i..][..|pattern|][0];
    assert s[i + 1] == s[i..][..|pattern|][1];
  }

  /** A name in which no `_d` occurs travels. */
  lemma PlainTravels(name: string)
    requires forall i :: 0 <= i < |name| - 1 && name[i] == '_' ==> name[i + 1] != 'd'
    requires !EndsInSpace(name)
    ensures Travels(name)
  {
    if Contains(name, "_dash_") { FirstTwo(name, "_dash_"); }
    if Contains(name, "_dash-") { FirstTwo(name, "_dash-"); }
  }

  lemma DefaultsTravel()
    ensures Travels("content-type") && Travels("message_type")
  {
    PlainTravels("content-type");
    PlainTravels("message_type");
  }

  lemma SetDefaultKeeps(items: Items, key: string, value: Value)
    requires UniqueKeys(items) && AllTravel(items) && Travels(key)
    ensures UniqueKeys(SetDefault(items, key, value)) && AllTravel(SetDefault(items, key, value))
    ensures DictOf(SetDefault(items, key, value)) ==
            if key in DictOf(items) then DictOf(items) else DictOf(items)[key := value]
  {
    DictOfKeys(items);
    if !HasKey(items, key) {
      assert (items + [(key, value)])[..|items|] == items;
    }
  }

  lemma PublishedHeaders(cmd: Command)
    requires UniqueKeys(cmd.headers) && AllTravel(cmd.headers)
    ensures UniqueKeys(HeadersToPublish(cmd)) && AllTravel(HeadersToPublish(cmd))
    ensures DictOf(HeadersToPublish(cmd)) == WithDefaults(DictOf(cmd.headers), cmd.contentType, cmd.messageType)
  {
    DefaultsTravel();
    var withType := if Truthy(cmd.contentType) then SetDefault(cmd.headers, "content-type", Text(cmd.contentType.value)) else cmd.headers;
    if Truthy(cmd.contentType) {
      SetDefaultKeeps(cmd.headers, "content-type", Text(cmd.contentType.value));
    }
    if Truthy(cmd.messageType) {
      SetDefaultKeeps(withType, "message_type", Text(cmd.messageType.value));
    }
  }

  /**
   The whole path: what a consumer sees of a published command's headers is the sender's
   dictionary, the two defaults where they were absent, and neither reserved identifier.
   */
  lemma HeaderMapRoundTrip(cmd: Command, newId: MqId, queue: string)
    requires UniqueKeys(cmd.headers) && AllTravel(cmd.headers)
    requires PublishDraft(cmd).Ok?
    ensures Receive(Stamp(PublishDraft(cmd).value, newId), queue).headers ==
            WithDefaults(DictOf(cmd.headers), cmd.contentType, cmd.messageType) - {"message_id", "correlation_id"}
  {
    PublishedHeaders(cmd);
    HeadersSurvive(HeadersToPublish(cmd));
    assert Stamp(PublishDraft(cmd).value, newId).properties == PropertiesOf(HeadersToPublish(cmd));
  }

  // ---------- which correlation id arrives ----------

  /** An identifier given as text that is not the all-zero one. */
  predicate RealIdText(id: Option<string>) {
    MqIdToBytes(id).Ok? && MqIdToBytes(id).value.Some? && !AllZero(MqIdToBytes(id).value.value)
  }

  lemma DefaultsLeaveIds(headers: map<string, Value>, contentType: Option<string>, messageType: Option<string>)
    ensures AsPython(WithDefaults(headers, contentType, messageType), "correlation_id") == AsPython(headers, "correlation_id")
    ensures AsPython(WithDefaults(headers, contentType, messageType), "message_id") == AsPython(headers, "message_id")
  {
  }

  lemma DraftCorrelation(cmd: Command)
    requires NormalIds(cmd) && cmd.nativeCorrelationId.None? && PublishDraft(cmd).Ok?
    ensures TryParseMqId(PyBytes(PublishDraft(cmd).value.correlId)) == if RealIdText(cmd.correlationId) then cmd.correlationId else None
  {
    if cmd.correlationId.Some? {
      TextSurvivesBytes(cmd.correlationId.value);
    }
  }

  /**
   The correlation id of a published message at its consumer: the command's own, if it is a
   real one; else the identifier the sender's `correlation_id` header spells, if it spells one.
   */
  lemma CorrelationTravels(cmd: Command, newId: MqId, queue: string)
    requires NormalIds(cmd) && cmd.nativeCorrelationId.None? && PublishDraft(cmd).Ok?
    requires UniqueKeys(cmd.headers) && AllTravel(cmd.headers)
    ensures Receive(Stamp(PublishDraft(cmd).value, newId), queue).correlationId ==
            if RealIdText(cmd.correlationId) then cmd.correlationId
            else TryParseMqId(AsPython(DictOf(cmd.headers), "correlation_id"))
  {
    DraftCorrelation(cmd);
    PublishedHeaders(cmd);
    HeadersSurvive(HeadersToPublish(cmd));
    DefaultsLeaveIds(DictOf(cmd.headers), cmd.contentType, cmd.messageType);
    var m := Stamp(PublishDraft(cmd).value, newId);
    assert m.properties == PropertiesOf(HeadersToPublish(cmd)) && m.correlId == PublishDraft(cmd).value.correlId;
    assert HeadersFrom(m.properties) == WithDefaults(DictOf(cmd.headers), cmd.contentType, cmd.messageType);
  }

  /**
   The message id at the consumer: the command's own, if it is a real one; else the one the queue
   manager made up; and only if that is all zero the one the sender's `message_id` header spells.
   */
  lemma MessageIdTravels(cmd: Command, newId: MqId, queue: string)
    requires NormalIds(cmd) && PublishDraft(cmd).Ok? && |newId| == MQ_ID_BYTES_LENGTH
    requires UniqueKeys(cmd.headers) && AllTravel(cmd.headers)
    ensures Receive(Stamp(PublishDraft(cmd).value, newId), queue).messageId ==
            if RealIdText(cmd.messageId) then cmd.messageId
            else if !AllZero(newId) then Some(ToHex(newId))
            else TryParseMqId(AsPython(DictOf(cmd.headers), "message_id"))
  {
    PublishedHeaders(cmd);
    HeadersSurvive(HeadersToPublish(cmd));
    DefaultsLeaveIds(DictOf(cmd.headers), cmd.contentType, cmd.messageType);
    DraftMessageId(cmd, newId);
    var m := Stamp(PublishDraft(cmd).value, newId);
    assert m.properties == PropertiesOf(HeadersToPublish(cmd));
    ReceivedMessageId(m, queue);
  }

  /** A native identifier comes before the header. */
  lemma ReceivedMessageId(m: Message, queue: string)
    ensures Receive(m, queue).messageId ==
            OrElse(TryParseMqId(PyBytes(m.msgId)), TryParseMqId(AsPython(HeadersFrom(m.properties), "message_id")))
  {
  }

  lemma DraftMessageId(cmd: Command, newId: MqId)
    requires NormalIds(cmd) && PublishDraft(cmd).Ok? && |newId| == MQ_ID_BYTES_LENGTH
    ensures TryParseMqId(PyBytes(Stamp(PublishDraft(cmd).value, newId).msgId)) ==
            if RealIdText(cmd.messageId) then cmd.messageId else if !AllZero(newId) then Some(ToHex(newId)) else None
  {
    if cmd.messageId.Some? {
      TextSurvivesBytes(cmd.messageId.value);
    }
  }
}
