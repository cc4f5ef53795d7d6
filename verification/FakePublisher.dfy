/**
 `MQFakePublisher` (faststream_mq/publisher/fake.py) and the command objects it changes in
 place: a native command is not copied, so the object a handler returned is itself turned
 into the reply.
 */
module FakePublisher {
  import opened Wrappers
  import opened MqIds
  import opened Messages

  class MQPublishCommand {
    var body: seq<byte>
    var contentType: Option<string>
    var destination: string
    var headers: Items
    var correlationId: Option<string>
    var messageId: Option<string>
    var replyTo: string
    var replyToQmgr: string
    var messageType: Option<string>
    var nativeCorrelationId: Option<MqId>
    var syncpoint: bool

    constructor (cmd: Command)
      ensures Value() == cmd
    {
      body, contentType, destination, headers := cmd.body, cmd.contentType, cmd.destination, cmd.headers;
      correlationId, messageId, messageType := cmd.correlationId, cmd.messageId, cmd.messageType;
      replyTo, replyToQmgr := cmd.replyTo, cmd.replyToQmgr;
      nativeCorrelationId, syncpoint := cmd.nativeCorrelationId, cmd.syncpoint;
    }

    function Value(): Command
      reads this
    {
      Command(body, contentType, destination, headers, correlationId, messageId, replyTo, replyToQmgr, messageType,
              nativeCorrelationId, syncpoint)
    }
  }

  /** What a handler's response turns into: a generic command, or a command object of the adapter's own. */
  datatype Response = Plain(cmd: AnyCommand) | Own(command: MQPublishCommand)

  /** `from_cmd`: the adapter's own command objects are passed on, not copied. */
  method RealCommand(response: Response) returns (patched: Result<MQPublishCommand, IdError>)
    ensures response.Own? ==> patched == Ok(response.command)
    ensures response.Plain? ==>
      match FromCmd(response.cmd)
      case Err(e) => patched == Err(e)
      case Ok(cmd) => patched.Ok? && fresh(patched.value) && patched.value.Value() == cmd
  {
    match response {
      case Own(command) =>
        patched := Ok(command);
      case Plain(cmd) =>
        var built := FromCmd(cmd);
        if built.Err? {
          return Err(built.error);
        }
        var command := new MQPublishCommand(built.value);
        patched := Ok(command);
    }
  }

  class MQFakePublisher {
    const queue: string
    const replyToQmgr: string
    const nativeCorrelationId: Option<MqId>

    /** `_make_response_publisher` makes one for each message that is answered. */
    constructor (request: RawMessage)
      ensures For(request)
    {
      queue, replyToQmgr, nativeCorrelationId := request.replyTo, request.replyToQmgr, Some(request.nativeMessageId);
    }

    ghost predicate For(request: RawMessage) {
      queue == request.replyTo && replyToQmgr == request.replyToQmgr && nativeCorrelationId == Some(request.nativeMessageId)
    }

    method PatchCommand(response: Response, ghost request: RawMessage) returns (patched: Result<MQPublishCommand, IdError>)
      requires For(request)
      modifies if response.Own? then {response.command} else {}
      ensures response.Own? ==> patched == Ok(response.command) && patched.value.Value() == ReplyCommand(request, old(response.command.Value()))
      ensures response.Plain? ==>
        match FromCmd(response.cmd)
        case Err(e) => patched == Err(e)
        case Ok(cmd) => patched.Ok? && fresh(patched.value) && patched.value.Value() == ReplyCommand(request, cmd)
    {
      patched := RealCommand(response);
      if patched.Ok? {
        var cmd := patched.value;
        cmd.destination, cmd.replyToQmgr := queue, replyToQmgr;
        cmd.nativeCorrelationId, cmd.syncpoint := nativeCorrelationId, true;
      }
    }
  }
}
