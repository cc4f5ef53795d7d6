/**
 `AsyncMQConnection` (faststream_mq/helpers/client.py:76-672). The functions give the
 value-level meaning of each `_sync` method, an exception being an outcome like any
 other; the class at the end has the source's fields and statements and is proved to
 compute exactly these functions. The executor has one worker, so each `_sync` method
 is one step of the connection.
 */
module Client {
  import opened Wrappers
  import opened MqIds
  import opened HeaderNames
  import opened Messages
  import opened Mqi
  import opened PropertyCursor

  /** An open queue: the connection it was opened on, and its name. */
  datatype Handle = Handle(connection: nat, queue: string)

  /** The fields of the connection, its configuration bits, and the queue manager behind it. */
  datatype State = State(
    executor: bool,
    qmgr: Option<nat>,
    consumer: Option<Handle>,
    consumerName: string,
    keystore: bool,
    tls: bool,
    queueManagerName: string,
    qm: QueueManager)

  datatype Done<+T> = Done(st: State, out: Outcome<T>)

  /** The functions the retry wrapper is called with. */
  datatype Op = PingOp | CommitOp | BackoutOp | StartOp(queue: string) | GetOp | PublishOp(cmd: Command)

  datatype Reply = Nothing | Alive(alive: bool) | Got(message: Option<RawMessage>)

  // ---------- connecting and recovering ----------

  function SafeCloseConsumer(s: State): State {
    if s.consumer.None? then s
    else s.(qm := Call(s.qm, s.consumer.value.connection, NoEffect).0, consumer := None)
  }

  function SafeDisconnectQmgr(s: State): State {
    if s.qmgr.None? then s
    else s.(qm := Disconnect(s.qm, s.qmgr.value), qmgr := None)
  }

  /** `_connect_sync`: a failed attempt also gives up the prepared keystore. */
  function ConnectSync(s: State): Done<()> {
    if s.qmgr.Some? then Done(s, Return(()))
    else
      var (m, out) := Mqi.Connect(s.qm);
      match out
      case Return(connection) => Done(s.(qm := m, qmgr := Some(connection), keystore := s.tls), Return(()))
      case Raise(exn) => Done(s.(qm := m, keystore := false), Raise(exn))
  }

  /** `__start_consumer_sync` */
  function OpenConsumer(s: State, queue: string): Done<()> {
    var s1 := SafeCloseConsumer(s);
    if s1.qmgr.None? then Done(s1, Raise(AssertionError))
    else
      var (m, out) := Call(s1.qm, s1.qmgr.value, NoEffect);
      if out.Raise? then Done(s1.(qm := m), out)
      else Done(s1.(qm := m, consumer := Some(Handle(s1.qmgr.value, queue)), consumerName := queue), out)
  }

  /** `_recover_connection_sync` */
  function Recover(s: State, reopen: bool): Done<()> {
    var queue := if reopen then s.consumerName else "";
    var r := ConnectSync(SafeDisconnectQmgr(SafeCloseConsumer(s)));
    if r.out.Raise? || queue == "" then r else OpenConsumer(r.st, queue)
  }

  // ---------- one run of each operation ----------

  /** The reading of the properties (client.py:344-364): a message that cannot be read is backed out on the spot. */
  function ReadOrBackOut(s: State, message: Message): Done<Reply>
    requires s.qmgr.Some?
  {
    var (m3, read) := Call(s.qm, s.qmgr.value, NoEffect);
    if read.Return? then Done(s.(qm := m3), Return(Got(Some(Receive(message, s.consumerName)))))
    else
      var (m4, undone) := Settle(m3, s.qmgr.value, false);
      Done(s.(qm := m4), if undone.Raise? then Raise(undone.exn) else Raise(read.exn))
  }

  /** `__get_message_sync`: a message whose properties cannot be read is backed out on the spot. */
  function GetOnce(s: State): Done<Reply> {
    if s.qmgr.None? || s.consumer.None? then Done(s, Raise(AssertionError))
    else
      var (m1, handle) := Call(s.qm, s.qmgr.value, NoEffect);
      if handle.Raise? then Done(s.(qm := m1), Raise(handle.exn))
      else
        var (m2, got) := Get(m1, s.consumer.value.connection, s.consumer.value.queue, None);
        if got == Raise(MqmiError(NoMsgAvailable)) then Done(s.(qm := m2), Return(Got(None)))
        else if got.Raise? then Done(s.(qm := m2), Raise(got.exn))
        else
          ReadOrBackOut(s.(qm := m2), got.value)
  }

  /** What is to be put, and how: the message drafted from a command, and whether it has headers. */
  datatype Filling = Filling(draft: Result<Message, IdError>, headers: bool, queue: string, syncpoint: bool)

  function ToPublish(cmd: Command): Filling {
    Filling(PublishDraft(cmd), HeadersToPublish(cmd) != [], cmd.destination, cmd.syncpoint)
  }

  function ToRequest(cmd: Command, replyQueue: string, queueManagerName: string): Filling {
    Filling(RequestDraft(cmd, replyQueue, queueManagerName), HeadersToPublish(cmd) != [], cmd.destination, false)
  }

  /** Identifiers, property handle and put, of a publish or a request (client.py:396-439, 520-555). */
  function FillAndPut(m: QueueManager, connection: nat, f: Filling): (QueueManager, Outcome<Message>) {
    match f.draft
    case Err(_) => (m, Raise(ValueError))
    case Ok(draft) =>
      var (m1, handle) := if f.headers then Call(m, connection, NoEffect) else (m, Return(()));
      if handle.Raise? then (m1, Raise(handle.exn)) else Put(m1, connection, f.queue, draft, f.syncpoint)
  }

  /** `__publish_sync`: an exception from `queue.close()` in the `finally` block replaces the one in flight. */
  function PublishOnce(s: State, cmd: Command): Done<Reply> {
    if s.qmgr.None? then Done(s, Raise(AssertionError))
    else
      var (m1, queue) := Call(s.qm, s.qmgr.value, NoEffect);
      if queue.Raise? then Done(s.(qm := m1), Raise(queue.exn))
      else
        var (m2, put) := FillAndPut(m1, s.qmgr.value, ToPublish(cmd));
        var (m3, closed) := Call(m2, s.qmgr.value, NoEffect);
        Done(s.(qm := m3),
             if closed.Raise? then Raise(closed.exn) else if put.Raise? then Raise(put.exn) else Return(Nothing))
  }

  function SettleOnce(s: State, commit: bool): Done<Reply> {
    if s.qmgr.None? then Done(s, Raise(AssertionError))
    else
      var (m, out) := Settle(s.qm, s.qmgr.value, commit);
      Done(s.(qm := m), if out.Raise? then Raise(out.exn) else Return(Nothing))
  }

  function PingOnce(s: State): Done<Reply> {
    if s.qmgr.None? then Done(s, Raise(AssertionError))
    else
      var (m, out) := Call(s.qm, s.qmgr.value, NoEffect);
      Done(s.(qm := m), if out.Raise? then Raise(out.exn) else Return(Alive(true)))
  }

  function StartOnce(s: State, queue: string): Done<Reply> {
    var r := OpenConsumer(s, queue);
    Done(r.st, if r.out.Raise? then Raise(r.out.exn) else Return(Nothing))
  }

  function Once(s: State, op: Op): Done<Reply> {
    match op
    case PingOp => PingOnce(s)
    case CommitOp => SettleOnce(s, true)
    case BackoutOp => SettleOnce(s, false)
    case StartOp(queue) => StartOnce(s, queue)
    case GetOp => GetOnce(s)
    case PublishOp(cmd) => PublishOnce(s, cmd)
  }

  // ---------- the retry wrapper and the operations callers use ----------

  /** `_run_with_reconnect_sync` */
  function RunWithReconnect(s: State, op: Op, reopen: bool): Done<Reply> {
    var first := Once(s, op);
    if first.out.Return? || !Retryable(first.out.exn) then first
    else
      var recovered := Recover(first.st, reopen);
      if recovered.out.Raise? then Done(recovered.st, Raise(recovered.out.exn)) else Once(recovered.st, op)
  }

  /** The `reopen_consumer` argument each operation passes. */
  function Reopens(s: State, op: Op): bool {
    match op
    case PingOp => false
    case StartOp(_) => true
    case GetOp => true
    case _ => s.consumerName != ""
  }

  /** `start_consumer` remembers the queue name before anything can fail. */
  function Remember(s: State, op: Op): State {
    if op.StartOp? then s.(consumerName := op.queue) else s
  }

  /** The public coroutines: all need a running executor; `ping` turns every failure into False. */
  function Perform(s: State, op: Op): Done<Reply> {
    if op.PingOp? then
      if !s.executor || s.qmgr.None? then Done(s, Return(Alive(false)))
      else
        var r := RunWithReconnect(s, op, false);
        if r.out.Raise? then Done(r.st, Return(Alive(false))) else r
    else if !s.executor then Done(s, Raise(AssertionError))
    else RunWithReconnect(Remember(s, op), op, Reopens(Remember(s, op), op))
  }

  /** `connect` */
  function Connected(s: State): Done<()> {
    ConnectSync(s.(executor := true))
  }

  /** `stop_consumer`: a close that fails leaves the consumer and its name in place. */
  function StopConsumer(s: State): Done<()> {
    if !s.executor || s.consumer.None? then Done(s, Return(()))
    else
      var (m, out) := Call(s.qm, s.consumer.value.connection, NoEffect);
      if out.Raise? then Done(s.(qm := m), out)
      else Done(s.(qm := m, consumer := None, consumerName := ""), out)
  }

  /** `disconnect`: nothing in it raises. */
  function Disconnected(s: State): State {
    if !s.executor then s
    else SafeDisconnectQmgr(SafeCloseConsumer(s)).(keystore := false, executor := false)
  }

  // ---------- request and reply ----------

  /** A request that has been put: where its reply is awaited, and under which identifier. */
  datatype Published = Published(replyHandle: Handle, requestId: MqId)

  /** How far one attempt to put a request got. */
  datatype Attempt = Attempt(qm: QueueManager, replyQueue: Option<string>, queueOpen: bool, out: Outcome<MqId>)

  /** The `try` block of `_publish_request_sync` (client.py:510-557). */
  function TryRequest(m: QueueManager, connection: nat, cmd: Command, queueManagerName: string): Attempt {
    var (m1, reply) := OpenDynamic(m, connection);
    if reply.Raise? then Attempt(m1, None, false, Raise(reply.exn))
    else
      var replyQueue := MqStr(reply.value);
      var (m2, queue) := Call(m1, connection, NoEffect);
      if queue.Raise? then Attempt(m2, Some(replyQueue), false, Raise(queue.exn))
      else
        var (m3, put) := FillAndPut(m2, connection, ToRequest(cmd, replyQueue, queueManagerName));
        Attempt(m3, Some(replyQueue), true, if put.Raise? then Raise(put.exn) else Return(put.value.msgId))
  }

  /** The `finally` block (client.py:565-577); the handles belong to the connection the attempt ran on. */
  function CloseAttempt(m: QueueManager, connection: nat, a: Attempt): QueueManager {
    var m1 := if a.queueOpen then Call(m, connection, NoEffect).0 else m;
    if a.replyQueue.Some? && a.out.Raise? then CloseDynamic(m1, connection, a.replyQueue.value) else m1
  }

  /** `_publish_request_sync` from its `attempt`-th turn on. Recovery comes before the `finally` block. */
  function PublishRequest(s: State, cmd: Command, attempt: nat): Done<Published>
    decreases 2 - attempt
  {
    if attempt >= 2 then Done(s, Raise(RuntimeError))
    else if s.qmgr.None? then Done(s, Raise(AssertionError))
    else
      var connection := s.qmgr.value;
      var a := TryRequest(s.qm, connection, cmd, s.queueManagerName);
      var tried := s.(qm := a.qm);
      match a.out
      case Return(id) =>
        Done(tried.(qm := CloseAttempt(tried.qm, connection, a)), Return(Published(Handle(connection, a.replyQueue.value), id)))
      case Raise(exn) =>
        if !Retryable(exn) || attempt == 1 then
          Done(tried.(qm := CloseAttempt(tried.qm, connection, a)), Raise(exn))
        else
          var recovered := Recover(tried, false);
          var closed := recovered.st.(qm := CloseAttempt(recovered.st.qm, connection, a));
          if recovered.out.Raise? then Done(closed, Raise(recovered.out.exn))
          else PublishRequest(closed, cmd, attempt + 1)
  }

  /** `_wait_for_reply_sync` */
  function WaitForReply(s: State, p: Published): Done<RawMessage> {
    if s.qmgr.None? then Done(s, Raise(AssertionError))
    else
      var (m1, handle) := Call(s.qm, s.qmgr.value, NoEffect);
      if handle.Raise? then Done(s.(qm := m1), Raise(handle.exn))
      else
        var (m2, got) := Get(m1, p.replyHandle.connection, p.replyHandle.queue, Some(p.requestId));
        if got.Raise? then
          Done(s.(qm := m2), if got.exn == MqmiError(NoMsgAvailable) then Raise(TimeoutError) else Raise(got.exn))
        else
          var (m3, read) := Call(m2, s.qmgr.value, NoEffect);
          Done(s.(qm := m3), if read.Raise? then Raise(read.exn) else Return(Receive(got.value, p.replyHandle.queue)))
  }

  /** The `finally` block of `_request_sync`: a recovery that fails replaces the exception. */
  function FinishRequest(r: Done<RawMessage>): Done<RawMessage> {
    if r.out.Raise? && Retryable(r.out.exn) then
      var recovered := Recover(r.st, false);
      Done(recovered.st, if recovered.out.Raise? then Raise(recovered.out.exn) else r.out)
    else r
  }

  /** `_request_sync` */
  function RequestSync(s: State, cmd: Command): Done<RawMessage> {
    if !s.executor then Done(s, Raise(AssertionError))
    else
      var sent := PublishRequest(s, cmd, 0);
      match sent.out
      case Raise(exn) => FinishRequest(Done(sent.st, Raise(exn)))
      case Return(p) => FinishRequest(CloseReply(WaitForReply(sent.st, p), p))
  }

  function CloseReply(r: Done<RawMessage>, p: Published): Done<RawMessage> {
    r.(st := r.st.(qm := CloseDynamic(r.st.qm, p.replyHandle.connection, p.replyHandle.queue)))
  }

  // ---------- the class ----------

  class AsyncMQConnection {
    var executor: bool
    var qmgr: Option<nat>
    var consumerQueue: Option<Handle>
    var consumerQueueName: string
    var preparedTls: bool
    const tls: bool
    const queueManagerName: string
    var qm: QueueManager

    constructor (tls: bool, queueManagerName: string, qm: QueueManager)
      ensures Now() == State(false, None, None, "", false, tls, queueManagerName, qm)
    {
      executor, qmgr, consumerQueue, consumerQueueName, preparedTls := false, None, None, "", false;
      this.tls, this.queueManagerName, this.qm := tls, queueManagerName, qm;
    }

    function Now(): State
      reads this
    {
      State(executor, qmgr, consumerQueue, consumerQueueName, preparedTls, tls, queueManagerName, qm)
    }

    method CallSync(connection: nat, effect: Effect) returns (out: Outcome<()>)
      modifies this
      ensures Now() == old(Now()).(qm := Call(old(qm), connection, effect).0)
      ensures out == Call(old(qm), connection, effect).1
    {
      var (m, o) := Call(qm, connection, effect);
      qm, out := m, o;
    }

    method SafeCloseConsumerSync()
      modifies this
      ensures Now() == SafeCloseConsumer(old(Now()))
    {
      if consumerQueue.Some? {
        var _ := CallSync(consumerQueue.value.connection, NoEffect);
        consumerQueue := None;
      }
    }

    method SafeDisconnectQmgrSync()
      modifies this
      ensures Now() == SafeDisconnectQmgr(old(Now()))
    {
      if qmgr.Some? {
        qm := Mqi.Disconnect(qm, qmgr.value);
        qmgr := None;
      }
    }

    method ConnectToQueueManager() returns (out: Outcome<()>)
      modifies this
      ensures Done(Now(), out) == ConnectSync(old(Now()))
    {
      if qmgr.Some? {
        return Return(());
      }
      preparedTls := tls;
      var (m, connected) := Mqi.Connect(qm);
      qm := m;
      if connected.Raise? {
        preparedTls := false;
        return Raise(connected.exn);
      }
      qmgr := Some(connected.value);
      out := Return(());
    }

    method OpenConsumerQueue(queue: string) returns (out: Outcome<()>)
      modifies this
      ensures Done(Now(), out) == OpenConsumer(old(Now()), queue)
    {
      SafeCloseConsumerSync();
      if qmgr.None? {
        return Raise(AssertionError);
      }
      out := CallSync(qmgr.value, NoEffect);
      if out.Return? {
        consumerQueue := Some(Handle(qmgr.value, queue));
        consumerQueueName := queue;
      }
    }

    method RecoverConnection(reopen: bool) returns (out: Outcome<()>)
      modifies this
      ensures Done(Now(), out) == Recover(old(Now()), reopen)
    {
      var queueName := if reopen then consumerQueueName else "";
      SafeCloseConsumerSync();
      SafeDisconnectQmgrSync();
      out := ConnectToQueueManager();
      if out.Return? && queueName != "" {
        out := OpenConsumerQueue(queueName);
      }
    }

    method GetMessageOnce(maxLength: int) returns (out: Outcome<Reply>)
      modifies this
      ensures Done(Now(), out) == GetOnce(old(Now()))
    {
      if qmgr.None? || consumerQueue.None? {
        return Raise(AssertionError);
      }
      var handle := CallSync(qmgr.value, NoEffect);
      if handle.Raise? {
        return Raise(handle.exn);
      }
      var (m, got) := Get(qm, consumerQueue.value.connection, consumerQueue.value.queue, None);
      qm := m;
      if got.Raise? {
        if got.exn == MqmiError(NoMsgAvailable) {
          return Return(Got(None));
        }
        return Raise(got.exn);
      }
      var read := CallSync(qmgr.value, NoEffect);
      if read.Raise? {
        var (m', undone) := Settle(qm, qmgr.value, false);
        qm := m';
        return Raise(if undone.Raise? then undone.exn else read.exn);
      }
      var properties := new MessageHandle(got.value.properties, None);
      var headers := ReadHeaders(properties, maxLength);
      out := Return(Got(Some(BuildRawMessage(got.value, headers.value, consumerQueueName))));
    }

    method PublishMessageOnce(cmd: Command) returns (out: Outcome<Reply>)
      modifies this
      ensures Done(Now(), out) == PublishOnce(old(Now()), cmd)
    {
      if qmgr.None? {
        return Raise(AssertionError);
      }
      var queue := CallSync(qmgr.value, NoEffect);
      if queue.Raise? {
        return Raise(queue.exn);
      }
      var (m, put) := FillAndPut(qm, qmgr.value, ToPublish(cmd));
      qm := m;
      var closed := CallSync(qmgr.value, NoEffect);
      if closed.Raise? {
        out := Raise(closed.exn);
      } else if put.Raise? {
        out := Raise(put.exn);
      } else {
        out := Return(Nothing);
      }
    }

    method SettleWork(commit: bool) returns (out: Outcome<Reply>)
      modifies this
      ensures Done(Now(), out) == SettleOnce(old(Now()), commit)
    {
      if qmgr.None? {
        return Raise(AssertionError);
      }
      var (m, settled) := Settle(qm, qmgr.value, commit);
      qm := m;
      out := if settled.Raise? then Raise(settled.exn) else Return(Nothing);
    }

    /** The closure the retry wrapper runs, by name. */
    method RunOnce(op: Op, maxLength: int) returns (out: Outcome<Reply>)
      modifies this
      ensures Done(Now(), out) == Once(old(Now()), op)
    {
      match op {
        case PingOp =>
          if qmgr.None? {
            return Raise(AssertionError);
          }
          var pong := CallSync(qmgr.value, NoEffect);
          out := if pong.Raise? then Raise(pong.exn) else Return(Alive(true));
        case CommitOp =>
          out := SettleWork(true);
        case BackoutOp =>
          out := SettleWork(false);
        case StartOp(queue) =>
          var started := OpenConsumerQueue(queue);
          out := if started.Raise? then Raise(started.exn) else Return(Nothing);
        case GetOp =>
          out := GetMessageOnce(maxLength);
        case PublishOp(cmd) =>
          out := PublishMessageOnce(cmd);
      }
    }

    method RunWithReconnectSync(op: Op, reopen: bool, maxLength: int) returns (out: Outcome<Reply>)
      modifies this
      ensures Done(Now(), out) == RunWithReconnect(old(Now()), op, reopen)
    {
      out := RunOnce(op, maxLength);
      if out.Return? || !Retryable(out.exn) {
        return;
      }
      var recovered := RecoverConnection(reopen);
      if recovered.Raise? {
        return Raise(recovered.exn);
      }
      out := RunOnce(op, maxLength);
    }

    method ConnectAsync() returns (out: Outcome<()>)
      modifies this
      ensures Done(Now(), out) == Connected(old(Now()))
    {
      if !executor {
        executor := true;
      }
      out := ConnectToQueueManager();
    }

    method DisconnectAsync()
      modifies this
      ensures Now() == Disconnected(old(Now()))
    {
      if executor {
        SafeCloseConsumerSync();
        SafeDisconnectQmgrSync();
        preparedTls := false;
        executor := false;
      }
    }

    method Ping() returns (alive: bool)
      modifies this
      ensures Done(Now(), Return(Alive(alive))) == Perform(old(Now()), PingOp)
    {
      if !executor || qmgr.None? {
        return false;
      }
      var out := RunWithReconnectSync(PingOp, false, 0);
      alive := out.Return?;
    }

    method Commit() returns (out: Outcome<Reply>)
      modifies this
      ensures Done(Now(), out) == Perform(old(Now()), CommitOp)
    {
      if !executor {
        return Raise(AssertionError);
      }
      out := RunWithReconnectSync(CommitOp, consumerQueueName != "", 0);
    }

    method Backout() returns (out: Outcome<Reply>)
      modifies this
      ensures Done(Now(), out) == Perform(old(Now()), BackoutOp)
    {
      if !executor {
        return Raise(AssertionError);
      }
      out := RunWithReconnectSync(BackoutOp, consumerQueueName != "", 0);
    }

    method StartConsumer(queue: string) returns (out: Outcome<Reply>)
      modifies this
      ensures Done(Now(), out) == Perform(old(Now()), StartOp(queue))
    {
      if !executor {
        return Raise(AssertionError);
      }
      consumerQueueName := queue;
      out := RunWithReconnectSync(StartOp(queue), true, 0);
    }

    method StopConsumerAsync() returns (out: Outcome<()>)
      modifies this
      ensures Done(Now(), out) == StopConsumer(old(Now()))
    {
      if !executor || consumerQueue.None? {
        return Return(());
      }
      out := CallSync(consumerQueue.value.connection, NoEffect);
      if out.Return? {
        consumerQueue := None;
        consumerQueueName := "";
      }
    }

    method GetMessage(maxLength: int) returns (out: Outcome<Reply>)
      modifies this
      ensures Done(Now(), out) == Perform(old(Now()), GetOp)
    {
      if !executor {
        return Raise(AssertionError);
      }
      out := RunWithReconnectSync(GetOp, true, maxLength);
    }

    method Publish(cmd: Command) returns (out: Outcome<Reply>)
      modifies this
      ensures Done(Now(), out) == Perform(old(Now()), PublishOp(cmd))
    {
      if !executor {
        return Raise(AssertionError);
      }
      out := RunWithReconnectSync(PublishOp(cmd), consumerQueueName != "", 0);
    }

    method PublishRequestSync(cmd: Command) returns (out: Outcome<Published>)
      modifies this
      ensures Done(Now(), out) == PublishRequest(old(Now()), cmd, 0)
    {
      for attempt := 0 to 2
        invariant PublishRequest(Now(), cmd, attempt) == PublishRequest(old(Now()), cmd, 0)
      {
        if qmgr.None? {
          return Raise(AssertionError);
        }
        var connection := qmgr.value;
        var a := TryRequest(qm, connection, cmd, queueManagerName);
        qm := a.qm;
        if a.out.Return? {
          qm := CloseAttempt(qm, connection, a);
          return Return(Published(Handle(connection, a.replyQueue.value), a.out.value));
        }
        if !Retryable(a.out.exn) || attempt == 1 {
          qm := CloseAttempt(qm, connection, a);
          return Raise(a.out.exn);
        }
        var recovered := RecoverConnection(false);
        qm := CloseAttempt(qm, connection, a);
        if recovered.Raise? {
          return Raise(recovered.exn);
        }
      }
      return Raise(RuntimeError);
    }

    method WaitForReplySync(p: Published) returns (out: Outcome<RawMessage>)
      modifies this
      ensures Done(Now(), out) == WaitForReply(old(Now()), p)
    {
      if qmgr.None? {
        return Raise(AssertionError);
      }
      var handle := CallSync(qmgr.value, NoEffect);
      if handle.Raise? {
        return Raise(handle.exn);
      }
      var (m, got) := Get(qm, p.replyHandle.connection, p.replyHandle.queue, Some(p.requestId));
      qm := m;
      if got.Raise? {
        return Raise(if got.exn == MqmiError(NoMsgAvailable) then TimeoutError else got.exn);
      }
      var read := CallSync(qmgr.value, NoEffect);
      if read.Raise? {
        return Raise(read.exn);
      }
      var properties := new MessageHandle(got.value.properties, None);
      var headers := ReadHeaders(properties, 64);
      out := Return(BuildRawMessage(got.value, headers.value, p.replyHandle.queue));
    }

    method Request(cmd: Command) returns (out: Outcome<RawMessage>)
      modifies this
      ensures Done(Now(), out) == RequestSync(old(Now()), cmd)
    {
      if !executor {
        return Raise(AssertionError);
      }
      var sent := PublishRequestSync(cmd);
      if sent.Raise? {
        out := Raise(sent.exn);
      } else {
        out := WaitForReplySync(sent.value);
        qm := CloseDynamic(qm, sent.value.replyHandle.connection, sent.value.replyHandle.queue);
      }
      if out.Raise? && Retryable(out.exn) {
        var recovered := RecoverConnection(false);
        if recovered.Raise? {
          out := Raise(recovered.exn);
        }
      }
    }
  }
}
