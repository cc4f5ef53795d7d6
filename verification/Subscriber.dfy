/**
 `MQSubscriber` (faststream_mq/subscriber/usecase.py:39-359) with its fields and
 statements, proved to do what `Consuming`, `DirectMode` and `Startup` describe.
 */
module Subscriber {
  import opened Wrappers
  import opened Messages
  import opened Mqi
  import opened Client
  import opened Handles
  import opened Cleanup
  import opened Settlement
  import opened Consuming
  import opened Startup
  import DirectMode
  import FakePublisher
  import Transactions

  /** What a failed attempt to start leaves for the next one: nothing. */
  lemma DisconnectedIsBlank(s: State)
    requires Sound(s) && s.executor
    ensures Sound(Disconnected(s)) && Blank(Disconnected(s)) && Later(s.qm, Disconnected(s).qm)
    ensures Disconnected(s).qm.connectCalls == s.qm.connectCalls
  {
    ClosedSound(s);
    DisconnectedSound(SafeCloseConsumer(s));
    LaterStill(s.qm, SafeCloseConsumer(s).qm, Disconnected(s).qm);
  }

  /** Connecting uses up a tick of the script, unless no tick is left; and then nothing fails. */
  lemma AttemptUsesScript(s: State, queue: string)
    requires Blank(s)
    ensures var connected := Connected(s);
            && |connected.st.qm.script| <= |s.qm.script|
            && (s.qm.script != [] ==> |connected.st.qm.script| < |s.qm.script|)
            && (s.qm.script == [] ==> connected.out.Return? && Perform(connected.st, StartOp(queue)).out.Return?)
            && connected.st.qm.connectCalls == s.qm.connectCalls + 1
  {
  }

  /** An ended loop stays as it is until someone settles a kept message. */
  lemma {:induction false} EndedLoop(ls: LoopState, policy: AckPolicy, events: seq<Event>)
    requires ls.over || events == []
    requires forall i :: 0 <= i < |events| ==> events[i].Iterate?
    ensures RunLoop(ls, policy, events) == ls
    decreases |events|
  {
    if events != [] {
      EndedLoop(ls, policy, events[1..]);
    }
  }

  // ---------- the class ----------

  class MQSubscriber {
    const routing: string
    const policy: AckPolicy
    const maxLength: int
    var running: bool
    var consumer: AsyncMQConnection?
    var directMessage: MQRawMessage?
    var testMessages: Option<seq<RawMessage>>
    const hasHandlers: bool
    const brokerConnection: AsyncMQConnection   // where the broker's own producer publishes

    /** With a connection of its own, or with the message buffer of the test broker instead. */
    constructor (routing: string, policy: AckPolicy, maxLength: int, hasHandlers: bool, brokerConnection: AsyncMQConnection,
                 consumer: AsyncMQConnection?)
      ensures this.routing == routing && this.policy == policy && this.hasHandlers == hasHandlers
      ensures this.brokerConnection == brokerConnection && this.consumer == consumer && running && directMessage == null
      ensures testMessages == if consumer == null then Some([]) else None
    {
      this.routing, this.policy, this.maxLength := routing, policy, maxLength;
      this.hasHandlers, this.brokerConnection := hasHandlers, brokerConnection;
      running, this.consumer, directMessage := true, consumer, null;
      testMessages := if consumer == null then Some([]) else None;
    }

    /**
     `_startup_connect_consumer`: at most ceil(timeout / interval) + 1 attempts, exactly one if
     the timeout is not positive, none after an error that is not retryable; a retryable error is
     raised only if the timeout is not positive or has passed; every attempt starts from a blank
     connection, and success means an open consumer.
     */
    method StartupConnectConsumer(timeout: real, interval: real, clock: Clock) returns (out: Outcome<()>, failures: seq<Exn>)
      requires consumer != null && Sound(consumer.Now()) && Blank(consumer.Now())
      modifies consumer, clock
      ensures Sound(consumer.Now())
      ensures out.Return? && routing != "" ==> OpenOn(consumer.Now(), routing)
      ensures out.Raise? && Retryable(out.exn) ==> timeout <= 0.0 || clock.now >= old(clock.now) + timeout
      ensures var attempts := |failures| + if out.Return? then 1 else 0;
        && attempts >= 1 && consumer.qm.connectCalls >= old(consumer.qm.connectCalls) + attempts
        && (timeout <= 0.0 ==> attempts == 1)
        && (timeout > 0.0 && interval > 0.0 ==> attempts <= MaxAttempts(timeout, interval))
      ensures forall i :: 0 <= i < |failures| - 1 ==> Retryable(failures[i])
      ensures out.Raise? ==> failures != [] && out.exn == failures[|failures| - 1]
      ensures out.Return? ==> forall i :: 0 <= i < |failures| ==> Retryable(failures[i])
    {
      var start := clock.Monotonic();
      var deadline := start + timeout;
      var now := start;
      failures := [];
      while true
        invariant Sound(consumer.Now()) && Blank(consumer.Now())
        invariant consumer.qm.connectCalls >= old(consumer.qm.connectCalls) + |failures|
        invariant old(clock.now) <= start <= now <= clock.now && (interval > 0.0 ==> OnSchedule(|failures|, now - start, timeout, interval))
        invariant timeout <= 0.0 ==> failures == []
        invariant forall i :: 0 <= i < |failures| ==> Retryable(failures[i])
        decreases |consumer.qm.script|
      {
        if timeout > 0.0 && interval > 0.0 {
          AttemptsBounded(|failures|, now - start, timeout, interval);
        }
        out := Attempt();
        if out.Return? {
          return;
        }
        failures := failures + [out.exn];
        if !Retryable(out.exn) {
          return;
        }
        now := clock.Monotonic();
        if timeout <= 0.0 || now >= deadline {
          return;
        }
        StartOver();
        ghost var before := now - start;
        clock.Sleep(interval);
        now := clock.now;
        if interval > 0.0 {
          SleptOnceMore(|failures| - 1, before, now - start, timeout, interval);
        }
      }
    }

    /** After a failed attempt everything is given up. */
    method StartOver()
      requires consumer != null && Sound(consumer.Now()) && consumer.executor
      modifies consumer
      ensures Sound(consumer.Now()) && Blank(consumer.Now()) && |consumer.qm.script| <= |old(consumer.qm.script)|
      ensures consumer.qm.connectCalls == old(consumer.qm.connectCalls)
    {
      DisconnectedIsBlank(consumer.Now());
      consumer.DisconnectAsync();
    }

    /** One turn of the `try` block: connect, then start the consumer. */
    method Attempt() returns (out: Outcome<()>)
      requires consumer != null && Sound(consumer.Now()) && Blank(consumer.Now())
      modifies consumer
      ensures Sound(consumer.Now()) && consumer.executor
      ensures out.Return? && routing != "" ==> OpenOn(consumer.Now(), routing)
      ensures out.Raise? ==> |consumer.qm.script| < |old(consumer.qm.script)|
      ensures consumer.qm.connectCalls > old(consumer.qm.connectCalls)
    {
      ghost var s := consumer.Now();
      AttemptUsesScript(s, routing);
      ConnectSound(s.(executor := true));
      out := consumer.ConnectAsync();
      if out.Raise? {
        return;
      }
      ghost var connected := consumer.Now();
      PerformSound(connected, StartOp(routing));
      Transactions.RetryBound(connected, StartOp(routing));
      var started := consumer.StartConsumer(routing);
      out := if started.Raise? then Raise(started.exn) else Return(());
    }

    /** `_settle_unresolved_message`; `p` is the delivery as `Consuming` sees it. A message without a connection is left alone. */
    method SettleUnresolvedMessage(raw: MQRawMessage, exc: ExcKind, ghost p: Progress)
      requires p.d.connected == (raw.connection != null) && p.d.settled == raw.settled && p.d.event == raw.settledEvent
      requires raw.connection != null ==> p.st == raw.connection.Now()
      modifies raw, raw.connection
      ensures var q := SettleUnresolved(p, policy, exc);
        && (if raw.connection != null then raw.connection.Now() == q.st else p.st == q.st)
        && raw.settled == q.d.settled && raw.settledEvent == q.d.event && p.d.committed == q.d.committed
    {
      if raw.connection == null || raw.settled.Some? {
        return;
      }
      var out;
      if ShouldCommit(policy, exc) {
        out := raw.connection.Commit();
        if out.Return? {
          raw.settled := Some(ACKED);
        }
      } else {
        out := raw.connection.Backout();
        if out.Return? {
          raw.settled := Some(NACKED);
        }
      }
      raw.settledEvent := true;
    }

    /** `_make_response_publisher`: replies go out where the message came from, or through the broker. */
    function ReplyConnection(raw: MQRawMessage): AsyncMQConnection {
      if raw.connection != null then raw.connection else brokerConnection
    }

    method SettleBy(message: MQMessage, turn: Turn, ghost p: Progress) returns (out: Outcome<()>)
      requires p.st == ReplyConnection(message.raw).Now() && p.d == message.Value()
      modifies message, message.raw, message.raw.connection
      ensures Settled(ReplyConnection(message.raw).Now(), message.Value(), out) == SettleMessage(p.st, p.d, turn)
    {
      match turn.call {
        case AckCall => out := message.Ack(turn.cancels, turn.unstarted);
        case NackCall => out := message.Nack(turn.cancels, turn.unstarted);
        case RejectCall => out := message.Reject(turn.cancels, turn.unstarted);
      }
    }

    /** `process_message`, as FastStream runs it around the adapter. */
    method Process(message: MQMessage, h: Handling) returns (raised: Option<ExcKind>)
      requires message.Value() == Fresh(message.raw.connection != null)
      modifies message, message.raw, ReplyConnection(message.raw)
      ensures var connection := ReplyConnection(message.raw);
        var p := ProcessMessage(old(connection.Now()), old(message.Value()), message.raw.content, policy, h);
        connection.Now() == p.st && message.Value() == p.d && raised == p.raised
    {
      ghost var p := Arrived(ReplyConnection(message.raw).Now(), message.Value());
      if h.parseError.Some? {
        return h.parseError;
      }
      if policy.ACK_FIRST? {
        var _ := SettleBy(message, Plainly(AckCall), p);
        p := SettleIn(p, Plainly(AckCall));
      }
      raised := HandleAndAnswer(message, h, p);
      p := HandlerCalls(p, h.calls);
      p := if h.handlerError.Some? then p.(raised := h.handlerError) else Respond(p, message.raw.content, h);
      raised := Leave(message, h, raised, p);
    }

    /** The handler, and the reply to what it returns. */
    method HandleAndAnswer(message: MQMessage, h: Handling, ghost p: Progress) returns (raised: Option<ExcKind>)
      requires p.st == ReplyConnection(message.raw).Now() && p.d == message.Value()
      modifies message, message.raw, ReplyConnection(message.raw)
      ensures var handled := HandlerCalls(p, h.calls);
        var q := if h.handlerError.Some? then handled.(raised := h.handlerError) else Respond(handled, message.raw.content, h);
        ReplyConnection(message.raw).Now() == q.st && message.Value() == q.d && raised == q.raised
    {
      CallHandler(message, h.calls, p);
      if h.handlerError.Some? {
        return h.handlerError;
      }
      raised := Answer(ReplyConnection(message.raw), message.raw.content, h, HandlerCalls(p, h.calls));
    }

    /** The way out through the acknowledgement middleware. */
    method Leave(message: MQMessage, h: Handling, raised: Option<ExcKind>, ghost p: Progress) returns (left: Option<ExcKind>)
      requires p.st == ReplyConnection(message.raw).Now() && p.d == message.Value() && p.raised == raised
      modifies message, message.raw, message.raw.connection
      ensures var q := LeaveMiddleware(p, policy, h);
        ReplyConnection(message.raw).Now() == q.st && message.Value() == q.d && left == q.raised
    {
      left := raised;
      if SettlesLast(policy) {
        var settled := SettleBy(message, Plainly(MiddlewareCall(policy, raised)), p);
        if settled.Raise? && h.settleErrorsEscape {
          left := Some(OtherError);
        } else if raised.Some? && SaysHow(raised.value) {
          left := None;
        }
      }
    }

    /** The settlement calls of the handler itself. */
    method CallHandler(message: MQMessage, calls: seq<Turn>, ghost before: Progress)
      requires before.st == ReplyConnection(message.raw).Now() && before.d == message.Value()
      modifies message, message.raw, message.raw.connection
      ensures var q := HandlerCalls(before, calls); ReplyConnection(message.raw).Now() == q.st && message.Value() == q.d
    {
      ghost var p := before;
      var i := 0;
      while i < |calls|
        invariant 0 <= i <= |calls|
        invariant p.st == ReplyConnection(message.raw).Now() && p.d == message.Value()
        invariant HandlerCalls(p, calls[i..]) == HandlerCalls(before, calls)
      {
        assert calls[i..][1..] == calls[i + 1..];
        var _ := SettleBy(message, calls[i], p);
        p := SettleIn(p, calls[i]);
        i := i + 1;
      }
    }

    /** The response publisher: the reply command of `MQFakePublisher`, on the connection of the message. */
    method Answer(connection: AsyncMQConnection, raw: RawMessage, h: Handling, ghost p: Progress) returns (raised: Option<ExcKind>)
      requires p.st == connection.Now()
      modifies connection
      ensures var q := Respond(p, raw, h); connection.Now() == q.st && raised == q.raised
    {
      if h.response.None? || raw.replyTo == "" {
        return h.lateError;
      }
      var publisher := new FakePublisher.MQFakePublisher(raw);
      var cmd := publisher.PatchCommand(FakePublisher.Plain(h.response.value), raw);
      if cmd.Err? {
        return Some(OtherError);
      }
      var out := connection.Publish(cmd.value.Value());
      raised := if out.Raise? then Some(OtherError) else h.lateError;
    }

    /** `consume`, up to stopping the subscriber. */
    method ConsumeMessage(raw: MQRawMessage, h: Handling) returns (message: MQMessage, raised: Option<ExcKind>)
      requires raw.settled == None && !raw.settledEvent
      modifies raw, ReplyConnection(raw)
      ensures fresh(message) && message.raw == raw
      ensures var p := Consume(old(ReplyConnection(raw).Now()), Fresh(raw.connection != null), raw.content, policy, h, running);
        ReplyConnection(raw).Now() == p.st && message.Value() == p.d && raised == p.raised
    {
      message := new MQMessage(raw);
      raised := None;
      if !running {
        return;
      }
      ghost var p := ProcessMessage(ReplyConnection(raw).Now(), message.Value(), raw.content, policy, h);
      raised := Process(message, h);
      if raised.Some? {
        SettleUnresolvedMessage(raw, raised.value, p);
      }
    }

    /** `stop`, as far as the connection and the test buffer go. */
    method Stop()
      modifies this, consumer
      ensures !running && directMessage == null && testMessages == None
      ensures old(testMessages).Some? ==> consumer == old(consumer) && (consumer != null ==> consumer.Now() == old(consumer.Now()))
      ensures old(testMessages).None? && old(consumer) != null ==> old(consumer).Now() == StopConnection(old(consumer.Now()))
    {
      running := false;
      directMessage := null;
      if testMessages.Some? {
        testMessages := None;
        return;
      }
      if consumer != null {
        var out := consumer.StopConsumerAsync();
        if out.Return? {
          consumer.DisconnectAsync();
          consumer := null;
        }
      }
    }

    /** `_consume_loop`, for as long as it is told what the handlers do; true if the loop has ended by itself or waits for good. */
    method ConsumeLoop(plan: seq<Event>) returns (over: bool)
      requires consumer != null && running && testMessages.None?
      requires forall i :: 0 <= i < |plan| ==> plan[i].Iterate?
      modifies this, consumer
      ensures var r := RunLoop(Begin(old(consumer.Now())), policy, plan);
        old(consumer).Now() == r.st && over == r.over
    {
      var connection := consumer;
      ghost var ls := Begin(connection.Now());
      ghost var goal := RunLoop(ls, policy, plan);
      over := false;
      var i := 0;
      while i < |plan| && !over
        invariant 0 <= i <= |plan| && ls.st == connection.Now() && ls.over == over
        invariant !over ==> consumer == connection && running && testMessages.None?
        invariant RunLoop(ls, policy, plan[i..]) == goal
        decreases |plan| - i
      {
        var e := plan[i];
        assert plan[i..][1..] == plan[i + 1..];
        ghost var next := Next(ls, policy, e);
        var got := connection.GetMessage(maxLength);
        if got.Raise? {
          over := true;
        } else if got.value.Got? && got.value.message.Some? {
          running := e.running;
          over := HandleOne(connection, got.value.message.value, e, ls);
        }
        ls := next;
        i := i + 1;
      }
      EndedLoop(ls, policy, plan[i..]);
    }

    /** From `consume` to the end of the turn. */
    method HandleOne(connection: AsyncMQConnection, content: RawMessage, e: Event, ghost ls: LoopState) returns (over: bool)
      requires e.Iterate? && consumer == connection && running == e.running && testMessages.None?
      modifies this, connection
      ensures var r := Deliver(ls, old(connection.Now()), content, policy, e); connection.Now() == r.st && over == r.over
      ensures !over ==> consumer == connection && running && testMessages.None?
    {
      ghost var p := Consume(connection.Now(), Fresh(true), content, policy, e.h, e.running);
      var raw := new MQRawMessage(content, connection);
      var message, raised := ConsumeMessage(raw, e.h);
      var waits := policy.MANUAL? && raw.settled.None? && !raw.settledEvent;
      if waits && e.held.Some? {
        var _ := SettleBy(message, e.held.value, p);
        waits := false;
      }
      if raised == Some(StopConsume) || raised == Some(SystemExit) {
        Stop();
      }
      over := Stops(raised) || !e.running || waits;
    }

    /** `_ensure_no_unsettled_direct_message` */
    method EnsureNoUnsettledDirectMessage() returns (ok: bool)
      modifies this`directMessage
      ensures ok <==> !(old(directMessage) != null && old(directMessage).settled.None?)
      ensures directMessage == if ok then null else old(directMessage)
    {
      ok := directMessage == null || directMessage.settled.Some?;
      if ok {
        directMessage := null;
      }
    }

    /** The subscriber as `DirectMode` sees it; the messages handed out are the caller's. */
    ghost predicate Shows(ds: DirectMode.DirectState)
      reads this, consumer
    {
      && ds.handlers == hasHandlers && ds.buffer == testMessages && ds.started == (consumer != null)
      && (consumer != null ==> ds.st == consumer.Now())
      && (directMessage != null <==> ds.direct.Some?)
    }

    /** `get_one`, and one pass of the iterator, from the test buffer or from the connection. */
    method GetOne(parseError: Option<ExcKind>, ghost ds: DirectMode.DirectState) returns (fetched: DirectMode.Fetched, message: MQMessage?)
      requires DirectMode.Valid(ds) && Shows(ds)
      requires directMessage != null ==> directMessage.settled == ds.handed[ds.direct.value].settled
      modifies this`directMessage, this`testMessages, consumer
      ensures var (ds', f) := DirectMode.FetchStep(ds, policy, parseError);
        && Shows(ds') && fetched == f
        && (message != null <==> f.Handed?)
        && (f.Handed? ==> message.Value() == ds'.handed[|ds'.handed| - 1] && message.raw.content == f.raw)
        && (f.Handed? && policy.MANUAL? ==> directMessage == message.raw)
    {
      message := null;
      if hasHandlers {
        return DirectMode.Failed(AssertionError), null;
      }
      var ok := EnsureNoUnsettledDirectMessage();
      if !ok {
        return DirectMode.Refused, null;
      }
      var raw;
      if testMessages.Some? {
        if testMessages.value == [] {
          return DirectMode.NoMessage, null;
        }
        raw := new MQRawMessage(testMessages.value[0], null);
        testMessages := Some(testMessages.value[1..]);
      } else if consumer == null {
        return DirectMode.Failed(AssertionError), null;
      } else {
        var got := consumer.GetMessage(maxLength);
        if got.Raise? {
          return DirectMode.Failed(got.exn), null;
        }
        if !got.value.Got? || got.value.message.None? {
          return DirectMode.NoMessage, null;
        }
        raw := new MQRawMessage(got.value.message.value, consumer);
      }
      if parseError.Some? {
        SettleUnresolvedMessage(raw, parseError.value,
                                Arrived(if consumer != null then consumer.Now() else ds.st, Fresh(raw.connection != null)));
        return DirectMode.Unparsable(parseError.value), null;
      }
      message := new MQMessage(raw);
      if policy.MANUAL? {
        directMessage := raw;
      }
      fetched := DirectMode.Handed(raw.content);
    }
  }
}
