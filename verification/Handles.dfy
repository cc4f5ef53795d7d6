/**
 No stale handle: what every step of an `AsyncMQConnection` keeps about its queue manager
 handle and its consumer handle, over whole runs with faults anywhere.
 */
module Handles {
  import opened Wrappers
  import opened Messages
  import opened Mqi
  import opened Client

  /**
   The queue manager handle is the live connection; an open consumer belongs to that
   connection and to the remembered queue; connection numbers are never reused; and the
   queue manager has lost no message.
   */
  ghost predicate Sound(s: State) {
    && (s.qmgr.Some? ==> s.qm.live == s.qmgr)
    && (s.consumer.Some? ==> s.qmgr == Some(s.consumer.value.connection) && s.consumer.value.queue == s.consumerName)
    && (s.qm.live.Some? ==> s.qm.live.value < s.qm.nextConnection)
    && Balanced(s.qm)
  }

  /** The consumer is open on queue n, on the live connection. */
  predicate OpenOn(s: State, n: string) {
    && n != "" && s.consumerName == n
    && s.qmgr.Some? && s.qm.live == s.qmgr && s.consumer == Some(Handle(s.qmgr.value, n))
  }

  // ---------- calls ----------

  /** A queue manager after some calls of a connection in state s. */
  ghost predicate Kept(s: State, m: QueueManager) {
    Sound(s.(qm := m)) && m.live == s.qm.live && m.nextConnection == s.qm.nextConnection && Later(s.qm, m)
  }

  lemma CallKept(s: State, m: QueueManager, connection: nat, effect: Effect)
    requires Kept(s, m)
    ensures Kept(s, Call(m, connection, effect).0)
  {
    CallBalanced(m, connection, effect);
    CallLater(m, connection, effect);
    LaterStill(s.qm, m, Call(m, connection, effect).0);
  }

  /** Counting a call, or a reply queue, touches nothing else. */
  lemma CountKept(s: State, m: QueueManager, m': QueueManager)
    requires Kept(s, m) && m' == m.(putCalls := m'.putCalls, settleCalls := m'.settleCalls, unclosed := m'.unclosed)
    ensures Kept(s, m')
  {
    SameParcelsBalanced(m, m');
    assert m.arrived + [] == m.arrived && m.sent + [] == m.sent;
    GrowsLater(m, m', [], []);
    LaterStill(s.qm, m, m');
  }

  lemma SettleKept(s: State, m: QueueManager, connection: nat, commit: bool)
    requires Kept(s, m)
    ensures Kept(s, Settle(m, connection, commit).0)
  {
    var counted := m.(settleCalls := m.settleCalls + 1);
    CountKept(s, m, counted);
    CallKept(s, counted, connection, if commit then CommitWork else BackoutWork);
  }

  lemma FillAndPutKept(s: State, m: QueueManager, connection: nat, f: Filling)
    requires Kept(s, m)
    ensures Kept(s, FillAndPut(m, connection, f).0)
  {
    if f.draft.Ok? {
      CallKept(s, m, connection, NoEffect);
      var m1 := if f.headers then Call(m, connection, NoEffect).0 else m;
      var counted := m1.(putCalls := m1.putCalls + 1);
      CountKept(s, m1, counted);
      CallKept(s, counted, connection, Place(f.queue, Stamp(f.draft.value, NextTick(m1).newId), f.syncpoint));
    }
  }

  // ---------- connecting and recovering ----------

  /** Neither the remembered queue nor the configuration is touched. */
  predicate SameSettings(s: State, s': State) {
    s'.consumerName == s.consumerName && s'.executor == s.executor && s'.queueManagerName == s.queueManagerName
  }

  lemma ClosedSound(s: State)
    requires Sound(s)
    ensures var closed := SafeCloseConsumer(s);
            && Sound(closed) && closed.consumer.None? && SameSettings(s, closed) && closed.qmgr == s.qmgr
            && closed.qm.live == s.qm.live && closed.qm.nextConnection == s.qm.nextConnection && Later(s.qm, closed.qm)
  {
    if s.consumer.Some? {
      CallKept(s, s.qm, s.consumer.value.connection, NoEffect);
    }
  }

  lemma DisconnectedSound(s: State)
    requires Sound(s) && s.consumer.None?
    ensures var gone := SafeDisconnectQmgr(s);
            && Sound(gone) && gone.qmgr.None? && gone.consumer.None? && SameSettings(s, gone)
            && gone.qm.nextConnection == s.qm.nextConnection && Later(s.qm, gone.qm)
  {
    if s.qmgr.Some? {
      var m := Advance(s.qm);
      AdvanceBalanced(s.qm);
      RollbackBalanced(m);
      CompleteBalanced(m);
      SameParcelsBalanced(Rollback(m), Rollback(m).(live := None));
      SameParcelsBalanced(Complete(m), Complete(m).(live := None));
      var gone := SafeDisconnectQmgr(s).qm;
      AdvanceArrivals(s.qm);
      assert s.qm.sent + [] == s.qm.sent;
      GrowsLater(s.qm, gone, if s.qm.script == [] then [] else s.qm.script[0].arrivals, if gone.sent == s.qm.sent then [] else s.qm.puts);
    }
  }

  lemma AdvanceArrivals(m: QueueManager)
    ensures Advance(m).arrived == m.arrived + if m.script == [] then [] else m.script[0].arrivals
  {
  }

  lemma ConnectSound(s: State)
    requires Sound(s) && (s.qmgr.None? ==> s.consumer.None?)
    ensures var r := ConnectSync(s);
            && Sound(r.st) && r.st.consumer == s.consumer && SameSettings(s, r.st)
            && s.qm.nextConnection <= r.st.qm.nextConnection && Later(s.qm, r.st.qm)
            && (s.qmgr.None? && r.out.Return? ==> r.st.qmgr == Some(s.qm.nextConnection))
            && (r.out.Return? ==> r.st.qmgr.Some?)
  {
    if s.qmgr.None? {
      ConnectBalanced(s.qm);
    }
  }

  lemma ConnectBalanced(m: QueueManager)
    requires Balanced(m)
    ensures Balanced(Mqi.Connect(m).0) && Later(m, Mqi.Connect(m).0)
  {
    AdvanceBalanced(m);
    var tried := Advance(m).(connectCalls := m.connectCalls + 1);
    SameParcelsBalanced(Advance(m), tried);
    RollbackBalanced(tried);
    SameParcelsBalanced(Rollback(tried), Rollback(tried).(live := Some(m.nextConnection), nextConnection := m.nextConnection + 1));
    AdvanceArrivals(m);
    assert m.sent + [] == m.sent && m.arrived + [] == m.arrived;
    GrowsLater(m, Mqi.Connect(m).0, if m.script == [] then [] else m.script[0].arrivals, []);
  }

  lemma OpenSound(s: State, queue: string)
    requires Sound(s)
    ensures var r := OpenConsumer(s, queue);
            && Sound(r.st) && r.st.qmgr == s.qmgr && s.qm.nextConnection == r.st.qm.nextConnection && Later(s.qm, r.st.qm)
            && SameSettings(s.(consumerName := if r.out.Return? then queue else s.consumerName), r.st)
            && (r.out.Return? && queue != "" ==> OpenOn(r.st, queue))
            && (r.out.Raise? ==> r.st.consumer.None?)
  {
    var closed := SafeCloseConsumer(s);
    ClosedSound(s);
    if s.qmgr.Some? {
      CallKept(closed, closed.qm, s.qmgr.value, NoEffect);
      LaterStill(s.qm, closed.qm, Call(closed.qm, s.qmgr.value, NoEffect).0);
    }
  }

  lemma ReconnectSound(s: State)
    requires Sound(s)
    ensures var r := ConnectSync(SafeDisconnectQmgr(SafeCloseConsumer(s)));
            && Sound(r.st) && r.st.consumer.None? && SameSettings(s, r.st) && Later(s.qm, r.st.qm)
            && (r.out.Return? ==> r.st.qmgr.Some? && r.st.qmgr.value >= s.qm.nextConnection && r.st.qmgr != s.qmgr)
  {
    var closed := SafeCloseConsumer(s);
    var gone := SafeDisconnectQmgr(closed);
    ClosedSound(s);
    DisconnectedSound(closed);
    ConnectSound(gone);
    LaterStill(s.qm, closed.qm, gone.qm);
    LaterStill(s.qm, gone.qm, ConnectSync(gone).st.qm);
    assert s.qmgr.Some? ==> s.qmgr.value < s.qm.nextConnection;
  }

  /** A successful recovery ends on a new connection, with the consumer open again if that was asked; a failed one leaves no consumer. */
  lemma RecoverSound(s: State, reopen: bool)
    requires Sound(s)
    ensures var r := Recover(s, reopen);
            && Sound(r.st) && SameSettings(s, r.st) && Later(s.qm, r.st.qm)
            && (r.out.Return? ==> r.st.qmgr.Some? && r.st.qmgr.value >= s.qm.nextConnection && r.st.qmgr != s.qmgr)
            && (r.out.Return? && reopen && s.consumerName != "" ==> OpenOn(r.st, s.consumerName))
            && (r.out.Raise? || !reopen || s.consumerName == "" ==> r.st.consumer.None?)
  {
    ReconnectSound(s);
    var r := ConnectSync(SafeDisconnectQmgr(SafeCloseConsumer(s)));
    if r.out.Return? && reopen && s.consumerName != "" {
      OpenSound(r.st, s.consumerName);
      LaterStill(s.qm, r.st.qm, OpenConsumer(r.st, s.consumerName).st.qm);
      assert Recover(s, reopen) == OpenConsumer(r.st, s.consumerName);
    } else {
      assert Recover(s, reopen) == r;
    }
  }

  // ---------- one run of an operation ----------

  /** Everything but `start_consumer` only calls the queue manager. */
  ghost predicate OnlyCalls(s: State, s': State) {
    s' == s.(qm := s'.qm) && Kept(s, s'.qm)
  }

  lemma ReadKept(s: State, m: QueueManager, message: Message)
    requires Kept(s, m) && s.qmgr.Some?
    ensures OnlyCalls(s, ReadOrBackOut(s.(qm := m), message).st)
  {
    var c := s.qmgr.value;
    CallKept(s, m, c, NoEffect);
    SettleKept(s, Call(m, c, NoEffect).0, c, false);
  }

  lemma GetOnceSound(s: State)
    requires Sound(s)
    ensures OnlyCalls(s, GetOnce(s).st)
  {
    if s.qmgr.Some? && s.consumer.Some? {
      var c, h := s.qmgr.value, s.consumer.value;
      var (m1, handle) := Call(s.qm, c, NoEffect);
      CallKept(s, s.qm, c, NoEffect);
      var (m2, got) := Get(m1, h.connection, h.queue, None);
      CallKept(s, m1, h.connection, Take(h.queue));
      if handle.Return? && got.Return? {
        ReadKept(s, m2, got.value);
      }
    }
  }

  lemma PublishOnceSound(s: State, cmd: Command)
    requires Sound(s)
    ensures OnlyCalls(s, PublishOnce(s, cmd).st)
  {
    if s.qmgr.Some? {
      var c := s.qmgr.value;
      var m1 := Call(s.qm, c, NoEffect).0;
      CallKept(s, s.qm, c, NoEffect);
      FillAndPutKept(s, m1, c, ToPublish(cmd));
      CallKept(s, FillAndPut(m1, c, ToPublish(cmd)).0, c, NoEffect);
    }
  }

  lemma OnceSound(s: State, op: Op)
    requires Sound(s)
    ensures Sound(Once(s, op).st) && Later(s.qm, Once(s, op).st.qm)
    ensures !op.StartOp? ==> OnlyCalls(s, Once(s, op).st)
    ensures op.StartOp? && Once(s, op).out.Return? && op.queue != "" ==> OpenOn(Once(s, op).st, op.queue)
  {
    match op
    case PingOp => if s.qmgr.Some? { CallKept(s, s.qm, s.qmgr.value, NoEffect); }
    case CommitOp => if s.qmgr.Some? { SettleKept(s, s.qm, s.qmgr.value, true); }
    case BackoutOp => if s.qmgr.Some? { SettleKept(s, s.qm, s.qmgr.value, false); }
    case StartOp(queue) => OpenSound(s, queue);
    case GetOp => GetOnceSound(s);
    case PublishOp(cmd) => PublishOnceSound(s, cmd);
  }

  /** The recovery an operation started has itself raised. */
  predicate RecoveryFailed(s: State, op: Op) {
    var s1 := Remember(s, op);
    var first := Once(s1, op);
    s.executor && first.out.Raise? && Retryable(first.out.exn) && Recover(first.st, Reopens(s1, op)).out.Raise?
  }

  /** `start_consumer` renames before it closes the old consumer, so it is sound from there on. */
  lemma StartSound(s: State, queue: string)
    requires Sound(s)
    ensures var r := Once(s.(consumerName := queue), StartOp(queue));
            && Sound(r.st) && Later(s.qm, r.st.qm) && r.st.executor == s.executor
            && (r.out.Return? && queue != "" ==> OpenOn(r.st, queue))
  {
    var renamed := s.(consumerName := queue);
    var closed := SafeCloseConsumer(renamed);
    assert closed == SafeCloseConsumer(s).(consumerName := queue);
    ClosedSound(s);
    if s.qmgr.Some? {
      CallKept(closed, closed.qm, s.qmgr.value, NoEffect);
      LaterStill(s.qm, closed.qm, Call(closed.qm, s.qmgr.value, NoEffect).0);
    }
  }

  lemma PerformSound(s: State, op: Op)
    requires Sound(s)
    ensures Sound(Perform(s, op).st) && Later(s.qm, Perform(s, op).st.qm) && Perform(s, op).st.executor == s.executor
    ensures !op.StartOp? ==> Perform(s, op).st.consumerName == s.consumerName
    ensures op.StartOp? && op.queue != "" && Perform(s, op).out.Return? ==> OpenOn(Perform(s, op).st, op.queue)
  {
    var s1 := Remember(s, op);
    if op.StartOp? {
      StartSound(s, op.queue);
    } else {
      OnceSound(s, op);
    }
    var first := Once(s1, op);
    var reopen := if op.PingOp? then false else Reopens(s1, op);
    var again := Recover(first.st, reopen).st;
    RecoverSound(first.st, reopen);
    OnceSound(again, op);
    LaterStill(s.qm, first.st.qm, again.qm);
    LaterStill(s.qm, again.qm, Once(again, op).st.qm);
    if op.StartOp? {
      OpenSound(again, op.queue);
    }
  }

  // ---------- request ----------

  lemma OpenDynamicKept(s: State, connection: nat)
    requires Sound(s)
    ensures Kept(s, OpenDynamic(s.qm, connection).0)
  {
    CallKept(s, s.qm, connection, NoEffect);
    CountKept(s, Call(s.qm, connection, NoEffect).0, OpenDynamic(s.qm, connection).0);
  }

  lemma TryRequestSound(s: State, connection: nat, cmd: Command)
    requires Sound(s)
    ensures Kept(s, TryRequest(s.qm, connection, cmd, s.queueManagerName).qm)
  {
    var (m1, reply) := OpenDynamic(s.qm, connection);
    OpenDynamicKept(s, connection);
    if reply.Return? {
      var m2 := Call(m1, connection, NoEffect).0;
      CallKept(s, m1, connection, NoEffect);
      FillAndPutKept(s, m2, connection, ToRequest(cmd, HeaderNames.MqStr(reply.value), s.queueManagerName));
    }
  }

  lemma CloseDynamicKept(s: State, m: QueueManager, connection: nat, name: string)
    requires Kept(s, m)
    ensures Kept(s, CloseDynamic(m, connection, name))
  {
    var asked := m.(unclosed := m.unclosed - multiset{name});
    CountKept(s, m, asked);
    CallKept(s, asked, connection, NoEffect);
  }

  lemma CloseAttemptKept(s: State, connection: nat, a: Attempt)
    requires Sound(s)
    ensures Kept(s, CloseAttempt(s.qm, connection, a))
  {
    CallKept(s, s.qm, connection, NoEffect);
    var m1 := if a.queueOpen then Call(s.qm, connection, NoEffect).0 else s.qm;
    if a.replyQueue.Some? {
      CloseDynamicKept(s, m1, connection, a.replyQueue.value);
    }
  }

  lemma {:induction false} PublishRequestSound(s: State, cmd: Command, attempt: nat)
    requires Sound(s)
    ensures Sound(PublishRequest(s, cmd, attempt).st)
    decreases 2 - attempt
  {
    if attempt < 2 && s.qmgr.Some? {
      var c := s.qmgr.value;
      var a := TryRequest(s.qm, c, cmd, s.queueManagerName);
      var tried := s.(qm := a.qm);
      TryRequestSound(s, c, cmd);
      CloseAttemptKept(tried, c, a);
      var recovered := Recover(tried, false).st;
      RecoverSound(tried, false);
      CloseAttemptKept(recovered, c, a);
      if a.out.Raise? && Retryable(a.out.exn) && attempt == 0 {
        PublishRequestSound(recovered.(qm := CloseAttempt(recovered.qm, c, a)), cmd, attempt + 1);
      }
    }
  }

  lemma WaitSound(s: State, p: Published)
    requires Sound(s)
    ensures Sound(WaitForReply(s, p).st)
  {
    if s.qmgr.Some? {
      var c, h := s.qmgr.value, p.replyHandle;
      var m1 := Call(s.qm, c, NoEffect).0;
      CallKept(s, s.qm, c, NoEffect);
      var m2 := Get(m1, h.connection, h.queue, Some(p.requestId)).0;
      CallKept(s, m1, h.connection, TakeReply(h.queue, p.requestId));
      CallKept(s, m2, c, NoEffect);
    }
  }

  lemma RequestSound(s: State, cmd: Command)
    requires Sound(s)
    ensures Sound(RequestSync(s, cmd).st)
  {
    PublishRequestSound(s, cmd, 0);
    var sent := PublishRequest(s, cmd, 0);
    if sent.out.Return? {
      var p := sent.out.value;
      WaitSound(sent.st, p);
      var waited := WaitForReply(sent.st, p);
      CloseDynamicKept(waited.st, waited.st.qm, p.replyHandle.connection, p.replyHandle.queue);
      FinishSound(CloseReply(waited, p));
    } else {
      FinishSound(Done(sent.st, Raise(sent.out.exn)));
    }
  }

  lemma FinishSound(r: Done<RawMessage>)
    requires Sound(r.st)
    ensures Sound(FinishRequest(r).st)
  {
    RecoverSound(r.st, false);
  }

  // ---------- whole runs ----------

  datatype Step = Do(op: Op) | DoConnect | DoStopConsumer | DoDisconnect | DoRequest(cmd: Command)

  function AfterStep(s: State, step: Step): State {
    match step
    case Do(op) => Perform(s, op).st
    case DoConnect => Connected(s).st
    case DoStopConsumer => StopConsumer(s).st
    case DoDisconnect => Disconnected(s)
    case DoRequest(cmd) => RequestSync(s, cmd).st
  }

  function Run(s: State, steps: seq<Step>): State
    decreases |steps|
  {
    if steps == [] then s else Run(AfterStep(s, steps[0]), steps[1..])
  }

  lemma StepSound(s: State, step: Step)
    requires Sound(s)
    ensures Sound(AfterStep(s, step))
  {
    match step
    case Do(op) => PerformSound(s, op);
    case DoConnect => ConnectSound(s.(executor := true));
    case DoStopConsumer => if s.consumer.Some? { CallKept(s, s.qm, s.consumer.value.connection, NoEffect); }
    case DoDisconnect => ClosedSound(s); DisconnectedSound(SafeCloseConsumer(s));
    case DoRequest(cmd) => RequestSound(s, cmd);
  }

  /** Over every run, with any faults, an open consumer handle belongs to the current connection and the remembered queue, and no message is lost. */
  lemma {:induction false} HandlesStayCurrent(s: State, steps: seq<Step>)
    requires Sound(s)
    ensures Sound(Run(s, steps))
    decreases |steps|
  {
    if steps != [] {
      StepSound(s, steps[0]);
      HandlesStayCurrent(AfterStep(s, steps[0]), steps[1..]);
    }
  }

  /** The operations a subscriber and its replies use between `start_consumer` and `stop_consumer`. */
  predicate ConsumerOp(op: Op) {
    op.CommitOp? || op.BackoutOp? || op.GetOp? || op.PublishOp?
  }

  lemma ConsumerOpKeepsOpen(s: State, op: Op, n: string)
    requires Sound(s) && OpenOn(s, n) && ConsumerOp(op)
    ensures OpenOn(Perform(s, op).st, n) <==> !RecoveryFailed(s, op)
    ensures Perform(s, op).out.Return? ==> !RecoveryFailed(s, op)
  {
    OnceSound(s, op);
    var first := Once(s, op);
    RecoverSound(first.st, Reopens(s, op));
    OnceSound(Recover(first.st, Reopens(s, op)).st, op);
  }

  function PerformAll(s: State, ops: seq<Op>): State
    decreases |ops|
  {
    if ops == [] then s else PerformAll(Perform(s, ops[0]).st, ops[1..])
  }

  ghost predicate SomeRecoveryFailed(s: State, ops: seq<Op>)
    decreases |ops|
  {
    ops != [] && (RecoveryFailed(s, ops[0]) || SomeRecoveryFailed(Perform(s, ops[0]).st, ops[1..]))
  }

  /** While no recovery has itself failed, the consumer stays open on its queue, whatever the operations returned or raised. */
  lemma {:induction false} ConsumerStaysOpen(s: State, ops: seq<Op>, n: string)
    requires Sound(s) && OpenOn(s, n)
    requires forall i :: 0 <= i < |ops| ==> ConsumerOp(ops[i])
    requires !SomeRecoveryFailed(s, ops)
    ensures OpenOn(PerformAll(s, ops), n)
    decreases |ops|
  {
    if ops != [] {
      PerformSound(s, ops[0]);
      ConsumerOpKeepsOpen(s, ops[0], n);
      ConsumerStaysOpen(Perform(s, ops[0]).st, ops[1..], n);
    }
  }

  /**
   After a recovery has failed the consumer is gone but its name is remembered. A get then
   fails at once without touching the queue manager; any other operation that returns has
   brought the consumer back exactly if it went through a recovery of its own.
   */
  lemma LostConsumer(s: State, op: Op, n: string)
    requires Sound(s) && s.executor && s.consumer.None? && s.consumerName == n && n != "" && ConsumerOp(op)
    ensures op.GetOp? ==> Perform(s, op) == Done(s, Raise(AssertionError))
    ensures Perform(s, op).out.Return? ==> (OpenOn(Perform(s, op).st, n) <==> Perform(s, op).st.qmgr != s.qmgr)
  {
    OnceSound(s, op);
    var first := Once(s, op);
    RecoverSound(first.st, Reopens(s, op));
    OnceSound(Recover(first.st, Reopens(s, op)).st, op);
  }

  /** `ping` recovers without reopening: on a connection with a consumer it would lose it, exactly when it recovers. */
  lemma PingClosesConsumer(s: State, n: string)
    requires Sound(s) && s.executor && OpenOn(s, n)
    ensures OpenOn(Perform(s, PingOp).st, n) <==> Perform(s, PingOp).st.qmgr == s.qmgr
  {
    OnceSound(s, PingOp);
    var first := Once(s, PingOp);
    RecoverSound(first.st, false);
    OnceSound(Recover(first.st, false).st, PingOp);
  }

  /** A recovery can fail halfway: the queue manager is connected again and there is no consumer. */
  lemma HalfRecovered(m: QueueManager, n: string)
    requires n != "" && m.live == Some(0) && m.nextConnection == 1
    requires m.script == [Tick(Before(ConnectionBroken), [], "", []), Tick(Fine, [], "", []), Tick(Fine, [], "", []),
                          Tick(Fine, [], "", []), Tick(Before(OtherReason(2085)), [], "", [])]
    ensures var s := State(true, Some(0), Some(Handle(0, n)), n, false, false, "QM1", m);
            var r := Perform(s, CommitOp);
            OpenOn(s, n) && r.out == Raise(MqmiError(OtherReason(2085))) && r.st.qmgr == Some(1) && r.st.consumer == None && r.st.consumerName == n
  {
    var s := State(true, Some(0), Some(Handle(0, n)), n, false, false, "QM1", m);
    var first := Once(s, CommitOp);
    assert first.st.qm.script == m.script[1..];
    var closed := SafeCloseConsumer(first.st);
    assert closed.qm.script == m.script[2..];
    var gone := SafeDisconnectQmgr(closed);
    assert gone.qm.script == m.script[3..];
    var back := ConnectSync(gone);
    assert back.st.qm.script == m.script[4..];
    assert OpenConsumer(back.st, n).out.Raise?;
  }
}
