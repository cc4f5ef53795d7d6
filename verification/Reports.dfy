/**
 Which error is raised, if several things fail: the fates of the calls decide.
 */
module Reports {
  import opened Wrappers
  import opened Messages
  import opened Mqi
  import opened Client
  import opened Handles
  import opened Transactions
  import opened Shutdown

  /** What a call with this fate is reported as. */
  function Fate<T>(fault: Fault, value: T): Outcome<T> {
    match fault
    case Fine => Return(value)
    case Before(reason) => Raise(MqmiError(reason))
    case After(reason) => Raise(MqmiError(reason))
  }

  lemma CallReports(m: QueueManager, connection: nat, effect: Effect)
    requires m.live == Some(connection)
    ensures Call(m, connection, effect).1 == Fate(NextTick(m).fault, ())
  {
  }

  /** The queue manager when a recovery comes to connect. */
  function AtConnect(s: State): QueueManager {
    SafeDisconnectQmgr(SafeCloseConsumer(s)).qm
  }

  /** And when it comes to open the consumer. */
  function AtReopen(s: State): QueueManager {
    Mqi.Connect(AtConnect(s)).0
  }

  /** Closing and disconnecting may fail without a word; a recovery reports what connecting or reopening does. */
  lemma RecoverReports(s: State, reopen: bool)
    requires Sound(s)
    ensures Recover(s, reopen).out ==
            if !NextTick(AtConnect(s)).fault.Fine? then Fate(NextTick(AtConnect(s)).fault, ())
            else if reopen && s.consumerName != "" then Fate(NextTick(AtReopen(s)).fault, ())
            else Return(())
  {
    var closed := SafeCloseConsumer(s);
    var gone := SafeDisconnectQmgr(closed);
    ClosedSound(s);
    DisconnectedSound(closed);
    ConnectSound(gone);
    var r := ConnectSync(gone);
    if r.out.Return? {
      CallReports(r.st.qm, r.st.qmgr.value, NoEffect);
    }
  }

  /**
   An operation that breaks the connection raises what its recovery raises, if that fails, and
   otherwise what its second run does; it never raises what broke the connection the first time.
   */
  lemma PerformReports(s: State, op: Op)
    requires s.executor && !op.PingOp?
    ensures var s1 := Remember(s, op);
            var first := Once(s1, op);
            var recovered := Recover(first.st, Reopens(s1, op));
            Perform(s, op).out ==
            if !(first.out.Raise? && Retryable(first.out.exn)) then first.out
            else if recovered.out.Raise? then Raise(recovered.out.exn)
            else Once(recovered.st, op).out
  {
  }

  /** A publish reports an identifier that cannot be converted, or the put, but the closing of its queue before either. */
  lemma PublishReports(s: State, cmd: Command)
    requires Sound(s) && s.qmgr.Some?
    ensures var c := s.qmgr.value;
            var m1 := Call(s.qm, c, NoEffect).0;
            var (m2, put) := FillAndPut(m1, c, ToPublish(cmd));
            PublishOnce(s, cmd).out ==
            if !NextTick(s.qm).fault.Fine? then Fate(NextTick(s.qm).fault, Nothing)
            else if !NextTick(m2).fault.Fine? then Fate(NextTick(m2).fault, Nothing)
            else if put.Raise? then Raise(put.exn) else Return(Nothing)
  {
    var c := s.qmgr.value;
    var m1 := Call(s.qm, c, NoEffect).0;
    CallReports(s.qm, c, NoEffect);
    CallKept(s, s.qm, c, NoEffect);
    FillAndPutKept(s, m1, c, ToPublish(cmd));
    CallReports(FillAndPut(m1, c, ToPublish(cmd)).0, c, NoEffect);
  }

  /** The `try` block reports a malformed identifier before it calls anything, then the handle, then the put. */
  lemma FillReports(m: QueueManager, connection: nat, f: Filling)
    requires m.live == Some(connection)
    ensures var (m1, out) := FillAndPut(m, connection, f);
            if f.draft.Err? then out == Raise(ValueError) && m1 == m
            else
              var handled := if f.headers then Call(m, connection, NoEffect).0 else m;
              if f.headers && !NextTick(m).fault.Fine? then out.Raise? && out.exn == Fate(NextTick(m).fault, ()).exn
              else if !NextTick(handled).fault.Fine? then out.Raise? && out.exn == Fate(NextTick(handled).fault, ()).exn
              else out.Return?
  {
    if f.draft.Ok? {
      CallReports(m, connection, NoEffect);
      var m1 := if f.headers then Call(m, connection, NoEffect).0 else m;
      CallReports(m1.(putCalls := m1.putCalls + 1), connection, Place(f.queue, Stamp(f.draft.value, NextTick(m1).newId), f.syncpoint));
    }
  }

  /** A request that breaks the connection while it waits raises the breaking error, unless its recovery fails: then that one's. */
  lemma RequestReports(st: State, cmd: Command)
    requires st.executor && PublishRequest(st, cmd, 0).out.Return?
    ensures var r := PublishRequest(st, cmd, 0);
            var waited := CloseReply(WaitForReply(r.st, r.out.value), r.out.value);
            RequestSync(st, cmd).out ==
            if waited.out.Raise? && Retryable(waited.out.exn) && Recover(waited.st, false).out.Raise?
            then Raise(Recover(waited.st, false).out.exn) else waited.out
  {
  }

  /** `ping` is True exactly if its last run reached the queue manager, and then the connection is up. */
  lemma PingReports(s: State)
    requires Sound(s)
    ensures var r := Perform(s, PingOp);
            && r.out.Return? && r.out.value.Alive?
            && (r.out.value.alive ==> r.st.executor && r.st.qmgr.Some? && r.st.qm.live == r.st.qmgr)
            && (r.out.value.alive <==>
                  && s.executor && s.qmgr.Some?
                  && var fault := NextTick(s.qm).fault;
                     fault.Fine? || (IsReconnectable(fault.reason)
                                     && var recovered := Recover(PingOnce(s).st, false); recovered.out.Return? && NextTick(recovered.st.qm).fault.Fine?))
  {
    if s.executor && s.qmgr.Some? {
      CallReports(s.qm, s.qmgr.value, NoEffect);
      OnceSound(s, PingOp);
      var first := Once(s, PingOp);
      RecoverSound(first.st, false);
      var recovered := Recover(first.st, false).st;
      if recovered.qmgr.Some? {
        CallReports(recovered.qm, recovered.qmgr.value, NoEffect);
        CallKept(recovered, recovered.qm, recovered.qmgr.value, NoEffect);
      }
    }
  }

  /** Whether it fails or not, `start_consumer` has the name remembered. */
  lemma StartRemembers(s: State, queue: string)
    requires Sound(s) && s.executor
    ensures Perform(s, StartOp(queue)).st.consumerName == queue
  {
    var named := s.(consumerName := queue);
    var first := Once(named, StartOp(queue));
    assert first.st.consumerName == queue;
    StartSound(s, queue);
    RecoverSound(first.st, true);
    OpenSound(Recover(first.st, true).st, queue);
  }

  /** `stop_consumer` forgets handle and name together, or, if closing fails, neither, and reports the failure. */
  lemma StopReports(s: State)
    requires Sound(s) && s.executor && s.consumer.Some?
    ensures var r, fault := StopConsumer(s), NextTick(s.qm).fault;
            && r.out == Fate(fault, ())
            && (if fault.Fine? then r.st.consumer == None && r.st.consumerName == "" else r.st.consumer == s.consumer && r.st.consumerName == s.consumerName)
            && r.st.qmgr == s.qmgr
  {
    CallReports(s.qm, s.consumer.value.connection, NoEffect);
  }

  /** Without an executor nothing is called: operations raise, stopping and disconnecting return, and `ping` is False. */
  lemma NotStarted(s: State, op: Op, cmd: Command)
    requires !s.executor
    ensures Perform(s, op) == Done(s, if op.PingOp? then Return(Alive(false)) else Raise(AssertionError))
    ensures RequestSync(s, cmd) == Done(s, Raise(AssertionError))
    ensures StopConsumer(s) == Done(s, Return(())) && Disconnected(s) == s
  {
  }

  /** Nor without a queue manager: only connecting helps. */
  lemma NotConnected(s: State, op: Op, cmd: Command)
    requires s.executor && s.qmgr.None? && s.consumer.None?
    ensures Perform(s, op).out == (if op.PingOp? then Return(Alive(false)) else Raise(AssertionError))
    ensures Perform(s, op).st == Remember(s, op)
    ensures RequestSync(s, cmd) == Done(s, Raise(AssertionError))
  {
  }
}
