/**
 What a connection leaves behind: over whole runs a keystore is prepared exactly while there is
 a connection and TLS is configured, and a connection without an executor holds nothing at all.
 */
module Cleanup {
  import opened Wrappers
  import opened Messages
  import opened Mqi
  import opened Client
  import opened Handles
  import opened Requests

  /** Nothing is held: no executor, queue manager, consumer or keystore. */
  predicate Blank(s: State) {
    !s.executor && s.qmgr.None? && s.consumer.None? && !s.keystore
  }

  predicate Tidy(s: State) {
    && s.keystore == (s.qmgr.Some? && s.tls)
    && (!s.executor ==> Blank(s))
  }

  /** What opening and closing a consumer leaves alone. */
  predicate SameConnection(s: State, s': State) {
    s'.executor == s.executor && s'.qmgr == s.qmgr && s'.keystore == s.keystore && s'.tls == s.tls
  }

  lemma CloseKeepsConnection(s: State)
    ensures SameConnection(s, SafeCloseConsumer(s))
  {
  }

  lemma OpenKeepsConnection(s: State, queue: string)
    ensures SameConnection(s, OpenConsumer(s, queue).st)
  {
    CloseKeepsConnection(s);
  }

  lemma ConnectTidy(s: State)
    requires s.executor && (s.qmgr.Some? ==> s.keystore == s.tls)
    ensures Tidy(ConnectSync(s).st) && ConnectSync(s).st.executor && ConnectSync(s).st.tls == s.tls
  {
  }

  lemma RecoverTidy(s: State, reopen: bool)
    requires s.executor
    ensures Tidy(Recover(s, reopen).st) && Recover(s, reopen).st.executor && Recover(s, reopen).st.tls == s.tls
    ensures Recover(s, reopen).out.Raise? && Recover(s, reopen).st.qmgr.None? ==> !Recover(s, reopen).st.keystore
    ensures Recover(s, reopen).st.qmgr.Some? ==> Recover(s, reopen).st.keystore == s.tls
  {
    var gone := SafeDisconnectQmgr(SafeCloseConsumer(s));
    CloseKeepsConnection(s);
    ConnectTidy(gone);
    OpenKeepsConnection(ConnectSync(gone).st, s.consumerName);
  }

  lemma OnceTidy(s: State, op: Op)
    requires Sound(s) && s.executor && Tidy(s)
    ensures Tidy(Once(s, op).st) && Once(s, op).st.executor
  {
    if op.StartOp? {
      OpenKeepsConnection(s, op.queue);
    } else {
      OnceSound(s, op);
    }
  }

  /** `start_consumer` runs on a state with the new name and the old consumer, which need not be sound. */
  lemma StartTidy(s: State, queue: string)
    requires s.executor && Tidy(s)
    ensures Tidy(Perform(s, StartOp(queue)).st)
  {
    var named := s.(consumerName := queue);
    OpenKeepsConnection(named, queue);
    var first := OpenConsumer(named, queue).st;
    RecoverTidy(first, true);
    OpenKeepsConnection(Recover(first, true).st, queue);
  }

  lemma PerformTidy(s: State, op: Op)
    requires Sound(s) && Tidy(s)
    ensures Tidy(Perform(s, op).st)
  {
    if op.StartOp? {
      if s.executor { StartTidy(s, op.queue); }
    } else if s.executor {
      OnceTidy(s, op);
      OnceSound(s, op);
      var first := Once(s, op);
      var reopen := if op.PingOp? then false else Reopens(s, op);
      RecoverTidy(first.st, reopen);
      RecoverSound(first.st, reopen);
      OnceTidy(Recover(first.st, reopen).st, op);
    }
  }

  /** A turn that is not followed by another only calls the queue manager. */
  lemma LastTurnTidy(s: State, cmd: Command, attempt: nat)
    requires attempt == 0 ==> !AttemptBreaks(s, cmd)
    ensures PublishRequest(s, cmd, attempt).st == s.(qm := PublishRequest(s, cmd, attempt).st.qm)
  {
  }

  lemma PublishRequestTidy(s: State, cmd: Command, attempt: nat)
    requires s.executor && Tidy(s)
    ensures Tidy(PublishRequest(s, cmd, attempt).st) && PublishRequest(s, cmd, attempt).st.executor
  {
    if attempt == 0 && AttemptBreaks(s, cmd) {
      var a := TryRequest(s.qm, s.qmgr.value, cmd, s.queueManagerName);
      RecoverTidy(s.(qm := a.qm), false);
      SecondTurn(s, cmd);
      LastTurnTidy(AfterBreak(s, cmd), cmd, 1);
    } else {
      LastTurnTidy(s, cmd, attempt);
    }
  }

  lemma WaitTidy(s: State, p: Published)
    requires s.executor && Tidy(s)
    ensures Tidy(WaitForReply(s, p).st) && WaitForReply(s, p).st.executor
  {
  }

  lemma FinishTidy(r: Done<RawMessage>)
    requires r.st.executor && Tidy(r.st)
    ensures Tidy(FinishRequest(r).st)
  {
    RecoverTidy(r.st, false);
  }

  lemma RequestTidy(s: State, cmd: Command)
    requires Tidy(s)
    ensures Tidy(RequestSync(s, cmd).st)
  {
    if s.executor {
      PublishRequestTidy(s, cmd, 0);
      var sent := PublishRequest(s, cmd, 0);
      if sent.out.Return? {
        WaitTidy(sent.st, sent.out.value);
        FinishTidy(CloseReply(WaitForReply(sent.st, sent.out.value), sent.out.value));
      } else {
        FinishTidy(Done(sent.st, Raise(sent.out.exn)));
      }
    }
  }

  lemma DisconnectTidy(s: State)
    requires Tidy(s)
    ensures Blank(Disconnected(s))
  {
    CloseKeepsConnection(s);
  }

  lemma StepTidy(s: State, step: Step)
    requires Sound(s) && Tidy(s)
    ensures Tidy(AfterStep(s, step))
  {
    match step
    case Do(op) => PerformTidy(s, op);
    case DoConnect => ConnectTidy(s.(executor := true));
    case DoStopConsumer =>
    case DoDisconnect => DisconnectTidy(s);
    case DoRequest(cmd) => RequestTidy(s, cmd);
  }

  /** Over every run, with any faults: a keystore is held exactly while connected under TLS, and after a disconnect nothing is left. */
  lemma {:induction false} RunsStayTidy(s: State, steps: seq<Step>)
    requires Sound(s) && Tidy(s)
    ensures Tidy(Run(s, steps))
    ensures Blank(Run(s, steps + [DoDisconnect]))
    decreases |steps|
  {
    if steps != [] {
      StepSound(s, steps[0]);
      StepTidy(s, steps[0]);
      RunsStayTidy(AfterStep(s, steps[0]), steps[1..]);
      assert (steps + [DoDisconnect])[1..] == steps[1..] + [DoDisconnect];
    } else {
      DisconnectTidy(s);
      assert ([] + [DoDisconnect])[1..] == [];
      assert Run(Disconnected(s), []) == Disconnected(s);
    }
  }
}
