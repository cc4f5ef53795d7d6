/**
 What `stop_consumer` promises, and the connections that never have a consumer: whether a
 later recovery can bring one back.
 */
module Stopping {
  import opened Wrappers
  import opened Messages
  import opened Mqi
  import opened Client
  import opened Handles

  /** No consumer, and no queue remembered to reopen. */
  predicate NoConsumer(s: State) {
    s.consumer.None? && s.consumerName == ""
  }

  lemma RecoverWithoutConsumer(s: State, reopen: bool)
    requires Sound(s) && NoConsumer(s)
    ensures NoConsumer(Recover(s, reopen).st)
  {
    RecoverSound(s, reopen);
  }

  /** Nothing but `start_consumer` gives a connection a consumer. */
  lemma PerformWithoutConsumer(s: State, op: Op)
    requires Sound(s) && NoConsumer(s) && !op.StartOp?
    ensures NoConsumer(Perform(s, op).st)
  {
    OnceSound(s, op);
    var first := Once(s, op);
    var reopen := if op.PingOp? then false else Reopens(s, op);
    RecoverWithoutConsumer(first.st, reopen);
    RecoverSound(first.st, reopen);
    OnceSound(Recover(first.st, reopen).st, op);
  }

  lemma {:induction false} PublishRequestWithoutConsumer(s: State, cmd: Command, attempt: nat)
    requires Sound(s) && NoConsumer(s)
    ensures NoConsumer(PublishRequest(s, cmd, attempt).st)
    decreases 2 - attempt
  {
    if attempt < 2 && s.qmgr.Some? {
      var c := s.qmgr.value;
      var a := TryRequest(s.qm, c, cmd, s.queueManagerName);
      var tried := s.(qm := a.qm);
      TryRequestSound(s, c, cmd);
      var recovered := Recover(tried, false).st;
      RecoverSound(tried, false);
      RecoverWithoutConsumer(tried, false);
      CloseAttemptKept(recovered, c, a);
      if a.out.Raise? && Retryable(a.out.exn) && attempt == 0 {
        PublishRequestWithoutConsumer(recovered.(qm := CloseAttempt(recovered.qm, c, a)), cmd, attempt + 1);
      }
    }
  }

  /** A request never gives its connection a consumer. */
  lemma RequestWithoutConsumer(s: State, cmd: Command)
    requires Sound(s) && NoConsumer(s)
    ensures NoConsumer(RequestSync(s, cmd).st)
  {
    PublishRequestSound(s, cmd, 0);
    PublishRequestWithoutConsumer(s, cmd, 0);
    var sent := PublishRequest(s, cmd, 0);
    if sent.out.Return? {
      var p := sent.out.value;
      WaitSound(sent.st, p);
      WaitWithoutConsumer(sent.st, p);
      var waited := WaitForReply(sent.st, p);
      CloseDynamicKept(waited.st, waited.st.qm, p.replyHandle.connection, p.replyHandle.queue);
      FinishWithoutConsumer(CloseReply(waited, p));
    } else {
      FinishWithoutConsumer(Done(sent.st, Raise(sent.out.exn)));
    }
  }

  lemma WaitWithoutConsumer(s: State, p: Published)
    requires NoConsumer(s)
    ensures NoConsumer(WaitForReply(s, p).st)
  {
  }

  lemma FinishWithoutConsumer(r: Done<RawMessage>)
    requires Sound(r.st) && NoConsumer(r.st)
    ensures NoConsumer(FinishRequest(r).st)
  {
    RecoverWithoutConsumer(r.st, false);
  }

  // ---------- after a stop ----------

  ghost predicate NoStart(steps: seq<Step>) {
    forall i :: 0 <= i < |steps| ==> !(steps[i].Do? && steps[i].op.StartOp?)
  }

  predicate Connects(step: Step) {
    step.DoConnect?
  }

  /** Everything a client may do but start a consumer or connect again. */
  ghost predicate NoStartOrConnect(steps: seq<Step>) {
    NoStart(steps) && forall i :: 0 <= i < |steps| ==> !Connects(steps[i])
  }

  /** The state with other faults ahead of it. */
  function WithScript(s: State, script: seq<Tick>): State {
    s.(qm := s.qm.(script := script))
  }

  lemma WithScriptSound(s: State, script: seq<Tick>)
    requires Sound(s)
    ensures Sound(WithScript(s, script))
  {
    SameParcelsBalanced(s.qm, s.qm.(script := script));
  }

  lemma StepWithoutConsumer(s: State, step: Step)
    requires Sound(s) && NoConsumer(s) && !(step.Do? && step.op.StartOp?)
    ensures NoConsumer(AfterStep(s, step))
  {
    match step
    case Do(op) => PerformWithoutConsumer(s, op);
    case DoRequest(cmd) => RequestWithoutConsumer(s, cmd);
    case _ =>
  }

  /** With neither a consumer nor a name for one, no sequence of steps but a start opens one. */
  lemma {:induction false} StaysWithoutConsumer(s: State, steps: seq<Step>)
    requires Sound(s) && NoConsumer(s) && NoStart(steps)
    ensures NoConsumer(Run(s, steps))
    decreases |steps|
  {
    if steps != [] {
      StepSound(s, steps[0]);
      StepWithoutConsumer(s, steps[0]);
      StaysWithoutConsumer(AfterStep(s, steps[0]), steps[1..]);
    }
  }

  /** A connection that lost its queue manager as well: nothing reaches anything. */
  lemma StepWithoutManager(s: State, step: Step)
    requires s.qmgr.None? && s.consumer.None? && !(step.Do? && step.op.StartOp?) && !step.DoConnect?
    ensures AfterStep(s, step).qmgr.None? && AfterStep(s, step).consumer.None?
  {
  }

  lemma {:induction false} StaysWithoutManager(s: State, steps: seq<Step>)
    requires s.qmgr.None? && s.consumer.None? && NoStartOrConnect(steps)
    ensures Run(s, steps).consumer.None?
    decreases |steps|
  {
    if steps != [] {
      assert !Connects(steps[0]);
      StepWithoutManager(s, steps[0]);
      assert forall i :: 0 <= i < |steps[1..]| ==> steps[1..][i] == steps[i + 1];
      StaysWithoutManager(AfterStep(s, steps[0]), steps[1..]);
    }
  }

  const BREAK := Tick(Before(ConnectionBroken), [], "", [])
  const FINE := Tick(Fine, [], "", [])

  /** A commit that loses its connection, and nothing else going wrong: the recovery opens the remembered queue. */
  lemma CommitBringsBack(s: State, n: string)
    requires Sound(s) && s.executor && s.qmgr.Some? && s.consumer.None? && s.consumerName == n && n != ""
    ensures var r := Perform(WithScript(s, [BREAK]), CommitOp); r.out.Return? && OpenOn(r.st, n)
  {
    var st := WithScript(s, [BREAK]);
    WithScriptSound(s, [BREAK]);
    var first := Once(st, CommitOp);
    assert first.st.qm.script == [];
    var gone := SafeDisconnectQmgr(SafeCloseConsumer(first.st));
    assert gone.qm.script == [];
    var back := ConnectSync(gone);
    assert back.out.Return? && back.st.qm.script == [];
    var reopened := OpenConsumer(back.st, n);
    assert reopened.out.Return? && reopened.st.qm.script == [];
    assert Recover(first.st, true) == reopened;
    OnceSound(st, CommitOp);
    RecoverSound(first.st, true);
    assert Once(reopened.st, CommitOp).out.Return?;
    LostConsumer(st, CommitOp, n);
  }

  /** The same after connecting again, where the queue manager was gone too. */
  lemma ConnectBringsBack(s: State, n: string)
    requires Sound(s) && s.executor && s.qmgr.None? && s.consumer.None? && s.consumerName == n && n != ""
    ensures OpenOn(Run(WithScript(s, [FINE, BREAK]), [DoConnect, Do(CommitOp)]), n)
  {
    var st := WithScript(s, [FINE, BREAK]);
    var connected := Connected(st).st;
    WithScriptSound(s, [FINE, BREAK]);
    StepSound(st, DoConnect);
    assert [FINE, BREAK][1..] == [BREAK];
    assert connected == WithScript(connected, [BREAK]);
    CommitBringsBack(connected, n);
    TwoSteps(st, DoConnect, Do(CommitOp));
  }

  lemma OneStep(s: State, step: Step)
    ensures Run(s, [step]) == AfterStep(s, step)
  {
    assert [step][1..] == [];
  }

  lemma TwoSteps(s: State, first: Step, second: Step)
    ensures Run(s, [first, second]) == AfterStep(AfterStep(s, first), second)
  {
    assert [first, second][1..] == [second];
    OneStep(AfterStep(s, first), second);
  }

  /**
   A `stop_consumer` that returns has stopped for good, over all faults and everything a client
   may do but start a consumer or connect again, exactly when there was a consumer to stop, or no
   remembered queue, or no queue manager. After a recovery that failed to reopen there is a name
   without a consumer; stopping keeps it, and a later recovery opens it.
   */
  lemma StoppedForGood(s: State)
    requires Sound(s) && s.executor && StopConsumer(s).out.Return?
    ensures (forall script, steps :: NoStartOrConnect(steps) ==> Run(WithScript(StopConsumer(s).st, script), steps).consumer.None?)
            <==> s.consumer.Some? || s.consumerName == "" || s.qmgr.None?
  {
    var stopped := StopConsumer(s).st;
    StepSound(s, DoStopConsumer);
    if s.consumer.Some? || s.consumerName == "" || s.qmgr.None? {
      forall script, steps | NoStartOrConnect(steps) ensures Run(WithScript(stopped, script), steps).consumer.None? {
        StaysStopped(stopped, script, steps);
      }
    } else {
      CommitBringsBack(s, s.consumerName);
      OneStep(WithScript(s, [BREAK]), Do(CommitOp));
      assert NoStartOrConnect([Do(CommitOp)]);
      assert Run(WithScript(stopped, [BREAK]), [Do(CommitOp)]).consumer.Some?;
    }
  }

  lemma StaysStopped(s: State, script: seq<Tick>, steps: seq<Step>)
    requires Sound(s) && s.consumer.None? && (s.consumerName == "" || s.qmgr.None?) && NoStartOrConnect(steps)
    ensures Run(WithScript(s, script), steps).consumer.None?
  {
    if s.consumerName == "" {
      WithScriptSound(s, script);
      StaysWithoutConsumer(WithScript(s, script), steps);
    } else {
      StaysWithoutManager(WithScript(s, script), steps);
    }
  }

  /** If the client may connect again, a lost queue manager is no protection: only a consumer that was there, or a name that was not. */
  lemma StoppedForGoodThroughConnect(s: State)
    requires Sound(s) && s.executor && StopConsumer(s).out.Return?
    ensures (forall script, steps :: NoStart(steps) ==> Run(WithScript(StopConsumer(s).st, script), steps).consumer.None?)
            <==> s.consumer.Some? || s.consumerName == ""
  {
    var stopped := StopConsumer(s).st;
    StepSound(s, DoStopConsumer);
    if s.consumer.Some? || s.consumerName == "" {
      forall script, steps | NoStart(steps) ensures Run(WithScript(stopped, script), steps).consumer.None? {
        WithScriptSound(stopped, script);
        StaysWithoutConsumer(WithScript(stopped, script), steps);
      }
    } else if s.qmgr.Some? {
      CommitBringsBack(s, s.consumerName);
      OneStep(WithScript(s, [BREAK]), Do(CommitOp));
      assert NoStart([Do(CommitOp)]);
      assert Run(WithScript(stopped, [BREAK]), [Do(CommitOp)]).consumer.Some?;
    } else {
      ConnectBringsBack(s, s.consumerName);
      assert NoStart([DoConnect, Do(CommitOp)]);
      assert Run(WithScript(stopped, [FINE, BREAK]), [DoConnect, Do(CommitOp)]).consumer.Some?;
    }
  }

  /** Where it fails: the stop returns and does nothing, and one lost commit later the consumer is open on its queue. */
  lemma StoppedConsumerReturns(s: State, n: string)
    requires Sound(s) && s.executor && s.qmgr.Some? && s.consumer.None? && s.consumerName == n && n != ""
    ensures StopConsumer(s) == Done(s, Return(()))
    ensures var r := Perform(WithScript(StopConsumer(s).st, [BREAK]), CommitOp); r.out.Return? && OpenOn(r.st, n)
  {
    CommitBringsBack(s, n);
  }
}
