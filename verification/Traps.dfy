/**
 What the adapter does not promise, by example: each of these shows why a hypothesis of
 the theorems in `NoLoss` is needed, or why a conclusion is not stronger.
 */
module Traps {
  import opened Wrappers
  import opened Messages
  import opened Mqi
  import opened Client
  import opened Settlement
  import opened Consuming
  import opened FaultFree
  import opened Draining

  const PLAIN := Handling(None, [], None, None, None, false)

  /**
   A settlement that fails without a reconnectable reason leaves its message in the unit of
   work: the call raises, and nothing has changed.
   */
  lemma FailedSettlementStrands(st: State, n: string, commit: bool, code: int)
    requires Healthy(st.(qm := st.qm.(script := [])), n)
    requires st.qm.script == [Tick(Before(OtherReason(code)), [], "", [])]
    ensures var r := Perform(st, SettleOp(commit));
            r.out.Raise? && r.st.qm.gets == st.qm.gets && r.st.qm.consumed == st.qm.consumed && Healthy(r.st, n)
  {
  }

  /** The loop goes on, and the commit of the next delivery consumes both messages. */
  lemma StrandedMessageIsCommittedByTheNext(st: State, n: string, stranded: Parcel)
    requires Healthy(st, n) && st.qm.gets == [stranded] && On(st.qm.stored, n) != []
    ensures Next(Begin(st), ACK, Iterate(PLAIN, None, true)).st.qm.consumed == st.qm.consumed + [stranded, On(st.qm.stored, n)[0]]
  {
    var i := FirstIndex(st.qm.stored, n);
    var first := st.qm.stored[i];
    FirstIsTaken(st.qm.stored, n, n);
    var reply, calls := HealthyTurn(Begin(st), n, ACK, Iterate(PLAIN, None, true));
    HealthySettle(st.(qm := st.qm.(stored := Without(st.qm.stored, i), gets := [stranded] + [first], puts := reply, putCalls := calls)), n, true);
    assert st.qm.consumed + ([stranded] + [first]) == st.qm.consumed + [stranded, first];
  }

  /** A delivery that nobody has settled when the loop ends: the subscriber was stopped before it, or MANUAL waits for it. */
  predicate LeftOpen(policy: AckPolicy, e: Event) {
    e.Iterate? && e.held.None? && (!e.running || (policy.MANUAL? && e.h == PLAIN))
  }

  lemma LeftOpenTurn(ls: LoopState, n: string, policy: AckPolicy, e: Event)
    requires Ready(ls, n) && On(ls.st.qm.stored, n) != [] && LeftOpen(policy, e)
    ensures var next, first := Next(ls, policy, e), On(ls.st.qm.stored, n)[0];
            && next.over && Calm(next.st, n) && next.st.qm.gets == [first] && next.st.qm.consumed == ls.st.qm.consumed
            && |next.log| == |ls.log| + 1 && next.log[|ls.log|].quiet && next.log[|ls.log|].d == Fresh(true)
  {
    FirstIsTaken(ls.st.qm.stored, n, n);
    HealthyGet(ls.st, n);
    LeftOpenConsume(Perform(ls.st, GetOp).st, Receive(On(ls.st.qm.stored, n)[0].1, n), policy, e);
  }

  lemma LeftOpenConsume(taken: State, raw: RawMessage, policy: AckPolicy, e: Event)
    requires LeftOpen(policy, e)
    ensures ConsumeAndWait(taken, raw, policy, e) == Arrived(taken, Fresh(true))
  {
    var p := Arrived(taken, Fresh(true));
    assert HandlerCalls(p, PLAIN.calls) == p;
    assert Respond(p, raw, PLAIN) == p;
  }

  /** Stopping the subscriber then consumes its message, which no one has acknowledged, in a run without a single fault. */
  lemma StopConsumesUnsettled(ls: LoopState, n: string, policy: AckPolicy, e: Event)
    requires Ready(ls, n) && On(ls.st.qm.stored, n) != [] && LeftOpen(policy, e)
    ensures var end := RunLoop(ls, policy, [e, Shutdown]);
            && end.st.qm.consumed == ls.st.qm.consumed + [On(ls.st.qm.stored, n)[0]]
            && |end.log| == |ls.log| + 1 && end.log[|ls.log|].quiet && end.log[|ls.log|].d.settled == None
  {
    LeftOpenTurn(ls, n, policy, e);
    var next := Next(ls, policy, e);
    assert [e, Shutdown][1..] == [Shutdown] && [Shutdown][1..] == [];
    assert RunLoop(Next(next, policy, Shutdown), policy, []) == Next(next, policy, Shutdown);
    CalmStop(next.st, n);
  }

  lemma CalmStop(st: State, n: string)
    requires Calm(st, n)
    ensures StopConnection(st).qm.consumed == st.qm.consumed + st.qm.gets
  {
  }

  /** Acknowledging a kept message that `consume` has settled commits whatever delivery is open by then. */
  lemma LateAckCommitsAnother(ls: LoopState, n: string, i: nat, other: Parcel)
    requires i < |ls.log| && Healthy(ls.st, n) && ls.st.qm.gets == [other]
    requires ls.log[i].d.connected && ls.log[i].d.committed == None && ls.log[i].d.settled.Some?
    ensures Next(ls, MANUAL, Late(i, Plainly(AckCall))).st.qm.consumed == ls.st.qm.consumed + [other]
  {
    HealthySettle(ls.st, n, true);
  }

  /** ACKED does not mean consumed: a commit that loses the connection first succeeds on the empty unit of work of the next. */
  lemma AckedYetRedelivered(st: State, n: string, own: Parcel)
    requires st.qm.script == [Tick(Before(ConnectionBroken), [], "", [])]
    requires Healthy(st.(qm := st.qm.(script := [])), n) && st.qm.gets == [own]
    requires st.qm.live.value < st.qm.nextConnection
    ensures var r := SettleMessage(st, Fresh(true), Plainly(AckCall));
            && r.out.Return? && r.d.settled == Some(ACKED)
            && r.st.qm.consumed == st.qm.consumed && r.st.qm.stored == [own] + st.qm.stored
  {
    var first := Once(st, CommitOp);
    assert first.st.qm.script == [] && first.st.qm.gets == [] && first.st.qm.stored == [own] + st.qm.stored;
    var closed := SafeCloseConsumer(first.st);
    var gone := SafeDisconnectQmgr(closed);
    assert gone.qm.consumed == st.qm.consumed && gone.qm.stored == [own] + st.qm.stored;
    var back := ConnectSync(gone);
    assert back.out.Return? && back.st.qm.stored == [own] + st.qm.stored;
    var open := OpenConsumer(back.st, n);
    assert open.out.Return? && open.st.qm.stored == [own] + st.qm.stored;
    assert Recover(first.st, true) == open;
    var again := Once(open.st, CommitOp);
    assert again.out.Return?;
  }

  /**
   NACKED does not mean redelivered if a settlement call has raised: a commit that takes effect and
   reports a failure is followed by a backout of nothing, which is what is recorded.
   */
  lemma NackedYetConsumed(st: State, n: string, own: Parcel, code: int)
    requires st.qm.script == [Tick(After(OtherReason(code)), [], "", [])]
    requires Healthy(st.(qm := st.qm.(script := [])), n) && st.qm.gets == [own]
    ensures var r := SettleMessage(st, Fresh(true), Plainly(AckCall));
            var r' := SettleMessage(r.st, r.d, Plainly(NackCall));
            && r.out.Raise? && r'.out.Return? && r'.d.settled == Some(NACKED)
            && r'.st.qm.consumed == st.qm.consumed + [own]
  {
    var r := SettleMessage(st, Fresh(true), Plainly(AckCall));
    assert r.st.qm.script == [] && r.st.qm.consumed == st.qm.consumed + [own] && r.st.qm.gets == [];
    assert Calm(r.st, n);
    HealthySettle(r.st, n, false);
  }

  /** A reply after the settlement, as under ACK_FIRST, waits for the next one: its message is consumed, and it is pending, not shown. */
  lemma ReplyAfterAckWaits(taken: State, n: string, own: Parcel, raw: RawMessage, h: Handling, cmd: Command)
    requires Healthy(taken, n) && taken.qm.gets == [own]
    requires h == PLAIN.(response := Some(Native(cmd))) && raw.replyTo != "" && PublishDraft(ReplyCommand(raw, cmd)).Ok?
    ensures var p := Consume(taken, Fresh(true), raw, ACK_FIRST, h, true);
            && p.clean && p.replied && p.d.settled == Some(ACKED)
            && p.st.qm.consumed == taken.qm.consumed + [own]
            && |p.st.qm.puts| == 1 && p.st.qm.sent == taken.qm.sent
  {
    HealthySettle(taken, n, true);
    var acked := SettleIn(Arrived(taken, Fresh(true)), Plainly(AckCall));
    assert taken.qm.sent + [] == taken.qm.sent;
    assert Healthy(acked.st, n) && acked.st.qm.consumed == taken.qm.consumed + [own] && acked.st.qm.sent == taken.qm.sent;
    HealthyPublish(acked.st, n, ReplyCommand(raw, cmd));
    assert HandlerCalls(acked, h.calls) == acked;
    assert Consume(taken, Fresh(true), raw, ACK_FIRST, h, true) == Respond(acked, raw, h);
  }
}
