/**
 Fetching directly loses nothing: what becomes of messages that cannot be parsed, and what may be
 open, over every sequence of fetches and settlement calls.
 */
module DirectNoLoss {
  import opened Wrappers
  import opened Messages
  import opened Mqi
  import opened Client
  import opened Handles
  import opened Transactions
  import opened Settlement
  import opened Consuming
  import opened DirectMode
  import opened FaultFree
  import opened Draining
  import opened Outcomes
  import opened NoLoss

  // ---------- one fetch ----------

  /** A fetch that reaches the connection: no handlers, nothing held back, no test buffer. */
  predicate Reaches(ds: DirectState)
    requires Valid(ds)
  {
    !ds.handlers && !Blocked(ds) && ds.buffer.None? && ds.started
  }

  /** The state after the get of a fetch. */
  function Gotten(ds: DirectState): State {
    Perform(ds.st, GetOp).st
  }

  /** The message that a fetch got, if it got one. */
  function GottenRaw(ds: DirectState): Option<RawMessage> {
    match Perform(ds.st, GetOp).out
    case Return(Got(raw)) => raw
    case _ => None
  }

  /**
   A message that cannot be parsed is not handed out and does not stay open: unless its settlement
   leaves the unit of work open, that is empty afterwards, and everything that was in it is
   consumed if policy and exception say so and the MQCMIT is not lost, and back on its queue otherwise.
   */
  lemma UnparsableIsSettled(ds: DirectState, policy: AckPolicy, exc: ExcKind)
    requires Valid(ds) && Sound(ds.st) && ds.st.executor && Reaches(ds) && GottenRaw(ds).Some?
    requires !LeavesOpen(Gotten(ds))
    ensures var (ds', fetched) := FetchStep(ds, policy, Some(exc));
            var w, took := WorkOf(Gotten(ds).qm), Consumes(policy, exc) && !NextTick(Gotten(ds).qm).fault.Before?;
            && fetched == Unparsable(exc) && ds'.handed == ds.handed && ds'.direct == None
            && Sound(ds'.st) && ds'.st.executor && Later(Gotten(ds).qm, ds'.st.qm)
            && WorkOf(ds'.st.qm) == Work([], [], w.consumed + If(took, w.gets), w.sent + If(took, w.puts))
            && ds' == ds.(st := ds'.st, direct := None)
  {
    PerformSound(ds.st, GetOp);
    SettlesOpen(Gotten(ds), Consumes(policy, exc));
    SettledByTable(ds, policy, exc);
  }

  /** Which of commit and backout a fetch calls for a message it cannot parse. */
  lemma SettledByTable(ds: DirectState, policy: AckPolicy, exc: ExcKind)
    requires Valid(ds) && Reaches(ds) && GottenRaw(ds).Some?
    ensures FetchStep(ds, policy, Some(exc))
         == (ds.(st := Perform(Gotten(ds), SettleOp(Consumes(policy, exc))).st, direct := None), Unparsable(exc))
  {
  }

  /** What was parsed is handed out, remembered under MANUAL, and left open. */
  lemma ParsedIsHanded(ds: DirectState, policy: AckPolicy)
    requires Valid(ds) && Reaches(ds) && GottenRaw(ds).Some?
    ensures FetchStep(ds, policy, None)
         == (ds.(st := Gotten(ds), handed := ds.handed + [Fresh(true)], direct := if policy.MANUAL? then Some(|ds.handed|) else None),
             Handed(GottenRaw(ds).value))
  {
  }

  /** A fetch from the test buffer takes its first message, and reports that there is none only if there is none. */
  lemma BufferInOrder(ds: DirectState, policy: AckPolicy, parseError: Option<ExcKind>)
    requires Valid(ds) && !ds.handlers && !Blocked(ds) && ds.buffer.Some?
    ensures var (ds', fetched), buffer := FetchStep(ds, policy, parseError), ds.buffer.value;
            && ds'.st == ds.st
            && (fetched == NoMessage <==> buffer == [])
            && (if buffer == [] then ds' == ds.(direct := None)
                else ds'.buffer == Some(buffer[1..])
                     && fetched == if parseError.Some? then Unparsable(parseError.value) else Handed(buffer[0]))
  {
  }

  /** Every other answer of a fetch: what it means, and that nothing but the gate has changed. */
  lemma FetchReports(ds: DirectState, policy: AckPolicy, parseError: Option<ExcKind>)
    requires Valid(ds)
    ensures var step, free := FetchStep(ds, policy, parseError), ds.(direct := None);
            && (ds.handlers ==> step == (ds, Failed(AssertionError)))
            && (!ds.handlers && Blocked(ds) ==> step == (ds, Refused))
            && (!ds.handlers && !Blocked(ds) && ds.buffer.None? && !ds.started ==> step == (free, Failed(AssertionError)))
            && (Reaches(ds) && Perform(ds.st, GetOp).out.Raise? ==>
                  step == (free.(st := Gotten(ds)), Failed(Perform(ds.st, GetOp).out.exn)))
            && (Reaches(ds) && Perform(ds.st, GetOp).out == Return(Got(None)) ==> step == (free.(st := Gotten(ds)), NoMessage))
  {
  }

  /** Other policies have no gate: whoever fetches is never refused. */
  lemma {:induction false} NeverRefusedOtherwise(ds: DirectState, policy: AckPolicy, events: seq<DirectMode.Event>)
    requires Valid(ds) && ds.direct.None? && !policy.MANUAL?
    ensures DirectMode.Run(ds, policy, events).direct.None?
    ensures forall parseError :: FetchStep(DirectMode.Run(ds, policy, events), policy, parseError).1 != Refused
    decreases |events|
  {
    if events != [] {
      NeverRefusedOtherwise(DirectMode.Step(ds, policy, events[0]), policy, events[1..]);
    }
  }

  /** On a connection on which nothing fails, a fetch hands out the first message of the queue, and leaves everything as it was if there is none. */
  lemma HealthyFetch(ds: DirectState, n: string, policy: AckPolicy)
    requires Valid(ds) && Reaches(ds) && Healthy(ds.st, n) && ds.st.qm.gets == []
    ensures var (ds', fetched), stored := FetchStep(ds, policy, None), ds.st.qm.stored;
            var i := FirstOn(stored, n, None);
            if i == |stored| then fetched == NoMessage && ds' == ds.(direct := None)
            else
              && fetched == Handed(Receive(stored[i].1, n)) && ds'.handed == ds.handed + [Fresh(true)]
              && ds'.st.qm.gets == [stored[i]] && ds'.st.qm.stored == Without(stored, i)
  {
    HealthyGet(ds.st, n);
    if FirstOn(ds.st.qm.stored, n, None) < |ds.st.qm.stored| {
      ParsedIsHanded(ds, policy);
    }
  }

  /** And one that cannot be parsed is consumed or put back, by the table. */
  lemma HealthyUnparsable(ds: DirectState, n: string, policy: AckPolicy, exc: ExcKind)
    requires Valid(ds) && Reaches(ds) && Healthy(ds.st, n) && ds.st.qm.gets == []
    requires FirstOn(ds.st.qm.stored, n, None) < |ds.st.qm.stored|
    ensures var (ds', fetched) := FetchStep(ds, policy, Some(exc));
            && fetched == Unparsable(exc) && ds'.handed == ds.handed
            && PutAway(ds.st.qm, n, Consumes(policy, exc), ds'.st.qm)
  {
    HealthyGet(ds.st, n);
    SettledByTable(ds, policy, exc);
    GetAndSettle(ds.st, n, Consumes(policy, exc));
  }

  /** The first message of queue n was consumed, or is in front of its queue. */
  predicate PutAway(before: QueueManager, n: string, commit: bool, after: QueueManager) {
    var i := FirstOn(before.stored, n, None);
    && i < |before.stored| && after.gets == []
    && if commit then after.consumed == before.consumed + [before.stored[i]] && after.stored == Without(before.stored, i)
       else after.consumed == before.consumed && after.stored == [before.stored[i]] + Without(before.stored, i)
  }

  lemma GetAndSettle(st: State, n: string, commit: bool)
    requires Healthy(st, n) && st.qm.gets == [] && FirstOn(st.qm.stored, n, None) < |st.qm.stored|
    ensures PutAway(st.qm, n, commit, Perform(Perform(st, GetOp).st, SettleOp(commit)).st.qm)
  {
    HealthyGet(st, n);
    HealthySettle(Perform(st, GetOp).st, n, commit);
  }

  // ---------- every sequence ----------

  /** The caller holds an unsettled message. */
  predicate Holding(ds: DirectState)
    requires Valid(ds)
  {
    Blocked(ds)
  }

  /** Under MANUAL the unit of work holds at most one message, and one only while the caller holds it unsettled. */
  ghost predicate DirectOk(ds: DirectState) {
    && OnlyTheDirectOne(ds) && Sound(ds.st) && ds.st.executor && !ds.handlers && ds.buffer.None? && ds.started
    && (forall i :: 0 <= i < |ds.handed| ==> ds.handed[i].connected && ds.handed[i].committed == ds.handed[i].settled)
    && (ds.st.qm.gets == [] || (|ds.st.qm.gets| == 1 && Holding(ds)))
  }

  /** A fetch does not leave behind what nobody has: neither by raising, nor by failing to settle what it could not parse. */
  ghost predicate LeavesNothing(ds: DirectState, e: DirectMode.Event)
    requires Valid(ds)
  {
    e.Fetch? && Reaches(ds) ==>
      && (Perform(ds.st, GetOp).out.Raise? ==> Gotten(ds).qm.gets == [])
      && (GottenRaw(ds).Some? && e.parseError.Some? ==> !LeavesOpen(Gotten(ds)))
  }

  /** What is known of each event. */
  ghost predicate EventOk(ds: DirectState, e: DirectMode.Event)
    requires Valid(ds)
  {
    var ds' := DirectMode.Step(ds, MANUAL, e);
    e.Fetch? && e.parseError.Some? && Reaches(ds) && GottenRaw(ds).Some? ==>
      var own := Own(GottenRaw(ds).value);
      var took := Consumes(MANUAL, e.parseError.value) && !NextTick(Gotten(ds).qm).fault.Before?;
      && ds.st.qm.gets == [] && ds'.st.qm.gets == []
      && ds'.st.qm.consumed == ds.st.qm.consumed + If(took, [own])
      && (!took ==> own in ds'.st.qm.stored)
  }

  ghost predicate AllLeaveNothing(ds: DirectState, events: seq<DirectMode.Event>)
    requires Valid(ds)
    decreases |events|
  {
    events == [] || (LeavesNothing(ds, events[0]) && AllLeaveNothing(DirectMode.Step(ds, MANUAL, events[0]), events[1..]))
  }

  ghost predicate AllEventsOk(ds: DirectState, events: seq<DirectMode.Event>)
    requires Valid(ds)
    decreases |events|
  {
    events == [] || (EventOk(ds, events[0]) && AllEventsOk(DirectMode.Step(ds, MANUAL, events[0]), events[1..]))
  }

  lemma UnparsableOk(ds: DirectState, exc: ExcKind)
    requires DirectOk(ds) && Reaches(ds) && GottenRaw(ds).Some? && !LeavesOpen(Gotten(ds))
    ensures var e := Fetch(Some(exc)); DirectOk(DirectMode.Step(ds, MANUAL, e)) && EventOk(ds, e)
  {
    var own := Own(GottenRaw(ds).value);
    var got, after := Gotten(ds), FetchStep(ds, MANUAL, Some(exc)).0.st;
    GetOk(ds.st);
    UnparsableIsSettled(ds, MANUAL, exc);
    FetchGate(ds, Some(exc));
    var took := Consumes(MANUAL, exc) && !NextTick(got.qm).fault.Before?;
    if !took {
      assert got.qm.consumed + [] == got.qm.consumed;
      assert Grown(got.qm, after.qm, own);
      NoLoss.BackOnQueue(got, own, after);
    }
  }

  lemma OtherFetchOk(ds: DirectState, e: DirectMode.Event)
    requires DirectOk(ds) && e.Fetch? && LeavesNothing(ds, e)
    requires !(Reaches(ds) && GottenRaw(ds).Some? && e.parseError.Some?)
    ensures DirectOk(DirectMode.Step(ds, MANUAL, e)) && EventOk(ds, e)
  {
    FetchGate(ds, e.parseError);
    if Reaches(ds) {
      GetOk(ds.st);
      if GottenRaw(ds).Some? {
        ParsedIsHanded(ds, MANUAL);
      } else {
        NothingGotten(ds, e.parseError);
      }
    }
  }

  lemma NothingGotten(ds: DirectState, parseError: Option<ExcKind>)
    requires Valid(ds) && Reaches(ds) && GottenRaw(ds).None?
    ensures FetchStep(ds, MANUAL, parseError).0 == ds.(st := Gotten(ds), direct := None)
  {
  }

  /** A settlement call of the caller: it settles the message, or leaves it open and held. */
  lemma SettleOk(ds: DirectState, e: DirectMode.Event)
    requires DirectOk(ds) && e.Settle?
    ensures DirectOk(DirectMode.Step(ds, MANUAL, e)) && EventOk(ds, e)
  {
    SettleGate(ds, e);
    if e.index < |ds.handed| {
      var d, commit := ds.handed[e.index], Commits(e.turn.call);
      if d.committed.None? && d.connected && Runs(e.turn) {
        SettleKeepsOne(ds.st, commit);
      }
    }
  }

  /** A settlement call leaves what is open, or empties it; and it has emptied it if it returns. */
  lemma SettleKeepsOne(st: State, commit: bool)
    requires Sound(st) && st.executor
    ensures var r := Perform(st, SettleOp(commit));
            && Sound(r.st) && r.st.executor
            && (r.st.qm.gets == st.qm.gets || r.st.qm.gets == []) && (r.out.Return? ==> r.st.qm.gets == [])
  {
    PerformSound(st, SettleOp(commit));
    SettleExactly(st, commit);
    SettleOnceExactly(st, commit);
  }

  /**
   Over every sequence of fetches and settlement calls under MANUAL, with any faults, unless a
   fetch leaves behind a message nobody has: at most one message is open, and it is the one the
   caller holds unsettled; and every message that could not be parsed was consumed, if its
   exception says so and its MQCMIT was not lost, and is back on its queue otherwise.
   */
  lemma {:induction false} FetchingLosesNothing(ds: DirectState, events: seq<DirectMode.Event>)
    requires DirectOk(ds) && AllLeaveNothing(ds, events)
    ensures DirectOk(DirectMode.Run(ds, MANUAL, events)) && AllEventsOk(ds, events)
    decreases |events|
  {
    if events != [] {
      var e := events[0];
      if e.Settle? {
        SettleOk(ds, e);
      } else if Reaches(ds) && GottenRaw(ds).Some? && e.parseError.Some? {
        UnparsableOk(ds, e.parseError.value);
      } else {
        OtherFetchOk(ds, e);
      }
      FetchingLosesNothing(DirectMode.Step(ds, MANUAL, e), events[1..]);
    }
  }
}
