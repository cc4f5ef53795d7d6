/**
 No message is lost: every delivery of every run of the consume loop, with faults
 anywhere and stops at any time, as long as no settlement call raises and no message is
 settled after `consume` has settled it.
 */
module NoLoss {
  import opened Wrappers
  import opened Messages
  import opened Mqi
  import opened Client
  import opened Handles
  import opened Transactions
  import opened Settlement
  import opened Consuming
  import opened Shutdown

  // ---------- one delivery ----------

  function Own(raw: RawMessage): Parcel {
    (raw.queue, raw.metadata)
  }

  /** A settlement that begins here finds the message in the unit of work, and its first call is not lost before its effect. */
  predicate TakesEffect(at: QueueManager, own: Parcel) {
    at.gets == [own] && !NextTick(at).fault.Before?
  }

  /** The first settlement call that reached the broker was a commit that took effect. */
  predicate Took(attempt: Option<Attempted>, own: Parcel) {
    attempt.Some? && attempt.value.commit && TakesEffect(attempt.value.at.qm, own)
  }

  function If(took: bool, parcels: seq<Parcel>): seq<Parcel> {
    if took then parcels else []
  }

  /** The status that belongs to a settlement call. */
  function StatusOfAttempt(attempt: Option<Attempted>): Option<AckStatus> {
    if attempt.None? then None else Some(StatusOf(attempt.value.commit))
  }

  /** A settlement call that does not leave the unit of work open empties it: its first call decides how. */
  lemma SettlesOpen(st: State, commit: bool)
    requires Sound(st) && !LeavesOpen(st)
    ensures var r, w := Perform(st, SettleOp(commit)), WorkOf(st.qm);
            var took := commit && !NextTick(st.qm).fault.Before?;
            && Sound(r.st) && r.st.executor == st.executor && Later(st.qm, r.st.qm)
            && WorkOf(r.st.qm) == Work([], [], w.consumed + If(took, w.gets), w.sent + If(took, w.puts))
  {
    SettleExactly(st, commit);
    PerformSound(st, SettleOp(commit));
    var w := WorkOf(st.qm);
    assert w.consumed + [] == w.consumed && w.sent + [] == w.sent;
  }

  /**
   A delivery between its get and the next: until a settlement call has been made on it the
   message is in the unit of work, or back on its queue; and it was consumed exactly if the first
   such call was a commit that found it there and took effect.
   */
  ghost predicate Aloft(taken: State, own: Parcel, st: State, attempt: Option<Attempted>, event: bool) {
    && Sound(st) && st.executor && Grown(taken.qm, st.qm, own)
    && (st.qm.gets == [] || (st.qm.gets == [own] && !event))
    && st.qm.consumed == taken.qm.consumed + If(Took(attempt, own), [own])
    && (attempt.Some? ==> event)
  }

  /** And its record: that of the first call, if none has raised. */
  ghost predicate InFlight(taken: State, own: Parcel, p: Progress) {
    && Aloft(taken, own, p.st, p.attempt, p.d.event)
    && p.d.connected
    && (p.d.settled.Some? ==> p.d.event)
    && (p.d.committed.Some? ==> p.d.settled == p.d.committed)
    && (p.clean ==> p.d.settled == StatusOfAttempt(p.attempt))
  }

  /** A settlement call, whatever it returns or raises. */
  lemma AskAloft(taken: State, own: Parcel, p: Progress, commit: bool)
    requires Aloft(taken, own, p.st, p.attempt, p.d.event) && !LeavesOpen(p.st)
    ensures Aloft(taken, own, Perform(p.st, SettleOp(commit)).st, First(p, commit), true)
  {
    SettlesOpen(p.st, commit);
    assert Grown(p.st.qm, Perform(p.st, SettleOp(commit)).st.qm, own);
    var c := taken.qm.consumed;
    assert c + [] == c && c + [own] + [] == c + [own];
  }

  /** If the message is settled, a call on it did that. */
  predicate CallsDecide(d: Delivery) {
    d.committed.Some? || d.settled == None
  }

  lemma SettleInFlight(taken: State, own: Parcel, p: Progress, turn: Turn)
    requires InFlight(taken, own, p) && CallsDecide(p.d)
    requires SettleIn(p, turn).quiet
    ensures InFlight(taken, own, SettleIn(p, turn)) && CallsDecide(SettleIn(p, turn).d) && SettleIn(p, turn).d.event
  {
    if p.d.committed.None? && Runs(turn) {
      AskAloft(taken, own, p, Commits(turn.call));
    }
  }

  lemma {:induction false} HandlerCallsInFlight(taken: State, own: Parcel, p: Progress, turns: seq<Turn>)
    requires InFlight(taken, own, p) && CallsDecide(p.d)
    requires HandlerCalls(p, turns).quiet
    ensures var q := HandlerCalls(p, turns); InFlight(taken, own, q) && CallsDecide(q.d) && (p.d.event ==> q.d.event)
    decreases |turns|
  {
    if turns != [] {
      var q := SettleIn(p, turns[0]);
      QuietBefore(q, turns[1..]);
      SettleInFlight(taken, own, p, turns[0]);
      HandlerCallsInFlight(taken, own, q, turns[1..]);
    }
  }

  lemma {:induction false} QuietBefore(p: Progress, turns: seq<Turn>)
    ensures HandlerCalls(p, turns).quiet ==> p.quiet
    ensures HandlerCalls(p, turns).clean ==> p.clean
    decreases |turns|
  {
    if turns != [] {
      QuietBefore(SettleIn(p, turns[0]), turns[1..]);
    }
  }

  /** A publish leaves the delivery where it is: its message in the unit of work or back on its queue. */
  lemma PublishAloft(taken: State, own: Parcel, p: Progress, cmd: Command)
    requires Aloft(taken, own, p.st, p.attempt, p.d.event)
    ensures Aloft(taken, own, Perform(p.st, PublishOp(cmd)).st, p.attempt, p.d.event)
  {
    var lost, placed := PublishEffect(p.st, cmd);
    PerformSound(p.st, PublishOp(cmd));
    assert Grown(p.st.qm, Perform(p.st, PublishOp(cmd)).st.qm, own);
  }

  lemma RespondInFlight(taken: State, own: Parcel, p: Progress, raw: RawMessage, h: Handling)
    requires InFlight(taken, own, p)
    ensures InFlight(taken, own, Respond(p, raw, h))
  {
    if h.response.Some? && raw.replyTo != "" && FromCmd(h.response.value).Ok? {
      PublishAloft(taken, own, p, ReplyCommand(raw, FromCmd(h.response.value).value));
    }
    RespondShape(p, raw, h);
    SameInFlight(taken, own, p, Respond(p, raw, h));
  }

  /** The reply that is published, if one is. */
  lemma RespondShape(p: Progress, raw: RawMessage, h: Handling)
    ensures var q := Respond(p, raw, h);
            && q == p.(st := q.st, raised := q.raised, replied := q.replied)
            && q.st == if h.response.Some? && raw.replyTo != "" && FromCmd(h.response.value).Ok?
                       then Perform(p.st, PublishOp(ReplyCommand(raw, FromCmd(h.response.value).value))).st else p.st
  {
  }

  /** A reply changes the state and what was raised, not the record. */
  lemma SameInFlight(taken: State, own: Parcel, p: Progress, q: Progress)
    requires InFlight(taken, own, p) && Aloft(taken, own, q.st, p.attempt, p.d.event)
    requires q.d == p.d && q.attempt == p.attempt && q.clean == p.clean
    ensures InFlight(taken, own, q)
  {
  }

  lemma ProcessInFlight(taken: State, own: Parcel, d: Delivery, raw: RawMessage, policy: AckPolicy, h: Handling)
    requires InFlight(taken, own, Arrived(taken, d)) && CallsDecide(d)
    requires ProcessMessage(taken, d, raw, policy, h).quiet
    ensures var q := ProcessMessage(taken, d, raw, policy, h);
            && InFlight(taken, own, q) && CallsDecide(q.d)
            && (q.raised.None? && !policy.MANUAL? ==> q.d.event)
  {
    var p := Arrived(taken, d);
    if h.parseError.None? {
      var first := if policy.ACK_FIRST? then SettleIn(p, Plainly(AckCall)) else p;
      var handled := HandlerCalls(first, h.calls);
      var answered := if h.handlerError.Some? then handled.(raised := h.handlerError) else Respond(handled, raw, h);
      var turn := Plainly(MiddlewareCall(policy, answered.raised));
      assert answered.quiet == handled.quiet && answered.d == handled.d;
      QuietBefore(first, h.calls);
      if policy.ACK_FIRST? { SettleInFlight(taken, own, p, Plainly(AckCall)); }
      HandlerCallsInFlight(taken, own, first, h.calls);
      RespondInFlight(taken, own, handled, raw, h);
      if SettlesLast(policy) {
        assert SettleIn(answered, turn).quiet;
        SettleInFlight(taken, own, answered, turn);
      }
    }
  }

  lemma UnresolvedInFlight(taken: State, own: Parcel, p: Progress, policy: AckPolicy, exc: ExcKind)
    requires InFlight(taken, own, p) && CallsDecide(p.d)
    requires SettleUnresolved(p, policy, exc).quiet
    ensures InFlight(taken, own, SettleUnresolved(p, policy, exc))
    ensures SettleUnresolved(p, policy, exc).d.event
  {
    if p.d.settled == None {
      AskAloft(taken, own, p, ShouldCommit(policy, exc));
    }
  }

  lemma ConsumeInFlight(taken: State, own: Parcel, d: Delivery, raw: RawMessage, policy: AckPolicy, h: Handling, running: bool)
    requires InFlight(taken, own, Arrived(taken, d)) && CallsDecide(d)
    requires Consume(taken, d, raw, policy, h, running).quiet
    ensures InFlight(taken, own, Consume(taken, d, raw, policy, h, running))
    ensures var p := Consume(taken, d, raw, policy, h, running);
            && (running && (p.raised.Some? || !policy.MANUAL?) ==> p.d.event)
            && (CallsDecide(p.d) || p.raised.Some?)
  {
    if running {
      var p := ProcessMessage(taken, d, raw, policy, h);
      assert p.raised.Some? ==> (SettleUnresolved(p, policy, p.raised.value).quiet ==> p.quiet);
      ProcessInFlight(taken, own, d, raw, policy, h);
      if p.raised.Some? {
        UnresolvedInFlight(taken, own, p, policy, p.raised.value);
      }
    }
  }

  /** With nothing consumed and nothing in the unit of work, the message is on its queue again. */
  lemma BackOnQueue(taken: State, own: Parcel, after: State)
    requires Sound(taken) && taken.qm.gets == [own]
    requires Sound(after) && after.qm.gets == [] && after.qm.consumed == taken.qm.consumed
    requires History(after.qm, own) >= History(taken.qm, own)
    ensures own in after.qm.stored
  {
    assert BalancedFor(taken.qm, own) && BalancedFor(after.qm, own);
    assert Count(taken.qm.gets, own) == 1;
    assert Count(after.qm.stored, own) >= 1;
  }

  lemma StopKeepsConsumed(st: State)
    requires Sound(st) && st.qm.gets == []
    ensures var r := StopConnection(st); Sound(r) && r.qm.gets == [] && r.qm.consumed == st.qm.consumed && Later(st.qm, r.qm)
  {
    StopSound(st);
    StopConsumesExactly(st);
  }

  // ---------- runs ----------

  /** What is known of a delivery that went through quietly. */
  ghost predicate RecordOk(rec: Record) {
    var own := Own(rec.raw);
    var before, taken, after := rec.before.qm, rec.taken.qm, rec.after.qm;
    // the unit of work held this message and no other
    && before.gets == [] && taken.gets == [own] && taken.consumed == before.consumed
    // it is consumed exactly by a commit of its own delivery that found it there and took effect
    && after.consumed == before.consumed + If(Took(rec.attempt, own), [own])
    // once a settlement call has been made nothing is open, and what was not consumed is back on its queue
    && (after.gets == [] || (after.gets == [own] && rec.attempt.None?))
    && (after.gets == [] && !Took(rec.attempt, own) ==> own in after.stored)
    // if no settlement call raised, the record is that call's
    && (rec.clean ==> rec.d.settled == StatusOfAttempt(rec.attempt))
    && (rec.d.committed.Some? ==> rec.d.settled == rec.d.committed)
  }

  ghost predicate AllQuiet(log: seq<Record>) {
    forall i :: 0 <= i < |log| ==> log[i].quiet
  }

  ghost predicate AllOk(log: seq<Record>) {
    forall i :: 0 <= i < |log| ==> RecordOk(log[i])
  }

  /** The messages consumed by their own deliveries, in order. */
  ghost function ConsumedBy(log: seq<Record>): seq<Parcel> {
    if log == [] then []
    else
      var last := log[|log| - 1];
      ConsumedBy(log[..|log| - 1]) + If(Took(last.attempt, Own(last.raw)), [Own(last.raw)])
  }

  /** The messages that stops have consumed, without an acknowledgement. */
  ghost function SweptBy(stops: seq<Stop>): seq<Parcel> {
    if stops == [] then []
    else
      var last := stops[|stops| - 1].before;
      SweptBy(stops[..|stops| - 1]) + Committed(last, last.qm.gets)
  }

  /** The last delivery was left open: no settlement call was made on it. */
  predicate LastOpen(log: seq<Record>) {
    log != [] && log[|log| - 1].after.qm.gets != []
  }

  ghost predicate Only(parcels: seq<Parcel>, own: Parcel) {
    forall i :: 0 <= i < |parcels| ==> parcels[i] == own
  }

  /** At most one message is open or was swept away, and if the last delivery was left open it is that one's. */
  ghost predicate OneOpen(log: seq<Record>, open: seq<Parcel>) {
    |open| <= 1 && (LastOpen(log) ==> Only(open, Own(log[|log| - 1].raw)))
  }

  ghost predicate LoopOk(consumed: seq<Parcel>, ls: LoopState) {
    && Sound(ls.st) && AllOk(ls.log)
    && ls.st.qm.consumed == consumed + ConsumedBy(ls.log) + SweptBy(ls.stops)
    && OneOpen(ls.log, SweptBy(ls.stops) + ls.st.qm.gets)
    && (!ls.over ==> ls.st.executor && ls.st.qm.gets == [] && ls.stops == [] && !LastOpen(ls.log))
  }

  lemma WaitInFlight(taken: State, raw: RawMessage, policy: AckPolicy, e: Event)
    requires e.Iterate? && InFlight(taken, Own(raw), Arrived(taken, Fresh(true)))
    requires ConsumeAndWait(taken, raw, policy, e).quiet
    ensures var q := ConsumeAndWait(taken, raw, policy, e);
            && InFlight(taken, Own(raw), q)
            && (!q.d.event ==> !e.running || Waits(policy, q.d))
            && (Stops(q.raised) ==> q.d.event)
  {
    var p := Consume(taken, Fresh(true), raw, policy, e.h, e.running);
    ConsumeInFlight(taken, Own(raw), Fresh(true), raw, policy, e.h, e.running);
    if Waits(policy, p.d) && e.held.Some? {
      SettleInFlight(taken, Own(raw), p, e.held.value);
    }
  }

  lemma DeliverOk(ls: LoopState, taken: State, raw: RawMessage, policy: AckPolicy, e: Event)
    requires e.Iterate? && Sound(ls.st) && ls.st.qm.gets == []
    requires Sound(taken) && taken.executor && taken.qm.gets == [Own(raw)] && taken.qm.consumed == ls.st.qm.consumed
    requires var next := Deliver(ls, taken, raw, policy, e); next.log[|next.log| - 1].quiet
    ensures var next := Deliver(ls, taken, raw, policy, e);
            && Sound(next.st) && RecordOk(next.log[|next.log| - 1])
            && next.st == next.log[|next.log| - 1].after
            && OneOpen(next.log, next.st.qm.gets)
            && (!next.over ==> next.st.executor && next.st.qm.gets == [] && !LastOpen(next.log))
  {
    var own := Own(raw);
    assert InFlight(taken, own, Arrived(taken, Fresh(true)));
    WaitInFlight(taken, raw, policy, e);
    var q := ConsumeAndWait(taken, raw, policy, e);
    if Stops(q.raised) {
      StopKeepsConsumed(q.st);
      assert Grown(q.st.qm, StopConnection(q.st).qm, own);
    }
    var st := if Stops(q.raised) then StopConnection(q.st) else q.st;
    if st.qm.gets == [] && !Took(q.attempt, own) {
      BackOnQueue(taken, own, st);
    }
  }

  /** A get from an empty unit of work: it holds exactly the message returned. */
  lemma GetOk(st: State)
    requires Sound(st) && st.executor && st.qm.gets == []
    ensures var got := Perform(st, GetOp);
            && Sound(got.st) && got.st.executor && got.st.qm.consumed == st.qm.consumed
            && (got.out.Return? ==> got.out.value.Got?)
            && |got.st.qm.gets| <= 1
            && (got.out.Return? && got.out.value.message.None? ==> got.st.qm.gets == [])
            && (got.out.Return? && got.out.value.message.Some? ==> got.st.qm.gets == [Own(got.out.value.message.value)])
  {
    PerformSound(st, GetOp);
    var lost, taken := GetEffect(st);
  }

  lemma AppendOk(consumed: seq<Parcel>, ls: LoopState, taken: State, raw: RawMessage, policy: AckPolicy, e: Event)
    requires e.Iterate? && LoopOk(consumed, ls) && !ls.over
    requires Sound(taken) && taken.executor && taken.qm.gets == [Own(raw)] && taken.qm.consumed == ls.st.qm.consumed
    requires AllQuiet(Deliver(ls, taken, raw, policy, e).log)
    ensures LoopOk(consumed, Deliver(ls, taken, raw, policy, e))
  {
    var next := Deliver(ls, taken, raw, policy, e);
    var n := |ls.log|;
    assert next.log[n].quiet;
    DeliverOk(ls, taken, raw, policy, e);
    assert next.log[..n] == ls.log;
    assert next.log[n].before == ls.st && next.log[n].raw == raw;
    LogStep(consumed, ls, next);
  }

  /** One more delivery in the log. */
  lemma LogStep(consumed: seq<Parcel>, ls: LoopState, next: LoopState)
    requires LoopOk(consumed, ls) && !ls.over && next.stops == [] && Sound(next.st)
    requires |next.log| == |ls.log| + 1 && next.log[..|ls.log|] == ls.log
    requires var rec := next.log[|ls.log|]; RecordOk(rec) && rec.before == ls.st && rec.after == next.st
    requires OneOpen(next.log, next.st.qm.gets)
    requires !next.over ==> next.st.executor && next.st.qm.gets == [] && !LastOpen(next.log)
    ensures LoopOk(consumed, next)
  {
    AllOkStep(next.log);
    assert SweptBy([]) == [];
    assert [] + next.st.qm.gets == next.st.qm.gets;
    var earlier := ConsumedBy(ls.log);
    assert ls.st.qm.consumed == consumed + earlier;
    var rec := next.log[|ls.log|];
    var own := If(Took(rec.attempt, Own(rec.raw)), [Own(rec.raw)]);
    assert ConsumedBy(next.log) == earlier + own;
    Regroup(consumed, earlier, own);
  }

  lemma AllOkStep(log: seq<Record>)
    requires log != [] && AllOk(log[..|log| - 1]) && RecordOk(log[|log| - 1])
    ensures AllOk(log)
  {
    forall i | 0 <= i < |log| ensures RecordOk(log[i]) {
      if i < |log| - 1 { assert log[i] == log[..|log| - 1][i]; }
    }
  }

  /** A get that raises may leave one message behind, which no delivery has seen. */
  lemma GetFailedOk(consumed: seq<Parcel>, ls: LoopState)
    requires LoopOk(consumed, ls) && !ls.over
    requires Perform(ls.st, GetOp).out.Raise?
    ensures LoopOk(consumed, ls.(st := Perform(ls.st, GetOp).st, over := true))
  {
    GetOk(ls.st);
    assert SweptBy(ls.stops) == [];
  }

  lemma SweptStep(stops: seq<Stop>, stop: Stop)
    ensures SweptBy(stops + [stop]) == SweptBy(stops) + Committed(stop.before, stop.before.qm.gets)
  {
    assert (stops + [stop])[..|stops|] == stops;
  }

  /** What a stop does to the open gets: all consumed, or none and at most as many are left. */
  lemma StopGets(st: State)
    requires Sound(st)
    ensures var r, swept := StopConnection(st), Committed(st, st.qm.gets);
            && Sound(r) && r.qm.consumed == st.qm.consumed + swept
            && (swept + r.qm.gets == st.qm.gets || swept + r.qm.gets == [])
  {
    StopSound(st);
    StopExactly(st);
  }

  lemma OneOpenStill(log: seq<Record>, earlier: seq<Parcel>, gets: seq<Parcel>, left: seq<Parcel>)
    requires OneOpen(log, earlier + gets) && (left == gets || left == [])
    ensures OneOpen(log, earlier + left)
  {
    if left == [] && earlier != [] {
      assert (earlier + gets)[0] == earlier[0];
    }
  }

  lemma Regroup(a: seq<Parcel>, b: seq<Parcel>, c: seq<Parcel>)
    ensures a + b + c == a + (b + c)
  {
  }

  lemma StopAppends(consumed: seq<Parcel>, ls: LoopState, next: LoopState, swept: seq<Parcel>)
    requires LoopOk(consumed, ls) && next.log == ls.log && next.over && Sound(next.st)
    requires next.st.qm.consumed == ls.st.qm.consumed + swept && SweptBy(next.stops) == SweptBy(ls.stops) + swept
    requires swept + next.st.qm.gets == ls.st.qm.gets || swept + next.st.qm.gets == []
    ensures LoopOk(consumed, next)
  {
    var earlier := SweptBy(ls.stops);
    OneOpenStill(ls.log, earlier, ls.st.qm.gets, swept + next.st.qm.gets);
    Regroup(earlier, swept, next.st.qm.gets);
    Regroup(consumed + ConsumedBy(ls.log), earlier, swept);
  }

  /** A stop consumes what is open, or gives it back, or leaves it. */
  lemma ShutdownOk(consumed: seq<Parcel>, ls: LoopState, policy: AckPolicy)
    requires LoopOk(consumed, ls)
    ensures LoopOk(consumed, Next(ls, policy, Shutdown))
  {
    var st, stop := StopConnection(ls.st), Stop(ls.st, StopConnection(ls.st));
    StopGets(ls.st);
    SweptStep(ls.stops, stop);
    StopAppends(consumed, ls, LoopState(st, ls.log, true, ls.stops + [stop]), Committed(ls.st, ls.st.qm.gets));
  }

  lemma NextOk(consumed: seq<Parcel>, ls: LoopState, policy: AckPolicy, e: Event)
    requires LoopOk(consumed, ls)
    requires AllQuiet(Next(ls, policy, e).log)
    ensures LoopOk(consumed, Next(ls, policy, e))
  {
    match e
    case Late(index, turn) =>
      if index < |ls.log| {
        LateOk(consumed, ls, e);
      }
    case Shutdown => ShutdownOk(consumed, ls, policy);
    case Iterate(h, held, running) =>
      if !ls.over {
        GetOk(ls.st);
        var got := Perform(ls.st, GetOp);
        if got.out.Raise? {
          GetFailedOk(consumed, ls);
        } else if got.out.value.message.Some? {
          AppendOk(consumed, ls, got.st, got.out.value.message.value, policy, e);
        }
      }
  }

  /** A late call settles nothing: it does not reach the broker, or finds the unit of work empty. */
  lemma LateKeepsWork(ls: LoopState, e: Event)
    requires e.Late? && e.index < |ls.log| && Sound(ls.st)
    requires SettleLate(ls, e).log[e.index].quiet
    ensures var st := SettleLate(ls, e).st;
            Sound(st) && WorkOf(st.qm) == WorkOf(ls.st.qm) && st.executor == ls.st.executor
    ensures ls.log[e.index].d.committed.Some? ==> SettleLate(ls, e).st == ls.st
  {
    var rec := ls.log[e.index];
    if rec.d.committed.None? && rec.d.connected && Runs(e.turn) {
      SettlesOpen(ls.st, Commits(e.turn.call));
      var w := WorkOf(ls.st.qm);
      assert w.consumed + [] == w.consumed && w.sent + [] == w.sent;
    }
  }

  /** The same delivery, with what was recorded of its message changed. */
  predicate SameDelivery(rec: Record, rec': Record) {
    rec' == rec.(d := rec'.d, quiet := rec'.quiet, clean := rec'.clean)
  }

  predicate SameDeliveries(log: seq<Record>, log': seq<Record>) {
    |log'| == |log| && forall i :: 0 <= i < |log| ==> SameDelivery(log[i], log'[i])
  }

  lemma {:induction false} SameConsumed(log: seq<Record>, log': seq<Record>)
    requires SameDeliveries(log, log')
    ensures ConsumedBy(log') == ConsumedBy(log)
    decreases |log|
  {
    if log != [] {
      assert SameDelivery(log[|log| - 1], log'[|log| - 1]);
      SameConsumed(log[..|log| - 1], log'[..|log| - 1]);
    }
  }

  /** Whatever is called on a kept message, while nothing is open the invariant holds on. */
  lemma LateOk(consumed: seq<Parcel>, ls: LoopState, e: Event)
    requires e.Late? && e.index < |ls.log| && LoopOk(consumed, ls)
    requires AllQuiet(SettleLate(ls, e).log)
    ensures LoopOk(consumed, SettleLate(ls, e))
  {
    var next, rec := SettleLate(ls, e), ls.log[e.index];
    assert next.log[e.index].quiet;
    LateKeepsWork(ls, e);
    SameConsumed(ls.log, next.log);
    LateRecord(ls, e);
    AllButOne(ls.log, e.index, next.log[e.index]);
    assert LastOpen(next.log) == LastOpen(ls.log) && (next.log != [] ==> next.log[|next.log| - 1].raw == ls.log[|ls.log| - 1].raw);
  }

  lemma AllButOne(log: seq<Record>, i: nat, rec: Record)
    requires AllOk(log) && i < |log| && RecordOk(rec)
    ensures AllOk(log[i := rec])
  {
  }

  lemma LateRecord(ls: LoopState, e: Event)
    requires e.Late? && e.index < |ls.log| && RecordOk(ls.log[e.index])
    ensures RecordOk(SettleLate(ls, e).log[e.index])
  {
  }

  lemma {:induction false} QuietSoFar(ls: LoopState, policy: AckPolicy, events: seq<Event>)
    requires AllQuiet(RunLoop(ls, policy, events).log)
    ensures AllQuiet(ls.log)
    decreases |events|
  {
    if events != [] {
      var next := Next(ls, policy, events[0]);
      QuietSoFar(next, policy, events[1..]);
      forall i | 0 <= i < |ls.log| ensures ls.log[i].quiet {
        assert next.log[i].quiet;
      }
    }
  }

  /**
   Over every run of the loop, under every policy, with any faults, any handlers, and stops at
   any time, in which no settlement call leaves the unit of work open and no late call finds it
   open: whenever the loop goes on, the unit of work holds no message; and the messages consumed
   are those of the deliveries whose first settlement call was a commit that took effect, each
   its own, and at most one that a stop found open.
   */
  lemma {:induction false} NothingIsLost(consumed: seq<Parcel>, ls: LoopState, policy: AckPolicy, events: seq<Event>)
    requires LoopOk(consumed, ls)
    requires AllQuiet(RunLoop(ls, policy, events).log)
    ensures LoopOk(consumed, RunLoop(ls, policy, events))
    decreases |events|
  {
    if events != [] {
      var next := Next(ls, policy, events[0]);
      QuietSoFar(next, policy, events[1..]);
      NextOk(consumed, ls, policy, events[0]);
      NothingIsLost(consumed, next, policy, events[1..]);
    }
  }

  // ---------- from the start ----------

  /** `connect` and `start_consumer` on a new connection. */
  function Start(qm: QueueManager, tls: bool, queueManagerName: string, queue: string): Done<Reply> {
    var connected := Connected(State(false, None, None, "", false, tls, queueManagerName, qm));
    if connected.out.Raise? then Done(connected.st, Raise(connected.out.exn)) else Perform(connected.st, StartOp(queue))
  }

  /** A queue manager that has lost nothing, has no connection of this client and hence no unit of work. */
  ghost predicate Untouched(qm: QueueManager) {
    Balanced(qm) && qm.live.None? && qm.gets == [] && qm.puts == []
  }

  lemma ConnectedReady(qm: QueueManager, tls: bool, queueManagerName: string)
    requires Untouched(qm)
    ensures var r := Connected(State(false, None, None, "", false, tls, queueManagerName, qm));
            Sound(r.st) && r.st.executor && WorkOf(r.st.qm) == WorkOf(qm)
  {
    var s := State(true, None, None, "", false, tls, queueManagerName, qm);
    ConnectSound(s);
    ConnectKeepsWork(s);
  }

  lemma RenamedKeepsWork(s: State, queue: string)
    requires Sound(s) && WorkOf(s.qm).Empty()
    ensures WorkOf(OpenConsumer(s.(consumerName := queue), queue).st.qm) == WorkOf(s.qm)
  {
    OpenKeepsWork(s, queue);
    assert SafeCloseConsumer(s.(consumerName := queue)).qm == SafeCloseConsumer(s).qm;
  }

  lemma StartKeepsWork(s: State, queue: string)
    requires Sound(s) && s.executor && WorkOf(s.qm).Empty()
    ensures var r := Perform(s, StartOp(queue)); WorkOf(r.st.qm) == WorkOf(s.qm) && r.st.executor
  {
    var named := s.(consumerName := queue);
    RenamedKeepsWork(s, queue);
    StartSound(s, queue);
    var first := OpenConsumer(named, queue).st;
    RecoverSound(first, true);
    RecoverKeepsWork(first, true);
    OpenKeepsWork(Recover(first, true).st, queue);
    OpenSound(Recover(first, true).st, queue);
  }

  /** A subscriber that has started is where the theorems about the loop begin. */
  lemma StartIsOk(qm: QueueManager, tls: bool, queueManagerName: string, queue: string)
    requires Untouched(qm) && queue != ""
    requires Start(qm, tls, queueManagerName, queue).out.Return?
    ensures var st := Start(qm, tls, queueManagerName, queue).st;
            LoopOk(qm.consumed, Begin(st)) && st.qm.puts == [] && st.qm.sent == qm.sent && OpenOn(st, queue)
  {
    var connected := Connected(State(false, None, None, "", false, tls, queueManagerName, qm)).st;
    ConnectedReady(qm, tls, queueManagerName);
    StartKeepsWork(connected, queue);
    PerformSound(connected, StartOp(queue));
    var st := Perform(connected, StartOp(queue)).st;
    assert WorkOf(st.qm) == WorkOf(qm);
  }

  /**
   The theorem for a whole life of a subscriber, from an untouched queue manager on, stops and
   all. After any quiet run what this client consumed is the messages of the deliveries whose first
   settlement call was a commit that took effect, each its own, and what its stops committed of
   the one message left open; between deliveries nothing is held.
   */
  lemma EveryMessageIsAccountedFor(
    qm: QueueManager, tls: bool, queueManagerName: string, queue: string, policy: AckPolicy, events: seq<Event>)
    requires Untouched(qm) && queue != ""
    requires Start(qm, tls, queueManagerName, queue).out.Return?
    requires AllQuiet(RunLoop(Begin(Start(qm, tls, queueManagerName, queue).st), policy, events).log)
    ensures var end := RunLoop(Begin(Start(qm, tls, queueManagerName, queue).st), policy, events);
            && (forall p :: BalancedFor(end.st.qm, p))
            && end.st.qm.consumed == qm.consumed + ConsumedBy(end.log) + SweptBy(end.stops)
            && OneOpen(end.log, SweptBy(end.stops) + end.st.qm.gets)
            && (!end.over ==> end.st.qm.gets == [] && end.stops == [])
            && (forall i :: 0 <= i < |end.log| ==> RecordOk(end.log[i]))
            && (end.st.qm.consumed == qm.consumed + ConsumedBy(end.log) <==> NothingSwept(end.stops))
  {
    StartIsOk(qm, tls, queueManagerName, queue);
    var end := RunLoop(Begin(Start(qm, tls, queueManagerName, queue).st), policy, events);
    NothingIsLost(qm.consumed, Begin(Start(qm, tls, queueManagerName, queue).st), policy, events);
    SweptExactly(end.stops);
    assert qm.consumed + ConsumedBy(end.log) + [] == qm.consumed + ConsumedBy(end.log);
  }

  /** No stop found a message open and committed it. */
  ghost predicate NothingSwept(stops: seq<Stop>) {
    forall i :: 0 <= i < |stops| ==> !(StopCommits(stops[i].before) && stops[i].before.qm.gets != [])
  }

  lemma {:induction false} SweptExactly(stops: seq<Stop>)
    ensures SweptBy(stops) == [] <==> NothingSwept(stops)
    decreases |stops|
  {
    if stops != [] {
      var front, last := stops[..|stops| - 1], stops[|stops| - 1];
      SweptExactly(front);
      assert NothingSwept(stops) <==> NothingSwept(front) && !(StopCommits(last.before) && last.before.qm.gets != []) by {
        forall i | 0 <= i < |front| ensures front[i] == stops[i] {}
      }
    }
  }

  /**
   What a settlement means. Once a settlement call has been made, the message was consumed exactly
   if the first such call was a commit, found it in the unit of work, and was not lost before its
   effect; otherwise it is on its queue, to be delivered again. If no settlement call raised, the
   record is that call's: a delivery recorded NACKED was not consumed, and one recorded ACKED was
   exactly if that commit took effect.
   */
  lemma SettlementMeans(consumed: seq<Parcel>, ls: LoopState, policy: AckPolicy, events: seq<Event>, i: nat)
    requires LoopOk(consumed, ls) && AllQuiet(RunLoop(ls, policy, events).log)
    requires i < |RunLoop(ls, policy, events).log|
    ensures var rec := RunLoop(ls, policy, events).log[i];
            var own := Own(rec.raw);
            && (rec.attempt.Some? ==>
                  if Took(rec.attempt, own) then rec.after.qm.consumed == rec.before.qm.consumed + [own]
                  else rec.after.qm.consumed == rec.before.qm.consumed && own in rec.after.qm.stored)
            && (rec.clean ==> rec.d.settled == StatusOfAttempt(rec.attempt))
            && (rec.clean && rec.d.settled == Some(NACKED) ==>
                  rec.after.qm.consumed == rec.before.qm.consumed && own in rec.after.qm.stored)
  {
    NothingIsLost(consumed, ls, policy, events);
    assert RecordOk(RunLoop(ls, policy, events).log[i]);
  }
}
