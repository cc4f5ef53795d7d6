/**
 Replies and settlement are one transaction: the reply is put under syncpoint on the
 connection its request came from, so it becomes visible with the commit of the delivery,
 at most once, or not at all.
 */
module ReplyAtomicity {
  import opened Wrappers
  import opened MqIds
  import opened Messages
  import opened Mqi
  import opened Client
  import opened Handles
  import opened Transactions
  import opened Settlement
  import opened Consuming
  import opened NoLoss
  import opened Shutdown

  /** A reply to this message, made from the response its handler returned. */
  ghost predicate IsReply(raw: RawMessage, h: Handling, parcel: Parcel) {
    && h.response.Some? && FromCmd(h.response.value).Ok?
    && IsCopy(ReplyCommand(raw, FromCmd(h.response.value).value), parcel)
  }

  /** At most one reply, and one if the publish returned. */
  ghost predicate OneReply(raw: RawMessage, h: Handling, replied: bool, placed: seq<Parcel>) {
    |placed| <= 1 && (replied ==> |placed| == 1) && forall i :: 0 <= i < |placed| ==> IsReply(raw, h, placed[i])
  }

  /** No settlement call yet: nothing consumed, nothing visible, the reply pending. */
  ghost predicate Pending(taken: State, own: Parcel, p: Progress, placed: seq<Parcel>) {
    && Sound(p.st) && p.st.executor && p.d == Fresh(true) && p.attempt.None?
    && var w := WorkOf(p.st.qm);
    && w.consumed == taken.qm.consumed && w.sent == taken.qm.sent
    && (w.gets == [] || w.gets == [own]) && w.puts == placed
  }

  /** The first settlement call was a commit, and was not lost before its effect. */
  predicate CommitTook(attempt: Option<Attempted>) {
    attempt.Some? && attempt.value.commit && !NextTick(attempt.value.at.qm).fault.Before?
  }

  /** Settlement was called for: the unit of work is empty, and the reply became visible exactly by a commit that took effect, and always with the consumption of its message. */
  ghost predicate Closed(taken: State, p: Progress, placed: seq<Parcel>) {
    && Sound(p.st) && p.st.executor && p.d.connected && p.d.event
    && (p.attempt.None? ==> placed == [])
    && var w := WorkOf(p.st.qm);
    && w.Empty() && w.sent == taken.qm.sent + If(CommitTook(p.attempt), placed)
    && (w.consumed == taken.qm.consumed || CommitTook(p.attempt))
  }

  // ---------- one delivery ----------

  lemma RespondPends(taken: State, own: Parcel, p: Progress, raw: RawMessage, h: Handling) returns (placed: seq<Parcel>)
    requires Pending(taken, own, p, []) && !p.replied
    ensures var q := Respond(p, raw, h); Pending(taken, own, q, placed) && OneReply(raw, h, q.replied, placed)
  {
    placed := [];
    if h.response.Some? && raw.replyTo != "" && FromCmd(h.response.value).Ok? {
      var cmd := ReplyCommand(raw, FromCmd(h.response.value).value);
      var lost;
      lost, placed := PublishEffect(p.st, cmd);
      PerformSound(p.st, PublishOp(cmd));
    }
  }

  /** A settlement call on a delivery that is pending or closed, whatever it returns or raises. */
  lemma SettlingCloses(taken: State, own: Parcel, p: Progress, placed: seq<Parcel>, commit: bool, d: Delivery)
    requires Pending(taken, own, p, placed) || Closed(taken, p, placed)
    requires !LeavesOpen(p.st) && d.connected && d.event
    ensures Closed(taken, p.(st := Perform(p.st, SettleOp(commit)).st, d := d, attempt := First(p, commit)), placed)
  {
    SettlesOpen(p.st, commit);
    var w := WorkOf(p.st.qm);
    assert w.consumed + [] == w.consumed && w.sent + [] == w.sent && placed + [] == placed;
  }

  /** What is raised, replied or noted on the way does not enter into it. */
  lemma SameClosed(taken: State, p: Progress, q: Progress, placed: seq<Parcel>)
    requires Closed(taken, p, placed) && q.st == p.st && q.d == p.d && q.attempt == p.attempt
    ensures Closed(taken, q, placed)
  {
  }

  lemma SettleInCloses(taken: State, own: Parcel, p: Progress, placed: seq<Parcel>, turn: Turn)
    requires Pending(taken, own, p, placed) || Closed(taken, p, placed)
    requires SettleIn(p, turn).quiet
    ensures Closed(taken, SettleIn(p, turn), placed) && SettleIn(p, turn).replied == p.replied
  {
    var q := SettleIn(p, turn);
    if p.d.committed.None? && Runs(turn) {
      SettlingCloses(taken, own, p, placed, Commits(turn.call), q.d);
      SameClosed(taken, p.(st := q.st, d := q.d, attempt := q.attempt), q, placed);
    } else {
      assert taken.qm.sent + [] == taken.qm.sent;
    }
  }

  lemma UnresolvedCloses(taken: State, own: Parcel, p: Progress, placed: seq<Parcel>, policy: AckPolicy, exc: ExcKind)
    requires Pending(taken, own, p, placed) || Closed(taken, p, placed)
    requires SettleUnresolved(p, policy, exc).quiet
    ensures Closed(taken, SettleUnresolved(p, policy, exc), placed)
    ensures SettleUnresolved(p, policy, exc).replied == p.replied
  {
    if p.d.settled == None {
      var q := SettleUnresolved(p, policy, exc);
      SettlingCloses(taken, own, p, placed, ShouldCommit(policy, exc), q.d);
      SameClosed(taken, p.(st := q.st, d := q.d, attempt := q.attempt), q, placed);
    }
  }

  lemma ProcessReplies(taken: State, own: Parcel, raw: RawMessage, policy: AckPolicy, h: Handling) returns (placed: seq<Parcel>)
    requires Pending(taken, own, Arrived(taken, Fresh(true)), [])
    requires !policy.ACK_FIRST? && h.calls == []
    requires ProcessMessage(taken, Fresh(true), raw, policy, h).quiet
    ensures var q := ProcessMessage(taken, Fresh(true), raw, policy, h);
            && OneReply(raw, h, q.replied, placed)
            && (Pending(taken, own, q, placed) || Closed(taken, q, placed))
  {
    placed := [];
    var p := Arrived(taken, Fresh(true));
    if h.parseError.None? {
      assert HandlerCalls(p, h.calls) == p;
      var answered := if h.handlerError.Some? then p.(raised := h.handlerError) else Respond(p, raw, h);
      if h.handlerError.None? {
        placed := RespondPends(taken, own, p, raw, h);
      }
      if SettlesLast(policy) {
        var turn := Plainly(MiddlewareCall(policy, answered.raised));
        assert LeaveMiddleware(answered, policy, h).quiet == SettleIn(answered, turn).quiet;
        SettleInCloses(taken, own, answered, placed, turn);
        SameClosed(taken, SettleIn(answered, turn), LeaveMiddleware(answered, policy, h), placed);
      }
    }
  }

  lemma ConsumeReplies(taken: State, own: Parcel, raw: RawMessage, policy: AckPolicy, h: Handling, running: bool) returns (placed: seq<Parcel>)
    requires Pending(taken, own, Arrived(taken, Fresh(true)), [])
    requires !policy.ACK_FIRST? && h.calls == []
    requires Consume(taken, Fresh(true), raw, policy, h, running).quiet
    ensures var q := Consume(taken, Fresh(true), raw, policy, h, running);
            && OneReply(raw, h, q.replied, placed)
            && (Closed(taken, q, placed) || (Pending(taken, own, q, placed) && q.raised.None?))
  {
    placed := [];
    if running {
      var p := ProcessMessage(taken, Fresh(true), raw, policy, h);
      assert p.raised.Some? ==> (SettleUnresolved(p, policy, p.raised.value).quiet ==> p.quiet);
      placed := ProcessReplies(taken, own, raw, policy, h);
      if p.raised.Some? {
        UnresolvedCloses(taken, own, p, placed, policy, p.raised.value);
      }
    }
  }

  // ---------- a delivery without a reply ----------

  /** Nothing pending and nothing shown. */
  ghost predicate Silent(taken: State, p: Progress) {
    Sound(p.st) && p.st.executor && p.st.qm.puts == [] && p.st.qm.sent == taken.qm.sent && !p.replied
  }

  lemma PerformSilent(taken: State, p: Progress, commit: bool)
    requires Silent(taken, p)
    ensures Silent(taken, p.(st := Perform(p.st, SettleOp(commit)).st))
  {
    SettleExactly(p.st, commit);
    PerformSound(p.st, SettleOp(commit));
  }

  lemma SettleInSilent(taken: State, p: Progress, turn: Turn)
    requires Silent(taken, p)
    ensures Silent(taken, SettleIn(p, turn))
  {
    PerformSilent(taken, p, Commits(turn.call));
  }

  lemma {:induction false} CallsSilent(taken: State, p: Progress, turns: seq<Turn>)
    requires Silent(taken, p)
    ensures Silent(taken, HandlerCalls(p, turns))
    decreases |turns|
  {
    if turns != [] {
      SettleInSilent(taken, p, turns[0]);
      CallsSilent(taken, SettleIn(p, turns[0]), turns[1..]);
    }
  }

  /** However and whenever it is settled, a delivery whose handler answers nothing shows nothing. */
  lemma ProcessSilent(taken: State, d: Delivery, raw: RawMessage, policy: AckPolicy, h: Handling)
    requires Silent(taken, Arrived(taken, d)) && h.response.None?
    ensures Silent(taken, ProcessMessage(taken, d, raw, policy, h))
  {
    var p := Arrived(taken, d);
    if h.parseError.None? {
      var first := if policy.ACK_FIRST? then SettleIn(p, Plainly(AckCall)) else p;
      SettleInSilent(taken, p, Plainly(AckCall));
      CallsSilent(taken, first, h.calls);
      var handled := HandlerCalls(first, h.calls);
      var answered := if h.handlerError.Some? then handled.(raised := h.handlerError) else Respond(handled, raw, h);
      SettleInSilent(taken, answered, Plainly(MiddlewareCall(policy, answered.raised)));
    }
  }

  lemma ConsumeSilent(taken: State, raw: RawMessage, policy: AckPolicy, h: Handling, running: bool)
    requires Silent(taken, Arrived(taken, Fresh(true))) && h.response.None?
    ensures Silent(taken, Consume(taken, Fresh(true), raw, policy, h, running))
  {
    if running {
      var p := ProcessMessage(taken, Fresh(true), raw, policy, h);
      ProcessSilent(taken, Fresh(true), raw, policy, h);
      if p.raised.Some? {
        UnresolvedSilent(taken, p, policy, p.raised.value);
      }
    }
  }

  lemma UnresolvedSilent(taken: State, p: Progress, policy: AckPolicy, exc: ExcKind)
    requires Silent(taken, p)
    ensures Silent(taken, SettleUnresolved(p, policy, exc))
  {
    PerformSilent(taken, p, ShouldCommit(policy, exc));
  }

  lemma WaitSilent(taken: State, raw: RawMessage, policy: AckPolicy, e: Event)
    requires e.Iterate? && Silent(taken, Arrived(taken, Fresh(true))) && e.h.response.None?
    ensures Silent(taken, ConsumeAndWait(taken, raw, policy, e))
  {
    var p := Consume(taken, Fresh(true), raw, policy, e.h, e.running);
    ConsumeSilent(taken, raw, policy, e.h, e.running);
    if e.held.Some? {
      SettleInSilent(taken, p, e.held.value);
    }
  }

  lemma StopKeepsWork(st: State)
    requires Sound(st) && WorkOf(st.qm).Empty()
    ensures WorkOf(StopConnection(st).qm) == WorkOf(st.qm)
  {
    StopExactly(st);
  }

  // ---------- runs ----------

  /** What a quiet delivery made visible. */
  ghost predicate RecordAtomic(rec: Record) {
    var before, after := rec.before.qm, rec.after.qm;
    && before.sent <= after.sent
    && var shown := after.sent[|before.sent|..];
    && |shown| <= 1
    && (forall i :: 0 <= i < |shown| ==> IsReply(rec.raw, rec.h, shown[i]))
    && (shown != [] ==> CommitTook(rec.attempt))
    && (rec.replied && after.consumed != before.consumed ==> |shown| == 1)
  }

  ghost predicate AllAtomic(log: seq<Record>) {
    forall i :: 0 <= i < |log| ==> RecordAtomic(log[i])
  }

  /** The replies that deliveries have made visible. */
  ghost function ShownBy(log: seq<Record>): seq<Parcel>
    requires AllAtomic(log)
  {
    if log == [] then []
    else
      var last := log[|log| - 1];
      ShownBy(log[..|log| - 1]) + last.after.qm.sent[|last.before.qm.sent|..]
  }

  /** The replies that stops have made visible. */
  ghost function ShownByStops(stops: seq<Stop>): seq<Parcel> {
    if stops == [] then []
    else
      var last := stops[|stops| - 1].before;
      ShownByStops(stops[..|stops| - 1]) + Committed(last, last.qm.puts)
  }

  /** At most one reply is pending or was shown by a stop, and it answers the one delivery on which no settlement call was made. */
  ghost predicate OneReplyOpen(log: seq<Record>, open: seq<Parcel>) {
    |open| <= 1 && (open != [] ==> log != [] && log[|log| - 1].attempt.None? && IsReply(log[|log| - 1].raw, log[|log| - 1].h, open[0]))
  }

  ghost predicate RepliesOk(sent: seq<Parcel>, ls: LoopState) {
    && AllAtomic(ls.log)
    && ls.st.qm.sent == sent + ShownBy(ls.log) + ShownByStops(ls.stops)
    && OneReplyOpen(ls.log, ShownByStops(ls.stops) + ls.st.qm.puts)
    && (!ls.over ==> ls.st.qm.puts == [])
  }

  lemma {:induction false} SameShown(log: seq<Record>, log': seq<Record>)
    requires SameDeliveries(log, log') && AllAtomic(log)
    ensures AllAtomic(log') && ShownBy(log') == ShownBy(log)
    decreases |log|
  {
    forall i | 0 <= i < |log'| ensures RecordAtomic(log'[i]) {
      assert SameDelivery(log[i], log'[i]) && RecordAtomic(log[i]);
    }
    if log != [] {
      SameShown(log[..|log| - 1], log'[..|log| - 1]);
    }
  }

  /** A late call while nothing is open shows nothing. */
  lemma LateAtomic(sent: seq<Parcel>, ls: LoopState, e: Event)
    requires e.Late? && e.index < |ls.log| && RepliesOk(sent, ls) && Sound(ls.st)
    requires AllQuiet(SettleLate(ls, e).log)
    ensures RepliesOk(sent, SettleLate(ls, e))
  {
    var next := SettleLate(ls, e);
    assert next.log[e.index].quiet;
    LateKeepsWork(ls, e);
    LateSameDeliveries(ls, e);
    SameReplies(sent, ls, next);
  }

  lemma LateSameDeliveries(ls: LoopState, e: Event)
    requires e.Late? && e.index < |ls.log|
    ensures SameDeliveries(ls.log, SettleLate(ls, e).log)
  {
  }

  lemma SameReplies(sent: seq<Parcel>, ls: LoopState, next: LoopState)
    requires RepliesOk(sent, ls) && SameDeliveries(ls.log, next.log) && WorkOf(next.st.qm) == WorkOf(ls.st.qm)
    requires next.over == ls.over && next.stops == ls.stops
    ensures RepliesOk(sent, next)
  {
    SameShown(ls.log, next.log);
    assert WorkOf(next.st.qm).puts == next.st.qm.puts && WorkOf(next.st.qm).sent == next.st.qm.sent;
    assert ls.log != [] ==> SameDelivery(ls.log[|ls.log| - 1], next.log[|ls.log| - 1]);
  }

  /** No reply follows a settlement: a handler that answers does not settle its message itself, nor does ACK_FIRST before it. */
  predicate RepliesFirst(policy: AckPolicy, h: Handling) {
    h.response.None? || (!policy.ACK_FIRST? && h.calls == [])
  }

  ghost predicate SettlesAfterReply(policy: AckPolicy, events: seq<Event>) {
    forall i :: 0 <= i < |events| && events[i].Iterate? ==> RepliesFirst(policy, events[i].h)
  }

  lemma WaitReplies(taken: State, raw: RawMessage, policy: AckPolicy, e: Event) returns (placed: seq<Parcel>)
    requires e.Iterate? && !policy.ACK_FIRST? && e.h.calls == []
    requires Pending(taken, Own(raw), Arrived(taken, Fresh(true)), [])
    requires ConsumeAndWait(taken, raw, policy, e).quiet
    ensures var q := ConsumeAndWait(taken, raw, policy, e);
            && OneReply(raw, e.h, q.replied, placed)
            && (Closed(taken, q, placed)
                || (Pending(taken, Own(raw), q, placed) && q.raised.None? && (!e.running || Waits(policy, q.d))))
  {
    var p := Consume(taken, Fresh(true), raw, policy, e.h, e.running);
    placed := ConsumeReplies(taken, Own(raw), raw, policy, e.h, e.running);
    if Waits(policy, p.d) && e.held.Some? {
      SettleInCloses(taken, Own(raw), p, placed, e.held.value);
    } else if p.d == Fresh(true) && e.running {
      PendingWaits(taken, raw, policy, e);
    }
  }

  /** Only MANUAL leaves a message pending. */
  lemma PendingWaits(taken: State, raw: RawMessage, policy: AckPolicy, e: Event)
    requires e.Iterate? && !policy.ACK_FIRST? && e.h.calls == [] && e.running
    requires Consume(taken, Fresh(true), raw, policy, e.h, e.running).d == Fresh(true)
    ensures policy.MANUAL?
  {
  }

  /** What one delivery adds to the record, to what is visible and to what is pending. */
  ghost predicate DeliveredAtomically(ls: LoopState, next: LoopState) {
    && next.log != [] && RecordAtomic(next.log[|next.log| - 1])
    && next.st == next.log[|next.log| - 1].after && ls.st == next.log[|next.log| - 1].before
    && OneReplyOpen(next.log, next.st.qm.puts) && (!next.over ==> next.st.qm.puts == [])
  }

  lemma AnswerAtomic(ls: LoopState, taken: State, raw: RawMessage, policy: AckPolicy, e: Event)
    requires e.Iterate? && !policy.ACK_FIRST? && e.h.calls == []
    requires Sound(taken) && taken.executor && taken.qm.gets == [Own(raw)] && taken.qm.puts == []
    requires taken.qm.sent == ls.st.qm.sent && taken.qm.consumed == ls.st.qm.consumed
    requires var next := Deliver(ls, taken, raw, policy, e); next.log[|next.log| - 1].quiet
    ensures DeliveredAtomically(ls, Deliver(ls, taken, raw, policy, e))
  {
    assert Pending(taken, Own(raw), Arrived(taken, Fresh(true)), []);
    var placed := WaitReplies(taken, raw, policy, e);
    var q := ConsumeAndWait(taken, raw, policy, e);
    if Stops(q.raised) {
      StopKeepsWork(q.st);
    }
    var before := ls.st.qm.sent;
    assert before[|before|..] == [] && (before + placed)[|before|..] == placed;
  }

  lemma SilenceAtomic(ls: LoopState, taken: State, raw: RawMessage, policy: AckPolicy, e: Event)
    requires e.Iterate? && e.h.response.None?
    requires Sound(taken) && taken.executor && taken.qm.puts == [] && taken.qm.sent == ls.st.qm.sent
    ensures DeliveredAtomically(ls, Deliver(ls, taken, raw, policy, e))
  {
    WaitSilent(taken, raw, policy, e);
    var q := ConsumeAndWait(taken, raw, policy, e);
    if Stops(q.raised) {
      StopConsumesExactly(q.st);
    }
  }

  lemma DeliverAtomic(ls: LoopState, taken: State, raw: RawMessage, policy: AckPolicy, e: Event)
    requires e.Iterate? && RepliesFirst(policy, e.h)
    requires Sound(taken) && taken.executor && taken.qm.gets == [Own(raw)] && taken.qm.puts == []
    requires taken.qm.sent == ls.st.qm.sent && taken.qm.consumed == ls.st.qm.consumed
    requires var next := Deliver(ls, taken, raw, policy, e); next.log[|next.log| - 1].quiet
    ensures DeliveredAtomically(ls, Deliver(ls, taken, raw, policy, e))
  {
    if e.h.response.None? {
      SilenceAtomic(ls, taken, raw, policy, e);
    } else {
      AnswerAtomic(ls, taken, raw, policy, e);
    }
  }

  lemma AllAtomicStep(log: seq<Record>)
    requires log != [] && AllAtomic(log[..|log| - 1]) && RecordAtomic(log[|log| - 1])
    ensures AllAtomic(log)
  {
    forall i | 0 <= i < |log| ensures RecordAtomic(log[i]) {
      if i < |log| - 1 { assert log[i] == log[..|log| - 1][i]; }
    }
  }

  /** One more delivery in the log. */
  lemma AppendAtomic(sent: seq<Parcel>, ls: LoopState, next: LoopState)
    requires RepliesOk(sent, ls) && !ls.over && ls.stops == [] && next.stops == []
    requires |next.log| == |ls.log| + 1 && next.log[..|ls.log|] == ls.log
    requires DeliveredAtomically(ls, next)
    ensures RepliesOk(sent, next)
  {
    AllAtomicStep(next.log);
    ShownByStep(next.log);
    ShownByOne(next.log[|ls.log|]);
    Regroup(sent, ShownBy(ls.log), next.st.qm.sent[|ls.st.qm.sent|..]);
    assert ShownByStops([]) == [];
    WithNothing(sent + ShownBy(next.log), next.st.qm.puts);
    WithNothing(sent + ShownBy(ls.log), ls.st.qm.puts);
  }

  lemma ShownByStep(log: seq<Record>)
    requires log != [] && AllAtomic(log)
    ensures AllAtomic(log[..|log| - 1])
    ensures var last := log[|log| - 1]; ShownBy(log) == ShownBy(log[..|log| - 1]) + last.after.qm.sent[|last.before.qm.sent|..]
  {
  }

  lemma ShownByOne(rec: Record)
    requires RecordAtomic(rec)
    ensures rec.after.qm.sent == rec.before.qm.sent + rec.after.qm.sent[|rec.before.qm.sent|..]
  {
  }

  lemma WithNothing(a: seq<Parcel>, b: seq<Parcel>)
    ensures a + [] == a && [] + b == b
  {
  }

  /** What a stop does to the pending replies: all shown, or none and at most as many are left. */
  lemma StopReplies(st: State)
    requires Sound(st)
    ensures var r, shown := StopConnection(st), Committed(st, st.qm.puts);
            && r.qm.sent == st.qm.sent + shown
            && (shown + r.qm.puts == st.qm.puts || shown + r.qm.puts == [])
  {
    StopExactly(st);
  }

  lemma ShownStep(stops: seq<Stop>, stop: Stop)
    ensures ShownByStops(stops + [stop]) == ShownByStops(stops) + Committed(stop.before, stop.before.qm.puts)
  {
    assert (stops + [stop])[..|stops|] == stops;
  }

  lemma OneReplyOpenStill(log: seq<Record>, earlier: seq<Parcel>, puts: seq<Parcel>, left: seq<Parcel>)
    requires OneReplyOpen(log, earlier + puts) && (left == puts || left == [])
    ensures OneReplyOpen(log, earlier + left)
  {
    if left == [] && earlier != [] {
      assert (earlier + puts)[0] == earlier[0];
    }
  }

  lemma ShutdownAtomic(sent: seq<Parcel>, ls: LoopState, policy: AckPolicy)
    requires RepliesOk(sent, ls) && Sound(ls.st)
    ensures RepliesOk(sent, Next(ls, policy, Shutdown))
  {
    var st, stop := StopConnection(ls.st), Stop(ls.st, StopConnection(ls.st));
    StopReplies(ls.st);
    ShownStep(ls.stops, stop);
    StopAppends(sent, ls, LoopState(st, ls.log, true, ls.stops + [stop]), Committed(ls.st, ls.st.qm.puts));
  }

  lemma StopAppends(sent: seq<Parcel>, ls: LoopState, next: LoopState, shown: seq<Parcel>)
    requires RepliesOk(sent, ls) && next.log == ls.log && next.over
    requires next.st.qm.sent == ls.st.qm.sent + shown && ShownByStops(next.stops) == ShownByStops(ls.stops) + shown
    requires shown + next.st.qm.puts == ls.st.qm.puts || shown + next.st.qm.puts == []
    ensures RepliesOk(sent, next)
  {
    var earlier := ShownByStops(ls.stops);
    OneReplyOpenStill(ls.log, earlier, ls.st.qm.puts, shown + next.st.qm.puts);
    Regroup(earlier, shown, next.st.qm.puts);
    Regroup(sent + ShownBy(ls.log), earlier, shown);
  }

  /**
   Whenever the handlers that answer leave settling until after the reply, under any faults and
   with stops at any time: each delivery that goes through quietly makes at most one reply
   visible, none unless its first settlement call was a commit that was not lost, and exactly one
   if its reply was published and its message consumed. All this client makes visible are these
   replies, and at most one more: the reply of a delivery left open, if a stop commits it.
   */
  lemma {:induction false} RepliesAreAtomic(consumed: seq<Parcel>, sent: seq<Parcel>, ls: LoopState, policy: AckPolicy, events: seq<Event>)
    requires LoopOk(consumed, ls) && RepliesOk(sent, ls) && SettlesAfterReply(policy, events)
    requires AllQuiet(RunLoop(ls, policy, events).log)
    ensures RepliesOk(sent, RunLoop(ls, policy, events))
    decreases |events|
  {
    if events != [] {
      var next := Next(ls, policy, events[0]);
      QuietSoFar(next, policy, events[1..]);
      NextOk(consumed, ls, policy, events[0]);
      NextAtomic(consumed, sent, ls, policy, events[0]);
      RepliesAreAtomic(consumed, sent, next, policy, events[1..]);
    }
  }

  /** If no settlement call raised, only a delivery recorded ACKED has shown a reply. */
  predicate ShownOnlyIfAcked(rec: Record) {
    rec.clean && rec.after.qm.sent != rec.before.qm.sent ==> rec.d.settled == Some(ACKED)
  }

  /** The same from the start: the replies of a subscriber's whole life. */
  lemma EveryReplyIsAtomic(
    qm: QueueManager, tls: bool, queueManagerName: string, queue: string, policy: AckPolicy, events: seq<Event>)
    requires Untouched(qm) && queue != "" && SettlesAfterReply(policy, events)
    requires Start(qm, tls, queueManagerName, queue).out.Return?
    requires AllQuiet(RunLoop(Begin(Start(qm, tls, queueManagerName, queue).st), policy, events).log)
    ensures var end := RunLoop(Begin(Start(qm, tls, queueManagerName, queue).st), policy, events);
            && AllAtomic(end.log)
            && end.st.qm.sent == qm.sent + ShownBy(end.log) + ShownByStops(end.stops)
            && OneReplyOpen(end.log, ShownByStops(end.stops) + end.st.qm.puts)
            && (forall i :: 0 <= i < |end.log| ==> ShownOnlyIfAcked(end.log[i]))
  {
    var ls := Begin(Start(qm, tls, queueManagerName, queue).st);
    StartIsOk(qm, tls, queueManagerName, queue);
    assert RepliesOk(qm.sent, ls);
    RepliesAreAtomic(qm.consumed, qm.sent, ls, policy, events);
    NothingIsLost(qm.consumed, ls, policy, events);
    var end := RunLoop(ls, policy, events);
    forall i | 0 <= i < |end.log| ensures ShownOnlyIfAcked(end.log[i]) {
      assert RecordOk(end.log[i]) && RecordAtomic(end.log[i]);
    }
  }

  lemma GetKeepsSent(st: State)
    requires Sound(st) && st.qm.puts == []
    ensures Perform(st, GetOp).st.qm.sent == st.qm.sent && Perform(st, GetOp).st.qm.puts == []
  {
    var lost, taken := GetEffect(st);
  }

  lemma NextAtomic(consumed: seq<Parcel>, sent: seq<Parcel>, ls: LoopState, policy: AckPolicy, e: Event)
    requires LoopOk(consumed, ls) && RepliesOk(sent, ls) && (e.Iterate? ==> RepliesFirst(policy, e.h))
    requires AllQuiet(Next(ls, policy, e).log)
    ensures RepliesOk(sent, Next(ls, policy, e))
  {
    match e
    case Late(index, turn) =>
      if index < |ls.log| {
        LateAtomic(sent, ls, e);
      }
    case Shutdown => ShutdownAtomic(sent, ls, policy);
    case Iterate(h, held, running) =>
      if !ls.over {
        GetOk(ls.st);
        GetKeepsSent(ls.st);
        var got := Perform(ls.st, GetOp);
        if got.out.Return? && got.out.value.message.Some? {
          var raw := got.out.value.message.value;
          var next := Deliver(ls, got.st, raw, policy, e);
          assert next.log[|ls.log|].quiet;
          DeliverAtomic(ls, got.st, raw, policy, e);
          AppendAtomic(sent, ls, next);
        }
      }
  }

  /** Every reply goes to the queue its request named, and carries the request's native identifier whatever correlation id the handler set. */
  lemma ReplyCorrelation(raw: RawMessage, h: Handling, parcel: Parcel)
    requires IsReply(raw, h, parcel)
    ensures parcel.0 == raw.replyTo
    ensures parcel.1.correlId == raw.nativeMessageId
    ensures parcel.1.replyToQMgr == raw.replyToQmgr
  {
  }
}
