/**
 What becomes of a message, policy by policy and exception by exception, on a connection on which
 nothing fails: consumed, back in front of its queue, or left to its keeper. The table is written
 out; nothing in it is taken from how the adapter decides.
 */
module Outcomes {
  import opened Wrappers
  import opened Messages
  import opened Mqi
  import opened Client
  import opened Handles
  import opened Settlement
  import opened Consuming
  import opened FaultFree
  import opened Draining

  /** Whether an exception that reaches settlement consumes its message. */
  predicate Consumes(policy: AckPolicy, exc: ExcKind) {
    match exc
    case AckMessage => true
    case RejectMessage => true
    case NackMessage => false
    case _ =>
      match policy
      case ACK => true
      case ACK_FIRST => true
      case REJECT_ON_ERROR => true
      case NACK_ON_ERROR => false
      case MANUAL => false
  }

  datatype Fate = Consumed | BackOnQueue | LeftOpen

  /** What the parser, the handler or the reply raised. */
  function Cause(raw: RawMessage, h: Handling): Option<ExcKind> {
    if h.parseError.Some? then h.parseError else Raised(raw, h)
  }

  /** The table, for a handler that makes no settlement call. */
  function FateOf(policy: AckPolicy, parsed: bool, cause: Option<ExcKind>): Fate {
    match cause
    case Some(exc) =>
      if policy.ACK_FIRST? && parsed then Consumed   // it was before the handler ran
      else if Consumes(policy, exc) then Consumed else BackOnQueue
    case None => if policy.MANUAL? then LeftOpen else Consumed
  }

  /** What a fate is, in the record and on the queue manager. */
  predicate Befell(fate: Fate, own: Parcel, taken: State, st: State, d: Delivery) {
    match fate
    case Consumed =>
      && d.settled == Some(ACKED) && st.qm.gets == [] && st.qm.consumed == taken.qm.consumed + [own]
      && taken.qm.sent <= st.qm.sent && st.qm.stored == taken.qm.stored + st.qm.sent[|taken.qm.sent|..]
    case BackOnQueue =>
      && d.settled == Some(NACKED) && st.qm.gets == [] && st.qm.consumed == taken.qm.consumed
      && st.qm.sent == taken.qm.sent && st.qm.stored == [own] + taken.qm.stored
    case LeftOpen =>
      && d.settled == None && !d.event && st.qm.gets == [own] && st.qm.consumed == taken.qm.consumed
      && st.qm.sent == taken.qm.sent && st.qm.stored == taken.qm.stored
  }

  /** Settling the open message and its reply. */
  lemma SettledAs(taken: State, n: string, own: Parcel, reply: seq<Parcel>, calls: nat, commit: bool, d: Delivery)
    requires Healthy(taken, n) && taken.qm.gets == [own] && d.settled == Some(StatusOf(commit))
    ensures var open := taken.(qm := taken.qm.(puts := reply, putCalls := calls));
            var st := Perform(open, SettleOp(commit)).st;
            Befell(if commit then Consumed else BackOnQueue, own, taken, st, d) && Calm(st, n)
  {
    HealthySettle(taken.(qm := taken.qm.(puts := reply, putCalls := calls)), n, commit);
    assert (taken.qm.sent + reply)[|taken.qm.sent|..] == reply;
    assert taken.qm.sent[|taken.qm.sent|..] == [];
  }

  /** A message that cannot be parsed is settled by `consume` alone. */
  lemma ParserFails(taken: State, n: string, own: Parcel, raw: RawMessage, policy: AckPolicy, h: Handling)
    requires Healthy(taken, n) && taken.qm.gets == [own] && h.parseError.Some?
    ensures var p, exc := Consume(taken, Fresh(true), raw, policy, h, true), h.parseError.value;
            && Befell(if Consumes(policy, exc) then Consumed else BackOnQueue, own, taken, p.st, p.d)
            && p.raised == Some(exc) && p.clean && Calm(p.st, n)
  {
    var commit := ShouldCommit(policy, h.parseError.value);
    HealthySettle(taken, n, commit);
    SettledAs(taken, n, own, [], taken.qm.putCalls, commit, Fresh(true).(settled := Some(StatusOf(commit))));
    assert taken.(qm := taken.qm.(puts := [], putCalls := taken.qm.putCalls)) == taken;
  }

  /** Policies that settle last settle what handler and reply have left. */
  lemma MiddlewareDecides(taken: State, n: string, own: Parcel, raw: RawMessage, policy: AckPolicy, h: Handling)
    requires Healthy(taken, n) && taken.qm.gets == [own] && h.parseError.None? && h.calls == []
    requires policy.ACK? || policy.NACK_ON_ERROR? || policy.REJECT_ON_ERROR?
    ensures var p, cause := Consume(taken, Fresh(true), raw, policy, h, true), Raised(raw, h);
            && Befell(FateOf(policy, true, cause), own, taken, p.st, p.d)
            && (Ends(p.raised) <==> Ends(cause)) && p.clean && Calm(p.st, n)
  {
    var p := Arrived(taken, Fresh(true));
    assert HandlerCalls(p, h.calls) == p;
    var reply, calls := HealthyReply(p, n, raw, h);
    var answered := if h.handlerError.Some? then p.(raised := h.handlerError) else Respond(p, raw, h);
    assert ProcessMessage(taken, Fresh(true), raw, policy, h) == LeaveMiddleware(answered, policy, h);
    MiddlewareThenConsume(answered, n, policy, h);
    SettledAs(taken, n, own, reply, calls, Commits(MiddlewareCall(policy, answered.raised)), Consume(taken, Fresh(true), raw, policy, h, true).d);
  }

  /** MANUAL leaves a message to its keeper, but not with an exception. */
  lemma ManualDecides(taken: State, n: string, own: Parcel, raw: RawMessage, h: Handling)
    requires Healthy(taken, n) && taken.qm.gets == [own] && h.parseError.None? && h.calls == []
    ensures var p, cause := Consume(taken, Fresh(true), raw, MANUAL, h, true), Raised(raw, h);
            && Befell(FateOf(MANUAL, true, cause), own, taken, p.st, p.d)
            && p.raised == cause && p.clean && Calm(p.st, n)
  {
    var p := Arrived(taken, Fresh(true));
    assert HandlerCalls(p, h.calls) == p;
    var reply, calls := HealthyReply(p, n, raw, h);
    var answered := if h.handlerError.Some? then p.(raised := h.handlerError) else Respond(p, raw, h);
    assert ProcessMessage(taken, Fresh(true), raw, MANUAL, h) == answered;
    if answered.raised.Some? {
      var commit := ShouldCommit(MANUAL, answered.raised.value);
      HealthySettle(answered.st, n, commit);
      SettledAs(taken, n, own, reply, calls, commit, Consume(taken, Fresh(true), raw, MANUAL, h, true).d);
    }
  }

  /** ACK_FIRST has consumed the message before the handler runs. */
  lemma AckFirstDecides(taken: State, n: string, own: Parcel, raw: RawMessage, h: Handling)
    requires Healthy(taken, n) && taken.qm.gets == [own] && h.parseError.None? && h.calls == []
    ensures var p, cause := Consume(taken, Fresh(true), raw, ACK_FIRST, h, true), Raised(raw, h);
            && Befell(Consumed, own, taken, p.st, p.d)
            && p.raised == cause && p.clean && Calm(p.st, n)
  {
    HealthySettle(taken, n, true);
    SettledAs(taken, n, own, [], taken.qm.putCalls, true, Fresh(true).(settled := Some(ACKED)));
    assert taken.(qm := taken.qm.(puts := [], putCalls := taken.qm.putCalls)) == taken;
    var acked := SettleIn(Arrived(taken, Fresh(true)), Plainly(AckCall));
    assert HandlerCalls(acked, h.calls) == acked;
    var reply, calls := HealthyReply(acked, n, raw, h);
    var answered := if h.handlerError.Some? then acked.(raised := h.handlerError) else Respond(acked, raw, h);
    assert ProcessMessage(taken, Fresh(true), raw, ACK_FIRST, h) == answered;
  }

  /** Every policy, every handler that makes no settlement call, every exception. */
  lemma FateByTable(taken: State, n: string, own: Parcel, raw: RawMessage, policy: AckPolicy, h: Handling)
    requires Healthy(taken, n) && taken.qm.gets == [own] && h.calls == []
    ensures var p := Consume(taken, Fresh(true), raw, policy, h, true);
            && Befell(FateOf(policy, h.parseError.None?, Cause(raw, h)), own, taken, p.st, p.d)
            && (Ends(p.raised) <==> Ends(Cause(raw, h))) && p.clean && Calm(p.st, n)
  {
    if h.parseError.Some? {
      ParserFails(taken, n, own, raw, policy, h);
    } else if policy.MANUAL? {
      ManualDecides(taken, n, own, raw, h);
    } else if policy.ACK_FIRST? {
      AckFirstDecides(taken, n, own, raw, h);
    } else {
      MiddlewareDecides(taken, n, own, raw, policy, h);
    }
  }

  // ---------- and of the loop ----------

  /** The exceptions on which a subscriber stops. */
  predicate Ends(cause: Option<ExcKind>) {
    match cause
    case Some(StopConsume) => true
    case Some(SystemExit) => true
    case _ => false
  }

  /**
   A turn of the loop by the table: the message has its fate, and the loop ends exactly on
   StopConsume or SystemExit, disconnecting, or when MANUAL waits for the message's keeper.
   */
  lemma TurnByTable(ls: LoopState, n: string, policy: AckPolicy, e: Event)
    requires Ready(ls, n) && On(ls.st.qm.stored, n) != []
    requires e.Iterate? && e.running && e.held.None? && e.h.calls == []
    ensures var i := FirstOn(ls.st.qm.stored, n, None);
            i < |ls.st.qm.stored| &&
            var own, raw := ls.st.qm.stored[i], FirstRaw(ls.st.qm.stored, n);
            var taken := ls.st.(qm := ls.st.qm.(stored := Without(ls.st.qm.stored, i), gets := [own]));
            var next, fate := Next(ls, policy, e), FateOf(policy, e.h.parseError.None?, Cause(raw, e.h));
            && |next.log| == |ls.log| + 1
            && (next.over <==> Ends(Cause(raw, e.h)) || fate.LeftOpen?)
            && (if Ends(Cause(raw, e.h)) then
                  && !next.st.executor && next.st.qmgr.None?
                  && next.st.qm.consumed == ls.st.qm.consumed + (if fate.BackOnQueue? then [] else [own])
                else Befell(fate, own, taken, next.st, next.log[|ls.log|].d))
  {
    FirstIsTaken(ls.st.qm.stored, n, n);
    HealthyGet(ls.st, n);
    var taken, raw := Perform(ls.st, GetOp).st, FirstRaw(ls.st.qm.stored, n);
    var own := ls.st.qm.stored[FirstOn(ls.st.qm.stored, n, None)];
    assert taken.qm.gets == [own];
    FateByTable(taken, n, own, raw, policy, e.h);
    TurnEnds(ls, taken, raw, policy, e);
    var p := Consume(taken, Fresh(true), raw, policy, e.h, true);
    StopEnds(p.st, n);
    LeftOnlyByManual(policy, e.h.parseError.None?, Cause(raw, e.h));
  }

  lemma LeftOnlyByManual(policy: AckPolicy, parsed: bool, cause: Option<ExcKind>)
    ensures FateOf(policy, parsed, cause).LeftOpen? <==> policy.MANUAL? && cause.None?
  {
  }

  lemma StopEnds(st: State, n: string)
    requires Calm(st, n)
    ensures var r := StopConnection(st);
            !r.executor && r.qmgr.None? && r.qm.consumed == st.qm.consumed + st.qm.gets
  {
  }

  /** How the loop comes out of a delivery. */
  lemma TurnEnds(ls: LoopState, taken: State, raw: RawMessage, policy: AckPolicy, e: Event)
    requires e.Iterate? && e.running && e.held.None?
    ensures var p, next := Consume(taken, Fresh(true), raw, policy, e.h, true), Deliver(ls, taken, raw, policy, e);
            && |next.log| == |ls.log| + 1 && next.log[|ls.log|].d == p.d
            && next.st == (if Ends(p.raised) then StopConnection(p.st) else p.st)
            && (next.over <==> Ends(p.raised) || (policy.MANUAL? && p.d.settled.None? && !p.d.event))
  {
  }
}
