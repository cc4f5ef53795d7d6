/**
 The MANUAL policy's gate: the loop waits for a settlement attempt and for nothing else.
 No assumption about failures is made here.
 */
module ManualGate {
  import opened Wrappers
  import opened Messages
  import opened Mqi
  import opened Client
  import opened Settlement
  import opened Consuming

  lemma {:induction false} AnyCallSetsTheEvent(p: Progress, turns: seq<Turn>)
    ensures HandlerCalls(p, turns).d.event == (p.d.event || turns != [])
    ensures HandlerCalls(p, turns).raised == p.raised
    ensures turns == [] ==> HandlerCalls(p, turns) == p
    ensures HandlerCalls(p, turns).d.connected == p.d.connected
    decreases |turns|
  {
    if turns != [] {
      AnyCallSetsTheEvent(SettleIn(p, turns[0]), turns[1..]);
    }
  }

  /** `_settle_unresolved_message` leaves a message settled or its event set, even if commit or backout fails. */
  lemma UnresolvedReleases(p: Progress, policy: AckPolicy, exc: ExcKind)
    requires p.d.connected
    ensures var q := SettleUnresolved(p, policy, exc); q.d.settled.Some? || q.d.event
  {
  }

  /**
   Under MANUAL the loop comes to wait after a message exactly when the handler returned
   normally without a settlement attempt, or the subscriber had been stopped already. In
   particular it never waits for a message whose processing raised.
   */
  lemma WaitsExactlyWhenUntouched(st: State, raw: RawMessage, h: Handling, running: bool)
    ensures var p := Consume(st, Fresh(true), raw, MANUAL, h, running);
            && (Waits(MANUAL, p.d) <==> !running || (p.raised.None? && h.calls == []))
            && (p.raised.Some? ==> p.d.settled.Some? || p.d.event)
  {
    if running && h.parseError.None? {
      var p0 := Arrived(st, Fresh(true));
      AnyCallSetsTheEvent(p0, h.calls);
      var p := ProcessMessage(st, Fresh(true), raw, MANUAL, h);
      assert p.d == HandlerCalls(p0, h.calls).d;
    }
  }

  /** Settled, or a settlement attempt on it has ended. */
  predicate Touched(d: Delivery) {
    d.settled.Some? || d.event
  }

  ghost predicate AllTouched(log: seq<Record>) {
    forall i :: 0 <= i < |log| ==> Touched(log[i].d)
  }

  /** What `consume` raises in a turn that got this message. */
  function RaisedBy(got: State, raw: RawMessage, e: Event): Option<ExcKind>
    requires e.Iterate?
  {
    Consume(got, Fresh(true), raw, MANUAL, e.h, e.running).raised
  }

  /** The handler, an exception or the one who keeps the message has called for settlement, and nothing has stopped the subscriber. */
  predicate Released(got: State, raw: RawMessage, e: Event)
    requires e.Iterate?
  {
    e.running && !Stops(RaisedBy(got, raw, e)) && (e.h.calls != [] || RaisedBy(got, raw, e).Some? || e.held.Some?)
  }

  /** An event after which the next get is issued. */
  predicate GoesOn(ls: LoopState, e: Event) {
    match e
    case Late(_, _) => true
    case Shutdown => false
    case Iterate(_, _, _) =>
      var got := Perform(ls.st, GetOp);
      match got.out
      case Raise(_) => false
      case Return(Got(Some(raw))) => Released(got.st, raw, e)
      case Return(_) => true
  }

  predicate AllGoOn(ls: LoopState, events: seq<Event>)
    decreases |events|
  {
    events == [] || (GoesOn(ls, events[0]) && AllGoOn(Next(ls, MANUAL, events[0]), events[1..]))
  }

  lemma TurnGoesOn(ls: LoopState, e: Event)
    requires !ls.over && AllTouched(ls.log)
    ensures var r := Next(ls, MANUAL, e); (!r.over <==> GoesOn(ls, e)) && (!r.over ==> AllTouched(r.log))
  {
    if e.Iterate? {
      var got := Perform(ls.st, GetOp);
      if got.out.Return? && got.out.value.Got? && got.out.value.message.Some? {
        DeliveryGoesOn(ls, got.st, got.out.value.message.value, e);
      }
    }
  }

  lemma DeliveryGoesOn(ls: LoopState, got: State, raw: RawMessage, e: Event)
    requires e.Iterate? && AllTouched(ls.log)
    ensures var r := Deliver(ls, got, raw, MANUAL, e);
            (!r.over <==> Released(got, raw, e)) && (!r.over ==> AllTouched(r.log))
  {
    WaitsExactlyWhenUntouched(got, raw, e.h, e.running);
    var r, p := Deliver(ls, got, raw, MANUAL, e), ConsumeAndWait(got, raw, MANUAL, e);
    assert r.log[|ls.log|].d == p.d;
    assert Touched(p.d) <==> !Waits(MANUAL, p.d);
  }

  lemma {:induction false} EndedStays(ls: LoopState, events: seq<Event>)
    requires ls.over
    ensures RunLoop(ls, MANUAL, events).over
    decreases |events|
  {
    if events != [] {
      EndedStays(Next(ls, MANUAL, events[0]), events[1..]);
    }
  }

  /**
   Over every run under MANUAL, whatever fails: the next get is issued if and only if every turn
   so far was released, by its handler, by an exception or by whoever kept its message, and none
   stopped the subscriber; and then every message so far is settled, or an attempt to settle it
   has ended.
   */
  lemma {:induction false} NextGetWaits(ls: LoopState, events: seq<Event>)
    requires !ls.over && AllTouched(ls.log)
    ensures var r := RunLoop(ls, MANUAL, events); (!r.over <==> AllGoOn(ls, events)) && (!r.over ==> AllTouched(r.log))
    decreases |events|
  {
    if events != [] {
      var next := Next(ls, MANUAL, events[0]);
      TurnGoesOn(ls, events[0]);
      if next.over {
        EndedStays(next, events[1..]);
      } else {
        NextGetWaits(next, events[1..]);
      }
    }
  }
}
