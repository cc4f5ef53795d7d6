/**
 Progress: once faults have stopped, the loop takes the messages of its queue in order, each
 once, whatever else lies in the queue manager and whatever the handlers answer or raise, as
 long as the policy accepts it; and a message that is refused is in front of its queue again.
 */
module Draining {
  import opened Wrappers
  import opened Messages
  import opened Mqi
  import opened Client
  import opened Handles
  import opened Settlement
  import opened Consuming
  import opened FaultFree
  import NoLoss

  // ---------- one turn without faults ----------

  /** What the handler and its reply raise. */
  function Raised(raw: RawMessage, h: Handling): Option<ExcKind> {
    if h.handlerError.Some? then h.handlerError
    else if h.response.None? || raw.replyTo == "" then h.lateError
    else
      match FromCmd(h.response.value)
      case Err(_) => Some(OtherError)
      case Ok(cmd) => if PublishDraft(ReplyCommand(raw, cmd)).Err? then Some(OtherError) else h.lateError
  }

  /** The policy settles, after a handler that does not, and the subscriber goes on. */
  predicate GoesOn(policy: AckPolicy, h: Handling, raw: RawMessage) {
    SettlesLast(policy) && h.parseError.None? && h.calls == [] && !Stops(Raised(raw, h))
  }

  predicate Accepts(policy: AckPolicy, h: Handling, raw: RawMessage) {
    Commits(MiddlewareCall(policy, Raised(raw, h)))
  }

  lemma RespondRaises(p: Progress, n: string, raw: RawMessage, h: Handling)
    requires Healthy(p.st, n) && h.handlerError.None?
    ensures Respond(p, raw, h).raised == Raised(raw, h)
  {
    if h.response.Some? && raw.replyTo != "" && FromCmd(h.response.value).Ok? {
      HealthyPublish(p.st, n, ReplyCommand(raw, FromCmd(h.response.value).value));
    }
  }

  /** The handler's part leaves at most one reply pending. */
  lemma HealthyReply(p: Progress, n: string, raw: RawMessage, h: Handling) returns (reply: seq<Parcel>, calls: nat)
    requires Healthy(p.st, n)
    ensures var taken := p.st;
            var answered := if h.handlerError.Some? then p.(raised := h.handlerError) else Respond(p, raw, h);
            && answered.raised == Raised(raw, h) && answered.d == p.d && |reply| <= 1
            && answered.st == taken.(qm := taken.qm.(puts := reply, putCalls := calls))
  {
    var taken := p.st;
    reply, calls := [], taken.qm.putCalls;
    NoLoss.RespondShape(p, raw, h);
    if h.handlerError.None? { RespondRaises(p, n, raw, h); }
    if h.handlerError.None? && h.response.Some? && raw.replyTo != "" && FromCmd(h.response.value).Ok? {
      var cmd := ReplyCommand(raw, FromCmd(h.response.value).value);
      HealthyPublish(taken, n, cmd);
      if PublishDraft(cmd).Ok? {
        reply := [(cmd.destination, Stamp(PublishDraft(cmd).value, NextTick(taken.qm).newId))];
        calls := calls + 1;
      }
    }
  }

  lemma MiddlewareThenConsume(answered: Progress, n: string, policy: AckPolicy, h: Handling)
    requires Calm(answered.st, n) && answered.d == Fresh(true) && SettlesLast(policy)
    ensures var commit := Commits(MiddlewareCall(policy, answered.raised));
            var q := LeaveMiddleware(answered, policy, h);
            var p := if q.raised.None? then q else SettleUnresolved(q, policy, q.raised.value);
            && p.st == Perform(answered.st, SettleOp(commit)).st
            && p.d.settled == Some(StatusOf(commit))
            && p.d.event && p.clean == answered.clean
            && p.raised == (if answered.raised.Some? && SaysHow(answered.raised.value) then None else answered.raised)
  {
    HealthySettle(answered.st, n, Commits(MiddlewareCall(policy, answered.raised)));
  }

  lemma HealthyConsume(taken: State, n: string, raw: RawMessage, policy: AckPolicy, h: Handling) returns (reply: seq<Parcel>, calls: nat)
    requires Healthy(taken, n) && GoesOn(policy, h, raw)
    ensures var answered := taken.(qm := taken.qm.(puts := reply, putCalls := calls));
            var p := Consume(taken, Fresh(true), raw, policy, h, true);
            && |reply| <= 1
            && p.st == Perform(answered, SettleOp(Accepts(policy, h, raw))).st
            && p.d.settled.Some? && !Stops(p.raised)
  {
    var p := Arrived(taken, Fresh(true));
    reply, calls := HealthyReply(p, n, raw, h);
    assert HandlerCalls(p, h.calls) == p;
    var answered := if h.handlerError.Some? then p.(raised := h.handlerError) else Respond(p, raw, h);
    assert ProcessMessage(taken, Fresh(true), raw, policy, h) == LeaveMiddleware(answered, policy, h);
    MiddlewareThenConsume(answered, n, policy, h);
  }

  /** The loop is about to get. */
  predicate Ready(ls: LoopState, n: string) {
    Healthy(ls.st, n) && !ls.over && ls.st.qm.gets == []
  }

  /** The first message of the queue, as the handler sees it. */
  function FirstRaw(stored: seq<Parcel>, n: string): RawMessage
    requires On(stored, n) != []
  {
    Receive(On(stored, n)[0].1, n)
  }

  lemma HealthyTurn(ls: LoopState, n: string, policy: AckPolicy, e: Event) returns (reply: seq<Parcel>, calls: nat)
    requires Healthy(ls.st, n) && !ls.over && On(ls.st.qm.stored, n) != []
    requires e.Iterate? && e.running && GoesOn(policy, e.h, FirstRaw(ls.st.qm.stored, n))
    ensures var i := FirstOn(ls.st.qm.stored, n, None);
            i < |ls.st.qm.stored| &&
            var next := Next(ls, policy, e);
            var answered := ls.st.(qm := ls.st.qm.(stored := Without(ls.st.qm.stored, i), gets := ls.st.qm.gets + [ls.st.qm.stored[i]],
                                                   puts := reply, putCalls := calls));
            && |reply| <= 1
            && next.st == Perform(answered, SettleOp(Accepts(policy, e.h, FirstRaw(ls.st.qm.stored, n)))).st
            && !next.over && |next.log| == |ls.log| + 1 && next.stops == ls.stops
  {
    FirstIsTaken(ls.st.qm.stored, n, n);
    HealthyGet(ls.st, n);
    var taken := Perform(ls.st, GetOp).st;
    reply, calls := HealthyConsume(taken, n, FirstRaw(ls.st.qm.stored, n), policy, e.h);
  }

  /** One accepted turn: the first message is consumed, and its reply, if any, is put. */
  lemma OneTurnConsumes(ls: LoopState, n: string, policy: AckPolicy, e: Event) returns (reply: seq<Parcel>)
    requires Ready(ls, n) && On(ls.st.qm.stored, n) != []
    requires e.Iterate? && e.running
    requires var raw := FirstRaw(ls.st.qm.stored, n); GoesOn(policy, e.h, raw) && Accepts(policy, e.h, raw)
    ensures var i := FirstOn(ls.st.qm.stored, n, None);
            i < |ls.st.qm.stored| &&
            var next := Next(ls, policy, e);
            && Ready(next, n) && |reply| <= 1
            && next.st.qm.stored == Without(ls.st.qm.stored, i) + reply
            && next.st.qm.consumed == ls.st.qm.consumed + [ls.st.qm.stored[i]]
            && |next.log| == |ls.log| + 1
  {
    var calls;
    reply, calls := HealthyTurn(ls, n, policy, e);
    var i := FirstOn(ls.st.qm.stored, n, None);
    HealthySettle(ls.st.(qm := ls.st.qm.(stored := Without(ls.st.qm.stored, i), gets := ls.st.qm.gets + [ls.st.qm.stored[i]],
                                         puts := reply, putCalls := calls)), n, true);
  }

  /** Any queue afterwards: the handled one without its first message, every queue possibly with a reply at its end. */
  lemma QueuesAfterTurn(stored: seq<Parcel>, n: string, reply: seq<Parcel>, q: string)
    requires On(stored, n) != []
    ensures var i := FirstOn(stored, n, None);
            i < |stored| && stored[i] == On(stored, n)[0]
            && On(Without(stored, i) + reply, q) == (if q == n then On(stored, n)[1..] else On(stored, q)) + On(reply, q)
  {
    FirstIsTaken(stored, n, q);
    OnAppend(Without(stored, FirstOn(stored, n, None)), reply, q);
  }

  // ---------- runs without faults ----------

  /** Event i is a turn whose handler and policy accept message i of the queue. */
  ghost predicate AllAccepted(policy: AckPolicy, events: seq<Event>, messages: seq<Parcel>, n: string) {
    && |events| <= |messages|
    && forall i :: 0 <= i < |events| ==>
         && events[i].Iterate? && events[i].running
         && GoesOn(policy, events[i].h, Receive(messages[i].1, n)) && Accepts(policy, events[i].h, Receive(messages[i].1, n))
  }

  predicate StillThere(before: seq<Parcel>, after: seq<Parcel>, q: string) {
    On(before, q) <= On(after, q)
  }

  /**
   Between two states of the loop, `count` messages of queue n were consumed, once each, in order,
   one delivery each; what else lay on any queue still lies there in its order.
   */
  ghost predicate Drained(ls: LoopState, end: LoopState, n: string, count: nat) {
    && Ready(end, n) && count <= |On(ls.st.qm.stored, n)|
    && end.st.qm.consumed == ls.st.qm.consumed + On(ls.st.qm.stored, n)[..count]
    && On(ls.st.qm.stored, n)[count..] <= On(end.st.qm.stored, n)
    && (forall q :: q != n ==> StillThere(ls.st.qm.stored, end.st.qm.stored, q))
    && |end.log| == |ls.log| + count
  }

  /** One message less, and perhaps a reply. */
  ghost predicate OneLess(ls: LoopState, next: LoopState, n: string, reply: seq<Parcel>) {
    && On(ls.st.qm.stored, n) != []
    && next.st.qm.stored == Without(ls.st.qm.stored, FirstIndex(ls.st.qm.stored, n)) + reply
    && next.st.qm.consumed == ls.st.qm.consumed + [On(ls.st.qm.stored, n)[0]] && |next.log| == |ls.log| + 1
  }

  lemma DrainOneMore(ls: LoopState, next: LoopState, end: LoopState, n: string, count: nat, reply: seq<Parcel>)
    requires OneLess(ls, next, n, reply)
    requires Drained(next, end, n, count) && count < |On(ls.st.qm.stored, n)|
    ensures Drained(ls, end, n, count + 1)
  {
    var before, after := On(ls.st.qm.stored, n), On(next.st.qm.stored, n);
    QueuesAfterTurn(ls.st.qm.stored, n, reply, n);
    Prefixes(ls.st.qm.consumed, before, after, On(reply, n), count, On(end.st.qm.stored, n));
    forall q | q != n ensures StillThere(ls.st.qm.stored, end.st.qm.stored, q) {
      QueuesAfterTurn(ls.st.qm.stored, n, reply, q);
      assert StillThere(next.st.qm.stored, end.st.qm.stored, q);
    }
  }

  /** The arithmetic of one more. */
  lemma Prefixes(consumed: seq<Parcel>, before: seq<Parcel>, after: seq<Parcel>, reply: seq<Parcel>, count: nat, end: seq<Parcel>)
    requires before != [] && after == before[1..] + reply && count < |before| && after[count..] <= end
    ensures consumed + [before[0]] + after[..count] == consumed + before[..count + 1]
    ensures before[count + 1..] <= end
  {
    assert [before[0]] + after[..count] == before[..count + 1];
    assert after[count..] == before[count + 1..] + reply;
  }

  function FirstIndex(stored: seq<Parcel>, n: string): (i: nat)
    requires On(stored, n) != []
    ensures i < |stored| && i == FirstOn(stored, n, None)
  {
    FirstIsTaken(stored, n, n);
    FirstOn(stored, n, None)
  }

  lemma RunStep(ls: LoopState, policy: AckPolicy, events: seq<Event>)
    requires events != []
    ensures RunLoop(ls, policy, events) == RunLoop(Next(ls, policy, events[0]), policy, events[1..])
  {
  }

  lemma AcceptedRest(policy: AckPolicy, events: seq<Event>, before: seq<Parcel>, reply: seq<Parcel>, n: string)
    requires events != [] && AllAccepted(policy, events, before, n)
    ensures AllAccepted(policy, events[1..], before[1..] + reply, n)
  {
    forall i | 0 <= i < |events[1..]| ensures events[1..][i] == events[i + 1] && (before[1..] + reply)[i] == before[i + 1] {}
  }

  /** The first turn of many. */
  lemma FirstTurn(ls: LoopState, n: string, policy: AckPolicy, events: seq<Event>) returns (reply: seq<Parcel>)
    requires events != [] && Ready(ls, n) && AllAccepted(policy, events, On(ls.st.qm.stored, n), n)
    ensures var next := Next(ls, policy, events[0]);
            OneLess(ls, next, n, reply) && Ready(next, n) && AllAccepted(policy, events[1..], On(next.st.qm.stored, n), n)
  {
    var stored := ls.st.qm.stored;
    assert GoesOn(policy, events[0].h, FirstRaw(stored, n)) && Accepts(policy, events[0].h, FirstRaw(stored, n));
    reply := OneTurnConsumes(ls, n, policy, events[0]);
    var i := FirstIndex(stored, n);
    QueuesAfterTurn(stored, n, reply, n);
    AcceptedRest(policy, events, On(stored, n), On(reply, n), n);
  }

  /**
   The loop works off its queue: with as many turns as there are messages, or fewer, that many are
   consumed, each once, in the order of the queue, whatever their handlers answer or raise, as
   long as the policy commits. Replies, even to the same queue, come after what was there.
   */
  lemma {:induction false} DrainsInOrder(ls: LoopState, n: string, policy: AckPolicy, events: seq<Event>)
    requires Ready(ls, n) && AllAccepted(policy, events, On(ls.st.qm.stored, n), n)
    ensures Drained(ls, RunLoop(ls, policy, events), n, |events|)
    decreases |events|
  {
    if events == [] {
      assert RunLoop(ls, policy, events) == ls;
    } else {
      var next, rest := Next(ls, policy, events[0]), events[1..];
      var reply := FirstTurn(ls, n, policy, events);
      DrainsInOrder(next, n, policy, rest);
      DrainOneMore(ls, next, RunLoop(next, policy, rest), n, |rest|, reply);
      RunStep(ls, policy, events);
    }
  }

  /** A message that the policy refuses is first in its queue again, ahead of all others; every queue holds what it held, and its reply is gone. */
  lemma FailedMessageIsFirstAgain(ls: LoopState, n: string, policy: AckPolicy, e: Event, q: string)
    requires Ready(ls, n) && On(ls.st.qm.stored, n) != []
    requires e.Iterate? && e.running
    requires var raw := FirstRaw(ls.st.qm.stored, n); GoesOn(policy, e.h, raw) && !Accepts(policy, e.h, raw)
    ensures var next := Next(ls, policy, e);
            && Ready(next, n)
            && On(next.st.qm.stored, q) == On(ls.st.qm.stored, q)
            && next.st.qm.consumed == ls.st.qm.consumed && next.st.qm.sent == ls.st.qm.sent
  {
    var stored := ls.st.qm.stored;
    var reply, calls := HealthyTurn(ls, n, policy, e);
    var i := FirstIndex(stored, n);
    HealthySettle(ls.st.(qm := ls.st.qm.(stored := Without(stored, i), gets := ls.st.qm.gets + [stored[i]],
                                         puts := reply, putCalls := calls)), n, false);
    assert ls.st.qm.gets + [stored[i]] == [stored[i]];
    FirstIsTaken(stored, n, q);
    OnAppend([stored[i]], Without(stored, i), q);
    assert On([stored[i]], q) == if stored[i].0 == q then [stored[i]] else [];
  }

  // ---------- an empty queue ----------

  /** A turn that finds nothing on its queue changes nothing at all. */
  lemma IdleTurn(ls: LoopState, n: string, policy: AckPolicy, e: Event)
    requires Ready(ls, n) && On(ls.st.qm.stored, n) == [] && e.Iterate?
    ensures Next(ls, policy, e) == ls
  {
    FirstIsTaken(ls.st.qm.stored, n, n);
    HealthyGet(ls.st, n);
  }

  /** The loop waits on an empty queue for as long as it takes. */
  lemma {:induction false} IdleTurns(ls: LoopState, n: string, policy: AckPolicy, events: seq<Event>)
    requires Ready(ls, n) && On(ls.st.qm.stored, n) == []
    requires forall i :: 0 <= i < |events| ==> events[i].Iterate?
    ensures RunLoop(ls, policy, events) == ls
    decreases |events|
  {
    if events != [] {
      IdleTurn(ls, n, policy, events[0]);
      IdleTurns(ls, n, policy, events[1..]);
    }
  }
}
