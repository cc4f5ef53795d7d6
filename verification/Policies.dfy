/**
 What becomes of a delivery, by policy and by what its processing raised. A delivery can be
 settled in two places, FastStream's middleware and the adapter's `consume`; they agree.
 */
module Policies {
  import opened Wrappers
  import opened Messages
  import opened Mqi
  import opened Client
  import opened Settlement
  import opened Consuming
  import opened Transactions
  import NoLoss

  /** What processing raises before anything settles the message: parser, handler, or reply. */
  function Cause(st: State, raw: RawMessage, h: Handling): Option<ExcKind> {
    if h.parseError.Some? then h.parseError
    else if h.handlerError.Some? then h.handlerError
    else Respond(Arrived(st, Fresh(true)), raw, h).raised
  }

  /** Wherever an exception is caught, it is settled the same way. */
  lemma PathsAgree(policy: AckPolicy, exc: ExcKind)
    requires SettlesLast(policy)
    ensures Commits(MiddlewareCall(policy, Some(exc))) == ShouldCommit(policy, exc)
  {
  }

  lemma ReplyKeepsRecord(p: Progress, raw: RawMessage, h: Handling)
    ensures Respond(p, raw, h).d == p.d && Respond(p, raw, h).clean == p.clean
  {
  }

  /** The state in which the middleware or `consume` finds the delivery. */
  function Answered(st: State, raw: RawMessage, h: Handling): Progress {
    var p := Arrived(st, Fresh(true));
    if h.handlerError.Some? then p.(raised := h.handlerError) else Respond(p, raw, h)
  }

  lemma MiddlewareSettles(p: Progress, policy: AckPolicy, h: Handling)
    requires p.d == Fresh(true) && SettlesLast(policy) && LeaveMiddleware(p, policy, h).clean
    ensures var q, status := LeaveMiddleware(p, policy, h), Some(StatusOf(Commits(MiddlewareCall(policy, p.raised))));
            q.d.settled == status && q.d.committed == status
  {
  }

  /** `consume` on what processing left. */
  function Resolved(p: Progress, policy: AckPolicy): Progress {
    if p.raised.None? then p else SettleUnresolved(p, policy, p.raised.value)
  }

  /** If `consume` ends without a settlement call having raised, so did the middleware. */
  lemma CleanMiddleware(p: Progress, policy: AckPolicy, h: Handling)
    requires Resolved(LeaveMiddleware(p, policy, h), policy).clean
    ensures LeaveMiddleware(p, policy, h).clean && p.clean
  {
    var q := LeaveMiddleware(p, policy, h);
    if q.raised.Some? {
      assert SettleUnresolved(q, policy, q.raised.value).clean ==> q.clean;
    }
  }

  // ---------- a delivery settled before its reply ----------

  /** Settled by a call on the message itself. */
  predicate Final(d: Delivery, status: AckStatus) {
    d.committed == Some(status) && d.settled == Some(status)
  }

  lemma FirstCallIsFinal(p: Progress, turn: Turn)
    requires p.d == Fresh(true) && SettleIn(p, turn).clean
    ensures Final(SettleIn(p, turn).d, StatusOf(Commits(turn.call)))
  {
  }

  lemma {:induction false} FinalThroughCalls(p: Progress, turns: seq<Turn>, status: AckStatus)
    requires Final(p.d, status)
    ensures Final(HandlerCalls(p, turns).d, status)
    decreases |turns|
  {
    if turns != [] {
      FinalThroughCalls(SettleIn(p, turns[0]), turns[1..], status);
    }
  }

  lemma FinalThroughMiddleware(p: Progress, policy: AckPolicy, h: Handling, status: AckStatus)
    requires Final(p.d, status)
    ensures Final(Resolved(LeaveMiddleware(p, policy, h), policy).d, status)
  {
  }

  /** With ACK_FIRST, or a handler that settles, the first call decides and nothing later changes it. */
  lemma FirstCallDecides(st: State, raw: RawMessage, policy: AckPolicy, h: Handling)
    requires h.parseError.None? && (policy.ACK_FIRST? || h.calls != [])
    requires Consume(st, Fresh(true), raw, policy, h, true).clean
    ensures var call := if policy.ACK_FIRST? then AckCall else h.calls[0].call;
            Final(Consume(st, Fresh(true), raw, policy, h, true).d, StatusOf(Commits(call)))
  {
    var p := Arrived(st, Fresh(true));
    var first := if policy.ACK_FIRST? then SettleIn(p, Plainly(AckCall)) else p;
    var handled := HandlerCalls(first, h.calls);
    var answered := if h.handlerError.Some? then handled.(raised := h.handlerError) else Respond(handled, raw, h);
    ReplyKeepsRecord(handled, raw, h);
    assert Consume(st, Fresh(true), raw, policy, h, true) == Resolved(LeaveMiddleware(answered, policy, h), policy);
    CleanMiddleware(answered, policy, h);
    NoLoss.QuietBefore(first, h.calls);
    var status := StatusOf(Commits(if policy.ACK_FIRST? then AckCall else h.calls[0].call));
    if policy.ACK_FIRST? {
      FirstCallIsFinal(p, Plainly(AckCall));
      FinalThroughCalls(first, h.calls, status);
    } else {
      NoLoss.QuietBefore(SettleIn(p, h.calls[0]), h.calls[1..]);
      FirstCallIsFinal(p, h.calls[0]);
      FinalThroughCalls(SettleIn(p, h.calls[0]), h.calls[1..], status);
    }
    FinalThroughMiddleware(answered, policy, h, status);
  }

  // ---------- the table ----------

  /** How a delivery is recorded in the end, by policy, handler and what was raised. */
  function Outcome(policy: AckPolicy, h: Handling, cause: Option<ExcKind>): Option<AckStatus> {
    if h.parseError.Some? then Some(StatusOf(ShouldCommit(policy, h.parseError.value)))
    else if policy.ACK_FIRST? then Some(ACKED)
    else if h.calls != [] then Some(StatusOf(Commits(h.calls[0].call)))
    else if cause.Some? then Some(StatusOf(ShouldCommit(policy, cause.value)))
    else if policy.MANUAL? then None else Some(ACKED)
  }

  /** Settled by `consume` behind the back of the message: a call on it reaches the broker again. */
  predicate Reopenable(d: Delivery) {
    d.settled.Some? && d.committed.None?
  }

  lemma SettledAfterReply(st: State, raw: RawMessage, policy: AckPolicy, h: Handling)
    requires h.parseError.None? && h.calls == [] && !policy.ACK_FIRST?
    requires Consume(st, Fresh(true), raw, policy, h, true).clean
    ensures var d, cause := Consume(st, Fresh(true), raw, policy, h, true).d, Cause(st, raw, h);
            d.settled == Outcome(policy, h, cause) && (Reopenable(d) <==> policy.MANUAL? && cause.Some?)
  {
    var p := Arrived(st, Fresh(true));
    assert HandlerCalls(p, h.calls) == p;
    var answered := Answered(st, raw, h);
    ReplyKeepsRecord(p, raw, h);
    assert Consume(st, Fresh(true), raw, policy, h, true) == Resolved(LeaveMiddleware(answered, policy, h), policy);
    CleanMiddleware(answered, policy, h);
    if SettlesLast(policy) {
      MiddlewareSettles(answered, policy, h);
      if answered.raised.Some? { PathsAgree(policy, answered.raised.value); }
    }
  }

  /**
   The record of every clean delivery, for every policy and handler. Whoever kept the message can
   settle it again exactly if `consume` settled it: after a parser failure, or when MANUAL leaves
   an exception to it that no call of the handler came before.
   */
  lemma OutcomeByPolicy(st: State, raw: RawMessage, policy: AckPolicy, h: Handling)
    requires Consume(st, Fresh(true), raw, policy, h, true).clean
    ensures var d, cause := Consume(st, Fresh(true), raw, policy, h, true).d, Cause(st, raw, h);
            && d.settled == Outcome(policy, h, cause)
            && (Reopenable(d) <==> h.parseError.Some? || (policy.MANUAL? && h.calls == [] && cause.Some?))
  {
    if h.parseError.None? {
      if policy.ACK_FIRST? || h.calls != [] {
        FirstCallDecides(st, raw, policy, h);
      } else {
        SettledAfterReply(st, raw, policy, h);
      }
    }
  }

  /**
   When a settlement call reaches the broker: exactly on a message that no earlier call has
   settled, with a live connection, unless it is cancelled before it begins. What `consume`
   settled is such a message.
   */
  lemma CallReachesBroker(st: State, d: Delivery, turn: Turn)
    ensures SettleMessage(st, d, turn).st != st <==>
            d.committed.None? && d.connected && Runs(turn) && st.executor && st.qmgr.Some?
  {
    if st.executor && st.qmgr.Some? {
      SettlementBound(st, Commits(turn.call));
    }
  }
}
