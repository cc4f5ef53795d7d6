/**
 The consume loop of `MQSubscriber` (faststream_mq/subscriber/usecase.py:84-146, 270-345)
 as a function of the handlers' behaviour. FastStream's own part is written down as
 assumed: the handler runs before the reply is published, and the acknowledgement
 middleware settles last, except that ACK_FIRST settles before the handler and MANUAL
 leaves settling to the handler.
 */
module Consuming {
  import opened Wrappers
  import opened Messages
  import opened Mqi
  import opened Client
  import opened Settlement

  datatype AckPolicy = ACK_FIRST | ACK | REJECT_ON_ERROR | NACK_ON_ERROR | MANUAL

  /** The kinds of exception that are told apart. */
  datatype ExcKind = AckMessage | NackMessage | RejectMessage | StopConsume | SystemExit | OtherError

  /**
   What processing one message does that the adapter does not decide: a parser or filter may
   fail (then the middleware never learns of the message), the handler may settle the message
   itself, may raise, may return a response; a publisher or a middleware may raise after that;
   and an exception while the middleware settles is logged, or escapes.
   */
  datatype Handling = Handling(
    parseError: Option<ExcKind>,
    calls: seq<Turn>,
    handlerError: Option<ExcKind>,
    response: Option<AnyCommand>,
    lateError: Option<ExcKind>,
    settleErrorsEscape: bool)

  /** A settlement call that reached the broker: the state in which it began, and whether it was a commit. */
  datatype Attempted = Attempted(at: State, commit: bool)

  /**
   Where the processing of a message stands. `quiet`: no settlement call has left the unit of
   work open. `clean`: none has raised. `replied`: the reply was published. `attempt`: the first
   settlement call that reached the broker, whatever came of it.
   */
  datatype Progress = Progress(
    st: State,
    d: Delivery,
    raised: Option<ExcKind>,
    quiet: bool,
    clean: bool,
    replied: bool,
    attempt: Option<Attempted>)

  function Arrived(st: State, d: Delivery): Progress {
    Progress(st, d, None, true, true, false, None)
  }

  /**
   A settlement call that begins here leaves the unit of work as open as it was: it cannot be
   made, or fails before its effect for a reason that does not break the connection.
   */
  predicate LeavesOpen(st: State) {
    && !WorkOf(st.qm).Empty()
    && (!st.executor || st.qmgr.None? || (NextTick(st.qm).fault.Before? && !IsReconnectable(NextTick(st.qm).fault.reason)))
  }

  function First(p: Progress, commit: bool): Option<Attempted> {
    if p.attempt.Some? then p.attempt else Some(Attempted(p.st, commit))
  }

  /** `_should_commit` */
  predicate ShouldCommit(policy: AckPolicy, exc: ExcKind) {
    if exc.AckMessage? || exc.RejectMessage? then true
    else if exc.NackMessage? then false
    else policy.ACK? || policy.ACK_FIRST? || policy.REJECT_ON_ERROR?
  }

  function SettleIn(p: Progress, turn: Turn): Progress {
    var r := SettleMessage(p.st, p.d, turn);
    var asked := p.d.committed.None? && p.d.connected;
    p.(st := r.st, d := r.d, clean := p.clean && r.out.Return?,
       quiet := p.quiet && (asked ==> if Runs(turn) then !LeavesOpen(p.st) else WorkOf(p.st.qm).Empty()),
       attempt := if asked && Runs(turn) then First(p, Commits(turn.call)) else p.attempt)
  }

  function HandlerCalls(p: Progress, turns: seq<Turn>): Progress
    decreases |turns|
  {
    if turns == [] then p else HandlerCalls(SettleIn(p, turns[0]), turns[1..])
  }

  /** The reply, on the connection the message came from; then whatever else may fail. */
  function Respond(p: Progress, raw: RawMessage, h: Handling): Progress {
    if h.response.None? || raw.replyTo == "" then p.(raised := h.lateError)
    else
      match FromCmd(h.response.value)
      case Err(_) => p.(raised := Some(OtherError))
      case Ok(cmd) =>
        var r := Perform(p.st, PublishOp(ReplyCommand(raw, cmd)));
        if r.out.Raise? then p.(st := r.st, raised := Some(OtherError))
        else p.(st := r.st, replied := true, raised := h.lateError)
  }

  predicate SettlesLast(policy: AckPolicy) {
    !policy.ACK_FIRST? && !policy.MANUAL?
  }

  predicate SaysHow(exc: ExcKind) {
    exc.AckMessage? || exc.NackMessage? || exc.RejectMessage?
  }

  /** How the acknowledgement middleware settles on the way out. */
  function MiddlewareCall(policy: AckPolicy, raised: Option<ExcKind>): SettleCall {
    match raised
    case None => AckCall
    case Some(AckMessage) => AckCall
    case Some(NackMessage) => NackCall
    case Some(RejectMessage) => RejectCall
    case Some(_) => if policy.NACK_ON_ERROR? then NackCall else if policy.REJECT_ON_ERROR? then RejectCall else AckCall
  }

  /** It swallows the exceptions that only say how to settle. */
  function LeaveMiddleware(p: Progress, policy: AckPolicy, h: Handling): Progress {
    if !SettlesLast(policy) then p
    else
      var turn := Plainly(MiddlewareCall(policy, p.raised));
      var escaped := SettleMessage(p.st, p.d, turn).out.Raise? && h.settleErrorsEscape;
      SettleIn(p, turn).(raised :=
        if escaped then Some(OtherError)
        else if p.raised.Some? && SaysHow(p.raised.value) then None
        else p.raised)
  }

  /** `process_message` */
  function ProcessMessage(st: State, d: Delivery, raw: RawMessage, policy: AckPolicy, h: Handling): Progress {
    var p := Arrived(st, d);
    if h.parseError.Some? then p.(raised := h.parseError)
    else
      var first := if policy.ACK_FIRST? then SettleIn(p, Plainly(AckCall)) else p;
      var handled := HandlerCalls(first, h.calls);
      LeaveMiddleware(
        if h.handlerError.Some? then handled.(raised := h.handlerError) else Respond(handled, raw, h), policy, h)
  }

  /** `_settle_unresolved_message` */
  function SettleUnresolved(p: Progress, policy: AckPolicy, exc: ExcKind): Progress {
    if !p.d.connected || p.d.settled.Some? then p
    else
      var commit := ShouldCommit(policy, exc);
      var r := Perform(p.st, SettleOp(commit));
      var asked := p.(st := r.st, quiet := p.quiet && !LeavesOpen(p.st), attempt := First(p, commit));
      if r.out.Raise? then asked.(d := p.d.(event := true), clean := false)
      else asked.(d := p.d.(settled := Some(StatusOf(commit)), event := true))
  }

  /** `consume`; a subscriber that is no longer running leaves the message as it is. */
  function Consume(st: State, d: Delivery, raw: RawMessage, policy: AckPolicy, h: Handling, running: bool): Progress {
    if !running then Arrived(st, d)
    else
      var p := ProcessMessage(st, d, raw, policy, h);
      if p.raised.None? then p else SettleUnresolved(p, policy, p.raised.value)
  }

  /** `consume` stops the subscriber on these. */
  predicate Stops(raised: Option<ExcKind>) {
    raised == Some(StopConsume) || raised == Some(SystemExit)
  }

  /** The connection part of `stop`: a consumer that cannot be closed leaves the connection open. */
  function StopConnection(st: State): State {
    var r := StopConsumer(st);
    if r.out.Raise? then r.st else Disconnected(r.st)
  }

  // ---------- the loop ----------

  /** One delivery, from the state before its get to the state in which the loop goes on. */
  datatype Record = Record(
    before: State, taken: State, raw: RawMessage, h: Handling, d: Delivery,
    quiet: bool, clean: bool, replied: bool, attempt: Option<Attempted>, after: State)

  /** A call of `stop` from outside. */
  datatype Stop = Stop(before: State, after: State)

  datatype LoopState = LoopState(st: State, log: seq<Record>, over: bool, stops: seq<Stop>)

  function Begin(st: State): LoopState {
    LoopState(st, [], false, [])
  }

  /**
   A turn of the loop, a call on a message the handler has kept, or a stop from outside. `held` is the settlement
   call that ends the wait of the MANUAL policy, if there is one; `running` is false if the
   subscriber was stopped between the get and `consume`.
   */
  datatype Event = Iterate(h: Handling, held: Option<Turn>, running: bool) | Late(index: nat, turn: Turn) | Shutdown

  /** Under MANUAL the loop waits for a message that is neither settled nor had a settlement attempt. */
  predicate Waits(policy: AckPolicy, d: Delivery) {
    policy.MANUAL? && d.settled.None? && !d.event
  }

  /** `consume`, and the wait that `held` ends. */
  function ConsumeAndWait(taken: State, raw: RawMessage, policy: AckPolicy, e: Event): Progress
    requires e.Iterate?
  {
    var p := Consume(taken, Fresh(true), raw, policy, e.h, e.running);
    if Waits(policy, p.d) && e.held.Some? then SettleIn(p, e.held.value) else p
  }

  function Deliver(ls: LoopState, taken: State, raw: RawMessage, policy: AckPolicy, e: Event): LoopState
    requires e.Iterate?
  {
    var p := ConsumeAndWait(taken, raw, policy, e);
    var st := if Stops(p.raised) then StopConnection(p.st) else p.st;
    LoopState(st, ls.log + [Record(ls.st, taken, raw, e.h, p.d, p.quiet, p.clean, p.replied, p.attempt, st)],
              Stops(p.raised) || !e.running || Waits(policy, p.d), ls.stops)
  }

  /**
   A call on a kept message. One that no call has settled yet reaches the broker again, where it
   settles whatever is open by then: it is quiet only if nothing is.
   */
  function SettleLate(ls: LoopState, e: Event): LoopState
    requires e.Late? && e.index < |ls.log|
  {
    var rec := ls.log[e.index];
    var r := SettleMessage(ls.st, rec.d, e.turn);
    var reaches := rec.d.committed.None? && rec.d.connected && Runs(e.turn);
    LoopState(r.st, ls.log[e.index := rec.(d := r.d,
                                           quiet := rec.quiet && (reaches ==> WorkOf(ls.st.qm).Empty()),
                                           clean := rec.clean && r.out.Return? && rec.d.committed.Some?)],
              ls.over, ls.stops)
  }

  function Next(ls: LoopState, policy: AckPolicy, e: Event): LoopState {
    match e
    case Shutdown => LoopState(StopConnection(ls.st), ls.log, true, ls.stops + [Stop(ls.st, StopConnection(ls.st))])
    case Late(index, _) => if index < |ls.log| then SettleLate(ls, e) else ls
    case Iterate(_, _, _) =>
      if ls.over then ls
      else
        var got := Perform(ls.st, GetOp);
        match got.out
        case Raise(_) => ls.(st := got.st, over := true)
        case Return(Got(Some(raw))) => Deliver(ls, got.st, raw, policy, e)
        case Return(_) => ls.(st := got.st)
  }

  function RunLoop(ls: LoopState, policy: AckPolicy, events: seq<Event>): LoopState
    decreases |events|
  {
    if events == [] then ls else RunLoop(Next(ls, policy, events[0]), policy, events[1..])
  }
}
