/**
 Fetching messages directly: `get_one`, the iterator and their gate
 (faststream_mq/subscriber/usecase.py:174-268, 347-359). One step is one call of
 `get_one`, or one pass of the iterator's loop.
 */
module DirectMode {
  import opened Wrappers
  import opened Messages
  import opened Mqi
  import opened Client
  import opened Settlement
  import opened Consuming

  /**
   The messages handed to the caller so far, and which of them the subscriber remembers. `buffer`
   holds the messages of the test broker, if it is one; `started`: there is a connection.
   */
  datatype DirectState = DirectState(
    st: State,
    handed: seq<Delivery>,
    direct: Option<nat>,
    buffer: Option<seq<RawMessage>>,
    handlers: bool,
    started: bool)

  datatype Fetched = Refused | Failed(exn: Exn) | NoMessage | Unparsable(exc: ExcKind) | Handed(raw: RawMessage)

  datatype Event = Fetch(parseError: Option<ExcKind>) | Settle(index: nat, turn: Turn)

  ghost predicate Valid(ds: DirectState) {
    ds.direct.Some? ==> ds.direct.value < |ds.handed|
  }

  /** `_ensure_no_unsettled_direct_message`: refuse, or forget the settled message. */
  predicate Blocked(ds: DirectState)
    requires Valid(ds)
  {
    ds.direct.Some? && ds.handed[ds.direct.value].settled.None?
  }

  /** A message that has been got is parsed, and handed over or settled. */
  function HandOver(ds: DirectState, policy: AckPolicy, parseError: Option<ExcKind>, raw: RawMessage, connected: bool): (DirectState, Fetched) {
    if parseError.Some? then
      var p := SettleUnresolved(Arrived(ds.st, Fresh(connected)), policy, parseError.value);
      (ds.(st := p.st), Unparsable(parseError.value))
    else
      (ds.(handed := ds.handed + [Fresh(connected)], direct := if policy.MANUAL? then Some(|ds.handed|) else None), Handed(raw))
  }

  function FetchStep(ds: DirectState, policy: AckPolicy, parseError: Option<ExcKind>): (DirectState, Fetched)
    requires Valid(ds)
  {
    if ds.handlers then (ds, Failed(AssertionError))
    else if Blocked(ds) then (ds, Refused)
    else
      var free := ds.(direct := None);
      if ds.buffer.Some? then
        if ds.buffer.value == [] then (free, NoMessage)
        else HandOver(free.(buffer := Some(ds.buffer.value[1..])), policy, parseError, ds.buffer.value[0], false)
      else if !ds.started then (free, Failed(AssertionError))
      else
        var got := Perform(ds.st, GetOp);
        match got.out
        case Raise(exn) => (free.(st := got.st), Failed(exn))
        case Return(Got(Some(raw))) => HandOver(free.(st := got.st), policy, parseError, raw, true)
        case Return(_) => (free.(st := got.st), NoMessage)
  }

  function Step(ds: DirectState, policy: AckPolicy, e: Event): DirectState
    requires Valid(ds)
  {
    match e
    case Fetch(parseError) => FetchStep(ds, policy, parseError).0
    case Settle(index, turn) =>
      if index >= |ds.handed| then ds
      else
        var r := SettleMessage(ds.st, ds.handed[index], turn);
        ds.(st := r.st, handed := ds.handed[index := r.d])
  }

  function Run(ds: DirectState, policy: AckPolicy, events: seq<Event>): DirectState
    requires Valid(ds)
    decreases |events|
  {
    if events == [] then ds else Run(Step(ds, policy, events[0]), policy, events[1..])
  }

  /** An unsettled message in the caller's hands is the one the subscriber remembers. */
  ghost predicate OnlyTheDirectOne(ds: DirectState) {
    Valid(ds) && forall i :: 0 <= i < |ds.handed| && ds.handed[i].settled.None? ==> ds.direct == Some(i)
  }

  /** A settled message stays settled, whatever is called on it. */
  lemma StaysSettled(st: State, d: Delivery, turn: Turn)
    ensures d.settled.Some? ==> SettleMessage(st, d, turn).d.settled.Some?
  {
  }

  /** A fetch keeps what was handed out before, and adds at most the message the subscriber then remembers. */
  lemma FetchHands(ds: DirectState, parseError: Option<ExcKind>)
    requires Valid(ds)
    ensures var ds' := FetchStep(ds, MANUAL, parseError).0;
            || ds' == ds
            || (!Blocked(ds) && ds'.direct == None && ds'.handed == ds.handed)
            || (!Blocked(ds) && ds'.direct == Some(|ds.handed|) && |ds'.handed| == |ds.handed| + 1 && ds'.handed[..|ds.handed|] == ds.handed)
  {
  }

  lemma FetchGate(ds: DirectState, parseError: Option<ExcKind>)
    requires OnlyTheDirectOne(ds)
    ensures OnlyTheDirectOne(FetchStep(ds, MANUAL, parseError).0)
  {
    FetchHands(ds, parseError);
  }

  lemma SettleGate(ds: DirectState, e: Event)
    requires OnlyTheDirectOne(ds) && e.Settle?
    ensures OnlyTheDirectOne(Step(ds, MANUAL, e))
  {
    if e.index < |ds.handed| {
      StaysSettled(ds.st, ds.handed[e.index], e.turn);
    }
  }

  lemma StepGate(ds: DirectState, e: Event)
    requires OnlyTheDirectOne(ds)
    ensures OnlyTheDirectOne(Step(ds, MANUAL, e))
  {
    match e
    case Fetch(parseError) => FetchGate(ds, parseError);
    case Settle(_, _) => SettleGate(ds, e);
  }

  /** Over every sequence of fetches and settlement calls under MANUAL, failed ones included, the caller holds at most one unsettled message. */
  lemma {:induction false} AtMostOneUnsettled(ds: DirectState, events: seq<Event>)
    requires OnlyTheDirectOne(ds)
    ensures var r := Run(ds, MANUAL, events);
            && OnlyTheDirectOne(r)
            && forall i, j :: 0 <= i < j < |r.handed| ==> r.handed[i].settled.Some? || r.handed[j].settled.Some?
    decreases |events|
  {
    if events != [] {
      StepGate(ds, events[0]);
      AtMostOneUnsettled(Step(ds, MANUAL, events[0]), events[1..]);
    }
  }

  /** Without handlers a fetch is refused exactly when the caller still holds an unsettled message; with handlers it always fails; and then it takes nothing. */
  lemma RefusedExactly(ds: DirectState, parseError: Option<ExcKind>)
    requires OnlyTheDirectOne(ds)
    ensures var (ds', fetched) := FetchStep(ds, MANUAL, parseError);
            && (fetched == Refused <==> !ds.handlers && exists i :: 0 <= i < |ds.handed| && ds.handed[i].settled.None?)
            && (fetched == Refused || ds.handlers ==> ds' == ds)
  {
  }
}
