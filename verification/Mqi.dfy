/**
 The environment: one queue manager as a single client connection sees it. The MQ
 library is not part of the repository; this module states what is assumed of it.

 Every call ends well, fails before its effect, or fails after its effect. A failure
 with a reconnectable reason means the open unit of work has been rolled back. Which
 of these happens, which identifiers and names the queue manager makes up, and which
 messages other programs put meanwhile, is read from a script; a statement about every
 script is a statement about every pattern of faults.
 */
module Mqi {
  import opened Wrappers
  import opened MqIds
  import opened HeaderNames
  import opened Messages

  /** The reason codes the adapter tells apart (client.py:865-880). */
  datatype Reason =
    | ConnectionBroken | HconnError | QMgrNotAvailable | HostNotAvailable | Reconnecting | Reconnected
    | ReconnectFailed | CallInterrupted | ReconnectQMgrReqd | ReconnectTimedOut | SslInitializationError
    | NoMsgAvailable
    | OtherReason(code: int)

  /** `_is_reconnectable_reason` */
  predicate IsReconnectable(reason: Reason) {
    !reason.NoMsgAvailable? && !reason.OtherReason?
  }

  datatype Exn = MqmiError(reason: Reason) | AssertionError | ValueError | RuntimeError | TimeoutError | CancelledError

  /** `is_retryable_mq_exception`, and the test of the retry wrapper. */
  predicate Retryable(exn: Exn) {
    exn.MqmiError? && IsReconnectable(exn.reason)
  }

  datatype Outcome<+T> = Return(value: T) | Raise(exn: Exn)

  type Failure = r: Reason | r != NoMsgAvailable witness ConnectionBroken

  datatype Fault = Fine | Before(reason: Failure) | After(reason: Failure)

  type Parcel = (string, Message)   // a queue name and a message

  datatype Tick = Tick(fault: Fault, newId: MqId, newName: string, arrivals: seq<Parcel>)

  /**
   `stored` lists the messages on all queues, oldest first; the queue called q is the sublist
   of the parcels named q. `gets` and `puts` are the open unit of work of connection `live`.
   `consumed` and `sent` list what this client has removed for good and made visible, and
   `arrived` what anyone else has. The last four fields count the calls the client has issued;
   `unclosed` holds the reply queues it opened and has not asked to close.
   */
  datatype QueueManager = QueueManager(
    stored: seq<Parcel>,
    live: Option<nat>,
    nextConnection: nat,
    gets: seq<Parcel>,
    puts: seq<Parcel>,
    consumed: seq<Parcel>,
    sent: seq<Parcel>,
    arrived: seq<Parcel>,
    script: seq<Tick>,
    putCalls: nat,
    connectCalls: nat,
    settleCalls: nat,
    unclosed: multiset<string>)

  // ---------- units of work ----------

  /** Gets go back in front of what is left, in their old order; pending puts are dropped. */
  function Rollback(m: QueueManager): QueueManager {
    m.(stored := m.gets + m.stored, gets := [], puts := [])
  }

  /** Gets become permanent and pending puts visible. */
  function Complete(m: QueueManager): QueueManager {
    m.(stored := m.stored + m.puts, consumed := m.consumed + m.gets, sent := m.sent + m.puts, gets := [], puts := [])
  }

  /** The first stored parcel of a queue that carries the wanted correlation id, if one is wanted. */
  function FirstOn(stored: seq<Parcel>, queue: string, correlId: Option<MqId>): (i: nat)
    ensures i <= |stored|
    ensures i < |stored| ==> stored[i].0 == queue && (correlId.Some? ==> stored[i].1.correlId == correlId.value)
    ensures forall j :: 0 <= j < i ==> !(stored[j].0 == queue && (correlId.Some? ==> stored[j].1.correlId == correlId.value))
  {
    if stored == [] then 0
    else if stored[0].0 == queue && (correlId.Some? ==> stored[0].1.correlId == correlId.value) then 0
    else
      assert forall j :: 0 < j < |stored| ==> stored[j] == stored[1..][j - 1];
      1 + FirstOn(stored[1..], queue, correlId)
  }

  datatype Effect =
    | NoEffect
    | Take(queue: string)
    | TakeReply(queue: string, correlId: MqId)
    | Place(queue: string, message: Message, syncpoint: bool)
    | CommitWork
    | BackoutWork

  function Without(stored: seq<Parcel>, i: nat): seq<Parcel>
    requires i < |stored|
  {
    stored[..i] + stored[i + 1..]
  }

  /** What a call does to the queue manager when it takes effect. A get under syncpoint joins the unit of work; a reply is taken outside it. */
  function Apply(m: QueueManager, effect: Effect): QueueManager {
    match effect
    case NoEffect => m
    case Take(queue) =>
      var i := FirstOn(m.stored, queue, None);
      if i == |m.stored| then m
      else m.(stored := Without(m.stored, i), gets := m.gets + [m.stored[i]])
    case TakeReply(queue, correlId) =>
      var i := FirstOn(m.stored, queue, Some(correlId));
      if i == |m.stored| then m
      else m.(stored := Without(m.stored, i), consumed := m.consumed + [m.stored[i]])
    case Place(queue, message, syncpoint) =>
      if syncpoint then m.(puts := m.puts + [(queue, message)])
      else m.(stored := m.stored + [(queue, message)], sent := m.sent + [(queue, message)])
    case CommitWork => Complete(m)
    case BackoutWork => Rollback(m)
  }

  // ---------- calls ----------

  function NextTick(m: QueueManager): Tick {
    if m.script == [] then Tick(Fine, seq(MQ_ID_BYTES_LENGTH, i => 1), "", []) else m.script[0]
  }

  /** Time passes up to the next call: others have put their messages. */
  function Advance(m: QueueManager): QueueManager {
    if m.script == [] then m
    else
      var t := m.script[0];
      m.(script := m.script[1..], stored := m.stored + t.arrivals, arrived := m.arrived + t.arrivals)
  }

  function Break(m: QueueManager, reason: Reason): QueueManager {
    if IsReconnectable(reason) then Rollback(m) else m
  }

  /** A call on a connection handle. A handle that is not the live one is refused. */
  function Call(m: QueueManager, connection: nat, effect: Effect): (QueueManager, Outcome<()>) {
    if m.live != Some(connection) then (m, Raise(MqmiError(HconnError)))
    else
      var m1 := Advance(m);
      match NextTick(m).fault
      case Fine => (Apply(m1, effect), Return(()))
      case Before(reason) => (Break(m1, reason), Raise(MqmiError(reason)))
      case After(reason) => (Break(Apply(m1, effect), reason), Raise(MqmiError(reason)))
  }

  /** MQGET: as any call, but an empty queue is reported with a reason of its own. */
  function Get(m: QueueManager, connection: nat, queue: string, correlId: Option<MqId>): (QueueManager, Outcome<Message>) {
    var effect := if correlId.Some? then TakeReply(queue, correlId.value) else Take(queue);
    var (m1, out) := Call(m, connection, effect);
    if out.Raise? then (m1, Raise(out.exn))
    else
      var stored := Advance(m).stored;
      var i := FirstOn(stored, queue, correlId);
      if i == |stored| then (m1, Raise(MqmiError(NoMsgAvailable))) else (m1, Return(stored[i].1))
  }

  /** MQPUT, which may have to make up the message identifier. */
  function Put(m: QueueManager, connection: nat, queue: string, draft: Message, syncpoint: bool): (QueueManager, Outcome<Message>) {
    var message := Stamp(draft, NextTick(m).newId);
    var (m1, out) := Call(m.(putCalls := m.putCalls + 1), connection, Place(queue, message, syncpoint));
    (m1, if out.Raise? then Raise(out.exn) else Return(message))
  }

  /** MQCMIT or MQBACK. */
  function Settle(m: QueueManager, connection: nat, commit: bool): (QueueManager, Outcome<()>) {
    Call(m.(settleCalls := m.settleCalls + 1), connection, if commit then CommitWork else BackoutWork)
  }

  /** Opening a temporary dynamic queue; the queue manager chooses its name, padded as object names are. */
  function OpenDynamic(m: QueueManager, connection: nat): (QueueManager, Outcome<string>) {
    var name := NextTick(m).newName;
    var (m1, out) := Call(m, connection, NoEffect);
    if out.Raise? then (m1, Raise(out.exn)) else (m1.(unclosed := m1.unclosed + multiset{MqStr(name)}), Return(name))
  }

  function CloseDynamic(m: QueueManager, connection: nat, name: string): QueueManager {
    Call(m.(unclosed := m.unclosed - multiset{name}), connection, NoEffect).0
  }

  /** MQCONN. A connection still open on the server, which no client holds any more, ends and is rolled back. */
  function Connect(m: QueueManager): (QueueManager, Outcome<nat>) {
    var m1 := Advance(m).(connectCalls := m.connectCalls + 1);
    var connected := Rollback(m1).(live := Some(m.nextConnection), nextConnection := m.nextConnection + 1);
    match NextTick(m).fault
    case Fine => (connected, Return(m.nextConnection))
    case Before(reason) => (m1, Raise(MqmiError(reason)))
    case After(reason) => (connected, Raise(MqmiError(reason)))
  }

  /** MQDISC. An orderly disconnect commits what is open; a failed one loses the connection, which rolls it back. */
  function Disconnect(m: QueueManager, connection: nat): QueueManager {
    if m.live != Some(connection) then m
    else
      var m1 := Advance(m);
      match NextTick(m).fault
      case Before(_) => Rollback(m1).(live := None)
      case _ => Complete(m1).(live := None)
  }

  // ---------- conservation ----------

  function Count(parcels: seq<Parcel>, p: Parcel): nat {
    multiset(parcels)[p]
  }

  /** Every message that was ever visible is on a queue, in the open unit of work, or consumed: in exactly one of these, however often it occurs. */
  ghost predicate Balanced(m: QueueManager) {
    forall p :: BalancedFor(m, p)
  }

  ghost predicate BalancedFor(m: QueueManager, p: Parcel) {
    Count(m.stored, p) + Count(m.gets, p) + Count(m.consumed, p) == Count(m.arrived, p) + Count(m.sent, p)
  }

  ghost predicate SameParcels(m: QueueManager, m': QueueManager) {
    m'.stored == m.stored && m'.gets == m.gets && m'.consumed == m.consumed && m'.arrived == m.arrived && m'.sent == m.sent
  }

  /** Connection handles, call counters and pending puts do not enter into the balance. */
  lemma SameParcelsBalanced(m: QueueManager, m': QueueManager)
    requires Balanced(m) && SameParcels(m, m')
    ensures Balanced(m')
  {
    forall p ensures BalancedFor(m', p) {
      assert BalancedFor(m, p);
    }
  }

  lemma CountAppend(a: seq<Parcel>, b: seq<Parcel>, p: Parcel)
    ensures Count(a + b, p) == Count(a, p) + Count(b, p)
  {
  }

  lemma CountWithout(stored: seq<Parcel>, i: nat, p: Parcel)
    requires i < |stored|
    ensures Count(Without(stored, i), p) + Count([stored[i]], p) == Count(stored, p)
  {
    assert stored == stored[..i] + ([stored[i]] + stored[i + 1..]);
    CountAppend(stored[..i], [stored[i]] + stored[i + 1..], p);
    CountAppend([stored[i]], stored[i + 1..], p);
    CountAppend(stored[..i], stored[i + 1..], p);
  }

  lemma AdvanceBalanced(m: QueueManager)
    requires Balanced(m)
    ensures Balanced(Advance(m))
  {
    var m1 := Advance(m);
    forall p ensures BalancedFor(m1, p) {
      assert BalancedFor(m, p);
      if m.script != [] {
        CountAppend(m.stored, m.script[0].arrivals, p);
        CountAppend(m.arrived, m.script[0].arrivals, p);
      }
    }
  }

  lemma RollbackBalanced(m: QueueManager)
    requires Balanced(m)
    ensures Balanced(Rollback(m))
  {
    var m1 := Rollback(m);
    forall p ensures BalancedFor(m1, p) {
      assert BalancedFor(m, p);
      CountAppend(m.gets, m.stored, p);
    }
  }

  lemma CompleteBalanced(m: QueueManager)
    requires Balanced(m)
    ensures Balanced(Complete(m))
  {
    var m1 := Complete(m);
    forall p ensures BalancedFor(m1, p) {
      assert BalancedFor(m, p);
      CountAppend(m.stored, m.puts, p);
      CountAppend(m.sent, m.puts, p);
      CountAppend(m.consumed, m.gets, p);
    }
  }

  lemma TakeBalanced(m: QueueManager, i: nat)
    requires Balanced(m) && i < |m.stored|
    ensures Balanced(m.(stored := Without(m.stored, i), gets := m.gets + [m.stored[i]]))
    ensures Balanced(m.(stored := Without(m.stored, i), consumed := m.consumed + [m.stored[i]]))
  {
    forall p
      ensures BalancedFor(m.(stored := Without(m.stored, i), gets := m.gets + [m.stored[i]]), p)
      ensures BalancedFor(m.(stored := Without(m.stored, i), consumed := m.consumed + [m.stored[i]]), p)
    {
      assert BalancedFor(m, p);
      CountWithout(m.stored, i, p);
      CountAppend(m.gets, [m.stored[i]], p);
      CountAppend(m.consumed, [m.stored[i]], p);
    }
  }

  lemma PlaceBalanced(m: QueueManager, parcel: Parcel)
    requires Balanced(m)
    ensures Balanced(m.(stored := m.stored + [parcel], sent := m.sent + [parcel]))
  {
    forall p ensures BalancedFor(m.(stored := m.stored + [parcel], sent := m.sent + [parcel]), p) {
      assert BalancedFor(m, p);
      CountAppend(m.stored, [parcel], p);
      CountAppend(m.sent, [parcel], p);
    }
  }

  lemma ApplyBalanced(m: QueueManager, effect: Effect)
    requires Balanced(m)
    ensures Balanced(Apply(m, effect))
  {
    match effect
    case Take(queue) =>
      var i := FirstOn(m.stored, queue, None);
      if i < |m.stored| { TakeBalanced(m, i); }
    case TakeReply(queue, correlId) =>
      var i := FirstOn(m.stored, queue, Some(correlId));
      if i < |m.stored| { TakeBalanced(m, i); }
    case Place(queue, message, _) =>
      PlaceBalanced(m, (queue, message));
      SameParcelsBalanced(m, m.(puts := m.puts + [(queue, message)]));
    case CommitWork => CompleteBalanced(m);
    case BackoutWork => RollbackBalanced(m);
    case NoEffect =>
  }

  /** How often a parcel has become visible so far. */
  function History(m: QueueManager, p: Parcel): nat {
    Count(m.arrived, p) + Count(m.sent, p)
  }

  predicate Grown(m: QueueManager, m': QueueManager, p: Parcel) {
    History(m, p) <= History(m', p)
  }

  /** Nothing that was visible is unheard of later, and the script only runs out. */
  ghost predicate Later(m: QueueManager, m': QueueManager) {
    |m'.script| <= |m.script| && forall p :: Grown(m, m', p)
  }

  lemma LaterStill(a: QueueManager, b: QueueManager, c: QueueManager)
    requires Later(a, b) && Later(b, c)
    ensures Later(a, c)
  {
    forall p ensures Grown(a, c, p) {
      assert Grown(a, b, p) && Grown(b, c, p);
    }
  }

  /** What others have put, and what this client has sent, only grows. */
  lemma GrowsLater(m: QueueManager, m': QueueManager, arrivals: seq<Parcel>, placed: seq<Parcel>)
    requires m'.arrived == m.arrived + arrivals && m'.sent == m.sent + placed && |m'.script| <= |m.script|
    ensures Later(m, m')
  {
    forall p ensures Grown(m, m', p) {
      CountAppend(m.arrived, arrivals, p);
      CountAppend(m.sent, placed, p);
    }
  }

  /** A call conserves every message. */
  lemma CallBalanced(m: QueueManager, connection: nat, effect: Effect)
    requires Balanced(m)
    ensures Balanced(Call(m, connection, effect).0)
  {
    AdvanceBalanced(m);
    ApplyBalanced(Advance(m), effect);
    RollbackBalanced(Advance(m));
    RollbackBalanced(Apply(Advance(m), effect));
  }

  lemma CallLater(m: QueueManager, connection: nat, effect: Effect)
    ensures Later(m, Call(m, connection, effect).0)
  {
    var m' := Call(m, connection, effect).0;
    assert m.arrived + [] == m.arrived && m.sent + [] == m.sent;
    GrowsLater(m, m', if m'.arrived == m.arrived then [] else NextTick(m).arrivals,
               if m'.sent == m.sent then [] else if effect.Place? then [(effect.queue, effect.message)] else m.puts);
  }

  // ---------- what a call does to the client's work ----------

  /** The part of the queue manager only this client changes. */
  datatype Work = Work(gets: seq<Parcel>, puts: seq<Parcel>, consumed: seq<Parcel>, sent: seq<Parcel>)
  {
    function RolledBack(): Work { Work([], [], consumed, sent) }
    function Completed(): Work { Work([], [], consumed + gets, sent + puts) }
    predicate Empty() { gets == [] && puts == [] }
  }

  function WorkOf(m: QueueManager): Work {
    Work(m.gets, m.puts, m.consumed, m.sent)
  }

  /** A call without an effect of its own keeps the work, or fails and loses it; which of the two shows in the reason. */
  lemma IdleCall(m: QueueManager, connection: nat)
    requires m.live == Some(connection)
    ensures var (m1, out) := Call(m, connection, NoEffect);
            && m1.live == m.live
            && WorkOf(m1) == (if out.Raise? && Retryable(out.exn) then WorkOf(m).RolledBack() else WorkOf(m))
  {
  }

  /** Settling: the work is finished as asked, or kept, or lost; a normal return excludes "kept". */
  lemma SettleCall(m: QueueManager, connection: nat, commit: bool)
    requires m.live == Some(connection)
    ensures var (m1, out) := Settle(m, connection, commit);
            var done := if commit then WorkOf(m).Completed() else WorkOf(m).RolledBack();
            && m1.live == m.live
            && (out.Return? ==> WorkOf(m1) == done)
            && (out.Raise? && Retryable(out.exn) ==>
                  WorkOf(m1).Empty() && (WorkOf(m1) == done || WorkOf(m1) == WorkOf(m).RolledBack()))
            && (out.Raise? && !Retryable(out.exn) ==> WorkOf(m1) == done || WorkOf(m1) == WorkOf(m))
  {
  }

  /** The calls counted so far. */
  datatype Tally = Tally(puts: nat, connects: nat, settles: nat, unclosed: multiset<string>)

  function TallyOf(m: QueueManager): Tally {
    Tally(m.putCalls, m.connectCalls, m.settleCalls, m.unclosed)
  }

  lemma CallTally(m: QueueManager, connection: nat, effect: Effect)
    ensures TallyOf(Call(m, connection, effect).0) == TallyOf(m)
  {
  }
}
