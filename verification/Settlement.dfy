/**
 Settling one message: `MQRawMessage` and `MQMessage` (faststream_mq/message.py:17-78).
 FastStream's `StreamMessage.ack/nack` sets `committed` only while it is None.
 */
module Settlement {
  import opened Wrappers
  import opened Messages
  import opened Mqi
  import opened Client

  datatype AckStatus = ACKED | NACKED

  /** What settling a message reads and writes. A message of the test broker has no connection. */
  datatype Delivery = Delivery(connected: bool, committed: Option<AckStatus>, settled: Option<AckStatus>, event: bool)

  datatype SettleCall = AckCall | NackCall | RejectCall

  /**
   One settlement call, and how often its waiter is cancelled. `unstarted`: the connection's
   worker has not begun on it by the second cancellation.
   */
  datatype Turn = Turn(call: SettleCall, cancels: nat, unstarted: bool)

  function Plainly(call: SettleCall): Turn {
    Turn(call, 0, false)
  }

  /** A second cancellation reaches the operation itself, and stops it if it has not begun. */
  predicate Runs(turn: Turn) {
    turn.cancels <= 1 || !turn.unstarted
  }

  function Fresh(connected: bool): Delivery {
    Delivery(connected, None, None, false)
  }

  /** `reject` is `ack`. */
  predicate Commits(call: SettleCall) {
    !call.NackCall?
  }

  function StatusOf(commit: bool): AckStatus {
    if commit then ACKED else NACKED
  }

  function SettleOp(commit: bool): Op {
    if commit then CommitOp else BackoutOp
  }

  datatype Settled = Settled(st: State, d: Delivery, out: Outcome<()>)

  /**
   `_wait_for_broker_settle`: the first cancellation is absorbed by waiting for the shielded
   operation; a second one cancels the operation. One that the worker has begun runs to its end
   unobserved, one that it has not begun is never run.
   */
  function WaitForBroker(st: State, turn: Turn): Done<()> {
    if !Runs(turn) then Done(st, Raise(CancelledError))
    else
      var r := Perform(st, SettleOp(Commits(turn.call)));
      Done(r.st, if turn.cancels >= 2 then Raise(CancelledError) else if r.out.Raise? then Raise(r.out.exn) else Return(()))
  }

  /** `ack`, `nack` and `reject` */
  function SettleMessage(st: State, d: Delivery, turn: Turn): Settled {
    var commit := Commits(turn.call);
    var waited := if d.committed.None? && d.connected then WaitForBroker(st, turn) else Done(st, Return(()));
    if waited.out.Raise? then Settled(waited.st, d.(event := true), waited.out)
    else
      var committed := if d.committed.None? then Some(StatusOf(commit)) else d.committed;
      Settled(waited.st, d.(committed := committed, settled := committed, event := true), waited.out)
  }

  // ---------- any sequence of calls on one message ----------

  function SettleAll(st: State, d: Delivery, turns: seq<Turn>): Settled
    decreases |turns|
  {
    if turns == [] then Settled(st, d, Return(()))
    else
      var r := SettleMessage(st, d, turns[0]);
      SettleAll(r.st, r.d, turns[1..])
  }

  /** The broker operations that completed during the calls, in order; true stands for a commit. */
  function Completions(st: State, d: Delivery, turns: seq<Turn>): seq<bool>
    decreases |turns|
  {
    if turns == [] then []
    else
      var r := SettleMessage(st, d, turns[0]);
      var commit := Commits(turns[0].call);
      (if d.committed.None? && d.connected && Runs(turns[0]) && Perform(st, SettleOp(commit)).out.Return? then [commit] else [])
      + Completions(r.st, r.d, turns[1..])
  }

  ghost predicate CancelledAtMostOnce(turns: seq<Turn>) {
    forall i :: 0 <= i < |turns| ==> turns[i].cancels <= 1
  }

  /** Once a call has succeeded, further calls reach neither the broker nor the recorded outcome. */
  lemma {:induction false} SettledIsFinal(st: State, d: Delivery, turns: seq<Turn>)
    requires d.committed.Some? && d.settled == d.committed && d.event
    ensures SettleAll(st, d, turns).st == st && SettleAll(st, d, turns).d == d && Completions(st, d, turns) == []
    decreases |turns|
  {
    if turns != [] {
      SettledIsFinal(st, d, turns[1..]);
    }
  }

  /**
   Any sequence of calls on one message completes at most one broker operation, that of the
   first call that succeeds; the outcome recorded is that operation's; and after any call the
   event is set, whether or not it succeeded.
   */
  lemma {:induction false} OneSettlement(st: State, turns: seq<Turn>, event: bool)
    requires CancelledAtMostOnce(turns)
    ensures var d := Fresh(true).(event := event);
            var r := SettleAll(st, d, turns);
            var done := Completions(st, d, turns);
            && |done| <= 1
            && r.d.committed == r.d.settled
            && r.d.settled == (if done == [] then None else Some(StatusOf(done[0])))
            && r.d.event == (event || turns != [])
    decreases |turns|
  {
    if turns != [] {
      var d := Fresh(true).(event := event);
      var r := SettleMessage(st, d, turns[0]);
      if r.out.Return? {
        SettledIsFinal(r.st, r.d, turns[1..]);
      } else {
        OneSettlement(r.st, turns[1..], true);
      }
    }
  }

  /** One cancellation leaves the record right; a second leaves it wrong exactly when the broker did its work. */
  lemma RecordMatchesBroker(st: State, turn: Turn)
    ensures var done := Runs(turn) && Perform(st, SettleOp(Commits(turn.call))).out.Return?;
            var r := SettleMessage(st, Fresh(true), turn);
            && ((r.d.settled.Some? <==> done) <==> turn.cancels <= 1 || !done)
            && (r.d.settled.Some? ==> r.d.settled == Some(StatusOf(Commits(turn.call))))
            && r.d.event
  {
  }

  /** So a message whose waiter was cancelled twice can be settled a second time. */
  lemma TwiceCancelledSettlesAgain(st: State, again: SettleCall)
    requires Perform(st, CommitOp).out.Return?
    requires Perform(Perform(st, CommitOp).st, SettleOp(Commits(again))).out.Return?
    ensures Completions(st, Fresh(true), [Turn(AckCall, 2, false), Plainly(again)]) == [true, Commits(again)]
  {
    var turns := [Turn(AckCall, 2, false), Plainly(again)];
    assert turns[1..] == [Plainly(again)];
    var r := SettleMessage(st, Fresh(true), turns[0]);
    assert Completions(r.st, r.d, turns[1..]) == [Commits(again)] + Completions(SettleMessage(r.st, r.d, turns[1]).st, SettleMessage(r.st, r.d, turns[1]).d, turns[1..][1..]);
  }

  // ---------- the classes ----------

  class MQRawMessage {
    const content: RawMessage
    const connection: AsyncMQConnection?
    var settled: Option<AckStatus>
    var settledEvent: bool

    constructor (content: RawMessage, connection: AsyncMQConnection?)
      ensures this.content == content && this.connection == connection && settled == None && !settledEvent
    {
      this.content, this.connection, settled, settledEvent := content, connection, None, false;
    }
  }

  class MQMessage {
    const raw: MQRawMessage
    var committed: Option<AckStatus>

    constructor (raw: MQRawMessage)
      ensures this.raw == raw && committed == None
    {
      this.raw, committed := raw, None;
    }

    function Value(): Delivery
      reads this, raw
    {
      Delivery(raw.connection != null, committed, raw.settled, raw.settledEvent)
    }

    /** The broker side of a settlement; without a connection there is none. */
    method WaitForBrokerSettle(connection: AsyncMQConnection, turn: Turn) returns (out: Outcome<()>)
      modifies connection
      ensures Done(connection.Now(), out) == WaitForBroker(old(connection.Now()), turn)
    {
      if !Runs(turn) {
        return Raise(CancelledError);
      }
      var settled;
      if Commits(turn.call) {
        settled := connection.Commit();
      } else {
        settled := connection.Backout();
      }
      if turn.cancels >= 2 {
        return Raise(CancelledError);
      }
      out := if settled.Raise? then Raise(settled.exn) else Return(());
    }

    method Mark(status: AckStatus)
      modifies this, raw
      ensures committed == (if old(committed).None? then Some(status) else old(committed))
      ensures raw.settled == committed && raw.settledEvent
    {
      if committed.None? {
        committed := Some(status);
      }
      raw.settled := committed;
      raw.settledEvent := true;
    }

    method Ack(cancels: nat, unstarted: bool) returns (out: Outcome<()>)
      modifies this, raw, raw.connection
      ensures raw.connection != null ==>
        Settled(raw.connection.Now(), Value(), out) == SettleMessage(old(raw.connection.Now()), old(Value()), Turn(AckCall, cancels, unstarted))
      ensures raw.connection == null ==> out.Return?
      ensures raw.connection == null ==>
        forall st :: SettleMessage(st, old(Value()), Turn(AckCall, cancels, unstarted)) == Settled(st, Value(), out)
    {
      out := Return(());
      if committed.None? && raw.connection != null {
        out := WaitForBrokerSettle(raw.connection, Turn(AckCall, cancels, unstarted));
      }
      if out.Raise? {
        raw.settledEvent := true;
        return;
      }
      Mark(ACKED);
    }

    method Nack(cancels: nat, unstarted: bool) returns (out: Outcome<()>)
      modifies this, raw, raw.connection
      ensures raw.connection != null ==>
        Settled(raw.connection.Now(), Value(), out) == SettleMessage(old(raw.connection.Now()), old(Value()), Turn(NackCall, cancels, unstarted))
      ensures raw.connection == null ==> out.Return?
      ensures raw.connection == null ==>
        forall st :: SettleMessage(st, old(Value()), Turn(NackCall, cancels, unstarted)) == Settled(st, Value(), out)
    {
      out := Return(());
      if committed.None? && raw.connection != null {
        out := WaitForBrokerSettle(raw.connection, Turn(NackCall, cancels, unstarted));
      }
      if out.Raise? {
        raw.settledEvent := true;
        return;
      }
      Mark(NACKED);
    }

    method Reject(cancels: nat, unstarted: bool) returns (out: Outcome<()>)
      modifies this, raw, raw.connection
      ensures raw.connection != null ==>
        Settled(raw.connection.Now(), Value(), out) == SettleMessage(old(raw.connection.Now()), old(Value()), Turn(RejectCall, cancels, unstarted))
      ensures raw.connection == null ==> out.Return?
      ensures raw.connection == null ==>
        forall st :: SettleMessage(st, old(Value()), Turn(RejectCall, cancels, unstarted)) == Settled(st, Value(), out)
    {
      out := Ack(cancels, unstarted);
    }
  }
}
