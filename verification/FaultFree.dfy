/**
 A connection on which nothing fails: what each operation does and returns, in terms of what lies
 on the queues.
 */
module FaultFree {
  import opened Wrappers
  import opened Messages
  import opened Mqi
  import opened Client
  import opened Handles
  import opened Settlement

  /** A connection with its consumer open on queue n, and no more faults to come. */
  predicate Calm(st: State, n: string) {
    st.executor && OpenOn(st, n) && st.qm.script == []
  }

  /** The same with no reply pending. */
  predicate Healthy(st: State, n: string) {
    Calm(st, n) && st.qm.puts == []
  }

  // ---------- one queue among others ----------

  /** The messages of a queue, in order. */
  function On(stored: seq<Parcel>, n: string): seq<Parcel> {
    if stored == [] then []
    else (if stored[0].0 == n then [stored[0]] else []) + On(stored[1..], n)
  }

  lemma {:induction false} OnAppend(a: seq<Parcel>, b: seq<Parcel>, n: string)
    ensures On(a + b, n) == On(a, n) + On(b, n)
  {
    if a == [] {
      assert a + b == b;
    } else {
      var head := if a[0].0 == n then [a[0]] else [];
      var all := a + b;
      assert all[0] == a[0] && all[1..] == a[1..] + b;
      OnAppend(a[1..], b, n);
      assert On(all, n) == head + On(a[1..] + b, n);
      Associate(head, On(a[1..], n), On(b, n));
    }
  }

  lemma Associate(a: seq<Parcel>, b: seq<Parcel>, c: seq<Parcel>)
    ensures a + b + c == a + (b + c)
  {
  }

  /** A get takes the first message of its queue and nothing of any other. */
  lemma {:induction false} FirstIsTaken(stored: seq<Parcel>, n: string, q: string)
    ensures var i := FirstOn(stored, n, None);
            if i == |stored| then On(stored, n) == []
            else On(stored, n) != [] && stored[i] == On(stored, n)[0]
                 && On(Without(stored, i), q) == (if q == n then On(stored, n)[1..] else On(stored, q))
  {
    if stored != [] {
      var i := FirstOn(stored, n, None);
      if stored[0].0 == n {
        assert Without(stored, 0) == stored[1..];
      } else {
        FirstIsTaken(stored[1..], n, q);
        if i < |stored| {
          assert Without(stored, i) == [stored[0]] + Without(stored[1..], i - 1);
          assert Without(stored, i)[1..] == Without(stored[1..], i - 1);
        }
      }
    }
  }

  // ---------- calls and operations ----------

  lemma HealthySettle(st: State, n: string, commit: bool)
    requires Calm(st, n)
    ensures var r := Perform(st, SettleOp(commit));
            var counted := st.qm.(settleCalls := st.qm.settleCalls + 1);
            && r.out == Return(Nothing)
            && r.st == st.(qm := if commit then Complete(counted) else Rollback(counted))
  {
  }

  lemma HealthyCall(m: QueueManager, connection: nat)
    requires m.live == Some(connection) && m.script == []
    ensures Call(m, connection, NoEffect) == (m, Return(()))
  {
  }

  /** A get takes the first message of its queue, or reports that there is none. */
  lemma HealthyTake(m: QueueManager, connection: nat, n: string)
    requires m.live == Some(connection) && m.script == []
    ensures var i := FirstOn(m.stored, n, None);
            Get(m, connection, n, None) ==
            if i == |m.stored| then (m, Raise(MqmiError(NoMsgAvailable)))
            else (m.(stored := Without(m.stored, i), gets := m.gets + [m.stored[i]]), Return(m.stored[i].1))
  {
  }

  /**
   `get_message` returns the first message of its queue, which is then in the unit of work; and it
   returns None, and leaves everything as it was, if and only if there is none.
   */
  lemma HealthyGet(st: State, n: string)
    requires Calm(st, n)
    ensures var i := FirstOn(st.qm.stored, n, None);
            var r := Perform(st, GetOp);
            if i == |st.qm.stored| then r == Done(st, Return(Got(None)))
            else
              && r.out == Return(Got(Some(Receive(st.qm.stored[i].1, n))))
              && r.st == st.(qm := st.qm.(stored := Without(st.qm.stored, i), gets := st.qm.gets + [st.qm.stored[i]]))
  {
    var c := st.qmgr.value;
    HealthyCall(st.qm, c);
    HealthyTake(st.qm, c, n);
    var (m, got) := Get(st.qm, c, n, None);
    HealthyCall(m, c);
    if got.Return? {
      assert ReadOrBackOut(st.(qm := m), got.value).st == st.(qm := m);
    }
    assert GetOnce(st).st == st.(qm := m);
  }

  lemma EmptyExactly(st: State, n: string)
    requires Calm(st, n)
    ensures Perform(st, GetOp).out == Return(Got(None)) <==> On(st.qm.stored, n) == []
    ensures On(st.qm.stored, n) == [] ==> Perform(st, GetOp).st == st
  {
    FirstIsTaken(st.qm.stored, n, n);
    HealthyGet(st, n);
  }

  lemma HealthyFill(m: QueueManager, connection: nat, f: Filling)
    requires m.live == Some(connection) && m.script == [] && f.syncpoint
    ensures FillAndPut(m, connection, f) ==
            if f.draft.Err? then (m, Raise(ValueError))
            else
              var message := Stamp(f.draft.value, NextTick(m).newId);
              (m.(putCalls := m.putCalls + 1, puts := m.puts + [(f.queue, message)]), Return(message))
  {
    HealthyCall(m, connection);
  }

  lemma HealthyPublish(st: State, n: string, cmd: Command)
    requires Calm(st, n) && cmd.syncpoint
    ensures var r, draft := Perform(st, PublishOp(cmd)), PublishDraft(cmd);
            if draft.Err? then r.out.Raise? && r.st == st
            else
              && r.out == Return(Nothing)
              && r.st == st.(qm := st.qm.(putCalls := st.qm.putCalls + 1,
                                          puts := st.qm.puts + [(cmd.destination, Stamp(draft.value, NextTick(st.qm).newId))]))
  {
    var c := st.qmgr.value;
    HealthyCall(st.qm, c);
    HealthyFill(st.qm, c, ToPublish(cmd));
    HealthyCall(FillAndPut(st.qm, c, ToPublish(cmd)).0, c);
    assert Once(st, PublishOp(cmd)) == PublishOnce(st, cmd);
    assert PublishOnce(st, cmd).st == st.(qm := FillAndPut(st.qm, c, ToPublish(cmd)).0);
  }

  /** `ping` is True on a working connection. */
  lemma HealthyPing(st: State)
    requires st.executor && st.qmgr.Some? && st.qm.live == st.qmgr && st.qm.script == []
    ensures Perform(st, PingOp) == Done(st, Return(Alive(true)))
  {
    HealthyCall(st.qm, st.qmgr.value);
  }

  /** What each settlement call does to the one message that is open: ack and reject consume it, nack puts it first in its queue again. */
  lemma HealthyCalls(st: State, n: string, own: Parcel, call: SettleCall)
    requires Calm(st, n) && st.qm.gets == [own]
    ensures var r := SettleMessage(st, Fresh(true), Plainly(call));
            && r.out.Return? && r.st.qm.gets == [] && r.d.event
            && match call
               case NackCall => r.d.settled == Some(NACKED) && r.st.qm.stored == [own] + st.qm.stored && r.st.qm.consumed == st.qm.consumed
               case _ => r.d.settled == Some(ACKED) && r.st.qm.consumed == st.qm.consumed + [own]
  {
    HealthySettle(st, n, Commits(call));
  }

  /** Without a connection a call only marks the message. */
  lemma UnconnectedCalls(st: State, call: SettleCall)
    ensures var r := SettleMessage(st, Fresh(false), Plainly(call));
            && r.st == st && r.out.Return? && r.d.event
            && r.d.settled == Some(if call.NackCall? then NACKED else ACKED)
  {
  }
}
