/**
 What stopping a subscriber does to its open unit of work. MQDISC commits: a delivery that is
 open when the subscriber stops is consumed without having been acknowledged, and its pending
 reply is shown.
 */
module Shutdown {
  import opened Wrappers
  import opened Messages
  import opened Mqi
  import opened Client
  import opened Handles
  import opened Transactions
  import opened Settlement
  import opened Consuming

  /** The queue manager when the stop comes to disconnect: closing the consumer has used a tick. */
  function AtDisconnect(st: State): QueueManager {
    if st.consumer.Some? then Advance(st.qm) else st.qm
  }

  /** The consumer closes, and the disconnect is not lost on its way. */
  predicate StopCommits(st: State) {
    && st.executor && st.qmgr.Some?
    && (st.consumer.Some? ==> NextTick(st.qm).fault.Fine?)
    && !NextTick(AtDisconnect(st)).fault.Before?
  }

  /** Closing the consumer or disconnecting loses the connection, and the work with it. */
  predicate StopLoses(st: State) {
    && st.executor && st.qmgr.Some? && !StopCommits(st)
    && (st.consumer.Some? && !NextTick(st.qm).fault.Fine? ==> IsReconnectable(NextTick(st.qm).fault.reason))
  }

  /** What a stop commits of what it finds open. */
  function Committed(st: State, open: seq<Parcel>): seq<Parcel> {
    if StopCommits(st) then open else []
  }

  lemma StopConsumerWork(st: State)
    requires Sound(st)
    ensures var r, closing := StopConsumer(st), st.executor && st.consumer.Some?;
            && (r.out.Return? <==> !closing || NextTick(st.qm).fault.Fine?)
            && WorkOf(r.st.qm) == LostIf(closing && !NextTick(st.qm).fault.Fine? && IsReconnectable(NextTick(st.qm).fault.reason), WorkOf(st.qm))
            && r.st.executor == st.executor && r.st.qmgr == st.qmgr && r.st.qm.live == st.qm.live
            && (r.out.Return? && st.executor ==> r.st.consumer.None? && r.st.qm == AtDisconnect(st))
  {
  }

  lemma DisconnectedWork(st: State)
    requires Sound(st) && st.executor && st.consumer.None?
    ensures WorkOf(Disconnected(st).qm) ==
            if st.qmgr.None? then WorkOf(st.qm)
            else if NextTick(st.qm).fault.Before? then WorkOf(st.qm).RolledBack() else WorkOf(st.qm).Completed()
  {
  }

  /** The exact effect of a stop, for every state it may find: everything open is committed, or lost, or left. */
  lemma StopExactly(st: State)
    requires Sound(st)
    ensures WorkOf(StopConnection(st).qm) ==
            if StopCommits(st) then WorkOf(st.qm).Completed() else LostIf(StopLoses(st), WorkOf(st.qm))
  {
    StopConsumerWork(st);
    var r := StopConsumer(st);
    if r.out.Return? && st.executor {
      StepSound(st, DoStopConsumer);
      DisconnectedWork(r.st);
    }
  }

  /** So a stop consumes exactly what is open if it commits, and keeps `consumed` if and only if it does not commit or nothing is open. */
  lemma StopConsumesExactly(st: State)
    requires Sound(st)
    ensures StopConnection(st).qm.consumed == st.qm.consumed + Committed(st, st.qm.gets)
    ensures StopConnection(st).qm.sent == st.qm.sent + Committed(st, st.qm.puts)
    ensures StopConnection(st).qm.consumed == st.qm.consumed <==> !StopCommits(st) || st.qm.gets == []
    ensures |Committed(st, st.qm.gets)| + |StopConnection(st).qm.gets| <= |st.qm.gets|
    ensures |Committed(st, st.qm.puts)| + |StopConnection(st).qm.puts| <= |st.qm.puts|
  {
    StopExactly(st);
  }

  lemma StopSound(st: State)
    requires Sound(st)
    ensures Sound(StopConnection(st)) && Later(st.qm, StopConnection(st).qm)
  {
    var r := StopConsumer(st);
    if st.consumer.Some? {
      CallKept(st, st.qm, st.consumer.value.connection, NoEffect);
    } else {
      assert Later(st.qm, st.qm);
    }
    if r.out.Return? && st.executor {
      var closed := SafeCloseConsumer(r.st);
      ClosedSound(r.st);
      DisconnectedSound(closed);
      LaterStill(st.qm, r.st.qm, closed.qm);
      LaterStill(st.qm, closed.qm, Disconnected(r.st).qm);
    }
  }
}
