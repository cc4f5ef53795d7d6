/**
 `_request_sync` and `_publish_request_sync`: how often a request is put, when a recovery
 is attempted, and what becomes of the reply queues, over every pattern of faults.
 */
module Requests {
  import opened Wrappers
  import opened MqIds
  import opened Messages
  import opened Mqi
  import opened Client
  import opened Handles
  import opened Transactions

  function OpenedBy(a: Attempt): multiset<string> {
    if a.replyQueue.Some? then multiset{a.replyQueue.value} else multiset{}
  }

  lemma TryRequestTally(m: QueueManager, connection: nat, cmd: Command, queueManagerName: string)
    ensures var a := TryRequest(m, connection, cmd, queueManagerName);
            && OnePut(m.(unclosed := m.unclosed + OpenedBy(a)), a.qm, a.out.Return?)
            && (a.out.Return? ==> a.replyQueue.Some?)
            && (a.queueOpen ==> a.replyQueue.Some?)
  {
    CallTally(m, connection, NoEffect);
    var (m1, reply) := OpenDynamic(m, connection);
    if reply.Return? {
      CallTally(m1, connection, NoEffect);
      FillAndPutTally(Call(m1, connection, NoEffect).0, connection, ToRequest(cmd, HeaderNames.MqStr(reply.value), queueManagerName));
    }
  }

  lemma CloseDynamicTally(m: QueueManager, connection: nat, name: string)
    ensures TallyOf(CloseDynamic(m, connection, name)) == TallyOf(m).(unclosed := m.unclosed - multiset{name})
  {
    CallTally(m.(unclosed := m.unclosed - multiset{name}), connection, NoEffect);
  }

  lemma CloseAttemptTally(m: QueueManager, connection: nat, a: Attempt)
    ensures TallyOf(CloseAttempt(m, connection, a))
         == TallyOf(m).(unclosed := if a.out.Raise? then m.unclosed - OpenedBy(a) else m.unclosed)
  {
    CallTally(m, connection, NoEffect);
    var m1 := if a.queueOpen then Call(m, connection, NoEffect).0 else m;
    if a.replyQueue.Some? {
      CloseDynamicTally(m1, connection, a.replyQueue.value);
    }
  }

  /** Whether an attempt to put a request starting in this state breaks the connection. */
  predicate AttemptBreaks(s: State, cmd: Command) {
    && s.qmgr.Some?
    && var a := TryRequest(s.qm, s.qmgr.value, cmd, s.queueManagerName);
    && a.out.Raise? && Retryable(a.out.exn)
  }

  /** What an attempt leaves unclosed once its `finally` block has run. */
  lemma OneAttemptTally(s: State, s1: State, cmd: Command)
    requires s.qmgr.Some?
    requires var a := TryRequest(s.qm, s.qmgr.value, cmd, s.queueManagerName);
             && TallyOf(s1.qm).puts == a.qm.putCalls && TallyOf(s1.qm).unclosed == a.qm.unclosed
    ensures var a := TryRequest(s.qm, s.qmgr.value, cmd, s.queueManagerName);
            var t, t' := TallyOf(s.qm), TallyOf(CloseAttempt(s1.qm, s.qmgr.value, a));
            && t.puts <= t'.puts <= t.puts + 1
            && t'.connects == TallyOf(s1.qm).connects
            && (a.out.Return? ==> a.replyQueue.Some? && t'.puts == t.puts + 1 && t'.unclosed == t.unclosed + multiset{a.replyQueue.value})
            && (a.out.Raise? ==> t'.unclosed == t.unclosed)
  {
    var a := TryRequest(s.qm, s.qmgr.value, cmd, s.queueManagerName);
    TryRequestTally(s.qm, s.qmgr.value, cmd, s.queueManagerName);
    CloseAttemptTally(s1.qm, s.qmgr.value, a);
  }

  /** The state in which a second turn starts: recovered, and the first turn's queues asked to close. */
  function AfterBreak(s: State, cmd: Command): State
    requires s.qmgr.Some?
  {
    var a := TryRequest(s.qm, s.qmgr.value, cmd, s.queueManagerName);
    var recovered := Recover(s.(qm := a.qm), false).st;
    recovered.(qm := CloseAttempt(recovered.qm, s.qmgr.value, a))
  }

  lemma AfterBreakTally(s: State, cmd: Command)
    requires AttemptBreaks(s, cmd)
    ensures var t, t' := TallyOf(s.qm), TallyOf(AfterBreak(s, cmd).qm);
            t.puts <= t'.puts <= t.puts + 1 && t'.connects == t.connects + 1 && t'.unclosed == t.unclosed
  {
    var a := TryRequest(s.qm, s.qmgr.value, cmd, s.queueManagerName);
    TryRequestTally(s.qm, s.qmgr.value, cmd, s.queueManagerName);
    RecoverTally(s.(qm := a.qm), false);
    OneAttemptTally(s, Recover(s.(qm := a.qm), false).st, cmd);
  }

  lemma SecondTurn(s: State, cmd: Command)
    requires AttemptBreaks(s, cmd)
    ensures var r := PublishRequest(s, cmd, 0);
            || r == PublishRequest(AfterBreak(s, cmd), cmd, 1)
            || (r.st == AfterBreak(s, cmd) && r.out.Raise? && r.out.exn != RuntimeError)
  {
    var a := TryRequest(s.qm, s.qmgr.value, cmd, s.queueManagerName);
    RecoverExn(s.(qm := a.qm), false);
  }

  /** A turn that is not followed by another. */
  lemma LastTurnTally(s: State, cmd: Command, attempt: nat)
    requires attempt < 2 && (AttemptBreaks(s, cmd) ==> attempt == 1)
    ensures var r := PublishRequest(s, cmd, attempt);
            var t, t' := TallyOf(s.qm), TallyOf(r.st.qm);
            && t.puts <= t'.puts <= t.puts + 1 && t'.connects == t.connects
            && (r.out.Return? ==> t'.puts == t.puts + 1 && t'.unclosed == t.unclosed + multiset{r.out.value.replyHandle.queue})
            && (r.out.Raise? ==> t'.unclosed == t.unclosed && r.out.exn != RuntimeError)
  {
    if s.qmgr.Some? {
      var a := TryRequest(s.qm, s.qmgr.value, cmd, s.queueManagerName);
      TryRequestTally(s.qm, s.qmgr.value, cmd, s.queueManagerName);
      TryRequestNames(s.qm, s.qmgr.value, cmd, s.queueManagerName);
      OneAttemptTally(s, s.(qm := a.qm), cmd);
    }
  }

  /**
   At most two puts, the second only after an attempt that broke the connection and one recovery;
   and every reply queue is asked to close except the one a successful put returns.
   */
  lemma PublishRequestTally(s: State, cmd: Command)
    ensures var r := PublishRequest(s, cmd, 0);
            var t, t' := TallyOf(s.qm), TallyOf(r.st.qm);
            && t.puts <= t'.puts <= t.puts + 2
            && t'.connects == t.connects + (if AttemptBreaks(s, cmd) then 1 else 0)
            && (t'.puts == t.puts + 2 ==> AttemptBreaks(s, cmd))
            && (r.out.Return? ==> t'.puts >= t.puts + 1 && t'.unclosed == t.unclosed + multiset{r.out.value.replyHandle.queue})
            && (r.out.Raise? ==> t'.unclosed == t.unclosed && r.out.exn != RuntimeError)
  {
    if AttemptBreaks(s, cmd) {
      AfterBreakTally(s, cmd);
      SecondTurn(s, cmd);
      LastTurnTally(AfterBreak(s, cmd), cmd, 1);
    } else {
      LastTurnTally(s, cmd, 0);
    }
  }

  lemma TryRequestNames(m: QueueManager, connection: nat, cmd: Command, queueManagerName: string)
    ensures TryRequest(m, connection, cmd, queueManagerName).out != Raise(RuntimeError)
  {
  }

  lemma RecoverExn(s: State, reopen: bool)
    ensures Recover(s, reopen).out != Raise(RuntimeError)
  {
  }

  lemma WaitTally(s: State, p: Published)
    ensures TallyOf(WaitForReply(s, p).st.qm) == TallyOf(s.qm)
  {
    if s.qmgr.Some? {
      CallTally(s.qm, s.qmgr.value, NoEffect);
      var m1 := Call(s.qm, s.qmgr.value, NoEffect).0;
      CallTally(m1, p.replyHandle.connection, TakeReply(p.replyHandle.queue, p.requestId));
      CallTally(Get(m1, p.replyHandle.connection, p.replyHandle.queue, Some(p.requestId)).0, s.qmgr.value, NoEffect);
    }
  }

  lemma FinishTally(r: Done<RawMessage>)
    ensures var t := TallyOf(r.st.qm);
            TallyOf(FinishRequest(r).st.qm) == t.(connects := t.connects + if r.out.Raise? && Retryable(r.out.exn) then 1 else 0)
  {
    RecoverTally(r.st, false);
  }

  /**
   A request is never replayed after a put that succeeded: at most two puts in all, the second
   only after an attempt that broke the connection; once a put has succeeded no further put is
   made and a broken wait is followed by exactly one attempt to recover. Whatever happens, every
   reply queue that was opened has been asked to close.
   */
  lemma RequestNeverReplayed(s: State, cmd: Command)
    requires s.executor
    ensures var published := PublishRequest(s, cmd, 0);
            var t, t1, t' := TallyOf(s.qm), TallyOf(published.st.qm), TallyOf(RequestSync(s, cmd).st.qm);
            && t'.puts == t1.puts <= t.puts + 2
            && (t'.puts == t.puts + 2 ==> AttemptBreaks(s, cmd))
            && (published.out.Return? ==>
                  var waited := WaitForReply(published.st, published.out.value);
                  t'.connects == t1.connects + if waited.out.Raise? && Retryable(waited.out.exn) then 1 else 0)
            && t'.unclosed == t.unclosed
  {
    PublishRequestTally(s, cmd);
    var published := PublishRequest(s, cmd, 0);
    if published.out.Return? {
      var p := published.out.value;
      WaitTally(published.st, p);
      var waited := WaitForReply(published.st, p);
      CloseDynamicTally(waited.st.qm, p.replyHandle.connection, p.replyHandle.queue);
      FinishTally(CloseReply(waited, p));
    } else {
      FinishTally(Done(published.st, Raise(published.out.exn)));
    }
  }

  // ---------- what the requests put look like ----------

  /** A request as it lies on its destination: it names the reply queue of its own attempt. */
  ghost predicate IsRequest(cmd: Command, replyQueue: string, queueManagerName: string, parcel: Parcel) {
    IsCopyOf(ToRequest(cmd, replyQueue, queueManagerName), parcel)
  }

  lemma TryRequestEffect(s: State, cmd: Command) returns (placed: seq<Parcel>)
    requires Sound(s) && s.qmgr.Some?
    ensures var a := TryRequest(s.qm, s.qmgr.value, cmd, s.queueManagerName);
            && |placed| <= 1
            && WorkOf(a.qm).sent == s.qm.sent + placed
            && (placed != [] ==> a.replyQueue.Some? && IsRequest(cmd, a.replyQueue.value, s.queueManagerName, placed[0]))
            && (a.out.Return? ==> a.replyQueue.Some? && |placed| == 1 && placed[0].1.msgId == a.out.value)
            && (a.out.Raise? && Retryable(a.out.exn) ==> WorkOf(a.qm).Empty())
            && (s.qm.gets == [] ==> a.qm.gets == [])
  {
    placed := [];
    var c := s.qmgr.value;
    IdleCall(s.qm, c);
    var (m1, reply) := OpenDynamic(s.qm, c);
    if reply.Return? {
      IdleCall(m1, c);
      var (m2, queue) := Call(m1, c, NoEffect);
      if queue.Return? {
        var lost;
        lost, placed := FillAndPutEffect(m2, c, ToRequest(cmd, HeaderNames.MqStr(reply.value), s.queueManagerName));
      }
    }
  }

  lemma IdleCallSent(m: QueueManager, connection: nat)
    ensures Call(m, connection, NoEffect).0.sent == m.sent
    ensures Call(m, connection, NoEffect).0.live == m.live
  {
  }

  lemma CloseAttemptEffect(m: QueueManager, connection: nat, a: Attempt)
    ensures CloseAttempt(m, connection, a).sent == m.sent
    ensures CloseAttempt(m, connection, a).live == m.live
  {
    IdleCallSent(m, connection);
    var m1 := if a.queueOpen then Call(m, connection, NoEffect).0 else m;
    if a.replyQueue.Some? {
      IdleCallSent(m1.(unclosed := m1.unclosed - multiset{a.replyQueue.value}), connection);
    }
  }

  /** The published request is the last message this client made visible. */
  ghost predicate IsPlaced(s: State, cmd: Command, p: Published, sent: seq<Parcel>) {
    && sent != []
    && var last := sent[|sent| - 1];
    && IsRequest(cmd, p.replyHandle.queue, s.queueManagerName, last)
    && last.1.msgId == p.requestId && last.1.replyToQ == p.replyHandle.queue
  }

  lemma LastAttemptPlaced(s: State, cmd: Command, attempt: nat)
    requires Sound(s) && attempt < 2 && s.qmgr.Some?
    requires TryRequest(s.qm, s.qmgr.value, cmd, s.queueManagerName).out.Return?
    ensures var r := PublishRequest(s, cmd, attempt);
            r.out.Return? && IsPlaced(s, cmd, r.out.value, r.st.qm.sent)
  {
    var placed := TryRequestEffect(s, cmd);
    var a := TryRequest(s.qm, s.qmgr.value, cmd, s.queueManagerName);
    CloseAttemptEffect(a.qm, s.qmgr.value, a);
    assert (s.qm.sent + placed)[|s.qm.sent + placed| - 1] == placed[0];
  }

  /** The reply queue and identifier that are returned are those of a request that is on its destination. */
  lemma {:induction false} PublishedIsPlaced(s: State, cmd: Command, attempt: nat)
    requires Sound(s) && attempt < 2
    requires PublishRequest(s, cmd, attempt).out.Return?
    ensures var r := PublishRequest(s, cmd, attempt); IsPlaced(s, cmd, r.out.value, r.st.qm.sent)
    decreases 2 - attempt
  {
    var c := s.qmgr.value;
    var a := TryRequest(s.qm, c, cmd, s.queueManagerName);
    if a.out.Return? {
      LastAttemptPlaced(s, cmd, attempt);
    } else {
      var tried := s.(qm := a.qm);
      TryRequestSound(s, c, cmd);
      RecoverSound(tried, false);
      var recovered := Recover(tried, false).st;
      CloseAttemptKept(recovered, c, a);
      PublishedIsPlaced(recovered.(qm := CloseAttempt(recovered.qm, c, a)), cmd, attempt + 1);
    }
  }

  /** A reply that is returned carries, as its native correlation id, the identifier of the request that was put. */
  lemma ReplyAnswersThePut(s: State, p: Published)
    requires WaitForReply(s, p).out.Return?
    ensures WaitForReply(s, p).out.value.nativeCorrelationId == p.requestId
    ensures WaitForReply(s, p).out.value.queue == p.replyHandle.queue
  {
  }
}
