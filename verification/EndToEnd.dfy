/**
 A client's request from end to end: while it waits, what other programs put on its reply queue
 are the replies that the other parties of `Rpc` commit. Then the reply it returns is the one the
 system hands it, made from its own request.
 */
module EndToEnd {
  import opened Wrappers
  import opened MqIds
  import opened HeaderNames
  import opened Messages
  import opened Mqi
  import opened Client
  import opened Handles
  import opened Transactions
  import opened Requests
  import opened RpcRefinement
  import Rpc

  // ---------- what the others do ----------

  /** An event of another requester, or of any responder. */
  predicate ByOther(i: nat, e: Rpc.Event) {
    match e
    case Attempt(j, _, _, _, _) => j != i
    case Await(j) => j != i
    case GiveUp(j) => j != i
    case _ => true
  }

  ghost predicate AllByOthers(i: nat, events: seq<Rpc.Event>) {
    forall k :: 0 <= k < |events| ==> ByOther(i, events[k])
  }

  /** Requester i waits, and its queue exists. */
  ghost predicate WaitsOn(s: Rpc.System, i: nat, q: string) {
    Rpc.PhaseOf(s, i).Waiting? && Rpc.PhaseOf(s, i).queue == q && q in s.replyQueues
  }

  /** The replies meant for queue q, in order. */
  function RepliesTo(replies: seq<Rpc.Reply>, q: string): seq<Rpc.Reply> {
    if replies == [] then []
    else (if replies[0].queue == q then [replies[0]] else []) + RepliesTo(replies[1..], q)
  }

  /** A commit adds to a queue that exists exactly the replies meant for it, and makes no queue. */
  lemma {:induction false} PostAppends(queues: map<string, seq<Rpc.Reply>>, replies: seq<Rpc.Reply>, q: string)
    ensures q in Rpc.Post(queues, replies) <==> q in queues
    ensures q in queues ==> Rpc.Post(queues, replies)[q] == queues[q] + RepliesTo(replies, q)
    decreases |replies|
  {
    if replies != [] {
      var r, rest := replies[0], replies[1..];
      var queues' := if r.queue in queues then queues[r.queue := queues[r.queue] + [r]] else queues;
      PostAppends(queues', rest, q);
      if q in queues && r.queue == q {
        assert queues[q] + [r] + RepliesTo(rest, q) == queues[q] + ([r] + RepliesTo(rest, q));
      }
    }
  }

  /** Another requester's attempt opens a queue of its own. */
  lemma OtherPlace(s: Rpc.System, j: nat, queue: string, message: Message, fault: Fault, i: nat, q: string)
    requires WaitsOn(s, i, q) && j != i && q in s.named && queue !in s.named && !fault.Before?
    ensures var next := Rpc.Place(s, j, queue, message, fault);
            WaitsOn(next, i, q) && Rpc.PhaseOf(next, i) == Rpc.PhaseOf(s, i) && s.replyQueues[q] == next.replyQueues[q]
  {
  }

  lemma NamedQueue(s: Rpc.System, i: nat)
    requires Rpc.Inv(s) && Rpc.PhaseOf(s, i).Waiting?
    ensures Rpc.PhaseOf(s, i).queue in s.named
  {
    assert Rpc.PhaseOk(s.puts, i, Rpc.PhaseOf(s, i));
    assert s.puts[Rpc.PhaseOf(s, i).put].replyQueue in s.named;
  }

  lemma OtherAttempt(s: Rpc.System, e: Rpc.Event, i: nat, q: string)
    requires WaitsOn(s, i, q) && q in s.named && ByOther(i, e) && e.Attempt?
    ensures var next := Rpc.NextAttempt(s, e);
            WaitsOn(next, i, q) && Rpc.PhaseOf(next, i) == Rpc.PhaseOf(s, i) && s.replyQueues[q] == next.replyQueues[q]
  {
    var queue := MqStr(e.name);
    var draft := RequestDraft(e.cmd, queue, s.queueManagerName);
    if !e.fault.Before? && draft.Ok? && queue !in s.named {
      OtherPlace(s, e.requester, queue, Stamp(draft.value, e.newId), e.fault, i, q);
    }
  }

  /** Others leave a waiting requester waiting, and only add to its queue. */
  lemma OtherStep(s: Rpc.System, e: Rpc.Event, i: nat, q: string)
    requires Rpc.Inv(s) && WaitsOn(s, i, q) && ByOther(i, e)
    ensures var next := Rpc.Next(s, e);
            WaitsOn(next, i, q) && Rpc.PhaseOf(next, i) == Rpc.PhaseOf(s, i) && s.replyQueues[q] <= next.replyQueues[q]
  {
    NamedQueue(s, i);
    match e
    case Attempt(_, _, _, _, _) => OtherAttempt(s, e, i, q);
    case Commit(j) => PostAppends(s.replyQueues, Rpc.ResponderOf(s, j).pending, q);
    case Await(j) => OtherQueue(s, i, j);
    case GiveUp(j) => OtherQueue(s, i, j);
    case _ =>
  }

  lemma OtherQueue(s: Rpc.System, i: nat, j: nat)
    requires Rpc.Inv(s) && i != j && Rpc.PhaseOf(s, i).Waiting?
    ensures Rpc.PhaseOf(s, j).Waiting? ==> Rpc.PhaseOf(s, j).queue != Rpc.PhaseOf(s, i).queue
  {
    assert Rpc.PhaseOk(s.puts, i, Rpc.PhaseOf(s, i));
    if Rpc.PhaseOf(s, j).Waiting? {
      assert Rpc.PhaseOk(s.puts, j, Rpc.PhaseOf(s, j));
    }
  }

  lemma {:induction false} OthersRun(s: Rpc.System, events: seq<Rpc.Event>, i: nat, q: string)
    requires Rpc.Inv(s) && WaitsOn(s, i, q) && AllByOthers(i, events)
    ensures var r := Rpc.Run(s, events);
            Rpc.Inv(r) && WaitsOn(r, i, q) && Rpc.PhaseOf(r, i) == Rpc.PhaseOf(s, i) && s.replyQueues[q] <= r.replyQueues[q]
    decreases |events|
  {
    if events != [] {
      assert ByOther(i, events[0]);
      OtherStep(s, events[0], i, q);
      Rpc.NextInv(s, events[0]);
      OthersRun(Rpc.Next(s, events[0]), events[1..], i, q);
    }
  }

  // ---------- the reply queue ----------

  /** The queue manager holds on q what the system says. */
  ghost predicate Mirrors(s: Rpc.System, stored: seq<Parcel>, q: string) {
    q in s.replyQueues && MessagesOn(stored, q) == RepliesIn(s.replyQueues[q])
  }

  /** What arrives on q in one tick is what these events commit to it. */
  ghost predicate Brings(s: Rpc.System, events: seq<Rpc.Event>, q: string, arrivals: seq<Parcel>) {
    var r := Rpc.Run(s, events);
    && q in s.replyQueues && q in r.replyQueues
    && RepliesIn(r.replyQueues[q]) == RepliesIn(s.replyQueues[q]) + MessagesOn(arrivals, q)
  }

  lemma Associate(a: seq<Message>, b: seq<Message>, c: seq<Message>)
    ensures a + b + c == a + (b + c)
  {
  }

  lemma {:induction false} MessagesOnAppend(a: seq<Parcel>, b: seq<Parcel>, q: string)
    ensures MessagesOn(a + b, q) == MessagesOn(a, q) + MessagesOn(b, q)
    decreases |a|
  {
    if a == [] {
      assert a + b == b;
    } else {
      var head: seq<Message> := if a[0].0 == q then [a[0].1] else [];
      var all := a + b;
      assert all[0] == a[0] && all[1..] == a[1..] + b;
      MessagesOnAppend(a[1..], b, q);
      assert MessagesOn(all, q) == head + MessagesOn(a[1..] + b, q);
      Associate(head, MessagesOn(a[1..], q), MessagesOn(b, q));
    }
  }

  /** Time passes, and the others commit what arrives. */
  lemma TickMirrors(s: Rpc.System, events: seq<Rpc.Event>, m: QueueManager, q: string)
    requires Mirrors(s, m.stored, q) && Brings(s, events, q, NextTick(m).arrivals)
    ensures Mirrors(Rpc.Run(s, events), Advance(m).stored, q)
  {
    if m.script != [] {
      MessagesOnAppend(m.stored, m.script[0].arrivals, q);
    } else {
      assert RepliesIn(s.replyQueues[q]) + [] == RepliesIn(s.replyQueues[q]);
    }
  }

  /** A call that takes nothing, over a connection that holds nothing, only lets time pass. */
  lemma IdleStored(m: QueueManager, connection: nat)
    requires m.live == Some(connection) && m.gets == []
    ensures var m1 := Call(m, connection, NoEffect).0;
            m1.stored == Advance(m).stored && m1.gets == [] && m1.live == m.live
  {
  }

  // ---------- the request ----------

  /** The attempt that succeeded. */
  function Succeeded(st: State, cmd: Command): Attempt
    requires st.qmgr.Some?
  {
    var last := if AttemptBreaks(st, cmd) then AfterBreak(st, cmd) else st;
    if last.qmgr.None? then Attempt(last.qm, None, false, Raise(AssertionError))
    else TryRequest(last.qm, last.qmgr.value, cmd, last.queueManagerName)
  }

  /** When the request is published: the queue is that of the attempt that succeeded, and its destination has been closed. */
  lemma PublishedState(st: State, cmd: Command)
    requires Sound(st) && st.qmgr.Some? && st.qm.gets == []
    requires PublishRequest(st, cmd, 0).out.Return?
    ensures var r, a := PublishRequest(st, cmd, 0), Succeeded(st, cmd);
            && a.out.Return? && a.replyQueue == Some(r.out.value.replyHandle.queue) && a.qm.gets == []
            && r.st.qmgr.Some? && a.qm.live == r.st.qmgr && r.st.qm == Call(a.qm, r.st.qmgr.value, NoEffect).0
  {
    var last := st;
    if AttemptBreaks(st, cmd) {
      SecondTurnExactly(st, cmd);
      BetweenAttempts(st, cmd);
      AfterBreakEmpty(st, cmd);
      last := AfterBreak(st, cmd);
    }
    LastTurnState(last, cmd, if AttemptBreaks(st, cmd) then 1 else 0);
  }

  lemma AfterBreakEmpty(st: State, cmd: Command)
    requires Sound(st) && AttemptBreaks(st, cmd)
    ensures AfterBreak(st, cmd).qm.gets == []
  {
    var c := st.qmgr.value;
    var a := TryRequest(st.qm, c, cmd, st.queueManagerName);
    var tried := st.(qm := a.qm);
    var placed := TryRequestEffect(st, cmd);
    TryRequestSound(st, c, cmd);
    RecoverKeepsWork(tried, false);
    var m := Recover(tried, false).st.qm;
    assert CloseAttempt(m, c, a).gets == [] by {
      NoGets(m, c);
      NoGets(Call(m, c, NoEffect).0.(unclosed := Call(m, c, NoEffect).0.unclosed - OpenedBy(a)), c);
      NoGets(m.(unclosed := m.unclosed - OpenedBy(a)), c);
    }
  }

  lemma NoGets(m: QueueManager, connection: nat)
    requires m.gets == []
    ensures Call(m, connection, NoEffect).0.gets == []
  {
  }

  lemma LastTurnState(st: State, cmd: Command, attempt: nat)
    requires attempt < 2 && Sound(st) && st.qmgr.Some? && st.qm.gets == []
    requires attempt == 0 ==> !AttemptBreaks(st, cmd)
    requires PublishRequest(st, cmd, attempt).out.Return?
    ensures var r, a := PublishRequest(st, cmd, attempt), TryRequest(st.qm, st.qmgr.value, cmd, st.queueManagerName);
            && a.out.Return? && a.replyQueue == Some(r.out.value.replyHandle.queue) && a.qm.gets == []
            && r.st.qmgr == st.qmgr && a.qm.live == st.qmgr && r.st.qm == Call(a.qm, st.qmgr.value, NoEffect).0
  {
    var placed := TryRequestEffect(st, cmd);
    TryRequestSound(st, st.qmgr.value, cmd);
  }

  /** What the others do while the destination is closed, the handle is made, and the reply is looked for. */
  datatype Meanwhile = Meanwhile(closing: seq<Rpc.Event>, handle: seq<Rpc.Event>, get: seq<Rpc.Event>)

  /** Three ticks after the put, in which the others bring what arrives on the reply queue. */
  ghost predicate Fits(s: Rpc.System, i: nat, q: string, m: QueueManager, connection: nat, w: Meanwhile) {
    var s1 := Rpc.Run(s, w.closing);
    var m1 := Call(m, connection, NoEffect).0;
    var m2 := Call(m1, connection, NoEffect).0;
    && AllByOthers(i, w.closing) && AllByOthers(i, w.handle) && AllByOthers(i, w.get)
    && Brings(s, w.closing, q, NextTick(m).arrivals)
    && Brings(s1, w.handle, q, NextTick(m1).arrivals)
    && Brings(Rpc.Run(s1, w.handle), w.get, q, NextTick(m2).arrivals)
  }

  function After(s: Rpc.System, w: Meanwhile): Rpc.System {
    Rpc.Run(Rpc.Run(Rpc.Run(s, w.closing), w.handle), w.get)
  }

  lemma StillMirrors(s: Rpc.System, i: nat, q: string, m: QueueManager, connection: nat, w: Meanwhile)
    requires Rpc.Inv(s) && WaitsOn(s, i, q) && Mirrors(s, m.stored, q)
    requires m.live == Some(connection) && m.gets == [] && Fits(s, i, q, m, connection, w)
    ensures var m2 := Call(Call(m, connection, NoEffect).0, connection, NoEffect).0;
            Mirrors(After(s, w), Advance(m2).stored, q)
    ensures Rpc.Inv(After(s, w)) && WaitsOn(After(s, w), i, q) && Rpc.PhaseOf(After(s, w), i) == Rpc.PhaseOf(s, i)
  {
    var s1, m1 := Rpc.Run(s, w.closing), Call(m, connection, NoEffect).0;
    var s2, m2 := Rpc.Run(s1, w.handle), Call(m1, connection, NoEffect).0;
    IdleStored(m, connection);
    TickMirrors(s, w.closing, m, q);
    OthersRun(s, w.closing, i, q);
    IdleStored(m1, connection);
    TickMirrors(s1, w.handle, m1, q);
    OthersRun(s1, w.handle, i, q);
    TickMirrors(s2, w.get, m2, q);
    OthersRun(s2, w.get, i, q);
  }

  /** What the requester of the system and the client have received. */
  ghost predicate SameReply(s: Rpc.System, i: nat, p: Published, raw: RawMessage) {
    var phase := Rpc.PhaseOf(s, i);
    && phase.Received? && phase.raw == raw
    && phase.put < |s.puts| && s.puts[phase.put].requester == i && s.puts[phase.put].message.msgId == p.requestId
    && phase.reply.to == phase.put && raw.nativeCorrelationId == p.requestId
  }

  /** The wait of a published request, with the others at work. */
  lemma WaitEndToEnd(s: Rpc.System, i: nat, m: QueueManager, r: Done<Published>, w: Meanwhile)
    requires Rpc.Inv(s) && r.out.Return? && r.st.qmgr.Some?
    requires WaitsOn(s, i, r.out.value.replyHandle.queue) && Rpc.PhaseOf(s, i).id == r.out.value.requestId
    requires m.live == r.st.qmgr && m.gets == [] && r.st.qm == Call(m, r.st.qmgr.value, NoEffect).0
    requires Mirrors(s, m.stored, r.out.value.replyHandle.queue)
    requires Fits(s, i, r.out.value.replyHandle.queue, m, r.st.qmgr.value, w)
    ensures var out := WaitForReply(r.st, r.out.value).out;
            && (out.Return? ==> SameReply(Rpc.Next(After(s, w), Rpc.Await(i)), i, r.out.value, out.value))
            && (out == Raise(TimeoutError) ==> Rpc.Next(After(s, w), Rpc.Await(i)) == After(s, w))
  {
    var p := r.out.value;
    StillMirrors(s, i, p.replyHandle.queue, m, r.st.qmgr.value, w);
    var s3 := After(s, w);
    AwaitRefines(s3, i, r.st, p);
    Rpc.AwaitInv(s3, i);
    var final := Rpc.Next(s3, Rpc.Await(i));
    assert Rpc.PhaseOk(s3.puts, i, Rpc.PhaseOf(s3, i));
    if Rpc.PhaseOf(final, i).Received? {
      assert Rpc.PhaseOk(final.puts, i, Rpc.PhaseOf(final, i));
      AwaitPut(s3, i);
    }
  }

  lemma AwaitPut(s: Rpc.System, i: nat)
    requires Rpc.PhaseOf(s, i).Waiting?
    ensures var next := Rpc.Next(s, Rpc.Await(i));
            next.puts == s.puts && (Rpc.PhaseOf(next, i).Received? ==> Rpc.PhaseOf(next, i).put == Rpc.PhaseOf(s, i).put)
  {
  }

  /**
   A request of the client, with any faults, among any number of other requesters and responders:
   it is a run of the system, and while it waits, whatever the others do, if they bring what
   arrives on its reply queue, and nothing lay on that queue when it was made, then the reply it
   returns is the one the system hands to its requester: made from the request it put, and
   carrying that request's identifier. A timeout means that there was none.
   */
  lemma RequestEndToEnd(s: Rpc.System, i: nat, base: seq<Message>, st: State, cmd: Command) returns (events: seq<Rpc.Event>)
    requires Rpc.Inv(s) && Sound(st) && st.executor && st.qmgr.Some? && st.qm.gets == [] && st.queueManagerName == s.queueManagerName
    requires Follows(s, i, base, st.qm.sent) && Rpc.PhaseOf(s, i).Idle?
    requires MqStr(NextTick(st.qm).newName) !in s.named
    requires AttemptBreaks(st, cmd) ==>
               MqStr(NextTick(AfterBreak(st, cmd).qm).newName) !in s.named + {MqStr(NextTick(st.qm).newName)}
    ensures |events| <= 2
    ensures var r, s1 := PublishRequest(st, cmd, 0), Rpc.Run(s, events);
            && RequestMatches(s1, i, base, r)
            && (RequestSync(st, cmd).out.Return? ==> r.out.Return?)
            && (r.out.Return? ==>
                  var p, m := r.out.value, Succeeded(st, cmd).qm;
                  && r.st.qmgr.Some?
                  && forall w :: MessagesOn(m.stored, p.replyHandle.queue) == []
                                 && Fits(s1, i, p.replyHandle.queue, m, r.st.qmgr.value, w) ==>
                       var out := RequestSync(st, cmd).out;
                       && (out.Return? ==> SameReply(Rpc.Next(After(s1, w), Rpc.Await(i)), i, p, out.value))
                       && (out == Raise(TimeoutError) ==> Rpc.Next(After(s1, w), Rpc.Await(i)) == After(s1, w)))
  {
    events := PublishRequestRefines(s, i, base, st, cmd);
    var r, s1 := PublishRequest(st, cmd, 0), Rpc.Run(s, events);
    Rpc.RunInv(s, events);
    if r.out.Return? {
      var p, m := r.out.value, Succeeded(st, cmd).qm;
      PublishedState(st, cmd);
      RequestReturns(st, cmd);
      forall w | MessagesOn(m.stored, p.replyHandle.queue) == [] && Fits(s1, i, p.replyHandle.queue, m, r.st.qmgr.value, w)
        ensures var out := RequestSync(st, cmd).out;
                && (out.Return? ==> SameReply(Rpc.Next(After(s1, w), Rpc.Await(i)), i, p, out.value))
                && (out == Raise(TimeoutError) ==> Rpc.Next(After(s1, w), Rpc.Await(i)) == After(s1, w))
      {
        assert Mirrors(s1, m.stored, p.replyHandle.queue);
        WaitEndToEnd(s1, i, m, r, w);
      }
    }
  }

  /** What `_request_sync` returns, or times out for, is what its wait did. */
  lemma RequestReturns(st: State, cmd: Command)
    requires st.executor && PublishRequest(st, cmd, 0).out.Return?
    ensures var r, out := PublishRequest(st, cmd, 0), RequestSync(st, cmd).out;
            var waited := WaitForReply(r.st, r.out.value).out;
            && (out.Return? ==> waited == out)
            && (out == Raise(TimeoutError) ==> waited == out)
  {
    var r := PublishRequest(st, cmd, 0);
    var waited := CloseReply(WaitForReply(r.st, r.out.value), r.out.value);
    if waited.out.Raise? && Retryable(waited.out.exn) {
      RecoverNeverTimesOut(waited.st);
    }
  }

  lemma RecoverNeverTimesOut(s: State)
    ensures Recover(s, false).out != Raise(TimeoutError)
  {
  }

  // ---------- an exchange ----------

  /** The events of one undisturbed exchange. */
  function Exchange(i: nat, j: nat, cmd: Command, name: string, id: MqId, at: nat, response: Command, replyId: MqId): seq<Rpc.Event> {
    [Rpc.Attempt(i, cmd, name, id, Fine), Rpc.Deliver(j, at), Rpc.Answer(j, response, replyId), Rpc.Commit(j), Rpc.Await(i)]
  }

  /** The reply that the exchange makes. */
  function ExchangedReply(message: Message, put: nat, response: Command, replyId: MqId): Rpc.Reply
    requires PublishDraft(ReplyCommand(Receive(message, ""), response)).Ok?
  {
    var reply := ReplyCommand(Receive(message, ""), response);
    Rpc.Reply(put, reply.destination, Stamp(PublishDraft(reply).value, replyId))
  }

  /** An attempt that nothing hinders. */
  lemma AttemptPuts(s: Rpc.System, i: nat, cmd: Command, name: string, id: MqId)
    requires MayAttempt(Rpc.PhaseOf(s, i)) && MqStr(name) !in s.named
    requires RequestDraft(cmd, MqStr(name), s.queueManagerName).Ok?
    ensures Rpc.Next(s, Rpc.Attempt(i, cmd, name, id, Fine))
         == Rpc.Place(s, i, MqStr(name), Stamp(RequestDraft(cmd, MqStr(name), s.queueManagerName).value, id), Fine)
  {
  }

  /** Deliver the request that was just put, and answer it. */
  lemma Asked(s: Rpc.System, i: nat, j: nat, q: string, message: Message, response: Command, replyId: MqId)
    requires Rpc.ResponderOf(s, j).pending == [] && PublishDraft(ReplyCommand(Receive(message, ""), response)).Ok?
    ensures var s1 := Rpc.Place(s, i, q, message, Fine);
            var s3 := Rpc.Next(Rpc.Next(s1, Rpc.Deliver(j, |s.queued|)), Rpc.Answer(j, response, replyId));
            && q in s3.replyQueues && s3.replyQueues[q] == []
            && Rpc.PhaseOf(s3, i) == Rpc.Waiting(q, |s.puts|, message.msgId)
            && Rpc.ResponderOf(s3, j).pending == [ExchangedReply(message, |s.puts|, response, replyId)]
  {
    var s1 := Rpc.Place(s, i, q, message, Fine);
    var s2 := Rpc.Next(s1, Rpc.Deliver(j, |s.queued|));
    assert s2.puts == s1.puts && s2.puts[|s.puts|].message == message;
    assert Rpc.ResponderOf(s2, j).handling == Some(|s.puts|) && Rpc.ResponderOf(s2, j).pending == [];
    assert [] + [ExchangedReply(message, |s.puts|, response, replyId)] == [ExchangedReply(message, |s.puts|, response, replyId)];
  }

  /** Commit and receive. */
  lemma Answered(s: Rpc.System, i: nat, j: nat, q: string, reply: Rpc.Reply)
    requires WaitsOn(s, i, q) && s.replyQueues[q] == [] && Rpc.ResponderOf(s, j).pending == [reply]
    requires reply.queue == q && reply.message.correlId == Rpc.PhaseOf(s, i).id
    ensures var r := Rpc.Next(Rpc.Next(s, Rpc.Commit(j)), Rpc.Await(i));
            Rpc.PhaseOf(r, i) == Rpc.Received(Rpc.PhaseOf(s, i).put, reply, Receive(reply.message, q))
  {
    PostAppends(s.replyQueues, [reply], q);
    assert [reply][1..] == [];
    assert RepliesTo([reply], q) == [reply];
    var s1 := Rpc.Next(s, Rpc.Commit(j));
    assert s1.replyQueues[q] == [reply];
  }

  /**
   An exchange that nobody disturbs completes: whatever else goes on in the system, a request that
   is put, delivered, answered and committed has its reply received by its requester.
   */
  lemma ExchangeCompletes(s: Rpc.System, i: nat, j: nat, cmd: Command, name: string, id: MqId, response: Command, replyId: MqId)
    requires MayAttempt(Rpc.PhaseOf(s, i)) && MqStr(name) !in s.named && Rpc.ResponderOf(s, j).pending == []
    requires RequestDraft(cmd, MqStr(name), s.queueManagerName).Ok?
    requires var message := Stamp(RequestDraft(cmd, MqStr(name), s.queueManagerName).value, id);
             PublishDraft(ReplyCommand(Receive(message, ""), response)).Ok?
    ensures var message := Stamp(RequestDraft(cmd, MqStr(name), s.queueManagerName).value, id);
            var reply := ExchangedReply(message, |s.puts|, response, replyId);
            var end := Rpc.Run(s, Exchange(i, j, cmd, name, id, |s.queued|, response, replyId));
            Rpc.PhaseOf(end, i) == Rpc.Received(|s.puts|, reply, Receive(reply.message, MqStr(name)))
  {
    var message := Stamp(RequestDraft(cmd, MqStr(name), s.queueManagerName).value, id);
    AttemptPuts(s, i, cmd, name, id);
    Asked(s, i, j, MqStr(name), message, response, replyId);
    var s1 := Rpc.Place(s, i, MqStr(name), message, Fine);
    var s3 := Rpc.Next(Rpc.Next(s1, Rpc.Deliver(j, |s.queued|)), Rpc.Answer(j, response, replyId));
    ReplyGoesBack(message, |s.puts|, response, replyId);
    MqStrIdempotent(name);
    Answered(s3, i, j, MqStr(name), ExchangedReply(message, |s.puts|, response, replyId));
    RunFive(s, Rpc.Attempt(i, cmd, name, id, Fine), Rpc.Deliver(j, |s.queued|), Rpc.Answer(j, response, replyId), Rpc.Commit(j), Rpc.Await(i));
  }

  lemma ReplyGoesBack(message: Message, put: nat, response: Command, replyId: MqId)
    requires PublishDraft(ReplyCommand(Receive(message, ""), response)).Ok?
    ensures var reply := ExchangedReply(message, put, response, replyId);
            reply.queue == MqStr(message.replyToQ) && reply.message.correlId == message.msgId
  {
  }

  lemma RunFive(s: Rpc.System, a: Rpc.Event, b: Rpc.Event, c: Rpc.Event, d: Rpc.Event, e: Rpc.Event)
    ensures Rpc.Run(s, [a, b, c, d, e]) == Rpc.Next(Rpc.Next(Rpc.Next(Rpc.Next(Rpc.Next(s, a), b), c), d), e)
  {
    assert [a, b, c, d, e][1..] == [b, c, d, e];
    assert [b, c, d, e][1..] == [c, d, e];
    assert [c, d, e][1..] == [d, e];
    var s1 := Rpc.Next(s, a);
    var s2 := Rpc.Next(s1, b);
    assert Rpc.Run(s, [a, b, c, d, e]) == Rpc.Run(s1, [b, c, d, e]);
    assert Rpc.Run(s1, [b, c, d, e]) == Rpc.Run(s2, [c, d, e]);
    assert Rpc.Run(s2, [c, d, e]) == Rpc.Run(Rpc.Next(s2, c), [d, e]);
    RunTwo(Rpc.Next(s2, c), d, e);
  }
}
