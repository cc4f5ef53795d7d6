/**
 The client takes the steps of `Rpc`: what `AsyncMQConnection` does for a requester or a
 responder, faults and recoveries and all, is a run of that system's events on its behalf. Of
 the queue manager this assumes what `Rpc` does: a dynamic queue's name is never given again.
 */
module RpcRefinement {
  import opened Wrappers
  import opened MqIds
  import opened HeaderNames
  import opened Messages
  import opened Mqi
  import opened Client
  import opened Handles
  import opened Transactions
  import opened Requests
  import Rpc

  // ---------- a requester ----------

  /** The requests of requester i, in the order of the puts. */
  function PutsOf(puts: seq<Rpc.PutRequest>, i: nat): seq<Message> {
    if puts == [] then []
    else
      var last := puts[|puts| - 1];
      PutsOf(puts[..|puts| - 1], i) + if last.requester == i then [last.message] else []
  }

  function MessagesOf(parcels: seq<Parcel>): seq<Message> {
    seq(|parcels|, k requires 0 <= k < |parcels| => parcels[k].1)
  }

  /** All that the client has made visible since `base` are its requests in the system. */
  ghost predicate Follows(s: Rpc.System, i: nat, base: seq<Message>, sent: seq<Parcel>) {
    MessagesOf(sent) == base + PutsOf(s.puts, i)
  }

  lemma PutsOfAppend(puts: seq<Rpc.PutRequest>, put: Rpc.PutRequest, i: nat)
    ensures PutsOf(puts + [put], i) == PutsOf(puts, i) + if put.requester == i then [put.message] else []
  {
    assert (puts + [put])[..|puts|] == puts;
  }

  lemma OneMore(base: seq<Message>, known: seq<Message>, sent: seq<Parcel>, parcel: Parcel)
    requires MessagesOf(sent) == base + known
    ensures MessagesOf(sent + [parcel]) == base + (known + [parcel.1])
  {
    assert MessagesOf(sent + [parcel]) == MessagesOf(sent) + [parcel.1];
    assert base + known + [parcel.1] == base + (known + [parcel.1]);
  }

  lemma CallRaises(m: QueueManager, connection: nat, effect: Effect)
    requires m.live == Some(connection)
    ensures var (m1, out) := Call(m, connection, effect);
            m1.live == m.live && (out.Raise? ==> out.exn.MqmiError? && out.exn.reason != NoMsgAvailable)
  {
  }

  lemma FillRaises(m: QueueManager, connection: nat, f: Filling)
    requires m.live == Some(connection)
    ensures var out := FillAndPut(m, connection, f).1;
            out.Raise? ==> if f.draft.Err? then out.exn == ValueError else out.exn.MqmiError? && out.exn.reason != NoMsgAvailable
  {
    if f.draft.Ok? {
      CallRaises(m, connection, NoEffect);
      var m1 := if f.headers then Call(m, connection, NoEffect).0 else m;
      CallRaises(m1.(putCalls := m1.putCalls + 1), connection, Place(f.queue, Stamp(f.draft.value, NextTick(m1).newId), f.syncpoint));
    }
  }

  /** An attempt that fails does so for a reason of the queue manager, or because an identifier cannot be converted. */
  lemma TryRequestRaises(m: QueueManager, connection: nat, cmd: Command, queueManagerName: string)
    requires m.live == Some(connection)
    ensures var a, queue := TryRequest(m, connection, cmd, queueManagerName), MqStr(NextTick(m).newName);
            && (a.replyQueue.Some? ==> a.replyQueue.value == queue)
            && (a.out.Raise? && !a.out.exn.MqmiError? ==> a.out.exn == ValueError && RequestDraft(cmd, queue, queueManagerName).Err?)
            && (a.out.Raise? && a.out.exn.MqmiError? ==> a.out.exn.reason != NoMsgAvailable)
  {
    CallRaises(m, connection, NoEffect);
    var (m1, reply) := OpenDynamic(m, connection);
    if reply.Return? {
      CallRaises(m1, connection, NoEffect);
      var m2 := Call(m1, connection, NoEffect).0;
      FillRaises(m2, connection, ToRequest(cmd, MqStr(reply.value), queueManagerName));
    }
  }

  /** The phase an attempt leaves its requester in. */
  ghost predicate PhaseMatches(before: Rpc.Phase, after: Rpc.Phase, put: nat, a: Attempt) {
    match a.out
    case Return(id) => a.replyQueue.Some? && after == Rpc.Waiting(a.replyQueue.value, put, id)
    case Raise(exn) => after == if Retryable(exn) && before.Idle? then Rpc.Retrying else Rpc.Gone
  }

  predicate MayAttempt(phase: Rpc.Phase) {
    phase.Idle? || phase.Retrying?
  }

  /** The event an attempt is, given what it placed and under which identifier. */
  function AttemptEvent(i: nat, cmd: Command, name: string, a: Attempt, placed: bool, id: MqId): Rpc.Event
    requires a.out.Raise? && a.out.exn.MqmiError? ==> a.out.exn.reason != NoMsgAvailable
  {
    Rpc.Attempt(i, cmd, name, id,
                if a.out.Return? || !a.out.exn.MqmiError? then Fine
                else if placed then After(a.out.exn.reason) else Before(a.out.exn.reason))
  }

  /** An `Attempt` that puts nothing. */
  lemma NothingPut(s: Rpc.System, i: nat, base: seq<Message>, sent: seq<Parcel>, e: Rpc.Event)
    requires e.Attempt? && e.requester == i && MayAttempt(Rpc.PhaseOf(s, i)) && Follows(s, i, base, sent)
    requires e.fault.Before? || RequestDraft(e.cmd, MqStr(e.name), s.queueManagerName).Err?
    ensures var next := Rpc.Next(s, e);
            && Follows(next, i, base, sent)
            && Rpc.PhaseOf(next, i) == (if e.fault.Before? then Rpc.AfterFailure(Rpc.PhaseOf(s, i), e.fault.reason) else Rpc.Gone)
            && next.queueManagerName == s.queueManagerName && next.named == s.named + {MqStr(e.name)}
  {
  }

  /** An `Attempt` that puts its request. */
  lemma RequestPut(s: Rpc.System, i: nat, base: seq<Message>, sent: seq<Parcel>, e: Rpc.Event, parcel: Parcel)
    requires e.Attempt? && e.requester == i && MayAttempt(Rpc.PhaseOf(s, i)) && Follows(s, i, base, sent)
    requires !e.fault.Before? && MqStr(e.name) !in s.named
    requires var draft := RequestDraft(e.cmd, MqStr(e.name), s.queueManagerName); draft.Ok? && parcel.1 == Stamp(draft.value, e.newId)
    ensures var next := Rpc.Next(s, e);
            && Follows(next, i, base, sent + [parcel])
            && (e.fault.Fine? ==> MqStr(e.name) in next.replyQueues && next.replyQueues[MqStr(e.name)] == [])
            && Rpc.PhaseOf(next, i) == (if e.fault.Fine? then Rpc.Waiting(MqStr(e.name), |s.puts|, parcel.1.msgId)
                                        else Rpc.AfterFailure(Rpc.PhaseOf(s, i), e.fault.reason))
            && next.queueManagerName == s.queueManagerName && next.named == s.named + {MqStr(e.name)}
  {
    OneMore(base, PutsOf(s.puts, i), sent, parcel);
    PutsOfAppend(s.puts, Rpc.PutRequest(i, MqStr(e.name), parcel.1), i);
  }

  /** One turn of `_publish_request_sync` is one `Attempt`, wherever it fails. */
  lemma AttemptRefines(s: Rpc.System, i: nat, base: seq<Message>, st: State, cmd: Command) returns (e: Rpc.Event)
    requires Sound(st) && st.qmgr.Some? && st.queueManagerName == s.queueManagerName
    requires MayAttempt(Rpc.PhaseOf(s, i)) && Follows(s, i, base, st.qm.sent)
    requires MqStr(NextTick(st.qm).newName) !in s.named
    ensures var a := TryRequest(st.qm, st.qmgr.value, cmd, st.queueManagerName);
            var next := Rpc.Next(s, e);
            && Follows(next, i, base, a.qm.sent)
            && PhaseMatches(Rpc.PhaseOf(s, i), Rpc.PhaseOf(next, i), |s.puts|, a)
            && (a.out.Return? ==> a.replyQueue.value in next.replyQueues && next.replyQueues[a.replyQueue.value] == [])
            && next.queueManagerName == s.queueManagerName && next.named == s.named + {MqStr(NextTick(st.qm).newName)}
  {
    var name := NextTick(st.qm).newName;
    var queue := MqStr(name);
    var a := TryRequest(st.qm, st.qmgr.value, cmd, st.queueManagerName);
    TryRequestRaises(st.qm, st.qmgr.value, cmd, st.queueManagerName);
    var placed := TryRequestEffect(st, cmd);
    var id: MqId := [];
    if placed == [] {
      assert st.qm.sent + placed == st.qm.sent;
      e := AttemptEvent(i, cmd, name, a, false, id);
      NothingPut(s, i, base, st.qm.sent, e);
    } else {
      id :| placed[0] == (cmd.destination, Stamp(RequestDraft(cmd, queue, st.queueManagerName).value, id));
      e := AttemptEvent(i, cmd, name, a, true, id);
      assert placed == [placed[0]];
      RequestPut(s, i, base, st.qm.sent, e, placed[0]);
    }
  }

  /** The recovery between two attempts, and the closing of the first one's queues, make nothing visible. */
  lemma BetweenAttempts(st: State, cmd: Command)
    requires Sound(st) && AttemptBreaks(st, cmd)
    ensures var st1 := AfterBreak(st, cmd);
            Sound(st1) && st1.queueManagerName == st.queueManagerName
            && st1.qm.sent == TryRequest(st.qm, st.qmgr.value, cmd, st.queueManagerName).qm.sent
  {
    var c := st.qmgr.value;
    var a := TryRequest(st.qm, c, cmd, st.queueManagerName);
    var tried := st.(qm := a.qm);
    var placed := TryRequestEffect(st, cmd);
    TryRequestSound(st, c, cmd);
    RecoverSound(tried, false);
    RecoverKeepsWork(tried, false);
    CloseAttemptKept(Recover(tried, false).st, c, a);
    CloseAttemptEffect(Recover(tried, false).st.qm, c, a);
  }

  /** What a requester's run of `_publish_request_sync` has come to. */
  ghost predicate RequestMatches(s: Rpc.System, i: nat, base: seq<Message>, r: Done<Published>) {
    && Follows(s, i, base, r.st.qm.sent)
    && match r.out
       case Return(p) =>
         var phase := Rpc.PhaseOf(s, i);
         && phase.Waiting? && phase.queue == p.replyHandle.queue && phase.id == p.requestId
         && phase.queue in s.replyQueues && s.replyQueues[phase.queue] == []
       case Raise(_) => Rpc.PhaseOf(s, i).Gone?
  }

  lemma LastTurnRefines(s: Rpc.System, i: nat, base: seq<Message>, st: State, cmd: Command, attempt: nat) returns (e: Rpc.Event)
    requires attempt < 2 && Sound(st) && st.qmgr.Some? && st.queueManagerName == s.queueManagerName
    requires Follows(s, i, base, st.qm.sent)
    requires if attempt == 0 then Rpc.PhaseOf(s, i).Idle? && !AttemptBreaks(st, cmd) else Rpc.PhaseOf(s, i).Retrying?
    requires MqStr(NextTick(st.qm).newName) !in s.named
    ensures RequestMatches(Rpc.Next(s, e), i, base, PublishRequest(st, cmd, attempt))
  {
    e := AttemptRefines(s, i, base, st, cmd);
    var a := TryRequest(st.qm, st.qmgr.value, cmd, st.queueManagerName);
    CloseAttemptEffect(a.qm, st.qmgr.value, a);
  }

  /**
   The whole of `_publish_request_sync` is one `Attempt`, or two, or one and a `GiveUp` if the
   recovery between them fails; it returns exactly when the requester waits, on the reply queue
   and for the identifier that were returned.
   */
  lemma PublishRequestRefines(s: Rpc.System, i: nat, base: seq<Message>, st: State, cmd: Command) returns (events: seq<Rpc.Event>)
    requires Sound(st) && st.qmgr.Some? && st.queueManagerName == s.queueManagerName
    requires Follows(s, i, base, st.qm.sent) && Rpc.PhaseOf(s, i).Idle?
    requires MqStr(NextTick(st.qm).newName) !in s.named
    requires AttemptBreaks(st, cmd) ==>
               MqStr(NextTick(AfterBreak(st, cmd).qm).newName) !in s.named + {MqStr(NextTick(st.qm).newName)}
    ensures |events| <= 2
    ensures RequestMatches(Rpc.Run(s, events), i, base, PublishRequest(st, cmd, 0))
  {
    if !AttemptBreaks(st, cmd) {
      var e := LastTurnRefines(s, i, base, st, cmd, 0);
      events := [e];
      RunOne(s, e);
    } else {
      var e := AttemptRefines(s, i, base, st, cmd);
      var s1, st1 := Rpc.Next(s, e), AfterBreak(st, cmd);
      BetweenAttempts(st, cmd);
      SecondTurnExactly(st, cmd);
      if st1.qmgr.Some? && Recover(st.(qm := TryRequest(st.qm, st.qmgr.value, cmd, st.queueManagerName).qm), false).out.Return? {
        var e' := LastTurnRefines(s1, i, base, st1, cmd, 1);
        events := [e, e'];
        RunTwo(s, e, e');
      } else {
        events := [e, Rpc.GiveUp(i)];
        RunTwo(s, e, Rpc.GiveUp(i));
      }
    }
  }

  lemma SecondTurnExactly(st: State, cmd: Command)
    requires Sound(st) && AttemptBreaks(st, cmd)
    ensures var tried := st.(qm := TryRequest(st.qm, st.qmgr.value, cmd, st.queueManagerName).qm);
            var r, recovered := PublishRequest(st, cmd, 0), Recover(tried, false);
            if recovered.out.Raise? then r == Done(AfterBreak(st, cmd), Raise(recovered.out.exn))
            else AfterBreak(st, cmd).qmgr.Some? && r == PublishRequest(AfterBreak(st, cmd), cmd, 1)
  {
    var tried := st.(qm := TryRequest(st.qm, st.qmgr.value, cmd, st.queueManagerName).qm);
    TryRequestSound(st, st.qmgr.value, cmd);
    RecoverSound(tried, false);
  }

  lemma RunOne(s: Rpc.System, e: Rpc.Event)
    ensures Rpc.Run(s, [e]) == Rpc.Next(s, e)
  {
    assert [e][1..] == [];
  }

  lemma RunTwo(s: Rpc.System, e: Rpc.Event, e': Rpc.Event)
    ensures Rpc.Run(s, [e, e']) == Rpc.Next(Rpc.Next(s, e), e')
  {
    assert [e, e'][1..] == [e'];
    RunOne(Rpc.Next(s, e), e');
  }

  // ---------- the reply ----------

  /** The messages on a queue, in order. */
  function MessagesOn(stored: seq<Parcel>, queue: string): seq<Message> {
    if stored == [] then []
    else (if stored[0].0 == queue then [stored[0].1] else []) + MessagesOn(stored[1..], queue)
  }

  function RepliesIn(replies: seq<Rpc.Reply>): seq<Message> {
    seq(|replies|, k requires 0 <= k < |replies| => replies[k].message)
  }

  /** The queue manager matches on the correlation id as `Rpc` does. */
  lemma {:induction false} FirstMatches(stored: seq<Parcel>, queue: string, replies: seq<Rpc.Reply>, id: MqId)
    requires MessagesOn(stored, queue) == RepliesIn(replies)
    ensures var i, k := FirstOn(stored, queue, Some(id)), Rpc.FirstReply(replies, id);
            && (i == |stored| <==> k == |replies|)
            && (i < |stored| ==> stored[i].1 == replies[k].message)
    decreases |stored|
  {
    if stored != [] {
      if stored[0].0 != queue {
        FirstMatches(stored[1..], queue, replies, id);
      } else {
        assert MessagesOn(stored, queue)[0] == stored[0].1;
        assert replies[0].message == stored[0].1;
        assert MessagesOn(stored[1..], queue) == MessagesOn(stored, queue)[1..];
        assert RepliesIn(replies[1..]) == RepliesIn(replies)[1..];
        FirstMatches(stored[1..], queue, replies[1..], id);
      }
    }
  }

  /** The queue manager when `_wait_for_reply_sync` comes to look. */
  function AtWait(st: State): QueueManager
    requires st.qmgr.Some?
  {
    Advance(Call(st.qm, st.qmgr.value, NoEffect).0)
  }

  lemma WaitExactly(st: State, p: Published)
    requires st.qmgr.Some?
    ensures var out, stored := WaitForReply(st, p).out, AtWait(st).stored;
            var i := FirstOn(stored, p.replyHandle.queue, Some(p.requestId));
            && (out.Return? ==> i < |stored| && out.value == Receive(stored[i].1, p.replyHandle.queue))
            && (out == Raise(TimeoutError) ==> i == |stored|)
  {
    var c, q := st.qmgr.value, p.replyHandle.queue;
    var m1 := Call(st.qm, c, NoEffect).0;
    CallFails(st.qm, c, NoEffect);
    GetExactly(m1, p.replyHandle.connection, q, p.requestId);
    CallFails(Get(m1, p.replyHandle.connection, q, Some(p.requestId)).0, c, NoEffect);
  }

  lemma CallFails(m: QueueManager, connection: nat, effect: Effect)
    ensures var out := Call(m, connection, effect).1; out.Raise? ==> out.exn.MqmiError? && out.exn.reason != NoMsgAvailable
  {
  }

  lemma GetExactly(m: QueueManager, connection: nat, queue: string, id: MqId)
    ensures var out, stored := Get(m, connection, queue, Some(id)).1, Advance(m).stored;
            var i := FirstOn(stored, queue, Some(id));
            && (out.Return? ==> i < |stored| && out.value == stored[i].1)
            && (out.Raise? ==> out.exn.MqmiError? && (out.exn.reason == NoMsgAvailable ==> i == |stored|))
  {
    CallFails(m, connection, TakeReply(queue, id));
  }

  /** Waiting for a reply is an `Await`: what is returned is what the requester receives, and a timeout means there was nothing to receive. */
  lemma AwaitRefines(s: Rpc.System, i: nat, st: State, p: Published)
    requires st.qmgr.Some? && Rpc.PhaseOf(s, i).Waiting?
    requires Rpc.PhaseOf(s, i).queue == p.replyHandle.queue && Rpc.PhaseOf(s, i).id == p.requestId
    requires p.replyHandle.queue in s.replyQueues
    requires MessagesOn(AtWait(st).stored, p.replyHandle.queue) == RepliesIn(s.replyQueues[p.replyHandle.queue])
    ensures var out, next := WaitForReply(st, p).out, Rpc.Next(s, Rpc.Await(i));
            && (out.Return? ==> Rpc.PhaseOf(next, i).Received? && Rpc.PhaseOf(next, i).raw == out.value)
            && (out == Raise(TimeoutError) ==> next == s)
  {
    WaitExactly(st, p);
    FirstMatches(AtWait(st).stored, p.replyHandle.queue, s.replyQueues[p.replyHandle.queue], p.requestId);
    AwaitStep(s, i);
  }

  lemma AwaitStep(s: Rpc.System, i: nat)
    requires Rpc.PhaseOf(s, i).Waiting? && Rpc.PhaseOf(s, i).queue in s.replyQueues
    ensures var phase, next := Rpc.PhaseOf(s, i), Rpc.Next(s, Rpc.Await(i));
            var replies := s.replyQueues[phase.queue];
            var k := Rpc.FirstReply(replies, phase.id);
            if k == |replies| then next == s
            else Rpc.PhaseOf(next, i) == Rpc.Received(phase.put, replies[k], Receive(replies[k].message, phase.queue))
  {
  }

  // ---------- a responder ----------

  function ParcelOf(r: Rpc.Reply): Parcel {
    (r.queue, r.message)
  }

  function ParcelsOf(replies: seq<Rpc.Reply>): seq<Parcel> {
    seq(|replies|, k requires 0 <= k < |replies| => ParcelOf(replies[k]))
  }

  /** The open unit of work is the responder's: its gets are requests it was delivered, its puts the replies it has pending. */
  ghost predicate Carries(puts: seq<Rpc.PutRequest>, r: Rpc.Responder, w: Work) {
    && |w.gets| == |r.gets| && (forall k :: 0 <= k < |r.gets| ==> r.gets[k] < |puts| && w.gets[k].1 == puts[r.gets[k]].message)
    && w.puts == ParcelsOf(r.pending)
  }

  /** A lost connection is a `Lose`. */
  function LoseIf(s: Rpc.System, j: nat, lost: bool): Rpc.System {
    if lost then Rpc.Next(s, Rpc.Lose(j)) else s
  }

  lemma LoseRefines(s: Rpc.System, j: nat, w: Work, lost: bool)
    requires Carries(s.puts, Rpc.ResponderOf(s, j), w)
    ensures var next := LoseIf(s, j, lost);
            && Carries(next.puts, Rpc.ResponderOf(next, j), LostIf(lost, w))
            && next.puts == s.puts && Rpc.ResponderOf(next, j).handling == Rpc.ResponderOf(s, j).handling
  {
  }

  lemma DeliverRefines(s: Rpc.System, j: nat, w: Work, parcel: Parcel, k: nat)
    requires Carries(s.puts, Rpc.ResponderOf(s, j), w)
    requires k < |s.queued| && s.queued[k] < |s.puts| && s.puts[s.queued[k]].message == parcel.1
    ensures var next := Rpc.Next(s, Rpc.Deliver(j, k));
            && Carries(next.puts, Rpc.ResponderOf(next, j), w.(gets := w.gets + [parcel]))
            && Rpc.ResponderOf(next, j).handling == Some(s.queued[k])
  {
  }

  /** A get that returns a message is a `Deliver`, after a `Lose` if it had to recover. */
  lemma GetRefines(s: Rpc.System, j: nat, st: State) returns (lost: bool)
    requires Sound(st) && Carries(s.puts, Rpc.ResponderOf(s, j), WorkOf(st.qm))
    ensures var r, s1 := Perform(st, GetOp), LoseIf(s, j, lost);
            && s1.puts == s.puts
            && (r.out == Return(Got(None)) ==> Carries(s1.puts, Rpc.ResponderOf(s1, j), WorkOf(r.st.qm)))
            && (r.out.Return? && r.out.value.Got? && r.out.value.message.Some? ==>
                  forall k: nat :: k < |s1.queued| && s1.queued[k] < |s1.puts|
                                   && s1.puts[s1.queued[k]].message == r.out.value.message.value.metadata ==>
                    var next := Rpc.Next(s1, Rpc.Deliver(j, k));
                    && Carries(next.puts, Rpc.ResponderOf(next, j), WorkOf(r.st.qm))
                    && Rpc.ResponderOf(next, j).handling == Some(s1.queued[k]))
  {
    var taken;
    lost, taken := GetEffect(st);
    LoseRefines(s, j, WorkOf(st.qm), lost);
    var r, s1, w1 := Perform(st, GetOp), LoseIf(s, j, lost), LostIf(lost, WorkOf(st.qm));
    assert w1.gets + [] == w1.gets;
    if r.out.Return? && r.out.value.Got? && r.out.value.message.Some? {
      forall k: nat | k < |s1.queued| && s1.queued[k] < |s1.puts| && s1.puts[s1.queued[k]].message == r.out.value.message.value.metadata
        ensures var next := Rpc.Next(s1, Rpc.Deliver(j, k));
                && Carries(next.puts, Rpc.ResponderOf(next, j), WorkOf(r.st.qm))
                && Rpc.ResponderOf(next, j).handling == Some(s1.queued[k])
      {
        DeliverRefines(s1, j, w1, taken[0], k);
      }
    }
  }

  /** Where the message lay does not enter into its reply. */
  lemma SameReply(m: Message, queue: string, cmd: Command)
    ensures ReplyCommand(Receive(m, queue), cmd) == ReplyCommand(Receive(m, ""), cmd)
  {
  }

  lemma AppendReply(s: Rpc.System, j: nat, w: Work, cmd: Command, queue: string, id: MqId)
    requires Carries(s.puts, Rpc.ResponderOf(s, j), w)
    requires var g := Rpc.ResponderOf(s, j).handling; g.Some? && g.value < |s.puts|
    requires var m := s.puts[Rpc.ResponderOf(s, j).handling.value].message; PublishDraft(ReplyCommand(Receive(m, queue), cmd)).Ok?
    ensures var m := s.puts[Rpc.ResponderOf(s, j).handling.value].message;
            var reply := ReplyCommand(Receive(m, queue), cmd);
            var next := Rpc.Next(s, Rpc.Answer(j, cmd, id));
            Carries(next.puts, Rpc.ResponderOf(next, j), w.(puts := w.puts + [(reply.destination, Stamp(PublishDraft(reply).value, id))]))
  {
    var r := Rpc.ResponderOf(s, j);
    var m := s.puts[r.handling.value].message;
    SameReply(m, queue, cmd);
    var reply := ReplyCommand(Receive(m, ""), cmd);
    var answer := Rpc.Reply(r.handling.value, reply.destination, Stamp(PublishDraft(reply).value, id));
    assert ParcelsOf(r.pending + [answer]) == ParcelsOf(r.pending) + [ParcelOf(answer)];
  }

  /**
   Publishing the reply to the request at hand is an `Answer`, after a `Lose` if the publish had to
   recover; or only a `Lose`, or nothing, if it failed. The command is whatever the handler made.
   */
  lemma AnswerRefines(s: Rpc.System, j: nat, st: State, cmd: Command, queue: string) returns (events: seq<Rpc.Event>)
    requires Sound(st) && Carries(s.puts, Rpc.ResponderOf(s, j), WorkOf(st.qm))
    requires var g := Rpc.ResponderOf(s, j).handling; g.Some? && g.value < |s.puts|
    ensures var m := s.puts[Rpc.ResponderOf(s, j).handling.value].message;
            var r, next := Perform(st, PublishOp(ReplyCommand(Receive(m, queue), cmd))), Rpc.Run(s, events);
            && |events| <= 2
            && Carries(next.puts, Rpc.ResponderOf(next, j), WorkOf(r.st.qm))
            && (r.out.Return? ==> events != [] && events[|events| - 1].Answer? && events[|events| - 1].responder == j)
  {
    var m := s.puts[Rpc.ResponderOf(s, j).handling.value].message;
    var reply := ReplyCommand(Receive(m, queue), cmd);
    var lost, placed, id := ReplyEffect(st, reply);
    if placed {
      events := LoseAndAnswer(s, j, WorkOf(st.qm), lost, cmd, queue, id);
    } else {
      events := LoseOnly(s, j, WorkOf(st.qm), lost);
    }
  }

  /** What publishing a reply does to the open work, with the identifier it was stamped with. */
  lemma ReplyEffect(st: State, reply: Command) returns (lost: bool, placed: bool, id: MqId)
    requires Sound(st) && reply.syncpoint
    ensures var r, w1 := Perform(st, PublishOp(reply)), LostIf(lost, WorkOf(st.qm));
            && (r.out.Return? ==> placed)
            && if placed then PublishDraft(reply).Ok?
                              && WorkOf(r.st.qm) == w1.(puts := w1.puts + [(reply.destination, Stamp(PublishDraft(reply).value, id))])
               else WorkOf(r.st.qm) == w1
  {
    var copies;
    lost, copies := PublishEffect(st, reply);
    placed, id := copies != [], [];
    if placed {
      assert IsCopyOf(ToPublish(reply), copies[0]);
      id :| copies[0] == (reply.destination, Stamp(ToPublish(reply).draft.value, id));
      assert copies == [copies[0]];
    } else {
      WithNothing(LostIf(lost, WorkOf(st.qm)));
    }
  }

  lemma WithNothing(w: Work)
    ensures AddTo(w, true, []) == w
  {
    assert w.puts + [] == w.puts;
  }

  lemma LoseOnly(s: Rpc.System, j: nat, w: Work, lost: bool) returns (events: seq<Rpc.Event>)
    requires Carries(s.puts, Rpc.ResponderOf(s, j), w)
    ensures |events| <= 1 && Rpc.Run(s, events) == LoseIf(s, j, lost)
    ensures var next := Rpc.Run(s, events); Carries(next.puts, Rpc.ResponderOf(next, j), LostIf(lost, w))
  {
    LoseRefines(s, j, w, lost);
    events := if lost then [Rpc.Lose(j)] else [];
    RunOne(s, Rpc.Lose(j));
  }

  lemma LoseAndAnswer(s: Rpc.System, j: nat, w: Work, lost: bool, cmd: Command, queue: string, id: MqId) returns (events: seq<Rpc.Event>)
    requires Carries(s.puts, Rpc.ResponderOf(s, j), w)
    requires var g := Rpc.ResponderOf(s, j).handling; g.Some? && g.value < |s.puts|
    requires var m := s.puts[Rpc.ResponderOf(s, j).handling.value].message; PublishDraft(ReplyCommand(Receive(m, queue), cmd)).Ok?
    ensures var m := s.puts[Rpc.ResponderOf(s, j).handling.value].message;
            var reply := ReplyCommand(Receive(m, queue), cmd);
            var next, w1 := Rpc.Run(s, events), LostIf(lost, w);
            && events != [] && |events| <= 2 && events[|events| - 1] == Rpc.Answer(j, cmd, id)
            && Carries(next.puts, Rpc.ResponderOf(next, j), w1.(puts := w1.puts + [(reply.destination, Stamp(PublishDraft(reply).value, id))]))
  {
    LoseRefines(s, j, w, lost);
    var s1, e := LoseIf(s, j, lost), Rpc.Answer(j, cmd, id);
    AppendReply(s1, j, LostIf(lost, w), cmd, queue, id);
    if lost {
      events := [Rpc.Lose(j), e];
      RunTwo(s, Rpc.Lose(j), e);
    } else {
      events := [e];
      RunOne(s, e);
    }
  }

  /** The event a settlement is, by the fate of its first call; None: nothing happens. */
  function SettleEvent(j: nat, commit: bool, fault: Fault): Option<Rpc.Event> {
    if !fault.Before? then Some(if commit then Rpc.Commit(j) else Rpc.Lose(j))
    else if IsReconnectable(fault.reason) then Some(Rpc.Lose(j))
    else None
  }

  /** Settling is a `Commit` or a `Lose`, or nothing, exactly by the fate of its first call, and a `Commit` shows the pending replies. */
  lemma SettleRefines(s: Rpc.System, j: nat, st: State, commit: bool)
    requires Sound(st) && st.executor && st.qmgr.Some? && Carries(s.puts, Rpc.ResponderOf(s, j), WorkOf(st.qm))
    ensures var r, e := Perform(st, if commit then CommitOp else BackoutOp), SettleEvent(j, commit, NextTick(st.qm).fault);
            var next := if e.Some? then Rpc.Next(s, e.value) else s;
            && Carries(next.puts, Rpc.ResponderOf(next, j), WorkOf(r.st.qm))
            && r.st.qm.sent == st.qm.sent + (if e == Some(Rpc.Commit(j)) then ParcelsOf(Rpc.ResponderOf(s, j).pending) else [])
  {
    SettleExactly(st, commit);
    var w, fault := WorkOf(st.qm), NextTick(st.qm).fault;
    if !fault.Before? && commit {
      CommitStep(s, j, w);
    } else {
      LoseRefines(s, j, w, !fault.Before? || IsReconnectable(fault.reason));
      assert w.sent + [] == w.sent;
    }
  }

  lemma CommitStep(s: Rpc.System, j: nat, w: Work)
    requires Carries(s.puts, Rpc.ResponderOf(s, j), w)
    ensures var next := Rpc.Next(s, Rpc.Commit(j));
            && Carries(next.puts, Rpc.ResponderOf(next, j), w.Completed())
            && w.Completed().sent == w.sent + ParcelsOf(Rpc.ResponderOf(s, j).pending)
  {
    assert ParcelsOf([]) == [];
  }
}
