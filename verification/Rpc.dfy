/**
 Request and reply on one queue manager, with any number of requesters and responders
 interleaved step by step. Commands, descriptors and replies are made by the same
 functions as in the client. Assumed of the queue manager: the name it gives a dynamic
 queue is never given again.
 */
module Rpc {
  import opened Wrappers
  import opened MqIds
  import opened HeaderNames
  import opened Messages
  import opened Mqi

  /** A request that reached its destination; its place in the list of puts is its identity. */
  datatype PutRequest = PutRequest(requester: nat, replyQueue: string, message: Message)

  /** A reply, with the put it answers. */
  datatype Reply = Reply(to: nat, queue: string, message: Message)

  datatype Phase =
    | Idle
    | Retrying
    | Waiting(queue: string, put: nat, id: MqId)
    | Received(put: nat, reply: Reply, raw: RawMessage)
    | Gone

  /** A responding connection: the request its handler is at work on, and its unit of work. */
  datatype Responder = Responder(handling: Option<nat>, gets: seq<nat>, pending: seq<Reply>)

  datatype System = System(
    queueManagerName: string,
    puts: seq<PutRequest>,
    queued: seq<nat>,
    replyQueues: map<string, seq<Reply>>,
    named: set<string>,
    requesters: map<nat, Phase>,
    responders: map<nat, Responder>)

  /**
   `Attempt`: one turn of `_publish_request_sync`; a failure before the put counts as Before, and
   identifiers that cannot be converted end the request. `GiveUp`: the wait times out or breaks,
   or the recovery before a second attempt fails. `Lose`: a backout, or a broken connection. `Answer`
   may follow a `Lose`: a handler does not notice that its delivery was rolled back, and the
   publish is then repeated in a new unit of work.
   */
  datatype Event =
    | Attempt(requester: nat, cmd: Command, name: string, newId: MqId, fault: Fault)
    | Await(requester: nat)
    | GiveUp(requester: nat)
    | Deliver(responder: nat, index: nat)
    | Answer(responder: nat, cmd: Command, newId: MqId)
    | Commit(responder: nat)
    | Lose(responder: nat)

  function PhaseOf(s: System, i: nat): Phase {
    if i in s.requesters then s.requesters[i] else Idle
  }

  function ResponderOf(s: System, j: nat): Responder {
    if j in s.responders then s.responders[j] else Responder(None, [], [])
  }

  function FirstReply(replies: seq<Reply>, id: MqId): (k: nat)
    ensures k <= |replies| && (k < |replies| ==> replies[k].message.correlId == id)
  {
    if replies == [] || replies[0].message.correlId == id then 0 else 1 + FirstReply(replies[1..], id)
  }

  /** Visible replies go to their queue if it still exists. */
  function Post(queues: map<string, seq<Reply>>, replies: seq<Reply>): map<string, seq<Reply>>
    decreases |replies|
  {
    if replies == [] then queues
    else
      var r := replies[0];
      Post(if r.queue in queues then queues[r.queue := queues[r.queue] + [r]] else queues, replies[1..])
  }

  /** The phase after a failed attempt: one more attempt if the first failed for a lost connection. */
  function AfterFailure(phase: Phase, reason: Reason): Phase {
    if IsReconnectable(reason) && phase.Idle? then Retrying else Gone
  }

  /** The request is put, and the attempt succeeds, or fails without noticing the put. */
  function Place(s: System, i: nat, queue: string, message: Message, fault: Fault): System
    requires !fault.Before?
  {
    var visible := s.(named := s.named + {queue},
                      puts := s.puts + [PutRequest(i, queue, message)], queued := s.queued + [|s.puts|]);
    match fault
    case Fine =>
      visible.(replyQueues := s.replyQueues[queue := []], requesters := s.requesters[i := Waiting(queue, |s.puts|, message.msgId)])
    case After(reason) => visible.(requesters := s.requesters[i := AfterFailure(PhaseOf(s, i), reason)])
  }

  /** An attempt that puts nothing. */
  function Fail(s: System, i: nat, queue: string, phase: Phase): System {
    s.(named := s.named + {queue}, requesters := s.requesters[i := phase])
  }

  function NextAttempt(s: System, e: Event): System
    requires e.Attempt?
  {
    var queue, phase := MqStr(e.name), PhaseOf(s, e.requester);
    var draft := RequestDraft(e.cmd, queue, s.queueManagerName);
    if !(phase.Idle? || phase.Retrying?) then s
    else if e.fault.Before? then Fail(s, e.requester, queue, AfterFailure(phase, e.fault.reason))
    else if draft.Err? then Fail(s, e.requester, queue, Gone)
    else if queue in s.named then s
    else Place(s, e.requester, queue, Stamp(draft.value, e.newId), e.fault)
  }

  function Next(s: System, e: Event): System {
    match e
    case Attempt(_, _, _, _, _) => NextAttempt(s, e)
    case Await(i) =>
      var phase := PhaseOf(s, i);
      if !phase.Waiting? || phase.queue !in s.replyQueues then s
      else
        var replies := s.replyQueues[phase.queue];
        var k := FirstReply(replies, phase.id);
        if k == |replies| then s
        else
          s.(requesters := s.requesters[i := Received(phase.put, replies[k], Receive(replies[k].message, phase.queue))],
             replyQueues := s.replyQueues - {phase.queue})
    case GiveUp(i) =>
      var phase := PhaseOf(s, i);
      if phase.Retrying? then s.(requesters := s.requesters[i := Gone])
      else if !phase.Waiting? then s
      else s.(requesters := s.requesters[i := Gone], replyQueues := s.replyQueues - {phase.queue})
    case Deliver(j, k) =>
      if k >= |s.queued| then s
      else
        var r := ResponderOf(s, j);
        s.(queued := s.queued[..k] + s.queued[k + 1..],
           responders := s.responders[j := r.(handling := Some(s.queued[k]), gets := r.gets + [s.queued[k]])])
    case Answer(j, cmd, newId) =>
      var r := ResponderOf(s, j);
      if r.handling.None? || r.handling.value >= |s.puts| then s
      else
        var raw := Receive(s.puts[r.handling.value].message, "");
        var draft := PublishDraft(ReplyCommand(raw, cmd));
        if draft.Err? then s
        else
          var reply := Reply(r.handling.value, ReplyCommand(raw, cmd).destination, Stamp(draft.value, newId));
          s.(responders := s.responders[j := r.(pending := r.pending + [reply])])
    case Commit(j) =>
      var r := ResponderOf(s, j);
      s.(replyQueues := Post(s.replyQueues, r.pending), responders := s.responders[j := Responder(None, [], [])])
    case Lose(j) =>
      var r := ResponderOf(s, j);
      s.(queued := r.gets + s.queued, responders := s.responders[j := Responder(r.handling, [], [])])
  }

  function Run(s: System, events: seq<Event>): System
    decreases |events|
  {
    if events == [] then s else Run(Next(s, events[0]), events[1..])
  }

  // ---------- what every step keeps ----------

  /** A reply went to the reply queue of the put it answers, under that put's identifier. */
  ghost predicate Answers(puts: seq<PutRequest>, r: Reply) {
    && r.to < |puts|
    && r.queue == puts[r.to].replyQueue
    && r.message.correlId == puts[r.to].message.msgId
  }

  ghost predicate AllAnswer(puts: seq<PutRequest>, replies: seq<Reply>) {
    forall k :: 0 <= k < |replies| ==> Answers(puts, replies[k])
  }

  /** Each put names a reply queue of its own. */
  ghost predicate OwnQueues(s: System) {
    && (forall a :: 0 <= a < |s.puts| ==>
          s.puts[a].replyQueue in s.named && MqStr(s.puts[a].message.replyToQ) == s.puts[a].replyQueue)
    && (forall a, b :: 0 <= a < b < |s.puts| ==> s.puts[a].replyQueue != s.puts[b].replyQueue)
  }

  ghost predicate QueuesOk(puts: seq<PutRequest>, queues: map<string, seq<Reply>>) {
    forall q :: q in queues ==> AllAnswer(puts, queues[q]) && forall k :: 0 <= k < |queues[q]| ==> queues[q][k].queue == q
  }

  ghost predicate PhaseOk(puts: seq<PutRequest>, i: nat, phase: Phase) {
    match phase
    case Waiting(queue, put, id) =>
      put < |puts| && puts[put].requester == i && puts[put].replyQueue == queue && puts[put].message.msgId == id
    case Received(put, reply, raw) =>
      && put < |puts| && puts[put].requester == i
      && reply.to == put && Answers(puts, reply) && raw == Receive(reply.message, puts[put].replyQueue)
    case _ => true
  }

  ghost predicate Inv(s: System) {
    && OwnQueues(s)
    && QueuesOk(s.puts, s.replyQueues)
    && (forall i :: i in s.requesters ==> PhaseOk(s.puts, i, s.requesters[i]))
    && (forall j :: j in s.responders ==> AllAnswer(s.puts, s.responders[j].pending))
  }

  lemma MorePuts(puts: seq<PutRequest>, put: PutRequest, i: nat, phase: Phase, replies: seq<Reply>)
    ensures PhaseOk(puts, i, phase) ==> PhaseOk(puts + [put], i, phase)
    ensures AllAnswer(puts, replies) ==> AllAnswer(puts + [put], replies)
  {
  }

  lemma SetPhaseInv(s: System, i: nat, phase: Phase)
    requires Inv(s) && PhaseOk(s.puts, i, phase)
    ensures Inv(s.(requesters := s.requesters[i := phase]))
  {
  }

  lemma SetResponderInv(s: System, j: nat, r: Responder)
    requires Inv(s) && AllAnswer(s.puts, r.pending)
    ensures Inv(s.(responders := s.responders[j := r]))
  {
  }

  lemma SetQueuesInv(s: System, queues: map<string, seq<Reply>>)
    requires Inv(s) && QueuesOk(s.puts, queues)
    ensures Inv(s.(replyQueues := queues))
  {
  }

  lemma NamedInv(s: System, queue: string)
    requires Inv(s)
    ensures Inv(s.(named := s.named + {queue}))
  {
  }

  /** A new put leaves everything known about the earlier ones. */
  lemma PutInv(s: System, put: PutRequest)
    requires Inv(s) && put.replyQueue !in s.named && MqStr(put.message.replyToQ) == put.replyQueue
    ensures Inv(s.(named := s.named + {put.replyQueue}, puts := s.puts + [put], queued := s.queued + [|s.puts|]))
  {
    var puts := s.puts + [put];
    assert QueuesOk(puts, s.replyQueues) by {
      forall q | q in s.replyQueues ensures AllAnswer(puts, s.replyQueues[q]) {
        MorePuts(s.puts, put, 0, Idle, s.replyQueues[q]);
      }
    }
    forall i | i in s.requesters ensures PhaseOk(puts, i, s.requesters[i]) {
      MorePuts(s.puts, put, i, s.requesters[i], []);
    }
    forall j | j in s.responders ensures AllAnswer(puts, s.responders[j].pending) {
      MorePuts(s.puts, put, 0, Idle, s.responders[j].pending);
    }
  }

  lemma WaitingInv(s: System, i: nat, queue: string, put: nat, id: MqId)
    requires Inv(s) && PhaseOk(s.puts, i, Waiting(queue, put, id))
    ensures Inv(s.(replyQueues := s.replyQueues[queue := []], requesters := s.requesters[i := Waiting(queue, put, id)]))
  {
    var queues := s.replyQueues[queue := []];
    SetQueuesInv(s, queues);
    SetPhaseInv(s.(replyQueues := queues), i, Waiting(queue, put, id));
  }

  lemma PlaceInv(s: System, i: nat, queue: string, message: Message, fault: Fault)
    requires Inv(s) && queue !in s.named && MqStr(message.replyToQ) == queue && !fault.Before?
    ensures Inv(Place(s, i, queue, message, fault))
  {
    var put := PutRequest(i, queue, message);
    var visible := s.(named := s.named + {queue}, puts := s.puts + [put], queued := s.queued + [|s.puts|]);
    PutInv(s, put);
    if fault.Fine? {
      WaitingInv(visible, i, queue, |s.puts|, message.msgId);
    } else {
      SetPhaseInv(visible, i, AfterFailure(PhaseOf(s, i), fault.reason));
    }
  }

  lemma FailInv(s: System, i: nat, queue: string, phase: Phase)
    requires Inv(s) && (phase.Retrying? || phase.Gone?)
    ensures Inv(Fail(s, i, queue, phase))
  {
    NamedInv(s, queue);
    SetPhaseInv(s.(named := s.named + {queue}), i, phase);
  }

  lemma AttemptInv(s: System, e: Event)
    requires Inv(s) && e.Attempt?
    ensures Inv(NextAttempt(s, e))
  {
    var queue, phase := MqStr(e.name), PhaseOf(s, e.requester);
    var draft := RequestDraft(e.cmd, queue, s.queueManagerName);
    if e.fault.Before? {
      FailInv(s, e.requester, queue, AfterFailure(phase, e.fault.reason));
    } else if draft.Err? {
      FailInv(s, e.requester, queue, Gone);
    } else if queue !in s.named {
      MqStrIdempotent(e.name);
      PlaceInv(s, e.requester, queue, Stamp(draft.value, e.newId), e.fault);
    }
  }

  lemma {:induction false} PostOk(puts: seq<PutRequest>, queues: map<string, seq<Reply>>, replies: seq<Reply>)
    requires QueuesOk(puts, queues) && AllAnswer(puts, replies)
    ensures QueuesOk(puts, Post(queues, replies))
    decreases |replies|
  {
    if replies != [] {
      var r := replies[0];
      assert Answers(puts, r);
      PostOk(puts, if r.queue in queues then queues[r.queue := queues[r.queue] + [r]] else queues, replies[1..]);
    }
  }

  /** Whatever the handler's command says, the reply goes where the request asked, under the request's own identifier. */
  lemma AnswerOk(puts: seq<PutRequest>, to: nat, cmd: Command, newId: MqId)
    requires to < |puts| && MqStr(puts[to].message.replyToQ) == puts[to].replyQueue
    requires PublishDraft(ReplyCommand(Receive(puts[to].message, ""), cmd)).Ok?
    ensures var reply := ReplyCommand(Receive(puts[to].message, ""), cmd);
            Answers(puts, Reply(to, reply.destination, Stamp(PublishDraft(reply).value, newId)))
  {
  }

  /** A reply found on a waiting requester's queue answers that requester's put, since no other put names that queue. */
  lemma AwaitInv(s: System, i: nat)
    requires Inv(s)
    ensures Inv(Next(s, Await(i)))
  {
    var phase := PhaseOf(s, i);
    if phase.Waiting? && phase.queue in s.replyQueues {
      var replies := s.replyQueues[phase.queue];
      var k := FirstReply(replies, phase.id);
      if k < |replies| {
        assert PhaseOk(s.puts, i, phase);
        assert Answers(s.puts, replies[k]) && replies[k].queue == phase.queue;
        assert replies[k].to == phase.put;
        var received := Received(phase.put, replies[k], Receive(replies[k].message, phase.queue));
        SetPhaseInv(s, i, received);
        SetQueuesInv(s.(requesters := s.requesters[i := received]), s.replyQueues - {phase.queue});
      }
    }
  }

  lemma AnswerInv(s: System, e: Event)
    requires Inv(s) && e.Answer?
    ensures Inv(Next(s, e))
  {
    var r := ResponderOf(s, e.responder);
    if r.handling.Some? && r.handling.value < |s.puts| {
      var command := ReplyCommand(Receive(s.puts[r.handling.value].message, ""), e.cmd);
      if PublishDraft(command).Ok? {
        AnswerOk(s.puts, r.handling.value, e.cmd, e.newId);
        var reply := Reply(r.handling.value, command.destination, Stamp(PublishDraft(command).value, e.newId));
        SetResponderInv(s, e.responder, r.(pending := r.pending + [reply]));
      }
    }
  }

  lemma CommitInv(s: System, j: nat)
    requires Inv(s)
    ensures Inv(Next(s, Commit(j)))
  {
    var r := ResponderOf(s, j);
    PostOk(s.puts, s.replyQueues, r.pending);
    SetQueuesInv(s, Post(s.replyQueues, r.pending));
    SetResponderInv(s.(replyQueues := Post(s.replyQueues, r.pending)), j, Responder(None, [], []));
  }

  lemma NextInv(s: System, e: Event)
    requires Inv(s)
    ensures Inv(Next(s, e))
  {
    match e
    case Attempt(_, _, _, _, _) => AttemptInv(s, e);
    case Await(i) => AwaitInv(s, i);
    case GiveUp(i) =>
      SetPhaseInv(s, i, Gone);
      if PhaseOf(s, i).Waiting? {
        SetQueuesInv(s.(requesters := s.requesters[i := Gone]), s.replyQueues - {PhaseOf(s, i).queue});
      }
    case Deliver(j, k) =>
      if k < |s.queued| {
        var r := ResponderOf(s, j);
        SetResponderInv(s, j, r.(handling := Some(s.queued[k]), gets := r.gets + [s.queued[k]]));
      }
    case Answer(_, _, _) => AnswerInv(s, e);
    case Commit(j) => CommitInv(s, j);
    case Lose(j) => SetResponderInv(s, j, Responder(ResponderOf(s, j).handling, [], []));
  }

  lemma {:induction false} RunInv(s: System, events: seq<Event>)
    requires Inv(s)
    ensures Inv(Run(s, events))
    decreases |events|
  {
    if events != [] {
      NextInv(s, events[0]);
      RunInv(Next(s, events[0]), events[1..]);
    }
  }

  function Start(queueManagerName: string): System {
    System(queueManagerName, [], [], map[], {}, map[], map[])
  }

  /**
   Over every run, with any number of requesters and responders, redeliveries and repeated
   puts: a reply a requester receives was made from the very request it put, the one whose put
   succeeded, and carries that request's identifier.
   */
  lemma RepliesArePaired(queueManagerName: string, events: seq<Event>, i: nat)
    ensures var s := Run(Start(queueManagerName), events);
            PhaseOf(s, i).Received? ==>
              var p := PhaseOf(s, i);
              && p.put < |s.puts| && s.puts[p.put].requester == i
              && p.reply.to == p.put
              && p.raw == Receive(p.reply.message, s.puts[p.put].replyQueue)
              && p.raw.nativeCorrelationId == s.puts[p.put].message.msgId
  {
    RunInv(Start(queueManagerName), events);
    var s := Run(Start(queueManagerName), events);
    if i in s.requesters {
      assert PhaseOk(s.puts, i, s.requesters[i]);
    }
  }

  /** Two requesters never receive replies to the same put. */
  lemma RepliesAreNotShared(queueManagerName: string, events: seq<Event>, i: nat, j: nat)
    requires i != j
    ensures var s := Run(Start(queueManagerName), events);
            PhaseOf(s, i).Received? && PhaseOf(s, j).Received? ==> PhaseOf(s, i).reply.to != PhaseOf(s, j).reply.to
  {
    RepliesArePaired(queueManagerName, events, i);
    RepliesArePaired(queueManagerName, events, j);
  }
}
