/**
 A request on a connection on which nothing fails, while others put what they like: it is put, and
 its reply is returned if and only if it is there.
 */
module Answers {
  import opened Wrappers
  import opened MqIds
  import opened HeaderNames
  import opened Messages
  import opened Mqi
  import opened Client
  import opened Handles
  import opened Transactions
  import opened Requests
  import opened RpcRefinement

  /** Only arrivals are to come. */
  ghost predicate FaultFree(m: QueueManager) {
    forall i :: 0 <= i < |m.script| ==> m.script[i].fault.Fine?
  }

  /** The connection is up. */
  ghost predicate Up(m: QueueManager, connection: nat) {
    m.live == Some(connection) && FaultFree(m)
  }

  lemma FineCall(m: QueueManager, connection: nat, effect: Effect)
    requires Up(m, connection)
    ensures Call(m, connection, effect) == (Apply(Advance(m), effect), Return(())) && Up(Apply(Advance(m), effect), connection)
  {
  }

  /** What is there when time has passed: everything that was, and what has arrived. */
  lemma StillStored(m: QueueManager)
    ensures Advance(m).stored == m.stored + NextTick(m).arrivals
  {
  }

  // ---------- the put ----------

  /** What a filling puts: its message, or nothing if an identifier cannot be converted. */
  lemma FineFill(m: QueueManager, connection: nat, f: Filling) returns (message: Message, before: seq<Parcel>)
    requires Up(m, connection)
    ensures var (m1, out) := FillAndPut(m, connection, f);
            && Up(m1, connection)
            && (f.draft.Err? ==> m1 == m && out == Raise(ValueError))
            && (f.draft.Ok? && !f.syncpoint ==>
                  && out == Return(message) && IsCopyOf(f, (f.queue, message))
                  && m1.sent == m.sent + [(f.queue, message)] && m1.gets == m.gets && m1.consumed == m.consumed
                  && m1.stored == m.stored + before + [(f.queue, message)])
  {
    before := [];
    if f.draft.Err? {
      message := Message([], [], [], "", "", []);
    } else {
      var m1 := if f.headers then Call(m, connection, NoEffect).0 else m;
      FineCall(m, connection, NoEffect);
      StillStored(m);
      message := Stamp(f.draft.value, NextTick(m1).newId);
      FinePut(m1, connection, f.queue, f.draft.value, f.syncpoint);
      var early := if f.headers then NextTick(m).arrivals else [];
      before := early + NextTick(m1).arrivals;
      assert m1.stored == m.stored + early;
      Joined(m.stored, early, NextTick(m1).arrivals);
    }
  }

  lemma FinePut(m: QueueManager, connection: nat, queue: string, draft: Message, syncpoint: bool)
    requires Up(m, connection)
    ensures var (m1, out) := Put(m, connection, queue, draft, syncpoint);
            var message := Stamp(draft, NextTick(m).newId);
            && out == Return(message) && Up(m1, connection)
            && (!syncpoint ==>
                  && m1.sent == m.sent + [(queue, message)] && m1.gets == m.gets && m1.consumed == m.consumed
                  && m1.stored == m.stored + NextTick(m).arrivals + [(queue, message)])
  {
    var counted := m.(putCalls := m.putCalls + 1);
    FineCall(counted, connection, Place(queue, Stamp(draft, NextTick(m).newId), syncpoint));
    StillStored(counted);
  }

  /** The name of the reply queue. */
  function ReplyQueueName(st: State): string {
    MqStr(NextTick(st.qm).newName)
  }

  /** One attempt: the request lies on its destination, behind what was there and what has arrived. */
  lemma FineAttempt(st: State, cmd: Command) returns (message: Message, before: seq<Parcel>)
    requires st.qmgr.Some? && Up(st.qm, st.qmgr.value)
    ensures var q, a := ReplyQueueName(st), TryRequest(st.qm, st.qmgr.value, cmd, st.queueManagerName);
            var f := ToRequest(cmd, q, st.queueManagerName);
            && Up(a.qm, st.qmgr.value) && a.replyQueue == Some(q) && a.queueOpen
            && a.qm.gets == st.qm.gets && a.qm.consumed == st.qm.consumed
            && (if f.draft.Err? then a.out == Raise(ValueError) && a.qm.sent == st.qm.sent
                else
                  && a.out == Return(message.msgId) && IsCopyOf(f, (cmd.destination, message))
                  && a.qm.sent == st.qm.sent + [(cmd.destination, message)]
                  && a.qm.stored == st.qm.stored + before + [(cmd.destination, message)])
  {
    var c := st.qmgr.value;
    var arrived := FineOpen(st.qm, c);
    var m2 := Call(OpenDynamic(st.qm, c).0, c, NoEffect).0;
    var later;
    message, later := FineFill(m2, c, ToRequest(cmd, ReplyQueueName(st), st.queueManagerName));
    before := arrived + later;
    Joined(st.qm.stored, arrived, later);
    AttemptShape(st, cmd);
  }

  lemma Joined(a: seq<Parcel>, b: seq<Parcel>, c: seq<Parcel>)
    ensures a + b + c == a + (b + c)
  {
  }

  /** An attempt whose queues both open is what its filling is. */
  lemma AttemptShape(st: State, cmd: Command)
    requires st.qmgr.Some?
    requires var (m1, name) := OpenDynamic(st.qm, st.qmgr.value);
             name.Return? && Call(m1, st.qmgr.value, NoEffect).1.Return?
    ensures var c, q, a := st.qmgr.value, ReplyQueueName(st), TryRequest(st.qm, st.qmgr.value, cmd, st.queueManagerName);
            var (m3, put) := FillAndPut(Call(OpenDynamic(st.qm, c).0, c, NoEffect).0, c, ToRequest(cmd, q, st.queueManagerName));
            a == Attempt(m3, Some(q), true, if put.Raise? then Raise(put.exn) else Return(put.value.msgId))
  {
  }

  /** Opening the reply queue and the destination. */
  lemma FineOpen(m: QueueManager, connection: nat) returns (arrived: seq<Parcel>)
    requires Up(m, connection)
    ensures var (m1, name) := OpenDynamic(m, connection);
            var (m2, there) := Call(m1, connection, NoEffect);
            && name == Return(NextTick(m).newName) && there.Return? && Up(m2, connection)
            && m2.stored == m.stored + arrived && m2.gets == m.gets && m2.consumed == m.consumed && m2.sent == m.sent
  {
    FineCall(m, connection, NoEffect);
    StillStored(m);
    var m1 := OpenDynamic(m, connection).0;
    assert Up(m1, connection);
    FineCall(m1, connection, NoEffect);
    StillStored(m1);
    arrived := NextTick(m).arrivals + NextTick(m1).arrivals;
    assert m.stored + arrived == m.stored + NextTick(m).arrivals + NextTick(m1).arrivals;
  }

  /** The request is published in one attempt, and returned under the identifier and the queue it was put with. */
  lemma FinePublish(st: State, cmd: Command) returns (message: Message, before: seq<Parcel>)
    requires st.qmgr.Some? && Up(st.qm, st.qmgr.value)
    ensures var q, r := ReplyQueueName(st), PublishRequest(st, cmd, 0);
            var f := ToRequest(cmd, q, st.queueManagerName);
            && r.st == st.(qm := r.st.qm) && Up(r.st.qm, st.qmgr.value)
            && r.st.qm.gets == st.qm.gets && r.st.qm.consumed == st.qm.consumed
            && (if f.draft.Err? then r.out == Raise(ValueError) && r.st.qm.sent == st.qm.sent
                else
                  && r.out == Return(Published(Handle(st.qmgr.value, q), message.msgId))
                  && IsCopyOf(f, (cmd.destination, message))
                  && r.st.qm.sent == st.qm.sent + [(cmd.destination, message)]
                  && exists after :: r.st.qm.stored == st.qm.stored + before + [(cmd.destination, message)] + after)
  {
    message, before := FineAttempt(st, cmd);
    var c := st.qmgr.value;
    var a := TryRequest(st.qm, c, cmd, st.queueManagerName);
    FineClose(a.qm, c, a);
    StillStored(a.qm);
    if a.out.Return? {
      assert PublishRequest(st, cmd, 0).st.qm.stored
          == st.qm.stored + before + [(cmd.destination, message)] + NextTick(a.qm).arrivals;
    }
  }

  /** Closing what an attempt opened. */
  lemma FineClose(m: QueueManager, connection: nat, a: Attempt)
    requires Up(m, connection) && a.queueOpen
    ensures var m1 := CloseAttempt(m, connection, a);
            && Up(m1, connection) && m1.gets == m.gets && m1.consumed == m.consumed && m1.sent == m.sent
            && (a.out.Return? ==> m1 == Advance(m))
  {
    FineCall(m, connection, NoEffect);
    if a.replyQueue.Some? {
      var m1 := Advance(m);
      var asked := m1.(unclosed := m1.unclosed - multiset{a.replyQueue.value});
      assert Up(asked, connection);
      FineCall(asked, connection, NoEffect);
    }
  }

  // ---------- the reply ----------

  /** The place of the reply: the first message on the reply queue with the request's identifier as its correlation id. */
  function ReplyAt(stored: seq<Parcel>, p: Published): (i: nat)
    ensures i <= |stored|
  {
    FirstOn(stored, p.replyHandle.queue, Some(p.requestId))
  }

  lemma ReplyAtIsFirst(stored: seq<Parcel>, p: Published)
    ensures var i := ReplyAt(stored, p);
            && (i < |stored| ==> stored[i].0 == p.replyHandle.queue && stored[i].1.correlId == p.requestId)
            && forall j :: 0 <= j < i ==> !(stored[j].0 == p.replyHandle.queue && stored[j].1.correlId == p.requestId)
  {
  }

  /** The wait returns the reply, taken from its queue for good, or times out and takes nothing: the one if it is there, the other if not. */
  lemma FineWait(st: State, p: Published)
    requires st.qmgr.Some? && Up(st.qm, st.qmgr.value) && p.replyHandle.connection == st.qmgr.value
    ensures var r, m := WaitForReply(st, p), AtWait(st);
            var i := ReplyAt(m.stored, p);
            && r.st == st.(qm := r.st.qm) && Up(r.st.qm, st.qmgr.value)
            && (if i == |m.stored| then r.out == Raise(TimeoutError) && r.st.qm == m
                else
                  && r.out == Return(Receive(m.stored[i].1, p.replyHandle.queue))
                  && r.st.qm == Advance(Apply(m, TakeReply(p.replyHandle.queue, p.requestId)))
                  && r.st.qm.consumed == m.consumed + [m.stored[i]])
  {
    var c := st.qmgr.value;
    FineCall(st.qm, c, NoEffect);
    var m1 := Call(st.qm, c, NoEffect).0;
    FineCall(m1, c, TakeReply(p.replyHandle.queue, p.requestId));
    var m2 := Call(m1, c, TakeReply(p.replyHandle.queue, p.requestId)).0;
    FineCall(m2, c, NoEffect);
  }

  /** `_request_sync` on a connection that is up: what comes of the wait is what comes of the request. */
  lemma FineFinish(st: State, cmd: Command)
    requires st.executor && st.qmgr.Some? && Up(st.qm, st.qmgr.value)
    requires PublishRequest(st, cmd, 0).out.Return?
    requires var r := PublishRequest(st, cmd, 0);
             var out := WaitForReply(r.st, r.out.value).out; out.Raise? ==> !Retryable(out.exn)
    ensures var r := PublishRequest(st, cmd, 0); RequestSync(st, cmd).out == WaitForReply(r.st, r.out.value).out
  {
  }

  /**
   A request, with nothing failing and anything arriving: if its identifiers can be converted it is
   put, with its reply queue and under the identifier its reply is awaited with, and it returns the
   reply if one lies on the reply queue when it comes to look, and times out if and only if none
   does; if they cannot, it raises and puts nothing.
   */
  lemma RequestIsAnswered(st: State, cmd: Command)
    requires st.executor && st.qmgr.Some? && Up(st.qm, st.qmgr.value)
    ensures var q, r := ReplyQueueName(st), PublishRequest(st, cmd, 0);
            var f, out := ToRequest(cmd, q, st.queueManagerName), RequestSync(st, cmd).out;
            if f.draft.Err? then out == Raise(ValueError) && RequestSync(st, cmd).st.qm.sent == st.qm.sent
            else
              && r.out.Return? && r.out.value.replyHandle == Handle(st.qmgr.value, q)
              && IsPlaced(st, cmd, r.out.value, r.st.qm.sent) && |r.st.qm.sent| == |st.qm.sent| + 1
              && r.st.qm.sent[|st.qm.sent|] in r.st.qm.stored
              && r.st.qmgr.Some?
              && var stored := AtWait(r.st).stored;
                 var i := ReplyAt(stored, r.out.value);
                 out == if i < |stored| then Return(Receive(stored[i].1, q)) else Raise(TimeoutError)
  {
    var q, r := ReplyQueueName(st), PublishRequest(st, cmd, 0);
    var f := ToRequest(cmd, q, st.queueManagerName);
    var message, before := FinePublish(st, cmd);
    if f.draft.Ok? {
      FineWait(r.st, r.out.value);
      FineFinish(st, cmd);
      FinePlaced(st, cmd, q, message);
    }
  }

  lemma FinePlaced(st: State, cmd: Command, q: string, message: Message)
    requires IsCopyOf(ToRequest(cmd, q, st.queueManagerName), (cmd.destination, message))
    requires st.qmgr.Some?
    ensures IsPlaced(st, cmd, Published(Handle(st.qmgr.value, q), message.msgId), st.qm.sent + [(cmd.destination, message)])
  {
    var sent := st.qm.sent + [(cmd.destination, message)];
    assert sent[|sent| - 1] == (cmd.destination, message);
    assert message.replyToQ == q;
  }
}
