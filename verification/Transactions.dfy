/**
 What each operation of `AsyncMQConnection` does to the client's work, over every pattern
 of faults: the reconnecting client refines a transactional one in which an operation
 takes effect once, or the open work is lost, or both.
 */
module Transactions {
  import opened Wrappers
  import opened MqIds
  import opened Messages
  import opened Mqi
  import opened Client
  import opened Handles

  /** A put joins the pending puts under syncpoint and is visible at once otherwise. */
  function AddTo(w: Work, syncpoint: bool, placed: seq<Parcel>): Work {
    if syncpoint then w.(puts := w.puts + placed) else w.(sent := w.sent + placed)
  }

  function LostIf(lost: bool, w: Work): Work {
    if lost then w.RolledBack() else w
  }

  /** A message the queue manager made of a draft. */
  ghost predicate IsCopyOf(f: Filling, parcel: Parcel) {
    f.draft.Ok? && exists id: MqId :: parcel == (f.queue, Stamp(f.draft.value, id))
  }

  /** And one it made of a publish command. */
  ghost predicate IsCopy(cmd: Command, parcel: Parcel) {
    IsCopyOf(ToPublish(cmd), parcel)
  }

  ghost predicate AllCopies(cmd: Command, placed: seq<Parcel>) {
    forall i :: 0 <= i < |placed| ==> IsCopy(cmd, placed[i])
  }

  // ---------- recovery ----------

  lemma CloseKeepsWork(s: State)
    requires Sound(s) && WorkOf(s.qm).Empty()
    ensures WorkOf(SafeCloseConsumer(s).qm) == WorkOf(s.qm)
  {
    if s.consumer.Some? { IdleCall(s.qm, s.consumer.value.connection); }
  }

  lemma DisconnectKeepsWork(s: State)
    requires WorkOf(s.qm).Empty()
    ensures WorkOf(SafeDisconnectQmgr(s).qm) == WorkOf(s.qm)
  {
  }

  lemma ConnectKeepsWork(s: State)
    requires WorkOf(s.qm).Empty()
    ensures WorkOf(ConnectSync(s).st.qm) == WorkOf(s.qm)
  {
  }

  /** An empty unit of work is all a recovery ever disconnects with, so the implicit commit of MQDISC commits nothing. */
  lemma RecoverKeepsWork(s: State, reopen: bool)
    requires Sound(s) && WorkOf(s.qm).Empty()
    ensures WorkOf(Recover(s, reopen).st.qm) == WorkOf(s.qm)
  {
    CloseKeepsWork(s);
    DisconnectKeepsWork(SafeCloseConsumer(s));
    ConnectKeepsWork(SafeDisconnectQmgr(SafeCloseConsumer(s)));
    ReconnectSound(s);
    var r := ConnectSync(SafeDisconnectQmgr(SafeCloseConsumer(s)));
    if r.out.Return? && reopen && s.consumerName != "" {
      OpenKeepsWork(r.st, s.consumerName);
    }
  }

  lemma OpenKeepsWork(s: State, queue: string)
    requires Sound(s) && WorkOf(s.qm).Empty()
    ensures WorkOf(OpenConsumer(s, queue).st.qm) == WorkOf(s.qm)
  {
    var closed := SafeCloseConsumer(s);
    ClosedSound(s);
    if s.consumer.Some? { IdleCall(s.qm, s.consumer.value.connection); }
    if s.qmgr.Some? { IdleCall(closed.qm, s.qmgr.value); }
  }

  // ---------- settling ----------

  lemma SettleOnceEffect(s: State, commit: bool)
    requires Sound(s)
    ensures var r := SettleOnce(s, commit);
            var w, w' := WorkOf(s.qm), WorkOf(r.st.qm);
            var done := if commit then w.Completed() else w.RolledBack();
            && (r.out.Return? ==> w' == done)
            && (r.out.Raise? && Retryable(r.out.exn) ==> w'.Empty() && (w' == done || w' == w.RolledBack()))
            && (w' == done || w' == w.RolledBack() || (w' == w && r.out.Raise? && !Retryable(r.out.exn)))
  {
    if s.qmgr.Some? { SettleCall(s.qm, s.qmgr.value, commit); }
  }

  /** What a settlement makes of the work, by what happens to its first MQCMIT or MQBACK. */
  function SettledWork(w: Work, commit: bool, fault: Fault): Work {
    if fault.Before? then LostIf(IsReconnectable(fault.reason), w)
    else if commit then w.Completed() else w.RolledBack()
  }

  lemma SettleOnceExactly(s: State, commit: bool)
    requires Sound(s)
    ensures var r, fault := SettleOnce(s, commit), NextTick(s.qm).fault;
            if s.qmgr.None? then r == Done(s, Raise(AssertionError))
            else WorkOf(r.st.qm) == SettledWork(WorkOf(s.qm), commit, fault)
                 && r.out == if fault.Fine? then Return(Nothing) else Raise(MqmiError(fault.reason))
  {
  }

  /**
   `commit` and `backout` exactly, recoveries and all: the fate of the first call decides. A
   call that takes effect settles the work, whatever is reported; one that fails before its
   effect loses it with the connection, or leaves it as it was.
   */
  lemma SettleExactly(s: State, commit: bool)
    requires Sound(s)
    ensures var w := WorkOf(s.qm);
            WorkOf(Perform(s, if commit then CommitOp else BackoutOp).st.qm) ==
            if s.executor && s.qmgr.Some? then SettledWork(w, commit, NextTick(s.qm).fault) else w
  {
    var op := if commit then CommitOp else BackoutOp;
    SettleOnceExactly(s, commit);
    SettleOnceEffect(s, commit);
    var first := Once(s, op);
    if s.executor && first.out.Raise? && Retryable(first.out.exn) {
      OnceSound(s, op);
      RecoverSound(first.st, Reopens(s, op));
      RecoverKeepsWork(first.st, Reopens(s, op));
      SettleAgain(Recover(first.st, Reopens(s, op)).st, commit);
    }
  }

  /** A commit that returns has consumed what the unit of work held exactly if its first MQCMIT was not lost before its effect. */
  lemma CommitConsumesExactly(s: State)
    requires Sound(s) && s.qm.gets != [] && Perform(s, CommitOp).out.Return?
    ensures Perform(s, CommitOp).st.qm.consumed == s.qm.consumed + s.qm.gets <==> !NextTick(s.qm).fault.Before?
    ensures NextTick(s.qm).fault.Before? ==> Perform(s, CommitOp).st.qm.consumed == s.qm.consumed
  {
    SettleExactly(s, true);
    SettleOnceExactly(s, true);
  }

  /**
   A settlement leaves its message in the unit of work exactly if the call fails before its
   effect without breaking the connection; every other call that raises has settled it or lost
   it to its queue.
   */
  lemma StrandsExactly(s: State, commit: bool)
    requires Sound(s) && s.executor && s.qmgr.Some? && s.qm.gets != []
    ensures var r, fault := Perform(s, if commit then CommitOp else BackoutOp), NextTick(s.qm).fault;
            && (r.st.qm.gets == s.qm.gets <==> fault.Before? && !IsReconnectable(fault.reason))
            && (r.st.qm.gets == s.qm.gets ==> r.out == Raise(MqmiError(fault.reason)) && WorkOf(r.st.qm) == WorkOf(s.qm))
            && (r.st.qm.gets != s.qm.gets ==> r.st.qm.gets == [])
  {
    SettleExactly(s, commit);
    SettleOnceExactly(s, commit);
  }

  /** Settling an empty unit of work changes nothing, so a repeated commit or backout is harmless. */
  lemma SettleAgain(s: State, commit: bool)
    requires Sound(s) && WorkOf(s.qm).Empty()
    ensures WorkOf(SettleOnce(s, commit).st.qm) == WorkOf(s.qm)
  {
    SettleOnceEffect(s, commit);
  }

  // ---------- getting ----------

  lemma GetCallEffect(m: QueueManager, connection: nat, queue: string) returns (taken: seq<Parcel>)
    requires m.live == Some(connection)
    ensures var (m1, got) := Get(m, connection, queue, None);
            var w, w' := WorkOf(m), WorkOf(m1);
            && m1.live == m.live && |taken| <= 1
            && (got.Return? ==> taken == [(queue, got.value)])
            && (got == Raise(MqmiError(NoMsgAvailable)) ==> taken == [])
            && (if got.Raise? && Retryable(got.exn) then w' == w.RolledBack() else w' == w.(gets := w.gets + taken))
  {
    var stored := Advance(m).stored;
    var i := FirstOn(stored, queue, None);
    taken := if i == |stored| || NextTick(m).fault.Before? then [] else [stored[i]];
  }

  lemma GetOnceEffect(s: State) returns (lost: bool, taken: seq<Parcel>)
    requires Sound(s)
    ensures var r := GetOnce(s);
            var w, w' := WorkOf(s.qm), WorkOf(r.st.qm);
            && w' == LostIf(lost, w).(gets := LostIf(lost, w).gets + taken) && |taken| <= 1
            && (r.out.Return? ==> r.out.value.Got? && !lost)
            && (r.out.Return? ==> match r.out.value.message
                                  case None => taken == []
                                  case Some(raw) => taken == [(s.consumerName, raw.metadata)] && raw == Receive(raw.metadata, s.consumerName))
            && (r.out.Raise? && Retryable(r.out.exn) ==> w'.Empty())
  {
    lost, taken := false, [];
    if s.qmgr.Some? && s.consumer.Some? {
      var (m1, handle) := Call(s.qm, s.qmgr.value, NoEffect);
      IdleCall(s.qm, s.qmgr.value);
      if handle.Raise? {
        lost := Retryable(handle.exn);
      } else {
        var (m2, got) := Get(m1, s.qmgr.value, s.consumerName, None);
        taken := GetCallEffect(m1, s.qmgr.value, s.consumerName);
        if got.Raise? {
          if Retryable(got.exn) {
            lost, taken := true, [];
          }
        } else {
          var (m3, read) := Call(m2, s.qmgr.value, NoEffect);
          IdleCall(m2, s.qmgr.value);
          if read.Raise? {
            SettleCall(m3, s.qmgr.value, false);
            var (m4, undone) := Settle(m3, s.qmgr.value, false);
            if WorkOf(m4) == WorkOf(s.qm).RolledBack() {
              lost, taken := true, [];
            }
          }
        }
      }
    }
  }

  /** What the get has taken when the properties come to be read. */
  function AfterTake(s: State): (QueueManager, Outcome<Message>)
    requires s.qmgr.Some? && s.consumer.Some?
  {
    Get(Call(s.qm, s.qmgr.value, NoEffect).0, s.consumer.value.connection, s.consumer.value.queue, None)
  }

  /**
   A message whose properties cannot be read does not stay with the client: unless the backout
   itself fails without breaking the connection, the unit of work is empty afterwards, and the
   error is the reader's if the backout worked and the backout's otherwise.
   */
  lemma UnreadableMessageGoesBack(s: State)
    requires Sound(s) && s.qmgr.Some? && s.consumer.Some?
    requires Call(s.qm, s.qmgr.value, NoEffect).1.Return? && AfterTake(s).1.Return?
    requires Call(AfterTake(s).0, s.qmgr.value, NoEffect).1.Raise?
    ensures var read := Call(AfterTake(s).0, s.qmgr.value, NoEffect);
            var undone := Settle(read.0, s.qmgr.value, false).1;
            var r := GetOnce(s);
            && r.out == Raise(if undone.Raise? then undone.exn else read.1.exn)
            && (undone.Return? || Retryable(undone.exn) || Retryable(read.1.exn) ==> WorkOf(r.st.qm) == WorkOf(s.qm).RolledBack())
  {
    var (m1, handle) := Call(s.qm, s.qmgr.value, NoEffect);
    IdleCall(s.qm, s.qmgr.value);
    var taken := GetCallEffect(m1, s.qmgr.value, s.consumerName);
    var (m2, got) := AfterTake(s);
    IdleCall(m2, s.qmgr.value);
    var m3 := Call(m2, s.qmgr.value, NoEffect).0;
    SettleCall(m3, s.qmgr.value, false);
  }

  /** `get_message`: at most one message joins the unit of work, on a normal return exactly the one that is returned; before that, earlier work may have been lost. */
  lemma GetEffect(s: State) returns (lost: bool, taken: seq<Parcel>)
    requires Sound(s)
    ensures var r := Perform(s, GetOp);
            var w, w' := WorkOf(s.qm), WorkOf(r.st.qm);
            && w' == LostIf(lost, w).(gets := LostIf(lost, w).gets + taken) && |taken| <= 1
            && (r.out.Return? ==> r.out.value.Got?)
            && (r.out.Return? ==> match r.out.value.message
                                  case None => taken == []
                                  case Some(raw) => taken == [(s.consumerName, raw.metadata)] && raw == Receive(raw.metadata, s.consumerName))
  {
    lost, taken := false, [];
    if s.executor {
      lost, taken := GetOnceEffect(s);
      var first := GetOnce(s);
      if first.out.Raise? && Retryable(first.out.exn) {
        OnceSound(s, GetOp);
        RecoverSound(first.st, true);
        RecoverKeepsWork(first.st, true);
        lost, taken := true, [];
        var again := Recover(first.st, true);
        if again.out.Return? {
          var lost2, taken2 := GetOnceEffect(again.st);
          taken := taken2;
        }
      }
    }
  }

  // ---------- publishing ----------

  lemma PutEffect(m: QueueManager, connection: nat, queue: string, draft: Message, syncpoint: bool) returns (lost: bool, placed: seq<Parcel>)
    requires m.live == Some(connection)
    ensures var (m1, out) := Put(m, connection, queue, draft, syncpoint);
            && m1.live == m.live && |placed| <= 1
            && WorkOf(m1) == AddTo(LostIf(lost, WorkOf(m)), syncpoint, placed)
            && (placed != [] ==> placed == [(queue, Stamp(draft, NextTick(m).newId))])
            && (out.Return? ==> !lost && placed == [(queue, out.value)])
            && (out.Raise? && Retryable(out.exn) ==> WorkOf(m1).Empty())
  {
    var fault := NextTick(m).fault;
    lost := !fault.Fine? && IsReconnectable(fault.reason);
    placed := if fault.Before? || (lost && syncpoint) then [] else [(queue, Stamp(draft, NextTick(m).newId))];
  }

  lemma FillAndPutEffect(m: QueueManager, connection: nat, f: Filling) returns (lost: bool, placed: seq<Parcel>)
    requires m.live == Some(connection)
    ensures var (m1, out) := FillAndPut(m, connection, f);
            && m1.live == m.live && |placed| <= 1 && (placed != [] ==> IsCopyOf(f, placed[0]))
            && WorkOf(m1) == AddTo(LostIf(lost, WorkOf(m)), f.syncpoint, placed)
            && (out.Return? ==> !lost && placed == [(f.queue, out.value)])
            && (out.Raise? && Retryable(out.exn) ==> WorkOf(m1).Empty())
  {
    lost, placed := false, [];
    if f.draft.Ok? {
      var (m1, handle) := if f.headers then Call(m, connection, NoEffect) else (m, Return(()));
      IdleCall(m, connection);
      if handle.Raise? {
        lost := Retryable(handle.exn);
      } else {
        lost, placed := PutEffect(m1, connection, f.queue, f.draft.value, f.syncpoint);
      }
    }
  }

  lemma PublishOnceEffect(s: State, cmd: Command) returns (lost: bool, placed: seq<Parcel>)
    requires Sound(s)
    ensures var r := PublishOnce(s, cmd);
            var w, w' := WorkOf(s.qm), WorkOf(r.st.qm);
            && |placed| <= 1 && AllCopies(cmd, placed)
            && w' == AddTo(LostIf(lost, w), cmd.syncpoint, placed)
            && (r.out.Return? ==> |placed| == 1 && !lost)
            && (r.out.Raise? && Retryable(r.out.exn) ==> w'.Empty())
  {
    lost, placed := false, [];
    if s.qmgr.Some? {
      var c := s.qmgr.value;
      var (m1, queue) := Call(s.qm, c, NoEffect);
      IdleCall(s.qm, c);
      if queue.Raise? {
        lost := Retryable(queue.exn);
      } else {
        lost, placed := FillAndPutEffect(m1, c, ToPublish(cmd));
        var (m2, put) := FillAndPut(m1, c, ToPublish(cmd));
        IdleCall(m2, c);
        var closed := Call(m2, c, NoEffect).1;
        if closed.Raise? && Retryable(closed.exn) {
          lost := true;
          if cmd.syncpoint { placed := []; }
        }
      }
    }
  }

  /** Two runs of a publish, the first of which lost its unit of work, add up to one run on lost work. */
  lemma AddTwice(w: Work, lost1: bool, placed1: seq<Parcel>, lost2: bool, placed2: seq<Parcel>, syncpoint: bool)
    requires AddTo(LostIf(lost1, w), syncpoint, placed1).Empty()
    ensures var w1 := AddTo(LostIf(lost1, w), syncpoint, placed1);
            && w1 == AddTo(w.RolledBack(), syncpoint, placed1)
            && AddTo(LostIf(lost2, w1), syncpoint, placed2) == AddTo(w.RolledBack(), syncpoint, placed1 + placed2)
    ensures syncpoint ==> placed1 == []
  {
    var w1 := AddTo(LostIf(lost1, w), syncpoint, placed1);
    assert w.sent + placed1 + placed2 == w.sent + (placed1 + placed2);
  }

  /** What the retry wrapper does after a publish has lost the connection. */
  lemma PublishAgain(s: State, cmd: Command, reopen: bool) returns (lost: bool, placed: seq<Parcel>)
    requires Sound(s) && WorkOf(s.qm).Empty()
    ensures var again := Recover(s, reopen);
            var r := if again.out.Raise? then Done(again.st, Raise(again.out.exn)) else Once(again.st, PublishOp(cmd));
            && AllCopies(cmd, placed) && |placed| <= 1
            && WorkOf(r.st.qm) == AddTo(LostIf(lost, WorkOf(s.qm)), cmd.syncpoint, placed)
            && (r.out.Return? ==> |placed| == 1)
  {
    RecoverSound(s, reopen);
    RecoverKeepsWork(s, reopen);
    lost, placed := false, [];
    var again := Recover(s, reopen);
    if again.out.Return? {
      lost, placed := PublishOnceEffect(again.st, cmd);
    }
  }

  /**
   `publish`: under syncpoint at most one copy is ever pending, because a repeated put follows
   a rolled-back one; outside syncpoint at most two copies become visible. A normal return
   means at least one.
   */
  lemma PublishEffect(s: State, cmd: Command) returns (lost: bool, placed: seq<Parcel>)
    requires Sound(s)
    ensures var r := Perform(s, PublishOp(cmd));
            var w, w' := WorkOf(s.qm), WorkOf(r.st.qm);
            && AllCopies(cmd, placed)
            && w' == AddTo(LostIf(lost, w), cmd.syncpoint, placed)
            && |placed| <= (if cmd.syncpoint then 1 else 2)
            && (r.out.Return? ==> |placed| >= 1)
  {
    lost, placed := false, [];
    if s.executor {
      lost, placed := PublishOnceEffect(s, cmd);
      var op := PublishOp(cmd);
      var first := Once(s, op);
      if first.out.Raise? && Retryable(first.out.exn) {
        OnceSound(s, op);
        var lost2, placed2 := PublishAgain(first.st, cmd, Reopens(s, op));
        AddTwice(WorkOf(s.qm), lost, placed, lost2, placed2, cmd.syncpoint);
        lost, placed := true, placed + placed2;
      }
    }
  }

  // ---------- how often the queue manager is asked ----------

  lemma CloseTally(s: State)
    ensures TallyOf(SafeCloseConsumer(s).qm) == TallyOf(s.qm)
  {
    if s.consumer.Some? { CallTally(s.qm, s.consumer.value.connection, NoEffect); }
  }

  lemma ReconnectTally(s: State)
    ensures var t := TallyOf(s.qm); TallyOf(ConnectSync(SafeDisconnectQmgr(s)).st.qm) == t.(connects := t.connects + 1)
  {
    assert TallyOf(SafeDisconnectQmgr(s).qm) == TallyOf(s.qm);
  }

  /** Every recovery is one attempt to connect, and asks for nothing else that is counted. */
  lemma RecoverTally(s: State, reopen: bool)
    ensures var t := TallyOf(s.qm); TallyOf(Recover(s, reopen).st.qm) == t.(connects := t.connects + 1)
  {
    CloseTally(s);
    ReconnectTally(SafeCloseConsumer(s));
    var r := ConnectSync(SafeDisconnectQmgr(SafeCloseConsumer(s)));
    if r.out.Return? && reopen && s.consumerName != "" {
      OpenTally(r.st, s.consumerName);
    }
  }

  lemma OpenTally(s: State, queue: string)
    ensures TallyOf(OpenConsumer(s, queue).st.qm) == TallyOf(s.qm)
  {
    if s.consumer.Some? { CallTally(s.qm, s.consumer.value.connection, NoEffect); }
    if s.qmgr.Some? { CallTally(SafeCloseConsumer(s).qm, s.qmgr.value, NoEffect); }
  }

  lemma SettleTally(m: QueueManager, connection: nat, commit: bool)
    ensures var t := TallyOf(m); TallyOf(Settle(m, connection, commit).0) == t.(settles := t.settles + 1)
  {
    CallTally(m.(settleCalls := m.settleCalls + 1), connection, if commit then CommitWork else BackoutWork);
  }

  /** The put counts of a step that may reach one put, and does if it returns. */
  predicate OnePut(m: QueueManager, m': QueueManager, returned: bool) {
    var t, t' := TallyOf(m), TallyOf(m');
    t' == t.(puts := t'.puts) && t.puts <= t'.puts <= t.puts + 1 && (returned ==> t'.puts == t.puts + 1)
  }

  lemma FillAndPutTally(m: QueueManager, connection: nat, f: Filling)
    ensures var (m', out) := FillAndPut(m, connection, f); OnePut(m, m', out.Return?)
  {
    if f.draft.Ok? {
      CallTally(m, connection, NoEffect);
      var m1 := if f.headers then Call(m, connection, NoEffect).0 else m;
      CallTally(m1.(putCalls := m1.putCalls + 1), connection, Place(f.queue, Stamp(f.draft.value, NextTick(m1).newId), f.syncpoint));
    }
  }

  lemma PublishOnceTally(s: State, cmd: Command)
    ensures var r := PublishOnce(s, cmd); OnePut(s.qm, r.st.qm, r.out.Return?)
  {
    if s.qmgr.Some? {
      var c := s.qmgr.value;
      var m1 := Call(s.qm, c, NoEffect).0;
      CallTally(s.qm, c, NoEffect);
      FillAndPutTally(m1, c, ToPublish(cmd));
      CallTally(FillAndPut(m1, c, ToPublish(cmd)).0, c, NoEffect);
    }
  }

  lemma GetOnceTally(s: State)
    ensures TallyOf(GetOnce(s).st.qm).connects == s.qm.connectCalls
  {
    if s.qmgr.Some? && s.consumer.Some? {
      var c, h := s.qmgr.value, s.consumer.value;
      var m1 := Call(s.qm, c, NoEffect).0;
      CallTally(s.qm, c, NoEffect);
      var m2 := Get(m1, h.connection, h.queue, None).0;
      CallTally(m1, h.connection, Take(h.queue));
      CallTally(m2, c, NoEffect);
      SettleTally(Call(m2, c, NoEffect).0, c, false);
    }
  }

  lemma SettleOnceTally(s: State, commit: bool)
    ensures var t := TallyOf(s.qm);
            TallyOf(SettleOnce(s, commit).st.qm) == t.(settles := t.settles + if s.qmgr.Some? then 1 else 0)
  {
    if s.qmgr.Some? { SettleTally(s.qm, s.qmgr.value, commit); }
  }

  lemma OnceTally(s: State, op: Op)
    ensures TallyOf(Once(s, op).st.qm).connects == s.qm.connectCalls
  {
    match op
    case PingOp => if s.qmgr.Some? { CallTally(s.qm, s.qmgr.value, NoEffect); }
    case CommitOp => SettleOnceTally(s, true);
    case BackoutOp => SettleOnceTally(s, false);
    case StartOp(queue) => OpenTally(s, queue);
    case PublishOp(cmd) => PublishOnceTally(s, cmd);
    case GetOp => GetOnceTally(s);
  }

  /** Whether the first run of an operation ended in a reconnectable failure. */
  predicate FirstRunBreaks(s: State, op: Op) {
    var s1 := Remember(s, op);
    s.executor && (op.PingOp? ==> s.qmgr.Some?) && Once(s1, op).out.Raise? && Retryable(Once(s1, op).out.exn)
  }

  /** The retry wrapper attempts one recovery exactly when the first run broke the connection, and never more than one. */
  lemma RetryBound(s: State, op: Op)
    ensures TallyOf(Perform(s, op).st.qm).connects == s.qm.connectCalls + if FirstRunBreaks(s, op) then 1 else 0
  {
    var s1 := Remember(s, op);
    OnceTally(s1, op);
    var first := Once(s1, op);
    var reopen := if op.PingOp? then false else Reopens(s1, op);
    RecoverTally(first.st, reopen);
    OnceTally(Recover(first.st, reopen).st, op);
  }

  /** A settlement is asked for twice exactly when its first run broke the connection and the recovery then succeeded. */
  lemma SettlementBound(s: State, commit: bool)
    requires s.executor && s.qmgr.Some?
    ensures var op := if commit then CommitOp else BackoutOp;
            TallyOf(Perform(s, op).st.qm).settles == s.qm.settleCalls +
              if FirstRunBreaks(s, op) && !RecoveryFailed(s, op) then 2 else 1
  {
    var op := if commit then CommitOp else BackoutOp;
    SettleOnceTally(s, commit);
    var first := Once(s, op);
    RecoverTally(first.st, Reopens(s, op));
    var again := Recover(first.st, Reopens(s, op));
    if again.out.Return? {
      RecoveredConnected(first.st, Reopens(s, op));
      SettleOnceTally(again.st, commit);
    }
  }

  lemma RecoveredConnected(s: State, reopen: bool)
    requires Recover(s, reopen).out.Return?
    ensures Recover(s, reopen).st.qmgr.Some?
  {
  }

  /** A publish that needs no recovery asks for one put at most; with a recovery, two. */
  lemma PublishPuts(s: State, cmd: Command)
    ensures var t, t' := TallyOf(s.qm), TallyOf(Perform(s, PublishOp(cmd)).st.qm);
            && t.puts <= t'.puts <= t.puts + 2
            && (t'.puts == t.puts + 2 ==> t'.connects == t.connects + 1)
            && (Perform(s, PublishOp(cmd)).out.Return? ==> t'.puts >= t.puts + 1)
  {
    var op := PublishOp(cmd);
    PublishOnceTally(s, cmd);
    var first := Once(s, op);
    RecoverTally(first.st, Reopens(s, op));
    PublishOnceTally(Recover(first.st, Reopens(s, op)).st, cmd);
  }
}
