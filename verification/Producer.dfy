/**
 `AsyncMQFastProducerImpl` (faststream_mq/publisher/producer.py:90-174) and the retry loop
 of `MQBroker._connect` (faststream_mq/broker/broker.py:164-181). The producer publishes and
 requests on two connections of its own, neither of which ever has a consumer: the only
 connections on which recovering without reopening can happen.
 */
module Producer {
  import opened Wrappers
  import opened Messages
  import opened Mqi
  import opened Client
  import opened Handles
  import opened Startup
  import opened Stopping

  class AsyncMQFastProducer {
    var publishConnection: AsyncMQConnection?
    var requestConnection: AsyncMQConnection?
    var configured: bool   // there is a `_connection_config`
    const tls: bool
    const queueManagerName: string

    constructor (tls: bool, queueManagerName: string)
      ensures publishConnection == null && requestConnection == null && !configured && Valid()
    {
      publishConnection, requestConnection, configured := null, null, false;
      this.tls, this.queueManagerName := tls, queueManagerName;
    }

    /** Two different connections, neither with a consumer. */
    ghost predicate Valid()
      reads this, publishConnection, requestConnection
    {
      && (publishConnection != null ==> Sound(publishConnection.Now()) && NoConsumer(publishConnection.Now()))
      && (requestConnection != null ==> Sound(requestConnection.Now()) && NoConsumer(requestConnection.Now()))
      && (publishConnection != null ==> publishConnection != requestConnection)
    }

    /** `connect`; the queue manager is handed to the new connection as it stands. */
    method Connect(qm: QueueManager) returns (out: Outcome<()>)
      requires qm.live.None? && Balanced(qm)
      modifies this
      ensures Valid() && configured && publishConnection != null && fresh(publishConnection) && requestConnection == null
      ensures Done(publishConnection.Now(), out) == Connected(State(false, None, None, "", false, tls, queueManagerName, qm))
    {
      configured := true;
      publishConnection := new AsyncMQConnection(tls, queueManagerName, qm);
      requestConnection := null;
      ghost var s := publishConnection.Now();
      ConnectSound(s.(executor := true));
      out := publishConnection.ConnectAsync();
    }

    method DisconnectAll()
      requires Valid()
      modifies this, publishConnection, requestConnection
      ensures publishConnection == null && requestConnection == null && !configured
      ensures old(publishConnection) != null ==> old(publishConnection).Now() == Disconnected(old(publishConnection.Now()))
      ensures old(requestConnection) != null ==> old(requestConnection).Now() == Disconnected(old(requestConnection.Now()))
    {
      if publishConnection != null {
        publishConnection.DisconnectAsync();
      }
      if requestConnection != null {
        requestConnection.DisconnectAsync();
      }
      publishConnection, requestConnection, configured := null, null, false;
    }

    method Publish(cmd: Command) returns (out: Outcome<Reply>)
      requires Valid()
      modifies publishConnection
      ensures Valid()
      ensures publishConnection == null ==> out == Raise(AssertionError)
      ensures publishConnection != null ==> Done(publishConnection.Now(), out) == Perform(old(publishConnection.Now()), PublishOp(cmd))
    {
      if publishConnection == null {
        return Raise(AssertionError);
      }
      PerformSound(publishConnection.Now(), PublishOp(cmd));
      PerformWithoutConsumer(publishConnection.Now(), PublishOp(cmd));
      out := publishConnection.Publish(cmd);
    }

    method Ping() returns (alive: bool)
      requires Valid()
      modifies publishConnection
      ensures Valid()
      ensures publishConnection == null ==> !alive
      ensures publishConnection != null ==> Done(publishConnection.Now(), Return(Alive(alive))) == Perform(old(publishConnection.Now()), PingOp)
    {
      if publishConnection == null {
        return false;
      }
      PerformSound(publishConnection.Now(), PingOp);
      PerformWithoutConsumer(publishConnection.Now(), PingOp);
      alive := publishConnection.Ping();
    }

    /** `_get_request_connection`: made on first use, and kept even if connecting it fails; before `connect` there is nothing to make it from. */
    method GetRequestConnection(qm: QueueManager) returns (out: Outcome<()>)
      requires Valid() && qm.live.None? && Balanced(qm)
      modifies this
      ensures Valid() && publishConnection == old(publishConnection) && configured == old(configured)
      ensures old(requestConnection) != null ==> out.Return? && requestConnection == old(requestConnection)
      ensures old(requestConnection) == null && !configured ==> out == Raise(AssertionError) && requestConnection == null
      ensures old(requestConnection) == null && configured ==>
        && requestConnection != null && fresh(requestConnection)
        && Done(requestConnection.Now(), out) == Connected(State(false, None, None, "", false, tls, queueManagerName, qm))
    {
      out := Return(());
      if requestConnection == null {
        if !configured {
          return Raise(AssertionError);
        }
        requestConnection := new AsyncMQConnection(tls, queueManagerName, qm);
        ghost var s := requestConnection.Now();
        ConnectSound(s.(executor := true));
        out := requestConnection.ConnectAsync();
      }
    }

    /** `request` never touches the publish connection. */
    method Request(cmd: Command, qm: QueueManager) returns (out: Outcome<RawMessage>)
      requires Valid() && qm.live.None? && Balanced(qm)
      modifies this, requestConnection
      ensures Valid() && publishConnection == old(publishConnection)
      ensures publishConnection != null ==> publishConnection.Now() == old(publishConnection.Now())
      ensures old(requestConnection) != null ==>
        requestConnection == old(requestConnection) && Done(requestConnection.Now(), out) == RequestSync(old(requestConnection.Now()), cmd)
      ensures old(requestConnection) == null && !configured ==> out == Raise(AssertionError) && requestConnection == null
      ensures old(requestConnection) == null && configured ==>
        && requestConnection != null
        && var first := Connected(State(false, None, None, "", false, tls, queueManagerName, qm));
           if first.out.Raise? then requestConnection.Now() == first.st && out == Raise(first.out.exn)
           else Done(requestConnection.Now(), out) == RequestSync(first.st, cmd)
    {
      var connected := GetRequestConnection(qm);
      if connected.Raise? {
        return Raise(connected.exn);
      }
      RequestSound(requestConnection.Now(), cmd);
      RequestWithoutConsumer(requestConnection.Now(), cmd);
      out := requestConnection.Request(cmd);
    }
  }

  /** A failed attempt to connect has used up part of the script of faults. */
  lemma FailedConnectUsesScript(s: State)
    requires s.qmgr.None? && ConnectSync(s).out.Raise?
    ensures |ConnectSync(s).st.qm.script| < |s.qm.script|
  {
  }

  class MQBroker {
    const producer: AsyncMQFastProducer

    constructor (producer: AsyncMQFastProducer)
      ensures this.producer == producer
    {
      this.producer := producer;
    }

    /**
     `_connect`: at most ceil(timeout / interval) + 1 attempts, exactly one if the timeout is
     not positive, and none after an error that is not retryable; a retryable error is raised only
     if the timeout is not positive or has passed. `failures` lists the errors
     of the attempts that failed. Each attempt makes new connections; the queue manager `qm`
     goes on where the last attempt left it, with no connection that anyone holds.
     */
    method Connect(qm: QueueManager, timeout: real, interval: real, clock: Clock) returns (out: Outcome<()>, failures: seq<Exn>)
      requires qm.live.None? && Balanced(qm)
      modifies producer, clock
      ensures out.Raise? && Retryable(out.exn) ==> timeout <= 0.0 || clock.now >= old(clock.now) + timeout
      ensures producer.Valid() && producer.publishConnection != null
      ensures out.Return? ==> producer.publishConnection.qmgr.Some?
      ensures var attempts := |failures| + if out.Return? then 1 else 0;
        && attempts >= 1 && producer.publishConnection.qm.connectCalls == qm.connectCalls + attempts
        && (timeout <= 0.0 ==> attempts == 1)
        && (timeout > 0.0 && interval > 0.0 ==> attempts <= MaxAttempts(timeout, interval))
      ensures forall i :: 0 <= i < |failures| - 1 ==> Retryable(failures[i])
      ensures out.Raise? ==> failures != [] && out.exn == failures[|failures| - 1]
      ensures out.Return? ==> forall i :: 0 <= i < |failures| ==> Retryable(failures[i])
    {
      var start := clock.Monotonic();
      var deadline := start + timeout;
      var now := start;
      var world := qm;
      failures := [];
      while true
        invariant world.live.None? && Balanced(world) && world.connectCalls == qm.connectCalls + |failures|
        invariant old(clock.now) <= start <= now <= clock.now && (interval > 0.0 ==> OnSchedule(|failures|, now - start, timeout, interval))
        invariant timeout <= 0.0 ==> failures == []
        invariant forall i :: 0 <= i < |failures| ==> Retryable(failures[i])
        decreases |world.script|
      {
        if timeout > 0.0 && interval > 0.0 {
          AttemptsBounded(|failures|, now - start, timeout, interval);
        }
        out := producer.Connect(world);
        if out.Return? {
          return;
        }
        failures := failures + [out.exn];
        if !Retryable(out.exn) {
          return;
        }
        now := clock.Monotonic();
        if timeout <= 0.0 || now >= deadline {
          return;
        }
        FailedConnectUsesScript(State(true, None, None, "", false, producer.tls, producer.queueManagerName, world));
        AbandonedSound(producer.publishConnection.qm);
        world := Abandon(producer.publishConnection.qm);
        ghost var before := now - start;
        clock.Sleep(interval);
        now := clock.now;
        if interval > 0.0 {
          SleptOnceMore(|failures| - 1, before, now - start, timeout, interval);
        }
      }
    }
  }

  /** A connection the client does not hold ends on the server sooner or later, and is rolled back. */
  function Abandon(m: QueueManager): QueueManager {
    Rollback(m).(live := None)
  }

  lemma AbandonedSound(m: QueueManager)
    requires Balanced(m)
    ensures Balanced(Abandon(m)) && Abandon(m).live.None? && Abandon(m).script == m.script
  {
    RollbackBalanced(m);
    SameParcelsBalanced(Rollback(m), Abandon(m));
  }
}
