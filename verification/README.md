# Consume, reply and request over IBM MQ

A Dafny model of the transactional protocol that FastStream's IBM MQ adapter runs over a queue manager,
and of the recovery of its client. One connection takes a message under syncpoint, a handler works on it,
the reply is put under syncpoint on the same connection, and the delivery is settled by commit or backout;
any call on the way may lose the connection, and a retry wrapper then disconnects, reconnects, reopens the
consumer and repeats the call once. The theorems are about whole runs with a fault before or after the
effect of any call: no message is lost, a reply is visible at most once and never without its delivery's
acknowledgement, a returned reply belongs to the very request that was put, a request is not put again
after a put that returned, and no handle outlives its connection. Two codecs (header names and 24-byte
identifiers), the property cursor loop and the startup retry loops are proved exactly.

`dafny verify dfyconfig.toml` checks everything.

## How it is laid out

| file | about |
|---|---|
| `Mqi` | the environment: the queue manager, units of work, faults, conservation of messages |
| `MqIds`, `HeaderNames`, `Messages`, `PropertyCursor`, `Content` | identifiers, header names, commands and messages, reading properties; what is in a message that is put, and read again |
| `Client` | `AsyncMQConnection`: each `_sync` method as a function on values, and the class proved to compute it |
| `Handles`, `Stopping`, `Cleanup`, `Transactions`, `Requests`, `Reports` | what every operation of the connection keeps and leaves behind, does to the unit of work, asks for, and raises |
| `Settlement`, `FakePublisher`, `Consuming`, `Shutdown`, `Subscriber` | `MQMessage`, the reply command, the consume loop, what a stop does, and the classes proved to run it |
| `FaultFree`, `Outcomes`, `Draining`, `Answers` | what everything does and returns when nothing fails |
| `NoLoss`, `ReplyAtomicity`, `Policies`, `ManualGate`, `DirectMode`, `DirectNoLoss`, `Traps` | theorems about runs of the subscriber, and counterexamples that show why they are not stronger |
| `Rpc`, `RpcRefinement`, `EndToEnd`, `TestBroker` | requesters and responders interleaved, the client proved to take these steps, and its request from end to end; the in-memory RPC against the real one |
| `Producer`, `Startup` | the two producer connections, and the startup retry loops |

An operation that the source writes as statements is a method of a class with the source's fields. The method is
proved to take the state where a function says, and the theorems about runs are proved of that function.

## What is assumed of the environment

The MQ library and FastStream are not part of the repository.

- The queue manager is seen through one connection of one client: messages on queues, and one open unit of work
  (gets so far, pending puts). What other programs put arrives between calls, as a script says.
- Every call ends well, fails before its effect, or fails after it. The script of faults is arbitrary; beyond its
  end nothing fails. A failure with a reconnectable reason means that the open unit of work has been rolled back.
- MQDISC commits what is open; if the call fails, the connection is lost and rolled back. A connection nobody holds
  any more ends on the server and is rolled back before a new connection is used. Deleting a message handle and loading the
  library do not fail. `MQRC_SSL_INITIALIZATION_ERROR` is defined.
- MQPUT replaces an all-zero MsgId by one it makes up. The name of a temporary dynamic queue is never given twice.
- Reading the properties of a message, and setting those of a put, are each one call as far as faults go;
  `PropertyCursor` has the single inquiries.
- FastStream runs parser, handler, reply and acknowledgement middleware in this order; ACK_FIRST settles before
  the handler, MANUAL never. `StreamMessage.ack/nack` sets `committed` only while it is None. An exception
  of the middleware's own settlement is logged or escapes: both are covered.
- A get that raises ends the consume loop: FastStream is assumed not to start its task again, which would go on with whatever
  that get has left in the unit of work.
- The executor has one worker, so each `_sync` method is one step; a subscriber's calls on its connection follow one another.

## Where the code does less than one might expect

- `docs/ha.md:25` says that subscribers reopen their queue after a reconnectable failure. When the recovery itself fails,
  they do not: the name is remembered, the consumer is gone, and the next get fails at once
  (`Handles.HalfRecovered`, `Handles.LostConsumer`). `Handles.ConsumerOpKeepsOpen` gives the exact condition.
- In that state `stop_consumer` returns and changes nothing, and a later recovery brings the consumer back
  (`Stopping.StoppedConsumerReturns`). `Stopping.StoppedForGood` gives the exact condition.
- A delivery recorded ACKED need not be consumed: a commit that loses its connection is repeated on an empty unit of work and
  succeeds (`Traps.AckedYetRedelivered`). `Transactions.CommitConsumesExactly` and `NoLoss.SettlementMeans` say exactly when it is.
- A settlement that fails can leave its message in the unit of work, and the next delivery's commit takes it along
  (`Traps.FailedSettlementStrands`, `Traps.StrandedMessageIsCommittedByTheNext`): exactly if the call fails before its effect
  without breaking the connection (`Transactions.StrandsExactly`).
- Stopping a subscriber disconnects, and MQDISC commits: a delivery still open is consumed without an acknowledgement, and its
  pending reply shown (`Traps.StopConsumesUnsettled`). `Shutdown.StopExactly` gives the exact condition, and the theorems
  about whole lives count what stops take.
- A message that `consume` settled because of an exception can still be acked by whoever holds it, and that commits whatever is
  open by then (`Traps.LateAckCommitsAnother`); `Policies.OutcomeByPolicy` says which deliveries
  these are, and `Policies.CallReachesBroker` when a call gets through.
- A delivery recorded NACKED may have been consumed if a settlement call raised: a commit can take effect and report a failure
  (`Traps.NackedYetConsumed`). `NoLoss.SettlementMeans` ties what was consumed to the first settlement call instead.
- A reply put after the settlement, as under ACK_FIRST, waits for the next one (`Traps.ReplyAfterAckWaits`).
- A waiter cancelled twice leaves a completed settlement unrecorded (`Settlement.RecordMatchesBroker`, `Settlement.TwiceCancelledSettlesAgain`).
- The header name codec does not give back every name (`HeaderNames.DashRoundTrip`, `HeaderNames.StraddlingNameIsLost`).
- The in-memory broker keeps an all-zero message id; a queue manager replaces it (`TestBroker.TestBrokerAgrees`).

Two of these are why the theorems about runs speak of quiet runs: no settlement call leaves the unit of work open, and no
call on a kept message finds it open. Settlement calls may raise, and kept messages may be settled again between deliveries. The
settlement a MANUAL loop waits for belongs to the turn that waits.

## Model

| member | source | states |
|---|---|---|
| NoLoss.EveryMessageIsAccountedFor | faststream_mq/subscriber/usecase.py:84-172 | From connect on, with any faults, handlers, policy, stops and late calls, unless a settlement call leaves the unit of work open or a late call finds it open: what this client consumed is the messages of the deliveries whose first settlement call was a commit that took effect, in order, each its own, and then at most one that a stop committed while it was open; the last part is empty if and only if no stop that commits found one; between deliveries the unit of work is empty, and every visible message stays counted |
| NoLoss.NothingIsLost | faststream_mq/subscriber/usecase.py:84-172 | The invariant of the loop, stops and late calls included, survives every such run from any state in which the loop may stand |
| NoLoss.SettlementMeans | faststream_mq/subscriber/usecase.py:310-332 | Once a settlement call was made the message was consumed exactly if the first one was a commit that found it in the unit of work and was not lost before its effect, and is back on its queue otherwise; if no call raised, the record is that of this call: NACKED was not consumed, ACKED exactly if the commit took effect |
| NoLoss.StartIsOk | faststream_mq/subscriber/usecase.py:113-117 | A subscriber that connected and opened its queue, with any number of recoveries on the way, satisfies the loop's invariant |
| NoLoss.ConsumeInFlight | faststream_mq/subscriber/usecase.py:127-146 | Through parser, handler, reply and settlement the unit of work holds this message or none, none once a settlement call was made, and it is consumed exactly by a first call that is a commit and takes effect; when `consume` ends on an exception, or the policy is not MANUAL, such a call was made |
| NoLoss.UnresolvedInFlight | faststream_mq/subscriber/usecase.py:310-332 | Settling after an exception keeps that picture, whether the call returns or raises, and leaves the event set |
| NoLoss.GetOk | faststream_mq/helpers/client.py:304-364 | A get from an empty unit of work leaves exactly the returned message in it, through any recovery |
| NoLoss.LateOk | faststream_mq/message.py:48-69 | While nothing is open, whatever is called on a kept message, returning or raising, the invariant of the loop holds on |
| NoLoss.ShutdownOk | faststream_mq/subscriber/usecase.py:148-172 | A stop at any time keeps the invariant: what is open is consumed, or given back, or left, and is the message of the last delivery if that was left unsettled |
| Shutdown.StopExactly | faststream_mq/subscriber/usecase.py:148-172 | The exact effect of a stop on everything open, for every state it may find: committed if the consumer closes and the disconnect is not lost before its effect, else lost with the connection or left as it was |
| Shutdown.StopConsumesExactly | faststream_mq/subscriber/usecase.py:168-171 | A stop leaves `consumed` as it was if and only if it does not commit or nothing is open |
| Policies.OutcomeByPolicy | faststream_mq/subscriber/usecase.py:334-345 | The record of every delivery on which no settlement call raised, for every policy and handler, as a function of policy, the first settlement call and what was raised; whoever kept it can settle it again exactly after a parser failure, or an exception under MANUAL that no call of the handler came before |
| Policies.FirstCallDecides | faststream_mq/subscriber/usecase.py:127-146 | Under ACK_FIRST, or once the handler has settled its message, reply, middleware and `consume` do not change the record |
| Policies.CallReachesBroker | faststream_mq/message.py:48-66 | A settlement call reaches the broker exactly on a message no earlier call has settled, over a live connection, unless cancelled before it begins; so one that `consume` settled is reached again |
| Policies.PathsAgree | faststream_mq/subscriber/usecase.py:334-345 | `_should_commit` decides as FastStream's middleware does, for every exception and every policy that settles last |
| Outcomes.FateByTable | faststream_mq/subscriber/usecase.py:127-146 | On a working connection, for every policy, every exception of parser, handler or reply, and a handler without settlement calls: consumed and ACKED, back in front of its queue and NACKED, or left open under MANUAL, by a table written out policy by policy and exception by exception |
| Outcomes.ParserFails | faststream_mq/subscriber/usecase.py:310-345 | A message that cannot be parsed is settled by that table, under ACK_FIRST and MANUAL too |
| Outcomes.ManualDecides | faststream_mq/subscriber/usecase.py:310-345 | Under MANUAL an exception other than AckMessage and RejectMessage backs the message out; without one it is left to its keeper |
| Outcomes.AckFirstDecides | faststream_mq/subscriber/usecase.py:127-146 | Under ACK_FIRST the message is consumed whatever its handler raises |
| Outcomes.TurnByTable | faststream_mq/subscriber/usecase.py:84-146 | A turn of the loop by the table; the loop ends exactly on StopConsume or SystemExit, disconnected, or when MANUAL waits |
| Draining.DrainsInOrder | faststream_mq/subscriber/usecase.py:84-104 | Once faults have stopped: k turns consume the first k messages of the queue, once each, in order, one delivery each, whatever their handlers answer or raise as long as the policy commits; what else lies on any queue keeps its place, ahead of the replies |
| Draining.FailedMessageIsFirstAgain | faststream_mq/subscriber/usecase.py:127-146 | A message the policy refuses is first in its queue again, every queue holds what it held, and a reply already made is not shown |
| FaultFree.HealthyGet | faststream_mq/helpers/client.py:304-364 | On a working connection a get returns the first message of its queue, then in the unit of work, or None, with everything as it was, if there is none |
| FaultFree.EmptyExactly | faststream_mq/helpers/client.py:338-342 | A get returns None if and only if no message of its queue is stored |
| Draining.IdleTurns | faststream_mq/subscriber/usecase.py:84-99 | Any number of turns on an empty queue leaves the loop as it was, ready |
| FaultFree.HealthyCalls | faststream_mq/message.py:48-69 | Ack and reject consume the open message, nack puts it first in its queue again |
| FaultFree.UnconnectedCalls | faststream_mq/message.py:48-69 | Without a connection a settlement call only marks the message |
| ReplyAtomicity.EveryReplyIsAtomic | faststream_mq/subscriber/usecase.py:127-172 | From connect on, unless a handler that answers is preceded by a settlement: each delivery makes at most one copy of its reply visible, none unless its first settlement call was a commit that was not lost (so, if no call raised, none unless it is ACKED), exactly one if its reply was published and its message consumed; all this client makes visible are these and at most one more, the reply to the one delivery left open when a stop commits it |
| ReplyAtomicity.RepliesAreAtomic | faststream_mq/subscriber/usecase.py:127-172 | The same from any state in which the loop may stand |
| ReplyAtomicity.RespondPends | faststream_mq/publisher/fake.py:26-35 | Publishing the reply, retried or not, leaves at most one copy pending next to its request and nothing visible |
| ReplyAtomicity.ProcessSilent | faststream_mq/subscriber/usecase.py:127-146 | A delivery whose handler answers nothing shows nothing, however and whenever it is settled |
| ReplyAtomicity.SettlingCloses | faststream_mq/helpers/client.py:230-252 | A settlement call, returning or raising, publishes the reply and consumes the request together or does neither, unless it leaves the unit of work open; a lost unit of work loses both |
| ReplyAtomicity.ReplyCorrelation | faststream_mq/subscriber/usecase.py:282-287 | A reply goes to the queue and queue manager its request named, under the request's native id, whatever correlation id the handler set |
| Rpc.RepliesArePaired | faststream_mq/helpers/client.py:457-627 | Any number of requesters and responders interleaved, with redeliveries, lost units of work and repeated puts: a reply a requester receives was made from the request of its own put that succeeded, and carries that put's MsgId |
| Rpc.RepliesAreNotShared | faststream_mq/helpers/client.py:605-616 | Two requesters never receive replies to the same put |
| Rpc.RunInv | faststream_mq/helpers/client.py:495-557 | Every put names a reply queue of its own, every reply lies on the queue of the put it answers, and every waiting requester waits for a put of its own, on its queue and under its identifier: kept over every run |
| Rpc.PlaceInv | faststream_mq/helpers/client.py:553-563 | A put that succeeds, fails, or succeeds unnoticed keeps that invariant |
| Rpc.AnswerOk | faststream_mq/publisher/fake.py:26-35 | Whatever the handler's command says, its reply goes where the request asked, under the request's identifier |
| Rpc.AwaitInv | faststream_mq/helpers/client.py:582-627 | Taking a reply keeps the invariant: what is found on a waiting requester's queue answers that requester's put |
| RpcRefinement.PublishRequestRefines | faststream_mq/helpers/client.py:495-580 | The client takes these steps: all of `_publish_request_sync`, with any faults and recoveries, is one attempt of the system, or two, or one and a giving up; its puts are the client's, and it returns exactly when the requester waits for that queue and identifier |
| RpcRefinement.AttemptRefines | faststream_mq/helpers/client.py:504-563 | One turn is one attempt, wherever it fails |
| RpcRefinement.AwaitRefines | faststream_mq/helpers/client.py:582-627 | A reply `_wait_for_reply_sync` returns is the one the requester of the system receives, and a timeout means there is none |
| EndToEnd.RequestEndToEnd | faststream_mq/helpers/client.py:457-493 | A whole request of the client among any others, with any faults: if what arrives on its reply queue is what the others commit to it, the reply returned is the one the system hands to its requester, made from the request it put and carrying its identifier; a timeout means there was none |
| EndToEnd.WaitEndToEnd | faststream_mq/helpers/client.py:582-627 | The agreement of the reply queue with the system is kept over every tick of the wait, so the reply found is the system's |
| EndToEnd.ExchangeCompletes | faststream_mq/helpers/client.py:457-627 | From any state of the system, a request that is put, delivered, answered and committed has its reply received by its requester |
| EndToEnd.PostAppends | faststream_mq/helpers/client.py:230-238 | A commit adds to each reply queue exactly the replies meant for it, in order |
| EndToEnd.OthersRun | faststream_mq/helpers/client.py:495-557 | No other requester or responder takes a reply from a waiting requester's queue, or does more to it than add |
| RpcRefinement.GetRefines | faststream_mq/helpers/client.py:304-364 | A get of a responder is a delivery in the system, after a loss if it had to recover |
| RpcRefinement.AnswerRefines | faststream_mq/helpers/client.py:375-444 | Publishing the reply is an answer in the system, after a loss if it had to recover, or only a loss, or nothing |
| RpcRefinement.SettleRefines | faststream_mq/helpers/client.py:230-252 | A settlement is a commit or a loss in the system, or nothing, exactly by the fate of its first call |
| Requests.RequestNeverReplayed | faststream_mq/helpers/client.py:457-493 | At most two puts, the second only after an attempt that broke the connection; after a put that returned no further put, and exactly one recovery if the wait breaks; every reply queue opened is asked to close |
| Requests.PublishRequestTally | faststream_mq/helpers/client.py:495-580 | Puts, recoveries and reply queues of the two turns: the only queue not asked to close is the one a successful put returns, and the closing `RuntimeError` is never raised |
| Requests.PublishedIsPlaced | faststream_mq/helpers/client.py:553-557 | The identifier and reply queue that are returned are those of the last message this client made visible |
| Requests.ReplyAnswersThePut | faststream_mq/helpers/client.py:600-627 | A returned reply has the request's identifier as its native correlation id and comes from the reply queue |
| Answers.RequestIsAnswered | faststream_mq/helpers/client.py:457-627 | With nothing failing and anything arriving: the request is put, with its own reply queue, under the identifier its reply is awaited with; it returns the first message on the reply queue with that correlation id if there is one when it looks, and raises TimeoutError if and only if there is none; identifiers that cannot be converted raise and put nothing |
| Answers.FineWait | faststream_mq/helpers/client.py:582-627 | The reply is taken from its queue for good; a timeout takes nothing |
| Answers.FinePublish | faststream_mq/helpers/client.py:495-580 | One attempt suffices, and adds exactly the request |
| Handles.HandlesStayCurrent | faststream_mq/helpers/client.py:85-288 | Over every sequence of connect, disconnect, start, stop, get, publish, commit, backout, ping and request with any faults: an open consumer belongs to the current connection and the remembered queue, and messages stay balanced |
| Handles.ConsumerStaysOpen | faststream_mq/helpers/client.py:629-654 | While no recovery has itself failed, the consumer stays open on its queue through any gets, publishes, commits and backouts, returning or raising |
| Handles.ConsumerOpKeepsOpen | faststream_mq/helpers/client.py:648-654 | One such operation keeps the consumer open exactly when its recovery did not fail, and one that returns has kept it |
| Handles.LostConsumer | faststream_mq/helpers/client.py:314-322 | After a failed recovery a get fails at once, and another operation that returns has reopened the consumer exactly if it recovered |
| Handles.PingClosesConsumer | faststream_mq/helpers/client.py:206-224 | `ping` on a connection with a consumer would lose it exactly when it recovers |
| Handles.HalfRecovered | faststream_mq/helpers/client.py:648-654 | A run in which the recovery reconnects and fails to reopen |
| Handles.RecoverSound | faststream_mq/helpers/client.py:648-672 | A recovery that returns is on a new connection, with the consumer open if asked; one that raises leaves no consumer |
| Handles.PerformSound | faststream_mq/helpers/client.py:629-646 | Every operation keeps the handle invariant and the executor, loses no message that was ever visible, and leaves the remembered queue unless it is a start; `start_consumer` that returns has its queue open |
| Handles.RequestSound | faststream_mq/helpers/client.py:457-493 | A request with all its recoveries keeps the handle invariant |
| Stopping.StoppedForGood | faststream_mq/helpers/client.py:278-288 | After a stop that returned no faults and no steps but starting or connecting can open a consumer, if and only if there was a consumer to stop, or no remembered queue, or no queue manager |
| Stopping.StoppedForGoodThroughConnect | faststream_mq/helpers/client.py:85-288 | With connecting again allowed: if and only if there was a consumer to stop or no remembered queue |
| Stopping.StoppedConsumerReturns | faststream_mq/helpers/client.py:284-288 | A run where it fails: the stop returns and changes nothing, and one commit that loses its connection later the consumer is open on its queue |
| Stopping.StaysWithoutConsumer | faststream_mq/helpers/client.py:629-654 | Without consumer and remembered queue, no sequence of steps but a start opens one, requests and reconnects included |
| Stopping.StaysWithoutManager | faststream_mq/helpers/client.py:206-288 | Nor without queue manager and consumer, until the client connects again |
| Cleanup.RunsStayTidy | faststream_mq/helpers/client.py:91-204 | Over every run: a keystore is prepared exactly while there is a connection under TLS, and a disconnect leaves no executor, handle, consumer or keystore |
| Cleanup.RecoverTidy | faststream_mq/helpers/client.py:136-151 | A recovery that fails to connect has given up the keystore; one that connects has it exactly under TLS |
| Transactions.PublishEffect | faststream_mq/helpers/client.py:375-444 | Under syncpoint at most one copy is pending even if the put is repeated; outside at most two become visible; a normal return means at least one; nothing else is added |
| Transactions.SettleExactly | faststream_mq/helpers/client.py:230-252 | The work after a settlement, recoveries and all, as a function of the fate of its first MQCMIT or MQBACK |
| Transactions.CommitConsumesExactly | faststream_mq/helpers/client.py:230-238 | A commit that returns has consumed what was open if and only if its first MQCMIT was not lost before its effect |
| Transactions.StrandsExactly | faststream_mq/helpers/client.py:629-646 | A settlement leaves its message in the unit of work if and only if the call fails before its effect for a reason that is not reconnectable; any other that raises has settled it or lost it to its queue |
| Transactions.GetEffect | faststream_mq/helpers/client.py:304-364 | A get adds exactly the message it returns to the unit of work, possibly after losing earlier work; at most one in any case |
| Transactions.UnreadableMessageGoesBack | faststream_mq/helpers/client.py:344-354 | A message whose properties cannot be read is not kept unless the backout fails without breaking the connection; which of the two errors is raised |
| Transactions.RecoverKeepsWork | faststream_mq/helpers/client.py:648-654 | After a reconnectable failure there is nothing left for the recovery's MQDISC to commit |
| Transactions.RetryBound | faststream_mq/helpers/client.py:629-646 | One attempt to recover exactly when the first run failed for a reconnectable reason, otherwise none |
| Transactions.SettlementBound | faststream_mq/helpers/client.py:230-252 | A settlement is asked for twice exactly when its first run broke the connection and the recovery succeeded, otherwise once |
| Transactions.PublishPuts | faststream_mq/helpers/client.py:375-444 | At most two puts, two only with a recovery between them, at least one on a normal return |
| Reports.PerformReports | faststream_mq/helpers/client.py:629-646 | An operation raises its first error if that does not break the connection, else what its recovery raises, else what its second run does |
| Reports.RecoverReports | faststream_mq/helpers/client.py:648-672 | A recovery reports what connecting or reopening does; closing and disconnecting fail without a word |
| Reports.PublishReports | faststream_mq/helpers/client.py:385-444 | Which of several failures of a publish is raised: opening, else closing, else the put |
| Reports.FillReports | faststream_mq/helpers/client.py:396-439 | A malformed identifier is raised before anything is called, then the handle, then the put |
| Reports.RequestReports | faststream_mq/helpers/client.py:477-493 | A broken wait raises the breaking error, unless its recovery fails |
| Reports.PingReports | faststream_mq/helpers/client.py:206-224 | `ping` is True exactly if its last run reached the queue manager, and then the connection is up |
| Reports.StartRemembers | faststream_mq/helpers/client.py:258-263 | Whether it fails or not, `start_consumer` has the name remembered |
| Reports.StopReports | faststream_mq/helpers/client.py:284-288 | `stop_consumer` forgets handle and name together or, if closing fails, neither |
| Reports.NotStarted | faststream_mq/helpers/client.py:190-254 | Without an executor nothing is called: operations raise an assertion error, stopping and disconnecting return, `ping` is False |
| Reports.NotConnected | faststream_mq/helpers/client.py:226-276 | Without a queue manager operations and requests raise an assertion error and reach nothing |
| Client.AsyncMQConnection.ConnectToQueueManager | faststream_mq/helpers/client.py:91-151 | Nothing if connected; otherwise a new handle, or an error with the prepared keystore given up |
| Client.AsyncMQConnection.ConnectAsync | faststream_mq/helpers/client.py:85-89 | The executor runs even when connecting fails |
| Client.AsyncMQConnection.DisconnectAsync | faststream_mq/helpers/client.py:190-204 | Consumer, queue manager, keystore and executor are gone whatever failed |
| Client.AsyncMQConnection.Ping | faststream_mq/helpers/client.py:206-224 | Pings through the retry wrapper without reopening; every failure is False |
| Client.AsyncMQConnection.Commit | faststream_mq/helpers/client.py:226-238 | MQCMIT through the retry wrapper, reopening if a queue is remembered |
| Client.AsyncMQConnection.Backout | faststream_mq/helpers/client.py:240-252 | MQBACK through the retry wrapper, reopening if a queue is remembered |
| Client.AsyncMQConnection.StartConsumer | faststream_mq/helpers/client.py:254-276 | The name is remembered before anything can fail; the old consumer is closed first |
| Client.AsyncMQConnection.StopConsumerAsync | faststream_mq/helpers/client.py:278-288 | Handle and name are forgotten unless closing fails |
| Client.AsyncMQConnection.GetMessageOnce | faststream_mq/helpers/client.py:314-364 | An empty queue is no message; a message whose properties cannot be read is backed out, and the backout's own error replaces the first |
| Client.AsyncMQConnection.GetMessage | faststream_mq/helpers/client.py:290-312 | The same through the retry wrapper, always reopening |
| Client.AsyncMQConnection.PublishMessageOnce | faststream_mq/helpers/client.py:385-444 | Open, identifiers, properties, put and close, where an error of the close replaces the outcome of the put |
| Client.AsyncMQConnection.Publish | faststream_mq/helpers/client.py:366-383 | The same through the retry wrapper |
| Client.AsyncMQConnection.RunWithReconnectSync | faststream_mq/helpers/client.py:629-646 | One run; after a reconnectable failure one recovery and, if that returns, one more run |
| Client.AsyncMQConnection.RecoverConnection | faststream_mq/helpers/client.py:648-672 | Close, disconnect, connect, reopen; the name to reopen is read before anything is closed |
| Client.AsyncMQConnection.OpenConsumerQueue | faststream_mq/helpers/client.py:265-276 | The consumer is opened on the current connection, or there is none |
| Client.AsyncMQConnection.PublishRequestSync | faststream_mq/helpers/client.py:495-580 | The loop of two turns, with the recovery before the closing of the failed turn's queues |
| Client.AsyncMQConnection.WaitForReplySync | faststream_mq/helpers/client.py:582-627 | The reply with the request's identifier is taken outside syncpoint; none in time is a timeout |
| Client.AsyncMQConnection.Request | faststream_mq/helpers/client.py:446-493 | Put, wait, close the reply queue, and recover after a reconnectable error, whose own failure replaces it |
| Settlement.OneSettlement | faststream_mq/message.py:48-69 | Any sequence of ack, nack and reject on one message, each cancelled at most once, completes at most one broker operation; the record is that operation's; the event is set after any call |
| Settlement.SettledIsFinal | faststream_mq/message.py:48-66 | After a call that succeeded, no call reaches the broker or changes the record |
| Settlement.RecordMatchesBroker | faststream_mq/message.py:71-78 | The record matches the broker exactly when the waiter was cancelled at most once or the broker did nothing, be it that the operation failed or never ran |
| Settlement.TwiceCancelledSettlesAgain | faststream_mq/message.py:71-78 | After two cancellations of a call that went through, another call settles again |
| Settlement.MQMessage.Ack | faststream_mq/message.py:48-55 | Commits unless already settled or without a connection; record and event as `SettleMessage` has them |
| Settlement.MQMessage.Nack | faststream_mq/message.py:57-66 | Backs out unless already settled or without a connection |
| Settlement.MQMessage.Reject | faststream_mq/message.py:68-69 | As ack |
| Settlement.MQMessage.WaitForBrokerSettle | faststream_mq/message.py:71-78 | One cancellation is absorbed; a second stops an operation the worker has not begun, and hides the outcome of one it has |
| ManualGate.WaitsExactlyWhenUntouched | faststream_mq/subscriber/usecase.py:101-104 | Under MANUAL the loop comes to wait exactly when the handler returned without a settlement attempt or the subscriber was stopped; never after an exception, even if settling failed |
| ManualGate.NextGetWaits | faststream_mq/subscriber/usecase.py:84-104 | Over every run under MANUAL, whatever fails: the next get is issued if and only if every turn so far was released, by a call of its handler, an exception, or a call on the kept message, and none stopped the subscriber; then every message so far is settled or an attempt on it has ended |
| ManualGate.UnresolvedReleases | faststream_mq/subscriber/usecase.py:310-332 | A message settled after an exception has its event set even if commit or backout failed |
| ManualGate.AnyCallSetsTheEvent | faststream_mq/message.py:48-66 | The event is set exactly if it was set or some call was made |
| DirectMode.AtMostOneUnsettled | faststream_mq/subscriber/usecase.py:174-268 | Over every sequence of fetches and settlements under MANUAL the caller holds at most one unsettled message |
| DirectMode.RefusedExactly | faststream_mq/subscriber/usecase.py:347-359 | Without handlers a fetch is refused exactly when an unsettled message is held; with handlers it always fails; and then it takes nothing |
| DirectMode.StaysSettled | faststream_mq/message.py:48-69 | No call makes a settled message unsettled |
| DirectNoLoss.FetchingLosesNothing | faststream_mq/subscriber/usecase.py:174-268 | Over every sequence of fetches and settlement calls under MANUAL, with any faults, unless a fetch leaves behind a message nobody has: at most one message is open, the one its caller holds unsettled; every message that could not be parsed was consumed, if the table says so and its MQCMIT was not lost, and is back on its queue otherwise |
| DirectNoLoss.UnparsableIsSettled | faststream_mq/subscriber/usecase.py:215-217 | Under every policy a message that cannot be parsed is not handed out, and what is open is consumed or given back by the table |
| DirectNoLoss.HealthyFetch | faststream_mq/subscriber/usecase.py:174-218 | On a working connection a fetch hands out the first message of the queue, or None with everything as it was |
| DirectNoLoss.HealthyUnparsable | faststream_mq/subscriber/usecase.py:215-217 | And puts away one that cannot be parsed by the table |
| DirectNoLoss.BufferInOrder | faststream_mq/subscriber/usecase.py:186-190 | A fetch from the test buffer takes its first message, and returns None only when it is empty |
| DirectNoLoss.FetchReports | faststream_mq/subscriber/usecase.py:174-203 | With handlers registered or before the start a fetch fails, an error of the get is raised, and None means that the get returned none |
| DirectNoLoss.NeverRefusedOtherwise | faststream_mq/subscriber/usecase.py:347-359 | Under other policies no fetch is ever refused |
| Traps.AckedYetRedelivered | faststream_mq/helpers/client.py:230-238 | ACKED, nothing consumed, and the message on its queue again |
| Traps.FailedSettlementStrands | faststream_mq/helpers/client.py:629-646 | A non-reconnectable settlement error raises and leaves the message in the unit of work |
| Traps.StrandedMessageIsCommittedByTheNext | faststream_mq/subscriber/usecase.py:84-104 | The commit of the next delivery consumes both messages |
| Traps.LateAckCommitsAnother | faststream_mq/subscriber/usecase.py:318-325 | An ack of a message that `consume` settled commits the delivery open by then |
| Traps.StopConsumesUnsettled | faststream_mq/subscriber/usecase.py:148-172 | A run without a fault: a delivery left unsettled, by a stop before it or a MANUAL handler, is consumed by the stop, unacknowledged |
| Traps.NackedYetConsumed | faststream_mq/message.py:48-66 | A commit that takes effect and reports a failure, and a backout after it: recorded NACKED, and consumed |
| Traps.ReplyAfterAckWaits | faststream_mq/subscriber/usecase.py:270-288 | Under ACK_FIRST a reply is put after its message was consumed, and stays pending |
| Subscriber.MQSubscriber.ConsumeLoop | faststream_mq/subscriber/usecase.py:84-104 | The loop does what `RunLoop` does, turn by turn |
| Subscriber.MQSubscriber.ConsumeMessage | faststream_mq/subscriber/usecase.py:127-146 | `consume`, with or without a connection: nothing when not running; every exception settles the message |
| Subscriber.MQSubscriber.HandleOne | faststream_mq/subscriber/usecase.py:101-146 | One turn after its get, with the MANUAL wait and stopping |
| Subscriber.MQSubscriber.SettleUnresolvedMessage | faststream_mq/subscriber/usecase.py:310-332 | Commit or backout by policy and exception, unless settled or without a connection; otherwise the event is set in every case |
| Subscriber.MQSubscriber.Answer | faststream_mq/subscriber/usecase.py:270-288 | The reply goes out on the message's own connection, or the broker's if it has none |
| Subscriber.MQSubscriber.Stop | faststream_mq/subscriber/usecase.py:148-172 | Give up the test buffer, if there is one; else stop consuming, then disconnect; a consumer that cannot be closed leaves the connection open |
| Subscriber.MQSubscriber.EnsureNoUnsettledDirectMessage | faststream_mq/subscriber/usecase.py:347-359 | Refuses exactly while the remembered message is unsettled, otherwise forgets it |
| Subscriber.MQSubscriber.GetOne | faststream_mq/subscriber/usecase.py:174-218 | A fetch as `DirectMode` has it, from the connection or the test buffer; it fails with handlers registered or before the start, and one that is refused leaves connection and buffer alone |
| Subscriber.MQSubscriber.StartupConnectConsumer | faststream_mq/subscriber/usecase.py:106-124 | At most ceil(timeout / interval) + 1 attempts, exactly one if the timeout is not positive, none after an error that is not retryable; a retryable error is raised only if the timeout is not positive or has passed; each attempt connects, from a blank connection; success means an open consumer |
| Subscriber.DisconnectedIsBlank | faststream_mq/helpers/client.py:190-204 | After a failed attempt executor, queue manager, consumer and keystore are absent |
| Producer.MQBroker.Connect | faststream_mq/broker/broker.py:164-181 | The same for the broker's own startup loop, each attempt one connection, and a connected producer on success |
| Startup.AttemptsBounded | faststream_mq/subscriber/usecase.py:109-124 | On schedule, one more attempt stays within the bound |
| Startup.SleptOnceMore | faststream_mq/subscriber/usecase.py:121-124 | A sleep begun before the deadline keeps the loop on schedule |
| Producer.AsyncMQFastProducer.Connect | faststream_mq/publisher/producer.py:112-126 | A new publish connection without a consumer, and no request connection |
| Producer.AsyncMQFastProducer.DisconnectAll | faststream_mq/publisher/producer.py:128-142 | Both connections are disconnected and forgotten |
| Producer.AsyncMQFastProducer.Publish | faststream_mq/publisher/producer.py:150-152 | Publishes on the publish connection, which never gains a consumer |
| Producer.AsyncMQFastProducer.Ping | faststream_mq/publisher/producer.py:144-147 | Pings the publish connection only; False without one |
| Producer.AsyncMQFastProducer.GetRequestConnection | faststream_mq/publisher/producer.py:164-174 | Made on first use, kept even if connecting it fails; an assertion error before `connect` |
| Producer.AsyncMQFastProducer.Request | faststream_mq/publisher/producer.py:155-157 | Requests never touch the publish connection; an assertion error before `connect` |
| Stopping.PerformWithoutConsumer | faststream_mq/helpers/client.py:206-276 | Nothing but `start_consumer` gives a connection a consumer |
| Stopping.RequestWithoutConsumer | faststream_mq/helpers/client.py:457-493 | A request does not either, so recovering without reopening never loses one |
| FakePublisher.MQFakePublisher.PatchCommand | faststream_mq/publisher/fake.py:26-35 | A native command is changed in place and is the result; destination, queue manager, native correlation id and syncpoint come from the request, all else from the handler |
| FakePublisher.RealCommand | faststream_mq/response.py:100-115 | The adapter's own command object is passed on, a generic one is converted, a malformed correlation id is an error |
| HeaderNames.DashRoundTrip | faststream_mq/helpers/client.py:759-764 | Decoding the encoded name gives it back if and only if it contains neither `_dash_` nor `_dash-` |
| HeaderNames.HeaderNameRoundTrip | faststream_mq/helpers/client.py:729-731 | With prefix and stripping: if and only if, besides, the name does not end in white space |
| HeaderNames.PropertyNameInjective | faststream_mq/helpers/client.py:759-760 | Names that survive are never encoded alike |
| HeaderNames.StraddlingNameIsLost | faststream_mq/helpers/client.py:763-764 | `_dash-` has no `_dash_` in it and still comes back changed |
| HeaderNames.MqStrIdempotent | faststream_mq/helpers/client.py:824-829 | Stripping twice is stripping once |
| Messages.HeaderMapRoundTrip | faststream_mq/helpers/client.py:675-690 | What a consumer sees is the sender's headers with the two defaults where absent, minus the two reserved names |
| Messages.HeadersSurvive | faststream_mq/helpers/client.py:430-436 | Headers written as properties are read back as the same headers |
| Messages.PropertiesKeepOrder | faststream_mq/helpers/client.py:430-436 | Distinct headers become distinct properties in the same order |
| Messages.PublishedHeaders | faststream_mq/helpers/client.py:675-684 | Defaults fill gaps and override nothing |
| Messages.CorrelationTravels | faststream_mq/helpers/client.py:419-425 | The correlation id a consumer sees is the command's own if it is a real one, else the one the sender's `correlation_id` header spells, across both codecs |
| Messages.MessageIdTravels | faststream_mq/helpers/client.py:416-417 | The message id a consumer sees is the command's own if it is a real one, else the one the queue manager made up, else what the sender's `message_id` header spells |
| Content.PublishedContent | faststream_mq/helpers/client.py:385-444 | Over any faults, what a publish makes pending or visible has the command's body, destination, reply queue and queue manager, headers, and identifiers, and nothing else is added |
| Content.RequestedContent | faststream_mq/helpers/client.py:495-557 | Over any faults, the published request has the command's body, destination, headers and identifiers, the reply queue that is returned and the queue manager's name |
| Content.MessageRoundTrip | faststream_mq/helpers/client.py:767-799 | What a consumer reads of a published message: its body, reply fields, headers, content type and message id |
| Content.RequestRoundTrip | faststream_mq/helpers/client.py:767-799 | What a responder reads of a request |
| Content.ReplyHasContent | faststream_mq/publisher/fake.py:26-35 | A reply that is put has the body and headers of what the handler returned, and goes to whom the request says |
| Content.FromCmdKeeps | faststream_mq/response.py:100-115 | Converting a generic command keeps its content; only a malformed correlation id is an error |
| PropertyCursor.ReadHeaders | faststream_mq/helpers/client.py:693-734 | Terminates with the plain fold over the properties, for every buffer length; one inquiry a property, one more for each oversized value, one to end; fails exactly if one of these inquiries fails |
| PropertyCursor.ReadOne | faststream_mq/helpers/client.py:703-727 | One pass: the property at the cursor's next place, asked for again with room enough exactly if it is too big |
| MqIds.NormalizeAccepts | faststream_mq/helpers/ids.py:14-26 | Accepted exactly if it is hex text of 24 bytes; the result is its digits in lower case |
| MqIds.FromHexExact | faststream_mq/helpers/ids.py:18-21 | Hex text is digits in adjacent pairs with white space only between pairs |
| MqIds.NormalFormIsCanonical | faststream_mq/helpers/ids.py:14-33 | 48 lower-case digits, idempotent, and equal for two texts exactly when their bytes are |
| MqIds.NormalFormsAreTheLowerHexTexts | faststream_mq/helpers/ids.py:14-26 | The fixed points are exactly the texts of 48 lower-case digits |
| MqIds.TextSurvivesBytes | faststream_mq/helpers/ids.py:29-54 | Text to bytes and back is the normal form, or None for the all-zero id |
| MqIds.BytesSurviveText | faststream_mq/helpers/ids.py:36-54 | Bytes to text and back is the identity on every non-zero id, and on no other |
| TestBroker.TestBrokerAgrees | faststream_mq/testing.py:155-168 | In-memory and real reply carry the same correlation id if and only if the request's id is not all zero, whatever else either side set |
| TestBroker.RealReplyIsCorrelated | faststream_mq/helpers/client.py:780-792 | The real reply's correlation id is the canonical form of the id its request was put under, its own or one made up |
| TestBroker.TestReplyIsCorrelated | faststream_mq/testing.py:155-203 | The in-memory reply has its handler's body, and as correlation id that of the request message, given or generated, for every handler that responds |
| TestBroker.Request | faststream_mq/testing.py:132-149 | The first subscriber of the destination answers, raises or times out; none is an error, and so is a malformed id before any is looked for |

## Left out

- The MQ library, its option flags and structures: foreign calls, kept only as the effects listed above.
- Message priority, persistence, expiry and the wait interval: copied through, without influence on the protocol.
- Body encoding, `json.dumps` of unusual header values and the `_get_property` fallback on TypeError: opaque to the protocol.
- TLS preparation, key store files and the environment variable: only whether a keystore is prepared is kept.
- Several clients competing for one queue in the theorems about the consume loop: other programs put messages there but do not get them; `Rpc` has any number of responders.
- A disconnect of an orderly kind that rolls back: MQDISC commits here, as it does on distributed platforms.
- Subscriber.MQSubscriber.Stop: does not cancel the subscriber's tasks: a stop comes between two turns of the loop or while it waits, not in the middle of a get or a handler.
- Real task cancellation otherwise: `_settle_unresolved_message` interrupted while it waits, overlapping calls on one message.
- ReplyAtomicity.EveryReplyIsAtomic: excludes handlers that answer after a settlement, by ACK_FIRST or their own, because such a reply waits for the next commit (`Traps.ReplyAfterAckWaits`).
- ReplyAtomicity.RepliesAreAtomic: the same.
- Draining.DrainsInOrder: speaks of policies that settle last and handlers that leave it to them; where a settlement comes first, replies wait for the next turn.
- Draining.FailedMessageIsFirstAgain: the same.
- RpcRefinement.GetRefines: which queued request a get returns is left open, since other responders may take from the same queue; the reply side is `EndToEnd`.
- `FakeProducer.publish`, and what the handlers of the test broker do besides responding, raising or taking too long.
- Handing over the queue manager between the two producer connections: each is modelled against the queue manager as it finds it.
- Routing of replies between queue managers and the generation of random ids.
- FastAPI, OpenTelemetry, Prometheus, AsyncAPI, logging, configuration and registration: wrappers without protocol state.
- Producer.MQBroker.Connect: a failed attempt's connection is assumed to be rolled back by the server before the next attempt, since the source drops it without disconnecting.
- Consuming.ProcessMessage: FastStream's order of handler, reply and settlement is written down as assumed, not derived.
