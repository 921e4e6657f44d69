# nats_contractor collection sessions, in Dafny

`nats_contractor` is a test harness for services that talk over NATS and NATS Streaming. A test
configures a list of topics and calls `start_listen_all`, which subscribes an accumulating handler to
each topic. It then drives the service under test. Finally it calls `wait_msgs`, which polls the
message counter until a target count is reached or a timeout passes, then sleeps a grace period. After
that it unsubscribes every handle, closes the connections and returns the topic ledger, a dict from
topic to the payloads received on it.

The best-effort variant (`NatsQA`) adds two operations:
- a responder, which records requests on a topic and answers each with a canned reply;
- a one-shot `request_respond`.

The durable variant (`NatsStreamingQA`) puts a streaming session on top of the transport connection
and subscribes durably.

The model is split into one module per concern:

- `Types`: bytes, payloads, topics, identifiers, the clamp of a duration to ticks.
- `Broker`: the broker as the harness sees it.
  - Identifiers are handed out in increasing order.
  - The live registrations are a map from subscription id to (connection, subject, callback).
  - The calls made on the broker are recorded in a trace.
  - It also has the functions a subscribe, unsubscribe or close loop leads to.
- `Ledger`: the topic ledger, the key order of a dict built from a list, and the payload count.
- `Handlers`: the callbacks as functions of the state they touch:
  - `_total_handle` of both variants;
  - the responder closure of `start_listen_with_respond`;
  - the event loop running the callback registered for a delivery.
- `WaitPolicy`: `wait_msgs`' parameter fallback, its poll loop and its grace sleep, over a schedule of
  deliveries.
- `NatsBase`: class `Session`, the state and methods of `NatsBaseQA`.
- `Nats`: class `NatsQA`.
- `NatsStreaming`: class `NatsStreamingQA`.
  - Python inheritance becomes composition: each variant holds its `Session` as `base`.
- `Scenarios`: the integration suite's smoke, streaming-smoke and request-respond runs, and a second
  listening cycle on the same object. They are stated for any two distinct topics, any payloads and any
  non-negative timeouts.

How behaviour over time is modelled:
- Time is counted in ticks of one millisecond, the length of one poll sleep.
- The broker's deliveries are a schedule. Batch k runs while the harness sleeps through tick k of a
  wait.
- A request's pending window is a sequence of events. Each event is a delivery to one of the harness's
  own subscriptions, or a publish by another client, such as the service under test answering.
- A streaming session runs over a transport connection, and the broker records which one. Closing that
  connection ends the session's durable subscriptions too.
- Each imperative handler and loop is proved equal to the pure function that specifies it (`Run`,
  `RunAll`, `Poll`, `Elapse`, `Register`, `Unregister`, …).
- The properties the harness relies on are proved about those functions:
  - the counter and the ledger move together;
  - handlers only add;
  - the wait is bounded;
  - a quiet wait changes nothing;
  - a wait returns, under each topic, exactly the payloads delivered for it during the wait, in order;
  - every live registration rides on the listening connection (a class invariant), so the teardown of
    `wait_msgs` leaves no registration at all.

## Model

| member | source | states |
|---|---|---|
| Types.Ticks | nats_contractor/nats_base_class.py:124 | a non-negative duration sleeps that many ticks; a negative one sleeps none |
| Broker.DropConn | nats_contractor/nats.py:90 | closing a connection ends exactly the registrations made on it and those of the streaming sessions running over it; the others are kept unchanged |
| Broker.DropAll | nats_contractor/nats.py:90 | closing the connection every registration rides on ends all of them |
| Broker.FirstReply | nats_contractor/nats.py:125-126 | the answer to a request is the payload of the earliest publish to its inbox; there is none exactly when no such publish exists |
| Broker.IdsAt | nats_contractor/nats.py:37-40 | the handle list of a subscribe loop is exactly the consecutive fresh handles, one per subject |
| Broker.RegisterAt | nats_contractor/nats.py:37-40 | after a subscribe loop, every subject has its own registration with the given callback; earlier registrations are unchanged and no other id is live |
| Broker.SubscribesAt | nats_contractor/nats.py:39 | the loop issues one subscribe call per subject, in subject order, with handle first + i |
| Broker.StanSubscribesAt | nats_contractor/nats_streaming.py:69-73 | the streaming loop issues one durable subscribe per subject, in order, all with the same durable name |
| Broker.UnregisterAt | nats_contractor/nats.py:87-88 | unsubscribing a list of handles ends exactly those registrations and leaves the rest unchanged |
| Broker.UnsubscribesAt | nats_contractor/nats.py:87-88 | one unsubscribe call per handle, in handle order |
| Broker.StanUnsubscribesAt | nats_contractor/nats_streaming.py:91-92 | one streaming unsubscribe per handle, in handle order |
| Ledger.EmptyLedgerReset | nats_contractor/nats.py:37-38 | the per-key reset inside the subscribe loop leaves a freshly reset ledger as it is |
| Ledger.Dedup | nats_contractor/nats_base_class.py:88-89 | the ledger's key order has the same topics as the configured list, each once, and is no longer than it |
| Ledger.DedupOrder | nats_contractor/nats_base_class.py:88-89 | the keys come in the order of their first occurrence in the configured list |
| Ledger.BuildLedger | nats_contractor/nats_base_class.py:35-37 | the constructor's dict loop yields exactly the configured topics, each with an empty list |
| Ledger.EmptyLedgerSize | nats_contractor/nats_base_class.py:85-89 | a freshly reset ledger holds no payloads |
| Handlers.TotalHandle | nats_contractor/nats.py:101-106 | a present key gets the payload appended and the counter goes up by one; a missing key (KeyError, caught) changes nothing; other topics, the key set and the trace are unchanged |
| Handlers.RespondHandler | nats_contractor/nats.py:57-66 | on its own topic, the responder recreates a missing entry, appends, counts and publishes the reply to msg.reply when connected; on a subject in the ledger, the key set is unchanged and the counter goes up by one |
| Handlers.PendingHarness | nats_contractor/nats.py:125 | while a request is pending, other clients' traffic leaves the harness alone: its ledger, counter and trace are those of its own deliveries run in order |
| Handlers.ForeignAnswers | nats_contractor/nats.py:125-126 | when nothing earlier in the window replied to the inbox, another client's publish to it is the first reply, so `timed_request` returns that client's payload |
| Handlers.RespondOnOtherSubject | nats_contractor/nats.py:60-62 | a message on a subject that differs from the registered topic and is absent from the ledger empties the registered topic's entry, and records, counts and publishes nothing |
| Handlers.RunKeepsExcess | nats_contractor/nats.py:103-104 | every routed callback keeps counter minus ledger size constant: append and increment happen together or not at all |
| Handlers.RunAllKeepsExcess | nats_contractor/nats.py:96-106 | a batch of routed deliveries keeps counter minus ledger size constant |
| Handlers.RunGrows | nats_contractor/nats.py:101-106 | one routed delivery never lowers the counter, removes a topic or shortens a topic's list |
| Handlers.RunAllGrows | nats_contractor/nats.py:96-106 | over a batch, the counter never decreases, no topic disappears, and each topic's old list is a prefix of its new one |
| Handlers.RunAllExtendsTrace | nats_contractor/nats.py:64 | callbacks only append to the call trace (the responder's replies) |
| Handlers.RunCollects | nats_contractor/nats_streaming.py:107-112 | one delivery to a present, registered topic appends there, counts one, and leaves every other topic as it was |
| Handlers.RunAllCollects | nats_contractor/nats.py:101-104 | with all topics present and registered, each topic ends as its old list followed by the batch's payloads for it in delivery order, and the counter grows by the batch length |
| WaitPolicy.Resolve | nats_contractor/nats_base_class.py:110-115 | an absent or zero argument falls back to the session default; any other value is used as given |
| WaitPolicy.Poll | nats_contractor/nats_base_class.py:117-122 | the poll loop ends with the target met or the timeout exceeded; it ends at once when the target is already met; it never runs past the first tick after the timeout |
| WaitPolicy.PollEndState | nats_contractor/nats_base_class.py:117-122 | the state at which polling stops is exactly the one the sleeps up to that tick produce |
| WaitPolicy.PollNoEarlierExit | nats_contractor/nats_base_class.py:118-119 | at every tick before the stop, the target was still unmet and the timeout not yet exceeded |
| WaitPolicy.ElapseQuiet | nats_contractor/nats_base_class.py:124 | sleeping through ticks that deliver nothing leaves the state unchanged |
| WaitPolicy.PollQuiet | nats_contractor/nats_base_class.py:117-122 | polling with nothing delivered leaves the state unchanged, whether it stops on the target or on the timeout |
| WaitPolicy.ElapsePastSchedule | nats_contractor/nats_base_class.py:124 | a grace sleep after the last scheduled delivery changes nothing |
| WaitPolicy.WaitQuiet | nats_contractor/nats_base_class.py:117-124 | the whole wait only reads the counter: with nothing delivered, ledger, counter and trace are as before |
| WaitPolicy.WaitBounded | nats_contractor/nats_base_class.py:117-122 | polling lasts at most timeout + 1 ticks, none when the target is already met, and exactly timeout + 1 when it ends short of the target |
| WaitPolicy.ElapseGrows | nats_contractor/nats_base_class.py:122-124 | sleeping with routed deliveries only raises the counter and extends topic lists |
| WaitPolicy.ElapseCollects | nats_contractor/nats_base_class.py:122-124 | with every scheduled message reaching a present, registered topic, sleeping n ticks leaves each topic as its old list followed by the payloads those ticks deliver for it, in order, and raises the counter by the number delivered |
| WaitPolicy.WaitCollects | nats_contractor/nats_base_class.py:99-124 | the dict a wait returns: each topic holds its old list followed by exactly the payloads delivered for it during the poll and grace ticks, in delivery order, and the counter grows by the number of those deliveries |
| WaitPolicy.ElapseKeepsExcess | nats_contractor/nats_base_class.py:122-124 | sleeping through routed deliveries keeps the counter and the ledger size in step |
| WaitPolicy.WaitCountsLedger | nats_contractor/nats_base_class.py:85-89 | from the state `start_listen_all` leaves (ledger reset, counter 0), the counter the wait polls equals the number of payloads in the ledger it ends with |
| NatsBase.Session.constructor | nats_contractor/nats_base_class.py:10-37 | no loop, no connection, no handles, counter 0, every configured topic empty; the timeout, grace and target given (2000 and 100 one-millisecond ticks and 0 when omitted) stored |
| NatsBase.Session.SetLoop | nats_contractor/nats_base_class.py:46-51 | the loop becomes the given one |
| NatsBase.Session.SetSubjects | nats_contractor/nats_base_class.py:60-66 | the ledger becomes the given one |
| NatsBase.Session.Connect | nats_contractor/nats_base_class.py:91-93 | a new connection gets a fresh id and issues one connect call to the connect string |
| NatsBase.Session.Subscribe | nats_contractor/nats.py:39 | a subscription gets a fresh handle and is registered with its callback |
| NatsBase.Session.Unsubscribe | nats_contractor/nats.py:88 | the handle's registration ends and an unsubscribe call is issued |
| NatsBase.Session.Publish | nats_contractor/nats.py:22 | one publish call on the given connection |
| NatsBase.Session.Close | nats_contractor/nats.py:90 | the connection's registrations end, and so do those of the streaming sessions over it; a close call is issued |
| NatsBase.Session.Deliver | nats_contractor/nats_base_class.py:122 | the event loop runs the registered callback of one delivery, as `Run` specifies |
| NatsBase.Session.DeliverBatch | nats_contractor/nats_base_class.py:122 | a batch of deliveries runs in order, as `RunAll` specifies |
| NatsBase.Session.Pend | nats_contractor/nats.py:125 | the traffic while a request is pending: the harness's state and the publishes carried, in order, are as `RunPending` specifies |
| NatsBase.Session.Sleep | nats_contractor/nats_base_class.py:122 | sleeping n ticks runs those ticks' batches, as `Elapse` specifies |
| NatsBase.Session.StartListenAll | nats_contractor/nats_base_class.py:85-93 | handles cleared, counter 0, ledger reset to the configured topics; connects only when no connection exists, otherwise reuses it |
| NatsBase.Session.WaitMsgs | nats_contractor/nats_base_class.py:107-124 | raises (no state change) exactly when there is no connection; otherwise reports poll ticks, grace ticks and whether it timed out, and ends in the state `WaitEffect` specifies |
| Nats.ResponseOf | nats_contractor/nats.py:125-130 | the sentinel exactly when no reply came, the reply's bytes otherwise |
| Nats.NatsQA.constructor | nats_contractor/nats_base_class.py:10-37 | the inherited initial session, with the same defaults; no streaming session is ever opened |
| Nats.NatsQA.Send | nats_contractor/nats.py:18-25 | a throwaway connection publishes once and closes; the listening registrations are untouched |
| Nats.NatsQA.StartListenAll | nats_contractor/nats.py:34-42 | base reset and connect, then one accumulating subscription per ledger key in key order; the handle list is exactly the new handles and earlier registrations stay live |
| Nats.NatsQA.SubscribeAll | nats_contractor/nats.py:37-40 | the subscribe loop: the ledger stays reset, handles and registrations as `Ids` and `Register` specify, calls as `Subscribes` |
| Nats.NatsQA.StartListenWithRespond | nats_contractor/nats.py:52-72 | connects only when needed, empties or creates the topic's entry, registers one responder and appends its handle; the counter and other entries are kept |
| Nats.NatsQA.RespondHandler | nats_contractor/nats.py:57-66 | the imperative responder equals `Handlers.RespondHandler` |
| Nats.NatsQA.TotalHandle | nats_contractor/nats.py:101-106 | the imperative handler equals `Handlers.TotalHandle` keyed by the message's subject |
| Nats.NatsQA.UnsubscribeAll | nats_contractor/nats.py:87-88 | every handle unsubscribed on the connection, in order |
| Nats.NatsQA.Teardown | nats_contractor/nats.py:87-91 | all handles unsubscribed, the connection closed, no registration left, loop and connection absent |
| Nats.NatsQA.WaitMsgs | nats_contractor/nats.py:85-94 | without a connection: nothing changes and nothing is returned; otherwise the wait's ledger is returned, every handle unsubscribed, the connection closed (ending any registration left out of the handle list, so none is left) and loop and connection absent |
| Nats.NatsQA.RequestRespond | nats_contractor/nats.py:116-135 | falsy timeout falls back to the global one; a throwaway connection sends the request; while it is pending the harness's own callbacks run and other clients publish; the answer is the first publish to the inbox in that window, whoever made it, else the sentinel; the connection is closed and the listening session's handles and registrations are untouched |
| NatsStreaming.DurableName | nats_contractor/nats_streaming.py:61-62 | the sentinel argument means the global durable name; any other name is used as given |
| NatsStreaming.NatsStreamingQA.constructor | nats_contractor/nats_streaming.py:12-29 | the base session, no streaming session, the durable name and cluster stored (`durable_name` and `test-cluster` when omitted) |
| NatsStreaming.NatsStreamingQA.StanConnect | nats_contractor/nats_streaming.py:66-67 | a new streaming session with a fresh id on the configured cluster, recorded as running over the given transport connection |
| NatsStreaming.NatsStreamingQA.StanSubscribe | nats_contractor/nats_streaming.py:71-72 | a durable subscription with a fresh handle, registered with the streaming handler |
| NatsStreaming.NatsStreamingQA.StanUnsubscribe | nats_contractor/nats_streaming.py:92 | the handle's registration ends |
| NatsStreaming.NatsStreamingQA.StanClose | nats_contractor/nats_streaming.py:94 | the streaming session's own registrations end; the transport under it stays open |
| NatsStreaming.NatsStreamingQA.Send | nats_contractor/nats_streaming.py:38-50 | a throwaway connection plus streaming session, one publish, then the session closed before the connection; the listening registrations are untouched |
| NatsStreaming.NatsStreamingQA.StartListenAll | nats_contractor/nats_streaming.py:60-75 | durable-name fallback, base reset and connect, a new streaming session on every call, then one durable subscription per ledger key in key order |
| NatsStreaming.NatsStreamingQA.SubscribeAll | nats_contractor/nats_streaming.py:69-73 | the durable subscribe loop, as `Register` and `StanSubscribes` specify |
| NatsStreaming.NatsStreamingQA.TotalHandle | nats_contractor/nats_streaming.py:107-112 | equals `Handlers.TotalHandle` keyed by the subscription's subject |
| NatsStreaming.NatsStreamingQA.ErrorHandler | nats_contractor/nats_streaming.py:114-119 | the error callback leaves the session exactly as it was |
| NatsStreaming.NatsStreamingQA.UnsubscribeAll | nats_contractor/nats_streaming.py:91-92 | every handle unsubscribed, in order |
| NatsStreaming.NatsStreamingQA.CloseAll | nats_contractor/nats_streaming.py:94-96 | the streaming session closed before the transport connection, which ends every registration of any streaming session over it, so none is left; loop, connection and session absent |
| NatsStreaming.NatsStreamingQA.WaitMsgs | nats_contractor/nats_streaming.py:88-100 | without a connection: nothing changes, nothing is returned. Otherwise: handles unsubscribed after the wait; with a streaming session, both layers closed, no registration left and the wait's ledger returned; without one (AttributeError), nothing is returned and the transport connection stays open |
| Scenarios.SmokeWait | integration_tests/src/tests/test_nats_smoke.py:29 | one message on the first topic, target one: the poll stops after one tick and the ledger holds exactly that payload |
| Scenarios.NatsSmoke | integration_tests/src/tests/test_nats_smoke.py:22-30 | listen, send on the first topic, wait for one: the first topic holds the payload, the second is present and empty, no registration is left |
| Scenarios.StanSmoke | integration_tests/src/tests/test_stan_smoke.py:22-28 | the same run on the durable variant, with the exact connect and durable-subscribe calls, and no registration left |
| Scenarios.RequestExchange | nats_contractor/nats.py:57-66 | during the request, the responder recreates its key dropped by the reset, records and counts the request and publishes the reply to the inbox |
| Scenarios.RequestRespondRun | integration_tests/src/tests/test_nats_request_respond.py:17-31 | responder registered before listening: the answer is the canned reply; the ledger holds the request under the recreated key and the sent payload under the second topic; closing the connection ends the responder's registration although its handle was dropped from the handle list |
| Scenarios.ServiceAnswers | nats_contractor/nats.py:116-133 | a listener with no responder of its own: another client's reply to the inbox is the answer, and the ledger and counter are untouched |
| Scenarios.StanRelisten | nats_contractor/nats_streaming.py:60-98 | two streaming listens on one object, then a wait: the empty ledger is returned and no durable subscription of the first, replaced session survives the teardown |
| Scenarios.TwoCycles | nats_contractor/nats_base_class.py:85-93 | a second cycle on the same object opens a new connection and starts from an empty ledger, so nothing from the first cycle is reported again |

## Left out

- Real NATS and NATS Streaming clients, the network and broker-side failures are not modelled. The broker is reduced to identifiers, registrations and a call trace.
  - Exceptions other than those listed here are left out: a failing connect, subscribe, publish or close, and the generic `except Exception` around them.
  - The modelled error paths:
    - the base wait raising when there is no connection;
    - the missing streaming session in `wait_msgs`;
    - KeyError in the handlers;
    - a responder without a connection.
- Concurrency of the asyncio event loop: callbacks run only during the wait's sleeps and while a request is pending. Deliveries the real loop could make at other suspension points (connect, subscribe, send) belong in the next modelled window.
- Wall-clock time and float seconds are not modelled. Durations are whole milliseconds. Elapsed time is the number of one-tick poll sleeps; time spent in callbacks is not counted.
- Subject matching and wildcards: the schedule names the subscription each message reaches. `Handlers.Routed` states the exact-subject case.
- The logger, `message.SerializeToString()` (payloads are given as bytes) and the abstract-method machinery of `abc` are not modelled.
- The `loop` and `subjects` getters are not modelled separately: they are plain reads of the modelled fields. The event loop itself is an opaque identifier.
- Nats.NatsQA.WaitMsgs: returns the ledger as a value. The code returns the live dict, which a later `start_listen_with_respond` writes into without a reset; that aliasing is not captured.
- NatsStreaming.NatsStreamingQA.WaitMsgs: returns the ledger as a value, with the same limit on aliasing.
- NatsStreaming.NatsStreamingQA.StanConnect: the client id is derived from the clock in the source and is not unique in general. The model uses the fresh session identifier instead.
- Nats.NatsQA.RequestRespond: does not model how long the request waits. Every reply published in the pending window counts, from the harness or from another client, and the timeout is only recorded in the request call.
- NatsBase.Session.subjectsList: the topic list is taken by value. The code keeps a reference to the caller's list, so a later change to that list would change what `start_listen_all` rebuilds; the model does not capture that aliasing.
- `setup.py` and the integration settings are not part of this model beyond the topic list and timeouts the scenarios use.

Behaviour of the code worth knowing:
- `wait_msgs` returns the collector's own dict, not a disconnected snapshot.
- `wait_msgs` keeps the handle list; it does not clear it.
- The streaming `wait_msgs` without a streaming session stops after the unsubscribes, leaving the transport connection open.
- In the request-respond run, the reset in `start_listen_all` drops the responder's key. The responder recreates it when the request arrives, and the first configured topic is still present (empty) in the result.
