/**
 * The harness's own usage, end to end on the model: the two smoke runs and the request-respond run of the
 * integration suite, and a second listening cycle on the same object, for any two distinct configured
 * topics, any payloads and any non-negative timeouts. The broker delivers the published messages at the schedule
 * ticks given here.
 */
module Scenarios {
  import opened Types
  import opened Broker
  import opened Ledger
  import opened Handlers
  import opened WaitPolicy
  import opened NatsBase
  import Nats
  import NatsStreaming

  /** The registrations `start_listen_all` adds on connection `conn`, handles `first` and `first + 1`. */
  lemma ListenRegistrations(subs: map<Id, Sub>, conn: Id, first: Id, t1: Topic, t2: Topic, cb: Callback)
    ensures Register(subs, conn, first, [t1, t2], cb) == subs[first := Sub(conn, t1, cb)][first + 1 := Sub(conn, t2, cb)]
  {
    assert [t1, t2][..1] == [t1] && [t1][..0] == [];
    assert Register(subs, conn, first, [], cb) == subs;
    assert Register(subs, conn, first, [t1], cb) == subs[first := Sub(conn, t1, cb)];
  }

  /** Two distinct topics are their own listening keys, and start with empty lists. */
  lemma TwoTopics(t1: Topic, t2: Topic)
    requires t1 != t2
    ensures Dedup([t1, t2]) == [t1, t2]
    ensures EmptyLedger([t1, t2]) == map[t1 := [], t2 := []]
  {
  }

  /**
   * One message on the first topic during the first poll tick, a target of one: the poll stops after
   * that tick and the grace sleep adds nothing.
   */
  lemma SmokeWait(subs: map<Id, Sub>, sid: Id, nc: Option<Id>, trace: seq<Call>, t1: Topic, t2: Topic, p: Payload,
                  timeout: nat, grace: int)
    requires t1 != t2
    requires sid in subs && (subs[sid].cb.TotalHandle? || (subs[sid].cb.StanTotalHandle? && subs[sid].subject == t1))
    ensures var schedule := [[Delivery(sid, Msg(t1, "", p))]];
            Poll(Collected(map[t1 := [], t2 := []], 0, trace), subs, nc, 1, timeout, schedule, 0)
              == PollEnd(Collected(map[t1 := [p], t2 := []], 1, trace), 1)
    ensures var schedule := [[Delivery(sid, Msg(t1, "", p))]];
            WaitEffect(Collected(map[t1 := [], t2 := []], 0, trace), subs, nc, 1, timeout, grace, schedule)
              == Collected(map[t1 := [p], t2 := []], 1, trace)
  {
    var schedule := [[Delivery(sid, Msg(t1, "", p))]];
    var c0 := Collected(map[t1 := [], t2 := []], 0, trace);
    var c1 := Collected(map[t1 := [p], t2 := []], 1, trace);
    var d := Delivery(sid, Msg(t1, "", p));
    assert Run(c0, subs, nc, d) == Handlers.TotalHandle(c0, t1, p);
    assert [] + [p] == [p];
    assert c0.subjects[t1 := [p]] == c1.subjects;
    assert [d][..0] == [];
    assert RunAll(c0, subs, nc, [d]) == c1;
    assert Elapse(c0, subs, nc, schedule, 0, 1) == c1;
    assert Poll(c0, subs, nc, 1, timeout, schedule, 0) == PollEnd(c1, 1);
    ElapsePastSchedule(c1, subs, nc, schedule, 1, Ticks(grace));
  }

  /** A new best-effort listener on two distinct topics: connection 0, handles 1 and 2, empty ledger. */
  method Listen(t1: Topic, t2: Topic, servers: string, timeout: nat, grace: int) returns (q: Nats.NatsQA)
    requires t1 != t2
    ensures fresh(q) && fresh(q.base) && q.Valid()
    ensures q.base.nc == Some(0) && q.base.nextId == 3 && q.base.ssids == [1, 2]
    ensures q.base.subs == map[1 := Sub(0, t1, Callback.TotalHandle), 2 := Sub(0, t2, Callback.TotalHandle)]
    ensures q.base.subjects == map[t1 := [], t2 := []] && q.base.totalMsg == 0
    ensures q.base.subjectsList == [t1, t2] && q.base.connectString == servers
    ensures q.base.globalTimeout == timeout && q.base.globalAddWait == grace && q.base.globalMsgsAwait == 0
  {
    q := new Nats.NatsQA([t1, t2], servers, timeout, grace, 0);
    q.StartListenAll();
    TwoTopics(t1, t2);
    ListenRegistrations(map[], 0, 1, t1, t2, Callback.TotalHandle);
  }

  /**
   * Listen on both topics, send one message on the first, wait for one message: the first topic holds
   * it, the second is present and empty, and the harness holds no registration afterwards.
   */
  method NatsSmoke(t1: Topic, t2: Topic, p: Payload, servers: string, timeout: nat, grace: int)
    returns (r: Option<Ledger>, left: map<Id, Sub>)
    requires t1 != t2
    ensures r == Some(map[t1 := [p], t2 := []])
    ensures left == map[]
  {
    var q := Listen(t1, t2, servers, timeout, grace);
    r := SmokeCycle(q, t1, t2, p, timeout, grace);
    left := q.base.subs;
  }

  /** The rest of a smoke run on a new listener: send on the first topic, wait for one message. */
  method SmokeCycle(q: Nats.NatsQA, t1: Topic, t2: Topic, p: Payload, timeout: nat, grace: int) returns (r: Option<Ledger>)
    requires t1 != t2 && q.Valid()
    requires q.base.nc == Some(0) && q.base.nextId == 3 && q.base.ssids == [1, 2]
    requires q.base.subs == map[1 := Sub(0, t1, Callback.TotalHandle), 2 := Sub(0, t2, Callback.TotalHandle)]
    requires q.base.subjects == map[t1 := [], t2 := []] && q.base.totalMsg == 0
    requires q.base.globalTimeout == timeout && q.base.globalAddWait == grace
    modifies q.base
    ensures q.Valid()
    ensures r == Some(map[t1 := [p], t2 := []])
    ensures q.base.nc == None && q.base.nextId == 4 && q.base.subs == map[]
  {
    var subs := q.base.subs;
    q.Send(t1, p);
    var schedule := [[Delivery(1, Msg(t1, "", p))]];
    SmokeWait(subs, 1, Some(0), q.base.trace, t1, t2, p, timeout, grace);
    assert q.base.WaitOutcome(Some(1), None, None, schedule) == Collected(map[t1 := [p], t2 := []], 1, q.base.trace);
    r := q.WaitMsgs(Some(1), schedule := schedule);
  }

  /** The durable subscribe calls of `start_listen_all` for the two configured topics. */
  lemma StanListenCalls(sc: Id, first: Id, t1: Topic, t2: Topic, durable: string)
    ensures StanSubscribes(sc, first, [t1, t2], durable)
            == [StanSubscribe(sc, first, t1, durable), StanSubscribe(sc, first + 1, t2, durable)]
  {
    assert [t1, t2][..1] == [t1] && [t1][..0] == [];
    assert StanSubscribes(sc, first, [t1], durable) == [StanSubscribe(sc, first, t1, durable)];
  }

  /**
   * A new streaming listener on two distinct topics under the global durable name: transport connection
   * 0, streaming session 1, handles 2 and 3, empty ledger.
   */
  method StanListen(t1: Topic, t2: Topic, servers: string, timeout: nat, grace: int, durable: string, cluster: string)
    returns (q: NatsStreaming.NatsStreamingQA)
    requires t1 != t2
    ensures fresh(q) && fresh(q.base) && q.Valid()
    ensures q.base.nc == Some(0) && q.sc == Some(1) && q.base.nextId == 4 && q.base.ssids == [2, 3]
    ensures q.base.stanOn == map[1 := 0]
    ensures q.base.subs == map[2 := Sub(1, t1, Callback.StanTotalHandle), 3 := Sub(1, t2, Callback.StanTotalHandle)]
    ensures q.base.subjects == map[t1 := [], t2 := []] && q.base.totalMsg == 0
    ensures q.base.trace == [Call.Connect(0, servers), Call.StanConnect(1, cluster, 0),
                             StanSubscribe(1, 2, t1, durable), StanSubscribe(1, 3, t2, durable)]
    ensures q.base.connectString == servers && q.clusterName == cluster && q.base.subjectsList == [t1, t2]
    ensures q.base.globalTimeout == timeout && q.base.globalAddWait == grace && q.base.globalMsgsAwait == 0
  {
    q := new NatsStreaming.NatsStreamingQA([t1, t2], servers, timeout, grace, 0, durable, cluster);
    q.StartListenAll();
    TwoTopics(t1, t2);
    ListenRegistrations(map[], 1, 2, t1, t2, Callback.StanTotalHandle);
    StanListenCalls(1, 2, t1, t2, durable);
  }

  /**
   * The streaming smoke run: transport connection 0, streaming session 1, durable subscriptions 2 and 3
   * under the global durable name; one message on the first topic is collected under the subscription's
   * subject, and both layers close without a registration left over.
   */
  method StanSmoke(t1: Topic, t2: Topic, p: Payload, servers: string, timeout: nat, grace: int, durable: string, cluster: string)
    returns (r: Option<Ledger>, left: map<Id, Sub>, listenTrace: seq<Call>)
    requires t1 != t2
    ensures r == Some(map[t1 := [p], t2 := []])
    ensures left == map[]
    ensures listenTrace == [Call.Connect(0, servers), Call.StanConnect(1, cluster, 0),
                            StanSubscribe(1, 2, t1, durable), StanSubscribe(1, 3, t2, durable)]
  {
    var q := StanListen(t1, t2, servers, timeout, grace, durable, cluster);
    var subs := q.base.subs;
    listenTrace := q.base.trace;
    q.Send(t1, p);
    var schedule := [[Delivery(2, Msg(t1, "", p))]];
    SmokeWait(subs, 2, Some(0), q.base.trace, t1, t2, p, timeout, grace);
    assert q.base.WaitOutcome(Some(1), None, None, schedule) == Collected(map[t1 := [p], t2 := []], 1, q.base.trace);
    r := q.WaitMsgs(Some(1), schedule := schedule);
    assert DropConn(map[], q.base.stanOn, 0) == map[];
    left := q.base.subs;
  }

  /**
   * While the request is pending the broker runs the second topic's subscriber on the message sent
   * before, then the responder on the request: the responder's key, dropped by the reset of
   * `start_listen_all`, is recreated, the request is recorded and counted, and the reply is published to
   * the request's inbox on the listening connection.
   */
  lemma RequestExchange(subs: map<Id, Sub>, sent: seq<Call>, t1: Topic, t2: Topic, rt: Topic, inbox: Topic,
                        p: Payload, request: Payload, reply: Payload)
    requires t1 != t2 && t1 != rt && t2 != rt
    requires subs == map[1 := Sub(0, rt, Callback.RespondHandler(rt, reply)),
                         2 := Sub(0, t1, Callback.TotalHandle), 3 := Sub(0, t2, Callback.TotalHandle)]
    ensures RunPending(Collected(map[t1 := [], t2 := []], 0, sent), subs, Some(0),
                       [Own(Delivery(3, Msg(t2, "", p))), Own(Delivery(1, Msg(rt, inbox, request)))])
            == Window(Collected(map[t1 := [], t2 := [p], rt := [request]], 2, sent + [Publish(0, inbox, reply)]),
                      [Publish(0, inbox, reply)])
  {
    var d1 := Delivery(3, Msg(t2, "", p));
    var d2 := Delivery(1, Msg(rt, inbox, request));
    var c0 := Collected(map[t1 := [], t2 := []], 0, sent);
    var c1 := Collected(map[t1 := [], t2 := [p]], 1, sent);
    assert [] + [p] == [p] && [] + [request] == [request];
    assert c0.subjects[t2 := [p]] == c1.subjects;
    assert Run(c0, subs, Some(0), d1) == c1;
    assert [Own(d1), Own(d2)][..1] == [Own(d1)] && [Own(d1)][..0] == [];
    assert c1.trace[|sent|..] == [];
    assert RunPending(c0, subs, Some(0), [Own(d1)]) == Window(c1, []);
    var l := c1.subjects[rt := []];
    assert l[rt := [request]] == map[t1 := [], t2 := [p], rt := [request]];
    var c2 := Collected(l[rt := [request]], 2, sent + [Publish(0, inbox, reply)]);
    assert Run(c1, subs, Some(0), d2) == c2;
    assert [] + c2.trace[|sent|..] == [Publish(0, inbox, reply)];
  }

  /** A new best-effort listener with the responder registered before `start_listen_all`. */
  method RespondListen(t1: Topic, t2: Topic, rt: Topic, reply: Payload, servers: string, timeout: nat, grace: int)
    returns (q: Nats.NatsQA)
    requires t1 != t2
    ensures fresh(q) && fresh(q.base) && q.Valid()
    ensures q.base.nc == Some(0) && q.base.nextId == 4 && q.base.ssids == [2, 3]
    ensures q.base.subs == map[1 := Sub(0, rt, Callback.RespondHandler(rt, reply)),
                               2 := Sub(0, t1, Callback.TotalHandle), 3 := Sub(0, t2, Callback.TotalHandle)]
    ensures q.base.subjects == map[t1 := [], t2 := []] && q.base.totalMsg == 0
    ensures q.base.connectString == servers
    ensures q.base.globalTimeout == timeout && q.base.globalAddWait == grace && q.base.globalMsgsAwait == 0
  {
    q := new Nats.NatsQA([t1, t2], servers, timeout, grace, 0);
    q.StartListenWithRespond(rt, reply);
    var responder := Sub(0, rt, Callback.RespondHandler(rt, reply));
    assert q.base.nc == Some(0) && q.base.subs == map[1 := responder] && q.base.ssids == [1];
    q.StartListenAll();
    TwoTopics(t1, t2);
    ListenRegistrations(map[1 := responder], 0, 2, t1, t2, Callback.TotalHandle);
    var subs := map[1 := responder, 2 := Sub(0, t1, Callback.TotalHandle), 3 := Sub(0, t2, Callback.TotalHandle)];
    assert q.base.nc == Some(0) && q.base.subs == subs && q.base.ssids == [2, 3];
    assert q.base.subjects == map[t1 := [], t2 := []] && q.base.totalMsg == 0;
  }

  /**
   * The request-respond run: the responder is registered first, then `start_listen_all` resets the ledger
   * (dropping the responder's key and its handle from the handle list, while its registration stays
   * live), a message is sent on the second topic and a request on the responder's topic. The answer is
   * the responder's reply; the wait finds the target of two already met; the returned ledger holds the
   * request under the recreated key and the message under the second topic; closing the listening
   * connection ends the responder's registration too, though its handle was never unsubscribed.
   */
  method RequestRespondRun(t1: Topic, t2: Topic, rt: Topic, inbox: Topic, p: Payload, request: Payload, reply: Payload,
                           servers: string, timeout: nat, grace: int)
    returns (answer: Nats.Response, r: Option<Ledger>, left: map<Id, Sub>)
    requires t1 != t2 && t1 != rt && t2 != rt
    ensures answer == Nats.Reply(reply)
    ensures r == Some(map[t1 := [], t2 := [p], rt := [request]])
    ensures left == map[]
  {
    var q := RespondListen(t1, t2, rt, reply, servers, timeout, grace);
    var subs := q.base.subs;
    q.Send(t2, p);
    ghost var sent := q.base.trace + [Call.Connect(5, servers), Request(5, rt, request, timeout, inbox)];
    RequestExchange(subs, sent, t1, t2, rt, inbox, p, request, reply);
    assert q.base.nextId == 5;
    answer := q.RequestRespond(rt, request, inbox := inbox, during := [Own(Delivery(3, Msg(t2, "", p))), Own(Delivery(1, Msg(rt, inbox, request)))]);
    assert FirstReply([Publish(0, inbox, reply)], inbox) == Some(reply);
    assert q.base.subjects == map[t1 := [], t2 := [p], rt := [request]] && q.base.totalMsg == 2;
    assert q.base.subs == subs && q.base.nc == Some(0) && q.base.ssids == [2, 3];
    WaitQuiet(q.base.State(), subs, Some(0), 2, timeout, grace, []);
    assert q.base.WaitOutcome(Some(2), None, None, []) == q.base.State();
    r := q.WaitMsgs(Some(2), schedule := []);
    left := q.base.subs;
  }

  /**
   * Two listening cycles on one object: the second `start_listen_all` opens a fresh connection (the
   * first was closed by `wait_msgs`) and starts from an empty ledger, so a message collected in the first
   * cycle is not reported again; with the default target of zero the second wait does not poll.
   */
  method TwoCycles(t1: Topic, t2: Topic, p: Payload, servers: string, timeout: nat, grace: int)
    returns (first: Option<Ledger>, second: Option<Ledger>, conn2: Option<Id>)
    requires t1 != t2
    ensures first == Some(map[t1 := [p], t2 := []])
    ensures second == Some(map[t1 := [], t2 := []])
    ensures conn2 == Some(4)
  {
    var q := Listen(t1, t2, servers, timeout, grace);
    first := SmokeCycle(q, t1, t2, p, timeout, grace);
    q.StartListenAll();
    TwoTopics(t1, t2);
    conn2 := q.base.nc;
    assert q.base.subjects == map[t1 := [], t2 := []] && q.base.totalMsg == 0;
    WaitQuiet(q.base.State(), q.base.subs, q.base.nc, 0, timeout, grace, []);
    assert q.base.WaitOutcome(None, None, None, []) == q.base.State();
    second := q.WaitMsgs(schedule := []);
  }

  /**
   * The service under test answers: a listener with no responder of its own sends a request, and while
   * it is pending another client publishes its reply to the request's inbox. That reply is the answer,
   * and the listening session's ledger and counter are untouched.
   */
  method ServiceAnswers(t1: Topic, t2: Topic, service: Topic, inbox: Topic, request: Payload, answer: Payload, other: Id,
                        servers: string, timeout: nat, grace: int)
    returns (r: Nats.Response, ledger: Ledger, total: nat)
    requires t1 != t2
    ensures r == Nats.Reply(answer)
    ensures ledger == map[t1 := [], t2 := []] && total == 0
  {
    var q := Listen(t1, t2, servers, timeout, grace);
    var during := [Foreign(other, inbox, answer)];
    ForeignAnswers(q.base.State(), q.base.subs, q.base.nc, during, 0, inbox);
    assert during[..0] == [];
    assert FirstReply(RunPending(Collected(q.base.subjects, 0, q.base.trace), q.base.subs, q.base.nc, []).published, inbox).None?;
    r := q.RequestRespond(service, request, inbox := inbox, during := during);
    ledger, total := q.base.subjects, q.base.totalMsg;
  }

  /** A streaming listener that has listened twice: sessions 1 and 4 both run over transport 0. */
  method StanListenTwice(t1: Topic, t2: Topic, servers: string, timeout: nat, grace: int, durable: string, cluster: string)
    returns (q: NatsStreaming.NatsStreamingQA)
    requires t1 != t2
    ensures fresh(q) && fresh(q.base) && q.Valid()
    ensures q.base.nc == Some(0) && q.sc == Some(4) && q.base.ssids == [5, 6]
    ensures q.base.stanOn == map[1 := 0, 4 := 0]
    ensures q.base.subs == map[2 := Sub(1, t1, Callback.StanTotalHandle), 3 := Sub(1, t2, Callback.StanTotalHandle)]
                             [5 := Sub(4, t1, Callback.StanTotalHandle)][6 := Sub(4, t2, Callback.StanTotalHandle)]
    ensures q.base.subjects == map[t1 := [], t2 := []] && q.base.totalMsg == 0 && q.base.globalMsgsAwait == 0
  {
    q := StanListen(t1, t2, servers, timeout, grace, durable, cluster);
    var durable1 := q.base.subs;
    q.StartListenAll();
    TwoTopics(t1, t2);
    ListenRegistrations(durable1, 4, 5, t1, t2, Callback.StanTotalHandle);
    assert Ids(5, 2) == [5, 6];
  }

  /** Two streaming listens on one object, then a wait: no registration of either session is left. */
  method StanRelisten(t1: Topic, t2: Topic, servers: string, timeout: nat, grace: int, durable: string, cluster: string)
    returns (r: Option<Ledger>, left: map<Id, Sub>)
    requires t1 != t2
    ensures r == Some(map[t1 := [], t2 := []])
    ensures left == map[]
  {
    var q := StanListenTwice(t1, t2, servers, timeout, grace, durable, cluster);
    WaitQuiet(q.base.State(), q.base.subs, q.base.nc, 0, q.base.globalTimeout, q.base.globalAddWait, []);
    assert q.base.WaitOutcome(None, None, None, []) == q.base.State();
    r := q.WaitMsgs(schedule := []);
    left := q.base.subs;
  }
}
