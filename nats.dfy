/**
 * NatsQA: the best-effort variant. Listening, the respond registration, the teardown in `wait_msgs`,
 * its accumulating handler and the one-shot `send` and `request_respond`.
 */
module Nats {
  import opened Types
  import opened Broker
  import opened Ledger
  import opened Handlers
  import opened WaitPolicy
  import opened NatsBase

  /** What `request_respond` returns: the reply's bytes, or the `TimeoutError` class as a sentinel. */
  datatype Response = Reply(data: Payload) | TimeoutSentinel

  /** The sentinel for a request nobody answered, the reply itself otherwise. */
  function ResponseOf(answer: Option<Payload>): (r: Response)
    ensures r.TimeoutSentinel? <==> answer.None?
    ensures answer.Some? ==> r == Reply(answer.value)
  {
    match answer
    case Some(p) => Reply(p)
    case None => TimeoutSentinel
  }

  class NatsQA {
    const base: Session

    /** A best-effort session never opens a streaming session; what it registers is on its connection. */
    ghost predicate Valid()
      reads this, base
    {
      base.Valid() && base.stanOn == map[] && base.Anchored()
    }

    /** The inherited `__init__`. */
    constructor (subjects: seq<Topic>, connectString: string, natsTimeout: int := DefaultTimeout,
                 addAwait: int := DefaultAddAwait, msgsAwait: int := DefaultMsgsAwait)
      ensures Valid() && fresh(base)
      ensures base.loop == None && base.nc == None && base.ssids == [] && base.totalMsg == 0
      ensures base.subjects == EmptyLedger(subjects) && base.subjectsList == subjects
      ensures base.connectString == connectString
      ensures base.globalTimeout == natsTimeout && base.globalAddWait == addAwait && base.globalMsgsAwait == msgsAwait
      ensures base.nextId == 0 && base.subs == map[] && base.trace == []
    {
      base := new Session(subjects, connectString, natsTimeout, addAwait, msgsAwait);
    }

    /**
     * `send`: a throwaway connection, one publish, close. The listening session is untouched: no
     * registration is made on or ended by the throwaway connection.
     */
    method Send(topic: Topic, data: Payload)
      requires Valid()
      modifies base`nextId, base`trace, base`subs
      ensures Valid()
      ensures var conn := old(base.nextId);
              && base.nextId == conn + 1
              && base.trace == old(base.trace) + [Call.Connect(conn, base.connectString), Publish(conn, topic, data), Call.Close(conn)]
      ensures base.subs == old(base.subs)
    {
      var conn := base.Connect();
      base.Publish(conn, topic, data);
      base.Close(conn);
      assert DropConn(old(base.subs), base.stanOn, conn) == old(base.subs);
    }

    /**
     * `start_listen_all`: the base reset and connect, then one subscription with `_total_handle` per
     * ledger key, in key order. Every configured topic ends empty, the handle list holds exactly the new
     * handles, and the registrations made before are all still live.
     */
    method StartListenAll()
      requires Valid()
      modifies base
      ensures Valid()
      ensures base.nc.Some? && base.loop == old(base.loop)
      ensures old(base.nc).Some? ==> base.nc == old(base.nc)
      ensures old(base.nc).None? ==> base.nc == Some(old(base.nextId))
      ensures base.totalMsg == 0 && base.subjects == EmptyLedger(base.subjectsList)
      ensures var keys := Dedup(base.subjectsList);
              var first := old(base.nextId) + if old(base.nc).None? then 1 else 0;
              && base.ssids == Ids(first, |keys|) && base.nextId == first + |keys|
              && base.subs == Register(old(base.subs), base.nc.value, first, keys, Callback.TotalHandle)
              && base.trace == old(base.trace) + (if old(base.nc).None? then [Call.Connect(old(base.nextId), base.connectString)] else [])
                                               + Subscribes(base.nc.value, first, keys)
    {
      base.StartListenAll();
      SubscribeAll(base.nc.value, Dedup(base.subjectsList));
    }

    /** The loop of `start_listen_all`: for each key, empty its entry, subscribe `_total_handle`, keep the handle. */
    method SubscribeAll(conn: Id, keys: seq<Topic>)
      requires Valid() && base.nc == Some(conn)
      requires base.subjects == EmptyLedger(base.subjectsList) && forall t :: t in keys ==> t in base.subjectsList
      modifies base`subjects, base`nextId, base`subs, base`trace, base`ssids
      ensures Valid()
      ensures base.subjects == old(base.subjects)
      ensures base.ssids == old(base.ssids) + Ids(old(base.nextId), |keys|) && base.nextId == old(base.nextId) + |keys|
      ensures base.subs == Register(old(base.subs), conn, old(base.nextId), keys, Callback.TotalHandle)
      ensures base.trace == old(base.trace) + Subscribes(conn, old(base.nextId), keys)
    {
      for i := 0 to |keys|
        invariant Valid()
        invariant base.subjects == old(base.subjects)
        invariant base.nextId == old(base.nextId) + i && base.ssids == old(base.ssids) + Ids(old(base.nextId), i)
        invariant base.subs == Register(old(base.subs), conn, old(base.nextId), keys[..i], Callback.TotalHandle)
        invariant base.trace == old(base.trace) + Subscribes(conn, old(base.nextId), keys[..i])
      {
        EmptyLedgerReset(base.subjectsList, keys[i]);
        base.subjects := base.subjects[keys[i] := []];
        var sid := base.Subscribe(conn, keys[i], Callback.TotalHandle);
        base.ssids := base.ssids + [sid];
        assert keys[..i + 1][..i] == keys[..i] && keys[..i + 1][i] == keys[i];
        assert sid == old(base.nextId) + i;
        assert Ids(old(base.nextId), i + 1) == Ids(old(base.nextId), i) + [sid];
        assert Register(old(base.subs), conn, old(base.nextId), keys[..i + 1], Callback.TotalHandle)
               == Register(old(base.subs), conn, old(base.nextId), keys[..i], Callback.TotalHandle)[sid := Sub(conn, keys[i], Callback.TotalHandle)];
        assert Subscribes(conn, old(base.nextId), keys[..i + 1]) == Subscribes(conn, old(base.nextId), keys[..i]) + [Call.Subscribe(conn, sid, keys[i])];
      }
      assert keys[..|keys|] == keys;
    }

    /**
     * `start_listen_with_respond(topic, respond_proto)`: connects only when no connection exists, empties
     * (or creates) the topic's entry, and registers one responder whose handle joins the handle list.
     * The counter and every other ledger entry are left as they were.
     */
    method StartListenWithRespond(topic: Topic, reply: Payload)
      requires Valid()
      modifies base
      ensures Valid()
      ensures base.nc.Some? && base.loop == old(base.loop)
      ensures old(base.nc).Some? ==> base.nc == old(base.nc)
      ensures old(base.nc).None? ==> base.nc == Some(old(base.nextId))
      ensures base.totalMsg == old(base.totalMsg) && base.subjects == old(base.subjects)[topic := []]
      ensures var sid := old(base.nextId) + if old(base.nc).None? then 1 else 0;
              && sid !in old(base.subs)
              && base.nextId == sid + 1
              && base.ssids == old(base.ssids) + [sid]
              && base.subs == old(base.subs)[sid := Sub(base.nc.value, topic, Callback.RespondHandler(topic, reply))]
              && base.trace == old(base.trace) + (if old(base.nc).None? then [Call.Connect(old(base.nextId), base.connectString)] else [])
                                               + [Call.Subscribe(base.nc.value, sid, topic)]
    {
      if base.nc.None? {
        var conn := base.Connect();
        base.nc := Some(conn);
      }
      base.subjects := base.subjects[topic := []];
      var sid := base.Subscribe(base.nc.value, topic, Callback.RespondHandler(topic, reply));
      base.ssids := base.ssids + [sid];
    }

    /**
     * `respond_handler`, the closure registered for `topic` with reply `reply`: recreates a missing entry,
     * records and counts the message, then publishes the reply to `msg.reply` on the session's connection.
     */
    method RespondHandler(topic: Topic, reply: Payload, msg: Msg)
      modifies base`subjects, base`totalMsg, base`trace
      ensures base.State() == Handlers.RespondHandler(old(base.State()), base.nc, topic, reply, msg)
    {
      if msg.subject !in base.subjects {
        base.subjects := base.subjects[topic := []];
      }
      if msg.subject in base.subjects {
        base.subjects := base.subjects[msg.subject := base.subjects[msg.subject] + [msg.data]];
        base.totalMsg := base.totalMsg + 1;
        if base.nc.Some? {
          base.Publish(base.nc.value, msg.reply, reply);
        }
      }
    }

    /** `_total_handle`: record under the message's subject and count, or change nothing on a missing key. */
    method TotalHandle(msg: Msg)
      modifies base`subjects, base`totalMsg
      ensures base.State() == Handlers.TotalHandle(old(base.State()), msg.subject, msg.data)
    {
      if msg.subject in base.subjects {
        base.subjects := base.subjects[msg.subject := base.subjects[msg.subject] + [msg.data]];
        base.totalMsg := base.totalMsg + 1;
      }
    }

    /** The unsubscribe loop of `wait_msgs`, on connection `conn`. */
    method UnsubscribeAll(conn: Id, handles: seq<Id>)
      requires Valid()
      modifies base`subs, base`trace
      ensures Valid()
      ensures base.subs == Unregister(old(base.subs), handles)
      ensures base.trace == old(base.trace) + Unsubscribes(conn, handles)
    {
      for i := 0 to |handles|
        invariant Valid()
        invariant base.subs == Unregister(old(base.subs), handles[..i])
        invariant base.trace == old(base.trace) + Unsubscribes(conn, handles[..i])
      {
        assert handles[..i + 1][..i] == handles[..i];
        base.Unsubscribe(conn, handles[i]);
      }
      assert handles[..|handles|] == handles;
    }

    /** The teardown of `wait_msgs`: every handle unsubscribed, the connection closed, loop and connection gone. */
    method Teardown()
      requires Valid() && base.nc.Some?
      modifies base`subs, base`trace, base`loop, base`nc
      ensures Valid()
      ensures var conn := old(base.nc).value;
              && base.trace == old(base.trace) + Unsubscribes(conn, base.ssids) + [Call.Close(conn)]
              && base.subs == DropConn(Unregister(old(base.subs), base.ssids), base.stanOn, conn)
              && base.subs == map[]
              && base.nc == None && base.loop == None
    {
      var conn := base.nc.value;
      UnsubscribeAll(conn, base.ssids);
      DropAll(base.subs, base.stanOn, conn);
      base.Close(conn);
      base.loop, base.nc := None, None;
    }

    /**
     * `wait_msgs`: the base wait; then every handle in the handle list is unsubscribed, the connection is
     * closed, loop and connection become absent, and the ledger is returned. When the base wait raises
     * (no connection) the error is logged and nothing is returned, with the session as it was.
     */
    method WaitMsgs(msgsAwait: Option<int> := None, timeout: Option<int> := None, addAwait: Option<int> := None, schedule: seq<seq<Delivery>>)
      returns (r: Option<Ledger>)
      requires Valid()
      modifies base
      ensures Valid()
      ensures old(base.nc).None? ==> r.None? && unchanged(base)
      ensures old(base.nc).Some? ==>
                var conn := old(base.nc).value;
                var w := old(base.WaitOutcome(msgsAwait, timeout, addAwait, schedule));
                && r == Some(w.subjects)
                && base.subjects == w.subjects && base.totalMsg == w.total
                && base.trace == w.trace + Unsubscribes(conn, old(base.ssids)) + [Call.Close(conn)]
                && base.subs == DropConn(Unregister(old(base.subs), old(base.ssids)), base.stanOn, conn)
                && base.subs == map[]
                && base.nc == None && base.loop == None
                && base.ssids == old(base.ssids) && base.nextId == old(base.nextId)
    {
      ghost var outcome := base.WaitOutcome(msgsAwait, timeout, addAwait, schedule);
      var w := base.WaitMsgs(msgsAwait, timeout, addAwait, schedule);
      if w.NoConnection? {
        return None;
      }
      assert base.State() == outcome;
      Teardown();
      return Some(base.subjects);
    }

    /**
     * `request_respond`: the timeout falls back to the global one when falsy; a throwaway connection sends
     * the request and the broker carries the traffic `during` while it is pending: the callbacks of this
     * very session (a responder among them) and the publishes of other clients (the service under test).
     * The first payload published to the request's inbox in that window is the answer; with none, the
     * result is the timeout sentinel, never a payload. The connection is closed and the listening
     * session's connection, handles and registrations are untouched.
     */
    method RequestRespond(topic: Topic, message: Payload, timeout: Option<int> := None, inbox: Topic, during: seq<Pending>)
      returns (r: Response)
      requires Valid()
      modifies base`nextId, base`trace, base`subjects, base`totalMsg, base`subs
      ensures Valid()
      ensures var conn := old(base.nextId);
              var to := Resolve(timeout, base.globalTimeout);
              var sent := old(base.trace) + [Call.Connect(conn, base.connectString), Request(conn, topic, message, to, inbox)];
              var w := RunPending(Collected(old(base.subjects), old(base.totalMsg), sent), base.subs, base.nc, during);
              && base.nextId == conn + 1
              && base.subjects == w.c.subjects && base.totalMsg == w.c.total
              && base.trace == w.c.trace + [Call.Close(conn)]
              && r == ResponseOf(FirstReply(w.published, inbox))
      ensures base.subs == old(base.subs)
    {
      var to := Resolve(timeout, base.globalTimeout);
      var conn := base.Connect();
      base.trace := base.trace + [Request(conn, topic, message, to, inbox)];
      ghost var sent := base.trace;
      assert sent == old(base.trace) + [Call.Connect(conn, base.connectString), Request(conn, topic, message, to, inbox)];
      assert base.State() == Collected(old(base.subjects), old(base.totalMsg), sent);
      var published := base.Pend(during);
      ghost var w := RunPending(Collected(old(base.subjects), old(base.totalMsg), sent), base.subs, base.nc, during);
      assert base.State() == w.c && published == w.published;
      r := ResponseOf(FirstReply(published, inbox));
      base.Close(conn);
      assert DropConn(old(base.subs), base.stanOn, conn) == old(base.subs);
    }
  }
}
