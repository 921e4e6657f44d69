/**
 * NatsStreamingQA: the durable-streaming variant. A streaming session layered on the transport
 * connection, durable subscriptions, the two-layer teardown in `wait_msgs`, its accumulating handler and
 * error callback, and the one-shot `send`.
 */
module NatsStreaming {
  import opened Types
  import opened Broker
  import opened Ledger
  import opened Handlers
  import opened NatsBase

  /** The default argument of `start_listen_all` that stands for "the durable name given at construction". */
  const UseGlobalDurableName: string := "use global_durable_name"
  const DefaultDurableName: string := "durable_name"
  const DefaultClusterName: string := "test-cluster"

  /** The durable name a `start_listen_all(durable_name)` subscribes with. */
  function DurableName(arg: string, global: string): (r: string)
    ensures arg == UseGlobalDurableName ==> r == global
    ensures arg != UseGlobalDurableName ==> r == arg
  {
    if arg == UseGlobalDurableName then global else arg
  }

  class NatsStreamingQA {
    const base: Session
    var sc: Option<Id>
    const globalDurableName: string
    const clusterName: string

    /** What a streaming session registers rides, through its streaming session, on the transport connection. */
    ghost predicate Valid()
      reads this, base
    {
      base.Valid() && (sc.Some? ==> sc.value < base.nextId) && base.Anchored()
    }

    /** `__init__`: the base set-up, the durable-name and cluster defaults, no streaming session. */
    constructor (subjects: seq<Topic>, connectString: string, natsTimeout: int := DefaultTimeout,
                 addAwait: int := DefaultAddAwait, msgsAwait: int := DefaultMsgsAwait,
                 durableName: string := DefaultDurableName, clusterName: string := DefaultClusterName)
      ensures Valid() && fresh(base)
      ensures sc == None && globalDurableName == durableName && this.clusterName == clusterName
      ensures base.loop == None && base.nc == None && base.ssids == [] && base.totalMsg == 0
      ensures base.subjects == EmptyLedger(subjects) && base.subjectsList == subjects
      ensures base.connectString == connectString
      ensures base.globalTimeout == natsTimeout && base.globalAddWait == addAwait && base.globalMsgsAwait == msgsAwait
      ensures base.nextId == 0 && base.subs == map[] && base.trace == [] && base.stanOn == map[]
    {
      base := new Session(subjects, connectString, natsTimeout, addAwait, msgsAwait);
      sc := None;
      globalDurableName := durableName;
      this.clusterName := clusterName;
    }

    /**
     * `Stan()` and `connect(cluster_name, client_id, nats=transport)`: a new streaming session, running
     * over `transport`. The client id, derived from the clock in the source, is the fresh identifier itself.
     */
    method StanConnect(transport: Id) returns (s: Id)
      requires Valid() && transport < base.nextId
      modifies base`nextId, base`trace, base`stanOn
      ensures Valid()
      ensures s == old(base.nextId) && base.nextId == s + 1
      ensures base.stanOn == old(base.stanOn)[s := transport]
      ensures base.trace == old(base.trace) + [Call.StanConnect(s, clusterName, transport)]
    {
      s := base.nextId;
      base.nextId := base.nextId + 1;
      base.stanOn := base.stanOn[s := transport];
      base.trace := base.trace + [Call.StanConnect(s, clusterName, transport)];
    }

    /** `subscribe(subject, cb=_total_handle, durable_name=..., error_cb=_error_handler)` on session `s`. */
    method StanSubscribe(s: Id, subject: Topic, durable: string) returns (sid: Id)
      requires Valid() && s < base.nextId && base.nc.Some? && Rides(base.stanOn, s, base.nc.value)
      modifies base`nextId, base`subs, base`trace
      ensures Valid()
      ensures sid == old(base.nextId) && sid !in old(base.subs) && base.nextId == sid + 1
      ensures base.subs == old(base.subs)[sid := Sub(s, subject, StanTotalHandle)]
      ensures base.trace == old(base.trace) + [Call.StanSubscribe(s, sid, subject, durable)]
    {
      sid := base.nextId;
      base.nextId := base.nextId + 1;
      base.subs := base.subs[sid := Sub(s, subject, StanTotalHandle)];
      base.trace := base.trace + [Call.StanSubscribe(s, sid, subject, durable)];
    }

    /** `ssid.unsubscribe()` on a streaming subscription. */
    method StanUnsubscribe(sid: Id)
      requires Valid()
      modifies base`subs, base`trace
      ensures Valid()
      ensures base.subs == old(base.subs) - {sid}
      ensures base.trace == old(base.trace) + [Call.StanUnsubscribe(sid)]
    {
      base.subs := base.subs - {sid};
      base.trace := base.trace + [Call.StanUnsubscribe(sid)];
    }

    /**
     * `close()` of streaming session `s`: its own registrations end (nothing runs over a streaming
     * session, hence the empty carrier map); the transport connection under it stays open.
     */
    method StanClose(s: Id)
      requires Valid()
      modifies base`subs, base`trace
      ensures Valid()
      ensures base.subs == DropConn(old(base.subs), map[], s)
      ensures base.trace == old(base.trace) + [Call.StanClose(s)]
    {
      base.subs := DropConn(base.subs, map[], s);
      base.trace := base.trace + [Call.StanClose(s)];
    }

    /**
     * `send`: a throwaway transport connection with a throwaway streaming session on it, one publish,
     * then the session and the connection closed in that order. The listening session is untouched.
     */
    method Send(topic: Topic, data: Payload)
      requires Valid()
      modifies base`nextId, base`trace, base`subs, base`stanOn
      ensures Valid()
      ensures var conn := old(base.nextId);
              && base.nextId == conn + 2
              && base.stanOn == old(base.stanOn)[conn + 1 := conn]
              && base.trace == old(base.trace) + [Call.Connect(conn, base.connectString), Call.StanConnect(conn + 1, clusterName, conn),
                                                  StanPublish(conn + 1, topic, data), Call.StanClose(conn + 1), Call.Close(conn)]
      ensures base.subs == old(base.subs)
    {
      var conn := base.Connect();
      var s := StanConnect(conn);
      base.trace := base.trace + [StanPublish(s, topic, data)];
      StanClose(s);
      assert DropConn(old(base.subs), map[], s) == old(base.subs);
      base.Close(conn);
      assert DropConn(old(base.subs), base.stanOn, conn) == old(base.subs);
    }

    /**
     * `start_listen_all(durable_name)`: the sentinel argument is replaced by the global durable name; the
     * base reset and connect (the transport connection is reused when present); a new streaming session
     * on it, always; then one durable subscription with `_total_handle` per ledger key, in key order,
     * whose handles make up the handle list.
     */
    method StartListenAll(durableName: string := UseGlobalDurableName)
      requires Valid()
      modifies this, base
      ensures Valid()
      ensures base.nc.Some? && base.loop == old(base.loop)
      ensures old(base.nc).Some? ==> base.nc == old(base.nc)
      ensures old(base.nc).None? ==> base.nc == Some(old(base.nextId))
      ensures base.totalMsg == 0 && base.subjects == EmptyLedger(base.subjectsList)
      ensures var durable := DurableName(durableName, globalDurableName);
              var keys := Dedup(base.subjectsList);
              var stan := old(base.nextId) + if old(base.nc).None? then 1 else 0;
              && sc == Some(stan) && base.stanOn == old(base.stanOn)[stan := base.nc.value]
              && base.ssids == Ids(stan + 1, |keys|) && base.nextId == stan + 1 + |keys|
              && base.subs == Register(old(base.subs), stan, stan + 1, keys, StanTotalHandle)
              && base.trace == old(base.trace) + (if old(base.nc).None? then [Call.Connect(old(base.nextId), base.connectString)] else [])
                                               + [Call.StanConnect(stan, clusterName, base.nc.value)]
                                               + StanSubscribes(stan, stan + 1, keys, durable)
    {
      var durable := DurableName(durableName, globalDurableName);
      base.StartListenAll();
      var s := StanConnect(base.nc.value);
      sc := Some(s);
      SubscribeAll(s, Dedup(base.subjectsList), durable);
    }

    /** The loop of `start_listen_all`: for each key, empty its entry, subscribe durably, keep the handle. */
    method SubscribeAll(s: Id, keys: seq<Topic>, durable: string)
      requires Valid() && s < base.nextId && base.nc.Some? && Rides(base.stanOn, s, base.nc.value)
      requires base.subjects == EmptyLedger(base.subjectsList) && forall t :: t in keys ==> t in base.subjectsList
      modifies base`subjects, base`nextId, base`subs, base`trace, base`ssids
      ensures Valid()
      ensures base.subjects == old(base.subjects)
      ensures base.ssids == old(base.ssids) + Ids(old(base.nextId), |keys|) && base.nextId == old(base.nextId) + |keys|
      ensures base.subs == Register(old(base.subs), s, old(base.nextId), keys, StanTotalHandle)
      ensures base.trace == old(base.trace) + StanSubscribes(s, old(base.nextId), keys, durable)
    {
      for i := 0 to |keys|
        invariant Valid() && s < base.nextId
        invariant base.subjects == old(base.subjects)
        invariant base.nextId == old(base.nextId) + i && base.ssids == old(base.ssids) + Ids(old(base.nextId), i)
        invariant base.subs == Register(old(base.subs), s, old(base.nextId), keys[..i], StanTotalHandle)
        invariant base.trace == old(base.trace) + StanSubscribes(s, old(base.nextId), keys[..i], durable)
      {
        EmptyLedgerReset(base.subjectsList, keys[i]);
        base.subjects := base.subjects[keys[i] := []];
        var sid := StanSubscribe(s, keys[i], durable);
        base.ssids := base.ssids + [sid];
        assert keys[..i + 1][..i] == keys[..i] && keys[..i + 1][i] == keys[i];
        assert sid == old(base.nextId) + i;
        assert Ids(old(base.nextId), i + 1) == Ids(old(base.nextId), i) + [sid];
        assert Register(old(base.subs), s, old(base.nextId), keys[..i + 1], StanTotalHandle)
               == Register(old(base.subs), s, old(base.nextId), keys[..i], StanTotalHandle)[sid := Sub(s, keys[i], StanTotalHandle)];
        assert StanSubscribes(s, old(base.nextId), keys[..i + 1], durable) == StanSubscribes(s, old(base.nextId), keys[..i], durable) + [Call.StanSubscribe(s, sid, keys[i], durable)];
      }
      assert keys[..|keys|] == keys;
    }

    /** `_total_handle`: record under the subscription's subject and count, or change nothing on a missing key. */
    method TotalHandle(msg: StanMsg)
      modifies base`subjects, base`totalMsg
      ensures base.State() == Handlers.TotalHandle(old(base.State()), msg.subSubject, msg.data)
    {
      if msg.subSubject in base.subjects {
        base.subjects := base.subjects[msg.subSubject := base.subjects[msg.subSubject] + [msg.data]];
        base.totalMsg := base.totalMsg + 1;
      }
    }

    /** `_error_handler`: only logs; the session is left exactly as it was. */
    method ErrorHandler(error: string)
      ensures unchanged(this, base)
    {
    }

    /** The unsubscribe loop of `wait_msgs`. */
    method UnsubscribeAll(handles: seq<Id>)
      requires Valid()
      modifies base`subs, base`trace
      ensures Valid()
      ensures base.subs == Unregister(old(base.subs), handles)
      ensures base.trace == old(base.trace) + StanUnsubscribes(handles)
    {
      for i := 0 to |handles|
        invariant Valid()
        invariant base.subs == Unregister(old(base.subs), handles[..i])
        invariant base.trace == old(base.trace) + StanUnsubscribes(handles[..i])
      {
        assert handles[..i + 1][..i] == handles[..i];
        StanUnsubscribe(handles[i]);
      }
      assert handles[..|handles|] == handles;
    }

    /** The close of `wait_msgs`: the streaming session first, then the transport connection; all three gone. */
    method CloseAll()
      requires Valid() && base.nc.Some? && sc.Some?
      modifies this`sc, base`subs, base`trace, base`loop, base`nc
      ensures Valid()
      ensures var conn := old(base.nc).value;
              var s := old(sc).value;
              && base.trace == old(base.trace) + [Call.StanClose(s), Call.Close(conn)]
              && base.subs == DropConn(DropConn(old(base.subs), map[], s), base.stanOn, conn)
              && base.subs == map[]
              && base.loop == None && base.nc == None && sc == None
    {
      var conn := base.nc.value;
      StanClose(sc.value);
      DropAll(base.subs, base.stanOn, conn);
      base.Close(conn);
      base.loop, base.nc, sc := None, None, None;
    }

    /**
     * `wait_msgs`: the base wait; then every handle is unsubscribed, the streaming session is closed and
     * then the transport connection, loop, connection and streaming session become absent, and the ledger
     * is returned. When the base wait raises (no connection) nothing changes and nothing is returned; when
     * there is no streaming session to close, the AttributeError comes after the unsubscribes, and the
     * transport connection is left open.
     */
    method WaitMsgs(msgsAwait: Option<int> := None, timeout: Option<int> := None, addAwait: Option<int> := None, schedule: seq<seq<Delivery>>)
      returns (r: Option<Ledger>)
      requires Valid()
      modifies this, base
      ensures Valid()
      ensures old(base.nc).None? ==> r.None? && unchanged(base) && unchanged(this)
      ensures old(base.nc).Some? ==>
                var w := old(base.WaitOutcome(msgsAwait, timeout, addAwait, schedule));
                && base.subjects == w.subjects && base.totalMsg == w.total
                && base.ssids == old(base.ssids) && base.nextId == old(base.nextId) && sc == None
                && base.stanOn == old(base.stanOn)
                && (old(sc).Some? ==>
                      var conn := old(base.nc).value;
                      && r == Some(w.subjects)
                      && base.trace == w.trace + StanUnsubscribes(old(base.ssids))
                                       + [Call.StanClose(old(sc).value), Call.Close(conn)]
                      && base.subs == DropConn(DropConn(Unregister(old(base.subs), old(base.ssids)), map[], old(sc).value),
                                               base.stanOn, conn)
                      && base.subs == map[]
                      && base.loop == None && base.nc == None)
                && (old(sc).None? ==>
                      && r.None? && base.nc == old(base.nc) && base.loop == old(base.loop)
                      && base.trace == w.trace + StanUnsubscribes(old(base.ssids))
                      && base.subs == Unregister(old(base.subs), old(base.ssids)))
    {
      ghost var outcome := base.WaitOutcome(msgsAwait, timeout, addAwait, schedule);
      var w := base.WaitMsgs(msgsAwait, timeout, addAwait, schedule);
      if w.NoConnection? {
        return None;
      }
      assert base.State() == outcome;
      UnsubscribeAll(base.ssids);
      if sc.None? {
        return None;
      }
      CloseAll();
      return Some(base.subjects);
    }
  }
}
