/**
 * NatsBaseQA: the collection session both variants share. It owns the connection handle, the
 * subscription handles, the message counter and the topic ledger; it also carries the part of the broker
 * the harness can observe (identifiers it hands out, live registrations, the calls made on it), so that
 * connecting, subscribing and closing can be stated exactly.
 */
module NatsBase {
  import opened Types
  import opened Broker
  import opened Ledger
  import opened Handlers
  import opened WaitPolicy

  /** Constructor defaults in ticks of one millisecond: timeout 2 s, grace 0.1 s, target 0 messages. */
  const DefaultTimeout: int := 2000
  const DefaultAddAwait: int := 100
  const DefaultMsgsAwait: int := 0

  /**
   * How the base wait ends: it raises because there is no connection, or it returns after `pollTicks`
   * ticks of polling (logging a timeout when `timedOut`) and `graceTicks` ticks of grace.
   */
  datatype WaitResult = NoConnection | Waited(pollTicks: nat, graceTicks: nat, timedOut: bool)

  class Session {
    var loop: Option<Id>
    var nc: Option<Id>
    var ssids: seq<Id>
    var totalMsg: nat
    var subjects: Ledger

    const connectString: string
    const globalTimeout: int
    const globalAddWait: int
    const globalMsgsAwait: int
    const subjectsList: seq<Topic>

    // The broker as the harness sees it: the next fresh identifier, the live registrations, the calls made,
    // and the transport connection each streaming session was opened over.
    var nextId: nat
    var subs: map<Id, Sub>
    var trace: seq<Call>
    var stanOn: map<Id, Id>

    /** Identifiers already handed out are below `nextId`, so a new one is distinct from all of them. */
    ghost predicate Valid()
      reads this
    {
      && (forall s :: s in subs ==> s < nextId && subs[s].conn < nextId)
      && (nc.Some? ==> nc.value < nextId)
      && (forall x :: x in stanOn ==> stanOn[x] < nextId)
    }

    /**
     * Every live registration rides on the listening connection: it was made on that connection or on a
     * streaming session over it, so closing the connection ends them all. With no connection, none is live.
     */
    ghost predicate Anchored()
      reads this
    {
      forall s :: s in subs ==> nc.Some? && Rides(stanOn, subs[s].conn, nc.value)
    }

    /** The part of the session a callback can change. */
    function State(): Collected
      reads this
    {
      Collected(subjects, totalMsg, trace)
    }

    /** `__init__`: no loop, no connection, no handles, counter 0, every configured topic empty. */
    constructor (subjectsList: seq<Topic>, connectString: string, natsTimeout: int := DefaultTimeout,
                 addAwait: int := DefaultAddAwait, msgsAwait: int := DefaultMsgsAwait)
      ensures Valid()
      ensures loop == None && nc == None && ssids == [] && totalMsg == 0
      ensures subjects.Keys == (set t | t in subjectsList) && forall t :: t in subjects ==> subjects[t] == []
      ensures subjects == EmptyLedger(subjectsList)
      ensures this.subjectsList == subjectsList && this.connectString == connectString
      ensures globalTimeout == natsTimeout && globalAddWait == addAwait && globalMsgsAwait == msgsAwait
      ensures nextId == 0 && subs == map[] && trace == [] && stanOn == map[]
    {
      loop, nc := None, None;
      ssids := [];
      totalMsg := 0;
      this.connectString := connectString;
      globalTimeout, globalAddWait, globalMsgsAwait := natsTimeout, addAwait, msgsAwait;
      this.subjectsList := subjectsList;
      var l := BuildLedger(subjectsList);
      subjects := l;
      nextId, subs, trace, stanOn := 0, map[], [], map[];
    }

    /** The `loop` property setter. */
    method SetLoop(l: Option<Id>)
      modifies this`loop
      ensures loop == l
    {
      loop := l;
    }

    /** The `subjects` property setter, used to clear the ledger between respond registrations. */
    method SetSubjects(l: Ledger)
      modifies this`subjects
      ensures subjects == l
    {
      subjects := l;
    }

    /** `Nats()` and `connect(servers=[connect_string])`: a new connection with a fresh identifier. */
    method Connect() returns (conn: Id)
      requires Valid()
      modifies this`nextId, this`trace
      ensures Valid()
      ensures conn == old(nextId) && nextId == old(nextId) + 1
      ensures trace == old(trace) + [Call.Connect(conn, connectString)]
    {
      conn := nextId;
      nextId := nextId + 1;
      trace := trace + [Call.Connect(conn, connectString)];
    }

    /** `subscribe(subject=..., cb=...)` on connection `conn`: a fresh handle, registered live. */
    method Subscribe(conn: Id, subject: Topic, cb: Callback) returns (sid: Id)
      requires Valid() && conn < nextId
      modifies this`nextId, this`subs, this`trace
      ensures Valid()
      ensures sid == old(nextId) && sid !in old(subs) && nextId == old(nextId) + 1
      ensures subs == old(subs)[sid := Sub(conn, subject, cb)]
      ensures trace == old(trace) + [Call.Subscribe(conn, sid, subject)]
    {
      sid := nextId;
      nextId := nextId + 1;
      subs := subs[sid := Sub(conn, subject, cb)];
      trace := trace + [Call.Subscribe(conn, sid, subject)];
    }

    /** `unsubscribe(ssid)`: the registration is no longer live. */
    method Unsubscribe(conn: Id, sid: Id)
      requires Valid()
      modifies this`subs, this`trace
      ensures Valid()
      ensures subs == old(subs) - {sid}
      ensures trace == old(trace) + [Call.Unsubscribe(conn, sid)]
    {
      subs := subs - {sid};
      trace := trace + [Call.Unsubscribe(conn, sid)];
    }

    /** `publish(subject, data)` on connection `conn`. */
    method Publish(conn: Id, subject: Topic, data: Payload)
      modifies this`trace
      ensures trace == old(trace) + [Call.Publish(conn, subject, data)]
    {
      trace := trace + [Call.Publish(conn, subject, data)];
    }

    /**
     * `close()` of connection `conn`: every registration made on it ends, and so does every durable
     * subscription of a streaming session running over it.
     */
    method Close(conn: Id)
      requires Valid()
      modifies this`subs, this`trace
      ensures Valid()
      ensures subs == DropConn(old(subs), stanOn, conn)
      ensures trace == old(trace) + [Call.Close(conn)]
    {
      subs := DropConn(subs, stanOn, conn);
      trace := trace + [Call.Close(conn)];
    }

    /** The event loop runs the callback registered for the subscription `d` arrives on. */
    method Deliver(d: Delivery)
      modifies this`subjects, this`totalMsg, this`trace
      ensures State() == Run(old(State()), subs, nc, d)
    {
      var c := Run(State(), subs, nc, d);
      subjects, totalMsg, trace := c.subjects, c.total, c.trace;
    }

    /** The callbacks of a batch of deliveries, run one after another. */
    method DeliverBatch(ds: seq<Delivery>)
      modifies this`subjects, this`totalMsg, this`trace
      ensures State() == RunAll(old(State()), subs, nc, ds)
    {
      for i := 0 to |ds|
        invariant State() == RunAll(old(State()), subs, nc, ds[..i])
      {
        assert ds[..i + 1][..i] == ds[..i];
        Deliver(ds[i]);
      }
      assert ds[..|ds|] == ds;
    }

    /**
     * The broker's traffic while a request is pending: the callbacks of the harness's own deliveries run,
     * and every publish carried in the window, the harness's and other clients', is handed back in order.
     */
    method Pend(ev: seq<Pending>) returns (published: seq<Call>)
      modifies this`subjects, this`totalMsg, this`trace
      ensures Window(State(), published) == RunPending(old(State()), subs, nc, ev)
    {
      published := [];
      for i := 0 to |ev|
        invariant Window(State(), published) == RunPending(old(State()), subs, nc, ev[..i])
      {
        assert ev[..i + 1][..i] == ev[..i];
        match ev[i]
        case Own(d) =>
          ghost var before := State();
          var mark := |trace|;
          Deliver(d);
          RunExtendsTrace(before, subs, nc, d);
          published := published + trace[mark..];
        case Foreign(k, subject, data) =>
          published := published + [Call.Publish(k, subject, data)];
      }
      assert ev[..|ev|] == ev;
    }

    /** `asyncio.sleep` for `n` ticks from tick `t`: the callbacks due in those ticks run. */
    method Sleep(schedule: seq<seq<Delivery>>, t: nat, n: nat)
      modifies this`subjects, this`totalMsg, this`trace
      ensures State() == Elapse(old(State()), subs, nc, schedule, t, n)
    {
      for i := 0 to n
        invariant State() == Elapse(old(State()), subs, nc, schedule, t, i)
      {
        DeliverBatch(Batch(schedule, t + i));
      }
    }

    /**
     * Base `start_listen_all`: handles cleared, counter 0, the ledger rebuilt from the configured topics
     * (keys added since, such as a respond topic, are dropped); connects only when no connection exists.
     */
    method StartListenAll()
      requires Valid()
      modifies this`ssids, this`totalMsg, this`subjects, this`nc, this`nextId, this`trace
      ensures Valid()
      ensures ssids == [] && totalMsg == 0 && subjects == EmptyLedger(subjectsList)
      ensures nc.Some? && subs == old(subs) && loop == old(loop)
      ensures old(nc).Some? ==> nc == old(nc) && nextId == old(nextId) && trace == old(trace)
      ensures old(nc).None? ==> && nc == Some(old(nextId)) && nextId == old(nextId) + 1
                                && trace == old(trace) + [Call.Connect(old(nextId), connectString)]
    {
      ssids := [];
      totalMsg := 0;
      subjects := BuildLedger(subjectsList);
      if nc.None? {
        var conn := Connect();
        nc := Some(conn);
      }
    }

    /** The collector state waiting with these arguments leads to, from the current state on. */
    function WaitOutcome(msgsAwait: Option<int>, timeout: Option<int>, addAwait: Option<int>, schedule: seq<seq<Delivery>>): Collected
      reads this
    {
      WaitEffect(State(), subs, nc, Resolve(msgsAwait, globalMsgsAwait), Resolve(timeout, globalTimeout),
                 Resolve(addAwait, globalAddWait), schedule)
    }

    /**
     * Base `wait_msgs`: raises when there is no connection, changing nothing. Otherwise resolves each
     * parameter against its global default, polls the counter until it reaches the target or the timeout
     * passes, then sleeps the grace period whichever way the loop ended. It reads the counter only; the
     * ledger, the counter and the trace change solely through the callbacks run while it sleeps.
     */
    method WaitMsgs(msgsAwait: Option<int> := None, timeout: Option<int> := None, addAwait: Option<int> := None, schedule: seq<seq<Delivery>>)
      returns (r: WaitResult)
      requires Valid()
      modifies this`subjects, this`totalMsg, this`trace
      ensures Valid()
      ensures old(nc).None? <==> r.NoConnection?
      ensures r.NoConnection? ==> State() == old(State())
      ensures r.Waited? ==>
                var target := Resolve(msgsAwait, globalMsgsAwait);
                var to := Resolve(timeout, globalTimeout);
                var grace := Resolve(addAwait, globalAddWait);
                var p := Poll(old(State()), subs, nc, target, to, schedule, 0);
                && r == Waited(p.ticks, Ticks(grace), p.c.total < target)
                && State() == old(WaitOutcome(msgsAwait, timeout, addAwait, schedule))
    {
      if nc.None? {
        return NoConnection;
      }
      var target := Resolve(msgsAwait, globalMsgsAwait);
      var to := Resolve(timeout, globalTimeout);
      var grace := Resolve(addAwait, globalAddWait);
      ghost var c0 := State();
      var t: nat := 0;
      var timedOut := false;
      while totalMsg < target
        invariant t <= Ticks(to + 1)
        invariant Poll(State(), subs, nc, target, to, schedule, t) == Poll(c0, subs, nc, target, to, schedule, 0)
        decreases Ticks(to + 1) - t
      {
        if t > to {
          timedOut := true;
          break;
        }
        Sleep(schedule, t, 1);
        t := t + 1;
      }
      assert Poll(State(), subs, nc, target, to, schedule, t) == PollEnd(State(), t);
      assert timedOut <==> totalMsg < target;
      Sleep(schedule, t, Ticks(grace));
      r := Waited(t, Ticks(grace), timedOut);
    }
  }
}
