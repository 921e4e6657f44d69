/**
 * The callbacks the broker runs on each inbound message: the accumulating handler of both variants
 * and the responder closure of the best-effort variant, as functions of the state they touch.
 */
module Handlers {
  import opened Types
  import opened Broker
  import opened Ledger

  /** What a callback can change: the ledger, the message counter, and (by publishing) the call trace. */
  datatype Collected = Collected(subjects: Ledger, total: nat, trace: seq<Call>)

  /**
   * `_total_handle`: append the payload under `key`, then count it. A missing key raises KeyError at the
   * append, before the increment; the handler catches it, so nothing changes.
   */
  function TotalHandle(c: Collected, key: Topic, data: Payload): (r: Collected)
    ensures r.subjects.Keys == c.subjects.Keys && r.trace == c.trace
    ensures key in c.subjects ==> r.subjects[key] == c.subjects[key] + [data] && r.total == c.total + 1
    ensures key !in c.subjects ==> r == c
    ensures forall t :: t in c.subjects && t != key ==> r.subjects[t] == c.subjects[t]
  {
    if key in c.subjects then Collected(c.subjects[key := c.subjects[key] + [data]], c.total + 1, c.trace)
    else c
  }

  /**
   * `respond_handler` of `start_listen_with_respond(topic, respond_proto)`: when the message's subject is
   * not in the ledger it stores an empty list under `topic`, then appends under the message's subject,
   * counts, and publishes the fixed reply to `msg.reply` over the session's connection. A KeyError at
   * the append stops it before the count; a missing connection stops it after the count, before the publish.
   */
  function RespondHandler(c: Collected, nc: Option<Id>, topic: Topic, reply: Payload, msg: Msg): (r: Collected)
    ensures msg.subject == topic ==>
              && r.subjects == c.subjects[topic := (if topic in c.subjects then c.subjects[topic] else []) + [msg.data]]
              && r.total == c.total + 1
              && r.trace == c.trace + (if nc.Some? then [Publish(nc.value, msg.reply, reply)] else [])
    ensures msg.subject in c.subjects ==> r.subjects.Keys == c.subjects.Keys && r.total == c.total + 1
  {
    var l := if msg.subject !in c.subjects then c.subjects[topic := []] else c.subjects;
    if msg.subject !in l then Collected(l, c.total, c.trace)
    else
      Collected(l[msg.subject := l[msg.subject] + [msg.data]], c.total + 1,
                c.trace + if nc.Some? then [Publish(nc.value, msg.reply, reply)] else [])
  }

  /** The event loop running the callback registered for the subscription a message arrives on. */
  function Run(c: Collected, subs: map<Id, Sub>, nc: Option<Id>, d: Delivery): Collected {
    if d.sid !in subs then c
    else match subs[d.sid].cb
      case TotalHandle => TotalHandle(c, d.msg.subject, d.msg.data)
      case StanTotalHandle => TotalHandle(c, subs[d.sid].subject, d.msg.data)
      case RespondHandler(topic, reply) => RespondHandler(c, nc, topic, reply, d.msg)
  }

  /** A batch of deliveries, run in order. */
  function RunAll(c: Collected, subs: map<Id, Sub>, nc: Option<Id>, ds: seq<Delivery>): Collected {
    if |ds| == 0 then c else Run(RunAll(c, subs, nc, ds[..|ds| - 1]), subs, nc, ds[|ds| - 1])
  }

  /** The ledger key under which a delivery is recorded, if it reaches a live subscription. */
  function KeyOf(subs: map<Id, Sub>, d: Delivery): Option<Topic> {
    if d.sid !in subs then None
    else if subs[d.sid].cb.StanTotalHandle? then Some(subs[d.sid].subject)
    else Some(d.msg.subject)
  }

  /**
   * A delivery as an exact-subject subscription produces it: a message reaching a live responder carries
   * the subject that responder was registered for (wildcard subscriptions break this). A delivery to a
   * subscription that has ended runs no callback at all.
   */
  predicate Routed(subs: map<Id, Sub>, d: Delivery) {
    d.sid in subs ==> (subs[d.sid].cb.RespondHandler? ==> d.msg.subject == subs[d.sid].cb.topic)
  }

  /** The payloads of `ds` that are recorded under `t`, in delivery order. */
  function DataOn(subs: map<Id, Sub>, ds: seq<Delivery>, t: Topic): seq<Payload> {
    if |ds| == 0 then []
    else DataOn(subs, ds[..|ds| - 1], t) + if KeyOf(subs, ds[|ds| - 1]) == Some(t) then [ds[|ds| - 1].msg.data] else []
  }

  /** The payloads two stretches of deliveries record under a topic are those of the first, then the second's. */
  lemma {:induction false} DataOnAppend(subs: map<Id, Sub>, a: seq<Delivery>, b: seq<Delivery>, t: Topic)
    ensures DataOn(subs, a + b, t) == DataOn(subs, a, t) + DataOn(subs, b, t)
  {
    if |b| == 0 {
      assert a + b == a;
    } else {
      var ab := a + b;
      assert ab[..|ab| - 1] == a + b[..|b| - 1] && ab[|ab| - 1] == b[|b| - 1];
      DataOnAppend(subs, a, b[..|b| - 1], t);
    }
  }

  /** Messages counted but no longer held in the ledger (a topic cleared mid-cycle, say). */
  ghost function Excess(c: Collected): int {
    c.total - Size(c.subjects)
  }

  /**
   * The ledger append and the counter increment happen together or not at all: every callback on a
   * routed delivery keeps the difference between counter and ledger size.
   */
  lemma RunKeepsExcess(c: Collected, subs: map<Id, Sub>, nc: Option<Id>, d: Delivery)
    requires Routed(subs, d)
    ensures Excess(Run(c, subs, nc, d)) == Excess(c)
  {
    if d.sid !in subs {
      return;
    }
    var key := KeyOf(subs, d).value;
    var r := Run(c, subs, nc, d);
    if key in c.subjects {
      SizeUpdate(c.subjects, key, c.subjects[key] + [d.msg.data]);
    } else if subs[d.sid].cb.RespondHandler? {
      var cb := subs[d.sid].cb;
      assert r == RespondHandler(c, nc, cb.topic, cb.reply, d.msg);
      assert key == cb.topic == d.msg.subject;
      assert key !in c.subjects;
      assert r.total == c.total + 1;
      assert ([] + [d.msg.data]) == [d.msg.data];
      assert r.subjects == c.subjects[key := [d.msg.data]];
      SizeUpdate(c.subjects, key, [d.msg.data]);
    }
  }

  /** Excess is kept by every batch of routed deliveries. */
  lemma {:induction false} RunAllKeepsExcess(c: Collected, subs: map<Id, Sub>, nc: Option<Id>, ds: seq<Delivery>)
    requires forall i :: 0 <= i < |ds| ==> Routed(subs, ds[i])
    ensures Excess(RunAll(c, subs, nc, ds)) == Excess(c)
  {
    if |ds| > 0 {
      RunAllKeepsExcess(c, subs, nc, ds[..|ds| - 1]);
      RunKeepsExcess(RunAll(c, subs, nc, ds[..|ds| - 1]), subs, nc, ds[|ds| - 1]);
    }
  }

  /**
   * Handlers only add: the counter never goes down, no topic disappears, and for routed deliveries what a
   * topic held before is still a prefix of what it holds after (within a topic, list order = delivery order).
   */
  lemma {:induction false} RunAllGrows(c: Collected, subs: map<Id, Sub>, nc: Option<Id>, ds: seq<Delivery>)
    requires forall i :: 0 <= i < |ds| ==> Routed(subs, ds[i])
    ensures var r := RunAll(c, subs, nc, ds);
            && r.total >= c.total
            && c.subjects.Keys <= r.subjects.Keys
            && (forall t :: t in c.subjects ==> c.subjects[t] <= r.subjects[t])
  {
    if |ds| > 0 {
      var m := RunAll(c, subs, nc, ds[..|ds| - 1]);
      RunAllGrows(c, subs, nc, ds[..|ds| - 1]);
      RunGrows(m, subs, nc, ds[|ds| - 1]);
    }
  }

  /** One routed delivery only adds. */
  lemma RunGrows(c: Collected, subs: map<Id, Sub>, nc: Option<Id>, d: Delivery)
    requires Routed(subs, d)
    ensures var r := Run(c, subs, nc, d);
            && r.total >= c.total
            && c.subjects.Keys <= r.subjects.Keys
            && (forall t :: t in c.subjects ==> c.subjects[t] <= r.subjects[t])
  {
  }

  /** One callback only ever adds calls to the trace (a responder's reply). */
  lemma RunExtendsTrace(c: Collected, subs: map<Id, Sub>, nc: Option<Id>, d: Delivery)
    ensures c.trace <= Run(c, subs, nc, d).trace
  {
  }

  /** Callbacks only ever add calls to the trace (a responder's reply). */
  lemma {:induction false} RunAllExtendsTrace(c: Collected, subs: map<Id, Sub>, nc: Option<Id>, ds: seq<Delivery>)
    ensures c.trace <= RunAll(c, subs, nc, ds).trace
  {
    if |ds| > 0 {
      RunAllExtendsTrace(c, subs, nc, ds[..|ds| - 1]);
      RunExtendsTrace(RunAll(c, subs, nc, ds[..|ds| - 1]), subs, nc, ds[|ds| - 1]);
    }
  }

  /**
   * What the broker does while a request is pending: run the callback of a delivery to one of the
   * harness's own subscriptions, or carry a publish made by another client (the service under test
   * answering the request, say).
   */
  datatype Pending = Own(d: Delivery) | Foreign(conn: Id, subject: Topic, data: Payload)

  /** The harness state after a pending window, and every publish the broker carried in it, in order. */
  datatype Window = Window(c: Collected, published: seq<Call>)

  /** A pending window: the harness's callbacks change its state and add their publishes; others only publish. */
  function RunPending(c: Collected, subs: map<Id, Sub>, nc: Option<Id>, ev: seq<Pending>): Window {
    if |ev| == 0 then Window(c, [])
    else
      var w := RunPending(c, subs, nc, ev[..|ev| - 1]);
      match ev[|ev| - 1]
      case Own(d) =>
        var n := Run(w.c, subs, nc, d);
        RunExtendsTrace(w.c, subs, nc, d);
        Window(n, w.published + n.trace[|w.c.trace|..])
      case Foreign(k, subject, data) => Window(w.c, w.published + [Publish(k, subject, data)])
  }

  /** The deliveries to the harness's own subscriptions among the events of a window, in order. */
  function OwnOf(ev: seq<Pending>): seq<Delivery> {
    if |ev| == 0 then []
    else OwnOf(ev[..|ev| - 1]) + if ev[|ev| - 1].Own? then [ev[|ev| - 1].d] else []
  }

  /** Other clients' traffic leaves the harness alone: its state is that of its own deliveries run in order. */
  lemma {:induction false} PendingHarness(c: Collected, subs: map<Id, Sub>, nc: Option<Id>, ev: seq<Pending>)
    ensures RunPending(c, subs, nc, ev).c == RunAll(c, subs, nc, OwnOf(ev))
  {
    if |ev| > 0 {
      var init := ev[..|ev| - 1];
      PendingHarness(c, subs, nc, init);
      if ev[|ev| - 1].Own? {
        var own := OwnOf(init) + [ev[|ev| - 1].d];
        assert OwnOf(ev) == own && own[..|own| - 1] == OwnOf(init);
        assert RunPending(c, subs, nc, ev).c == Run(RunPending(c, subs, nc, init).c, subs, nc, ev[|ev| - 1].d);
      } else {
        assert OwnOf(ev) == OwnOf(init) + [] == OwnOf(init);
        assert RunPending(c, subs, nc, ev).c == RunPending(c, subs, nc, init).c;
      }
    }
  }

  /** What a window has published by some event is still the start of what it publishes in the end. */
  lemma {:induction false} PendingPrefix(c: Collected, subs: map<Id, Sub>, nc: Option<Id>, ev: seq<Pending>, i: nat)
    requires i <= |ev|
    ensures RunPending(c, subs, nc, ev[..i]).published <= RunPending(c, subs, nc, ev).published
  {
    if i < |ev| {
      var init := ev[..|ev| - 1];
      assert init[..i] == ev[..i];
      PendingPrefix(c, subs, nc, init, i);
    } else {
      assert ev[..i] == ev;
    }
  }

  /** Another client's publish only extends what the window has published. */
  lemma PendingForeign(c: Collected, subs: map<Id, Sub>, nc: Option<Id>, ev: seq<Pending>)
    requires |ev| > 0 && ev[|ev| - 1].Foreign?
    ensures var e := ev[|ev| - 1];
            RunPending(c, subs, nc, ev).published
              == RunPending(c, subs, nc, ev[..|ev| - 1]).published + [Publish(e.conn, e.subject, e.data)]
  {
  }

  /**
   * Another client answers: when nothing published before event `i` of the window is a reply to the
   * inbox and event `i` is another client's publish to it, that publish is the first reply.
   */
  lemma ForeignAnswers(c: Collected, subs: map<Id, Sub>, nc: Option<Id>, ev: seq<Pending>, i: nat, inbox: Topic)
    requires i < |ev| && ev[i].Foreign? && ev[i].subject == inbox
    requires FirstReply(RunPending(c, subs, nc, ev[..i]).published, inbox).None?
    ensures FirstReply(RunPending(c, subs, nc, ev).published, inbox) == Some(ev[i].data)
  {
    var upto := ev[..i + 1];
    assert upto[..|upto| - 1] == ev[..i] && upto[|upto| - 1] == ev[i];
    var pre := RunPending(c, subs, nc, ev[..i]).published;
    var answer := Publish(ev[i].conn, inbox, ev[i].data);
    PendingForeign(c, subs, nc, upto);
    var mid := RunPending(c, subs, nc, upto).published;
    assert mid == pre + [answer];
    FirstReplyAppend(pre, [answer], inbox);
    assert FirstReply([answer], inbox) == Some(ev[i].data);
    PendingPrefix(c, subs, nc, ev, i + 1);
    var all := RunPending(c, subs, nc, ev).published;
    assert all == mid + all[|mid|..];
    FirstReplyAppend(mid, all[|mid|..], inbox);
  }

  /** One delivery to a registered topic that is present: it is appended there and counted, nothing else moves. */
  lemma RunCollects(c: Collected, subs: map<Id, Sub>, nc: Option<Id>, d: Delivery)
    requires KeyOf(subs, d).Some? && KeyOf(subs, d).value in c.subjects
    ensures var r := Run(c, subs, nc, d);
            && r.subjects.Keys == c.subjects.Keys
            && r.total == c.total + 1
            && forall t :: t in c.subjects ==>
                 r.subjects[t] == c.subjects[t] + if KeyOf(subs, d) == Some(t) then [d.msg.data] else []
  {
  }

  /**
   * Topics that are all present and registered: after a batch, each topic holds exactly its old payloads
   * followed by the batch's payloads for it, in order, and the counter has grown by the batch length.
   */
  lemma {:induction false} RunAllCollects(c: Collected, subs: map<Id, Sub>, nc: Option<Id>, ds: seq<Delivery>)
    requires forall i :: 0 <= i < |ds| ==> KeyOf(subs, ds[i]).Some? && KeyOf(subs, ds[i]).value in c.subjects
    ensures var r := RunAll(c, subs, nc, ds);
            && r.subjects.Keys == c.subjects.Keys
            && r.total == c.total + |ds|
            && forall t :: t in c.subjects ==> r.subjects[t] == c.subjects[t] + DataOn(subs, ds, t)
  {
    if |ds| > 0 {
      var init := ds[..|ds| - 1];
      var d := ds[|ds| - 1];
      RunAllCollects(c, subs, nc, init);
      var m := RunAll(c, subs, nc, init);
      RunCollects(m, subs, nc, d);
      forall t | t in c.subjects
        ensures RunAll(c, subs, nc, ds).subjects[t] == c.subjects[t] + DataOn(subs, ds, t)
      {
        var extra := if KeyOf(subs, d) == Some(t) then [d.msg.data] else [];
        assert DataOn(subs, ds, t) == DataOn(subs, init, t) + extra;
        assert RunAll(c, subs, nc, ds).subjects[t] == m.subjects[t] + extra;
      }
    }
  }

  /** Collecting `pre` and then `b` is collecting `pre + b`. */
  lemma CollectsThen(c: Collected, m: Collected, r: Collected, subs: map<Id, Sub>, pre: seq<Delivery>, b: seq<Delivery>)
    requires m.subjects.Keys == c.subjects.Keys && m.total == c.total + |pre|
    requires forall t :: t in c.subjects ==> m.subjects[t] == c.subjects[t] + DataOn(subs, pre, t)
    requires r.subjects.Keys == m.subjects.Keys && r.total == m.total + |b|
    requires forall t :: t in m.subjects ==> r.subjects[t] == m.subjects[t] + DataOn(subs, b, t)
    ensures r.subjects.Keys == c.subjects.Keys && r.total == c.total + |pre + b|
    ensures forall t :: t in c.subjects ==> r.subjects[t] == c.subjects[t] + DataOn(subs, pre + b, t)
  {
    forall t | t in c.subjects
      ensures r.subjects[t] == c.subjects[t] + DataOn(subs, pre + b, t)
    {
      DataOnAppend(subs, pre, b, t);
    }
  }

  /**
   * A message reaching a responder on a subject other than its registered topic and absent from the ledger:
   * the handler empties the registered topic's entry, records nothing, counts nothing and publishes no reply.
   */
  lemma RespondOnOtherSubject(c: Collected, nc: Option<Id>, topic: Topic, reply: Payload, msg: Msg)
    requires msg.subject != topic && msg.subject !in c.subjects
    ensures var r := RespondHandler(c, nc, topic, reply, msg);
            && r.subjects == c.subjects[topic := []]
            && r.total == c.total
            && r.trace == c.trace
  {
  }
}
