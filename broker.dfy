/**
 * The broker collaborator, reduced to what the harness can observe of it: which callback each live
 * subscription runs, the messages it delivers, and the calls the harness makes on it (a trace).
 */
module Broker {
  import opened Types

  /** The callbacks the harness registers with `subscribe(..., cb=...)`. */
  datatype Callback =
    | TotalHandle                                  // NatsQA._total_handle
    | StanTotalHandle                              // NatsStreamingQA._total_handle
    | RespondHandler(topic: Topic, reply: Payload) // the closure built by start_listen_with_respond

  /** A live registration: the connection (or streaming session) it belongs to, its subject, its callback. */
  datatype Sub = Sub(conn: Id, subject: Topic, cb: Callback)

  /** A message as a NATS callback sees it: `msg.subject`, `msg.reply`, `msg.data`. */
  datatype Msg = Msg(subject: Topic, reply: Topic, data: Payload)

  /** A message as a streaming callback sees it: `msg.sub.subject`, `msg.data`. */
  datatype StanMsg = StanMsg(subSubject: Topic, data: Payload)

  /** One delivery by the broker: message `msg` arrives on subscription `sid`. */
  datatype Delivery = Delivery(sid: Id, msg: Msg)

  /** The calls the harness makes on the broker, in the order it makes them. */
  datatype Call =
    | Connect(conn: Id, servers: string)
    | Subscribe(conn: Id, sid: Id, subject: Topic)
    | Unsubscribe(conn: Id, sid: Id)
    | Publish(conn: Id, subject: Topic, data: Payload)
    | Request(conn: Id, subject: Topic, data: Payload, timeout: int, inbox: Topic)
    | Close(conn: Id)
    | StanConnect(sc: Id, cluster: string, transport: Id)
    | StanSubscribe(sc: Id, sid: Id, subject: Topic, durable: string)
    | StanUnsubscribe(sid: Id)
    | StanPublish(sc: Id, subject: Topic, data: Payload)
    | StanClose(sc: Id)

  /**
   * Closing `c` silences connection `x`: `x` is `c` itself, or a streaming session that `on` (streaming
   * session to transport connection) records as opened over `c`.
   */
  predicate Rides(on: map<Id, Id>, x: Id, c: Id) {
    x == c || (x in on && on[x] == c)
  }

  /**
   * The registrations left once connection `c` has been closed: those made on it end, and so do those of
   * every streaming session that runs over it.
   */
  function DropConn(subs: map<Id, Sub>, on: map<Id, Id>, c: Id): (r: map<Id, Sub>)
    ensures forall s :: s in r <==> s in subs && !Rides(on, subs[s].conn, c)
    ensures forall s :: s in r ==> r[s] == subs[s]
  {
    map s | s in subs && !Rides(on, subs[s].conn, c) :: subs[s]
  }

  /** Closing the connection that every registration rides on ends all of them. */
  lemma DropAll(subs: map<Id, Sub>, on: map<Id, Id>, c: Id)
    requires forall s :: s in subs ==> Rides(on, subs[s].conn, c)
    ensures DropConn(subs, on, c) == map[]
  {
    assert DropConn(subs, on, c).Keys == {};
  }

  /** The handles a subscribe loop of `n` iterations receives when the first one is `first`. */
  function Ids(first: Id, n: nat): seq<Id> {
    if n == 0 then [] else Ids(first, n - 1) + [first + n - 1]
  }

  /** The registrations after a subscribe loop over `subjects` with callback `cb`, handles from `first` on. */
  function Register(subs: map<Id, Sub>, conn: Id, first: Id, subjects: seq<Topic>, cb: Callback): map<Id, Sub> {
    if |subjects| == 0 then subs
    else Register(subs, conn, first, subjects[..|subjects| - 1], cb)[first + |subjects| - 1 := Sub(conn, subjects[|subjects| - 1], cb)]
  }

  /** The calls of a subscribe loop over `subjects` whose handles are numbered from `first` on. */
  function Subscribes(conn: Id, first: Id, subjects: seq<Topic>): seq<Call> {
    if |subjects| == 0 then []
    else Subscribes(conn, first, subjects[..|subjects| - 1]) + [Subscribe(conn, first + |subjects| - 1, subjects[|subjects| - 1])]
  }

  /** The registrations left once each handle in `sids` has been unsubscribed. */
  function Unregister(subs: map<Id, Sub>, sids: seq<Id>): map<Id, Sub> {
    if |sids| == 0 then subs else Unregister(subs, sids[..|sids| - 1]) - {sids[|sids| - 1]}
  }

  /** The calls of a streaming subscribe loop over `subjects` with durable name `durable`. */
  function StanSubscribes(sc: Id, first: Id, subjects: seq<Topic>, durable: string): seq<Call> {
    if |subjects| == 0 then []
    else StanSubscribes(sc, first, subjects[..|subjects| - 1], durable)
         + [StanSubscribe(sc, first + |subjects| - 1, subjects[|subjects| - 1], durable)]
  }

  /** The calls `for ssid in ssids: nc.unsubscribe(ssid)` makes. */
  function Unsubscribes(conn: Id, sids: seq<Id>): seq<Call> {
    if |sids| == 0 then [] else Unsubscribes(conn, sids[..|sids| - 1]) + [Unsubscribe(conn, sids[|sids| - 1])]
  }

  /** The calls `for ssid in ssids: ssid.unsubscribe()` makes on streaming subscriptions. */
  function StanUnsubscribes(sids: seq<Id>): seq<Call> {
    if |sids| == 0 then [] else StanUnsubscribes(sids[..|sids| - 1]) + [StanUnsubscribe(sids[|sids| - 1])]
  }

  /** A publish to subject `inbox`. */
  predicate IsReply(c: Call, inbox: Topic) {
    c.Publish? && c.subject == inbox
  }

  /**
   * What `timed_request` hands back: the first payload published to the request's inbox among
   * `calls`, or nothing (the broker then raises its timeout error).
   */
  function FirstReply(calls: seq<Call>, inbox: Topic): (r: Option<Payload>)
    ensures r.None? <==> forall i :: 0 <= i < |calls| ==> !IsReply(calls[i], inbox)
    ensures r.Some? ==> exists i :: 0 <= i < |calls| && IsReply(calls[i], inbox) && calls[i].data == r.value
                         && forall j :: 0 <= j < i ==> !IsReply(calls[j], inbox)
  {
    if |calls| == 0 then None
    else if IsReply(calls[0], inbox) then Some(calls[0].data)
    else
      var r := FirstReply(calls[1..], inbox);
      assert forall i :: 1 <= i < |calls| ==> calls[i] == calls[1..][i - 1];
      r
  }

  /** The first reply among two stretches of calls is the first one's, if it has any, else the second one's. */
  lemma {:induction false} FirstReplyAppend(a: seq<Call>, b: seq<Call>, inbox: Topic)
    ensures FirstReply(a + b, inbox) == if FirstReply(a, inbox).Some? then FirstReply(a, inbox) else FirstReply(b, inbox)
  {
    if |a| > 0 {
      FirstReplyAppend(a[1..], b, inbox);
      assert (a + b)[1..] == a[1..] + b;
    } else {
      assert a + b == b;
    }
  }

  /** A subscribe loop hands out consecutive fresh handles, one per subject, in subject order. */
  lemma {:induction false} IdsAt(first: Id, n: nat)
    ensures |Ids(first, n)| == n
    ensures forall i :: 0 <= i < n ==> Ids(first, n)[i] == first + i
  {
    if n > 0 {
      IdsAt(first, n - 1);
    }
  }

  /**
   * What a subscribe loop leaves live: the earlier registrations, unchanged, and one registration with
   * `cb` per subject under its own handle.
   */
  lemma {:induction false} RegisterAt(subs: map<Id, Sub>, conn: Id, first: Id, subjects: seq<Topic>, cb: Callback)
    ensures var r := Register(subs, conn, first, subjects, cb);
            && (forall s :: s in r <==> s in subs || first <= s < first + |subjects|)
            && (forall i :: 0 <= i < |subjects| ==> r[first + i] == Sub(conn, subjects[i], cb))
            && (forall s :: s in subs && !(first <= s < first + |subjects|) ==> r[s] == subs[s])
  {
    if |subjects| > 0 {
      var init := subjects[..|subjects| - 1];
      RegisterAt(subs, conn, first, init, cb);
      assert forall i :: 0 <= i < |init| ==> init[i] == subjects[i];
    }
  }

  /** The subscribe calls, one per subject, in subject order. */
  lemma {:induction false} SubscribesAt(conn: Id, first: Id, subjects: seq<Topic>)
    ensures |Subscribes(conn, first, subjects)| == |subjects|
    ensures forall i :: 0 <= i < |subjects| ==> Subscribes(conn, first, subjects)[i] == Subscribe(conn, first + i, subjects[i])
  {
    if |subjects| > 0 {
      SubscribesAt(conn, first, subjects[..|subjects| - 1]);
    }
  }

  /** The streaming subscribe calls: one per subject, in subject order, each with the same durable name. */
  lemma {:induction false} StanSubscribesAt(sc: Id, first: Id, subjects: seq<Topic>, durable: string)
    ensures |StanSubscribes(sc, first, subjects, durable)| == |subjects|
    ensures forall i :: 0 <= i < |subjects| ==>
              StanSubscribes(sc, first, subjects, durable)[i] == StanSubscribe(sc, first + i, subjects[i], durable)
  {
    if |subjects| > 0 {
      StanSubscribesAt(sc, first, subjects[..|subjects| - 1], durable);
    }
  }

  /** Unsubscribing a list of handles ends exactly those registrations and leaves the others unchanged. */
  lemma {:induction false} UnregisterAt(subs: map<Id, Sub>, sids: seq<Id>)
    ensures var r := Unregister(subs, sids);
            && (forall s :: s in r <==> s in subs && s !in sids)
            && (forall s :: s in r ==> r[s] == subs[s])
  {
    if |sids| > 0 {
      var init := sids[..|sids| - 1];
      UnregisterAt(subs, init);
      assert forall s :: s in sids <==> s in init || s == sids[|sids| - 1];
    }
  }

  /** The unsubscribe calls, one per handle, in handle order. */
  lemma {:induction false} UnsubscribesAt(conn: Id, sids: seq<Id>)
    ensures |Unsubscribes(conn, sids)| == |sids|
    ensures forall i :: 0 <= i < |sids| ==> Unsubscribes(conn, sids)[i] == Unsubscribe(conn, sids[i])
  {
    if |sids| > 0 {
      UnsubscribesAt(conn, sids[..|sids| - 1]);
    }
  }

  /** The streaming unsubscribe calls, one per handle, in handle order. */
  lemma {:induction false} StanUnsubscribesAt(sids: seq<Id>)
    ensures |StanUnsubscribes(sids)| == |sids|
    ensures forall i :: 0 <= i < |sids| ==> StanUnsubscribes(sids)[i] == StanUnsubscribe(sids[i])
  {
    if |sids| > 0 {
      StanUnsubscribesAt(sids[..|sids| - 1]);
    }
  }
}
