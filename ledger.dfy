/**
 * The topic ledger (`_subjects`): topic name to the payloads received on it, in arrival order.
 */
module Ledger {
  import opened Types

  type Ledger = map<Topic, seq<Payload>>

  /** The ledger a listening cycle starts from: every configured topic, each with nothing received. */
  function EmptyLedger(topics: seq<Topic>): Ledger {
    map t | t in topics :: []
  }

  /** Emptying a configured topic of a fresh ledger changes nothing. */
  lemma EmptyLedgerReset(topics: seq<Topic>, t: Topic)
    requires t in topics
    ensures EmptyLedger(topics)[t := []] == EmptyLedger(topics)
  {
  }

  /**
   * The order in which a dict filled by `for subj in topics: d[subj] = []` yields its keys:
   * each topic once, in the order of its first occurrence (`DedupOrder`).
   */
  function Dedup(topics: seq<Topic>): (r: seq<Topic>)
    ensures forall t :: t in r <==> t in topics
    ensures forall i, j :: 0 <= i < j < |r| ==> r[i] != r[j]
    ensures |r| <= |topics|
  {
    if |topics| == 0 then []
    else
      var p := Dedup(topics[..|topics| - 1]);
      var last := topics[|topics| - 1];
      assert forall t :: t in topics <==> t in topics[..|topics| - 1] || t == last;
      if last in p then p else p + [last]
  }

  /** The position of the first occurrence of `t` in `topics`. */
  function FirstAt(topics: seq<Topic>, t: Topic): (i: nat)
    requires t in topics
    ensures i < |topics| && topics[i] == t
    ensures forall j :: 0 <= j < i ==> topics[j] != t
  {
    var init := topics[..|topics| - 1];
    if t in init then
      var i := FirstAt(init, t);
      assert forall j :: 0 <= j <= i ==> init[j] == topics[j];
      i
    else
      assert forall j :: 0 <= j < |init| ==> init[j] == topics[j];
      |topics| - 1
  }

  /** The dict yields its keys in the order of their first occurrence in the topic list. */
  lemma {:induction false} DedupOrder(topics: seq<Topic>)
    ensures forall i, j :: 0 <= i < j < |Dedup(topics)| ==> FirstAt(topics, Dedup(topics)[i]) < FirstAt(topics, Dedup(topics)[j])
  {
    if |topics| > 0 {
      var init := topics[..|topics| - 1];
      var last := topics[|topics| - 1];
      var p := Dedup(init);
      DedupOrder(init);
      var r := Dedup(topics);
      assert r == if last in p then p else p + [last];
      forall i, j | 0 <= i < j < |r|
        ensures FirstAt(topics, r[i]) < FirstAt(topics, r[j])
      {
        assert r[i] == p[i] && p[i] in init;
        assert FirstAt(topics, p[i]) == FirstAt(init, p[i]);
        if j < |p| {
          assert r[j] == p[j] && p[j] in init;
          assert FirstAt(topics, p[j]) == FirstAt(init, p[j]);
          assert FirstAt(init, p[i]) < FirstAt(init, p[j]);
        } else {
          assert r[j] == last && last !in init;
          assert FirstAt(topics, last) == |init|;
        }
      }
    }
  }

  /** The dict loop of the constructor and of `start_listen_all`, one topic at a time. */
  method BuildLedger(topics: seq<Topic>) returns (l: Ledger)
    ensures l.Keys == set t | t in topics
    ensures forall t :: t in l ==> l[t] == []
    ensures l == EmptyLedger(topics)
  {
    l := map[];
    for i := 0 to |topics|
      invariant l.Keys == set t | t in topics[..i]
      invariant forall t :: t in l ==> l[t] == []
    {
      assert topics[..i + 1] == topics[..i] + [topics[i]];
      l := l[topics[i] := []];
    }
    assert topics[..|topics|] == topics;
  }

  /** Any key of a non-empty ledger; the same key every time for the same ledger. */
  ghost function Pick(l: Ledger): (t: Topic)
    requires l != map[]
    ensures t in l
  {
    var t :| t in l; t
  }

  /** The number of payloads held, summed over all topics. */
  ghost function Size(l: Ledger): nat
    decreases |l.Keys|
  {
    if l == map[] then 0
    else
      var t := Pick(l);
      assert |(l - {t}).Keys| < |l.Keys| by {
        assert (l - {t}).Keys == l.Keys - {t};
      }
      |l[t]| + Size(l - {t})
  }

  /** Size does not depend on the order in which the topics are summed. */
  lemma {:induction false} SizeRemove(l: Ledger, t: Topic)
    requires t in l
    ensures Size(l) == |l[t]| + Size(l - {t})
    decreases |l.Keys|
  {
    var p := Pick(l);
    if p != t {
      assert (l - {p}).Keys == l.Keys - {p};
      assert (l - {t}).Keys == l.Keys - {t};
      SizeRemove(l - {p}, t);
      SizeRemove(l - {t}, p);
      assert (l - {p}) - {t} == (l - {t}) - {p};
    }
  }

  /** Replacing the payload list of one topic changes Size by the difference in length. */
  lemma SizeUpdate(l: Ledger, t: Topic, v: seq<Payload>)
    ensures Size(l[t := v]) == Size(l) - (if t in l then |l[t]| else 0) + |v|
  {
    SizeRemove(l[t := v], t);
    if t in l {
      SizeRemove(l, t);
      assert l[t := v] - {t} == l - {t};
    } else {
      assert l[t := v] - {t} == l;
    }
  }

  /** A fresh ledger holds no payloads. */
  lemma {:induction false} EmptyLedgerSize(topics: seq<Topic>)
    ensures Size(EmptyLedger(topics)) == 0
    decreases |topics|
  {
    if |topics| > 0 {
      var init := topics[..|topics| - 1];
      var last := topics[|topics| - 1];
      EmptyLedgerSize(init);
      assert EmptyLedger(topics) == EmptyLedger(init)[last := []] by {
        assert forall t :: t in topics <==> t in init || t == last;
      }
      SizeUpdate(EmptyLedger(init), last, []);
    }
  }
}
