/**
 * The wait policy shared by both variants: resolve the parameters, poll the counter until it reaches
 * the target or the timeout passes, then sleep the grace period. Time is counted in ticks of one
 * millisecond, the length of one poll sleep; the broker's deliveries are a schedule of batches, batch k
 * being the messages whose callbacks run while the harness sleeps through tick k.
 */
module WaitPolicy {
  import opened Types
  import opened Broker
  import opened Ledger
  import opened Handlers

  /** Python truthiness of an optional number: `None` and `0` are both falsy. */
  predicate Falsy(arg: Option<int>) {
    arg.None? || arg.value == 0
  }

  /** `if not arg: arg = default`: an absent or zero argument means "use the session default". */
  function Resolve(arg: Option<int>, default: int): (r: int)
    ensures Falsy(arg) ==> r == default
    ensures !Falsy(arg) ==> r == arg.value
  {
    if Falsy(arg) then default else arg.value
  }

  /** The deliveries made during tick `t`. */
  function Batch(schedule: seq<seq<Delivery>>, t: nat): seq<Delivery> {
    if t < |schedule| then schedule[t] else []
  }

  /** The effect of sleeping `n` ticks from tick `t` on: every batch of those ticks runs, in order. */
  function Elapse(c: Collected, subs: map<Id, Sub>, nc: Option<Id>, schedule: seq<seq<Delivery>>, t: nat, n: nat): Collected {
    if n == 0 then c else RunAll(Elapse(c, subs, nc, schedule, t, n - 1), subs, nc, Batch(schedule, t + n - 1))
  }

  /** The deliveries of ticks `t` to `t + n - 1`, in order: everything a sleep of `n` ticks from tick `t` delivers. */
  function Delivered(schedule: seq<seq<Delivery>>, t: nat, n: nat): seq<Delivery> {
    if n == 0 then [] else Delivered(schedule, t, n - 1) + Batch(schedule, t + n - 1)
  }

  /** Where the poll loop stops: the state then, and the tick count since the wait started. */
  datatype PollEnd = PollEnd(c: Collected, ticks: nat)

  /**
   * `while total_msg < msgs_await: if elapsed > timeout: break; sleep(one tick)`, entered at tick `t`.
   * It stops once the counter reaches the target or the elapsed time exceeds the timeout, and not later
   * than the first tick past the timeout.
   */
  function Poll(c: Collected, subs: map<Id, Sub>, nc: Option<Id>, target: int, timeout: int,
                schedule: seq<seq<Delivery>>, t: nat): (r: PollEnd)
    ensures r.ticks >= t
    ensures r.c.total >= target || r.ticks > timeout
    ensures c.total >= target ==> r == PollEnd(c, t)
    ensures r.ticks <= if t > timeout then t else timeout + 1
    decreases if t <= timeout then timeout - t + 1 else 0
  {
    if c.total >= target then PollEnd(c, t)
    else if t > timeout then PollEnd(c, t)
    else Poll(Elapse(c, subs, nc, schedule, t, 1), subs, nc, target, timeout, schedule, t + 1)
  }

  /** The whole wait: the poll loop from tick 0, then the grace sleep, whichever way the loop ended. */
  function WaitEffect(c: Collected, subs: map<Id, Sub>, nc: Option<Id>, target: int, timeout: int, grace: int,
                      schedule: seq<seq<Delivery>>): Collected {
    var p := Poll(c, subs, nc, target, timeout, schedule, 0);
    Elapse(p.c, subs, nc, schedule, p.ticks, Ticks(grace))
  }

  /** Sleeping `n + 1` ticks is sleeping one tick and then `n` more. */
  lemma {:induction false} ElapseShift(c: Collected, subs: map<Id, Sub>, nc: Option<Id>, schedule: seq<seq<Delivery>>, t: nat, n: nat)
    ensures Elapse(c, subs, nc, schedule, t, n + 1) == Elapse(Elapse(c, subs, nc, schedule, t, 1), subs, nc, schedule, t + 1, n)
  {
    if n > 0 {
      ElapseShift(c, subs, nc, schedule, t, n - 1);
    }
  }

  /** Sleeping `m + n` ticks is sleeping `m` ticks and then `n` more. */
  lemma {:induction false} ElapseAdd(c: Collected, subs: map<Id, Sub>, nc: Option<Id>, schedule: seq<seq<Delivery>>, t: nat, m: nat, n: nat)
    ensures Elapse(c, subs, nc, schedule, t, m + n) == Elapse(Elapse(c, subs, nc, schedule, t, m), subs, nc, schedule, t + m, n)
  {
    if n > 0 {
      ElapseAdd(c, subs, nc, schedule, t, m, n - 1);
    }
  }

  /** The state at which the poll loop stops is the one sleeping until that tick produces. */
  lemma {:induction false} PollEndState(c: Collected, subs: map<Id, Sub>, nc: Option<Id>, target: int, timeout: int,
                                        schedule: seq<seq<Delivery>>, t: nat)
    ensures var r := Poll(c, subs, nc, target, timeout, schedule, t);
            r.c == Elapse(c, subs, nc, schedule, t, r.ticks - t)
    decreases if t <= timeout then timeout - t + 1 else 0
  {
    if c.total < target && t <= timeout {
      var c1 := Elapse(c, subs, nc, schedule, t, 1);
      var r := Poll(c1, subs, nc, target, timeout, schedule, t + 1);
      assert Poll(c, subs, nc, target, timeout, schedule, t) == r;
      PollEndState(c1, subs, nc, target, timeout, schedule, t + 1);
      var n := r.ticks - (t + 1);
      assert r.c == Elapse(c1, subs, nc, schedule, t + 1, n);
      ElapseShift(c, subs, nc, schedule, t, n);
      assert r.ticks - t == n + 1;
    }
  }

  /**
   * The poll loop does not stop early: at every tick before the one it stops at, the state reached by
   * sleeping is still short of the target and the timeout has not passed.
   */
  lemma {:induction false} PollNoEarlierExit(c: Collected, subs: map<Id, Sub>, nc: Option<Id>, target: int, timeout: int,
                                             schedule: seq<seq<Delivery>>, t: nat, n: nat)
    requires n < Poll(c, subs, nc, target, timeout, schedule, t).ticks - t
    ensures Elapse(c, subs, nc, schedule, t, n).total < target && t + n <= timeout
    decreases n
  {
    assert c.total < target && t <= timeout;
    if n > 0 {
      var c1 := Elapse(c, subs, nc, schedule, t, 1);
      assert Poll(c, subs, nc, target, timeout, schedule, t) == Poll(c1, subs, nc, target, timeout, schedule, t + 1);
      PollNoEarlierExit(c1, subs, nc, target, timeout, schedule, t + 1, n - 1);
      ElapseShift(c, subs, nc, schedule, t, n - 1);
    }
  }

  /** No tick delivers anything. */
  predicate Quiet(schedule: seq<seq<Delivery>>) {
    forall k :: 0 <= k < |schedule| ==> schedule[k] == []
  }

  lemma {:induction false} ElapseQuiet(c: Collected, subs: map<Id, Sub>, nc: Option<Id>, schedule: seq<seq<Delivery>>, t: nat, n: nat)
    requires Quiet(schedule)
    ensures Elapse(c, subs, nc, schedule, t, n) == c
  {
    if n > 0 {
      ElapseQuiet(c, subs, nc, schedule, t, n - 1);
    }
  }

  lemma {:induction false} PollQuiet(c: Collected, subs: map<Id, Sub>, nc: Option<Id>, target: int, timeout: int,
                                     schedule: seq<seq<Delivery>>, t: nat)
    requires Quiet(schedule)
    ensures Poll(c, subs, nc, target, timeout, schedule, t).c == c
    decreases if t <= timeout then timeout - t + 1 else 0
  {
    if c.total < target && t <= timeout {
      ElapseQuiet(c, subs, nc, schedule, t, 1);
      PollQuiet(c, subs, nc, target, timeout, schedule, t + 1);
    }
  }

  /** Once the schedule is used up, sleeping changes nothing. */
  lemma {:induction false} ElapsePastSchedule(c: Collected, subs: map<Id, Sub>, nc: Option<Id>, schedule: seq<seq<Delivery>>, t: nat, n: nat)
    requires |schedule| <= t
    ensures Elapse(c, subs, nc, schedule, t, n) == c
  {
    if n > 0 {
      ElapsePastSchedule(c, subs, nc, schedule, t, n - 1);
    }
  }

  /**
   * The wait itself only reads the counter: with nothing delivered, ledger, counter and trace are exactly
   * as before, whether the target was met or the timeout fired.
   */
  lemma WaitQuiet(c: Collected, subs: map<Id, Sub>, nc: Option<Id>, target: int, timeout: int, grace: int,
                  schedule: seq<seq<Delivery>>)
    requires Quiet(schedule)
    ensures WaitEffect(c, subs, nc, target, timeout, grace, schedule) == c
  {
    var p := Poll(c, subs, nc, target, timeout, schedule, 0);
    PollQuiet(c, subs, nc, target, timeout, schedule, 0);
    ElapseQuiet(p.c, subs, nc, schedule, p.ticks, Ticks(grace));
  }

  /**
   * Bounded: however few messages arrive, the poll loop gives up on the first tick past the timeout, so
   * it lasts at most timeout + 1 ticks; a target already met costs no poll tick. (The grace sleep that
   * follows is `Ticks(grace)` ticks, as `Session.WaitMsgs` reports.)
   */
  lemma WaitBounded(c: Collected, subs: map<Id, Sub>, nc: Option<Id>, target: int, timeout: int,
                    schedule: seq<seq<Delivery>>)
    ensures var p := Poll(c, subs, nc, target, timeout, schedule, 0);
            && p.ticks <= Ticks(timeout + 1)
            && (c.total >= target ==> p.ticks == 0)
            && (p.c.total < target ==> p.ticks == Ticks(timeout + 1))
  {
  }

  /** Deliveries during the wait only add: the counter and every topic's payload list only grow. */
  lemma {:induction false} ElapseGrows(c: Collected, subs: map<Id, Sub>, nc: Option<Id>, schedule: seq<seq<Delivery>>, t: nat, n: nat)
    requires forall k, i :: 0 <= k < |schedule| && 0 <= i < |schedule[k]| ==> Routed(subs, schedule[k][i])
    ensures var r := Elapse(c, subs, nc, schedule, t, n);
            && r.total >= c.total
            && c.subjects.Keys <= r.subjects.Keys
            && (forall tp :: tp in c.subjects ==> c.subjects[tp] <= r.subjects[tp])
  {
    if n > 0 {
      ElapseGrows(c, subs, nc, schedule, t, n - 1);
      var b := Batch(schedule, t + n - 1);
      RunAllGrows(Elapse(c, subs, nc, schedule, t, n - 1), subs, nc, b);
    }
  }

  /** A batch inherits what holds of every scheduled delivery: it reaches a live subscription keyed in `keys`. */
  lemma BatchKeys(keys: Ledger, subs: map<Id, Sub>, schedule: seq<seq<Delivery>>, k: nat)
    requires forall k, i :: 0 <= k < |schedule| && 0 <= i < |schedule[k]| ==>
               KeyOf(subs, schedule[k][i]).Some? && KeyOf(subs, schedule[k][i]).value in keys
    ensures var b := Batch(schedule, k);
            forall i :: 0 <= i < |b| ==> KeyOf(subs, b[i]).Some? && KeyOf(subs, b[i]).value in keys
  {
  }

  /**
   * Sleeping collects what is delivered: when every scheduled message reaches a live subscription whose
   * ledger key is present, each topic ends as its old payloads followed by the payloads the slept ticks
   * deliver for it, in delivery order, and the counter grows by the number of deliveries.
   */
  lemma {:induction false} ElapseCollects(c: Collected, subs: map<Id, Sub>, nc: Option<Id>, schedule: seq<seq<Delivery>>, t: nat, n: nat)
    requires forall k, i :: 0 <= k < |schedule| && 0 <= i < |schedule[k]| ==>
               KeyOf(subs, schedule[k][i]).Some? && KeyOf(subs, schedule[k][i]).value in c.subjects
    ensures var r := Elapse(c, subs, nc, schedule, t, n);
            var ds := Delivered(schedule, t, n);
            && r.subjects.Keys == c.subjects.Keys
            && r.total == c.total + |ds|
            && forall tp :: tp in c.subjects ==> r.subjects[tp] == c.subjects[tp] + DataOn(subs, ds, tp)
  {
    if n > 0 {
      ElapseCollects(c, subs, nc, schedule, t, n - 1);
      var m := Elapse(c, subs, nc, schedule, t, n - 1);
      var pre := Delivered(schedule, t, n - 1);
      var b := Batch(schedule, t + n - 1);
      BatchKeys(c.subjects, subs, schedule, t + n - 1);
      RunAllCollects(m, subs, nc, b);
      CollectsThen(c, m, RunAll(m, subs, nc, b), subs, pre, b);
      assert Delivered(schedule, t, n) == pre + b;
    }
  }

  /** Sleeping through routed deliveries keeps counter and ledger size in step. */
  lemma {:induction false} ElapseKeepsExcess(c: Collected, subs: map<Id, Sub>, nc: Option<Id>, schedule: seq<seq<Delivery>>,
                                             t: nat, n: nat)
    requires forall k, i :: 0 <= k < |schedule| && 0 <= i < |schedule[k]| ==> Routed(subs, schedule[k][i])
    ensures Excess(Elapse(c, subs, nc, schedule, t, n)) == Excess(c)
  {
    if n > 0 {
      ElapseKeepsExcess(c, subs, nc, schedule, t, n - 1);
      RunAllKeepsExcess(Elapse(c, subs, nc, schedule, t, n - 1), subs, nc, Batch(schedule, t + n - 1));
    }
  }

  /**
   * The count the wait polls is the number of payloads it returns: from a freshly reset ledger and a zero
   * counter (as `start_listen_all` leaves them), after the whole wait over routed deliveries the counter
   * equals the number of payloads held in the ledger.
   */
  lemma WaitCountsLedger(topics: seq<Topic>, trace: seq<Call>, subs: map<Id, Sub>, nc: Option<Id>, target: int, timeout: int,
                         grace: int, schedule: seq<seq<Delivery>>)
    requires forall k, i :: 0 <= k < |schedule| && 0 <= i < |schedule[k]| ==> Routed(subs, schedule[k][i])
    ensures var w := WaitEffect(Collected(EmptyLedger(topics), 0, trace), subs, nc, target, timeout, grace, schedule);
            w.total == Size(w.subjects)
  {
    var c := Collected(EmptyLedger(topics), 0, trace);
    EmptyLedgerSize(topics);
    var p := Poll(c, subs, nc, target, timeout, schedule, 0);
    PollEndState(c, subs, nc, target, timeout, schedule, 0);
    ElapseKeepsExcess(c, subs, nc, schedule, 0, p.ticks);
    ElapseKeepsExcess(p.c, subs, nc, schedule, p.ticks, Ticks(grace));
  }

  /**
   * What a whole wait returns: the poll ticks and then the grace ticks are slept, so when every scheduled
   * message reaches a live subscription whose ledger key is present, each topic holds its old payloads
   * followed by exactly the payloads delivered for it during those ticks, in delivery order, and the
   * counter has grown by the number of those deliveries.
   */
  lemma WaitCollects(c: Collected, subs: map<Id, Sub>, nc: Option<Id>, target: int, timeout: int, grace: int,
                     schedule: seq<seq<Delivery>>)
    requires forall k, i :: 0 <= k < |schedule| && 0 <= i < |schedule[k]| ==>
               KeyOf(subs, schedule[k][i]).Some? && KeyOf(subs, schedule[k][i]).value in c.subjects
    ensures var p := Poll(c, subs, nc, target, timeout, schedule, 0);
            var ds := Delivered(schedule, 0, p.ticks + Ticks(grace));
            var w := WaitEffect(c, subs, nc, target, timeout, grace, schedule);
            && w.subjects.Keys == c.subjects.Keys
            && w.total == c.total + |ds|
            && forall tp :: tp in c.subjects ==> w.subjects[tp] == c.subjects[tp] + DataOn(subs, ds, tp)
  {
    var p := Poll(c, subs, nc, target, timeout, schedule, 0);
    PollEndState(c, subs, nc, target, timeout, schedule, 0);
    ElapseAdd(c, subs, nc, schedule, 0, p.ticks, Ticks(grace));
    ElapseCollects(c, subs, nc, schedule, 0, p.ticks + Ticks(grace));
  }
}
