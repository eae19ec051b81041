/** Pace of the executions in every run: periods are respected and one-shot timers run once. */
module TimerPace {
  import opened TimerAgenda
  import opened TimerQueueOrder
  import opened TimerInvariant

  /** Every logged run of `t` carries its period and happened at `limit` at the latest. */
  ghost predicate Logged(log: seq<Firing>, t: Timer, limit: int) {
    forall i | 0 <= i < |log| && log[i].serial == t.serial ::
      log[i].interval == t.interval && log[i].first == t.first && log[i].at <= limit
  }

  ghost predicate NotLogged(log: seq<Firing>, serial: nat) {
    forall i | 0 <= i < |log| :: log[i].serial != serial
  }

  /** A timer that may still run: each earlier run is at least one period before its expiration,
      and it has not run at all if it is one-shot. */
  ghost predicate Waiting(log: seq<Firing>, t: Timer) {
    && t.first <= t.expiration
    && Logged(log, t, t.expiration - t.interval)
    && (!t.Repeats() ==> NotLogged(log, t.serial))
  }

  ghost predicate AllWaiting(log: seq<Firing>, q: seq<Timer>) { forall t | t in q :: Waiting(log, t) }

  /** Two runs of one timer are at least its interval apart; a one-shot timer runs once;
      no timer runs before it first expires. */
  ghost predicate Paced(log: seq<Firing>) {
    && (forall i | 0 <= i < |log| :: log[i].first <= log[i].at)
    && (forall i, j | 0 <= i < j < |log| && log[i].serial == log[j].serial ::
          log[i].interval == log[j].interval && log[i].interval > 0
          && log[i].first == log[j].first
          && log[i].at + log[i].interval <= log[j].at)
  }

  /** The pace invariant after the first `k` callbacks of a batch collected at `when`. */
  ghost predicate Mid(a: Agenda, when: int, k: nat) {
    && k <= |a.batch|
    && (forall i | 0 <= i < |a.log| :: a.log[i].serial < a.nextSerial)
    && AllWaiting(a.log, a.created)
    && AllWaiting(a.log, a.queue)
    && Paced(a.log)
    && (forall i | k <= i < |a.batch| :: Waiting(a.log, a.batch[i]) && a.batch[i].expiration <= when)
    && (forall i | 0 <= i < k :: a.batch[i].first <= when && Logged(a.log, a.batch[i], when))
  }

  lemma PlacedWaiting(log: seq<Firing>, q: seq<Timer>, t: Timer)
    requires AllWaiting(log, q) && Waiting(log, t)
    ensures AllWaiting(log, Placed(q, t))
  {
    PlacedConserves(q, t);
  }

  lemma EnqueueWaiting(a: Agenda, addr: Address)
    requires AllWaiting(a.log, a.created) && AllWaiting(a.log, a.queue)
    ensures AllWaiting(a.log, EnqueueTimer(a, addr).created) && AllWaiting(a.log, EnqueueTimer(a, addr).queue)
  {
    if HasAddress(a.created, addr) {
      var i := IndexOfAddress(a.created, addr);
      assert a.created[i] in a.created;
      PlacedWaiting(a.log, a.queue, a.created[i]);
    }
  }

  lemma CreateWaiting(a: Agenda, id: TimerId, when: int, interval: nat)
    requires AllWaiting(a.log, a.created)
    requires forall i | 0 <= i < |a.log| :: a.log[i].serial < a.nextSerial
    ensures AllWaiting(a.log, CreateTimer(a, id, when, interval).created)
  {
  }

  lemma ApplyPaced(a: Agenda, op: Op, when: int, k: nat)
    requires Mid(a, when, k)
    ensures Mid(Apply(a, op), when, k)
  {
    match op
    case Tick(_) =>
    case Create(id, at, interval) => CreateWaiting(a, id, at, interval);
    case Cancel(id) => WithoutKeeps(a.queue, id);
    case Enqueue(addr) => EnqueueWaiting(a, addr);
  }

  lemma {:induction false} ApplyAllPaced(a: Agenda, ops: seq<Op>, when: int, k: nat)
    requires Mid(a, when, k)
    ensures Mid(ApplyAll(a, ops), when, k)
  {
    if ops == [] {
    } else {
      ApplyAllPaced(a, ops[..|ops| - 1], when, k);
      ApplyPaced(ApplyAll(a, ops[..|ops| - 1]), ops[|ops| - 1], when, k);
    }
  }

  lemma LogOneMore(log: seq<Firing>, t: Timer, when: int)
    requires Paced(log) && Waiting(log, t) && t.expiration <= when
    ensures Paced(log + [Firing(t.serial, when, t.interval, t.first)])
    ensures Logged(log + [Firing(t.serial, when, t.interval, t.first)], t, when)
  {
  }

  lemma NextSerialIsNew(a: Agenda, k: nat)
    requires Ordered(a) && k < |a.batch|
    ensures a.batch[k].serial < a.nextSerial
  {
  }

  lemma OutsideWaits(a: Agenda, when: int, k: nat)
    requires Ordered(a) && Mid(a, when, k) && k < |a.batch|
    ensures AllWaiting(Note(a, when, k).log, a.created) && AllWaiting(Note(a, when, k).log, a.queue)
  {
    hide Ordered;
    forall u | u in a.created || u in a.queue ensures Waiting(Note(a, when, k).log, u) {
      OutsideBatchDiffers(a, k, u);
    }
  }

  /** Logging one callback of the batch keeps the pace of every timer. */
  lemma FiringPaced(a: Agenda, when: int, k: nat)
    requires Ordered(a) && Mid(a, when, k) && k < |a.batch|
    ensures Mid(Note(a, when, k), when, k + 1)
  {
    var t := a.batch[k];
    var more := Note(a, when, k).log;
    LogOneMore(a.log, t, when);
    NextSerialIsNew(a, k);
    OutsideWaits(a, when, k);
    hide Ordered;
    forall i | k < i < |a.batch| ensures Waiting(more, a.batch[i]) { BatchDiffers(a, i, k); }
    forall i | 0 <= i < k ensures Logged(more, a.batch[i], when) { BatchDiffers(a, i, k); }
  }

  lemma {:induction false} RunFirstPaced(a: Agenda, when: int, acts: seq<seq<Op>>, k: nat)
    requires Ordered(a) && Mid(a, when, 0) && k <= |a.batch|
    ensures Mid(RunFirst(a, when, acts, k), when, k)
  {
    hide Ordered, Mid;
    if k == 0 {
    } else {
      RunFirstPaced(a, when, acts, k - 1);
      RunFirstOrdered(a, when, acts, k - 1);
      var b := RunFirst(a, when, acts, k - 1);
      FiringPaced(b, when, k - 1);
      ApplyAllPaced(Note(b, when, k - 1), ActsOf(acts, k - 1), when, k);
    }
  }

  lemma CollectPaced(a: Agenda)
    requires Mid(a, a.clock, 0) && a.batch == []
    ensures Mid(Collect(a), a.clock, 0)
  {
    SplitConserves(a.queue, a.clock);
    forall t | t in NotAfter(a.queue, a.clock) || t in After(a.queue, a.clock) ensures t in a.queue {
      assert t in multiset(NotAfter(a.queue, a.clock)) + multiset(After(a.queue, a.clock));
      assert t in multiset(a.queue);
    }
  }

  lemma {:induction false} RequeuePaced(a: Agenda, when: int, k: nat)
    requires Mid(a, when, |a.batch|) && k <= |a.batch|
    ensures AllWaiting(a.log, Requeue(a, when, k).queue)
  {
    if k == 0 {
    } else {
      RequeuePaced(a, when, k - 1);
      var t := a.batch[k - 1];
      if t.Repeats() {
        assert Logged(a.log, t.Restarted(when), when);
        PlacedWaiting(a.log, Requeue(a, when, k - 1).queue, t.Restarted(when));
      }
    }
  }

  /** The state in which the batch has run and nothing has been put back yet. */
  function Ran(a: Agenda, acts: seq<seq<Op>>): Agenda {
    RunFirst(Collect(a), a.clock, acts, |Collect(a).batch|).(calling := false)
  }

  lemma RanPaced(a: Agenda, acts: seq<seq<Op>>)
    requires Ordered(a) && a.batch == [] && Mid(a, a.clock, 0)
    ensures Mid(Ran(a, acts), a.clock, |Ran(a, acts).batch|)
  {
    CollectOrdered(a);
    CollectPaced(a);
    RunFirstPaced(Collect(a), a.clock, acts, |Collect(a).batch|);
  }

  lemma ExpirePaced(a: Agenda, acts: seq<seq<Op>>, lag: nat)
    requires Ordered(a) && a.batch == [] && Mid(a, a.clock, 0)
    ensures Mid(ExpireAll(a, acts, lag), 0, 0)
  {
    var c := Ran(a, acts);
    RanPaced(a, acts);
    RequeuePaced(c, a.clock, |c.batch|);
    RequeueFrame(c, a.clock, |c.batch|);
  }

  /** The invariant between events. */
  ghost predicate Inv(a: Agenda) {
    Ordered(a) && a.batch == [] && !a.calling && Mid(a, 0, 0)
  }

  lemma StepInv(a: Agenda, e: Event)
    requires Inv(a)
    ensures Inv(Step(a, e))
  {
    StepOrdered(a, e);
    match e
    case Do(op) => ApplyPaced(a, op, 0, 0);
    case Expire(acts, lag) => ExpirePaced(a, acts, lag);
  }

  lemma {:induction false} RunInv(a: Agenda, es: seq<Event>)
    requires Inv(a)
    ensures Inv(Run(a, es))
  {
    if es == [] {
    } else {
      RunInv(a, es[..|es| - 1]);
      StepInv(Run(a, es[..|es| - 1]), es[|es| - 1]);
    }
  }

  lemma ReachableInv(a: Agenda)
    requires Reachable(a)
    ensures Inv(a)
  {
    var clock: nat, es: seq<Event> :| a == Run(Empty(clock), es);
    assert Inv(Empty(clock));
    RunInv(Empty(clock), es);
  }

  /* ---------------------------------- main results ---------------------------------- */

  /** Over any run: a periodic timer's executions are at least its interval apart, a one-shot timer
      executes at most once, and nothing executes before its first expiration. */
  lemma ExecutionsArePaced(a: Agenda, i: nat, j: nat)
    requires Reachable(a)
    requires i < j < |a.log| && a.log[i].serial == a.log[j].serial
    ensures a.log[i].interval == a.log[j].interval > 0
    ensures a.log[i].first <= a.log[i].at && a.log[i].at + a.log[i].interval <= a.log[j].at
  {
    ReachableInv(a);
  }

  function CountOf(log: seq<Firing>, serial: nat): nat {
    if log == [] then 0
    else CountOf(log[..|log| - 1], serial) + if log[|log| - 1].serial == serial then 1 else 0
  }

  lemma PacedPair(log: seq<Firing>, m: nat, j: nat)
    requires Paced(log) && m < j < |log| && log[m].serial == log[j].serial
    ensures log[m].interval == log[j].interval && log[m].first == log[j].first
    ensures log[m].at + log[j].interval <= log[j].at
  {
  }

  lemma OneMore(i: nat, n: nat)
    ensures i * n == i * (n - 1) + i
  {
  }

  /** The rate bound: the n-th execution is no earlier than n - 1 intervals after the first expiration. */
  lemma {:induction false} RateBound(log: seq<Firing>, j: nat)
    requires Paced(log) && j < |log|
    ensures CountOf(log[..j + 1], log[j].serial) > 0
    ensures log[j].first + log[j].interval * (CountOf(log[..j + 1], log[j].serial) - 1) <= log[j].at
  {
    var l := log[j];
    assert log[..j + 1][..j] == log[..j];
    var n := CountOf(log[..j], l.serial);
    assert CountOf(log[..j + 1], l.serial) == n + 1;
    if n > 0 {
      var m := LastOf(log[..j], l.serial);
      RateBound(log, m);
      PacedPair(log, m, j);
      hide Paced;
      CountStopsAt(log[..j], m, l.serial);
      assert log[..j][..m + 1] == log[..m + 1];
      hide CountOf;
      OneMore(l.interval, n);
    }
  }

  function LastOf(log: seq<Firing>, serial: nat): (m: nat)
    requires CountOf(log, serial) > 0
    ensures m < |log| && log[m].serial == serial
    ensures forall i | m < i < |log| :: log[i].serial != serial
  {
    if log[|log| - 1].serial == serial then |log| - 1 else LastOf(log[..|log| - 1], serial)
  }

  lemma {:induction false} CountStopsAt(log: seq<Firing>, m: nat, serial: nat)
    requires m < |log|
    requires forall i | m < i < |log| :: log[i].serial != serial
    ensures CountOf(log, serial) == CountOf(log[..m + 1], serial)
  {
    if m + 1 == |log| {
      assert log[..m + 1] == log;
    } else {
      var front := log[..|log| - 1];
      CountStopsAt(front, m, serial);
      assert front[..m + 1] == log[..m + 1];
    }
  }

  /** A timer started by runEvery at time `start` with period `interval` has run at most
      (t - start) / interval times by time t. */
  lemma RunsByTime(a: Agenda, j: nat, start: int)
    requires Reachable(a) && j < |a.log|
    requires a.log[j].interval > 0 && a.log[j].first == start + a.log[j].interval
    ensures CountOf(a.log[..j + 1], a.log[j].serial) <= (a.log[j].at - start) / a.log[j].interval
  {
    hide CountOf, Reachable;
    ReachableInv(a);
    RateBound(a.log, j);
    hide Inv, Mid, Paced;
    CountByQuotient(CountOf(a.log[..j + 1], a.log[j].serial), a.log[j].interval, a.log[j].at - start);
  }

  lemma CountByQuotient(n: nat, i: nat, d: int)
    requires i > 0 && i + i * (n - 1) <= d
    ensures n <= d / i
  {
    OneMore(i, n);
    QuotientBound(n, i, d);
  }

  lemma QuotientBound(n: nat, i: nat, d: int)
    requires i > 0 && i * n <= d
    ensures n <= d / i
  {
    var q := d / i;
    assert d < i * q + i;
    assert i * (q + 1) == i * q + i;
    assert i * (q + 1 - n) > 0;
  }
}
