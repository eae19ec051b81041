/** When timers are due, in every run: at their first expiration, and then one interval after each execution. */
module TimerDue {
  import opened TimerAgenda
  import opened TimerInvariant
  import opened TimerQueueOrder
  import TimerPace

  /** The time at which a timer is due, by the executions that are logged. */
  function Due(log: seq<Firing>, t: Timer): int {
    if log == [] then t.first
    else if log[|log| - 1].serial == t.serial then log[|log| - 1].at + t.interval
    else Due(log[..|log| - 1], t)
  }

  ghost predicate AllExact(log: seq<Firing>, q: seq<Timer>) { forall t | t in q :: t.expiration == Due(log, t) }

  /** After the first `k` callbacks of a batch collected at `when`. */
  ghost predicate Mid(a: Agenda, when: int, k: nat) {
    && k <= |a.batch|
    && (forall i | 0 <= i < |a.log| :: a.log[i].serial < a.nextSerial)
    && AllExact(a.log, a.created) && AllExact(a.log, a.queue)
    && (forall i | k <= i < |a.batch| :: a.batch[i].expiration == Due(a.log, a.batch[i]))
    && (forall i | 0 <= i < k :: Due(a.log, a.batch[i]) == when + a.batch[i].interval)
  }

  lemma {:induction false} NeverRunIsFirst(log: seq<Firing>, t: Timer)
    requires forall i | 0 <= i < |log| :: log[i].serial != t.serial
    ensures Due(log, t) == t.first
  {
    if log != [] { NeverRunIsFirst(log[..|log| - 1], t); }
  }

  lemma OneMoreRun(a: Agenda, when: int, k: nat, u: Timer)
    requires k < |a.batch|
    ensures Due(Note(a, when, k).log, u) ==
            if u.serial == a.batch[k].serial then when + u.interval else Due(a.log, u)
  {
    var log := Note(a, when, k).log;
    assert log[..|log| - 1] == a.log;
  }

  lemma PlacedExact(log: seq<Firing>, q: seq<Timer>, t: Timer)
    requires AllExact(log, q) && t.expiration == Due(log, t)
    ensures AllExact(log, Placed(q, t))
  {
    PlacedConserves(q, t);
  }

  lemma ApplyExact(a: Agenda, op: Op, when: int, k: nat)
    requires Mid(a, when, k)
    ensures Mid(Apply(a, op), when, k)
  {
    hide Due, Placed, EnqueueTimer, Without;
    match op
    case Tick(_) =>
    case Create(id, at, interval) => NeverRunIsFirst(a.log, Timer(a.nextSerial, id, at, interval, at));
    case Cancel(id) => WithoutKeeps(a.queue, id);
    case Enqueue(addr) =>
      NotCreated(a, addr);
      if HasAddress(a.created, addr) {
        var i := EnqueueShape(a, addr);
        EnqueueKeepsLog(a, addr);
        PlacedExact(a.log, a.queue, a.created[i]);
      }
  }

  lemma NotCreated(a: Agenda, addr: Address)
    ensures !HasAddress(a.created, addr) ==> EnqueueTimer(a, addr) == a
  {
  }

  lemma EnqueueKeepsLog(a: Agenda, addr: Address)
    ensures EnqueueTimer(a, addr).log == a.log
  {
  }

  lemma {:induction false} ApplyAllExact(a: Agenda, ops: seq<Op>, when: int, k: nat)
    requires Mid(a, when, k)
    ensures Mid(ApplyAll(a, ops), when, k)
  {
    hide Mid, Apply;
    if ops != [] {
      ApplyAllExact(a, ops[..|ops| - 1], when, k);
      ApplyExact(ApplyAll(a, ops[..|ops| - 1]), ops[|ops| - 1], when, k);
    }
  }

  lemma FiringExact(a: Agenda, when: int, k: nat)
    requires Ordered(a) && Mid(a, when, k) && k < |a.batch|
    ensures Mid(Note(a, when, k), when, k + 1)
  {
    TimerPace.NextSerialIsNew(a, k);
    OneMoreRun(a, when, k, a.batch[k]);
    forall u | u in a.created || u in a.queue ensures Due(Note(a, when, k).log, u) == Due(a.log, u) {
      OutsideBatchDiffers(a, k, u);
      OneMoreRun(a, when, k, u);
    }
    forall i | 0 <= i < |a.batch| && i != k ensures Due(Note(a, when, k).log, a.batch[i]) == Due(a.log, a.batch[i]) {
      BatchDiffers(a, i, k);
      OneMoreRun(a, when, k, a.batch[i]);
    }
    hide Ordered, Due;
  }

  lemma {:induction false} RunFirstExact(a: Agenda, when: int, acts: seq<seq<Op>>, k: nat)
    requires Ordered(a) && Mid(a, when, 0) && k <= |a.batch|
    ensures Mid(RunFirst(a, when, acts, k), when, k)
  {
    hide Ordered, Mid;
    if k > 0 {
      RunFirstExact(a, when, acts, k - 1);
      RunFirstOrdered(a, when, acts, k - 1);
      var b := RunFirst(a, when, acts, k - 1);
      FiringExact(b, when, k - 1);
      ApplyAllExact(Note(b, when, k - 1), ActsOf(acts, k - 1), when, k);
    }
  }

  lemma CollectExact(a: Agenda)
    requires Mid(a, 0, 0) && a.batch == []
    ensures Mid(Collect(a), a.clock, 0)
  {
    SplitConserves(a.queue, a.clock);
    forall t | t in NotAfter(a.queue, a.clock) || t in After(a.queue, a.clock) ensures t in a.queue {
      assert t in multiset(NotAfter(a.queue, a.clock)) + multiset(After(a.queue, a.clock));
      assert t in multiset(a.queue);
    }
    hide Due;
  }

  lemma {:induction false} RequeueExact(a: Agenda, when: int, k: nat)
    requires Mid(a, when, |a.batch|) && k <= |a.batch|
    ensures AllExact(a.log, Requeue(a, when, k).queue)
  {
    if k > 0 {
      RequeueExact(a, when, k - 1);
      var t := a.batch[k - 1];
      assert Due(a.log, t) == when + t.interval;
      SameDue(a.log, t, t.Restarted(when));
      hide Due;
      if t.Repeats() { PlacedExact(a.log, Requeue(a, when, k - 1).queue, t.Restarted(when)); }
    }
  }

  lemma {:induction false} SameDue(log: seq<Firing>, t: Timer, u: Timer)
    requires t.serial == u.serial && t.interval == u.interval && t.first == u.first
    ensures Due(log, t) == Due(log, u)
  {
    if log != [] { SameDue(log[..|log| - 1], t, u); }
  }

  lemma ExpireExact(a: Agenda, acts: seq<seq<Op>>, lag: nat)
    requires Ordered(a) && a.batch == [] && Mid(a, 0, 0)
    ensures Mid(ExpireAll(a, acts, lag), 0, 0)
  {
    hide Due, Ordered, Collect, RunFirst, Requeue;
    CollectOrdered(a);
    CollectExact(a);
    RunFirstExact(Collect(a), a.clock, acts, |Collect(a).batch|);
    var c := TimerPace.Ran(a, acts);
    RequeueExact(c, a.clock, |c.batch|);
    RequeueFrame(c, a.clock, |c.batch|);
  }

  lemma {:induction false} RunExact(a: Agenda, es: seq<Event>)
    requires TimerPace.Inv(a) && Mid(a, 0, 0)
    ensures Mid(Run(a, es), 0, 0)
  {
    hide Mid, Step, TimerPace.Inv;
    if es != [] {
      var front, e := es[..|es| - 1], es[|es| - 1];
      RunExact(a, front);
      TimerPace.RunInv(a, front);
      StepExact(Run(a, front), e);
    }
  }

  lemma StepExact(a: Agenda, e: Event)
    requires TimerPace.Inv(a) && Mid(a, 0, 0)
    ensures Mid(Step(a, e), 0, 0)
  {
    match e
    case Do(op) => ApplyExact(a, op, 0, 0);
    case Expire(acts, lag) => ExpireExact(a, acts, lag);
    hide Mid;
  }

  /** Over any run: a timer that has not been executed yet is due at its first expiration, one that has been at exactly
      one interval after its last execution. */
  lemma ExpirationsAreExact(a: Agenda, t: Timer)
    requires Reachable(a) && (t in a.created || t in a.queue)
    ensures t.expiration == Due(a.log, t)
  {
    var clock: nat, es: seq<Event> :| a == Run(Empty(clock), es);
    assert TimerPace.Inv(Empty(clock));
    RunExact(Empty(clock), es);
  }

  /* ---------------------------------- single operations ---------------------------------- */

  /** A new timer is due at the given time, and is not queued yet. */
  lemma CreateDoes(a: Agenda, id: TimerId, when: int, interval: nat)
    requires Allocatable(a, id.addr)
    ensures Apply(a, Create(id, when, interval)) ==
            a.(created := a.created + [Timer(a.nextSerial, id, when, interval, when)], nextSerial := a.nextSerial + 1)
  {
  }

  /** When the timerfd is to be readable for an expiration: at that time, or a microsecond from now if it has passed. */
  function ArmedFor(expiration: int, now: int): int { if expiration > now then expiration else now + 1000 }

  /** `r` is `q` with `t` at position `k`, behind those that are not later and before those that are. */
  ghost predicate Between(q: seq<Timer>, r: seq<Timer>, t: Timer, k: nat)
    requires k <= |q|
  {
    && r == q[..k] + [t] + q[k..]
    && (forall j | 0 <= j < k :: q[j].expiration <= t.expiration)
    && (forall j | k <= j < |q| :: q[j].expiration > t.expiration)
  }

  /** It is queued behind all that are not later and before all that are, and the timerfd is armed for it iff it is
      the earliest. */
  lemma EnqueueDoes(a: Agenda, i: nat)
    requires Ordered(a) && i < |a.created|
    ensures var t, b := a.created[i], Apply(a, Enqueue(a.created[i].id.addr));
            var first := a.queue == [] || t.expiration < a.queue[0].expiration;
            && (exists k: nat | k <= |a.queue| :: Between(a.queue, b.queue, t, k))
            && b.fd == (if first then Armed(ArmedFor(t.expiration, a.clock)) else a.fd)
            && b == a.(created := a.created[..i] + a.created[i + 1..], queue := b.queue, fd := b.fd,
                       lastArm := if first then a.clock else a.lastArm)
  {
    var t := a.created[i];
    CreatedIndex(a, i);
    PlacedBetween(a, t);
    EnqueueIs(a, i);
    hide Live, Sorted, NotAfter, After, Placed, EnqueueTimer, Between, IndexOfAddress, ArmedFor;
    var b := EnqueueTimer(a, t.id.addr);
    assert Apply(a, Enqueue(t.id.addr)) == b && b.queue == Placed(a.queue, t);
    if a.queue == [] {
      assert b.fd == Armed(ArmedFor(t.expiration, a.clock));
    } else if t.expiration < a.queue[0].expiration {
      assert b.fd == Armed(ArmedFor(t.expiration, a.clock));
    } else {
      assert b.fd == a.fd;
    }
  }

  lemma EnqueueIs(a: Agenda, i: nat)
    requires i < |a.created| && HasAddress(a.created, a.created[i].id.addr)
    requires IndexOfAddress(a.created, a.created[i].id.addr) == i
    ensures var t := a.created[i];
            var b := a.(created := a.created[..i] + a.created[i + 1..], queue := Placed(a.queue, t));
            EnqueueTimer(a, t.id.addr) ==
            if a.queue == [] || t.expiration < a.queue[0].expiration
            then b.(fd := Armed(ArmedFor(t.expiration, a.clock)), lastArm := a.clock) else b
  {
    hide Placed, HasAddress;
  }

  lemma CreatedIndex(a: Agenda, i: nat)
    requires Ordered(a) && i < |a.created|
    ensures HasAddress(a.created, a.created[i].id.addr) && IndexOfAddress(a.created, a.created[i].id.addr) == i
  {
    hide Ordered;
    assert a.created[i].id.addr == a.created[i].id.addr;
    CreatedUnique(a, i, IndexOfAddress(a.created, a.created[i].id.addr));
  }

  lemma PlacedBetween(a: Agenda, t: Timer)
    requires Ordered(a)
    ensures exists k: nat | k <= |a.queue| :: Between(a.queue, Placed(a.queue, t), t, k)
  {
    hide Live;
    var k := SplitPoint(a.queue, t.expiration);
    SplitIsPrefix(a.queue, t.expiration, k);
    hide Sorted, NotAfter, After;
    assert Between(a.queue, Placed(a.queue, t), t, k);
  }

  lemma CreatedUnique(a: Agenda, i: nat, k: nat)
    requires Ordered(a) && i < |a.created| && k < |a.created| && a.created[i].id.addr == a.created[k].id.addr
    ensures i == k
  {
    if i != k {
      TwoOf(a.created, i, k);
      Differ(Live(a), a.created[i], a.created[k]);
    }
  }

  lemma SplitPoint(q: seq<Timer>, e: int) returns (k: nat)
    requires Sorted(q)
    ensures k <= |q|
    ensures forall j | 0 <= j < k :: q[j].expiration <= e
    ensures forall j | k <= j < |q| :: q[j].expiration > e
  {
    k := 0;
    while k < |q| && q[k].expiration <= e
      invariant k <= |q|
      invariant forall j | 0 <= j < k :: q[j].expiration <= e
    {
      k := k + 1;
    }
  }

  /** Cancelling takes a queued timer away; the address of any other is remembered while callbacks run, and only
      then. */
  lemma CancelDoes(a: Agenda, id: TimerId)
    ensures Apply(a, Cancel(id)) ==
            if exists i | 0 <= i < |a.queue| :: a.queue[i].id == id then a.(queue := Without(a.queue, id))
            else if a.calling then a.(canceling := a.canceling + {id.addr})
            else a
  {
  }

  /** Time passes, and the timerfd becomes readable when its deadline has come. */
  lemma TickDoes(a: Agenda, dt: nat)
    ensures Apply(a, Tick(dt)) ==
            a.(clock := a.clock + dt, fd := if a.fd.Armed? && a.fd.deadline <= a.clock + dt then Fired else a.fd)
  {
  }

  /** An expiry takes the due timers out, forgets what was cancelled before, and uses up the readability. */
  lemma CollectDoes(a: Agenda)
    ensures Collect(a) ==
            a.(fd := if a.fd == Fired then Idle else a.fd, batch := NotAfter(a.queue, a.clock),
               queue := After(a.queue, a.clock), calling := true, canceling := {})
  {
  }

  /** In the end the timerfd is armed for the timer that is then the earliest. */
  lemma ExpireArms(a: Agenda, acts: seq<seq<Op>>, lag: nat)
    ensures var z := ExpireAll(a, acts, lag);
            z.queue != [] && z.queue[0].expiration > 0 ==>
              z.fd == Armed(ArmedFor(z.queue[0].expiration, z.clock)) && z.lastArm == z.clock
  {
    hide RunFirst, Requeue, Collect;
  }
}
