/** No timer is stranded: the one timerfd always stands for the earliest timer of the queue. */
module TimerService {
  import opened TimerAgenda
  import opened TimerQueueOrder
  import opened TimerInvariant
  import TimerPace

  function Max(x: int, y: int): int { if x < y then y else x }

  /** The timerfd has fired unread, or fires by the earliest expiration or MIN_DELAY after it was last armed. */
  ghost predicate Promised(a: Agenda)
    requires a.queue != []
  {
    a.fd.Fired? || (a.fd.Armed? && a.fd.deadline <= Max(a.queue[0].expiration, a.lastArm + MIN_DELAY))
  }

  /** The promise is kept towards an earliest timer expiring at `limit` at the latest. */
  ghost predicate ServedUpTo(a: Agenda, limit: int) {
    a.queue != [] && a.queue[0].expiration <= limit ==> Promised(a)
  }

  ghost predicate ClockOk(a: Agenda) {
    && (a.fd.Armed? ==> a.fd.deadline > a.clock)
    && a.lastArm <= a.clock
  }

  lemma RearmPromises(a: Agenda)
    requires a.queue != []
    ensures Promised(Rearm(a, a.queue[0].expiration)) && ClockOk(Rearm(a, a.queue[0].expiration))
  {
  }

  lemma ApplyServed(a: Agenda, op: Op, limit: int)
    requires Sorted(a.queue) && ClockOk(a) && ServedUpTo(a, limit)
    ensures Sorted(Apply(a, op).queue) && ClockOk(Apply(a, op)) && ServedUpTo(Apply(a, op), limit)
  {
    match op
    case Tick(_) =>
    case Create(_, _, _) =>
    case Cancel(id) => CancelServed(a, id, limit);
    case Enqueue(addr) => EnqueueServed(a, addr, limit);
  }

  lemma CancelServed(a: Agenda, id: TimerId, limit: int)
    requires Sorted(a.queue) && ServedUpTo(a, limit)
    ensures Sorted(CancelTimer(a, id).queue) && ServedUpTo(CancelTimer(a, id), limit)
  {
    WithoutSorted(a.queue, id);
    if Without(a.queue, id) != [] { WithoutHead(a.queue, id); }
  }

  lemma EnqueueServed(a: Agenda, addr: Address, limit: int)
    requires Sorted(a.queue) && ClockOk(a) && ServedUpTo(a, limit)
    ensures Sorted(EnqueueTimer(a, addr).queue) && ClockOk(EnqueueTimer(a, addr))
            && ServedUpTo(EnqueueTimer(a, addr), limit)
  {
    if HasAddress(a.created, addr) {
      var t := a.created[IndexOfAddress(a.created, addr)];
      PlacedSorted(a.queue, t);
      PlacedHead(a.queue, t);
    }
  }

  lemma {:induction false} ApplyAllServed(a: Agenda, ops: seq<Op>, limit: int)
    requires Sorted(a.queue) && ClockOk(a) && ServedUpTo(a, limit)
    ensures Sorted(ApplyAll(a, ops).queue) && ClockOk(ApplyAll(a, ops)) && ServedUpTo(ApplyAll(a, ops), limit)
  {
    if ops == [] {
    } else {
      ApplyAllServed(a, ops[..|ops| - 1], limit);
      ApplyServed(ApplyAll(a, ops[..|ops| - 1]), ops[|ops| - 1], limit);
    }
  }

  lemma {:induction false} RunFirstServed(a: Agenda, when: int, acts: seq<seq<Op>>, k: nat)
    requires Sorted(a.queue) && ClockOk(a) && ServedUpTo(a, when) && k <= |a.batch|
    ensures var b := RunFirst(a, when, acts, k);
            Sorted(b.queue) && ClockOk(b) && ServedUpTo(b, when) && b.clock >= a.clock
  {
    if k == 0 {
    } else {
      RunFirstServed(a, when, acts, k - 1);
      var c := Note(RunFirst(a, when, acts, k - 1), when, k - 1);
      ApplyAllServed(c, ActsOf(acts, k - 1), when);
      BatchUntouched(c, ActsOf(acts, k - 1));
    }
  }

  /** Timers put back expire after the batch time, so they never become the earliest by then. */
  lemma {:induction false} RequeueServed(a: Agenda, when: int, k: nat)
    requires Sorted(a.queue) && k <= |a.batch| && ServedUpTo(a, when)
    ensures Sorted(Requeue(a, when, k).queue) && ServedUpTo(Requeue(a, when, k), when)
  {
    if k == 0 {
    } else {
      RequeueServed(a, when, k - 1);
      RequeueFrame(a, when, k - 1);
      PlacedSorted(Requeue(a, when, k - 1).queue, a.batch[k - 1].Restarted(when));
      PlacedHead(Requeue(a, when, k - 1).queue, a.batch[k - 1].Restarted(when));
    }
  }

  ghost predicate Served(a: Agenda) {
    ClockOk(a) && (a.queue != [] ==> Promised(a))
  }

  lemma CollectServed(a: Agenda)
    requires Sorted(a.queue) && ClockOk(a)
    ensures var b := Collect(a); Sorted(b.queue) && ClockOk(b) && ServedUpTo(b, a.clock)
  {
    SplitConserves(a.queue, a.clock);
    SplitSorted(a.queue, a.clock);
    hide Promised, Sorted;
    var q := After(a.queue, a.clock);
    assert q != [] ==> q[0] in q;
  }

  /** When the batch has run and was put back, the promise is kept towards the timers due with it: there are none. */
  lemma RequeuedServed(a: Agenda, acts: seq<seq<Op>>)
    requires Sorted(a.queue) && ClockOk(a)
    ensures var c := TimerPace.Ran(a, acts);
            var d := Requeue(c, a.clock, |c.batch|);
            Sorted(d.queue) && ClockOk(d) && ServedUpTo(d, a.clock) && d.clock >= a.clock
  {
    hide Sorted, ClockOk, ServedUpTo, Collect, RunFirst, Requeue;
    CollectServed(a);
    var b := Collect(a);
    CollectClock(a);
    RunFirstServed(b, a.clock, acts, |b.batch|);
    var r := RunFirst(b, a.clock, acts, |b.batch|);
    var c := TimerPace.Ran(a, acts);
    NotCallingServed(r, a.clock);
    RequeueServed(c, a.clock, |c.batch|);
    RequeueFrame(c, a.clock, |c.batch|);
    SameClock(c, Requeue(c, a.clock, |c.batch|));
  }

  lemma CollectClock(a: Agenda)
    ensures Collect(a).clock == a.clock
  {
  }

  lemma NotCallingServed(r: Agenda, limit: int)
    requires Sorted(r.queue) && ClockOk(r) && ServedUpTo(r, limit)
    ensures var c := r.(calling := false); Sorted(c.queue) && ClockOk(c) && ServedUpTo(c, limit)
  {
  }

  lemma SameClock(a: Agenda, b: Agenda)
    requires ClockOk(a) && b.fd == a.fd && b.clock == a.clock && b.lastArm == a.lastArm
    ensures ClockOk(b)
  {
  }

  lemma RearmServed(d: Agenda, lag: nat, when: nat)
    requires ClockOk(d) && ServedUpTo(d, when) && d.clock >= when
    ensures Served(RearmForNext(Advance(d, lag)).(batch := []))
  {
    var e := Advance(d, lag);
    if e.queue != [] { RearmPromises(e); }
  }

  lemma ExpireServed(a: Agenda, acts: seq<seq<Op>>, lag: nat)
    requires Sorted(a.queue) && ClockOk(a)
    ensures Served(ExpireAll(a, acts, lag))
  {
    hide Sorted, ClockOk, ServedUpTo, Served, Collect, RunFirst, Requeue, Advance, RearmForNext;
    RequeuedServed(a, acts);
    var c := TimerPace.Ran(a, acts);
    RearmServed(Requeue(c, a.clock, |c.batch|), lag, a.clock);
  }

  lemma StepServed(a: Agenda, e: Event)
    requires TimerPace.Inv(a) && Served(a)
    ensures Served(Step(a, e))
  {
    match e
    case Expire(acts, lag) => ExpireServed(a, acts, lag);
    case Do(op) =>
      var b := Apply(a, op);
      if b.queue != [] { ApplyServed(a, op, b.queue[0].expiration); } else { ApplyServed(a, op, 0); }
  }

  lemma {:induction false} RunServed(a: Agenda, es: seq<Event>)
    requires TimerPace.Inv(a) && Served(a)
    ensures Served(Run(a, es))
  {
    if es == [] {
    } else {
      RunServed(a, es[..|es| - 1]);
      TimerPace.RunInv(a, es[..|es| - 1]);
      StepServed(Run(a, es[..|es| - 1]), es[|es| - 1]);
    }
  }

  /** In every reachable state with a queued timer the timerfd has fired unread, or is armed no later than
      the earliest expiration or MIN_DELAY after the last arming, whichever is later. */
  lemma NeverStranded(a: Agenda)
    requires Reachable(a) && a.queue != []
    ensures a.fd.Fired? || (a.fd.Armed? && a.clock < a.fd.deadline <= Max(a.queue[0].expiration, a.lastArm + MIN_DELAY))
  {
    var clock: nat, es: seq<Event> :| a == Run(Empty(clock), es);
    assert TimerPace.Inv(Empty(clock));
    RunServed(Empty(clock), es);
  }

  /** Hence once that much time has passed the timerfd is readable, and the next expiry collects the timer. */
  lemma DueMeansReadable(a: Agenda)
    requires Reachable(a) && a.queue != []
    requires a.clock >= Max(a.queue[0].expiration, a.lastArm + MIN_DELAY)
    ensures a.fd.Fired?
    ensures a.queue[0] in Collect(a).batch && Collect(a).fd.Idle?
  {
    NeverStranded(a);
    assert NotAfter(a.queue, a.clock)[0] == a.queue[0];
  }
}
