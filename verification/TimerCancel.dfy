/** What cancelling a timer means over whole runs, and what becomes of each timer of a batch. */
module TimerCancel {
  import opened TimerAgenda
  import opened TimerQueueOrder
  import opened TimerInvariant
  import TimerPace

  /* ---------------------------------- the log of a batch ---------------------------------- */

  function Firings(ts: seq<Timer>, when: int): (l: seq<Firing>)
    ensures |l| == |ts|
    ensures forall i | 0 <= i < |ts| :: l[i] == Firing(ts[i].serial, when, ts[i].interval, ts[i].first)
  {
    seq(|ts|, i requires 0 <= i < |ts| => Firing(ts[i].serial, when, ts[i].interval, ts[i].first))
  }

  lemma {:induction false} RunFirstLog(a: Agenda, when: int, acts: seq<seq<Op>>, k: nat)
    requires k <= |a.batch|
    ensures RunFirst(a, when, acts, k).log == a.log + Firings(a.batch[..k], when)
  {
    if k == 0 {
      assert a.batch[..0] == [];
    } else {
      RunFirstLog(a, when, acts, k - 1);
      var b := RunFirst(a, when, acts, k - 1);
      var t := b.batch[k - 1];
      BatchUntouched(Note(b, when, k - 1), ActsOf(acts, k - 1));
      assert Firings(a.batch[..k], when) ==
          Firings(a.batch[..k - 1], when) + [Firing(t.serial, when, t.interval, t.first)];
    }
  }

  /** What one expiry leaves behind, in terms of the state in which the batch has run. */
  lemma ExpireShape(a: Agenda, acts: seq<seq<Op>>, lag: nat)
    ensures var c, z := TimerPace.Ran(a, acts), ExpireAll(a, acts, lag);
            && c.batch == NotAfter(a.queue, a.clock)
            && z.log == a.log + Firings(c.batch, a.clock)
            && z.queue == Requeue(c, a.clock, |c.batch|).queue
            && z.created == c.created && z.nextSerial == c.nextSerial && z.batch == []
  {
    var b := Collect(a);
    RunFirstLog(b, a.clock, acts, |b.batch|);
    assert b.batch[..|b.batch|] == b.batch;
    RequeueFrame(TimerPace.Ran(a, acts), a.clock, |b.batch|);
  }

  /** One expiry runs exactly the timers due when it began, each once, earliest first, whatever its
      callbacks cancel or insert. */
  lemma BatchRunsExactlyTheDue(a: Agenda, acts: seq<seq<Op>>, lag: nat)
    requires Reachable(a)
    ensures ExpireAll(a, acts, lag).log == a.log + Firings(NotAfter(a.queue, a.clock), a.clock)
    ensures Sorted(NotAfter(a.queue, a.clock))
    ensures forall t | t in a.queue :: t.expiration <= a.clock <==> t in NotAfter(a.queue, a.clock)
  {
    TimerPace.ReachableInv(a);
    ExpireShape(a, acts, lag);
    SplitConserves(a.queue, a.clock);
    SplitSorted(a.queue, a.clock);
    forall t | t in a.queue ensures t.expiration <= a.clock <==> t in NotAfter(a.queue, a.clock) {
      assert t in multiset(NotAfter(a.queue, a.clock)) + multiset(After(a.queue, a.clock));
    }
  }

  /* ---------------------------------- timers that are gone ---------------------------------- */

  /** No queued or created timer has this serial, and no new one can get it. */
  ghost predicate Absent(a: Agenda, n: nat) {
    && n < a.nextSerial
    && (forall t | t in a.created :: t.serial != n)
    && (forall t | t in a.queue :: t.serial != n)
  }

  ghost predicate NotInBatch(a: Agenda, n: nat) { forall t | t in a.batch :: t.serial != n }

  lemma ApplyAbsent(a: Agenda, op: Op, n: nat)
    requires Absent(a, n)
    ensures Absent(Apply(a, op), n)
  {
    match op
    case Tick(_) =>
    case Create(_, _, _) =>
    case Cancel(id) => WithoutKeeps(a.queue, id);
    case Enqueue(addr) => EnqueueAbsent(a, addr, n);
  }

  lemma EnqueueAbsent(a: Agenda, addr: Address, n: nat)
    requires Absent(a, n)
    ensures Absent(EnqueueTimer(a, addr), n)
  {
    if HasAddress(a.created, addr) {
      var i := EnqueueShape(a, addr);
      hide EnqueueTimer;
      assert a.created[i] in a.created;
      PlacedConserves(a.queue, a.created[i]);
    }
  }

  lemma {:induction false} ApplyAllAbsent(a: Agenda, ops: seq<Op>, n: nat)
    requires Absent(a, n)
    ensures Absent(ApplyAll(a, ops), n)
  {
    if ops == [] {
    } else {
      ApplyAllAbsent(a, ops[..|ops| - 1], n);
      ApplyAbsent(ApplyAll(a, ops[..|ops| - 1]), ops[|ops| - 1], n);
    }
  }

  lemma {:induction false} RunFirstAbsent(a: Agenda, when: int, acts: seq<seq<Op>>, k: nat, n: nat)
    requires Absent(a, n) && k <= |a.batch|
    ensures Absent(RunFirst(a, when, acts, k), n)
  {
    if k == 0 {
    } else {
      RunFirstAbsent(a, when, acts, k - 1, n);
      var b := RunFirst(a, when, acts, k - 1);
      ApplyAllAbsent(Note(b, when, k - 1), ActsOf(acts, k - 1), n);
    }
  }

  /** Requeueing brings back only periodic timers of the batch that nobody cancelled meanwhile. */
  lemma {:induction false} RequeueAbsent(a: Agenda, when: int, k: nat, n: nat)
    requires Absent(a, n) && k <= |a.batch|
    requires forall i | 0 <= i < k && a.batch[i].serial == n ::
               !a.batch[i].Repeats() || a.batch[i].id.addr in a.canceling
    ensures Absent(Requeue(a, when, k), n)
  {
    if k == 0 {
    } else {
      RequeueAbsent(a, when, k - 1, n);
      RequeueFrame(a, when, k - 1);
      PlacedConserves(Requeue(a, when, k - 1).queue, a.batch[k - 1].Restarted(when));
    }
  }

  lemma CollectAbsent(a: Agenda, n: nat)
    requires Absent(a, n)
    ensures Absent(Collect(a), n) && NotInBatch(Collect(a), n)
  {
    var b := Collect(a);
    SplitConserves(a.queue, a.clock);
    forall t | t in b.batch || t in b.queue ensures t in a.queue {
      assert t in multiset(b.batch) + multiset(b.queue);
      assert t in multiset(a.queue);
    }
  }

  lemma ExpireAbsent(a: Agenda, acts: seq<seq<Op>>, lag: nat, n: nat)
    requires Absent(a, n)
    ensures var z := ExpireAll(a, acts, lag);
            && Absent(z, n) && a.log <= z.log
            && forall i | |a.log| <= i < |z.log| :: z.log[i].serial != n
  {
    var b, c := Collect(a), TimerPace.Ran(a, acts);
    CollectAbsent(a, n);
    RunFirstAbsent(b, a.clock, acts, |b.batch|, n);
    assert forall i | 0 <= i < |b.batch| :: b.batch[i] in b.batch;
    RequeueAbsent(c, a.clock, |c.batch|, n);
    ExpireShape(a, acts, lag);
    RequeueFrame(c, a.clock, |c.batch|);
    hide ExpireAll;
  }

  lemma StepAbsent(a: Agenda, e: Event, n: nat)
    requires Absent(a, n)
    ensures Absent(Step(a, e), n)
    ensures a.log <= Step(a, e).log
    ensures forall i | |a.log| <= i < |Step(a, e).log| :: Step(a, e).log[i].serial != n
  {
    match e
    case Do(op) => ApplyAbsent(a, op, n);
    case Expire(acts, lag) => ExpireAbsent(a, acts, lag, n);
  }

  /** A serial that is gone never runs again. */
  lemma {:induction false} AbsentNeverRuns(a: Agenda, es: seq<Event>, n: nat)
    requires Absent(a, n)
    ensures Absent(Run(a, es), n)
    ensures a.log <= Run(a, es).log
    ensures forall i | |a.log| <= i < |Run(a, es).log| :: Run(a, es).log[i].serial != n
  {
    if es == [] {
    } else {
      AbsentNeverRuns(a, es[..|es| - 1], n);
      StepAbsent(Run(a, es[..|es| - 1]), es[|es| - 1], n);
    }
  }

  /* ---------------------------------- cancelling a queued timer ---------------------------------- */

  lemma QueuedIsLive(a: Agenda, t: Timer)
    requires t in a.queue
    ensures t in Live(a)
  {
    assert t in multiset(a.queue);
  }

  lemma CreatedDiffers(a: Agenda, t: Timer, u: Timer)
    requires Distinct(Live(a)) && t in a.queue && u in a.created
    ensures u.serial != t.serial
  {
    assert multiset{u} <= multiset(a.created) && multiset{t} <= multiset(a.queue);
    assert multiset{u, t} == multiset{u} + multiset{t};
    assert multiset{u, t} <= Live(a);
    hide Live;
    Differ(Live(a), u, t);
  }

  lemma CancelMakesAbsent(a: Agenda, t: Timer)
    requires Ordered(a) && t in a.queue
    ensures HasId(a.queue, t.id) && Absent(CancelTimer(a, t.id), t.serial)
  {
    var i :| 0 <= i < |a.queue| && a.queue[i] == t;
    assert a.queue[i].id == t.id;
    WithoutKeeps(a.queue, t.id);
    QueuedIsLive(a, t);
    hide Live, Sorted, Without;
    forall u | u in Without(a.queue, t.id) ensures u.serial != t.serial { QueuedIsLive(a, u); }
    forall u | u in a.created ensures u.serial != t.serial { CreatedDiffers(a, t, u); }
  }

  lemma CancelLogs(a: Agenda, id: TimerId)
    ensures CancelTimer(a, id).log == a.log
  {
  }

  /** A queued timer that is cancelled never runs again, whatever happens afterwards. */
  lemma CancelledNeverRuns(a: Agenda, t: Timer, es: seq<Event>)
    requires Reachable(a) && t in a.queue
    ensures var z := Run(Step(a, Do(Cancel(t.id))), es);
            a.log <= z.log && forall i | |a.log| <= i < |z.log| :: z.log[i].serial != t.serial
  {
    hide Reachable, Run, Absent, CancelTimer, Without;
    TimerPace.ReachableInv(a);
    CancelMakesAbsent(a, t);
    AbsentNeverRuns(CancelTimer(a, t.id), es, t.serial);
    CancelLogs(a, t.id);
  }

  /* ---------------------------------- cancelling from a callback ---------------------------------- */

  /** Some callback among the first `k` cancels a TimerId with this address. */
  ghost predicate CancelsAddress(acts: seq<seq<Op>>, k: nat, addr: Address) {
    exists j | 0 <= j < k :: OpsCancelAddress(ActsOf(acts, j), addr)
  }

  ghost predicate OpsCancelAddress(ops: seq<Op>, addr: Address) {
    exists i | 0 <= i < |ops| :: ops[i].Cancel? && ops[i].id.addr == addr
  }

  lemma ApplyCanceling(a: Agenda, op: Op, k: nat)
    requires Ordered(a) && a.calling && k < |a.batch|
    ensures a.batch[k].id.addr in Apply(a, op).canceling <==>
            a.batch[k].id.addr in a.canceling || (op.Cancel? && op.id.addr == a.batch[k].id.addr)
  {
  }

  lemma {:induction false} ApplyAllCanceling(a: Agenda, ops: seq<Op>, k: nat)
    requires Ordered(a) && a.calling && k < |a.batch|
    ensures a.batch[k].id.addr in ApplyAll(a, ops).canceling <==>
            a.batch[k].id.addr in a.canceling || OpsCancelAddress(ops, a.batch[k].id.addr)
  {
    hide Ordered;
    if ops == [] {
    } else {
      var front, addr := ops[..|ops| - 1], a.batch[k].id.addr;
      ApplyAllCanceling(a, front, k);
      ApplyAllOrdered(a, front);
      BatchUntouched(a, front);
      ApplyCanceling(ApplyAll(a, front), ops[|ops| - 1], k);
      if OpsCancelAddress(ops, addr) {
        var i :| 0 <= i < |ops| && ops[i].Cancel? && ops[i].id.addr == addr;
        assert i < |front| ==> front[i] == ops[i];
      }
      if OpsCancelAddress(front, addr) {
        var i :| 0 <= i < |front| && front[i].Cancel? && front[i].id.addr == addr;
        assert ops[i] == front[i];
      }
    }
  }

  lemma OneMoreCallback(acts: seq<seq<Op>>, k: nat, addr: Address)
    ensures CancelsAddress(acts, k + 1, addr) <==>
              CancelsAddress(acts, k, addr) || OpsCancelAddress(ActsOf(acts, k), addr)
  {
  }

  /** `k` callbacks have run, and the address of the i-th timer was cancelled iff one of them did it. */
  ghost predicate CanceledSoFar(a: Agenda, b: Agenda, acts: seq<seq<Op>>, k: nat, i: nat)
    requires i < |a.batch|
  {
    b.calling && (a.batch[i].id.addr in b.canceling <==> CancelsAddress(acts, k, a.batch[i].id.addr))
  }

  lemma OneCallbackCanceling(a: Agenda, b: Agenda, when: int, acts: seq<seq<Op>>, k: nat, i: nat)
    requires Ordered(b) && b.batch == a.batch && k < |a.batch| && i < |a.batch| && CanceledSoFar(a, b, acts, k, i)
    ensures CanceledSoFar(a, ApplyAll(Note(b, when, k), ActsOf(acts, k)), acts, k + 1, i)
  {
    var c, ops := Note(b, when, k), ActsOf(acts, k);
    NoteOrdered(b, when, k);
    OneMoreCallback(acts, k, a.batch[i].id.addr);
    hide Ordered, OpsCancelAddress, CancelsAddress, ApplyAll;
    ApplyAllCanceling(c, ops, i);
    BatchUntouched(c, ops);
  }

  lemma {:induction false} RunFirstCanceling(a: Agenda, when: int, acts: seq<seq<Op>>, k: nat, i: nat)
    requires Ordered(a) && a.calling && a.canceling == {} && k <= |a.batch| && i < |a.batch|
    ensures CanceledSoFar(a, RunFirst(a, when, acts, k), acts, k, i)
  {
    hide Ordered, ApplyAll, Note;
    if k == 0 {
    } else {
      hide CanceledSoFar;
      RunFirstCanceling(a, when, acts, k - 1, i);
      RunFirstOrdered(a, when, acts, k - 1);
      OneCallbackCanceling(a, RunFirst(a, when, acts, k - 1), when, acts, k - 1, i);
    }
  }

  lemma {:induction false} RequeueGrows(a: Agenda, when: int, k: nat, m: nat, t: Timer)
    requires k <= m <= |a.batch| && t in Requeue(a, when, k).queue
    ensures t in Requeue(a, when, m).queue
    decreases m
  {
    if k < m {
      RequeueGrows(a, when, k, m - 1, t);
      PlacedConserves(Requeue(a, when, m - 1).queue, a.batch[m - 1].Restarted(when));
    }
  }

  lemma RequeueInserts(a: Agenda, when: int, i: nat)
    requires i < |a.batch| && a.batch[i].Repeats() && a.batch[i].id.addr !in a.canceling
    ensures Requeue(a, when, i + 1).queue == Placed(Requeue(a, when, i).queue, a.batch[i].Restarted(when))
  {
    RequeueFrame(a, when, i);
  }

  lemma PlacedHas(q: seq<Timer>, t: Timer)
    ensures t in Placed(q, t)
  {
    PlacedConserves(q, t);
    assert t in multiset(Placed(q, t));
  }

  lemma RequeuePresent(a: Agenda, when: int, k: nat, i: nat)
    requires i < k <= |a.batch|
    requires a.batch[i].Repeats() && a.batch[i].id.addr !in a.canceling
    ensures a.batch[i].Restarted(when) in Requeue(a, when, k).queue
  {
    hide Requeue, Placed;
    var r := a.batch[i].Restarted(when);
    RequeueInserts(a, when, i);
    PlacedHas(Requeue(a, when, i).queue, r);
    RequeueGrows(a, when, i + 1, k, r);
  }

  lemma BatchAbsentOutside(a: Agenda, i: nat)
    requires Ordered(a) && i < |a.batch|
    ensures Absent(a, a.batch[i].serial)
  {
  }

  lemma Requeued(a: Agenda, acts: seq<seq<Op>>, lag: nat, i: nat)
    requires TimerPace.Inv(a) && i < |NotAfter(a.queue, a.clock)|
    requires var t, n := NotAfter(a.queue, a.clock)[i], |NotAfter(a.queue, a.clock)|;
             t.Repeats() && !CancelsAddress(acts, n, t.id.addr)
    ensures var r := NotAfter(a.queue, a.clock)[i].Restarted(a.clock);
            r in ExpireAll(a, acts, lag).queue
  {
    var b, c := Collect(a), TimerPace.Ran(a, acts);
    CollectOrdered(a);
    RunFirstCanceling(b, a.clock, acts, |b.batch|, i);
    RequeuePresent(c, a.clock, |c.batch|, i);
    ExpireShape(a, acts, lag);
  }

  lemma NotRequeued(a: Agenda, acts: seq<seq<Op>>, lag: nat, i: nat)
    requires TimerPace.Inv(a) && i < |NotAfter(a.queue, a.clock)|
    requires var t, n := NotAfter(a.queue, a.clock)[i], |NotAfter(a.queue, a.clock)|;
             !t.Repeats() || CancelsAddress(acts, n, t.id.addr)
    ensures Absent(ExpireAll(a, acts, lag), NotAfter(a.queue, a.clock)[i].serial)
  {
    var b := Collect(a);
    CollectOrdered(a);
    RunFirstCanceling(b, a.clock, acts, |b.batch|, i);
    BatchAbsentOutside(b, i);
    forall j | 0 <= j < |b.batch| && j != i ensures b.batch[j].serial != b.batch[i].serial { BatchDiffers(b, j, i); }
    StaysAbsent(a, acts, lag, b.batch[i].serial);
  }

  lemma StaysAbsent(a: Agenda, acts: seq<seq<Op>>, lag: nat, n: nat)
    requires Absent(TimerPace.Ran(a, acts), n) || Absent(Collect(a), n)
    requires var c := TimerPace.Ran(a, acts);
             forall i | 0 <= i < |c.batch| && c.batch[i].serial == n :: !c.batch[i].Repeats()
                 || c.batch[i].id.addr in c.canceling
    ensures Absent(ExpireAll(a, acts, lag), n)
  {
    hide ExpireAll;
    var c := TimerPace.Ran(a, acts);
    if Absent(Collect(a), n) { RunFirstAbsent(Collect(a), a.clock, acts, |Collect(a).batch|, n); }
    RequeueAbsent(c, a.clock, |c.batch|, n);
    RequeueFrame(c, a.clock, |c.batch|);
    ExpireShape(a, acts, lag);
  }

  lemma OnlyOne(a: Agenda, t: Timer)
    requires Ordered(a) && t in a.queue
    ensures multiset(a.queue)[t] == 1
    ensures forall u | u in a.queue && u.serial == t.serial :: u == t
  {
    assert t in multiset(a.queue) && multiset(a.queue)[t] <= Live(a)[t];
    assert t in Live(a);
    forall u | u in a.queue && u.serial == t.serial ensures u == t {
      assert u in multiset(a.queue);
      assert u in Live(a);
    }
  }

  /** The fate of a timer that was due: it is queued again, exactly once and one interval after the batch
      time, if and only if it is periodic and no callback of the batch cancelled a TimerId at its address. */
  lemma BatchOutcome(a: Agenda, acts: seq<seq<Op>>, lag: nat, t: Timer)
    requires Reachable(a) && t in a.queue && t.expiration <= a.clock
    ensures var z, n := ExpireAll(a, acts, lag), |NotAfter(a.queue, a.clock)|;
            var r := t.(expiration := a.clock + t.interval);
            if t.Repeats() && !CancelsAddress(acts, n, t.id.addr)
            then multiset(z.queue)[r] == 1 && forall u | u in z.queue && u.serial == t.serial :: u == r
            else Absent(z, t.serial)
  {
    hide ExpireAll, TimerPace.Inv, CancelsAddress, NotAfter, Absent;
    var due := NotAfter(a.queue, a.clock);
    var i := DueIndex(a, t);
    TimerPace.ReachableInv(a);
    TimerPace.StepInv(a, Expire(acts, lag));
    if t.Repeats() && !CancelsAddress(acts, |due|, t.id.addr) {
      Requeued(a, acts, lag, i);
      OnlyOneAgain(ExpireAll(a, acts, lag), t, a.clock);
    } else {
      NotRequeued(a, acts, lag, i);
    }
  }

  lemma DueIndex(a: Agenda, t: Timer) returns (i: nat)
    requires t in a.queue && t.expiration <= a.clock
    ensures i < |NotAfter(a.queue, a.clock)| && NotAfter(a.queue, a.clock)[i] == t
  {
    SplitConserves(a.queue, a.clock);
    assert t in multiset(NotAfter(a.queue, a.clock)) + multiset(After(a.queue, a.clock));
    assert t in NotAfter(a.queue, a.clock);
    i :| 0 <= i < |NotAfter(a.queue, a.clock)| && NotAfter(a.queue, a.clock)[i] == t;
  }

  lemma OnlyOneAgain(a: Agenda, t: Timer, when: int)
    requires TimerPace.Inv(a) && t.Restarted(when) in a.queue
    ensures var r := t.(expiration := when + t.interval);
            multiset(a.queue)[r] == 1 && forall u | u in a.queue && u.serial == t.serial :: u == r
  {
    hide Ordered;
    OnlyOne(a, t.Restarted(when));
  }

  /** A timer cancelled by a callback of its own batch runs in that batch and never later. */
  lemma CancelledInOwnBatch(a: Agenda, acts: seq<seq<Op>>, lag: nat, t: Timer, es: seq<Event>)
    requires Reachable(a) && t in a.queue && t.expiration <= a.clock
    requires CancelsAddress(acts, |NotAfter(a.queue, a.clock)|, t.id.addr)
    ensures var y, z := ExpireAll(a, acts, lag), Run(ExpireAll(a, acts, lag), es);
            && Firing(t.serial, a.clock, t.interval, t.first) in y.log
            && y.log <= z.log && forall i | |y.log| <= i < |z.log| :: z.log[i].serial != t.serial
  {
    BatchOutcome(a, acts, lag, t);
    BatchRunsExactlyTheDue(a, acts, lag);
    AbsentNeverRuns(ExpireAll(a, acts, lag), es, t.serial);
    var due := NotAfter(a.queue, a.clock);
    var i :| 0 <= i < |due| && due[i] == t;
    assert Firings(due, a.clock)[i] == Firing(t.serial, a.clock, t.interval, t.first);
  }

  /* ---------------------------------- cancelling a waiting timer from a callback ---------------------------------- */

  ghost predicate CancelsId(acts: seq<seq<Op>>, k: nat, id: TimerId) {
    exists j | 0 <= j < k :: Cancel(id) in ActsOf(acts, j)
  }

  ghost predicate QueuedOrGone(a: Agenda, t: Timer) { t in a.queue || Absent(a, t.serial) }

  lemma ApplyQueued(a: Agenda, op: Op, t: Timer)
    requires Ordered(a) && QueuedOrGone(a, t)
    ensures QueuedOrGone(Apply(a, op), t)
    ensures op == Cancel(t.id) ==> Absent(Apply(a, op), t.serial)
  {
    if t !in a.queue {
      ApplyAbsent(a, op, t.serial);
    } else {
      match op
      case Tick(_) =>
      case Create(_, _, _) =>
      case Enqueue(addr) =>
        if HasAddress(a.created, addr) {
          var i := EnqueueShape(a, addr);
          PlacedConserves(a.queue, a.created[i]);
        }
      case Cancel(id) =>
        if id == t.id {
          CancelMakesAbsent(a, t);
        } else {
          WithoutCounts(a.queue, id, t);
          assert t in multiset(a.queue);
          assert multiset(Without(a.queue, id))[t] > 0;
        }
    }
  }

  lemma {:induction false} ApplyAllQueued(a: Agenda, ops: seq<Op>, t: Timer)
    requires Ordered(a) && QueuedOrGone(a, t)
    ensures QueuedOrGone(ApplyAll(a, ops), t)
    ensures Cancel(t.id) in ops ==> Absent(ApplyAll(a, ops), t.serial)
  {
    hide Ordered;
    if ops == [] {
    } else {
      var front, last := ops[..|ops| - 1], ops[|ops| - 1];
      ApplyAllQueued(a, front, t);
      ApplyAllOrdered(a, front);
      ApplyQueued(ApplyAll(a, front), last, t);
      if Cancel(t.id) in front { ApplyAbsent(ApplyAll(a, front), last, t.serial); }
    }
  }

  lemma OneMoreCancelsId(acts: seq<seq<Op>>, k: nat, id: TimerId)
    ensures CancelsId(acts, k + 1, id) <==> CancelsId(acts, k, id) || Cancel(id) in ActsOf(acts, k)
  {
  }

  lemma OneCallbackQueued(b: Agenda, when: int, acts: seq<seq<Op>>, k: nat, t: Timer)
    requires Ordered(b) && QueuedOrGone(b, t) && k < |b.batch|
    requires CancelsId(acts, k, t.id) ==> Absent(b, t.serial)
    ensures var d := ApplyAll(Note(b, when, k), ActsOf(acts, k));
            QueuedOrGone(d, t) && (CancelsId(acts, k + 1, t.id) ==> Absent(d, t.serial))
  {
    OneMoreCancelsId(acts, k, t.id);
    var c, ops := Note(b, when, k), ActsOf(acts, k);
    NoteOrdered(b, when, k);
    SameTimersAbsent(b, c, t);
    hide Ordered, CancelsId, ApplyAll, QueuedOrGone, Absent;
    ApplyAllQueued(c, ops, t);
    if CancelsId(acts, k, t.id) { ApplyAllAbsent(c, ops, t.serial); }
  }

  lemma {:induction false} RunFirstQueued(a: Agenda, when: int, acts: seq<seq<Op>>, k: nat, t: Timer)
    requires Ordered(a) && QueuedOrGone(a, t) && k <= |a.batch|
    ensures QueuedOrGone(RunFirst(a, when, acts, k), t)
    ensures CancelsId(acts, k, t.id) ==> Absent(RunFirst(a, when, acts, k), t.serial)
  {
    hide Ordered, ApplyAll, Note, QueuedOrGone, Absent;
    if k == 0 {
    } else {
      hide CancelsId;
      RunFirstQueued(a, when, acts, k - 1, t);
      RunFirstOrdered(a, when, acts, k - 1);
      OneCallbackQueued(RunFirst(a, when, acts, k - 1), when, acts, k - 1, t);
    }
  }

  lemma SameTimersAbsent(a: Agenda, b: Agenda, t: Timer)
    requires b.queue == a.queue && b.created == a.created && b.nextSerial == a.nextSerial
    ensures QueuedOrGone(a, t) ==> QueuedOrGone(b, t)
    ensures Absent(a, t.serial) ==> Absent(b, t.serial)
  {
  }

  lemma WaitingStays(q: seq<Timer>, e: int, t: Timer)
    requires t in q && t.expiration > e
    ensures t in After(q, e)
  {
  }

  lemma WaitingCancelled(a: Agenda, acts: seq<seq<Op>>, lag: nat, t: Timer)
    requires TimerPace.Inv(a) && t in a.queue && t.expiration > a.clock
    requires CancelsId(acts, |NotAfter(a.queue, a.clock)|, t.id)
    ensures Absent(ExpireAll(a, acts, lag), t.serial)
    ensures forall i | 0 <= i < |NotAfter(a.queue, a.clock)| :: NotAfter(a.queue, a.clock)[i].serial != t.serial
  {
    hide Ordered, CancelsId, ExpireAll;
    var b := Collect(a);
    WaitingStays(a.queue, a.clock, t);
    CollectOrdered(a);
    RunFirstQueued(b, a.clock, acts, |b.batch|, t);
    forall j | 0 <= j < |b.batch| ensures b.batch[j].serial != t.serial { OutsideBatchDiffers(b, j, t); }
    StaysAbsent(a, acts, lag, t.serial);
  }

  /** A timer not yet due that some callback of the batch cancels never runs. */
  lemma CancelledFromCallback(a: Agenda, acts: seq<seq<Op>>, lag: nat, t: Timer, es: seq<Event>)
    requires Reachable(a) && t in a.queue && t.expiration > a.clock
    requires CancelsId(acts, |NotAfter(a.queue, a.clock)|, t.id)
    ensures var z := Run(ExpireAll(a, acts, lag), es);
            a.log <= z.log && forall i | |a.log| <= i < |z.log| :: z.log[i].serial != t.serial
  {
    hide ExpireAll;
    TimerPace.ReachableInv(a);
    WaitingCancelled(a, acts, lag, t);
    ExpireShape(a, acts, lag);
    AbsentNeverRuns(ExpireAll(a, acts, lag), es, t.serial);
  }

  /* ---------------------------------- stale ids ---------------------------------- */

  /** Cancelling an id that no timer has any more is not without effect: from a callback it stops a periodic
      timer of the batch that lives at the same address. */
  lemma StaleCancelStopsAnother(a: Agenda, t: Timer, stale: TimerId, lag: nat)
    requires Reachable(a) && t in a.queue && t.expiration <= a.clock && t.Repeats()
    requires stale.addr == t.id.addr && stale != t.id
    ensures Absent(ExpireAll(a, [[Cancel(stale)]], lag), t.serial)
    ensures multiset(ExpireAll(a, [], lag).queue)[t.(expiration := a.clock + t.interval)] == 1
  {
    BatchRunsExactlyTheDue(a, [], lag);
    BatchOutcome(a, [], lag, t);
    assert [Cancel(stale)][0].Cancel?;
    assert OpsCancelAddress(ActsOf([[Cancel(stale)]], 0), t.id.addr);
    BatchOutcome(a, [[Cancel(stale)]], lag, t);
  }
}
