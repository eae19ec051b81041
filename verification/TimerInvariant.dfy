/** Identity and order of timers in every run of the agenda, callbacks included. */
module TimerInvariant {
  import opened TimerAgenda
  import opened TimerQueueOrder

  ghost function Live(a: Agenda): multiset<Timer> {
    multiset(a.created) + multiset(a.queue) + multiset(a.batch)
  }

  /** No two live timers share an address or a serial. */
  ghost predicate Distinct(m: multiset<Timer>) {
    && (forall t | t in m :: m[t] == 1)
    && (forall t, u | t in m && u in m && (t.serial == u.serial || t.id.addr == u.id.addr) :: t == u)
  }

  ghost predicate Older(m: multiset<Timer>, n: nat) { forall t | t in m :: t.serial < n }

  /** The queue is ordered and timers are told apart by their address, and by their serial. */
  ghost predicate Ordered(a: Agenda) {
    && Sorted(a.queue)
    && Distinct(Live(a))
    && Older(Live(a), a.nextSerial)
  }

  lemma FewerDistinct(small: multiset<Timer>, big: multiset<Timer>, n: nat)
    requires small <= big && Distinct(big) && Older(big, n)
    ensures Distinct(small) && Older(small, n)
  {
  }

  lemma OneMoreDistinct(m: multiset<Timer>, t: Timer)
    requires Distinct(m)
    requires forall u | u in m :: u.serial != t.serial && u.id.addr != t.id.addr
    ensures Distinct(m + multiset{t})
  {
  }

  /** Two timers of a distinct population differ in serial and address. */
  lemma Differ(m: multiset<Timer>, t: Timer, u: Timer)
    requires Distinct(m) && multiset{t, u} <= m
    ensures t.serial != u.serial && t.id.addr != u.id.addr
  {
  }

  lemma TwoOf<T>(s: seq<T>, i: nat, k: nat)
    requires i < |s| && k < |s| && i != k
    ensures multiset{s[i], s[k]} <= multiset(s)
  {
    var lo, hi := if i < k then i else k, if i < k then k else i;
    assert s == s[..lo] + [s[lo]] + s[lo + 1..hi] + [s[hi]] + s[hi + 1..];
  }

  lemma BatchDiffers(a: Agenda, i: nat, k: nat)
    requires Ordered(a) && k < |a.batch| && i < |a.batch| && i != k
    ensures a.batch[i].serial != a.batch[k].serial && a.batch[i].id.addr != a.batch[k].id.addr
  {
    TwoOf(a.batch, i, k);
    Differ(Live(a), a.batch[i], a.batch[k]);
  }

  lemma OutsideBatchDiffers(a: Agenda, k: nat, u: Timer)
    requires Ordered(a) && k < |a.batch|
    requires u in a.created || u in a.queue
    ensures u.serial != a.batch[k].serial && u.id.addr != a.batch[k].id.addr
  {
  }

  lemma AllocatableDiffers(a: Agenda, addr: Address, u: Timer)
    requires Allocatable(a, addr) && u in Live(a)
    ensures u.id.addr != addr
  {
    if u in a.created { var i :| 0 <= i < |a.created| && a.created[i] == u; }
    else if u in a.queue { var i :| 0 <= i < |a.queue| && a.queue[i] == u; }
    else { var i :| 0 <= i < |a.batch| && a.batch[i] == u; }
  }

  lemma CreateLive(a: Agenda, t: Timer)
    ensures Live(a.(created := a.created + [t], nextSerial := a.nextSerial + 1)) == Live(a) + multiset{t}
  {
  }

  lemma OneMoreOlder(m: multiset<Timer>, t: Timer, n: nat)
    requires Older(m, n) && t.serial == n
    ensures Older(m + multiset{t}, n + 1)
  {
  }

  lemma CreateOrdered(a: Agenda, id: TimerId, when: int, interval: nat)
    requires Ordered(a)
    ensures Ordered(CreateTimer(a, id, when, interval))
  {
    if Allocatable(a, id.addr) {
      var t := Timer(a.nextSerial, id, when, interval, when);
      CreateLive(a, t);
      hide Live, Sorted, Allocatable;
      forall u | u in Live(a) ensures u.id.addr != id.addr && u.serial != t.serial {
        AllocatableDiffers(a, id.addr, u);
      }
      OneMoreDistinct(Live(a), t);
      OneMoreOlder(Live(a), t, a.nextSerial);
    }
  }

  /** Moving one element between populations conserves their sum. */
  lemma Moved<T>(from: multiset<T>, to: multiset<T>, rest: multiset<T>, t: T)
    requires t in from
    ensures (from - multiset{t}) + (to + multiset{t}) + rest == from + to + rest
  {
  }

  /** What the insertion of a created timer does to the three populations. */
  lemma EnqueueShape(a: Agenda, addr: Address) returns (i: nat)
    requires HasAddress(a.created, addr)
    ensures i < |a.created|
    ensures var b := EnqueueTimer(a, addr);
            && b.created == a.created[..i] + a.created[i + 1..]
            && b.queue == Placed(a.queue, a.created[i])
            && b.batch == a.batch && b.nextSerial == a.nextSerial
  {
    i := IndexOfAddress(a.created, addr);
  }

  lemma EnqueueConserves(a: Agenda, addr: Address)
    ensures Live(EnqueueTimer(a, addr)) == Live(a)
  {
    if HasAddress(a.created, addr) {
      var i := EnqueueShape(a, addr);
      hide EnqueueTimer, Placed;
      RemovedAt(a.created, i);
      PlacedConserves(a.queue, a.created[i]);
      Moved(multiset(a.created), multiset(a.queue), multiset(a.batch), a.created[i]);
    }
  }

  lemma EnqueueSorted(a: Agenda, addr: Address)
    requires Sorted(a.queue)
    ensures Sorted(EnqueueTimer(a, addr).queue)
  {
    if HasAddress(a.created, addr) { PlacedSorted(a.queue, a.created[IndexOfAddress(a.created, addr)]); }
  }

  lemma CancelOrdered(a: Agenda, id: TimerId)
    requires Ordered(a)
    ensures Ordered(CancelTimer(a, id))
    ensures Live(CancelTimer(a, id)) <= Live(a)
  {
    WithoutKeeps(a.queue, id);
    WithoutSorted(a.queue, id);
    FewerDistinct(Live(CancelTimer(a, id)), Live(a), a.nextSerial);
  }

  lemma ApplyOrdered(a: Agenda, op: Op)
    requires Ordered(a)
    ensures Ordered(Apply(a, op))
  {
    match op
    case Tick(_) => assert Live(Apply(a, op)) == Live(a);
    case Create(id, when, interval) => CreateOrdered(a, id, when, interval);
    case Enqueue(addr) =>
      EnqueueConserves(a, addr);
      EnqueueSorted(a, addr);
    case Cancel(id) => CancelOrdered(a, id);
  }

  lemma {:induction false} ApplyAllOrdered(a: Agenda, ops: seq<Op>)
    requires Ordered(a)
    ensures Ordered(ApplyAll(a, ops))
  {
    hide Ordered;
    if ops == [] {
    } else {
      ApplyAllOrdered(a, ops[..|ops| - 1]);
      ApplyOrdered(ApplyAll(a, ops[..|ops| - 1]), ops[|ops| - 1]);
    }
  }

  lemma SameTimersOrdered(a: Agenda, b: Agenda)
    requires Ordered(a)
    requires a.created == b.created && a.queue == b.queue && a.batch == b.batch && a.nextSerial == b.nextSerial
    ensures Ordered(b)
  {
  }

  lemma NoteOrdered(a: Agenda, when: int, k: nat)
    requires Ordered(a) && k < |a.batch|
    ensures Ordered(Note(a, when, k))
  {
  }

  lemma {:induction false} RunFirstOrdered(a: Agenda, when: int, acts: seq<seq<Op>>, k: nat)
    requires Ordered(a) && k <= |a.batch|
    ensures Ordered(RunFirst(a, when, acts, k))
  {
    hide Ordered;
    if k == 0 {
    } else {
      RunFirstOrdered(a, when, acts, k - 1);
      var b := RunFirst(a, when, acts, k - 1);
      NoteOrdered(b, when, k - 1);
      ApplyAllOrdered(Note(b, when, k - 1), ActsOf(acts, k - 1));
    }
  }

  lemma CollectOrdered(a: Agenda)
    requires Ordered(a) && a.batch == []
    ensures Ordered(Collect(a))
    ensures Live(Collect(a)) == Live(a)
  {
    SplitConserves(a.queue, a.clock);
    SplitSorted(a.queue, a.clock);
    var due, rest := multiset(NotAfter(a.queue, a.clock)), multiset(After(a.queue, a.clock));
    assert multiset(a.created) + rest + due == multiset(a.created) + multiset(a.queue) + multiset{};
  }

  /** The agenda without the batch timers the requeue loop has already dealt with. */
  ghost function Left(a: Agenda, k: nat): Agenda
    requires k <= |a.batch|
  {
    a.(batch := a.batch[k..])
  }

  lemma LeftDrops(b: Agenda, k: nat)
    requires k < |b.batch| && Ordered(Left(b, k))
    ensures Ordered(Left(b, k + 1))
    ensures Live(Left(b, k)) == Live(Left(b, k + 1)) + multiset{b.batch[k]}
  {
    assert b.batch[k..] == [b.batch[k]] + b.batch[k + 1..];
    FewerDistinct(Live(Left(b, k + 1)), Live(Left(b, k)), b.nextSerial);
  }

  lemma LeftInserts(b: Agenda, k: nat, t: Timer)
    requires k <= |b.batch|
    ensures Live(Left(Insert(b, t), k)) == Live(Left(b, k)) + multiset{t}
  {
    PlacedConserves(b.queue, t);
  }

  lemma RequeueOneOrdered(b: Agenda, when: int, k: nat)
    requires k < |b.batch| && Ordered(Left(b, k))
    ensures Ordered(Left(b, k + 1))
    ensures Ordered(Left(Insert(b, b.batch[k].Restarted(when)), k + 1))
  {
    var t := b.batch[k];
    var r := t.Restarted(when);
    var before, after := Live(Left(b, k)), Live(Left(b, k + 1));
    LeftDrops(b, k);
    LeftInserts(b, k + 1, r);
    PlacedSorted(b.queue, r);
    forall u | u in after ensures u.serial != r.serial && u.id.addr != r.id.addr {
      assert multiset{u} <= after;
      assert multiset{u, t} == multiset{u} + multiset{t} <= before;
      Differ(before, u, t);
    }
    OneMoreDistinct(after, r);
    assert t in before;
  }

  lemma {:induction false} RequeueOrdered(a: Agenda, when: int, k: nat)
    requires Ordered(a) && k <= |a.batch|
    ensures Requeue(a, when, k).batch == a.batch
    ensures Ordered(Left(Requeue(a, when, k), k))
  {
    hide Ordered;
    if k == 0 {
      assert Left(a, 0) == a;
    } else {
      RequeueOrdered(a, when, k - 1);
      RequeueOneOrdered(Requeue(a, when, k - 1), when, k - 1);
      RequeueFrame(a, when, k - 1);
    }
  }

  lemma ExpireOrdered(a: Agenda, acts: seq<seq<Op>>, lag: nat)
    requires Ordered(a) && a.batch == []
    ensures Ordered(ExpireAll(a, acts, lag))
  {
    hide Ordered;
    var b := Collect(a);
    CollectOrdered(a);
    RunFirstOrdered(b, a.clock, acts, |b.batch|);
    var c := RunFirst(b, a.clock, acts, |b.batch|).(calling := false);
    SameTimersOrdered(RunFirst(b, a.clock, acts, |b.batch|), c);
    RequeueOrdered(c, a.clock, |c.batch|);
    var d := Requeue(c, a.clock, |c.batch|);
    RequeueFrame(c, a.clock, |c.batch|);
    SameTimersOrdered(Left(d, |c.batch|), ExpireAll(a, acts, lag));
  }

  lemma StepOrdered(a: Agenda, e: Event)
    requires Ordered(a) && a.batch == [] && !a.calling
    ensures Ordered(Step(a, e)) && Step(a, e).batch == [] && !Step(a, e).calling
  {
    hide Ordered;
    match e
    case Do(op) => ApplyOrdered(a, op);
    case Expire(acts, lag) =>
      ExpireOrdered(a, acts, lag);
      var c := RunFirst(Collect(a), a.clock, acts, |Collect(a).batch|).(calling := false);
      RequeueFrame(c, a.clock, |c.batch|);
  }

  lemma {:induction false} RequeueFrame(a: Agenda, when: int, k: nat)
    requires k <= |a.batch|
    ensures Requeue(a, when, k) == a.(queue := Requeue(a, when, k).queue)
  {
    if k == 0 {
    } else {
      RequeueFrame(a, when, k - 1);
    }
  }
}
