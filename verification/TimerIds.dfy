/**
  The counter values of TimerIds: Timer's constructor increments a counter and its destructor decrements it, so that
  values repeat.  With one timer queue in the process the counter is the number of timers that are alive.
*/
module TimerIds {
  import opened TimerAgenda
  import opened TimerInvariant
  import opened TimerQueueOrder
  import TimerCancel
  import TimerPace

  /** Timer::timerCount_. */
  function TimerCount(a: Agenda): nat { |a.created| + |a.queue| + |a.batch| }

  /** The id that a timer gets if it is constructed now at this address. */
  function NextId(a: Agenda, addr: Address): TimerId { TimerId(TimerCount(a) + 1, addr) }

  /** Timers get their ids from the counter. */
  predicate Counted(a: Agenda, op: Op) { op.Create? ==> op.id == NextId(a, op.id.addr) }

  ghost predicate AllCounted(a: Agenda, ops: seq<Op>) {
    forall j | 0 <= j < |ops| :: Counted(ApplyAll(a, ops[..j]), ops[j])
  }

  ghost predicate EventCounted(a: Agenda, e: Event) {
    match e
    case Do(op) => Counted(a, op)
    case Expire(acts, _) =>
      var b := Collect(a);
      forall k | 0 <= k < |b.batch| :: AllCounted(Note(RunFirst(b, a.clock, acts, k), a.clock, k), ActsOf(acts, k))
  }

  ghost predicate RunCounted(a: Agenda, es: seq<Event>) {
    es == [] || (RunCounted(a, es[..|es| - 1]) && EventCounted(Run(a, es[..|es| - 1]), es[|es| - 1]))
  }

  lemma CancelLeaves(a: Agenda, t: Timer)
    requires Ordered(a) && t in a.queue
    ensures multiset(Without(a.queue, t.id)) == multiset(a.queue) - multiset{t}
  {
    forall u ensures multiset(Without(a.queue, t.id))[u] == (multiset(a.queue) - multiset{t})[u] {
      WithoutCounts(a.queue, t.id, u);
      if u in a.queue {
        TimerCancel.QueuedIsLive(a, u);
        TimerCancel.QueuedIsLive(a, t);
        assert multiset(a.queue)[u] <= Live(a)[u];
      }
    }
  }

  /** A constructed timer and a destroyed one change the counter by one. */
  lemma CountFollows(a: Agenda, op: Op)
    requires Ordered(a)
    ensures op.Create? && Allocatable(a, op.id.addr) ==> TimerCount(Apply(a, op)) == TimerCount(a) + 1
    ensures op.Cancel? && HasId(a.queue, op.id) ==> TimerCount(Apply(a, op)) == TimerCount(a) - 1
    ensures op.Enqueue? || op.Tick? ==> TimerCount(Apply(a, op)) == TimerCount(a)
  {
    if op.Cancel? && HasId(a.queue, op.id) {
      var i :| 0 <= i < |a.queue| && a.queue[i].id == op.id;
      CancelLeaves(a, a.queue[i]);
      assert |multiset(Without(a.queue, op.id))| == |multiset(a.queue)| - 1;
    } else if op.Enqueue? && HasAddress(a.created, op.addr) {
      var i := EnqueueShape(a, op.addr);
      PlacedConserves(a.queue, a.created[i]);
      assert |multiset(Placed(a.queue, a.created[i]))| == |a.queue| + 1;
      hide Live, Sorted, EnqueueTimer, Placed;
    }
  }

  lemma CancelLive(a: Agenda, t: Timer)
    requires Ordered(a) && t in a.queue
    ensures HasId(a.queue, t.id) && Live(CancelTimer(a, t.id)) == Live(a) - multiset{t}
  {
    var i :| 0 <= i < |a.queue| && a.queue[i] == t;
    assert a.queue[i].id == t.id;
    CancelLeaves(a, t);
    assert t in multiset(a.queue);
    Taken(multiset(a.created), multiset(a.queue), multiset(a.batch), t);
    hide Ordered, Without;
  }

  lemma Taken<T>(a: multiset<T>, b: multiset<T>, c: multiset<T>, t: T)
    requires t in b
    ensures a + (b - multiset{t}) + c == a + b + c - multiset{t}
  {
  }

  lemma NobodyThere(a: Agenda, addr: Address)
    requires forall u | u in Live(a) :: u.id.addr != addr
    ensures Allocatable(a, addr)
  {
    forall t | t in a.created || t in a.queue || t in a.batch ensures t.id.addr != addr { assert t in Live(a); }
    hide Live;
  }

  lemma AddressFreed(a: Agenda, t: Timer)
    requires Ordered(a) && t in a.queue
    ensures Allocatable(CancelTimer(a, t.id), t.id.addr) && HasId(a.queue, t.id)
  {
    CancelLive(a, t);
    TimerCancel.QueuedIsLive(a, t);
    hide Live, CancelTimer, HasId, Allocatable;
    forall u | u in Live(CancelTimer(a, t.id)) ensures u.id.addr != t.id.addr { LeftDiffers(Live(a), t, u); }
    NobodyThere(CancelTimer(a, t.id), t.id.addr);
  }

  lemma LeftDiffers(m: multiset<Timer>, t: Timer, u: Timer)
    requires Distinct(m) && t in m && u in m - multiset{t}
    ensures u.id.addr != t.id.addr
  {
    assert m[t] == 1;
  }

  /** Once a timer has been cancelled, the next one at its address gets the very same id exactly if the cancelled one
      was the last in the count. */
  lemma IdRepeatsIff(a: Agenda, t: Timer)
    requires Ordered(a) && t in a.queue
    ensures var b := CancelTimer(a, t.id);
            Allocatable(b, t.id.addr) && (NextId(b, t.id.addr) == t.id <==> t.id.id == TimerCount(a))
  {
    AddressFreed(a, t);
    CountFollows(a, Cancel(t.id));
    hide Live, Sorted, Without, HasId, Allocatable;
  }

  /** Then whoever kept the id of the first timer cancels the second one. */
  lemma RepeatedIdCancelsAnother(a: Agenda, t: Timer, when: int, interval: nat)
    requires Ordered(a) && t in a.queue && t.id.id == TimerCount(a)
    ensures var b := CancelTimer(a, t.id);
            var c := EnqueueTimer(CreateTimer(b, NextId(b, t.id.addr), when, interval), t.id.addr);
            && Timer(a.nextSerial, t.id, when, interval, when) in c.queue && t.serial < a.nextSerial
            && TimerCancel.Absent(CancelTimer(c, t.id), a.nextSerial)
  {
    var b := CancelTimer(a, t.id);
    TimerCancel.QueuedIsLive(a, t);
    assert t.serial < a.nextSerial && b.nextSerial == a.nextSerial;
    hide Ordered, Live, HasId, Allocatable, CancelTimer, EnqueueTimer, CreateTimer, TimerCancel.Absent;
    IdRepeatsIff(a, t);
    ApplyOrdered(a, Cancel(t.id));
    SecondCancelled(b, Timer(a.nextSerial, t.id, when, interval, when));
  }

  lemma SecondCancelled(a: Agenda, t: Timer)
    requires Ordered(a) && Allocatable(a, t.id.addr) && t.serial == a.nextSerial && t.first == t.expiration
    ensures var b := EnqueueTimer(CreateTimer(a, t.id, t.expiration, t.interval), t.id.addr);
            t in b.queue && TimerCancel.Absent(CancelTimer(b, t.id), t.serial)
  {
    hide Ordered, Placed, HasId, Allocatable, CancelTimer, EnqueueTimer, TimerCancel.Absent;
    var b := CreateTimer(a, t.id, t.expiration, t.interval);
    ApplyOrdered(a, Create(t.id, t.expiration, t.interval));
    ApplyOrdered(b, Enqueue(t.id.addr));
    EnqueueNewest(a, t);
    TimerCancel.PlacedHas(a.queue, t);
    TimerCancel.CancelMakesAbsent(EnqueueTimer(b, t.id.addr), t);
  }

  lemma EnqueueNewest(a: Agenda, t: Timer)
    requires Allocatable(a, t.id.addr)
    ensures EnqueueTimer(a.(created := a.created + [t], nextSerial := a.nextSerial + 1), t.id.addr).queue
         == Placed(a.queue, t)
  {
    var q := a.created + [t];
    assert q[|a.created|].id.addr == t.id.addr;
    assert forall j | 0 <= j < |a.created| :: q[j] == a.created[j] && q[j].id.addr != t.id.addr;
    assert IndexOfAddress(q, t.id.addr) == |a.created|;
    hide Placed;
  }

  lemma Extend(a: Agenda, es: seq<Event>, e: Event)
    ensures Run(a, es + [e]) == Step(Run(a, es), e)
    ensures RunCounted(a, es + [e]) <==> RunCounted(a, es) && EventCounted(Run(a, es), e)
  {
    assert (es + [e])[..|es|] == es;
  }

  /** Two timers at address 7: the first, with id 1, is cancelled and destroyed; another one takes its place in the
      count, and the second, periodic one gets id 2. */
  function Before(): seq<Event> {
    [] + [Do(Create(TimerId(1, 7), 100, 0))] + [Do(Enqueue(7))] + [Do(Cancel(TimerId(1, 7)))]
    + [Do(Create(TimerId(1, 8), 100, 0))] + [Do(Create(TimerId(2, 7), 5, 10))] + [Do(Enqueue(7))] + [Do(Tick(5))]
  }

  /** A callback that cancels the id of the first then stops the second, which would otherwise be queued again. */
  lemma StaleCancelExample()
    ensures RunCounted(Empty(0), Before())
    ensures var a := Run(Empty(0), Before());
            && Timer(2, TimerId(2, 7), 15, 10, 5) in ExpireAll(a, [], 0).queue
            && TimerCancel.Absent(ExpireAll(a, [[Cancel(TimerId(1, 7))]], 0), 2)
  {
    BeforeRuns();
    var t := Timer(2, TimerId(2, 7), 5, 10, 5);
    var a := Run(Empty(0), Before());
    assert t in a.queue && t.expiration <= a.clock && t.Repeats();
    hide Run, ExpireAll, TimerCancel.Absent, RunCounted;
    assert Reachable(a);
    TimerCancel.StaleCancelStopsAnother(a, t, TimerId(1, 7), 0);
    assert t.Restarted(5) in multiset(ExpireAll(a, [], 0).queue);
  }

  lemma BeforeRuns()
    ensures RunCounted(Empty(0), Before())
    ensures var a := Run(Empty(0), Before()); a.queue == [Timer(2, TimerId(2, 7), 5, 10, 5)] && a.clock == 5
  {
    var first, other := Timer(0, TimerId(1, 7), 100, 0, 100), Timer(1, TimerId(1, 8), 100, 0, 100);
    var second := Timer(2, TimerId(2, 7), 5, 10, 5);
    var a0 := Empty(0);
    var a1 := a0.(created := [first], nextSerial := 1);
    var a2 := a1.(created := [], queue := [first], fd := Armed(100));
    var a3 := a2.(queue := []);
    var a4 := a3.(created := [other], nextSerial := 2);
    var a5 := a4.(created := [other, second], nextSerial := 3);
    var a6 := a5.(created := [other], queue := [second], fd := Armed(5));
    FirstSteps(first);
    LastSteps(a3, other, second);
    hide Step, Run, RunCounted, EventCounted, Counted;
    Nothing(a0);
    var p1 := Then([], Create(TimerId(1, 7), 100, 0), a0, a1);
    var p2 := Then(p1, Enqueue(7), a1, a2);
    var p3 := Then(p2, Cancel(TimerId(1, 7)), a2, a3);
    var p4 := Then(p3, Create(TimerId(1, 8), 100, 0), a3, a4);
    var p5 := Then(p4, Create(TimerId(2, 7), 5, 10), a4, a5);
    var p6 := Then(p5, Enqueue(7), a5, a6);
    var p7 := Then(p6, Tick(5), a6, Advance(a6, 5));
  }

  lemma Then(es: seq<Event>, op: Op, a: Agenda, b: Agenda) returns (more: seq<Event>)
    requires Run(Empty(0), es) == a && RunCounted(Empty(0), es) && Apply(a, op) == b
    requires op.Create? ==> op.id.id == TimerCount(a) + 1
    ensures more == es + [Do(op)] && Run(Empty(0), more) == b && RunCounted(Empty(0), more)
  {
    Extend(Empty(0), es, Do(op));
    more := es + [Do(op)];
    hide Run, RunCounted, Apply;
  }

  lemma FirstSteps(first: Timer)
    requires first == Timer(0, TimerId(1, 7), 100, 0, 100)
    ensures var a1 := Empty(0).(created := [first], nextSerial := 1);
            var a2 := a1.(created := [], queue := [first], fd := Armed(100));
            && Apply(Empty(0), Create(TimerId(1, 7), 100, 0)) == a1
            && Apply(a1, Enqueue(7)) == a2
            && Apply(a2, Cancel(TimerId(1, 7))) == a2.(queue := [])
  {
    EnqueueNewest(Empty(0), first);
  }

  lemma LastSteps(a: Agenda, other: Timer, second: Timer)
    requires a == Empty(0).(nextSerial := 1, fd := Armed(100))
    requires other == Timer(1, TimerId(1, 8), 100, 0, 100) && second == Timer(2, TimerId(2, 7), 5, 10, 5)
    ensures var a4 := a.(created := [other], nextSerial := 2);
            var a5 := a4.(created := [other, second], nextSerial := 3);
            && Apply(a, Create(TimerId(1, 8), 100, 0)) == a4
            && Apply(a4, Create(TimerId(2, 7), 5, 10)) == a5
            && Apply(a5, Enqueue(7)) == a5.(created := [other], queue := [second], fd := Armed(5))
  {
    var a4 := a.(created := [other], nextSerial := 2);
    assert !HasAddress(a4.created, 7);
    EnqueueNewest(a4, second);
  }

  lemma Nothing(a: Agenda)
    ensures Run(a, []) == a && RunCounted(a, [])
  {
  }
}
