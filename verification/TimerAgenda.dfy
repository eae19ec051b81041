/**
  The timer agenda: what a TimerQueue means, without its two indexes.

  All timers are multiplexed on one timerfd.  The agenda keeps the queued timers in one sequence ordered by
  expiration (ties in insertion order), the batch whose callbacks are running, the timers a thread has created
  but not yet handed to the loop, the clock and the timerfd.  Times are integer nanoseconds.
*/
module TimerAgenda {

  type Address = nat

  /** A timer is named by the pair of its counter value and its address; counter values repeat. */
  datatype TimerId = TimerId(id: int, addr: Address)

  /** `serial` is the position of this timer in the order of all creations and `first` its initial expiration.
      Both are history: no operation reads them.  An `interval` of zero is a one-shot timer. */
  datatype Timer = Timer(serial: nat, id: TimerId, expiration: int, interval: nat, first: int)
  {
    predicate Repeats() { interval > 0 }
    function Restarted(when: int): Timer { this.(expiration := when + interval) }
  }

  /** One execution of a timer's callback, in the batch collected at time `at`. */
  datatype Firing = Firing(serial: nat, at: int, interval: nat, first: int)

  /** The kernel's view: not armed, due at a deadline, or expired and not yet read. */
  datatype TimerFd = Idle | Armed(deadline: int) | Fired

  datatype Agenda = Agenda(
    clock: nat,
    fd: TimerFd,
    lastArm: nat,
    created: seq<Timer>,
    queue: seq<Timer>,
    batch: seq<Timer>,
    calling: bool,
    canceling: set<Address>,
    nextSerial: nat,
    log: seq<Firing>)

  /** What can happen while no expiry is being processed, or inside a callback: time passes, some thread
      creates a timer, the loop inserts a created timer, the loop cancels a timer. */
  datatype Op =
    | Tick(dt: nat)
    | Create(id: TimerId, when: int, interval: nat)
    | Enqueue(addr: Address)
    | Cancel(id: TimerId)

  /** An operation, or one expiry: `acts[k]` is what happens while the k-th callback of the batch runs and
      `lag` the time between the last callback and the rearming of the timerfd. */
  datatype Event = Do(op: Op) | Expire(acts: seq<seq<Op>>, lag: nat)

  /* ---------------------------------- ordered queues ---------------------------------- */

  ghost predicate Sorted(q: seq<Timer>) {
    forall i, j | 0 <= i < j < |q| :: q[i].expiration <= q[j].expiration
  }

  function NotAfter(q: seq<Timer>, e: int): seq<Timer> {
    if q == [] then [] else (if q[0].expiration <= e then [q[0]] else []) + NotAfter(q[1..], e)
  }

  function After(q: seq<Timer>, e: int): seq<Timer> {
    if q == [] then [] else (if q[0].expiration <= e then [] else [q[0]]) + After(q[1..], e)
  }

  function Without(q: seq<Timer>, id: TimerId): seq<Timer> {
    if q == [] then [] else (if q[0].id == id then [] else [q[0]]) + Without(q[1..], id)
  }

  /** A new timer goes after every timer that is not later than it. */
  function Placed(q: seq<Timer>, t: Timer): seq<Timer> {
    NotAfter(q, t.expiration) + [t] + After(q, t.expiration)
  }

  predicate HasId(q: seq<Timer>, id: TimerId) { exists i | 0 <= i < |q| :: q[i].id == id }

  predicate HasAddress(q: seq<Timer>, addr: Address) { exists i | 0 <= i < |q| :: q[i].id.addr == addr }

  function IndexOfAddress(q: seq<Timer>, addr: Address): (i: nat)
    requires HasAddress(q, addr)
    ensures i < |q| && q[i].id.addr == addr
    ensures forall k | 0 <= k < i :: q[k].id.addr != addr
  {
    if q[0].id.addr == addr then 0
    else
      assert HasAddress(q[1..], addr) by {
        var i :| 0 <= i < |q| && q[i].id.addr == addr;
        assert q[1..][i - 1].id.addr == addr;
      }
      1 + IndexOfAddress(q[1..], addr)
  }

  /* ---------------------------------- operations ---------------------------------- */

  const MIN_DELAY: nat := 1000

  /** The relative time handed to the kernel: past-due expirations are replaced by a short positive delay. */
  function IntervalFromNow(when: int, now: int): (d: int)
    ensures d > 0 && when <= now + d
    ensures now + d <= when || now + d <= now + MIN_DELAY
  {
    if when - now <= 0 then MIN_DELAY else when - now
  }

  function Rearm(a: Agenda, expiration: int): Agenda {
    a.(fd := Armed(a.clock + IntervalFromNow(expiration, a.clock)), lastArm := a.clock)
  }

  function Advance(a: Agenda, dt: nat): Agenda {
    var now := a.clock + dt;
    a.(clock := now, fd := if a.fd.Armed? && a.fd.deadline <= now then Fired else a.fd)
  }

  /** No allocator hands out the address of an object that is still alive. */
  predicate Allocatable(a: Agenda, addr: Address) {
    !HasAddress(a.created, addr) && !HasAddress(a.queue, addr) && !HasAddress(a.batch, addr)
  }

  function CreateTimer(a: Agenda, id: TimerId, when: int, interval: nat): Agenda {
    if Allocatable(a, id.addr) then
      a.(created := a.created + [Timer(a.nextSerial, id, when, interval, when)], nextSerial := a.nextSerial + 1)
    else a
  }

  function Insert(a: Agenda, t: Timer): Agenda { a.(queue := Placed(a.queue, t)) }

  predicate IsEarliest(q: seq<Timer>, t: Timer) { q == [] || t.expiration < q[0].expiration }

  function EnqueueTimer(a: Agenda, addr: Address): Agenda {
    if HasAddress(a.created, addr) then
      var i := IndexOfAddress(a.created, addr);
      var t := a.created[i];
      var b := Insert(a.(created := a.created[..i] + a.created[i + 1..]), t);
      if IsEarliest(a.queue, t) then Rearm(b, t.expiration) else b
    else a
  }

  function CancelTimer(a: Agenda, id: TimerId): Agenda {
    if HasId(a.queue, id) then a.(queue := Without(a.queue, id))
    else if a.calling then a.(canceling := a.canceling + {id.addr})
    else a
  }

  function Apply(a: Agenda, op: Op): Agenda {
    match op
    case Tick(dt) => Advance(a, dt)
    case Create(id, when, interval) => CreateTimer(a, id, when, interval)
    case Enqueue(addr) => EnqueueTimer(a, addr)
    case Cancel(id) => CancelTimer(a, id)
  }

  function ApplyAll(a: Agenda, ops: seq<Op>): Agenda {
    if ops == [] then a else Apply(ApplyAll(a, ops[..|ops| - 1]), ops[|ops| - 1])
  }

  /* ---------------------------------- expiry ---------------------------------- */

  function ReadFd(fd: TimerFd): TimerFd { if fd.Fired? then Idle else fd }

  /** Read the timerfd and take the due timers out of the queue. */
  function Collect(a: Agenda): Agenda {
    a.(fd := ReadFd(a.fd), batch := NotAfter(a.queue, a.clock), queue := After(a.queue, a.clock),
       calling := true, canceling := {})
  }

  function ActsOf(acts: seq<seq<Op>>, k: nat): seq<Op> { if k < |acts| then acts[k] else [] }

  /** The state after the first `k` callbacks of the batch. */
  function RunFirst(a: Agenda, when: int, acts: seq<seq<Op>>, k: nat): (b: Agenda)
    requires k <= |a.batch|
    ensures b.batch == a.batch
  {
    if k == 0 then a
    else
      var b := Note(RunFirst(a, when, acts, k - 1), when, k - 1);
      BatchUntouched(b, ActsOf(acts, k - 1));
      ApplyAll(b, ActsOf(acts, k - 1))
  }

  /** The state with the execution of the k-th timer of the batch recorded. */
  function Note(a: Agenda, when: int, k: nat): Agenda
    requires k < |a.batch|
  {
    var t := a.batch[k];
    a.(log := a.log + [Firing(t.serial, when, t.interval, t.first)])
  }

  lemma {:induction false} BatchUntouched(a: Agenda, ops: seq<Op>)
    ensures ApplyAll(a, ops).batch == a.batch
    ensures ApplyAll(a, ops).log == a.log
    ensures ApplyAll(a, ops).calling == a.calling
    ensures ApplyAll(a, ops).clock >= a.clock
  {
    if ops != [] { BatchUntouched(a, ops[..|ops| - 1]); }
  }

  /** Put the first `k` timers of the batch back unless they are one-shot or were cancelled meanwhile. */
  function Requeue(a: Agenda, when: int, k: nat): Agenda
    requires k <= |a.batch|
  {
    if k == 0 then a
    else
      var b := Requeue(a, when, k - 1);
      var t := a.batch[k - 1];
      if t.Repeats() && t.id.addr !in b.canceling then Insert(b, t.Restarted(when)) else b
  }

  function RearmForNext(a: Agenda): Agenda {
    if a.queue != [] && a.queue[0].expiration > 0 then Rearm(a, a.queue[0].expiration) else a
  }

  function ExpireAll(a: Agenda, acts: seq<seq<Op>>, lag: nat): Agenda {
    var b := Collect(a);
    var c := RunFirst(b, a.clock, acts, |b.batch|).(calling := false);
    var d := Requeue(c, a.clock, |c.batch|);
    RearmForNext(Advance(d, lag)).(batch := [])
  }

  function Step(a: Agenda, e: Event): Agenda {
    match e
    case Do(op) => Apply(a, op)
    case Expire(acts, lag) => ExpireAll(a, acts, lag)
  }

  function Run(a: Agenda, es: seq<Event>): Agenda {
    if es == [] then a else Step(Run(a, es[..|es| - 1]), es[|es| - 1])
  }

  function Empty(clock: nat): Agenda {
    Agenda(clock, Idle, 0, [], [], [], false, {}, 0, [])
  }

  ghost predicate Reachable(a: Agenda) {
    exists clock: nat, es: seq<Event> :: a == Run(Empty(clock), es)
  }
}
