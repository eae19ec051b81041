/**
  TimerQueue as the source keeps it: a multimap from expiration to owned timer, a second index of the ids of
  the queued timers, the set of addresses cancelled while callbacks run, and one timerfd.  Timer objects live
  in `memory`; a TimerId's address is dereferenced only if it is allocated.
*/
module TimerQueues {
  import opened TimerAgenda
  import opened TimerQueueOrder

  type Memory = map<Address, Timer>
  type Multimap = seq<(int, Address)>

  function Deref(m: Memory, s: seq<Address>): (q: seq<Timer>)
    requires forall a | a in s :: a in m
    ensures |q| == |s|
    ensures forall i | 0 <= i < |s| :: q[i] == m[s[i]]
  {
    seq(|s|, i requires 0 <= i < |s| => m[s[i]])
  }

  function Addresses(t: Multimap): (s: seq<Address>)
    ensures |s| == |t|
    ensures forall i | 0 <= i < |t| :: s[i] == t[i].1
  {
    seq(|t|, i requires 0 <= i < |t| => t[i].1)
  }

  ghost predicate Unique(s: seq<Address>) { forall i, j | 0 <= i < j < |s| :: s[i] != s[j] }

  ghost predicate Apart(s: seq<Address>, t: seq<Address>) { forall a | a in s :: a !in t }

  ghost predicate SortedKeys(t: Multimap) { forall i, j | 0 <= i < j < |t| :: t[i].0 <= t[j].0 }

  /** Each key is the expiration of the timer it owns. */
  ghost predicate KeysMatch(m: Memory, t: Multimap) {
    forall i | 0 <= i < |t| :: t[i].1 in m && t[i].0 == m[t[i].1].expiration
  }

  ghost function Ids(m: Memory, t: Multimap): set<TimerId>
    requires KeysMatch(m, t)
  {
    set i | 0 <= i < |t| :: m[t[i].1].id
  }

  ghost predicate SelfNamed(m: Memory) { forall a | a in m :: m[a].id.addr == a }

  /** The two indexes have the same size: the source's size assertions. */
  lemma {:induction false} SizesAgree(m: Memory, t: Multimap)
    requires KeysMatch(m, t) && SelfNamed(m) && Unique(Addresses(t))
    ensures |Ids(m, t)| == |t|
  {
    if t == [] {
    } else {
      var front, last := t[..|t| - 1], t[|t| - 1];
      assert Unique(Addresses(front)) by {
        forall i, j | 0 <= i < j < |front| ensures Addresses(front)[i] != Addresses(front)[j] {
          assert Addresses(t)[i] != Addresses(t)[j];
        }
      }
      SizesAgree(m, front);
      assert m[last.1].id !in Ids(m, front) by {
        forall i | 0 <= i < |front| ensures m[front[i].1].id != m[last.1].id {
          assert Addresses(t)[i] != Addresses(t)[|t| - 1];
        }
      }
      assert Ids(m, t) == Ids(m, front) + {m[last.1].id} by {
        forall x | x in Ids(m, t) ensures x in Ids(m, front) + {m[last.1].id} {
          var i :| 0 <= i < |t| && m[t[i].1].id == x;
          if i < |front| { assert front[i] == t[i]; }
        }
        forall x | x in Ids(m, front) ensures x in Ids(m, t) {
          var i :| 0 <= i < |front| && m[front[i].1].id == x;
          assert t[i] == front[i];
        }
        assert t[|t| - 1] == last;
      }
    }
  }

  function Inserted(t: Multimap, k: nat, e: int, addr: Address): (u: Multimap)
    requires k <= |t|
    ensures |u| == |t| + 1 && u[k] == (e, addr)
    ensures forall i | 0 <= i < k :: u[i] == t[i]
    ensures forall i | k < i < |u| :: u[i] == t[i - 1]
  {
    t[..k] + [(e, addr)] + t[k..]
  }

  ghost predicate IsUpperBound(t: Multimap, e: int, k: nat) {
    && k <= |t|
    && (forall i | 0 <= i < k :: t[i].0 <= e)
    && (forall i | k <= i < |t| :: t[i].0 > e)
  }

  lemma InsertedKeys(m: Memory, t: Multimap, k: nat, addr: Address)
    requires KeysMatch(m, t) && SortedKeys(t) && addr in m
    requires IsUpperBound(t, m[addr].expiration, k)
    ensures KeysMatch(m, Inserted(t, k, m[addr].expiration, addr))
    ensures SortedKeys(Inserted(t, k, m[addr].expiration, addr))
  {
  }

  lemma InsertedIds(m: Memory, t: Multimap, k: nat, addr: Address)
    requires KeysMatch(m, t) && k <= |t| && addr in m
    requires KeysMatch(m, Inserted(t, k, m[addr].expiration, addr))
    ensures Ids(m, Inserted(t, k, m[addr].expiration, addr)) == Ids(m, t) + {m[addr].id}
  {
    var u := Inserted(t, k, m[addr].expiration, addr);
    forall x | x in Ids(m, u) ensures x in Ids(m, t) + {m[addr].id} {
      var i :| 0 <= i < |u| && m[u[i].1].id == x;
      assert i != k ==> u[i] == t[if i < k then i else i - 1];
    }
    forall x | x in Ids(m, t) ensures x in Ids(m, u) {
      var i :| 0 <= i < |t| && m[t[i].1].id == x;
      assert u[if i < k then i else i + 1] == t[i];
    }
  }

  /** An insertion at the upper bound of the key is the agenda's placement. */
  lemma InsertedPlaces(m: Memory, t: Multimap, k: nat, addr: Address)
    requires KeysMatch(m, t) && addr in m
    requires IsUpperBound(t, m[addr].expiration, k)
    requires KeysMatch(m, Inserted(t, k, m[addr].expiration, addr))
    ensures forall a | a in Addresses(Inserted(t, k, m[addr].expiration, addr)) :: a in m
    ensures Deref(m, Addresses(Inserted(t, k, m[addr].expiration, addr))) == Placed(Deref(m, Addresses(t)), m[addr])
  {
    var u, q := Inserted(t, k, m[addr].expiration, addr), Deref(m, Addresses(t));
    SplitIsPrefix(q, m[addr].expiration, k);
    assert Deref(m, Addresses(u)) == q[..k] + [m[addr]] + q[k..];
  }

  lemma InsertedUnique(t: Multimap, k: nat, e: int, addr: Address)
    requires Unique(Addresses(t)) && k <= |t| && addr !in Addresses(t)
    ensures Unique(Addresses(Inserted(t, k, e, addr)))
    ensures forall a :: a in Addresses(Inserted(t, k, e, addr)) <==> a in Addresses(t) || a == addr
  {
    var s, u := Addresses(t), Addresses(Inserted(t, k, e, addr));
    assert u == s[..k] + [addr] + s[k..];
    forall i, j | 0 <= i < j < |u| ensures u[i] != u[j] {
      if i != k && j != k { assert s[if i < k then i else i - 1] != s[if j < k then j else j - 1]; }
    }
    assert s == s[..k] + s[k..];
  }

  /** Erasing the one entry of a timer is the agenda's removal of its id. */
  lemma {:induction false} WithoutIsRemoval(q: seq<Timer>, k: nat)
    requires k < |q|
    requires forall i | 0 <= i < |q| && i != k :: q[i].id != q[k].id
    ensures Without(q, q[k].id) == q[..k] + q[k + 1..]
  {
    if k == 0 {
      WithoutNone(q[1..], q[0].id);
    } else {
      WithoutIsRemoval(q[1..], k - 1);
    }
  }

  lemma {:induction false} WithoutNone(q: seq<Timer>, id: TimerId)
    requires forall i | 0 <= i < |q| :: q[i].id != id
    ensures Without(q, id) == q
  {
    if q == [] {
    } else {
      WithoutNone(q[1..], id);
    }
  }

  lemma RemovedUnique(s: seq<Address>, k: nat)
    requires Unique(s) && k < |s|
    ensures Unique(s[..k] + s[k + 1..])
    ensures forall a :: a in s[..k] + s[k + 1..] <==> a in s && a != s[k]
  {
  }

  lemma ErasedKeys(m: Memory, t: Multimap, k: nat)
    requires KeysMatch(m, t) && SortedKeys(t) && Unique(Addresses(t)) && k < |t|
    ensures var u := t[..k] + t[k + 1..];
            && Addresses(u) == Addresses(t)[..k] + Addresses(t)[k + 1..]
            && KeysMatch(m - {t[k].1}, u) && SortedKeys(u)
            && (forall a | a in Addresses(u) :: a in m - {t[k].1})
    ensures forall i | 0 <= i < |t| && i != k :: t[i].1 != t[k].1
  {
    var u := t[..k] + t[k + 1..];
    assert forall i | 0 <= i < |u| :: u[i] == t[if i < k then i else i + 1];
    forall i | 0 <= i < |t| && i != k ensures t[i].1 != t[k].1 {
      assert Addresses(t)[i] != Addresses(t)[k];
    }
  }

  lemma ErasedIds(m: Memory, t: Multimap, k: nat)
    requires KeysMatch(m, t) && SelfNamed(m) && k < |t| && KeysMatch(m - {t[k].1}, t[..k] + t[k + 1..])
    requires forall i | 0 <= i < |t| && i != k :: t[i].1 != t[k].1
    ensures Ids(m - {t[k].1}, t[..k] + t[k + 1..]) == Ids(m, t) - {m[t[k].1].id}
  {
    var u := t[..k] + t[k + 1..];
    forall x | x in Ids(m, t) - {m[t[k].1].id} ensures x in Ids(m - {t[k].1}, u) {
      var i :| 0 <= i < |t| && m[t[i].1].id == x;
      assert u[if i < k then i else i - 1] == t[i];
    }
    forall x | x in Ids(m - {t[k].1}, u) ensures x in Ids(m, t) - {m[t[k].1].id} {
      var i :| 0 <= i < |u| && m[u[i].1].id == x;
      assert u[i] == t[if i < k then i else i + 1];
    }
  }

  lemma ErasedAt(m: Memory, t: Multimap, k: nat)
    requires KeysMatch(m, t) && SortedKeys(t) && SelfNamed(m) && Unique(Addresses(t)) && k < |t|
    ensures var u := t[..k] + t[k + 1..];
            && Addresses(u) == Addresses(t)[..k] + Addresses(t)[k + 1..]
            && KeysMatch(m - {t[k].1}, u) && SortedKeys(u)
            && Ids(m - {t[k].1}, u) == Ids(m, t) - {m[t[k].1].id}
            && (forall a | a in Addresses(u) :: a in m - {t[k].1})
            && Deref(m - {t[k].1}, Addresses(u)) == Without(Deref(m, Addresses(t)), m[t[k].1].id)
  {
    var u, q := t[..k] + t[k + 1..], Deref(m, Addresses(t));
    ErasedKeys(m, t, k);
    ErasedIds(m, t, k);
    assert forall i, l | 0 <= i < l < |q| :: q[i].id != q[l].id by {
      forall i, l | 0 <= i < l < |q| ensures q[i].id != q[l].id { assert Addresses(t)[i] != Addresses(t)[l]; }
    }
    hide KeysMatch, SortedKeys, Ids;
    WithoutIsRemoval(q, k);
    assert Deref(m - {t[k].1}, Addresses(u)) == q[..k] + q[k + 1..];
  }

  /* ---------------------------------- the containers together ---------------------------------- */

  /** The containers of a TimerQueue.  `handed` are timers some thread constructed whose insertInLoop has not
      run yet; `expired` is the vector of timers owned by timerReadingCallback. */
  datatype Store = Store(
    memory: Memory,
    timers: Multimap,
    active: set<TimerId>,
    handed: seq<Address>,
    expired: seq<Address>)

  /** Everything agrees, apart from the timers at `loose` that no container owns at the moment. */
  ghost predicate Consistent(s: Store, loose: set<Address>) {
    && SelfNamed(s.memory)
    && KeysMatch(s.memory, s.timers) && SortedKeys(s.timers)
    && s.active == Ids(s.memory, s.timers)
    && Unique(Addresses(s.timers)) && Unique(s.handed) && Unique(s.expired)
    && Apart(Addresses(s.timers), s.handed) && Apart(Addresses(s.timers), s.expired) && Apart(s.handed, s.expired)
    && (forall a | a in s.handed || a in s.expired :: a in s.memory)
    && (forall a | a in s.memory :: a in loose || a in s.handed || a in s.expired || a in Addresses(s.timers))
    && (forall a | a in loose :: a in s.memory && a !in s.handed && a !in s.expired && a !in Addresses(s.timers))
  }

  ghost function Created(s: Store, loose: set<Address>): seq<Timer>
    requires Consistent(s, loose)
  {
    Deref(s.memory, s.handed)
  }

  ghost function Queue(s: Store, loose: set<Address>): seq<Timer>
    requires Consistent(s, loose)
  {
    Deref(s.memory, Addresses(s.timers))
  }

  ghost function Batch(s: Store, loose: set<Address>): seq<Timer>
    requires Consistent(s, loose)
  {
    Deref(s.memory, s.expired)
  }

  lemma StoreSizes(s: Store, loose: set<Address>)
    requires Consistent(s, loose)
    ensures |s.timers| == |s.active|
  {
    SizesAgree(s.memory, s.timers);
  }

  lemma StoreCreates(s: Store, t: Timer)
    requires Consistent(s, {}) && t.id.addr !in s.memory
    ensures var u := s.(memory := s.memory[t.id.addr := t], handed := s.handed + [t.id.addr]);
            && Consistent(u, {})
            && Created(u, {}) == Created(s, {}) + [t] && Queue(u, {}) == Queue(s, {}) && Batch(u, {}) == Batch(s, {})
  {
  }

  lemma StoreTakes(s: Store, i: nat)
    requires Consistent(s, {}) && i < |s.handed|
    ensures s.handed[i] in s.memory
    ensures var u := s.(handed := s.handed[..i] + s.handed[i + 1..]);
            && Consistent(u, {s.handed[i]})
            && Created(u, {s.handed[i]}) == Created(s, {})[..i] + Created(s, {})[i + 1..]
            && Queue(u, {s.handed[i]}) == Queue(s, {}) && Batch(u, {s.handed[i]}) == Batch(s, {})
  {
    RemovedUnique(s.handed, i);
  }

  lemma StoreInserts(s: Store, k: nat, addr: Address)
    requires Consistent(s, {addr}) && IsUpperBound(s.timers, s.memory[addr].expiration, k)
    ensures s.memory[addr].id !in s.active
    ensures var u := s.(timers := Inserted(s.timers, k, s.memory[addr].expiration, addr),
            active := s.active + {s.memory[addr].id});
            && Consistent(u, {})
            && Queue(u, {}) == Placed(Queue(s, {addr}), s.memory[addr])
            && Created(u, {}) == Created(s, {addr}) && Batch(u, {}) == Batch(s, {addr})
  {
    InsertedKeys(s.memory, s.timers, k, addr);
    InsertedIds(s.memory, s.timers, k, addr);
    InsertedPlaces(s.memory, s.timers, k, addr);
    InsertedUnique(s.timers, k, s.memory[addr].expiration, addr);
  }

  lemma StoreHead(s: Store, addr: Address)
    requires Consistent(s, {addr})
    ensures addr in s.memory
    ensures (s.timers == [] || s.memory[addr].expiration < s.timers[0].0) <==>
            IsEarliest(Queue(s, {addr}), s.memory[addr])
  {
  }

  lemma StoreErases(s: Store, i: nat)
    requires Consistent(s, {}) && i < |s.timers|
    ensures s.timers[i].1 in s.memory
    ensures var addr := s.timers[i].1;
            var u := s.(timers := s.timers[..i] + s.timers[i + 1..], memory := s.memory - {addr},
                active := s.active - {s.memory[addr].id});
            && Consistent(u, {})
            && Queue(u, {}) == Without(Queue(s, {}), s.memory[addr].id)
            && Created(u, {}) == Created(s, {}) && Batch(u, {}) == Batch(s, {})
  {
    ErasedAt(s.memory, s.timers, i);
    RemovedUnique(Addresses(s.timers), i);
    assert Addresses(s.timers)[i] in Addresses(s.timers);
  }

  /** An id is active exactly when some queued timer has it, and that timer is found under its key. */
  lemma ActiveMeansQueued(s: Store, id: TimerId)
    requires Consistent(s, {})
    ensures id in s.active <==> HasId(Queue(s, {}), id)
    ensures id in s.active ==> id.addr in s.memory && s.memory[id.addr].id == id
    ensures id in s.active ==> (s.memory[id.addr].expiration, id.addr) in s.timers
  {
  }

  lemma SlicesApart(t: seq<Address>, k: nat)
    requires Unique(t) && k <= |t|
    ensures Unique(t[..k]) && Unique(t[k..]) && Apart(t[k..], t[..k])
    ensures forall a :: a in t <==> a in t[..k] || a in t[k..]
  {
  }

  lemma SliceMatches(m: Memory, t: Multimap, k: nat)
    requires KeysMatch(m, t) && SortedKeys(t) && k <= |t|
    ensures KeysMatch(m, t[k..]) && SortedKeys(t[k..])
  {
  }

  /** Moving the due prefix of the multimap into the vector of expired timers. */
  lemma SplitConsistent(s: Store, k: nat)
    requires Consistent(s, {}) && s.expired == [] && k <= |s.timers|
    ensures KeysMatch(s.memory, s.timers[k..]) && Addresses(s.timers[..k]) == Addresses(s.timers)[..k]
    ensures Addresses(s.timers[k..]) == Addresses(s.timers)[k..]
    ensures Consistent(s.(timers := s.timers[k..], expired := Addresses(s.timers[..k]),
                          active := Ids(s.memory, s.timers[k..])), {})
  {
    var t := Addresses(s.timers);
    assert Addresses(s.timers[..k]) == t[..k] && Addresses(s.timers[k..]) == t[k..];
    SliceMatches(s.memory, s.timers, k);
    SlicesApart(t, k);
  }

  lemma DerefSlices(m: Memory, t: seq<Address>, k: nat)
    requires k <= |t| && forall a | a in t :: a in m
    ensures forall a | a in t[..k] || a in t[k..] :: a in m
    ensures Deref(m, t[..k]) == Deref(m, t)[..k] && Deref(m, t[k..]) == Deref(m, t)[k..]
  {
  }

  lemma StoreSplits(s: Store, k: nat, when: int)
    requires Consistent(s, {}) && s.expired == [] && IsUpperBound(s.timers, when, k)
    ensures KeysMatch(s.memory, s.timers[k..])
    ensures var u := s.(timers := s.timers[k..], expired := Addresses(s.timers[..k]),
                        active := Ids(s.memory, s.timers[k..]));
            && Consistent(u, {})
            && Batch(u, {}) == NotAfter(Queue(s, {}), when) && Queue(u, {}) == After(Queue(s, {}), when)
            && Created(u, {}) == Created(s, {})
  {
    SplitConsistent(s, k);
    DerefSlices(s.memory, Addresses(s.timers), k);
    SplitIsPrefix(Queue(s, {}), when, k);
  }

  /** Erasing the id of one expired timer from the second index. */
  lemma IdsDropFirst(s: Store, k: nat, j: nat)
    requires Consistent(s, {}) && j < k <= |s.timers|
    ensures s.timers[j].1 in s.memory
    ensures KeysMatch(s.memory, s.timers[j..]) && KeysMatch(s.memory, s.timers[j + 1..])
    ensures Ids(s.memory, s.timers[j + 1..]) == Ids(s.memory, s.timers[j..]) - {s.memory[s.timers[j].1].id}
    ensures s.memory[s.timers[j].1].id in Ids(s.memory, s.timers[j..])
  {
  }

  /** Taking a periodic timer out of the vector of expired timers with its next expiration. */
  lemma StoreRestarts(s: Store, i: nat, when: int)
    requires Consistent(s, {}) && i < |s.expired|
    ensures s.expired[i] in s.memory
    ensures var addr := s.expired[i];
            var u := s.(expired := s.expired[..i] + s.expired[i + 1..],
                memory := s.memory[addr := s.memory[addr].Restarted(when)]);
            && Consistent(u, {addr})
            && s.memory[addr] == Batch(s, {})[i]
            && Queue(u, {addr}) == Queue(s, {}) && Created(u, {addr}) == Created(s, {})
            && Batch(u, {addr}) == Batch(s, {})[..i] + Batch(s, {})[i + 1..]
  {
  }

  /** The vector of expired timers goes out of scope. */
  lemma StoreDestroys(s: Store)
    requires Consistent(s, {})
    ensures var u := s.(expired := [], memory := s.memory - (set a | a in s.expired));
            && Consistent(u, {})
            && Queue(u, {}) == Queue(s, {}) && Created(u, {}) == Created(s, {}) && Batch(u, {}) == []
  {
  }

  class TimerQueue {
    var memory: Memory
    var timers: Multimap
    var activeTimers: set<TimerId>
    var cancelingTimers: set<Address>
    var callingExpiredTimers: bool
    var handed: seq<Address>
    var expired: seq<Address>
    var timerfd: TimerFd
    var lastArm: nat
    var clock: nat
    var nextSerial: nat
    ghost var log: seq<Firing>

    ghost function Containers(): Store
      reads this
    {
      Store(memory, timers, activeTimers, handed, expired)
    }

    ghost predicate Valid()
      reads this
    {
      Consistent(Containers(), {})
    }

    /** The agenda this queue stands for. */
    ghost function Model(): Agenda
      requires Valid()
      reads this
    {
      var s := Containers();
      Agenda(clock, timerfd, lastArm, Created(s, {}), Queue(s, {}), Batch(s, {}),
             callingExpiredTimers, cancelingTimers, nextSerial, log)
    }

    constructor (now: nat)
      ensures Valid() && Model() == Empty(now)
    {
      memory, timers, activeTimers, cancelingTimers := map[], [], {}, {};
      callingExpiredTimers, handed, expired := false, [], [];
      timerfd, lastArm, clock, nextSerial, log := Idle, 0, now, 0, [];
    }

    /* ------------------------------ timerfd and clock ------------------------------ */

    method Advance(dt: nat)
      requires Valid()
      modifies `clock, `timerfd
      ensures Valid() && Model() == TimerAgenda.Advance(old(Model()), dt)
    {
      hide Consistent;
      clock := clock + dt;
      if timerfd.Armed? && timerfd.deadline <= clock { timerfd := Fired; }
    }

    method ResetTimerfd(expiration: int)
      requires Valid()
      modifies `timerfd, `lastArm
      ensures Valid() && Model() == Rearm(old(Model()), expiration)
    {
      hide Consistent;
      timerfd := Armed(clock + IntervalFromNow(expiration, clock));
      lastArm := clock;
    }

    /* ------------------------------ insertion ------------------------------ */

    /** Constructs a timer; `id.id` is the value the shared timer counter yields. */
    method Create(id: TimerId, when: int, interval: nat)
      requires Valid() && id.addr !in memory
      modifies `memory, `handed, `nextSerial
      ensures Valid() && Model() == CreateTimer(old(Model()), id, when, interval)
    {
      FreeMeansAllocatable(id.addr);
      hide Consistent;
      var t := Timer(nextSerial, id, when, interval, when);
      StoreCreates(Containers(), t);
      memory := memory[id.addr := t];
      handed := handed + [id.addr];
      nextSerial := nextSerial + 1;
    }

    lemma FreeMeansAllocatable(addr: Address)
      requires Valid()
      ensures addr !in memory <==> Allocatable(Model(), addr)
    {
    }

    method UpperBound(e: int, ghost loose: set<Address>) returns (k: nat)
      requires Consistent(Containers(), loose)
      ensures IsUpperBound(timers, e, k)
    {
      k := 0;
      while k < |timers| && timers[k].0 <= e
        invariant k <= |timers|
        invariant forall i | 0 <= i < k :: timers[i].0 <= e
      {
        k := k + 1;
      }
    }

    /** Takes ownership of a timer that is in neither index. */
    method InsertOwned(addr: Address) returns (earliest: bool)
      requires Consistent(Containers(), {addr})
      modifies `timers, `activeTimers
      ensures Valid()
      ensures Queue(Containers(), {}) == Placed(old(Queue(Containers(), {addr})), memory[addr])
      ensures Created(Containers(), {}) == old(Created(Containers(), {addr}))
      ensures Batch(Containers(), {}) == old(Batch(Containers(), {addr}))
      ensures earliest == IsEarliest(old(Queue(Containers(), {addr})), memory[addr])
    {
      hide Consistent;
      assert |timers| == |activeTimers| by { StoreSizes(Containers(), {addr}); }
      earliest := false;
      StoreHead(Containers(), addr);
      var e, id := memory[addr].expiration, memory[addr].id;
      if timers == [] || e < timers[0].0 { earliest := true; }
      var k := UpperBound(e, {addr});
      StoreInserts(Containers(), k, addr);
      assert id !in activeTimers;
      timers := Inserted(timers, k, e, addr);
      activeTimers := activeTimers + {id};
      assert |timers| == |activeTimers| by { StoreSizes(Containers(), {}); }
    }

    method FindHanded(addr: Address) returns (i: nat)
      requires addr in handed
      ensures i < |handed| && handed[i] == addr && addr !in handed[..i]
    {
      i := 0;
      while handed[i] != addr
        invariant i < |handed|
        invariant addr !in handed[..i]
        decreases |handed| - i
      {
        i := i + 1;
      }
    }

    /** The loop takes over a timer that some thread constructed. */
    method InsertInLoop(addr: Address)
      requires Valid() && addr in handed
      modifies `handed, `timers, `activeTimers, `timerfd, `lastArm
      ensures Valid() && Model() == EnqueueTimer(old(Model()), addr)
    {
      hide Consistent, Placed, IsEarliest, HasAddress, IndexOfAddress;
      var i := FindHanded(addr);
      HandedIndex(i);
      StoreTakes(Containers(), i);
      handed := handed[..i] + handed[i + 1..];
      var when := memory[addr].expiration;
      var earliest := InsertOwned(addr);
      if earliest { ResetTimerfd(when); }
    }

    lemma HandedIndex(i: nat)
      requires Valid() && i < |handed| && handed[i] !in handed[..i]
      ensures HasAddress(Model().created, handed[i]) && IndexOfAddress(Model().created, handed[i]) == i
    {
    }

    /* ------------------------------ cancellation ------------------------------ */

    /** equal_range and find_if: the entry that owns `addr` among those with the key `e`. */
    method FindOwner(e: int, addr: Address) returns (i: nat, found: bool)
      requires Valid()
      ensures found ==> i < |timers| && timers[i] == (e, addr)
      ensures found <==> (e, addr) in timers
    {
      i := 0;
      while i < |timers| && timers[i].0 < e
        invariant i <= |timers|
        invariant forall j | 0 <= j < i :: timers[j].0 < e
      {
        i := i + 1;
      }
      while i < |timers| && timers[i].0 == e && timers[i].1 != addr
        invariant i <= |timers|
        invariant forall j | 0 <= j < i :: timers[j] != (e, addr)
      {
        i := i + 1;
      }
      found := i < |timers| && timers[i].0 == e;
    }

    method CancelInLoop(id: TimerId)
      requires Valid()
      modifies `timers, `memory, `activeTimers, `cancelingTimers
      ensures Valid() && Model() == CancelTimer(old(Model()), id)
    {
      hide Consistent;
      assert |timers| == |activeTimers| by { StoreSizes(Containers(), {}); }
      ActiveMeansQueued(Containers(), id);
      if id in activeTimers {
        var i, found := FindOwner(memory[id.addr].expiration, id.addr);
        assert found;
        StoreErases(Containers(), i);
        if found {
          timers := timers[..i] + timers[i + 1..];
          memory := memory - {id.addr};
        }
        activeTimers := activeTimers - {id};
      } else if callingExpiredTimers {
        cancelingTimers := cancelingTimers + {id.addr};
      }
      assert |timers| == |activeTimers| by { StoreSizes(Containers(), {}); }
    }

    /* ------------------------------ expiry ------------------------------ */

    /** Erases the ids of the expired timers, the first `k` of the containers `s`, from the second index. */
    method EraseExpiredIds(ghost s: Store, ghost k: nat)
      requires Consistent(s, {}) && k <= |s.timers|
      requires expired == Addresses(s.timers[..k]) && memory == s.memory && activeTimers == s.active
      modifies `activeTimers
      ensures KeysMatch(s.memory, s.timers[k..]) && activeTimers == Ids(s.memory, s.timers[k..])
    {
      assert s.timers[0..] == s.timers;
      SliceMatches(s.memory, s.timers, 0);
      var j := 0;
      while j < |expired|
        invariant j <= |expired|
        invariant KeysMatch(s.memory, s.timers[j..])
        invariant activeTimers == Ids(s.memory, s.timers[j..])
      {
        IdsDropFirst(s, k, j);
        var id := memory[expired[j]].id;
        if id in activeTimers { activeTimers := activeTimers - {id}; }
        j := j + 1;
      }
    }

    method GetAllExpirationTimer(when: int)
      requires Valid() && expired == []
      modifies `timers, `activeTimers, `expired
      ensures Valid()
      ensures Model() == old(Model()).(batch := NotAfter(old(Model()).queue, when),
              queue := After(old(Model()).queue, when))
    {
      hide Consistent;
      ghost var s := Containers();
      var k := UpperBound(when, {});
      StoreSplits(s, k, when);
      expired := Addresses(timers[..k]);
      timers := timers[k..];
      EraseExpiredIds(s, k);
      assert |timers| == |activeTimers| by { StoreSizes(Containers(), {}); }
    }

    method Restart(addr: Address, when: int)
      requires addr in memory
      modifies `memory
      ensures var t := old(memory)[addr];
              memory == old(memory)[addr := t.(expiration := if t.interval > 0 then when + t.interval else 0)]
    {
      if memory[addr].Repeats() {
        memory := memory[addr := memory[addr].(expiration := when + memory[addr].interval)];
      } else {
        memory := memory[addr := memory[addr].(expiration := 0)];
      }
    }

    /** Moves the i-th timer of the vector back into the queue, one interval later. */
    method PutBack(i: nat, when: int)
      requires Valid() && i < |expired| && expired[i] in memory && memory[expired[i]].Repeats()
      modifies `memory, `timers, `activeTimers, `expired
      ensures Valid() && |Model().batch| == |expired| == |old(expired)| - 1
      ensures var a := old(Model());
              && i < |a.batch|
              && Model() == Insert(a, a.batch[i].(expiration := when + a.batch[i].interval))
                            .(batch := a.batch[..i] + a.batch[i + 1..])
    {
      hide Consistent;
      StoreRestarts(Containers(), i, when);
      var addr := expired[i];
      expired := expired[..i] + expired[i + 1..];
      Restart(addr, when);
      var earliest := InsertOwned(addr);
    }

    /** Puts the periodic timers of the batch that nobody cancelled back. */
    method RequeueExpired(when: int)
      requires Valid()
      modifies `memory, `timers, `activeTimers, `expired
      ensures Valid()
      ensures Model() == Requeue(old(Model()), when, |old(Model()).batch|).(batch := Model().batch)
    {
      hide Consistent;
      ghost var c := Model();
      var i := 0;
      ghost var k := 0;
      while i < |expired|
        invariant Valid() && i <= |expired| == |Model().batch|
        invariant k <= |c.batch| && |expired| - i == |c.batch| - k
        invariant Model().batch[i..] == c.batch[k..]
        invariant Model() == Requeue(c, when, k).(batch := Model().batch)
        decreases |c.batch| - k
      {
        ghost var a := Model();
        RestAdvances(a.batch, i, c.batch, k);
        RequeueKeepsRest(c, when, k);
        RequeueOneMore(c, when, k);
        hide Requeue, Placed;
        ExpiredIsBatch(i);
        if memory[expired[i]].Repeats() && expired[i] !in cancelingTimers {
          PutBack(i, when);
        } else {
          i := i + 1;
        }
        k := k + 1;
      }
    }

    lemma RestAdvances(b: seq<Timer>, i: nat, c: seq<Timer>, k: nat)
      requires i < |b| && k < |c| && b[i..] == c[k..]
      ensures b[i] == c[k] && b[i + 1..] == c[k + 1..]
      ensures (b[..i] + b[i + 1..])[i..] == c[k + 1..]
    {
    }

    /** Requeues what has to be requeued and, some time later, rearms the timerfd for the next timer. */
    method ResetExpirationTimers(when: int, lag: nat)
      requires Valid()
      modifies `memory, `timers, `activeTimers, `expired, `clock, `timerfd, `lastArm
      ensures Valid()
      ensures var c := old(Model());
              Model() == RearmForNext(TimerAgenda.Advance(Requeue(c, when, |c.batch|), lag)).(batch := Model().batch)
    {
      hide Consistent, Requeue;
      RequeueExpired(when);
      Advance(lag);
      var next := 0;
      assert |timers| == |Model().queue| by { QueueLength(); }
      if timers != [] { next := FirstExpiration(); }
      if next > 0 { ResetTimerfd(next); }
    }

    lemma ExpiredIsBatch(i: nat)
      requires Valid() && i < |expired|
      ensures expired[i] in memory && memory[expired[i]] == Model().batch[i] && Model().batch[i].id.addr == expired[i]
    {
    }

    lemma RequeueOneMore(c: Agenda, when: int, k: nat)
      requires k < |c.batch|
      ensures var b, t := Requeue(c, when, k), c.batch[k];
              Requeue(c, when, k + 1) ==
              if t.Repeats() && t.id.addr !in b.canceling then Insert(b, t.Restarted(when)) else b
    {
    }

    lemma RequeueKeepsRest(c: Agenda, when: int, k: nat)
      requires k <= |c.batch|
      ensures Requeue(c, when, k).batch == c.batch && Requeue(c, when, k).canceling == c.canceling
    {
    }

    lemma QueueLength()
      requires Valid()
      ensures |timers| == |Model().queue|
    {
    }

    method FirstExpiration() returns (e: int)
      requires Valid() && timers != []
      ensures Model().queue != [] && e == Model().queue[0].expiration
    {
      e := memory[timers[0].1].expiration;
    }

    /** One operation, from another thread, from the loop or from a callback.  An allocation at an address in
        use and a second hand-over of a timer cannot happen. */
    method Perform(op: Op)
      requires Valid()
      modifies this
      ensures Valid() && expired == old(expired) && Model() == Apply(old(Model()), op)
    {
      hide Consistent;
      match op
      case Tick(dt) => Advance(dt);
      case Create(id, when, interval) =>
        FreeMeansAllocatable(id.addr);
        if id.addr !in memory { Create(id, when, interval); }
      case Enqueue(addr) =>
        HandedMeansCreated(addr);
        if addr in handed { InsertInLoop(addr); }
      case Cancel(id) => CancelInLoop(id);
    }

    lemma HandedMeansCreated(addr: Address)
      requires Valid()
      ensures addr in handed <==> HasAddress(Model().created, addr)
    {
    }

    method PerformAll(ops: seq<Op>)
      requires Valid()
      modifies this
      ensures Valid() && expired == old(expired) && Model() == ApplyAll(old(Model()), ops)
    {
      hide Consistent;
      var j := 0;
      assert ops[..0] == [];
      while j < |ops|
        invariant j <= |ops| && Valid() && expired == old(expired)
        invariant Model() == ApplyAll(old(Model()), ops[..j])
      {
        assert ops[..j + 1][..j] == ops[..j];
        Perform(ops[j]);
        j := j + 1;
      }
      assert ops[..|ops|] == ops;
    }

    /** One callback of the batch, and what it does. */
    method RunCallback(i: nat, ops: seq<Op>, now: int)
      requires Valid() && i < |expired|
      modifies this
      ensures Valid() && |expired| == |old(expired)|
      ensures |old(Model()).batch| == |old(expired)| && Model() == ApplyAll(Note(old(Model()), now, i), ops)
    {
      hide Consistent, ApplyAll;
      ghost var t := Model().batch[i];
      log := log + [Firing(t.serial, now, t.interval, t.first)];
      BatchUntouched(Model(), ops);
      PerformAll(ops);
    }

    method RunCallbacks(acts: seq<seq<Op>>, now: int)
      requires Valid()
      modifies this
      ensures Valid() && Model() == RunFirst(old(Model()), now, acts, |old(Model()).batch|)
    {
      hide Consistent, ApplyAll, Note;
      ghost var b := Model();
      var i := 0;
      while i < |expired|
        invariant i <= |expired| == |b.batch| && Valid()
        invariant Model() == RunFirst(b, now, acts, i)
      {
        RunCallback(i, ActsOf(acts, i), now);
        i := i + 1;
      }
    }

    /** The read callback of the timerfd's channel. */
    method TimerReadingCallback(acts: seq<seq<Op>>, lag: nat)
      requires Valid() && expired == []
      modifies this
      ensures Valid() && expired == []
      ensures Model() == ExpireAll(old(Model()), acts, lag)
    {
      hide Consistent, RunFirst, Requeue;
      var now := clock;
      if timerfd.Fired? { timerfd := Idle; }
      GetAllExpirationTimer(now);
      callingExpiredTimers := true;
      cancelingTimers := {};
      assert Model() == Collect(old(Model()));
      RunCallbacks(acts, now);
      callingExpiredTimers := false;
      ResetExpirationTimers(now, lag);
      DestroyExpired();
    }

    /** The vector of expired timers goes out of scope. */
    method DestroyExpired()
      requires Valid()
      modifies `memory, `expired
      ensures Valid() && expired == [] && Model() == old(Model()).(batch := [])
    {
      hide Consistent;
      StoreDestroys(Containers());
      memory := memory - (set a | a in expired);
      expired := [];
    }
  }
}
