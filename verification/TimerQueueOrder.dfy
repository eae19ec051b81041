/** Facts about ordered timer sequences: what is kept, what is moved, and in which order. */
module TimerQueueOrder {
  import opened TimerAgenda

  /** Splitting a queue at a time loses and invents nothing. */
  lemma {:induction false} SplitConserves(q: seq<Timer>, e: int)
    ensures multiset(NotAfter(q, e)) + multiset(After(q, e)) == multiset(q)
    ensures forall t | t in NotAfter(q, e) :: t.expiration <= e
    ensures forall t | t in After(q, e) :: t.expiration > e
  {
    if q == [] {
    } else {
      SplitConserves(q[1..], e);
      assert q == [q[0]] + q[1..];
      assert multiset(q) == multiset{q[0]} + multiset(q[1..]);
    }
  }

  lemma SplitIn(q: seq<Timer>, e: int, t: Timer)
    requires t in NotAfter(q, e) || t in After(q, e)
    ensures t in q
  {
    SplitConserves(q, e);
    assert t in multiset(NotAfter(q, e)) + multiset(After(q, e));
    assert t in multiset(q);
  }

  lemma {:induction false} SplitSorted(q: seq<Timer>, e: int)
    requires Sorted(q)
    ensures Sorted(NotAfter(q, e)) && Sorted(After(q, e))
  {
    if q == [] {
    } else {
      var rest := q[1..];
      assert Sorted(rest);
      forall t | t in rest ensures q[0].expiration <= t.expiration {
        var i :| 0 <= i < |rest| && rest[i] == t;
        assert q[i + 1] == t;
      }
      hide Sorted;
      SplitSorted(rest, e);
      forall t | t in NotAfter(rest, e) || t in After(rest, e) ensures q[0].expiration <= t.expiration {
        SplitIn(rest, e, t);
      }
      PrependSorted(q[0], NotAfter(rest, e));
      PrependSorted(q[0], After(rest, e));
      assert [] + NotAfter(rest, e) == NotAfter(rest, e) && [] + After(rest, e) == After(rest, e);
    }
  }

  lemma PrependSorted(t: Timer, q: seq<Timer>)
    requires Sorted(q)
    requires forall u | u in q :: t.expiration <= u.expiration
    ensures Sorted([t] + q)
  {
  }

  /** On an ordered queue the due timers are a prefix: the upper bound of the time. */
  lemma {:induction false} SplitIsPrefix(q: seq<Timer>, e: int, k: nat)
    requires k <= |q|
    requires forall i | 0 <= i < k :: q[i].expiration <= e
    requires forall i | k <= i < |q| :: q[i].expiration > e
    ensures NotAfter(q, e) == q[..k]
    ensures After(q, e) == q[k..]
  {
    if q == [] {
    } else {
      hide NotAfter, After;
      var rest := q[1..];
      assert forall i | 0 <= i < |rest| :: rest[i] == q[i + 1];
      SplitIsPrefix(rest, e, if k == 0 then 0 else k - 1);
      SplitFirst(q, e);
      FirstSliced(q, k);
      if k == 0 {
        assert q[0].expiration > e;
      } else {
        assert q[0].expiration <= e;
      }
    }
  }

  lemma FirstSliced(q: seq<Timer>, k: nat)
    requires q != [] && k <= |q|
    ensures k == 0 ==> q[..k] == q[1..][..0] == [] && q[k..] == [q[0]] + q[1..][0..]
    ensures k > 0 ==> q[..k] == [q[0]] + q[1..][..k - 1] && q[k..] == q[1..][k - 1..]
  {
  }

  lemma SplitFirst(q: seq<Timer>, e: int)
    requires q != []
    ensures NotAfter(q, e) == if q[0].expiration <= e then [q[0]] + NotAfter(q[1..], e) else NotAfter(q[1..], e)
    ensures After(q, e) == if q[0].expiration <= e then After(q[1..], e) else [q[0]] + After(q[1..], e)
  {
    assert [] + NotAfter(q[1..], e) == NotAfter(q[1..], e) && [] + After(q[1..], e) == After(q[1..], e);
  }

  lemma PlacedConserves(q: seq<Timer>, t: Timer)
    ensures multiset(Placed(q, t)) == multiset(q) + multiset{t}
    ensures forall u :: u in Placed(q, t) <==> u in q || u == t
  {
    SplitConserves(q, t.expiration);
    var lo, hi := NotAfter(q, t.expiration), After(q, t.expiration);
    assert multiset(lo + [t] + hi) == multiset(lo) + multiset{t} + multiset(hi);
    forall u ensures u in Placed(q, t) <==> u in q || u == t {
      assert u in multiset(Placed(q, t)) <==> u in multiset(q) + multiset{t};
    }
  }

  lemma PlacedSorted(q: seq<Timer>, t: Timer)
    requires Sorted(q)
    ensures Sorted(Placed(q, t))
  {
    SplitConserves(q, t.expiration);
    SplitSorted(q, t.expiration);
    var lo, hi, s := NotAfter(q, t.expiration), After(q, t.expiration), Placed(q, t);
    forall i, j | 0 <= i < j < |s| ensures s[i].expiration <= s[j].expiration {
      if i < |lo| { assert s[i] == lo[i]; assert s[i] in lo; }
      else if i > |lo| { assert s[i] == hi[i - |lo| - 1]; }
      if j < |lo| { assert s[j] == lo[j]; }
      else if j > |lo| { assert s[j] == hi[j - |lo| - 1]; assert s[j] in hi; }
    }
  }

  /** The head of a queue after an insertion is the earlier of the old head and the new timer. */
  lemma PlacedHead(q: seq<Timer>, t: Timer)
    requires Sorted(q)
    ensures Placed(q, t) != []
    ensures Placed(q, t)[0] == if IsEarliest(q, t) then t else q[0]
  {
    if q != [] {
      if IsEarliest(q, t) { SplitIsPrefix(q, t.expiration, 0); }
      else { assert NotAfter(q, t.expiration)[0] == q[0]; }
    }
  }

  /** Cancelling removes every timer of that id and nothing else. */
  lemma {:induction false} WithoutCounts(q: seq<Timer>, id: TimerId, t: Timer)
    ensures multiset(Without(q, id))[t] == if t.id == id then 0 else multiset(q)[t]
  {
    if q == [] {
    } else {
      WithoutCounts(q[1..], id, t);
      assert q == [q[0]] + q[1..];
      assert multiset(q)[t] == multiset{q[0]}[t] + multiset(q[1..])[t];
      var w := Without(q[1..], id);
      assert multiset([q[0]] + w)[t] == multiset{q[0]}[t] + multiset(w)[t];
    }
  }

  lemma WithoutKeeps(q: seq<Timer>, id: TimerId)
    ensures multiset(Without(q, id)) <= multiset(q)
    ensures forall t | t in Without(q, id) :: t in q && t.id != id
  {
    forall t ensures multiset(Without(q, id))[t] <= multiset(q)[t] { WithoutCounts(q, id, t); }
    forall t | t in Without(q, id) ensures t in q && t.id != id {
      WithoutCounts(q, id, t);
      assert t in multiset(Without(q, id));
      assert t in multiset(q);
    }
  }

  lemma {:induction false} WithoutSorted(q: seq<Timer>, id: TimerId)
    requires Sorted(q)
    ensures Sorted(Without(q, id))
  {
    if q == [] {
    } else {
      WithoutSorted(q[1..], id);
      WithoutKeeps(q[1..], id);
      if q[0].id != id {
        forall u | u in Without(q[1..], id) ensures q[0].expiration <= u.expiration {
          var i :| 0 <= i < |q[1..]| && q[1..][i] == u;
          assert q[i + 1] == u;
        }
        PrependSorted(q[0], Without(q[1..], id));
      }
    }
  }

  /** Cancelling can only move the head of a queue to a later timer. */
  lemma WithoutHead(q: seq<Timer>, id: TimerId)
    requires Sorted(q) && Without(q, id) != []
    ensures q != [] && q[0].expiration <= Without(q, id)[0].expiration
  {
  }

  lemma RemovedAt<T>(s: seq<T>, i: nat)
    requires i < |s|
    ensures multiset(s[..i] + s[i + 1..]) == multiset(s) - multiset{s[i]}
  {
    assert s == s[..i] + [s[i]] + s[i + 1..];
    assert multiset(s[..i] + [s[i]] + s[i + 1..]) == multiset(s[..i]) + multiset{s[i]} + multiset(s[i + 1..]);
  }
}
