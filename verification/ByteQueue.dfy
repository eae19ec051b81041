/**
  What a NetBuffer means: a queue of bytes with a position in its storage, and when appending to it aborts.
  Sizes are size_t in the source, so the guard of `append` is computed modulo 2^64.
*/
module ByteQueues {
  import opened ByteStrings

  const RESERVED_PREPEND_SIZE: nat := 8
  const INITIAL_BUFFER_SIZE: nat := 1024
  const EXTRA_BUFFER_SIZE: nat := 65536

  /** The guard that chooses sliding over growing, as the unsigned arithmetic evaluates it. */
  predicate SlidingFits(len: nat, writeable: nat, prependable: nat) {
    len <= (writeable + prependable - RESERVED_PREPEND_SIZE) % SIZE_T
  }

  /** `append` slides although the assertion of `memoryMoving` does not hold. */
  predicate AppendAborts(len: nat, writeable: nat, prependable: nat) {
    len > writeable && SlidingFits(len, writeable, prependable) && !(RESERVED_PREPEND_SIZE < prependable)
  }

  /** How much one readv can deliver: the free space, and a second segment if that is small. */
  function DeliveryLimit(writeable: nat): nat {
    if writeable < EXTRA_BUFFER_SIZE then writeable + EXTRA_BUFFER_SIZE else writeable
  }

  /** Exactly when that happens: the message does not fit behind the contents and the free space on both sides
      is less than the reserve, so that the subtraction wraps around. */
  lemma AppendAbortsIff(len: nat, writeable: nat, prependable: nat)
    requires len < MAX_SIZE && writeable < MAX_SIZE && prependable < MAX_SIZE
    ensures AppendAborts(len, writeable, prependable) <==> len > writeable && writeable + prependable < 8
  {
  }

  /** Hence a read index that still leaves the reserve free is safe. */
  lemma ReserveIsSafe(len: nat, writeable: nat, prependable: nat)
    requires len < MAX_SIZE && writeable < MAX_SIZE && RESERVED_PREPEND_SIZE <= prependable < MAX_SIZE
    ensures !AppendAborts(len, writeable, prependable)
  {
  }

  /* ---------------------------------- a buffer as a value ---------------------------------- */

  /** The contents, the read index and the size of the storage. */
  datatype Layout = Layout(bytes: Bytes, read: nat, size: nat) {
    predicate Fits() { RESERVED_PREPEND_SIZE <= size < MAX_SIZE && read + |bytes| <= size }

    function Writeable(): nat
      requires Fits()
    {
      size - read - |bytes|
    }

    /** After an append: in place, after sliding to the reserve, or after growing by just enough. */
    function Appended(more: Bytes): Layout
      requires Fits()
    {
      if |more| <= Writeable() then Layout(bytes + more, read, size)
      else if SlidingFits(|more|, Writeable(), read) then Layout(bytes + more, RESERVED_PREPEND_SIZE, size)
      else Layout(bytes + more, read, read + |bytes| + |more|)
    }

    /** After a readv that delivered `more`: the part beyond the free space is appended. */
    function Filled(more: Bytes): Layout
      requires Fits()
    {
      if |more| <= Writeable() then Layout(bytes + more, read, size)
      else Layout(bytes + more[..Writeable()], read, size).Appended(more[Writeable()..])
    }

    function Dropped(n: nat): Layout
      requires n <= |bytes|
    {
      if n < |bytes| then Layout(bytes[n..], read + n, size) else Layout([], RESERVED_PREPEND_SIZE, size)
    }
  }

  lemma FilledBytes(l: Layout, more: Bytes)
    requires l.Fits()
    ensures l.Filled(more).bytes == l.bytes + more
  {
    if |more| > l.Writeable() {
      assert (l.bytes + more[..l.Writeable()]) + more[l.Writeable()..] == l.bytes + more;
    }
  }

  /** An operation on a buffer; a `Fill` is one readFD of a descriptor on which these bytes wait. */
  datatype Op = Put(bytes: Bytes) | Fill(bytes: Bytes) | Push(bytes: Bytes) | Take(n: nat) | TakeAll

  /** A failed assertion, or the next layout with the bytes that were taken out and those that came in. */
  datatype Outcome = Asserts | Done(layout: Layout, taken: Bytes, came: Bytes)

  function Delivered(l: Layout, waiting: Bytes): Bytes
    requires l.Fits()
  {
    if |waiting| <= DeliveryLimit(l.Writeable()) then waiting else waiting[..DeliveryLimit(l.Writeable())]
  }

  function Step(l: Layout, op: Op): Outcome
    requires l.Fits()
  {
    match op
    case Put(bytes) =>
      if AppendAborts(|bytes|, l.Writeable(), l.read) then Asserts else Done(l.Appended(bytes), [], bytes)
    case Fill(waiting) =>
      var more := Delivered(l, waiting);
      if |more| > l.Writeable() && AppendAborts(|more| - l.Writeable(), 0, l.read) then Asserts
      else Done(l.Filled(more), [], more)
    case Push(bytes) =>
      if |bytes| > l.read then Asserts else Done(Layout(bytes + l.bytes, l.read - |bytes|, l.size), [], bytes)
    case Take(n) =>
      if n > |l.bytes| then Asserts else Done(l.Dropped(n), l.bytes[..n], [])
    case TakeAll => Done(l.Dropped(|l.bytes|), l.bytes, [])
  }

  /** How many bytes an operation may make the storage grow by. */
  function Weight(op: Op): nat { if op.Put? || op.Fill? then |op.bytes| else 0 }

  function Weights(ops: seq<Op>): nat
    decreases |ops|
  {
    if ops == [] then 0 else Weight(ops[0]) + Weights(ops[1..])
  }

  lemma StepFits(l: Layout, op: Op)
    requires l.Fits() && l.size + Weight(op) < MAX_SIZE
    ensures var o := Step(l, op); o.Done? ==> o.layout.Fits() && o.layout.size <= l.size + Weight(op)
  {
    match op
    case Put(bytes) => AppendAbortsIff(|bytes|, l.Writeable(), l.read);
    case Fill(waiting) =>
      var more := Delivered(l, waiting);
      if |more| > l.Writeable() { AppendAbortsIff(|more| - l.Writeable(), 0, l.read); }
    case _ =>
  }

  function Run(l: Layout, ops: seq<Op>): Outcome
    requires l.Fits() && l.size + Weights(ops) < MAX_SIZE
    decreases |ops|
  {
    if ops == [] then Done(l, [], [])
    else
      StepFits(l, ops[0]);
      var step := Step(l, ops[0]);
      if step.Asserts? then Asserts
      else
        var rest := Run(step.layout, ops[1..]);
        if rest.Asserts? then Asserts else Done(rest.layout, step.taken + rest.taken, step.came + rest.came)
  }

  /** Exactly when an operation fails an assertion of the source. */
  lemma StepAssertsIff(l: Layout, op: Op)
    requires l.Fits() && l.size + Weight(op) < MAX_SIZE
    ensures Step(l, op).Asserts? <==>
            match op
            case Put(bytes) => |bytes| > l.Writeable() && l.Writeable() + l.read < RESERVED_PREPEND_SIZE
            case Fill(waiting) => |Delivered(l, waiting)| > l.Writeable() && l.read < RESERVED_PREPEND_SIZE
            case Push(bytes) => |bytes| > l.read
            case Take(n) => n > |l.bytes|
            case TakeAll => false
  {
    match op
    case Put(bytes) => AppendAbortsIff(|bytes|, l.Writeable(), l.read);
    case Fill(waiting) =>
      var more := Delivered(l, waiting);
      if |more| > l.Writeable() { AppendAbortsIff(|more| - l.Writeable(), 0, l.read); }
    case _ =>
  }

  /* ---------------------------------- what the operations mean ---------------------------------- */

  /** An operation puts bytes at the end or in front, or takes them from the front, and nothing else. */
  lemma StepMeans(l: Layout, op: Op)
    requires l.Fits() && Step(l, op).Done?
    ensures var o, q := Step(l, op), l.bytes;
            match op
            case Put(bytes) => o.came == bytes && o.taken == [] && o.layout.bytes == q + bytes
            case Fill(waiting) => o.came <= waiting && o.taken == [] && o.layout.bytes == q + o.came
            case Push(bytes) => o.came == bytes && o.taken == [] && o.layout.bytes == bytes + q
            case Take(n) => o.came == [] && n <= |q| && o.taken == q[..n] && o.layout.bytes == q[n..]
            case TakeAll => o.came == [] && o.taken == q && o.layout.bytes == []
  {
    if op.Fill? { FilledBytes(l, Delivered(l, op.bytes)); }
  }

  /** One read delivers what waits, up to the free space, and up to 64 KiB beyond it if that is less than 64 KiB. */
  lemma FillDelivers(l: Layout, waiting: Bytes)
    requires l.Fits() && Step(l, Fill(waiting)).Done?
    ensures var free := l.size - l.read - |l.bytes|;
            var limit := if free < 65536 then free + 65536 else free;
            Step(l, Fill(waiting)).came == if |waiting| <= limit then waiting else waiting[..limit]
  {
  }

  /** An append that does not abort slides the contents to the reserve of 8 bytes iff that makes room. */
  lemma AppendPlaces(l: Layout, more: Bytes)
    requires l.Fits() && |more| < MAX_SIZE && |more| > l.Writeable()
    requires !AppendAborts(|more|, l.Writeable(), l.read)
    ensures Squeezed(l, l.Appended(more), |more|, l.Writeable())
  {
    AppendAbortsIff(|more|, l.Writeable(), l.read);
  }

  lemma FillPlaces(l: Layout, more: Bytes)
    requires l.Fits() && |more| < MAX_SIZE && |more| > l.Writeable()
    requires !AppendAborts(|more| - l.Writeable(), 0, l.read)
    ensures Squeezed(l, l.Filled(more), |more| - l.Writeable(), 0)
  {
    var full := Layout(l.bytes + more[..l.Writeable()], l.read, l.size);
    AppendPlaces(full, more[l.Writeable()..]);
  }

  /** Where the bytes lie after an operation: an append slides them to the reserve of 8 bytes iff that makes room, and
      grows the storage to the exact size otherwise; taking the last byte starts again at the reserve. */
  lemma StepPlaces(l: Layout, op: Op)
    requires l.Fits() && l.size + Weight(op) < MAX_SIZE && Step(l, op).Done?
    ensures var t := Step(l, op).layout;
            var more := if op.Put? || op.Fill? then |t.bytes| - |l.bytes| else 0;
            var free := l.size - l.read - |l.bytes|;
            match op
            case Push(bytes) => t.read == l.read - |bytes| && t.size == l.size
            case Take(_) => t.read == (if t.bytes == [] then 8 else l.read + |l.bytes| - |t.bytes|) && t.size == l.size
            case TakeAll => t.read == 8 && t.size == l.size
            case _ =>
              if more <= free then t.read == l.read && t.size == l.size
              else if op.Put? then Squeezed(l, t, more, free)
              else Squeezed(l, t, more - free, 0)
  {
    match op
    case Put(bytes) => if |bytes| > l.Writeable() { AppendPlaces(l, bytes); }
    case Fill(waiting) =>
      var more := Delivered(l, waiting);
      FilledBytes(l, more);
      if |more| > l.Writeable() { FillPlaces(l, more); }
      hide Layout.Appended;
    case _ =>
  }

  /** `more` bytes did not fit behind the contents, where `free` bytes were left. */
  predicate Squeezed(l: Layout, t: Layout, more: nat, free: nat) {
    if more + 8 <= free + l.read then t.read == 8 && t.size == l.size
    else t.read == l.read && t.size == t.read + |t.bytes|
  }

  /** A queue of bytes without any storage: what is left of it and what was taken from it after some operations; the
      second part says that no operation took more than there was. */
  datatype Queue = Queue(left: Bytes, taken: Bytes, ok: bool)

  function Plain(q: Queue, op: Op): Queue {
    match op
    case Put(bytes) => q.(left := q.left + bytes)
    case Fill(bytes) => q.(left := q.left + bytes)
    case Push(bytes) => q.(left := bytes + q.left)
    case Take(n) => if n <= |q.left| then Queue(q.left[n..], q.taken + q.left[..n], q.ok) else q.(ok := false)
    case TakeAll => Queue([], q.taken + q.left, q.ok)
  }

  function PlainRun(q: Queue, ops: seq<Op>): Queue
    decreases |ops|
  {
    if ops == [] then q else PlainRun(Plain(q, ops[0]), ops[1..])
  }

  /** As long as no more than 64 KiB wait at once, a run that fails no assertion is that of the plain queue. */
  lemma {:induction false} RunIsPlain(l: Layout, ops: seq<Op>, before: Bytes)
    requires l.Fits() && l.size + Weights(ops) < MAX_SIZE
    requires forall i | 0 <= i < |ops| && ops[i].Fill? :: |ops[i].bytes| <= 65536
    requires Run(l, ops).Done?
    ensures PlainRun(Queue(l.bytes, before, true), ops) ==
            Queue(Run(l, ops).layout.bytes, before + Run(l, ops).taken, true)
    decreases |ops|
  {
    if ops == [] {
      assert before + [] == before;
    } else {
      var op, step := ops[0], Step(l, ops[0]);
      StepFits(l, op);
      StepMeans(l, op);
      if op.Fill? { FillDelivers(l, op.bytes); }
      assert before + [] == before;
      assert forall i | 0 <= i < |ops| - 1 :: ops[1..][i] == ops[i + 1];
      hide Step;
      RunIsPlain(step.layout, ops[1..], before + step.taken);
      Associates(before, step.taken, Run(step.layout, ops[1..]).taken);
    }
  }

  lemma Associates(a: Bytes, b: Bytes, c: Bytes)
    ensures (a + b) + c == a + (b + c)
  {
  }

  /** A client that never prepends, and never takes more than there is. */
  ghost predicate Moderate(l: Layout, ops: seq<Op>)
    requires l.Fits() && l.size + Weights(ops) < MAX_SIZE
    decreases |ops|
  {
    ops == [] ||
    (&& !ops[0].Push? && (ops[0].Take? ==> ops[0].n <= |l.bytes|)
     && (StepFits(l, ops[0]); Step(l, ops[0]).Done? ==> Moderate(Step(l, ops[0]).layout, ops[1..])))
  }

  /** Such a client never fails an assertion as long as the reserve was intact at first. */
  lemma {:induction false} ModerateNeverAsserts(l: Layout, ops: seq<Op>)
    requires l.Fits() && l.size + Weights(ops) < MAX_SIZE && l.read >= RESERVED_PREPEND_SIZE && Moderate(l, ops)
    ensures Run(l, ops).Done? && Run(l, ops).layout.read >= RESERVED_PREPEND_SIZE
    decreases |ops|
  {
    if ops != [] {
      StepAssertsIff(l, ops[0]);
      StepFits(l, ops[0]);
      ModerateNeverAsserts(Step(l, ops[0]).layout, ops[1..]);
    }
  }

  lemma StepConserves(l: Layout, op: Op)
    requires l.Fits() && Step(l, op).Done?
    ensures var o := Step(l, op); !op.Push? ==> o.taken + o.layout.bytes == l.bytes + o.came
    ensures var o := Step(l, op); op.Push? ==> o.taken + o.layout.bytes == o.came + l.bytes
  {
    if op.Fill? {
      var more := Delivered(l, op.bytes);
      if |more| > l.Writeable() {
        assert (l.bytes + more[..l.Writeable()]) + more[l.Writeable()..] == l.bytes + more;
      }
    }
  }

  /** First in, first out: without prepends, what was taken followed by what is left is what was there followed by
      what came in. */
  lemma {:induction false} RunIsFifo(l: Layout, ops: seq<Op>)
    requires l.Fits() && l.size + Weights(ops) < MAX_SIZE && forall i | 0 <= i < |ops| :: !ops[i].Push?
    ensures var o := Run(l, ops); o.Done? ==> o.taken + o.layout.bytes == l.bytes + o.came
    decreases |ops|
  {
    if ops == [] {
      assert [] + l.bytes == l.bytes + [];
    } else if Step(l, ops[0]).Done? {
      StepFits(l, ops[0]);
      StepConserves(l, ops[0]);
      var step := Step(l, ops[0]);
      hide Step;
      RunIsFifo(step.layout, ops[1..]);
      var rest := Run(step.layout, ops[1..]);
      if rest.Done? {
        Associates(step.taken, rest.taken, rest.layout.bytes);
        Associates(step.taken, step.layout.bytes, rest.came);
        Associates(l.bytes, step.came, rest.came);
      }
    }
  }

  lemma Balance(a: multiset<Byte>, b: multiset<Byte>, c: multiset<Byte>, d: multiset<Byte>,
                e: multiset<Byte>, f: multiset<Byte>, g: multiset<Byte>)
    requires a + b == c + d && e + f == b + g
    ensures (a + e) + f == c + (d + g)
  {
    assert forall x :: a[x] + b[x] == (a + b)[x] && c[x] + d[x] == (c + d)[x];
    assert forall x :: e[x] + f[x] == (e + f)[x] && b[x] + g[x] == (b + g)[x];
  }

  /** In every run, prepends included, no byte is lost or invented. */
  lemma {:induction false} RunConserves(l: Layout, ops: seq<Op>)
    requires l.Fits() && l.size + Weights(ops) < MAX_SIZE
    ensures var o := Run(l, ops);
            o.Done? ==> multiset(o.taken) + multiset(o.layout.bytes) == multiset(l.bytes) + multiset(o.came)
    decreases |ops|
  {
    if ops != [] && Step(l, ops[0]).Done? {
      StepFits(l, ops[0]);
      var step := Step(l, ops[0]);
      assert multiset(step.taken) + multiset(step.layout.bytes) == multiset(l.bytes) + multiset(step.came) by {
        StepConserves(l, ops[0]);
        assert multiset(step.taken + step.layout.bytes) == multiset(step.taken) + multiset(step.layout.bytes);
        assert multiset(l.bytes + step.came) == multiset(l.bytes) + multiset(step.came);
        assert multiset(step.came + l.bytes) == multiset(l.bytes) + multiset(step.came);
      }
      hide Step;
      RunConserves(step.layout, ops[1..]);
      var rest := Run(step.layout, ops[1..]);
      if rest.Done? {
        Balance(multiset(step.taken), multiset(step.layout.bytes), multiset(l.bytes), multiset(step.came),
                multiset(rest.taken), multiset(rest.layout.bytes), multiset(rest.came));
      }
    }
  }
}
