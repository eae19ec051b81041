/** What every interleaving of the asynchronous log keeps. */
module LogProperties {
  import opened ByteStrings
  import opened LogStream

  /* ---------------------------------- the buffer pool ---------------------------------- */

  /** `currentBuffer_` is never null, a null `nextBuffer_` means a full buffer is waiting, and whatever stands
      by to replace `currentBuffer_` is empty.  While a pass is under way it holds enough buffers to refill
      the spares it used. */
  ghost predicate Pool(s: Log) {
    && s.current.Buffer?
    && (s.next.Null? ==> s.buffers != [])
    && (s.next.Buffer? ==> s.next.bytes == [])
    && (s.place.NotStarted? ==> s.spare1.Null? && s.spare2.Null? && s.toWrite == [])
    && (s.place.Top? || s.place.Locking? || s.place.Exited? ==> SparesReady(s))
    && (s.place.Exchanged? || s.place.Writing? ==>
          && s.spare1.Null?
          && (s.spare2.Null? || s.spare2 == Buffer([]))
          && |s.toWrite| >= if s.spare2.Null? then 2 else 1)
  }

  /** No step uses a null buffer or violates an assertion, and the pool stays sound. */
  lemma StepPool(s: Log, e: Event)
    requires Pool(s)
    ensures Step(s, e).Ok? && Pool(Step(s, e).s)
  {
  }

  /* ---------------------------------- conservation ---------------------------------- */

  /** The buffers taken by the current pass that have not been written yet. */
  function Unwritten(s: Log): Bytes
  {
    if s.place.Exchanged? then Flat(s.pass)
    else if s.place.Writing? && s.written <= |Chosen(s.pass)| then
      Flat(Chosen(s.pass)[s.written..]) + Flat(Discarded(s.pass))
    else []
  }

  /** What the front end holds. */
  function Held(s: Log): Bytes { Flat(s.buffers) + Contents(s.current) }

  /** Every accepted byte is, in order, among the pieces that have left or still in a buffer. */
  ghost predicate Conserved(s: Log) {
    && s.accepted == Whole(s.gone) + Unwritten(s) + Held(s)
    && Messages(s.file) == Survivors(s.gone)
    && (s.place.Exchanged? ==> s.toWrite == s.pass && s.written == 0)
    && (s.place.Writing? ==> s.toWrite == Chosen(s.pass) && s.written <= |s.toWrite|)
  }

  lemma {:induction false} FlatAppend(bs: seq<Bytes>, cs: seq<Bytes>)
    ensures Flat(bs + cs) == Flat(bs) + Flat(cs)
  {
    if bs == [] {
      assert bs + cs == cs;
    } else {
      FlatAppend(bs[1..], cs);
      assert (bs + cs)[1..] == bs[1..] + cs;
    }
  }

  lemma FlatOne(b: Bytes)
    ensures Flat([b]) == b
  {
  }

  lemma Assoc(a: Bytes, b: Bytes, c: Bytes, d: Bytes)
    ensures a + b + (c + d) == a + b + c + d
    ensures a + b + c == a + (b + c)
  {
  }

  lemma AppendHeld(s: Log, msg: Bytes)
    requires Pool(s)
    ensures AppendStep(s, msg).current.Buffer?
    ensures Held(AppendStep(s, msg)) == Held(s) + if Fits(msg) then msg else []
  {
    var cur := s.current.bytes;
    if ASYNC_BUFFER_SIZE - |cur| > |msg| {
      Assoc(Flat(s.buffers), cur, msg, []);
    } else {
      FlatAppend(s.buffers, [cur]);
      FlatOne(cur);
      assert Appended([], msg) == if Fits(msg) then msg else [];
    }
  }

  lemma AppendConserved(s: Log, msg: Bytes)
    requires Pool(s) && Conserved(s)
    ensures Conserved(AppendStep(s, msg))
  {
    var m := if Fits(msg) then msg else [];
    AppendHeld(s, msg);
    hide Held, Flat;
    Assoc(Whole(s.gone), Unwritten(s), Held(s), m);
  }

  lemma ExchangeConserved(s: Log)
    requires Pool(s) && Conserved(s) && s.place.Locking?
    ensures Conserved(ExchangeStep(s))
  {
    var t := ExchangeStep(s);
    FlatAppend(s.buffers, [s.current.bytes]);
    FlatOne(s.current.bytes);
    assert Held(t) == [] && Unwritten(t) == Held(s) && Unwritten(s) == [];
    assert Whole(s.gone) + [] + Held(s) == Whole(s.gone) + Held(s) + [];
  }

  lemma DropUnwritten(s: Log)
    requires s.place.Exchanged?
    ensures Unwritten(s.(place := Writing, written := 0)) == Flat(s.pass)
  {
    FlatAppend(Chosen(s.pass), Discarded(s.pass));
    hide Flat;
    assert s.pass == Chosen(s.pass) + Discarded(s.pass);
    assert Chosen(s.pass)[0..] == Chosen(s.pass);
  }

  lemma DropConserved(s: Log)
    requires Pool(s) && Conserved(s) && s.place.Exchanged?
    ensures Conserved(DropStep(s))
  {
    var t := DropStep(s);
    DropUnwritten(s);
    SameHeld(s, t);
    if |s.toWrite| > MAX_PASS { MessagesSnoc(s.file, Notice(|s.toWrite| - 2)); }
    hide Flat, Whole, Messages, Survivors, Held, Discarded, Pool;
    assert Unwritten(t) == Unwritten(s.(place := Writing, written := 0));
  }

  lemma MessagesSnoc(file: seq<Chunk>, c: Chunk)
    ensures Messages(file + [c]) == Messages(file) + match c case Data(b) => b case Notice(_) => []
  {
    assert (file + [c])[..|file|] == file;
  }

  lemma PiecesSnoc(ps: seq<Piece>, p: Piece)
    ensures Whole(ps + [p]) == Whole(ps) + p.bytes
    ensures Survivors(ps + [p]) == Survivors(ps) + match p case Kept(b) => b case Lost(_) => []
  {
    assert (ps + [p])[..|ps|] == ps;
  }

  lemma FlatFrom(bs: seq<Bytes>, k: nat)
    requires k < |bs|
    ensures Flat(bs[k..]) == bs[k] + Flat(bs[k + 1..])
  {
    assert bs[k..][1..] == bs[k + 1..];
  }

  /** A front piece moves from the middle part to the first. */
  lemma MoveFront(a: Bytes, b: Bytes, c: Bytes, d: Bytes, e: Bytes)
    ensures a + ((b + c) + d) + e == (a + b) + (c + d) + e
  {
    Assoc(b, c, d, []);
    Assoc(a, b, c + d, []);
  }

  lemma WriteConserved(s: Log)
    requires Conserved(s) && s.place.Writing? && s.written < |s.toWrite|
    ensures Conserved(WriteStep(s))
  {
    hide Flat, Whole, Messages, Survivors, Held, Chosen, Discarded;
    var b, c := s.toWrite[s.written], Chosen(s.pass);
    MessagesSnoc(s.file, Data(b));
    PiecesSnoc(s.gone, Kept(b));
    FlatFrom(c, s.written);
    SameHeld(s, WriteStep(s));
    MoveFront(Whole(s.gone), b, Flat(c[s.written + 1..]), Flat(Discarded(s.pass)), Held(s));
  }

  lemma SameHeld(s: Log, t: Log)
    requires t.buffers == s.buffers && t.current == s.current
    ensures Held(t) == Held(s)
  {
  }

  lemma FlatEmpty()
    ensures Flat([]) == []
  {
  }

  /** Nothing in front of a piece, and nothing left behind it. */
  lemma MoveAll(a: Bytes, b: Bytes, c: Bytes)
    ensures a + ([] + b) + c == (a + b) + [] + c
    ensures a + [] == a
  {
    assert [] + b == b && (a + b) + [] == a + b;
  }

  lemma RecycleConserved(s: Log)
    requires Conserved(s) && s.place.Writing? && s.written == |s.toWrite| && CanRecycle(s)
    ensures Conserved(RecycleStep(s))
  {
    hide Flat, Whole, Messages, Survivors, Held, Chosen, Discarded, CanRecycle, Refill;
    var t, lost := RecycleStep(s), Flat(Discarded(s.pass));
    SameHeld(s, t);
    assert Chosen(s.pass)[s.written..] == [];
    FlatEmpty();
    assert Unwritten(s) == [] + lost && Unwritten(t) == [];
    PiecesSnoc(s.gone, Lost(lost));
    MoveAll(Whole(s.gone), lost, Held(s));
    MoveAll(Survivors(s.gone), [], []);
    MoveAll(Whole(s.gone), [], Held(s));
    hide Unwritten;
    assert t.gone == if Discarded(s.pass) == [] then s.gone else s.gone + [Lost(lost)];
    assert Whole(t.gone) == Whole(s.gone) + lost;
  }

  lemma StepConserved(s: Log, e: Event)
    requires Pool(s) && Conserved(s)
    ensures Step(s, e).Ok? && Conserved(Step(s, e).s)
  {
    StepPool(s, e);
    if Enabled(s, e) {
      match e
      case Append(msg) => AppendConserved(s, msg);
      case Begin =>
      case Stop =>
      case Test =>
      case Exchange => ExchangeConserved(s);
      case Drop => DropConserved(s);
      case WriteOne => WriteConserved(s);
      case Recycle => RecycleConserved(s);
    }
  }

  /** In every interleaving: no null buffer is used, no assertion fails, the pool is sound, and the bytes of
      all accepted messages, in the order of the lock, are exactly the pieces that left, then the unwritten
      part of the pass, then the front end's buffers; the file holds the kept pieces. */
  lemma {:induction false} RunConserves(es: seq<Event>)
    ensures Run(Start(), es).Ok?
    ensures Pool(Run(Start(), es).s) && Conserved(Run(Start(), es).s)
  {
    if es == [] {
    } else {
      RunConserves(es[..|es| - 1]);
      var s := Run(Start(), es[..|es| - 1]).s;
      StepPool(s, es[|es| - 1]);
      StepConserved(s, es[|es| - 1]);
    }
  }

  /* ---------------------------------- what a pass writes ---------------------------------- */

  /** The bytes of the pass written so far follow what was in the file when the pass began. */
  ghost predicate PassInOrder(s: Log) {
    && (s.place.Exchanged? ==> Messages(s.file) == s.before)
    && (s.place.Writing? ==> s.written <= |Chosen(s.pass)|)
    && (s.place.Writing? ==> Messages(s.file) == s.before + Flat(Chosen(s.pass)[..s.written]))
  }

  lemma WriteInOrder(s: Log)
    requires Conserved(s) && PassInOrder(s) && s.place.Writing? && s.written < |s.toWrite|
    ensures PassInOrder(WriteStep(s))
  {
    hide Flat, Messages, Chosen, Unwritten, Held, Whole, Survivors;
    var w, k := Chosen(s.pass), s.written;
    MessagesSnoc(s.file, Data(w[k]));
    assert w[..k + 1] == w[..k] + [w[k]];
    FlatAppend(w[..k], [w[k]]);
    FlatOne(w[k]);
    Assoc(s.before, Flat(w[..k]), w[k], []);
  }

  lemma DropInOrder(s: Log)
    requires Conserved(s) && PassInOrder(s) && s.place.Exchanged?
    ensures PassInOrder(DropStep(s))
  {
  }

  lemma StepPassInOrder(s: Log, e: Event)
    requires Pool(s) && Conserved(s) && PassInOrder(s)
    ensures Step(s, e).Ok? && PassInOrder(Step(s, e).s)
  {
    hide Pool;
    StepPool(s, e);
    if Enabled(s, e) {
      match e
      case Append(_) =>
      case Begin =>
      case Stop =>
      case Test =>
      case Exchange =>
      case Recycle =>
      case Drop => DropInOrder(s);
      case WriteOne =>
        hide Pool, Conserved, PassInOrder;
        WriteInOrder(s);
    }
  }

  lemma {:induction false} RunPassInOrder(es: seq<Event>)
    ensures Run(Start(), es).Ok? && PassInOrder(Run(Start(), es).s)
  {
    if es == [] {
    } else {
      RunPassInOrder(es[..|es| - 1]);
      RunConserves(es[..|es| - 1]);
      StepPassInOrder(Run(Start(), es[..|es| - 1]).s, es[|es| - 1]);
    }
  }

  /** When a pass is complete it has added to the file all of its buffers in order if there were at most
      MAX_PASS, and exactly the first two otherwise. */
  lemma PassWrites(es: seq<Event>)
    requires Run(Start(), es).Ok?
    requires var s := Run(Start(), es).s; s.place.Writing? && s.written == |s.toWrite|
    ensures var s := Run(Start(), es).s;
            Messages(s.file) == s.before + if |s.pass| > MAX_PASS then Flat(s.pass[..2]) else Flat(s.pass)
  {
    RunPassInOrder(es);
    RunConserves(es);
    var s := Run(Start(), es).s;
    assert Chosen(s.pass)[..s.written] == Chosen(s.pass);
  }

  /* ---------------------------------- losses ---------------------------------- */

  /** `a` is what remains of `b` after deleting some of its elements. */
  ghost predicate Subsequence(a: Bytes, b: Bytes) {
    if a == [] then true
    else if b == [] then false
    else if a[|a| - 1] == b[|b| - 1] && Subsequence(a[..|a| - 1], b[..|b| - 1]) then true
    else Subsequence(a, b[..|b| - 1])
  }

  lemma {:induction false} SubsequenceAppend(a: Bytes, b: Bytes, c: Bytes)
    requires Subsequence(a, b)
    ensures Subsequence(a + c, b + c)
  {
    if c == [] {
      assert a + c == a && b + c == b;
    } else {
      SubsequenceAppend(a, b, c[..|c| - 1]);
      assert (a + c)[..|a + c| - 1] == a + c[..|c| - 1];
      assert (b + c)[..|b + c| - 1] == b + c[..|c| - 1];
    }
  }

  lemma {:induction false} SubsequenceSkip(a: Bytes, b: Bytes, c: Bytes)
    requires Subsequence(a, b)
    ensures Subsequence(a, b + c)
  {
    if c == [] {
      assert b + c == b;
    } else {
      SubsequenceSkip(a, b, c[..|c| - 1]);
      assert (b + c)[..|b + c| - 1] == b + c[..|c| - 1];
    }
  }

  lemma {:induction false} SurvivorsAreSubsequence(ps: seq<Piece>)
    ensures Subsequence(Survivors(ps), Whole(ps))
    ensures |Whole(ps)| == |Survivors(ps)| + LostBytes(ps)
  {
    if ps == [] {
    } else {
      var front, last := ps[..|ps| - 1], ps[|ps| - 1];
      SurvivorsAreSubsequence(front);
      if last.Kept? {
        SubsequenceAppend(Survivors(front), Whole(front), last.bytes);
      } else {
        SubsequenceSkip(Survivors(front), Whole(front), last.bytes);
        assert Survivors(front) + [] == Survivors(front);
      }
    }
  }

  /** The file's message bytes are an in-order subsequence of the accepted ones, and what is missing from it is
      either lost in drops or still buffered. */
  lemma OutputIsSubsequence(es: seq<Event>)
    requires Run(Start(), es).Ok?
    ensures var s := Run(Start(), es).s;
            && Subsequence(Messages(s.file), s.accepted)
            && |s.accepted| == |Messages(s.file)| + LostBytes(s.gone) + |Unwritten(s)| + |Held(s)|
  {
    RunConserves(es);
    var s := Run(Start(), es).s;
    hide Run;
    SurvivorsAreSubsequence(s.gone);
    Assoc(Whole(s.gone), Unwritten(s), Held(s), []);
    hide Subsequence, Unwritten, Held, Pool;
    SubsequenceSkip(Survivors(s.gone), Whole(s.gone), Unwritten(s) + Held(s));
  }

  /** No pass of the run found more than MAX_PASS buffers. */
  ghost predicate NeverCrowded(es: seq<Event>) {
    forall k | 0 <= k <= |es| :: PassFits(Run(Start(), es[..k]))
  }

  ghost predicate PassFits(o: Outcome) { o.Ok? && o.s.place.Exchanged? ==> |o.s.pass| <= MAX_PASS }

  ghost predicate NothingLost(ps: seq<Piece>) { forall i | 0 <= i < |ps| :: ps[i].Kept? }

  lemma {:induction false} NothingLostMeansAll(ps: seq<Piece>)
    requires NothingLost(ps)
    ensures Survivors(ps) == Whole(ps)
  {
    if ps == [] {
    } else {
      NothingLostMeansAll(ps[..|ps| - 1]);
    }
  }

  lemma StepKeepsAll(s: Log, e: Event)
    requires Pool(s) && NothingLost(s.gone) && (s.place.Exchanged? || s.place.Writing? ==> |s.pass| <= MAX_PASS)
    requires PassFits(Step(s, e))
    ensures Step(s, e).Ok?
    ensures var t := Step(s, e).s;
            NothingLost(t.gone) && (t.place.Exchanged? || t.place.Writing? ==> |t.pass| <= MAX_PASS)
  {
  }

  lemma {:induction false} UncrowdedKeepsAll(es: seq<Event>)
    requires NeverCrowded(es)
    ensures Run(Start(), es).Ok?
    ensures var s := Run(Start(), es).s;
            NothingLost(s.gone) && (s.place.Exchanged? || s.place.Writing? ==> |s.pass| <= MAX_PASS)
  {
    if es == [] {
    } else {
      var front := es[..|es| - 1];
      assert forall k | 0 <= k <= |front| :: front[..k] == es[..k];
      UncrowdedKeepsAll(front);
      RunConserves(front);
      assert es[..|es|] == es;
      assert PassFits(Run(Start(), es[..|es|]));
      StepKeepsAll(Run(Start(), front).s, es[|es| - 1]);
    }
  }

  /** If no pass sees more than MAX_PASS buffers, then file, pass and buffers together are exactly the
      accepted messages, in order. */
  lemma NoLossWithoutDrop(es: seq<Event>)
    requires NeverCrowded(es)
    ensures Run(Start(), es).Ok?
    ensures var s := Run(Start(), es).s; Messages(s.file) + Unwritten(s) + Held(s) == s.accepted
  {
    UncrowdedKeepsAll(es);
    RunConserves(es);
    NothingLostMeansAll(Run(Start(), es).s.gone);
  }

  /** Stopping drains nothing: a message accepted after the last exchange stays in its buffer. */
  lemma StopLeavesMessages()
    ensures var o := Run(Start(), [Begin, Append("m"), Stop, Test]);
            o.Ok? && o.s.place.Exited? && o.s.accepted == "m" && Messages(o.s.file) == [] && Held(o.s) == "m"
  {
    var s1 := BeginStep(Start());
    var s2 := s1.(current := Buffer("m"), accepted := "m");
    assert [] + "m" == "m";
    assert AppendStep(s1, "m") == s2;
    var e2, e3 := [Begin] + [Append("m")], [Begin] + [Append("m")] + [Stop];
    RunAppend([], Begin);
    assert [] + [Begin] == [Begin];
    RunAppend([Begin], Append("m"));
    RunAppend(e2, Stop);
    RunAppend(e3, Test);
    assert e3 + [Test] == [Begin, Append("m"), Stop, Test];
    hide Run;
    var z := s2.(running := false, place := Exited);
    assert Step(s2.(running := false), Test) == Ok(z);
    assert Messages(z.file) == [] && Flat([]) == [] && Held(z) == "m";
  }

  lemma RunAppend(es: seq<Event>, e: Event)
    requires Run(Start(), es).Ok?
    ensures Run(Start(), es + [e]) == Step(Run(Start(), es).s, e)
  {
  }

  /* ---------------------------------- what the steps do ---------------------------------- */

  /** An append fills the current buffer while a free byte of its 4000000 is left; otherwise it queues that buffer and
      starts the next one, and a message that fills a whole buffer is thrown away. */
  lemma AppendDoes(s: Log, msg: Bytes)
    requires Pool(s)
    ensures var cur := s.current.bytes;
            var fits := |msg| < 4000000;
            Step(s, Append(msg)) ==
            if |cur| + |msg| < 4000000 then Ok(s.(current := Buffer(cur + msg), accepted := s.accepted + msg))
            else Ok(s.(buffers := s.buffers + [cur], current := Buffer(if fits then msg else []), next := Null,
                       accepted := if fits then s.accepted + msg else s.accepted))
  {
    assert [] + msg == msg;
  }

  /** A new log is empty; its thread begins with two empty spare buffers, stops at its test once it is told to, and
      loses nothing by that. */
  lemma BeginsAndStops(s: Log)
    ensures Start() == Log(Buffer([]), Buffer([]), [], false, NotStarted, Null, Null, [], 0, [], [], [], [], [])
    ensures s.place.NotStarted? ==>
              Step(s, Begin) == Ok(s.(running := true, place := Top, spare1 := Buffer([]), spare2 := Buffer([])))
    ensures Step(s, Stop) == Ok(s.(running := false))
    ensures s.place.Top? && !s.running ==> Step(s, Test) == Ok(s.(place := Exited))
  {
  }

  function Writes(n: nat): seq<Event> { if n == 0 then [] else Writes(n - 1) + [WriteOne] }

  function DataOf(bs: seq<Bytes>): seq<Chunk> {
    if bs == [] then [] else DataOf(bs[..|bs| - 1]) + [Data(bs[|bs| - 1])]
  }

  /** What a pass over these buffers hands to the file: all of them, or a notice and the first two if there are more
      than 25. */
  function Chunks(taken: seq<Bytes>): seq<Chunk> {
    if |taken| > 25 then [Notice(|taken| - 2)] + DataOf(taken[..2]) else DataOf(taken)
  }

  lemma OneMoreWrite(s: Log, file: seq<Chunk>, k: nat)
    requires s.place.Writing? && s.written == k < |s.toWrite| && s.file == file + DataOf(s.toWrite[..k])
    ensures Step(s, WriteOne).Ok?
    ensures var t := Step(s, WriteOne).s;
            t == s.(file := file + DataOf(s.toWrite[..k + 1]), written := k + 1, gone := t.gone)
  {
    assert s.toWrite[..k + 1][..k] == s.toWrite[..k];
    assert file + (DataOf(s.toWrite[..k]) + [Data(s.toWrite[k])]) == s.file + [Data(s.toWrite[k])];
  }

  lemma {:induction false} WritesRun(s: Log, n: nat)
    requires s.place.Writing? && s.written == 0 && n <= |s.toWrite|
    ensures Run(s, Writes(n)).Ok?
    ensures var t := Run(s, Writes(n)).s;
            t == s.(file := s.file + DataOf(s.toWrite[..n]), written := n, gone := t.gone)
  {
    if n == 0 {
      assert s.file + [] == s.file;
    } else {
      WritesRun(s, n - 1);
      hide Run, Step, DataOf;
      Then(s, Writes(n - 1), WriteOne);
      OneMoreWrite(Run(s, Writes(n - 1)).s, s.file, n - 1);
    }
  }

  lemma Then(s: Log, es: seq<Event>, e: Event)
    requires Run(s, es).Ok?
    ensures Run(s, es + [e]) == Step(Run(s, es).s, e)
  {
    assert (es + [e])[..|es|] == es;
  }

  lemma {:induction false} RunJoin(s: Log, a: seq<Event>, b: seq<Event>)
    requires Run(s, a).Ok?
    ensures Run(s, a + b) == Run(Run(s, a).s, b)
  {
    if b == [] {
      assert a + b == a;
    } else {
      assert (a + b)[..|a + b| - 1] == a + b[..|b| - 1];
      RunJoin(s, a, b[..|b| - 1]);
    }
  }

  /** One undisturbed pass of a running back end: its test, the exchange, the drop test, a write of each buffer it
      keeps, and the recycling. */
  function QuietPass(n: nat): seq<Event> {
    [] + [Test] + [Exchange] + [Drop] + Writes(if n > 25 then 2 else n) + [Recycle]
  }

  /** It hands all that was held to the file as described by `Chunks`, and both threads have empty buffers again. */
  lemma QuietPassDoes(s: Log)
    requires Pool(s) && s.place.Top? && s.running
    ensures var taken := s.buffers + [s.current.bytes];
            var o := Run(s, QuietPass(|taken|));
            o.Ok? && o.s == s.(current := Buffer([]), next := Buffer([]), buffers := [], file := s.file + Chunks(taken),
                               written := 0, gone := o.s.gone, pass := taken, before := Messages(s.file))
  {
    hide Run, Step, Chunks;
    var taken := s.buffers + [s.current.bytes];
    var n := if |taken| > 25 then 2 else |taken|;
    var t := Opened(s);
    OpensPass(s);
    RunJoin(s, [] + [Test] + [Exchange] + [Drop], Writes(n));
    WritesRun(t, n);
    Then(s, [] + [Test] + [Exchange] + [Drop] + Writes(n), Recycle);
    var u := Run(t, Writes(n)).s;
    assert t.toWrite[..n] == t.toWrite;
    assert u.file == s.file + Chunks(taken) by { OpenedFile(s); }
    RecycleDoes(u);
  }

  /** The state in which the writes of a pass begin. */
  function Opened(s: Log): Log
    requires s.current.Buffer?
  {
    var taken := s.buffers + [s.current.bytes];
    s.(place := Writing, current := Buffer([]), spare1 := Null, buffers := [], next := Buffer([]),
       spare2 := if s.next.Null? then Null else Buffer([]), pass := taken, before := Messages(s.file), written := 0,
       toWrite := if |taken| > 25 then taken[..2] else taken,
       file := if |taken| > 25 then s.file + [Notice(|taken| - 2)] else s.file)
  }

  lemma OpenedFile(s: Log)
    requires s.current.Buffer?
    ensures Opened(s).file + DataOf(Opened(s).toWrite) == s.file + Chunks(s.buffers + [s.current.bytes])
  {
  }

  lemma OpensPass(s: Log)
    requires Pool(s) && s.place.Top? && s.running
    ensures Run(s, [] + [Test] + [Exchange] + [Drop]) == Ok(Opened(s))
  {
    var locking := s.(place := Locking);
    var swapped := Opened(s).(place := Exchanged, toWrite := s.buffers + [s.current.bytes], file := s.file);
    assert Run(s, []) == Ok(s);
    assert Step(s, Test) == Ok(locking);
    assert Step(locking, Exchange) == Ok(swapped);
    assert Step(swapped, Drop) == Ok(Opened(s));
    hide Run, Step;
    Then(s, [], Test);
    Then(s, [] + [Test], Exchange);
    Then(s, [] + [Test] + [Exchange], Drop);
  }

  lemma RecycleDoes(s: Log)
    requires s.place.Writing? && s.written == |s.toWrite|
    requires s.spare1.Null? && (s.spare2.Null? || s.spare2 == Buffer([]))
    requires |s.toWrite| >= if s.spare2.Null? then 2 else 1
    ensures Step(s, Recycle).Ok?
    ensures var t := Step(s, Recycle).s;
            t == s.(place := Top, spare1 := Buffer([]), spare2 := Buffer([]), toWrite := [], written := 0,
                    gone := t.gone)
  {
  }

  /* ---------------------------------- at the end ---------------------------------- */

  /** The j-th event of the run is an exchange that takes place. */
  ghost predicate Exchanges(es: seq<Event>, j: nat)
    requires j < |es|
  {
    es[j].Exchange? && Run(Start(), es[..j]).Ok? && Run(Start(), es[..j]).s.place.Locking?
  }

  /** The bytes of the accepted messages appended since the last exchange. */
  ghost function SinceExchange(es: seq<Event>): Bytes {
    if es == [] then []
    else
      var front, e := es[..|es| - 1], es[|es| - 1];
      if Exchanges(es, |es| - 1) then []
      else if e.Append? && Fits(e.msg) then SinceExchange(front) + e.msg
      else SinceExchange(front)
  }

  lemma StepHeld(s: Log, e: Event)
    requires Pool(s)
    ensures Step(s, e).Ok?
    ensures var t := Step(s, e).s;
            Held(t) == if e.Exchange? && s.place.Locking? then []
                       else if e.Append? && Fits(e.msg) then Held(s) + e.msg
                       else Held(s)
  {
    StepPool(s, e);
    match e
    case Append(msg) =>
      AppendHeld(s, msg);
      assert Held(s) + [] == Held(s);
    case Exchange => hide Flat; FlatEmpty();
    case _ => hide Held, Pool; SameHeld(s, Step(s, e).s);
  }

  /** The front end's buffers hold exactly the messages appended since the last exchange. */
  lemma {:induction false} HeldIsSinceExchange(es: seq<Event>)
    ensures Run(Start(), es).Ok? && Held(Run(Start(), es).s) == SinceExchange(es)
  {
    RunConserves(es);
    if es == [] {
    } else {
      var front := es[..|es| - 1];
      RunConserves(front);
      HeldIsSinceExchange(front);
      var s := Run(Start(), front).s;
      hide Held, Pool, Conserved, Step;
      StepHeld(s, es[|es| - 1]);
    }
  }

  /** A non-empty message is appended and no exchange takes place afterwards. */
  ghost predicate AppendedLate(es: seq<Event>, i: nat)
    requires i < |es|
  {
    es[i].Append? && Fits(es[i].msg) && es[i].msg != [] && forall j | i < j < |es| :: !Exchanges(es, j)
  }

  lemma ExchangesInFront(es: seq<Event>, front: seq<Event>, j: nat)
    requires es != [] && front == es[..|es| - 1] && j < |front|
    ensures Exchanges(es, j) <==> Exchanges(front, j)
  {
    assert es[..j] == front[..j];
  }

  lemma LateInFront(es: seq<Event>, front: seq<Event>, i: nat)
    requires es != [] && front == es[..|es| - 1] && i < |front|
    ensures AppendedLate(es, i) <==> AppendedLate(front, i) && !Exchanges(es, |es| - 1)
  {
    forall j | 0 <= j < |front| ensures Exchanges(es, j) <==> Exchanges(front, j) { ExchangesInFront(es, front, j); }
    hide Exchanges;
  }

  lemma {:induction false} SinceExchangeIff(es: seq<Event>)
    ensures SinceExchange(es) != [] <==> exists i | 0 <= i < |es| :: AppendedLate(es, i)
  {
    if es == [] {
    } else {
      var front, last := es[..|es| - 1], |es| - 1;
      hide Run, Exchanges;
      SinceExchangeIff(front);
      assert AppendedLate(es, last) <==> es[last].Append? && Fits(es[last].msg) && es[last].msg != [];
      assert Exchanges(es, last) ==> es[last].Exchange? by { RevealExchange(es); }
      forall i | 0 <= i < |front| ensures AppendedLate(es, i) <==> AppendedLate(front, i) && !Exchanges(es, last) {
        LateInFront(es, front, i);
      }
      hide AppendedLate;
    }
  }

  lemma RevealExchange(es: seq<Event>)
    requires es != []
    ensures Exchanges(es, |es| - 1) ==> es[|es| - 1].Exchange?
  {
  }

  /** At exit the output is complete up to dropped buffers exactly if no non-empty message was accepted after the
      last exchange. */
  lemma ExitIsCompleteIff(es: seq<Event>)
    requires Run(Start(), es).Ok? && Run(Start(), es).s.place.Exited?
    ensures var s := Run(Start(), es).s;
            |Messages(s.file)| + LostBytes(s.gone) == |s.accepted| <==>
            !exists i | 0 <= i < |es| :: AppendedLate(es, i)
  {
    OutputIsSubsequence(es);
    HeldIsSinceExchange(es);
    SinceExchangeIff(es);
    hide Run, Held, SinceExchange, AppendedLate;
  }
}
