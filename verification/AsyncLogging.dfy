/** The buffers of the asynchronous log as objects that change hands between its two sides. */
module AsyncLoggings {
  import opened ByteStrings
  import opened LogStream
  import LogProperties

  /** A buffer of fixed capacity that is filled from the front. */
  class FixedBuffer {
    const data: array<Byte>
    var size: nat

    ghost predicate Valid()
      reads this
    {
      size <= data.Length
    }

    ghost function Text(): Bytes
      requires Valid()
      reads this, data
    {
      data[..size]
    }

    constructor (capacity: nat)
      ensures Valid() && fresh(data) && data.Length == capacity && Text() == []
    {
      data := new Byte[capacity];
      size := 0;
    }

    function RemainingCapacity(): (r: nat)
      requires Valid()
      reads this, data
      ensures r == data.Length - |Text()|
    {
      data.Length - size
    }

    /** All of the bytes are copied if they leave a free byte, otherwise none. */
    method Append(bytes: Bytes)
      requires Valid()
      modifies this, data
      ensures Valid()
      ensures Text() == old(Text()) + if old(RemainingCapacity()) > |bytes| then bytes else []
    {
      if RemainingCapacity() > |bytes| {
        var i := 0;
        while i < |bytes|
          invariant i <= |bytes| && size == old(size) && size + |bytes| < data.Length
          invariant data[..size + i] == old(data[..size]) + bytes[..i]
        {
          data[size + i] := bytes[i];
          i := i + 1;
        }
        size := size + |bytes|;
      }
    }

    method Reset()
      modifies `size
      ensures Valid() && Text() == []
    {
      size := 0;
    }
  }

  /* ---------------------------------- who owns which buffer ---------------------------------- */

  ghost function One(a: FixedBuffer?, b: FixedBuffer): nat { if a == b then 1 else 0 }

  /** The front end's fields and the locals of the back-end thread. */
  datatype Hands = Hands(
    current: FixedBuffer?,
    next: FixedBuffer?,
    buffers: seq<FixedBuffer>,
    new1: FixedBuffer?,
    new2: FixedBuffer?,
    toWrite: seq<FixedBuffer>)
  {
    /** How often `b` is owned. */
    ghost function Owners(b: FixedBuffer): nat {
      One(current, b) + One(next, b) + One(new1, b) + One(new2, b) + multiset(buffers)[b] + multiset(toWrite)[b]
    }
  }

  /** Every owned buffer is one of `bufs` and has one owner. */
  ghost predicate Owning(h: Hands, bufs: set<FixedBuffer>) {
    && (forall b | b in bufs :: h.Owners(b) <= 1)
    && (h.current != null ==> h.current in bufs)
    && (h.next != null ==> h.next in bufs)
    && (h.new1 != null ==> h.new1 in bufs)
    && (h.new2 != null ==> h.new2 in bufs)
    && (forall b | b in h.buffers :: b in bufs)
    && (forall b | b in h.toWrite :: b in bufs)
  }

  type Text = map<FixedBuffer, Bytes>

  ghost function SlotOf(b: FixedBuffer?, t: Text): Slot {
    if b == null || b !in t then Null else Buffer(t[b])
  }

  ghost function TextOf(b: FixedBuffer, t: Text): Bytes { if b in t then t[b] else [] }

  ghost function TextsOf(bs: seq<FixedBuffer>, t: Text): (r: seq<Bytes>)
    ensures |r| == |bs| && forall i | 0 <= i < |bs| :: r[i] == TextOf(bs[i], t)
  {
    seq(|bs|, i requires 0 <= i < |bs| => TextOf(bs[i], t))
  }

  /** What the owned buffers hold. */
  datatype Holding = Holding(
    current: Slot,
    next: Slot,
    buffers: seq<Bytes>,
    spare1: Slot,
    spare2: Slot,
    toWrite: seq<Bytes>)

  ghost function HoldingOf(h: Hands, t: Text): Holding {
    Holding(SlotOf(h.current, t), SlotOf(h.next, t), TextsOf(h.buffers, t),
            SlotOf(h.new1, t), SlotOf(h.new2, t), TextsOf(h.toWrite, t))
  }

  lemma TextsUnchanged(bs: seq<FixedBuffer>, t: Text, c: FixedBuffer, bytes: Bytes)
    requires multiset(bs)[c] == 0
    ensures TextsOf(bs, t[c := bytes]) == TextsOf(bs, t)
  {
  }

  /** A write into the current buffer shows nowhere else. */
  lemma CurrentWritten(h: Hands, bufs: set<FixedBuffer>, t: Text, bytes: Bytes)
    requires Owning(h, bufs) && h.current != null
    ensures HoldingOf(h, t[h.current := bytes]) == HoldingOf(h, t).(current := Buffer(bytes))
  {
  }

  lemma SameOwners(h: Hands, u: Hands, bufs: set<FixedBuffer>)
    requires Owning(h, bufs)
    requires forall b | b in bufs :: u.Owners(b) <= h.Owners(b)
    requires (u.current != null ==> u.current in bufs) && (u.next != null ==> u.next in bufs)
    requires (u.new1 != null ==> u.new1 in bufs) && (u.new2 != null ==> u.new2 in bufs)
    requires (forall b | b in u.buffers :: b in bufs) && (forall b | b in u.toWrite :: b in bufs)
    ensures Owning(u, bufs)
  {
  }

  lemma PushCounts(bs: seq<FixedBuffer>, c: FixedBuffer, b: FixedBuffer)
    ensures multiset(bs + [c])[b] == multiset(bs)[b] + One(c, b)
  {
  }

  lemma RotatedToNext(h: Hands, bufs: set<FixedBuffer>, t: Text)
    requires Owning(h, bufs) && h.current != null && h.next != null && h.current in t && h.next in t
    ensures var u := h.(buffers := h.buffers + [h.current], current := h.next, next := null);
            && Owning(u, bufs)
            && HoldingOf(u, t) == HoldingOf(h, t).(buffers := HoldingOf(h, t).buffers + [t[h.current]],
               current := Buffer(t[h.next]), next := Null)
  {
  }

  lemma RotatedToNew(h: Hands, bufs: set<FixedBuffer>, t: Text, c: FixedBuffer)
    requires Owning(h, bufs) && h.current != null && h.next == null && h.current in t && c !in bufs && c !in t
    ensures var u := h.(buffers := h.buffers + [h.current], current := c);
            && Owning(u, bufs + {c})
            && HoldingOf(u, t[c := []]) == HoldingOf(h, t).(buffers := HoldingOf(h, t).buffers + [t[h.current]],
               current := Buffer([]))
  {
    var u := h.(buffers := h.buffers + [h.current], current := c);
    RotatedOwners(h, bufs, c);
    CurrentWritten(u, bufs + {c}, t, []);
    hide Owning;
  }

  lemma RotatedOwners(h: Hands, bufs: set<FixedBuffer>, c: FixedBuffer)
    requires Owning(h, bufs) && h.current != null && c !in bufs
    ensures Owning(h.(buffers := h.buffers + [h.current], current := c), bufs + {c})
  {
  }

  ghost function AfterExchange(h: Hands): Hands
    requires h.current != null
  {
    h.(buffers := h.toWrite, toWrite := h.buffers + [h.current], current := h.new1, new1 := null,
       next := if h.next == null then h.new2 else h.next, new2 := if h.next == null then null else h.new2)
  }

  lemma ExchangedOwners(h: Hands, bufs: set<FixedBuffer>)
    requires Owning(h, bufs) && h.current != null
    ensures Owning(AfterExchange(h), bufs)
  {
  }

  lemma ExchangedTexts(h: Hands, t: Text)
    requires h.current != null && h.current in t && (h.next != null ==> h.next in t)
    ensures var o := HoldingOf(h, t);
            HoldingOf(AfterExchange(h), t) ==
              o.(buffers := o.toWrite, toWrite := o.buffers + [t[h.current]], current := o.spare1, spare1 := Null,
                 next := if o.next.Null? then o.spare2 else o.next, spare2 := if o.next.Null? then Null else o.spare2)
  {
  }

  lemma TruncatedOwners(h: Hands, bufs: set<FixedBuffer>, n: nat)
    requires Owning(h, bufs) && n <= |h.toWrite|
    ensures Owning(h.(toWrite := h.toWrite[..n]), bufs)
  {
    var u := h.(toWrite := h.toWrite[..n]);
    assert h.toWrite == h.toWrite[..n] + h.toWrite[n..];
    forall b | b in bufs ensures u.Owners(b) <= h.Owners(b) {
      assert multiset(h.toWrite)[b] == multiset(h.toWrite[..n])[b] + multiset(h.toWrite[n..])[b];
    }
    SameOwners(h, u, bufs);
  }

  lemma Truncated(h: Hands, t: Text, n: nat)
    requires n <= |h.toWrite|
    ensures HoldingOf(h.(toWrite := h.toWrite[..n]), t) == HoldingOf(h, t).(toWrite := HoldingOf(h, t).toWrite[..n])
  {
  }

  /** The last buffers of the pass become the missing spares and the rest is freed. */
  ghost function AfterRecycle(h: Hands): Hands
    requires |h.toWrite| >= if h.new2 == null then 2 else 1
  {
    var n := |h.toWrite|;
    h.(new1 := h.toWrite[n - 1], new2 := if h.new2 == null then h.toWrite[n - 2] else h.new2, toWrite := [])
  }

  ghost function RecycledText(h: Hands, t: Text): Text
    requires |h.toWrite| >= if h.new2 == null then 2 else 1
  {
    var n := |h.toWrite|;
    if h.new2 == null then t[h.toWrite[n - 1] := []][h.toWrite[n - 2] := []] else t[h.toWrite[n - 1] := []]
  }

  lemma RecycledOwners(h: Hands, bufs: set<FixedBuffer>)
    requires Owning(h, bufs) && h.new1 == null && |h.toWrite| >= if h.new2 == null then 2 else 1
    ensures Owning(AfterRecycle(h), bufs)
  {
    var n, w := |h.toWrite|, h.toWrite;
    assert w[n - 1] in w;
    forall b | b in bufs ensures AfterRecycle(h).Owners(b) <= h.Owners(b) {
      assert w == w[..n - 1] + [w[n - 1]];
      PushCounts(w[..n - 1], w[n - 1], b);
      if h.new2 == null {
        assert w[..n - 1] == w[..n - 2] + [w[n - 2]];
        PushCounts(w[..n - 2], w[n - 2], b);
      }
    }
    if h.new2 == null { assert w[n - 2] in w; }
    SameOwners(h, AfterRecycle(h), bufs);
  }

  lemma RecycledTexts(h: Hands, bufs: set<FixedBuffer>, t: Text)
    requires h.new1 == null && |h.toWrite| >= if h.new2 == null then 2 else 1
    requires Owning(AfterRecycle(h), bufs) && (h.new2 != null ==> h.new2 in t && t[h.new2] == [])
    ensures HoldingOf(AfterRecycle(h), RecycledText(h, t)) ==
              HoldingOf(h, t).(spare1 := Buffer([]), spare2 := Buffer([]), toWrite := [])
  {
  }

  /** Where the back-end thread is, and the histories. */
  datatype Past = Past(place: Place, accepted: Bytes, gone: seq<Piece>, pass: seq<Bytes>, before: Bytes)
  {
    function Accepting(msg: Bytes): Past { this.(accepted := if Fits(msg) then accepted + msg else accepted) }
  }

  /** The remaining state. */
  datatype Rest = Rest(running: bool, written: nat, file: seq<Chunk>, past: Past)

  /** The stream state that the objects stand for. */
  ghost function LogOf(h: Hands, t: Text, r: Rest): Log {
    var o := HoldingOf(h, t);
    Log(o.current, o.next, o.buffers, r.running, r.past.place, o.spare1, o.spare2, o.toWrite, r.written, r.file,
        r.past.accepted, r.past.gone, r.past.pass, r.past.before)
  }

  /** The owned buffers are known and hold a sound pool. */
  ghost predicate Good(h: Hands, bufs: set<FixedBuffer>, t: Text, r: Rest) {
    Owning(h, bufs) && t.Keys == bufs && LogProperties.Pool(LogOf(h, t, r))
  }

  lemma InitiallyGood(c: FixedBuffer, n: FixedBuffer)
    requires c != n
    ensures var h, t, r := Hands(c, n, [], null, null, []), map[][c := []][n := []],
            Rest(false, 0, [], Past(NotStarted, [], [], [], []));
            Good(h, {} + {c} + {n}, t, r) && LogOf(h, t, r) == Start()
  {
  }

  lemma GoodBegin(h: Hands, bufs: set<FixedBuffer>, t: Text, r: Rest, n1: FixedBuffer, n2: FixedBuffer)
    requires Good(h, bufs, t, r) && r.past.place.NotStarted? && n1 != n2 && n1 !in bufs && n2 !in bufs
    ensures var g, u, q := h.(new1 := n1, new2 := n2), t[n1 := []][n2 := []],
            r.(running := true, past := r.past.(place := Top));
            Good(g, bufs + {n1} + {n2}, u, q) && Step(LogOf(h, t, r), Begin) == Ok(LogOf(g, u, q))
  {
    var g, u, all := h.(new1 := n1, new2 := n2), t[n1 := []][n2 := []], bufs + {n1} + {n2};
    assert h.new1 == null && h.new2 == null;
    OnlyOwnedIn(h, bufs, n1);
    OnlyOwnedIn(h, bufs, n2);
    forall b | b in all ensures g.Owners(b) <= 1 { assert b in bufs ==> h.Owners(b) <= 1; }
    assert Owning(g, all);
    TextsUnchanged(h.buffers, t, n1, []);
    TextsUnchanged(h.buffers, t[n1 := []], n2, []);
    TextsUnchanged(h.toWrite, t, n1, []);
    TextsUnchanged(h.toWrite, t[n1 := []], n2, []);
  }

  lemma OnlyOwnedIn(h: Hands, bufs: set<FixedBuffer>, b: FixedBuffer)
    requires Owning(h, bufs) && b !in bufs
    ensures h.Owners(b) == 0
  {
  }

  lemma GoodCurrent(h: Hands, bufs: set<FixedBuffer>, t: Text, r: Rest)
    requires Good(h, bufs, t, r)
    ensures h.current != null && h.current in bufs && h.current in t && LogOf(h, t, r).current == Buffer(t[h.current])
  {
  }

  lemma GoodAppend(h: Hands, bufs: set<FixedBuffer>, t: Text, r: Rest, msg: Bytes)
    requires Good(h, bufs, t, r) && h.current != null && h.current in bufs
    requires ASYNC_BUFFER_SIZE - |t[h.current]| > |msg|
    ensures var q := r.(past := r.past.Accepting(msg));
            var u := t[h.current := Appended(t[h.current], msg)];
            Good(h, bufs, u, q) && Step(LogOf(h, t, r), Append(msg)) == Ok(LogOf(h, u, q))
  {
    LogProperties.StepPool(LogOf(h, t, r), Append(msg));
    CurrentWritten(h, bufs, t, Appended(t[h.current], msg));
  }

  lemma GoodRotateToNext(h: Hands, bufs: set<FixedBuffer>, t: Text, r: Rest, msg: Bytes)
    requires Good(h, bufs, t, r) && h.current != null && h.current in bufs && h.next != null
    requires ASYNC_BUFFER_SIZE - |t[h.current]| <= |msg|
    ensures var q := r.(past := r.past.Accepting(msg));
            var g := h.(buffers := h.buffers + [h.current], current := h.next, next := null);
            && h.next in bufs && t[h.next] == []
            && var u := t[h.next := Appended([], msg)];
               Good(g, bufs, u, q) && Step(LogOf(h, t, r), Append(msg)) == Ok(LogOf(g, u, q))
  {
    LogProperties.StepPool(LogOf(h, t, r), Append(msg));
    RotatedToNext(h, bufs, t);
    CurrentWritten(h.(buffers := h.buffers + [h.current], current := h.next, next := null), bufs, t, Appended([], msg));
  }

  lemma GoodRotateToNew(h: Hands, bufs: set<FixedBuffer>, t: Text, r: Rest, msg: Bytes, c: FixedBuffer)
    requires Good(h, bufs, t, r) && h.current != null && h.current in bufs && h.next == null && c !in bufs
    requires ASYNC_BUFFER_SIZE - |t[h.current]| <= |msg|
    ensures var q := r.(past := r.past.Accepting(msg));
            var g, u := h.(buffers := h.buffers + [h.current], current := c), t[c := []][c := Appended([], msg)];
            Good(g, bufs + {c}, u, q) && Step(LogOf(h, t, r), Append(msg)) == Ok(LogOf(g, u, q))
  {
    LogProperties.StepPool(LogOf(h, t, r), Append(msg));
    RotatedToNew(h, bufs, t, c);
    var g := h.(buffers := h.buffers + [h.current], current := c);
    CurrentWritten(g, bufs + {c}, t[c := []], Appended([], msg));
  }

  lemma GoodTest(h: Hands, bufs: set<FixedBuffer>, t: Text, r: Rest)
    requires Good(h, bufs, t, r) && r.past.place.Top?
    ensures var q := r.(past := r.past.(place := if r.running then Locking else Exited));
            Good(h, bufs, t, q) && Step(LogOf(h, t, r), Test) == Ok(LogOf(h, t, q))
    ensures h.new1 != null && h.new1 in bufs && t[h.new1] == []
    ensures h.new2 != null && h.new2 in bufs && t[h.new2] == [] && h.toWrite == []
  {
  }

  lemma GoodExchange(h: Hands, bufs: set<FixedBuffer>, t: Text, r: Rest)
    requires Good(h, bufs, t, r) && r.past.place.Locking?
    ensures h.current != null
    ensures var g := AfterExchange(h);
            var q := r.(written := 0, past := r.past.(place := Place.Exchanged, pass := TextsOf(g.toWrite, t),
                before := Messages(r.file)));
            Good(g, bufs, t, q) && Step(LogOf(h, t, r), Exchange) == Ok(LogOf(g, t, q))
  {
    hide Owning;
    ExchangedOwners(h, bufs);
    ExchangedTexts(h, t);
    LogProperties.StepPool(LogOf(h, t, r), Exchange);
    hide LogProperties.Pool, Messages;
  }

  lemma GoodDropNothing(h: Hands, bufs: set<FixedBuffer>, t: Text, r: Rest)
    requires Good(h, bufs, t, r) && r.past.place.Exchanged? && |h.toWrite| <= MAX_PASS
    ensures var q := r.(past := r.past.(place := Writing));
            Good(h, bufs, t, q) && Step(LogOf(h, t, r), Drop) == Ok(LogOf(h, t, q))
  {
  }

  lemma GoodDropSome(h: Hands, bufs: set<FixedBuffer>, t: Text, r: Rest)
    requires Good(h, bufs, t, r) && r.past.place.Exchanged? && |h.toWrite| > MAX_PASS
    ensures var g, q := h.(toWrite := h.toWrite[..2]),
            r.(past := r.past.(place := Writing), file := r.file + [Notice(|h.toWrite| - 2)]);
            Good(g, bufs, t, q) && Step(LogOf(h, t, r), Drop) == Ok(LogOf(g, t, q))
  {
    hide Owning;
    LogProperties.StepPool(LogOf(h, t, r), Drop);
    TruncatedOwners(h, bufs, 2);
    Truncated(h, t, 2);
  }

  lemma GoodWrite(h: Hands, bufs: set<FixedBuffer>, t: Text, r: Rest)
    requires Good(h, bufs, t, r) && r.past.place.Writing? && r.written < |h.toWrite|
    ensures var b := h.toWrite[r.written];
            && b in bufs
            && var q := r.(file := r.file + [Data(t[b])], written := r.written + 1,
               past := r.past.(gone := r.past.gone + [Kept(t[b])]));
               Good(h, bufs, t, q) && Step(LogOf(h, t, r), WriteOne) == Ok(LogOf(h, t, q))
  {
  }

  lemma GoodRecycle(h: Hands, bufs: set<FixedBuffer>, t: Text, r: Rest)
    requires Good(h, bufs, t, r) && r.past.place.Writing? && r.written == |h.toWrite|
    ensures h.new1 == null && |h.toWrite| >= if h.new2 == null then 2 else 1
    ensures forall b | b in h.toWrite :: b in bufs
    ensures var p := r.past;
            var q := r.(written := 0, past := p.(place := Top,
                        gone := if Discarded(p.pass) == [] then p.gone else p.gone + [Lost(Flat(Discarded(p.pass)))]));
            && Good(AfterRecycle(h), bufs, RecycledText(h, t), q)
            && Step(LogOf(h, t, r), Recycle) == Ok(LogOf(AfterRecycle(h), RecycledText(h, t), q))
  {
    hide Owning;
    LogProperties.StepPool(LogOf(h, t, r), Recycle);
    OwnsPass(h, bufs);
    RecycledOwners(h, bufs);
    RecycledTexts(h, bufs, t);
  }

  lemma OwnsPass(h: Hands, bufs: set<FixedBuffer>)
    requires Owning(h, bufs)
    ensures (forall b | b in h.toWrite :: b in bufs) && (h.new1 != null ==> h.new1 in bufs)
            && (h.new2 != null ==> h.new2 in bufs)
  {
  }

  class AsyncLogging {
    var running: bool
    var currentBuffer: FixedBuffer?
    var nextBuffer: FixedBuffer?
    var buffers: seq<FixedBuffer>
    var newBuffer1: FixedBuffer?
    var newBuffer2: FixedBuffer?
    var buffersToWrite: seq<FixedBuffer>
    /** How many buffers of the pass have been handed to the file. */
    var written: nat
    var file: seq<Chunk>
    /** All buffers allocated so far and what they hold. */
    ghost var bufs: set<FixedBuffer>
    ghost var text: Text
    ghost var past: Past

    ghost function Owned(): Hands
      reads this
    {
      Hands(currentBuffer, nextBuffer, buffers, newBuffer1, newBuffer2, buffersToWrite)
    }

    ghost function Others(): Rest
      reads this
    {
      Rest(running, written, file, past)
    }

    ghost function Storage(): set<array<Byte>>
      reads `bufs, bufs
    {
      set b: FixedBuffer | b in bufs :: b.data
    }

    /** The objects hold what `text` says, each in its own storage. */
    ghost predicate Backed()
      reads `bufs, `text, bufs, Storage()
    {
      && text.Keys == bufs
      && (forall b | b in bufs :: b.data.Length == ASYNC_BUFFER_SIZE && b.Valid() && b.Text() == text[b])
      && (forall b, c | b in bufs && c in bufs && b.data == c.data :: b == c)
    }

    ghost function View(): Log
      reads this
    {
      LogOf(Owned(), text, Others())
    }

    ghost predicate Valid()
      reads this, bufs, Storage()
    {
      Backed() && Good(Owned(), bufs, text, Others())
    }

    constructor ()
      ensures Valid() && View() == Start()
      ensures forall b | b in bufs :: fresh(b) && fresh(b.data)
    {
      currentBuffer, nextBuffer, newBuffer1, newBuffer2 := null, null, null, null;
      buffers, buffersToWrite, written, file, running := [], [], 0, [], false;
      bufs, text := {}, map[];
      past := Past(NotStarted, [], [], [], []);
      new;
      assert Backed();
      hide Good, LogOf, Backed;
      var c, n := NewBuffers();
      label Allocated:
      currentBuffer, nextBuffer := c, n;
      StillBacked@Allocated();
      InitiallyGood(c, n);
    }

    /* ------------------------------ front end ------------------------------ */

    /** Reassigning fields of the logger does not touch the buffers. */
    twostate lemma StillBacked()
      requires old(Backed()) && bufs == old(bufs) && text == old(text)
      requires forall b | b in bufs :: unchanged(b) && unchanged(b.data)
      ensures Backed()
    {
    }

    method NewBuffer() returns (b: FixedBuffer)
      requires Backed()
      modifies `bufs, `text
      ensures Backed() && fresh(b) && fresh(b.data)
      ensures bufs == old(bufs) + {b} && text == old(text)[b := []]
    {
      b := new FixedBuffer(ASYNC_BUFFER_SIZE);
      bufs, text := bufs + {b}, text[b := []];
    }

    method NewBuffers() returns (b: FixedBuffer, c: FixedBuffer)
      requires Backed()
      modifies `bufs, `text
      ensures Backed() && b != c && b !in old(bufs) && c !in old(bufs)
      ensures fresh(b) && fresh(b.data) && fresh(c) && fresh(c.data)
      ensures bufs == old(bufs) + {b} + {c} && text == old(text)[b := []][c := []]
    {
      hide Backed;
      b := NewBuffer();
      c := NewBuffer();
    }

    method Write(b: FixedBuffer, msg: Bytes)
      requires Backed() && b in bufs
      modifies b, b.data, `text
      ensures Backed() && text == old(text)[b := Appended(old(text)[b], msg)]
    {
      Room(b);
      b.Append(msg);
      assert old(text)[b] + [] == old(text)[b];
      text := text[b := b.Text()];
    }

    lemma Room(b: FixedBuffer)
      requires Backed() && b in bufs
      ensures b.Valid() && b.Text() == text[b] && b.RemainingCapacity() == ASYNC_BUFFER_SIZE - |text[b]|
    {
    }

    /** The full buffer joins the queue; `b` takes its place and the message. */
    method TakeOver(b: FixedBuffer, msg: Bytes)
      requires Backed() && currentBuffer != null && b in bufs
      modifies `past, `buffers, `currentBuffer, `nextBuffer, `text, b, b.data
      ensures Backed()
      ensures buffers == old(buffers) + [old(currentBuffer)] && currentBuffer == b && nextBuffer == null
      ensures text == old(text)[b := Appended(old(text)[b], msg)]
      ensures past == old(past).Accepting(msg)
    {
      hide Backed;
      past := past.Accepting(msg);
      buffers := buffers + [currentBuffer];
      nextBuffer, currentBuffer := null, b;
      StillBacked();
      Write(currentBuffer, msg);
    }

    method RotateToNext(msg: Bytes)
      requires Valid() && ASYNC_BUFFER_SIZE - |Contents(View().current)| <= |msg| && nextBuffer != null
      modifies this, bufs, Storage()
      ensures Valid() && bufs == old(bufs) && Ok(View()) == Step(old(View()), Event.Append(msg))
    {
      hide Good, LogOf, Step, Backed;
      GoodCurrent(Owned(), bufs, text, Others());
      GoodRotateToNext(Owned(), bufs, text, Others(), msg);
      Room(nextBuffer);
      TakeOver(nextBuffer, msg);
    }

    /** There is no spare one: a new buffer is allocated. */
    method RotateToNew(msg: Bytes)
      requires Valid() && ASYNC_BUFFER_SIZE - |Contents(View().current)| <= |msg| && nextBuffer == null
      modifies this, bufs, Storage()
      ensures Valid() && Ok(View()) == Step(old(View()), Event.Append(msg))
      ensures old(bufs) <= bufs && forall b | b in bufs :: b in old(bufs) || (fresh(b) && fresh(b.data))
    {
      hide Good, LogOf, Step, Backed;
      GoodCurrent(Owned(), bufs, text, Others());
      var b := NewBuffer();
      GoodRotateToNew(old(Owned()), old(bufs), old(text), old(Others()), msg, b);
      TakeOver(b, msg);
    }

    /** AsyncLogging::append, under the lock. */
    method Append(msg: Bytes)
      requires Valid()
      modifies this, bufs, Storage()
      ensures Valid() && Ok(View()) == Step(old(View()), Event.Append(msg))
      ensures old(bufs) <= bufs && forall b | b in bufs :: b in old(bufs) || (fresh(b) && fresh(b.data))
    {
      hide Good, LogOf, Step, Backed;
      GoodCurrent(Owned(), bufs, text, Others());
      Room(currentBuffer);
      if currentBuffer.RemainingCapacity() > |msg| {
        GoodAppend(Owned(), bufs, text, Others(), msg);
        past := past.Accepting(msg);
        StillBacked();
        Write(currentBuffer, msg);
      } else if nextBuffer != null {
        RotateToNext(msg);
      } else {
        RotateToNew(msg);
      }
    }

    method Stop()
      requires Valid()
      modifies `running
      ensures Valid() && Ok(View()) == Step(old(View()), Event.Stop)
    {
      hide Backed;
      running := false;
      StillBacked();
    }

    /* ------------------------------ back end ------------------------------ */

    /** start(): the back-end thread begins with two spare buffers of its own. */
    method Begin()
      requires Valid() && past.place.NotStarted?
      modifies `running, `past, `newBuffer1, `newBuffer2, `bufs, `text
      ensures Valid() && Ok(View()) == Step(old(View()), Event.Begin)
      ensures old(bufs) <= bufs && forall b | b in bufs :: b in old(bufs) || (fresh(b) && fresh(b.data))
    {
      hide Good, LogOf, Step, Backed;
      var n1, n2 := NewBuffers();
      GoodBegin(old(Owned()), old(bufs), old(text), old(Others()), n1, n2);
      label Allocated:
      newBuffer1, newBuffer2, running, past := n1, n2, true, past.(place := Top);
      StillBacked@Allocated();
    }

    /** The loop test; inside the loop both spares are there and empty. */
    method Test()
      requires Valid() && past.place.Top?
      modifies `past
      ensures Valid() && Ok(View()) == Step(old(View()), Event.Test)
      ensures past.place == if running then Locking else Exited
    {
      hide Good, LogOf, Step, Backed;
      GoodTest(Owned(), bufs, text, Others());
      past := past.(place := if running then Locking else Exited);
      StillBacked();
      if running {
        Room(newBuffer1);
        Room(newBuffer2);
        assert newBuffer1 != null && newBuffer1.size == 0;
        assert newBuffer2 != null && newBuffer2.size == 0;
        assert buffersToWrite == [];
      }
    }

    method TakeBuffers()
      requires currentBuffer != null
      modifies `currentBuffer, `nextBuffer, `buffers, `newBuffer1, `newBuffer2, `buffersToWrite
      ensures Owned() == AfterExchange(old(Owned()))
    {
      buffersToWrite, buffers := buffers + [currentBuffer], buffersToWrite;
      currentBuffer, newBuffer1 := newBuffer1, null;
      if nextBuffer == null { nextBuffer, newBuffer2 := newBuffer2, null; }
    }

    /** The locked block: the front end's buffers are taken and replaced by spares. */
    method Exchange()
      requires Valid() && past.place.Locking?
      modifies `currentBuffer, `nextBuffer, `buffers, `newBuffer1, `newBuffer2, `buffersToWrite, `written, `past
      ensures Valid() && Ok(View()) == Step(old(View()), Event.Exchange)
      ensures past.place.Exchanged? && written == 0
    {
      hide Good, LogOf, Step, Backed;
      GoodExchange(Owned(), bufs, text, Others());
      TakeBuffers();
      written := 0;
      past := past.(place := Place.Exchanged, pass := TextsOf(buffersToWrite, text), before := Messages(file));
      StillBacked();
      assert buffersToWrite != [];
    }

    /** Too many buffers: all but the first two are dropped and the file is told so. */
    method Drop()
      requires Valid() && past.place.Exchanged?
      modifies `buffersToWrite, `file, `past
      ensures Valid() && Ok(View()) == Step(old(View()), Event.Drop)
      ensures past.place.Writing?
    {
      hide Good, LogOf, Step, Backed;
      if |buffersToWrite| <= MAX_PASS { GoodDropNothing(Owned(), bufs, text, Others()); }
      else { GoodDropSome(Owned(), bufs, text, Others()); }
      past := past.(place := Writing);
      if |buffersToWrite| > MAX_PASS {
        file := file + [Notice(|buffersToWrite| - 2)];
        buffersToWrite := buffersToWrite[..2];
      }
      StillBacked();
    }

    method WriteOne()
      requires Valid() && past.place.Writing? && written < |buffersToWrite|
      modifies `file, `written, `past
      ensures Valid() && Ok(View()) == Step(old(View()), Event.WriteOne)
      ensures past.place == old(past.place) && written == old(written) + 1 && buffersToWrite == old(buffersToWrite)
    {
      hide Good, LogOf, Step, Backed;
      GoodWrite(Owned(), bufs, text, Others());
      var b := buffersToWrite[written];
      Room(b);
      file := file + [Data(b.data[..b.size])];
      written := written + 1;
      past := past.(gone := past.gone + [Kept(text[b])]);
      StillBacked();
    }

    /** Takes the last buffer off the pass and empties it. */
    method PopEmptied() returns (b: FixedBuffer)
      requires Backed() && buffersToWrite != [] && buffersToWrite[|buffersToWrite| - 1] in bufs
      modifies `buffersToWrite, `text, buffersToWrite[|buffersToWrite| - 1]
      ensures Backed()
      ensures b == old(buffersToWrite)[|old(buffersToWrite)| - 1]
      ensures buffersToWrite == old(buffersToWrite)[..|old(buffersToWrite)| - 1]
      ensures text == old(text)[b := []]
    {
      b := buffersToWrite[|buffersToWrite| - 1];
      buffersToWrite := buffersToWrite[..|buffersToWrite| - 1];
      b.Reset();
      text := text[b := []];
    }

    /** The spares are refilled from the pass and the rest of it is freed. */
    method Recycle()
      requires Valid() && past.place.Writing? && written == |buffersToWrite|
      modifies this, bufs
      ensures Valid() && Ok(View()) == Step(old(View()), Event.Recycle)
      ensures past.place.Top?
    {
      hide Good, LogOf, Step, Backed, Discarded, Flat;
      GoodRecycle(Owned(), bufs, text, Others());
      RefillSpares();
      label Refilled:
      buffersToWrite, written := [], 0;
      past := past.(place := Top,
                    gone := if Discarded(past.pass) == [] then past.gone
                            else past.gone + [Lost(Flat(Discarded(past.pass)))]);
      StillBacked@Refilled();
    }

    method RefillSpares()
      requires Backed() && newBuffer1 == null && |buffersToWrite| >= if newBuffer2 == null then 2 else 1
      requires forall b | b in buffersToWrite :: b in bufs
      modifies `newBuffer1, `newBuffer2, `buffersToWrite, `text, buffersToWrite
      ensures Backed()
      ensures Hands(currentBuffer, nextBuffer, buffers, newBuffer1, newBuffer2, []) == AfterRecycle(old(Owned()))
      ensures text == RecycledText(old(Owned()), old(text))
    {
      hide Backed;
      Refill1();
      if newBuffer2 == null { Refill2(); }
    }

    method Refill1()
      requires Backed() && buffersToWrite != [] && forall b | b in buffersToWrite :: b in bufs
      modifies `newBuffer1, `buffersToWrite, `text, buffersToWrite[|buffersToWrite| - 1]
      ensures Backed() && newBuffer1 == old(buffersToWrite)[|old(buffersToWrite)| - 1]
      ensures buffersToWrite == old(buffersToWrite)[..|old(buffersToWrite)| - 1]
      ensures text == old(text)[newBuffer1 := []]
    {
      hide Backed;
      var b := PopEmptied();
      label Popped:
      newBuffer1 := b;
      StillBacked@Popped();
    }

    method Refill2()
      requires Backed() && buffersToWrite != [] && forall b | b in buffersToWrite :: b in bufs
      modifies `newBuffer2, `buffersToWrite, `text, buffersToWrite[|buffersToWrite| - 1]
      ensures Backed() && newBuffer2 == old(buffersToWrite)[|old(buffersToWrite)| - 1]
      ensures buffersToWrite == old(buffersToWrite)[..|old(buffersToWrite)| - 1]
      ensures text == old(text)[newBuffer2 := []]
    {
      hide Backed;
      var b := PopEmptied();
      label Popped:
      newBuffer2 := b;
      StillBacked@Popped();
    }

    /* ------------------------------ a whole pass ------------------------------ */

    /** What other threads do: append, each under the lock, or stop. */
    method FrontEnd(front: seq<Event>, ghost before: Log, ghost es0: seq<Event>) returns (ghost es: seq<Event>)
      requires Valid() && Ok(View()) == Run(before, es0) && AllFront(front)
      modifies this, bufs, Storage()
      ensures Valid() && Ok(View()) == Run(before, es) && es == es0 + front
      ensures SamePass(old(View()), View())
      ensures old(bufs) <= bufs && forall b | b in bufs :: b in old(bufs) || (fresh(b) && fresh(b.data))
    {
      hide Good, LogOf, Backed, Step, Run;
      es := es0;
      var i := 0;
      while i < |front|
        invariant i <= |front| && Valid() && Ok(View()) == Run(before, es) && es == es0 + front[..i]
        invariant SamePass(old(View()), View())
        invariant old(bufs) <= bufs && forall b | b in bufs :: b in old(bufs) || (fresh(b) && fresh(b.data))
      {
        ghost var s := View();
        RunExtend(before, es, front[i], s);
        FrontFrame(s, front[i]);
        if front[i].Append? {
          Append(front[i].msg);
        } else {
          Stop();
        }
        es := es + [front[i]];
        assert front[..i + 1] == front[..i] + [front[i]];
        i := i + 1;
      }
      assert front[..i] == front;
    }

    /** The loop that hands the buffers of a pass to the file, while front[i] happens before the i-th of them is
        written. */
    method WriteAll(front: seq<seq<Event>>, ghost before: Log, ghost es0: seq<Event>) returns (ghost es: seq<Event>)
      requires Valid() && Ok(View()) == Run(before, es0) && forall i | 0 <= i < |front| :: AllFront(front[i])
      requires past.place.Writing? && written == 0
      modifies this, bufs, Storage()
      ensures Valid() && Ok(View()) == Run(before, es) && es == AfterWrites(es0, front, written)
      ensures past.place.Writing? && written == |buffersToWrite|
      ensures old(bufs) <= bufs && forall b | b in bufs :: b in old(bufs) || (fresh(b) && fresh(b.data))
    {
      hide Good, LogOf, Backed, Step, Run, AllFront;
      es := es0;
      ViewFields();
      while written < |buffersToWrite|
        invariant Valid() && Ok(View()) == Run(before, es) && es == AfterWrites(es0, front, written)
        invariant past.place.Writing? && written <= |buffersToWrite|
        invariant old(bufs) <= bufs && forall b | b in bufs :: b in old(bufs) || (fresh(b) && fresh(b.data))
        decreases |buffersToWrite| - written
      {
        ViewFields();
        ghost var n := |buffersToWrite| - written;
        if written < |front| {
          es := FrontEnd(front[written], before, es);
        }
        ViewFields();
        RunExtend(before, es, Event.WriteOne, View());
        WriteOne();
        es := es + [Event.WriteOne];
      }
    }

    lemma ViewFields()
      ensures View().place == past.place && |View().toWrite| == |buffersToWrite| && View().written == written
      ensures View().running == running
    {
    }

    /** The body of the loop of run() after its test; the front end acts between all of its steps. */
    method Body(front: Arrivals, ghost s: Log, ghost es0: seq<Event>) returns (ghost es: seq<Event>, ghost n: nat)
      requires Valid() && Ok(View()) == Run(s, es0) && past.place.Locking? && front.Fits()
      modifies this, bufs, Storage()
      ensures Valid() && Ok(View()) == Run(s, es) && past.place.Top? && es == front.AfterBody(es0, n)
    {
      hide Good, LogOf, Backed, Step, Run, AllFront;
      ViewFields();
      es := FrontEnd(front.locking, s, es0);
      ViewFields();
      RunExtend(s, es, Event.Exchange, View());
      Exchange();
      ViewFields();
      es := FrontEnd(front.dropping, s, es + [Event.Exchange]);
      ViewFields();
      RunExtend(s, es, Event.Drop, View());
      Drop();
      es := WriteAll(front.writing, s, es + [Event.Drop]);
      n := written;
      ViewFields();
      es := FrontEnd(front.recycling, s, es);
      ViewFields();
      RunExtend(s, es, Event.Recycle, View());
      Recycle();
      es := es + [Event.Recycle];
    }

    /** The loop of run(), once around, from its test to the next one. */
    method Pass(front: Arrivals) returns (ghost es: seq<Event>, ghost n: nat)
      requires Valid() && past.place.Top? && front.Fits()
      modifies this, bufs, Storage()
      ensures Valid() && Ok(View()) == Run(old(View()), es)
      ensures es == if past.place.Top? then front.AfterBody(front.testing + [Event.Test], n)
                    else front.testing + [Event.Test]
      ensures past.place.Top? || (past.place.Exited? && !running)
      ensures past.place.Exited? <== !old(running)
    {
      hide Good, LogOf, Backed, Step, Run, AllFront;
      ghost var s := View();
      RunNothing(s);
      ViewFields();
      n := 0;
      es := FrontEnd(front.testing, s, []);
      assert es == front.testing;
      ViewFields();
      RunExtend(s, es, Event.Test, View());
      var inside := running;
      Test();
      es := es + [Event.Test];
      if inside {
        es, n := Body(front, s, es);
      }
    }
  }

  predicate AllFront(front: seq<Event>) { forall i | 0 <= i < |front| :: front[i].Append? || front[i].Stop? }

  /** What other threads do during one pass: before the test, before the lock is taken, before the drop test, before
      each write, and before the spares are refilled. */
  datatype Arrivals = Arrivals(
    testing: seq<Event>,
    locking: seq<Event>,
    dropping: seq<Event>,
    writing: seq<seq<Event>>,
    recycling: seq<Event>)
  {
    predicate Fits() {
      && AllFront(testing) && AllFront(locking) && AllFront(dropping) && AllFront(recycling)
      && forall i | 0 <= i < |writing| :: AllFront(writing[i])
    }

    /** What happens from the lock to the next test, after es, when n buffers are written. */
    ghost function AfterBody(es: seq<Event>, n: nat): seq<Event> {
      AfterWrites(es + locking + [Event.Exchange] + dropping + [Event.Drop], writing, n) + recycling + [Event.Recycle]
    }
  }

  /** And when n buffers have been written, each after what arrives before it. */
  ghost function AfterWrites(es: seq<Event>, front: seq<seq<Event>>, n: nat): seq<Event> {
    if n == 0 then es
    else AfterWrites(es, front, n - 1) + (if n - 1 < |front| then front[n - 1] else []) + [Event.WriteOne]
  }

  /** The pass of the back end is where it was, and nobody has started it again. */
  ghost predicate SamePass(s: Log, u: Log) {
    u.place == s.place && u.toWrite == s.toWrite && u.written == s.written && (u.running ==> s.running)
  }

  lemma RunNothing(s: Log)
    ensures Run(s, []) == Ok(s)
  {
  }

  lemma FrontFrame(s: Log, e: Event)
    requires e.Append? || e.Stop?
    ensures Step(s, e).Ok? ==> SamePass(s, Step(s, e).s)
  {
  }

  lemma RunExtend(before: Log, es: seq<Event>, e: Event, s: Log)
    requires Ok(s) == Run(before, es)
    ensures Run(before, es + [e]) == Step(s, e)
  {
  }
}
