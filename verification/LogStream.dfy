/**
  The asynchronous log as a stream: front-end threads append messages under the lock while one back-end thread
  exchanges, writes and recycles the buffers.  Every step below is atomic; a run is any interleaving of them.
*/
module LogStream {
  import opened ByteStrings

  const ASYNC_BUFFER_SIZE: nat := 4000000
  const MAX_PASS: nat := 25

  /** A unique_ptr to a buffer, by its contents. */
  datatype Slot = Null | Buffer(bytes: Bytes)

  /** What the back end hands to the file: message bytes, or a notice that `n` buffers were dropped. */
  datatype Chunk = Data(bytes: Bytes) | Notice(n: nat)

  /** A stretch of the stream that has left the buffers. */
  datatype Piece = Kept(bytes: Bytes) | Lost(bytes: Bytes)

  /** Where the back-end thread is: not started, at the loop test, before taking the lock, after the exchange,
      writing, or out of the loop. */
  datatype Place = NotStarted | Top | Locking | Exchanged | Writing | Exited

  /** The fields of AsyncLogging, the locals of its back-end thread, the file, and four histories: the messages
      accepted so far, the stretches that have left the buffers, the buffers taken by the current pass and the
      file's message bytes when it began. */
  datatype Log = Log(
    current: Slot,
    next: Slot,
    buffers: seq<Bytes>,
    running: bool,
    place: Place,
    spare1: Slot,
    spare2: Slot,
    toWrite: seq<Bytes>,
    written: nat,
    file: seq<Chunk>,
    accepted: Bytes,
    gone: seq<Piece>,
    pass: seq<Bytes>,
    before: Bytes)

  datatype Event = Append(msg: Bytes) | Begin | Stop | Test | Exchange | Drop | WriteOne | Recycle

  function Start(): Log {
    Log(Buffer([]), Buffer([]), [], false, NotStarted, Null, Null, [], 0, [], [], [], [], [])
  }

  /* ---------------------------------- streams ---------------------------------- */

  function Flat(bs: seq<Bytes>): Bytes {
    if bs == [] then [] else bs[0] + Flat(bs[1..])
  }

  function Messages(file: seq<Chunk>): Bytes {
    if file == [] then []
    else Messages(file[..|file| - 1]) + (match file[|file| - 1] case Data(b) => b case Notice(_) => [])
  }

  function Whole(ps: seq<Piece>): Bytes {
    if ps == [] then [] else Whole(ps[..|ps| - 1]) + ps[|ps| - 1].bytes
  }

  function Survivors(ps: seq<Piece>): Bytes {
    if ps == [] then []
    else Survivors(ps[..|ps| - 1]) + (match ps[|ps| - 1] case Kept(b) => b case Lost(_) => [])
  }

  function LostBytes(ps: seq<Piece>): nat {
    if ps == [] then 0
    else LostBytes(ps[..|ps| - 1]) + (match ps[|ps| - 1] case Kept(_) => 0 case Lost(b) => |b|)
  }

  function Contents(s: Slot): Bytes { if s.Buffer? then s.bytes else [] }

  /** The buffers of a pass that get written. */
  function Chosen(pass: seq<Bytes>): seq<Bytes> { if |pass| > MAX_PASS then pass[..2] else pass }

  function Discarded(pass: seq<Bytes>): seq<Bytes> { if |pass| > MAX_PASS then pass[2..] else [] }

  /* ---------------------------------- the front end ---------------------------------- */

  /** FixedBuffer::append: all of the message if it leaves a free byte, else nothing. */
  function Appended(b: Bytes, msg: Bytes): Bytes {
    if ASYNC_BUFFER_SIZE - |b| > |msg| then b + msg else b
  }

  function Fits(msg: Bytes): bool { |msg| < ASYNC_BUFFER_SIZE }

  function AppendStep(s: Log, msg: Bytes): Log
    requires s.current.Buffer?
  {
    var accepted := if Fits(msg) then s.accepted + msg else s.accepted;
    var cur := s.current.bytes;
    if ASYNC_BUFFER_SIZE - |cur| > |msg| then
      s.(current := Buffer(cur + msg), accepted := accepted)
    else
      var empty := if s.next.Buffer? then s.next.bytes else [];
      s.(buffers := s.buffers + [cur], current := Buffer(Appended(empty, msg)), next := Null, accepted := accepted)
  }

  /* ---------------------------------- the back end ---------------------------------- */

  /** start() and the beginning of run(): the thread brings two spare buffers. */
  function BeginStep(s: Log): Log {
    s.(running := true, place := Top, spare1 := Buffer([]), spare2 := Buffer([]))
  }

  function TestStep(s: Log): Log { s.(place := if s.running then Locking else Exited) }

  function ExchangeStep(s: Log): Log
    requires s.current.Buffer?
  {
    var taken := s.buffers + [s.current.bytes];
    s.(place := Exchanged, current := s.spare1, spare1 := Null, toWrite := taken, buffers := s.toWrite,
       next := if s.next.Null? then s.spare2 else s.next,
       spare2 := if s.next.Null? then Null else s.spare2,
       pass := taken, before := Messages(s.file), written := 0)
  }

  function DropStep(s: Log): Log {
    if |s.toWrite| > MAX_PASS then
      s.(place := Writing, file := s.file + [Notice(|s.toWrite| - 2)], toWrite := s.toWrite[..2])
    else s.(place := Writing)
  }

  function WriteStep(s: Log): Log
    requires s.written < |s.toWrite|
  {
    s.(file := s.file + [Data(s.toWrite[s.written])], written := s.written + 1,
       gone := s.gone + [Kept(s.toWrite[s.written])])
  }

  /** The back of `toWrite` becomes a spare if one is missing; `reset` empties it. */
  function Refill(spare: Slot, toWrite: seq<Bytes>): (Slot, seq<Bytes>)
    requires spare.Null? ==> toWrite != []
  {
    if spare.Null? then (Buffer([]), toWrite[..|toWrite| - 1]) else (spare, toWrite)
  }

  predicate CanRecycle(s: Log) {
    && (s.spare1.Null? ==> s.toWrite != [])
    && (s.spare2.Null? ==> Refill(s.spare1, s.toWrite).1 != [])
  }

  function RecycleStep(s: Log): Log
    requires CanRecycle(s)
  {
    var (s1, rest) := Refill(s.spare1, s.toWrite);
    var (s2, _) := Refill(s.spare2, rest);
    var lost := Flat(Discarded(s.pass));
    s.(place := Top, spare1 := s1, spare2 := s2, toWrite := [], written := 0,
       gone := if Discarded(s.pass) == [] then s.gone else s.gone + [Lost(lost)])
  }

  /** One atomic step; None when a null buffer would be used or an assertion of the source fails. */
  datatype Outcome = Ok(s: Log) | Broken

  predicate SparesReady(s: Log) { s.spare1 == Buffer([]) && s.spare2 == Buffer([]) && s.toWrite == [] }

  predicate Enabled(s: Log, e: Event) {
    match e
    case Append(_) => true
    case Begin => s.place.NotStarted?
    case Stop => true
    case Test => s.place.Top?
    case Exchange => s.place.Locking?
    case Drop => s.place.Exchanged?
    case WriteOne => s.place.Writing? && s.written < |s.toWrite|
    case Recycle => s.place.Writing? && s.written == |s.toWrite|
  }

  /** Steps of the back end happen only where it is; the others are always possible. */
  function Step(s: Log, e: Event): Outcome {
    if !Enabled(s, e) then Ok(s) else
    match e
    case Append(msg) => if s.current.Null? then Broken else Ok(AppendStep(s, msg))
    case Begin => Ok(BeginStep(s))
    case Stop => Ok(s.(running := false))
    case Test => if s.running && !SparesReady(s) then Broken else Ok(TestStep(s))
    case Exchange => if s.current.Null? then Broken else Ok(ExchangeStep(s))
    case Drop => if s.toWrite == [] then Broken else Ok(DropStep(s))
    case WriteOne => Ok(WriteStep(s))
    case Recycle => if CanRecycle(s) then Ok(RecycleStep(s)) else Broken
  }

  function Run(s: Log, es: seq<Event>): Outcome {
    if es == [] then Ok(s)
    else
      var o := Run(s, es[..|es| - 1]);
      if o.Broken? then Broken else Step(o.s, es[|es| - 1])
  }
}
