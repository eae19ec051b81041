/**
  NetBuffer: one contiguous storage with a read and a write index.

      0 <= readIndex <= writeIndex <= size        contents = storage[readIndex..writeIndex]
*/
module NetBuffers {
  import opened ByteStrings
  import opened ByteQueues

  /** What readv reports: an error, or the bytes it scattered. */
  datatype Incoming = Error | Received(bytes: Bytes)

  class NetBuffer {
    var buffer: array<Byte>
    var readIndex: nat
    var writeIndex: nat

    ghost predicate Valid()
      reads this
    {
      readIndex <= writeIndex <= buffer.Length < MAX_SIZE && RESERVED_PREPEND_SIZE <= buffer.Length
    }

    /** The byte queue this buffer stands for. */
    ghost function Contents(): Bytes
      requires Valid()
      reads this, buffer
    {
      buffer[readIndex..writeIndex]
    }

    ghost function View(): (l: Layout)
      requires Valid()
      reads this, buffer
      ensures l.Fits() && l.Writeable() == WriteableBytes()
    {
      Layout(Contents(), readIndex, buffer.Length)
    }

    constructor (initialBufferSize: nat)
      requires RESERVED_PREPEND_SIZE + initialBufferSize < MAX_SIZE
      ensures Valid() && fresh(buffer) && Contents() == []
      ensures WriteableBytes() == initialBufferSize && PrependableBytes() == RESERVED_PREPEND_SIZE
    {
      buffer := new Byte[RESERVED_PREPEND_SIZE + initialBufferSize];
      readIndex, writeIndex := RESERVED_PREPEND_SIZE, RESERVED_PREPEND_SIZE;
    }

    function ReadableBytes(): (n: nat)
      requires Valid()
      reads this, buffer
      ensures n == |Contents()|
    {
      writeIndex - readIndex
    }

    function WriteableBytes(): nat
      requires Valid()
      reads this
    {
      buffer.Length - writeIndex
    }

    function PrependableBytes(): nat
      reads this
    {
      readIndex
    }

    /** std::copy of `bytes` to the storage from index `at` on. */
    method CopyIn(at: nat, bytes: Bytes)
      requires at + |bytes| <= buffer.Length
      modifies buffer
      ensures buffer[..] == old(buffer[..at]) + bytes + old(buffer[at + |bytes|..])
    {
      var i := 0;
      while i < |bytes|
        invariant i <= |bytes|
        invariant buffer[..] == old(buffer[..at]) + bytes[..i] + old(buffer[at + i..])
      {
        buffer[at + i] := bytes[i];
        i := i + 1;
      }
    }

    /** Puts bytes behind the contents and moves the write index past them. */
    method WriteBehind(bytes: Bytes)
      requires Valid() && |bytes| <= WriteableBytes()
      modifies this`writeIndex, buffer
      ensures Valid() && Contents() == old(Contents()) + bytes && writeIndex == old(writeIndex) + |bytes|
    {
      ghost var head := buffer[..writeIndex];
      assert head[readIndex..] == Contents();
      CopyIn(writeIndex, bytes);
      writeIndex := writeIndex + |bytes|;
      assert buffer[..writeIndex] == head + bytes;
      assert Contents() == (head + bytes)[readIndex..];
    }

    /** Slides the contents to the front of the storage. */
    method MemoryMoving()
      requires Valid() && RESERVED_PREPEND_SIZE < readIndex
      modifies this`readIndex, this`writeIndex, buffer
      ensures Valid() && readIndex == RESERVED_PREPEND_SIZE && Contents() == old(Contents())
    {
      var readable := ReadableBytes();
      ghost var was := Contents();
      var i := 0;
      while i < readable
        invariant i <= readable && readIndex == old(readIndex) && writeIndex == old(writeIndex)
        invariant forall k | RESERVED_PREPEND_SIZE <= k < RESERVED_PREPEND_SIZE + i ::
                    buffer[k] == was[k - RESERVED_PREPEND_SIZE]
        invariant forall k | readIndex + i <= k < buffer.Length :: buffer[k] == old(buffer[k])
      {
        buffer[RESERVED_PREPEND_SIZE + i] := buffer[readIndex + i];
        i := i + 1;
      }
      readIndex := RESERVED_PREPEND_SIZE;
      writeIndex := readIndex + readable;
      assert forall k | 0 <= k < readable :: Contents()[k] == buffer[RESERVED_PREPEND_SIZE + k];
      assert Contents() == was;
    }

    /** vector::resize: the old bytes stay where they are. */
    method Resize(size: nat)
      requires buffer.Length <= size
      modifies this`buffer
      ensures fresh(buffer) && buffer.Length == size && buffer[..old(buffer.Length)] == old(buffer[..])
      ensures old(Valid()) && size < MAX_SIZE ==> Valid() && Contents() == old(Contents())
    {
      var larger := new Byte[size];
      var i := 0;
      while i < buffer.Length
        invariant i <= buffer.Length && buffer == old(buffer)
        invariant forall k | 0 <= k < i :: larger[k] == buffer[k]
        invariant forall k | 0 <= k < buffer.Length :: buffer[k] == old(buffer[k])
      {
        larger[i] := buffer[i];
        i := i + 1;
      }
      buffer := larger;
    }

    /** Appends at the end of the queue, in place, after sliding or after growing; `ok` is false where the
        assertion of the source fails, and then nothing has changed. */
    method Append(bytes: Bytes) returns (ok: bool)
      requires Valid() && |bytes| < MAX_SIZE && writeIndex + |bytes| < MAX_SIZE
      modifies this, buffer
      ensures Valid() && (buffer == old(buffer) || fresh(buffer))
      ensures ok == !AppendAborts(|bytes|, old(WriteableBytes()), old(PrependableBytes()))
      ensures Contents() == old(Contents()) + if ok then bytes else []
      ensures old(readIndex) >= RESERVED_PREPEND_SIZE ==> ok && readIndex >= RESERVED_PREPEND_SIZE
      ensures View() == if ok then old(View()).Appended(bytes) else old(View())
    {
      var len := |bytes|;
      ghost var was := Contents();
      AppendAbortsIff(len, WriteableBytes(), PrependableBytes());
      ok := true;
      if len > WriteableBytes() {
        if SlidingFits(len, WriteableBytes(), PrependableBytes()) {
          if !(RESERVED_PREPEND_SIZE < readIndex) {
            assert was + [] == was;
            return false;
          }
          MemoryMoving();
        } else {
          Resize(writeIndex + len);
        }
      }
      WriteBehind(bytes);
    }

    /** Puts bytes in front of the queue, into the reserve. */
    method Prepend(bytes: Bytes)
      requires Valid() && |bytes| <= PrependableBytes()
      modifies this`readIndex, buffer
      ensures Valid() && Contents() == bytes + old(Contents()) && readIndex == old(readIndex) - |bytes|
    {
      ghost var all := buffer[..];
      readIndex := readIndex - |bytes|;
      CopyIn(readIndex, bytes);
      assert all[old(readIndex)..writeIndex] == old(Contents());
      assert buffer[..] == all[..readIndex] + bytes + all[old(readIndex)..];
    }

    method RetrieveAll()
      requires Valid()
      modifies this`readIndex, this`writeIndex
      ensures Valid() && Contents() == [] && readIndex == RESERVED_PREPEND_SIZE
    {
      readIndex := RESERVED_PREPEND_SIZE;
      writeIndex := RESERVED_PREPEND_SIZE;
    }

    /** Drops bytes from the front of the queue. */
    method Retrieve(len: nat)
      requires Valid() && len <= ReadableBytes()
      modifies this`readIndex, this`writeIndex
      ensures Valid() && Contents() == old(Contents())[len..] && View() == old(View()).Dropped(len)
      ensures old(readIndex) >= RESERVED_PREPEND_SIZE ==> readIndex >= RESERVED_PREPEND_SIZE
    {
      if len < ReadableBytes() {
        readIndex := readIndex + len;
      } else {
        RetrieveAll();
      }
    }

    method RetrieveAsString(len: nat) returns (s: Bytes)
      requires Valid() && len <= ReadableBytes()
      modifies this`readIndex, this`writeIndex
      ensures Valid() && s == old(Contents())[..len] && Contents() == old(Contents())[len..]
      ensures s + Contents() == old(Contents()) && View() == old(View()).Dropped(len)
      ensures old(readIndex) >= RESERVED_PREPEND_SIZE ==> readIndex >= RESERVED_PREPEND_SIZE
    {
      s := buffer[readIndex..readIndex + len];
      if len < ReadableBytes() {
        readIndex := readIndex + len;
      } else {
        readIndex := RESERVED_PREPEND_SIZE;
        writeIndex := RESERVED_PREPEND_SIZE;
      }
    }

    method RetrieveAllAsString() returns (s: Bytes)
      requires Valid()
      modifies this`readIndex, this`writeIndex
      ensures Valid() && s == old(Contents()) && Contents() == [] && readIndex == RESERVED_PREPEND_SIZE
    {
      s := buffer[readIndex..writeIndex];
      readIndex := RESERVED_PREPEND_SIZE;
      writeIndex := RESERVED_PREPEND_SIZE;
    }

    function ReadLimit(): nat
      requires Valid()
      reads this
    {
      DeliveryLimit(WriteableBytes())
    }

    /** The bytes fill the free space; the rest went to an extra buffer and is appended. */
    method FillBeyond(bytes: Bytes) returns (ok: bool)
      requires Valid() && WriteableBytes() <= |bytes| && buffer.Length + |bytes| < MAX_SIZE
      modifies this, buffer
      ensures Valid() && (buffer == old(buffer) || fresh(buffer))
      ensures ok <==> !(|bytes| > old(WriteableBytes()) && old(readIndex) < RESERVED_PREPEND_SIZE)
      ensures ok ==> View() == old(View()).Filled(bytes)
      ensures old(readIndex) >= RESERVED_PREPEND_SIZE ==> readIndex >= RESERVED_PREPEND_SIZE
    {
      var writeable := WriteableBytes();
      WriteBehind(bytes[..writeable]);
      AppendAbortsIff(|bytes| - writeable, 0, readIndex);
      assert View() == Layout(old(Contents()) + bytes[..writeable], old(readIndex), old(buffer.Length));
      hide AppendAborts, SlidingFits;
      ok := Append(bytes[writeable..]);
      assert old(Contents()) + bytes + [] == old(Contents()) + bytes;
      assert |bytes| == writeable ==> bytes[..writeable] == bytes;
    }

    /** One readv into the free space and, beyond it, into an extra buffer whose bytes are then appended. */
    method ReadFD(incoming: Incoming) returns (n: int, ok: bool)
      requires Valid()
      requires incoming.Received? ==> |incoming.bytes| <= ReadLimit() && buffer.Length + |incoming.bytes| < MAX_SIZE
      modifies this, buffer
      ensures Valid() && (buffer == old(buffer) || fresh(buffer))
      ensures incoming.Error? ==> n < 0 && ok && Contents() == old(Contents())
      ensures incoming.Received? ==> n == |incoming.bytes|
      ensures incoming.Received? && ok ==> Contents() == old(Contents()) + incoming.bytes
      ensures incoming.Received? && ok ==> View() == old(View()).Filled(incoming.bytes)
      ensures !ok <==>
                && incoming.Received?
                && |incoming.bytes| > old(WriteableBytes())
                && old(readIndex) < RESERVED_PREPEND_SIZE
      ensures old(readIndex) >= RESERVED_PREPEND_SIZE ==> readIndex >= RESERVED_PREPEND_SIZE
    {
      ok := true;
      match incoming
      case Error => n := -1;
      case Received(bytes) =>
        n := |bytes|;
        FilledBytes(View(), bytes);
        if n < WriteableBytes() {
          WriteBehind(bytes);
        } else {
          hide Layout.Filled;
          ok := FillBeyond(bytes);
        }
    }
  }

  /** Any run of operations on a buffer: it succeeds exactly if no operation fails an assertion of the source. */
  method RunOps(b: NetBuffer, ops: seq<Op>) returns (ok: bool, taken: Bytes)
    requires b.Valid() && b.buffer.Length + Weights(ops) < MAX_SIZE
    modifies b, b.buffer
    ensures b.Valid() && (b.buffer == old(b.buffer) || fresh(b.buffer))
    ensures ok <==> Run(old(b.View()), ops).Done?
    ensures ok ==> b.View() == Run(old(b.View()), ops).layout && taken == Run(old(b.View()), ops).taken
    decreases |ops|
  {
    ok, taken := true, [];
    if ops != [] {
      StepFits(b.View(), ops[0]);
      hide Step;
      var first, rest;
      ok, first := RunOp(b, ops[0]);
      if ok {
        ok, rest := RunOps(b, ops[1..]);
        taken := first + rest;
      }
    }
  }

  method RunOp(b: NetBuffer, op: Op) returns (ok: bool, taken: Bytes)
    requires b.Valid() && b.buffer.Length + Weight(op) < MAX_SIZE
    modifies b, b.buffer
    ensures b.Valid() && (b.buffer == old(b.buffer) || fresh(b.buffer))
    ensures ok <==> Step(old(b.View()), op).Done?
    ensures ok ==> b.View() == Step(old(b.View()), op).layout && taken == Step(old(b.View()), op).taken
  {
    hide SlidingFits, Layout.Appended, Layout.Filled;
    ok, taken := true, [];
    match op
    case Put(bytes) => ok := b.Append(bytes);
    case Fill(waiting) =>
      var more := if |waiting| <= b.ReadLimit() then waiting else waiting[..b.ReadLimit()];
      if |more| > b.WriteableBytes() {
        AppendAbortsIff(|more| - b.WriteableBytes(), 0, b.PrependableBytes());
      }
      var n;
      n, ok := b.ReadFD(Received(more));
    case Push(bytes) =>
      ok := |bytes| <= b.PrependableBytes();
      if ok { b.Prepend(bytes); }
    case Take(n) =>
      ok := n <= b.ReadableBytes();
      if ok { taken := b.RetrieveAsString(n); }
    case TakeAll => taken := b.RetrieveAllAsString();
  }

  /** A run of the buffer in which the wrap-around is reached: fill it, prepend one byte, append one byte. */
  method PrependThenAppendAborts(filling: Bytes) returns (ok: bool)
    requires |filling| == 1024
    ensures !ok
  {
    var b := new NetBuffer(INITIAL_BUFFER_SIZE);
    var first := b.Append(filling);
    b.Prepend("p");
    AppendAbortsIff(1, b.WriteableBytes(), b.PrependableBytes());
    ok := b.Append("a");
  }
}
