/**
  TcpConnection as an object that owns its two NetBuffers.  `conn` is the value of TcpState that the object goes
  through; Valid() ties every field and both buffers to it.  The kernel's side of the socket and the callbacks
  appear as logs.
*/
module TcpConnections {
  import opened ByteStrings
  import opened NetBuffers
  import ByteQueues
  import opened TcpState
  import opened TcpProperties
  import EpollState

  /** How many bytes the calls send. */
  function Volume(calls: seq<Call>): nat
    decreases |calls|
  {
    if calls == [] then 0 else (if calls[0].Send? then |calls[0].message| else 0) + Volume(calls[1..])
  }

  lemma VolumeSplit(calls: seq<Call>)
    requires calls != []
    ensures Volume(calls) == Volume([calls[0]]) + Volume(calls[1..])
  {
  }

  class TcpConnection {
    const inputBuffer: NetBuffer
    const outputBuffer: NetBuffer
    var socketState: SocketState
    var channelState: EpollState.EventState
    var reading: bool
    var writing: bool
    var tasks: seq<Task>
    var removals: nat
    var wire: Bytes
    var shutWrites: nat
    var ups: nat
    var downs: nat
    ghost var conn: Conn

    /** The objects a connection owns. */
    ghost function Repr(): set<object>
      reads this, inputBuffer, outputBuffer
    {
      {this, inputBuffer, outputBuffer, inputBuffer.buffer, outputBuffer.buffer}
    }

    ghost predicate Buffers()
      reads this, inputBuffer, outputBuffer, inputBuffer.buffer, outputBuffer.buffer
    {
      && inputBuffer != outputBuffer && inputBuffer.buffer != outputBuffer.buffer
      && inputBuffer.Valid() && outputBuffer.Valid()
      && inputBuffer.readIndex >= ByteQueues.RESERVED_PREPEND_SIZE
      && outputBuffer.readIndex >= ByteQueues.RESERVED_PREPEND_SIZE
      && inputBuffer.Contents() == conn.input && outputBuffer.Contents() == conn.output
    }

    ghost predicate Fields()
      reads this
    {
      && socketState == conn.state && channelState == conn.channel && reading == conn.reading && writing == conn.writing
      && tasks == conn.tasks && removals == conn.removals
      && wire == conn.wire && shutWrites == conn.shutWrites && ups == conn.ups && downs == conn.downs
    }

    ghost predicate Valid()
      reads this, inputBuffer, outputBuffer, inputBuffer.buffer, outputBuffer.buffer
    {
      Fields() && Buffers() && Sound(conn)
    }

    constructor ()
      ensures Valid() && New(conn) && fresh(Repr())
    {
      inputBuffer := new NetBuffer(ByteQueues.INITIAL_BUFFER_SIZE);
      outputBuffer := new NetBuffer(ByteQueues.INITIAL_BUFFER_SIZE);
      socketState, channelState, reading, writing := CONNECTING, EpollState.NEW, false, false;
      tasks, removals, wire, shutWrites, ups, downs := [], 0, [], 0, 0, 0;
      conn := Conn(CONNECTING, EpollState.NEW, false, false, [], [], [], 0, [], [], [], [], 0, 0, 0, false);
    }

    /** The mask updates of the channel. */
    method Update(read: bool, write: bool)
      modifies this`reading, this`writing, this`channelState
      ensures reading == read && writing == write && channelState == Updated(old(channelState), read || write)
    {
      reading, writing := read, write;
      channelState := Updated(channelState, read || write);
    }

    method ConnectionEstablish()
      requires Valid() && conn.state.CONNECTING?
      modifies this
      ensures Valid() && conn == TcpState.ConnectionEstablish(old(conn))
    {
      StepSound(conn, Establish);
      assert socketState == CONNECTING;
      socketState := CONNECTED;
      Update(true, writing);
      ups := ups + 1;
      conn := TcpState.ConnectionEstablish(conn);
    }

    /** A connection that is destroyed while it is up. */
    method Disconnect()
      requires Fields() && Buffers()
      modifies this
      ensures Fields() && Buffers()
      ensures conn == Interest(old(conn).(state := DISCONNECTED), false, false).(downs := old(conn).downs + 1)
    {
      socketState := DISCONNECTED;
      Update(false, false);
      downs := downs + 1;
      conn := Interest(conn.(state := DISCONNECTED), false, false).(downs := downs);
    }

    method ConnectionDestory()
      requires Valid() && !conn.state.DISCONNECTING?
      modifies this
      ensures Valid() && conn == TcpState.ConnectionDestory(old(conn))
    {
      hide Sound, Interest;
      DestroyIsSoundIff(conn);
      if socketState == CONNECTED {
        Disconnect();
      }
      channelState := EpollState.NEW;
      conn := conn.(channel := EpollState.NEW);
    }

    /** In the branch that writes at once, ::write(fd, message, len) would be called. */
    method SendInLoop(message: Bytes, direct: int)
      requires Valid() && !conn.state.CONNECTING? && outputBuffer.buffer.Length + |message| < MAX_SIZE
      modifies Repr()
      ensures Valid() && conn == TcpState.SendInLoop(old(conn), message, direct)
      ensures fresh(Repr() - old(Repr())) && outputBuffer.buffer.Length <= old(outputBuffer.buffer.Length) + |message|
    {
      SendInLoopSound(conn, message, direct);
      if socketState != DISCONNECTED {
        var remaining := |message|;
        if writing && outputBuffer.ReadableBytes() == 0 {
          assert false;
        }
        if remaining > 0 {
          var ok := outputBuffer.Append(message);
          assert ok;
          if !writing {
            Update(reading, true);
          }
        }
      }
      conn := TcpState.SendInLoop(conn, message, direct);
    }

    /** TcpConnection::send; another thread only leaves a task. */
    method Send(message: Bytes, isInLoopThread: bool, direct: int)
      requires Valid() && outputBuffer.buffer.Length + |message| < MAX_SIZE
      modifies Repr()
      ensures Valid() && conn == Perform(old(conn), Call.Send(message, isInLoopThread, direct))
      ensures fresh(Repr() - old(Repr())) && outputBuffer.buffer.Length <= old(outputBuffer.buffer.Length) + |message|
    {
      ghost var call := Call.Send(message, isInLoopThread, direct);
      PerformSound(conn, call);
      if socketState == CONNECTED {
        if isInLoopThread {
          SendInLoop(message, direct);
        } else {
          tasks := tasks + [SendTask(message)];
          conn := Perform(conn, call);
        }
      }
    }

    /** The overload that takes the contents of a buffer of the caller. */
    method SendBuffer(buf: NetBuffer, isInLoopThread: bool, direct: int)
      requires Valid() && buf.Valid() && {buf, buf.buffer} !! Repr()
      requires outputBuffer.buffer.Length + |buf.Contents()| < MAX_SIZE
      modifies Repr(), buf
      ensures Valid() && buf.Valid()
      ensures conn == Perform(old(conn), Call.Send(old(buf.Contents()), isInLoopThread, direct))
      ensures buf.Contents() == if old(conn).state.CONNECTED? then [] else old(buf.Contents())
    {
      var open := socketState == CONNECTED;
      var message := buf.buffer[buf.readIndex..buf.writeIndex];
      Send(message, isInLoopThread, direct);
      if open {
        buf.RetrieveAll();
      }
    }

    method ShutdownInLoop()
      requires Fields()
      modifies this`shutWrites, this`conn
      ensures Fields() && conn == TcpState.ShutdownInLoop(old(conn))
    {
      if !writing {
        shutWrites := shutWrites + 1;
      }
      conn := TcpState.ShutdownInLoop(conn);
    }

    method Shutdown(isInLoopThread: bool)
      requires Valid()
      modifies this
      ensures Valid() && conn == Perform(old(conn), Call.Shutdown(isInLoopThread))
    {
      PerformSound(conn, Call.Shutdown(isInLoopThread));
      ghost var after := Perform(conn, Call.Shutdown(isInLoopThread));
      if socketState == CONNECTED {
        socketState := DISCONNECTING;
        conn := conn.(state := DISCONNECTING);
        if isInLoopThread {
          ShutdownInLoop();
        } else {
          tasks := tasks + [ShutdownTask];
        }
      }
      conn := after;
    }

    method ForceClose()
      requires Valid()
      modifies this
      ensures Valid() && conn == Perform(old(conn), Call.ForceClose)
    {
      PerformSound(conn, Call.ForceClose);
      if socketState == CONNECTED || socketState == DISCONNECTING {
        socketState := DISCONNECTING;
        tasks := tasks + [ForceCloseTask];
      }
      conn := Perform(conn, Call.ForceClose);
    }

    /** closeCallback_ leads to connectionDestory being queued on the loop, possibly by another thread. */
    method HandleClose()
      requires Valid() && Open(conn)
      modifies this
      ensures Valid() && conn == TcpState.HandleClose(old(conn))
    {
      HandleCloseSound(conn);
      assert socketState == CONNECTED || socketState == DISCONNECTING;
      socketState := DISCONNECTED;
      Update(false, false);
      downs := downs + 1;
      removals := removals + 1;
      conn := TcpState.HandleClose(conn);
    }

    method ForceCloseInLoop()
      requires Valid()
      modifies this
      ensures Valid() && conn == TcpState.ForceCloseInLoop(old(conn))
    {
      if socketState == CONNECTED || socketState == DISCONNECTING {
        HandleClose();
      }
    }

    method QueueDestroy()
      requires Valid() && conn.removals > 0
      modifies this
      ensures Valid() && conn == Step(old(conn), Event.QueueDestroy)
    {
      StepSound(conn, Event.QueueDestroy);
      removals := removals - 1;
      tasks := tasks + [DestroyTask];
      conn := Step(conn, Event.QueueDestroy);
    }

    /** What ::write accepts of the readable bytes. */
    method Write(writable: int) returns (n: int)
      requires Fields() && Buffers()
      modifies this`wire
      ensures n == Accepted(conn, writable) && wire == old(wire) + conn.output[..n]
    {
      var readable := outputBuffer.ReadableBytes();
      n := if writable <= 0 || shutWrites > 0 then 0 else if writable < readable then writable else readable;
      wire := wire + outputBuffer.buffer[outputBuffer.readIndex..outputBuffer.readIndex + n];
    }

    /** ::write of the readable bytes, and the retrieval of what it accepted. */
    method WritePending(writable: int) returns (n: int)
      requires Fields() && Buffers()
      modifies this`wire, this`conn, outputBuffer
      ensures Fields() && Buffers() && n == Accepted(old(conn), writable)
      ensures conn == old(conn).(output := old(conn).output[n..], wire := old(conn).wire + old(conn).output[..n])
      ensures outputBuffer.buffer == old(outputBuffer.buffer) && inputBuffer.buffer == old(inputBuffer.buffer)
      ensures inputBuffer.ReadLimit() == old(inputBuffer.ReadLimit())
    {
      n := Write(writable);
      conn := conn.(wire := wire);
      RetrieveOutput(n);
    }

    /** What the kernel accepted leaves the output buffer. */
    method RetrieveOutput(n: nat)
      requires Buffers() && n <= |conn.output|
      modifies this`conn, outputBuffer
      ensures Buffers() && conn == old(conn).(output := old(conn).output[n..])
      ensures outputBuffer.buffer == old(outputBuffer.buffer)
    {
      hide ByteQueues.Layout.Dropped;
      if n > 0 {
        outputBuffer.Retrieve(n);
      }
      conn := conn.(output := conn.output[n..]);
    }

    /** No interest in writing is left when everything has been written. */
    method DisableWriteIfDrained()
      requires Fields() && Buffers()
      modifies this`reading, this`writing, this`channelState, this`conn
      ensures Fields() && Buffers()
      ensures conn == if old(conn).output == [] then Interest(old(conn), old(conn).reading, false) else old(conn)
    {
      if outputBuffer.ReadableBytes() == 0 {
        Update(reading, false);
        conn := Interest(conn, conn.reading, false);
      }
    }

    method HandleWrite(writable: int)
      requires Valid()
      modifies this, outputBuffer
      ensures Valid() && conn == TcpState.HandleWrite(old(conn), writable)
      ensures outputBuffer.buffer == old(outputBuffer.buffer) && inputBuffer.buffer == old(inputBuffer.buffer)
      ensures inputBuffer.ReadLimit() == old(inputBuffer.ReadLimit())
    {
      hide Sound, Accepted, Interest;
      HandleWriteSound(conn, writable);
      if writing {
        var n := WritePending(writable);
        if n > 0 {
          DisableWriteIfDrained();
          if socketState == DISCONNECTING {
            ShutdownInLoop();
          }
        } else {
          assert old(conn).output[0..] == old(conn).output && old(conn).wire + [] == old(conn).wire;
          assert conn == old(conn);
        }
      }
    }

    method ReadInput(incoming: Incoming) returns (n: int)
      requires Buffers()
      requires incoming.Received? ==> |incoming.bytes| <= inputBuffer.ReadLimit()
                                      && inputBuffer.buffer.Length + |incoming.bytes| < MAX_SIZE
      modifies this`conn, inputBuffer, inputBuffer.buffer
      ensures Buffers() && (inputBuffer.buffer == old(inputBuffer.buffer) || fresh(inputBuffer.buffer))
      ensures outputBuffer.buffer == old(outputBuffer.buffer)
      ensures incoming.Error? ==> n < 0 && conn == old(conn)
      ensures incoming.Received? ==> n == |incoming.bytes|
      ensures incoming.Received? ==>
                conn == old(conn).(input := old(conn).input + incoming.bytes,
                    received := old(conn).received + incoming.bytes)
    {
      var ok;
      n, ok := inputBuffer.ReadFD(incoming);
      assert ok;
      if incoming.Received? {
        conn := conn.(input := conn.input + incoming.bytes, received := conn.received + incoming.bytes);
      }
    }

    /** A read error is only logged; the end of the stream closes the connection. */
    method HandleRead(incoming: Incoming)
      requires Valid() && Open(conn)
      requires incoming.Received? ==> |incoming.bytes| <= inputBuffer.ReadLimit()
                                      && inputBuffer.buffer.Length + |incoming.bytes| < MAX_SIZE
      modifies Repr()
      ensures Valid() && conn == TcpState.HandleRead(old(conn), incoming)
      ensures fresh(Repr() - old(Repr())) && outputBuffer.buffer == old(outputBuffer.buffer)
    {
      HandleReadSound(conn, incoming);
      hide Sound, TcpState.HandleClose, Buffers;
      var n := ReadInput(incoming);
      if n == 0 {
        assert old(conn).input + [] == old(conn).input && old(conn).received + [] == old(conn).received;
        assert conn == old(conn);
        HandleClose();
      }
    }

    /** A message callback that takes bytes out of the input buffer. */
    method Consume(n: nat) returns (s: Bytes)
      requires Valid() && n <= |conn.input|
      modifies this`conn, inputBuffer
      ensures Valid() && conn == Perform(old(conn), Call.Consume(n)) && s == old(conn).input[..n]
      ensures inputBuffer.buffer == old(inputBuffer.buffer)
    {
      PerformSound(conn, Call.Consume(n));
      ConsumeOnly(conn, n);
      hide Sound, Perform;
      s := inputBuffer.RetrieveAsString(n);
      conn := Perform(conn, Call.Consume(n));
    }

    /** One call of user code, and a callback that makes several. */
    method Invoke(call: Call)
      requires Valid() && outputBuffer.buffer.Length + Volume([call]) < MAX_SIZE
      modifies Repr()
      ensures Valid() && conn == Perform(old(conn), call)
      ensures fresh(Repr() - old(Repr()))
              && outputBuffer.buffer.Length <= old(outputBuffer.buffer.Length) + Volume([call])
    {
      assert [call][1..] == [];
      hide Sound;
      match call
      case Send(message, own, direct) => Send(message, own, direct);
      case Shutdown(own) => Shutdown(own);
      case ForceClose => ForceClose();
      case Consume(n) => if n <= inputBuffer.ReadableBytes() { var s := Consume(n); }
    }

    method InvokeAll(calls: seq<Call>)
      requires Valid() && outputBuffer.buffer.Length + Volume(calls) < MAX_SIZE
      modifies Repr()
      ensures Valid() && conn == PerformAll(old(conn), calls)
      ensures fresh(Repr() - old(Repr()))
      decreases |calls|
    {
      hide Sound, Perform;
      if calls != [] {
        VolumeSplit(calls);
        Invoke(calls[0]);
        InvokeAll(calls[1..]);
      }
    }

    /** The first task that the connection has on its loop is run. */
    method RunTask(direct: int)
      requires Valid() && conn.tasks != []
      requires conn.tasks[0].SendTask? ==> outputBuffer.buffer.Length + |conn.tasks[0].message| < MAX_SIZE
      modifies Repr()
      ensures Valid() && conn == Step(old(conn), Event.RunTask(direct))
      ensures fresh(Repr() - old(Repr()))
    {
      PopSound(conn);
      var task := tasks[0];
      tasks := tasks[1..];
      conn := conn.(tasks := conn.tasks[1..]);
      match task
      case SendTask(message) => SendInLoop(message, direct);
      case ShutdownTask => ShutdownInLoop();
      case ForceCloseTask => ForceCloseInLoop();
      case DestroyTask => ConnectionDestory();
    }

    /** The read callback, and the user's message callback after it. */
    method HandleReadable(incoming: Incoming, calls: seq<Call>)
      requires Valid() && Open(conn)
      requires incoming.Received? ==> |incoming.bytes| <= inputBuffer.ReadLimit()
                                      && inputBuffer.buffer.Length + |incoming.bytes| < MAX_SIZE
      requires outputBuffer.buffer.Length + Volume(calls) < MAX_SIZE
      modifies Repr()
      ensures Valid() && conn == PerformAll(TcpState.HandleRead(old(conn), incoming), calls)
      ensures fresh(Repr() - old(Repr()))
    {
      hide Sound, TcpState.HandleRead, PerformAll, Buffers;
      HandleRead(incoming);
      InvokeAll(calls);
    }

    /** Channel::handleEvents with the four callbacks of the connection; `calls` is what the user's message
        callback does.  It fails where the assertion of handleClose does. */
    method HandleEvents(ready: Ready, writable: int, incoming: Incoming, calls: seq<Call>) returns (ok: bool)
      requires Valid() && conn.channel.ADDED?
      requires incoming.Received? ==> |incoming.bytes| <= inputBuffer.ReadLimit()
                                      && inputBuffer.buffer.Length + |incoming.bytes| < MAX_SIZE
      requires outputBuffer.buffer.Length + Volume(calls) < MAX_SIZE
      modifies Repr()
      ensures ok <==> !ClosesTwice(ready, incoming)
      ensures ok ==> Valid() && conn == Step(old(conn), Dispatch(ready, writable, incoming, calls))
      ensures !ok ==> Step(old(conn), Dispatch(ready, writable, incoming, calls)).failed && socketState == DISCONNECTED
      ensures fresh(Repr() - old(Repr()))
    {
      hide Sound, TcpState.HandleWrite, TcpState.HandleRead, TcpState.HandleClose, PerformAll, Buffers, ClosesTwice;
      OpenIsAdded(conn);
      DispatchFinds(conn, ready, writable, incoming, calls);
      DispatchFailsIff(conn, ready, writable, incoming, calls);
      if ready.pollOut {
        HandleWrite(writable);
      }
      if ready.pollIn || ready.pollPri || ready.pollRdhup {
        HandleReadable(incoming, calls);
      }
      ok := true;
      if ready.pollHup && !ready.pollIn {
        if socketState != CONNECTED && socketState != DISCONNECTING {
          return false;
        }
        HandleClose();
      }
    }
  }
}
