/**
  What a TcpConnection does with the calls, the tasks and the dispatches it gets: its streams and its lifecycle in
  terms of the events alone.
*/
module TcpStreams {
  import opened ByteStrings
  import opened NetBuffers
  import opened TcpState
  import opened TcpProperties
  import EpollState

  /* ---------------------------------- single steps ---------------------------------- */

  /** A message goes behind the output buffer, and the channel is interested in writing from then on. */
  function Sending(c: Conn, message: Bytes): Conn {
    if message == [] then c
    else c.(sent := c.sent + message, output := c.output + message, writing := true)
  }

  lemma SendInLoopDoes(c: Conn, message: Bytes, direct: int)
    requires Sound(c) && Open(c)
    ensures SendInLoop(c, message, direct) == Sending(c, message)
  {
    assert message == [] ==> c.sent + message == c.sent;
  }

  /** The direct write, which DirectWriteIsUnreachable excludes, would pass on what the kernel takes and buffer the
      rest; its error, -1, would read past the end of the message. */
  lemma DirectWriteWould(c: Conn, message: Bytes, direct: int)
    requires !c.state.DISCONNECTED? && c.writing && c.output == []
    requires |message| < 0xFFFF_FFFF_FFFF_FFFF && -1 <= direct <= |message|
    ensures SendInLoop(c, message, direct) ==
            if direct < 0 then c.(sent := c.sent + message, failed := true)
            else c.(sent := c.sent + message, wire := c.wire + message[..direct], output := message[direct..])
  {
    if direct < 0 {
      assert direct % SIZE_T == 0xFFFF_FFFF_FFFF_FFFF;
      assert (|message| - 0xFFFF_FFFF_FFFF_FFFF) % SIZE_T == |message| + 1;
    } else {
      assert direct % SIZE_T == direct && (|message| - direct) % SIZE_T == |message| - direct;
      assert message[direct..direct + (|message| - direct)] == message[direct..];
      assert direct == |message| ==> message[..direct] == message && message[direct..] == [];
    }
  }

  /** Calls of user code on a connection in working order. */
  lemma CallDoes(c: Conn, call: Call)
    requires Sound(c)
    ensures Perform(c, call) ==
            match call
            case Send(message, own, _) =>
              if !c.state.CONNECTED? then c
              else if own then Sending(c, message)
              else c.(tasks := c.tasks + [SendTask(message)])
            case Shutdown(own) =>
              if !c.state.CONNECTED? then c
              else if own then c.(state := DISCONNECTING, shutWrites := c.shutWrites + if c.output == [] then 1 else 0)
              else c.(state := DISCONNECTING, tasks := c.tasks + [ShutdownTask])
            case ForceClose =>
              if c.state.CONNECTED? || c.state.DISCONNECTING?
              then c.(state := DISCONNECTING, tasks := c.tasks + [ForceCloseTask]) else c
            case Consume(n) =>
              if n > |c.input| then c else c.(input := c.input[n..], consumed := c.consumed + c.input[..n])
  {
    if call.Send? && c.state.CONNECTED? { SendInLoopDoes(c, call.message, call.direct); }
    hide SendInLoop, Sending;
  }

  /** A connection that handleClose has closed: out of the selector, both callbacks made. */
  function Shut(c: Conn): Conn {
    c.(state := DISCONNECTED, reading := false, writing := false, channel := EpollState.DELETED,
       downs := c.downs + 1, removals := c.removals + 1)
  }

  /** What other threads and forced closes have left on the loop. */
  lemma TaskDoes(c: Conn, direct: int)
    requires Sound(c) && c.tasks != []
    ensures var d := c.(tasks := c.tasks[1..]);
            Step(c, RunTask(direct)) ==
            match c.tasks[0]
            case SendTask(message) =>
              if c.state.DISCONNECTED? then d.(sent := c.sent + message) else Sending(d, message)
            case ShutdownTask => if c.writing then d else d.(shutWrites := c.shutWrites + 1)
            case ForceCloseTask => if c.state.DISCONNECTED? then d else Shut(d)
            case DestroyTask => d.(channel := EpollState.NEW)
  {
    PopSound(c);
    var d := c.(tasks := c.tasks[1..]);
    if c.tasks[0].SendTask? && !c.state.DISCONNECTED? { SendInLoopDoes(d, c.tasks[0].message, direct); }
  }

  /** A writable channel: the kernel takes what it will, writing stops when nothing is left, and a connection that is
      disconnecting then shuts its side down. */
  lemma WriteDoes(c: Conn, writable: int)
    requires Sound(c) && Open(c)
    ensures var all := |c.output|;
            var n := if writable <= 0 || c.shutWrites > 0 then 0 else if writable < all then writable else all;
            HandleWrite(c, writable) ==
            if n == 0 then c
            else c.(output := c.output[n..], wire := c.wire + c.output[..n], writing := n < all,
                    shutWrites := c.shutWrites + if n == all && c.state.DISCONNECTING? then 1 else 0)
  {
  }

  /** A readable one: bytes come in, and the end of the stream closes. */
  lemma ReadDoes(c: Conn, incoming: Incoming)
    requires Sound(c) && Open(c)
    ensures HandleRead(c, incoming) ==
            match incoming
            case Error => c
            case Received(bytes) =>
              if bytes == [] then Shut(c) else c.(input := c.input + bytes, received := c.received + bytes)
  {
  }

  /** Establishing, and destroying by the owner. */
  lemma OwnerDoes(c: Conn)
    requires Sound(c)
    ensures c.state.CONNECTING? ==>
              Step(c, Establish) ==
              c.(state := CONNECTED, reading := true, channel := EpollState.ADDED, ups := c.ups + 1)
    ensures !c.state.CONNECTING? ==> ConnectionEstablish(c) == c.(failed := true)
    ensures c.removals > 0 ==>
              Step(c, QueueDestroy) == c.(removals := c.removals - 1, tasks := c.tasks + [DestroyTask])
    ensures Step(c, Destroy) ==
            if c.state.CONNECTED?
            then c.(state := DISCONNECTED, reading := false, writing := false, channel := EpollState.NEW,
                    downs := c.downs + 1)
            else c.(channel := EpollState.NEW)
  {
  }

  /* ---------------------------------- the output stream ---------------------------------- */

  /** The messages that the calls of one callback pass to sendInLoop at once: those of the loop thread as long as the
      connection is up. */
  function PassedByCalls(up: bool, calls: seq<Call>): Bytes
    decreases |calls|
  {
    if calls == [] then []
    else
      match calls[0]
      case Send(message, own, _) => (if up && own then message else []) + PassedByCalls(up, calls[1..])
      case Shutdown(_) => PassedByCalls(false, calls[1..])
      case ForceClose => PassedByCalls(false, calls[1..])
      case Consume(_) => PassedByCalls(up, calls[1..])
  }

  predicate ReadsStream(ready: Ready) { ready.pollIn || ready.pollPri || ready.pollRdhup }

  /** The bytes that an event passes to sendInLoop. */
  function Passed(c: Conn, e: Event): Bytes {
    match e
    case User(call) => PassedByCalls(c.state.CONNECTED?, [call])
    case RunTask(_) => if c.tasks != [] && c.tasks[0].SendTask? then c.tasks[0].message else []
    case Dispatch(ready, _, incoming, calls) =>
      if c.channel.ADDED? && ReadsStream(ready)
      then PassedByCalls(c.state.CONNECTED? && incoming != Received([]), calls) else []
    case _ => []
  }

  function AllPassed(c: Conn, events: seq<Event>): Bytes
    decreases |events|
  {
    if events == [] then [] else Passed(c, events[0]) + AllPassed(Step(c, events[0]), events[1..])
  }

  function OnePassed(up: bool, call: Call): Bytes { if call.Send? && call.own && up then call.message else [] }

  lemma SendPasses(c: Conn, message: Bytes, direct: int)
    ensures SendInLoop(c, message, direct).sent == c.sent + message
    ensures SendInLoop(c, message, direct).state == c.state
  {
  }

  lemma CallPasses(c: Conn, call: Call)
    ensures var d := Perform(c, call);
            && d.sent == c.sent + OnePassed(c.state.CONNECTED?, call)
            && (d.state.CONNECTED? <==> c.state.CONNECTED? && !call.Shutdown? && !call.ForceClose?)
  {
    if call.Send? { SendPasses(c, call.message, call.direct); }
    hide SendInLoop;
    assert c.sent + [] == c.sent;
  }

  lemma {:induction false} CallsPass(c: Conn, calls: seq<Call>)
    ensures PerformAll(c, calls).sent == c.sent + PassedByCalls(c.state.CONNECTED?, calls)
    decreases |calls|
  {
    if calls == [] {
      assert c.sent + [] == c.sent;
    } else {
      CallPasses(c, calls[0]);
      var d := Perform(c, calls[0]);
      hide Perform;
      CallsPass(d, calls[1..]);
      var one, up := OnePassed(c.state.CONNECTED?, calls[0]), d.state.CONNECTED?;
      assert c.sent + one + PassedByCalls(up, calls[1..]) == c.sent + (one + PassedByCalls(up, calls[1..]));
      assert [] + PassedByCalls(up, calls[1..]) == PassedByCalls(up, calls[1..]);
    }
  }

  lemma OthersPassNothing(c: Conn, writable: int, incoming: Incoming)
    ensures HandleWrite(c, writable).sent == c.sent && HandleWrite(c, writable).state == c.state
    ensures HandleRead(c, incoming).sent == c.sent
    ensures HandleRead(c, incoming).state.CONNECTED? <==> c.state.CONNECTED? && incoming != Received([])
    ensures HandleClose(c).sent == c.sent
  {
  }

  lemma DispatchPasses(c: Conn, ready: Ready, writable: int, incoming: Incoming, calls: seq<Call>)
    ensures HandleEvents(c, ready, writable, incoming, calls).sent ==
            c.sent + if ReadsStream(ready) then PassedByCalls(c.state.CONNECTED? && incoming != Received([]), calls)
                     else []
  {
    hide HandleWrite, HandleRead, HandleClose, PerformAll, PassedByCalls;
    OthersPassNothing(c, writable, incoming);
    var w := if ready.pollOut then HandleWrite(c, writable) else c;
    OthersPassNothing(w, writable, incoming);
    CallsPass(HandleRead(w, incoming), calls);
    OthersPassNothing(PerformAll(HandleRead(w, incoming), calls), writable, incoming);
    assert c.sent + [] == c.sent;
  }

  lemma StepPasses(c: Conn, e: Event)
    ensures Step(c, e).sent == c.sent + Passed(c, e)
  {
    assert c.sent + [] == c.sent;
    match e
    case User(call) =>
      CallPasses(c, call);
      assert [call][1..] == [] && PassedByCalls(false, []) == PassedByCalls(true, []) == [];
      assert OnePassed(c.state.CONNECTED?, call) + [] == OnePassed(c.state.CONNECTED?, call);
      hide Perform;
    case RunTask(direct) => if c.tasks != [] { TaskPasses(c.(tasks := c.tasks[1..]), c.tasks[0], direct); }
    case Dispatch(ready, writable, incoming, calls) => DispatchPasses(c, ready, writable, incoming, calls);
    case _ =>
    hide HandleEvents, RunOne;
  }

  lemma TaskPasses(c: Conn, task: Task, direct: int)
    ensures RunOne(c, task, direct).sent == c.sent + if task.SendTask? then task.message else []
  {
    assert c.sent + [] == c.sent;
    if task.SendTask? { SendPasses(c, task.message, direct); }
    hide SendInLoop;
  }

  /** Over any run, what has been sent is exactly what the calls of the loop thread and the queued messages of other
      threads passed, in the order in which they did; by OutputStreamIntact that is what the kernel has and the output
      buffer holds. */
  lemma {:induction false} SentIsPassed(c: Conn, events: seq<Event>)
    ensures Run(c, events).sent == c.sent + AllPassed(c, events)
    decreases |events|
  {
    if events == [] {
      assert c.sent + [] == c.sent;
    } else {
      StepPasses(c, events[0]);
      var d := Step(c, events[0]);
      hide Step, Passed;
      SentIsPassed(d, events[1..]);
      assert c.sent + Passed(c, events[0]) + AllPassed(d, events[1..])
          == c.sent + (Passed(c, events[0]) + AllPassed(d, events[1..]));
    }
  }

  /* ---------------------------------- the input stream ---------------------------------- */

  /** The bytes that an event brings in. */
  function Arrived(c: Conn, e: Event): Bytes {
    if e.Dispatch? && c.channel.ADDED? && ReadsStream(e.ready) && e.incoming.Received? then e.incoming.bytes else []
  }

  function AllArrived(c: Conn, events: seq<Event>): Bytes
    decreases |events|
  {
    if events == [] then [] else Arrived(c, events[0]) + AllArrived(Step(c, events[0]), events[1..])
  }

  lemma {:induction false} CallsReceiveNothing(c: Conn, calls: seq<Call>)
    ensures PerformAll(c, calls).received == c.received
    decreases |calls|
  {
    if calls != [] { CallsReceiveNothing(Perform(c, calls[0]), calls[1..]); }
  }

  lemma DispatchReceives(c: Conn, ready: Ready, writable: int, incoming: Incoming, calls: seq<Call>)
    ensures HandleEvents(c, ready, writable, incoming, calls).received ==
            c.received + if ReadsStream(ready) && incoming.Received? then incoming.bytes else []
  {
    hide HandleWrite, HandleRead, HandleClose, PerformAll;
    HandlersReceive(c, writable, incoming);
    var w := if ready.pollOut then HandleWrite(c, writable) else c;
    HandlersReceive(w, writable, incoming);
    CallsReceiveNothing(HandleRead(w, incoming), calls);
    HandlersReceive(PerformAll(HandleRead(w, incoming), calls), writable, incoming);
    assert c.received + [] == c.received;
  }

  lemma HandlersReceive(c: Conn, writable: int, incoming: Incoming)
    ensures HandleWrite(c, writable).received == c.received && HandleClose(c).received == c.received
    ensures HandleRead(c, incoming).received == c.received + if incoming.Received? then incoming.bytes else []
  {
    assert c.received + [] == c.received;
  }

  lemma StepReceives(c: Conn, e: Event)
    ensures Step(c, e).received == c.received + Arrived(c, e)
  {
    assert c.received + [] == c.received;
    if e.Dispatch? { DispatchReceives(c, e.ready, e.writable, e.incoming, e.calls); }
    hide HandleEvents;
  }

  /** Over any run, what has been received is exactly what came in while the channel was registered. */
  lemma {:induction false} ReceivedIsArrived(c: Conn, events: seq<Event>)
    ensures Run(c, events).received == c.received + AllArrived(c, events)
    decreases |events|
  {
    if events == [] {
      assert c.received + [] == c.received;
    } else {
      StepReceives(c, events[0]);
      var d := Step(c, events[0]);
      hide Step, Arrived;
      ReceivedIsArrived(d, events[1..]);
      assert c.received + Arrived(c, events[0]) + AllArrived(d, events[1..])
          == c.received + (Arrived(c, events[0]) + AllArrived(d, events[1..]));
    }
  }

  /* ---------------------------------- to the end ---------------------------------- */

  /** When the kernel takes all that is buffered, everything sent is with it, the interest in writing ends, and a
      connection that is disconnecting shuts its side down. */
  lemma DrainDoes(c: Conn, writable: int)
    requires Sound(c) && Open(c) && c.output != [] && c.shutWrites == 0 && writable >= |c.output|
    ensures Step(c, Dispatch(Ready(true, false, false, false, false, false), writable, Error, [])) ==
            c.(output := [], wire := c.sent, writing := false,
               shutWrites := if c.state.DISCONNECTING? then 1 else 0)
  {
    OpenIsAdded(c);
    WriteDoes(c, writable);
    assert c.output[|c.output|..] == [] && c.output[..|c.output|] == c.output;
    hide HandleWrite;
  }

  function Tasks(n: nat): seq<Event> { if n == 0 then [] else [RunTask(0)] + Tasks(n - 1) }

  lemma {:induction false} ForcedCloseRuns(c: Conn, i: nat)
    requires Sound(c) && i < |c.tasks| && c.tasks[i].ForceCloseTask?
    ensures Run(c, Tasks(i + 1)).state.DISCONNECTED?
    decreases i
  {
    TaskDoes(c, 0);
    RunTaskSound(c, 0);
    var d := Step(c, RunTask(0));
    assert Tasks(i + 1)[1..] == Tasks(i);
    hide Sound, Step, Sending, Shut;
    assert Run(c, Tasks(i + 1)) == Run(d, Tasks(i));
    if i > 0 { ForcedCloseRuns(d, i - 1); }
  }

  /** A forced close of an open connection closes it by the time the tasks on its loop have run. */
  lemma ForceCloseCloses(c: Conn)
    requires Sound(c) && Open(c)
    ensures var d := Perform(c, ForceClose); Run(d, Tasks(|c.tasks| + 1)).state.DISCONNECTED?
  {
    PerformSound(c, ForceClose);
    hide Sound;
    ForcedCloseRuns(Perform(c, ForceClose), |c.tasks|);
  }
}
