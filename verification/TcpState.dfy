/**
  A TcpConnection as a value: the state of the socket, the interests of its channel, the two buffers as byte
  strings, what it has queued on its loop, and what the kernel and the user's callbacks have seen.

  An event is one atomic step of the loop thread, or one call by another thread.  User callbacks are scripts of
  calls at the point where the source makes the callback.  An event that is not possible changes nothing.
*/
module TcpState {
  import opened ByteStrings
  import opened NetBuffers
  import EpollState

  datatype SocketState = CONNECTING | CONNECTED | DISCONNECTING | DISCONNECTED

  datatype Task = SendTask(message: Bytes) | ShutdownTask | ForceCloseTask | DestroyTask

  datatype Conn = Conn(
    state: SocketState,
    channel: EpollState.EventState,
    reading: bool,
    writing: bool,
    output: Bytes,      // what outputBuffer_ holds
    input: Bytes,       // what inputBuffer_ holds
    tasks: seq<Task>,   // on the loop, in order
    removals: nat,      // calls of closeCallback_ that have not queued connectionDestory yet
    sent: Bytes,        // history: every message passed to sendInLoop
    wire: Bytes,        // history: what the kernel accepted
    received: Bytes,    // history: what the kernel delivered
    consumed: Bytes,    // history: what the user took out of inputBuffer_
    shutWrites: nat,    // history: calls of shutdown(fd, SHUT_WR)
    ups: nat,           // history: connectionCallback_ on establishing
    downs: nat,         // history: connectionCallback_ on closing
    failed: bool)       // an assertion did not hold

  /** A call made by user code; `own` says that the caller is the loop thread.  `direct` is what ::write would
      return in the branch of sendInLoop that writes at once. */
  datatype Call =
    | Send(message: Bytes, own: bool, direct: int)
    | Shutdown(own: bool)
    | ForceClose
    | Consume(n: nat)

  /** The returned events of the channel. */
  datatype Ready = Ready(pollOut: bool, pollErr: bool, pollIn: bool, pollPri: bool, pollRdhup: bool, pollHup: bool)

  datatype Event =
    | Establish
    | User(call: Call)
    | RunTask(direct: int)
    | Dispatch(ready: Ready, writable: int, incoming: Incoming, calls: seq<Call>)
    | QueueDestroy
    | Destroy

  /* ---------------------------------- the channel ---------------------------------- */

  /** The state of a channel after an update with or without interests. */
  function Updated(state: EpollState.EventState, interested: bool): EpollState.EventState {
    if state.ADDED? && !interested then EpollState.DELETED else EpollState.ADDED
  }

  function Interest(c: Conn, reading: bool, writing: bool): Conn {
    c.(reading := reading, writing := writing, channel := Updated(c.channel, reading || writing))
  }

  /* ---------------------------------- sending ---------------------------------- */

  /** TcpConnection::sendInLoop.  The result of ::write is stored in an unsigned variable, so that the error
      branch is never taken and an error would make `remaining` wrap around. */
  function SendInLoop(c: Conn, message: Bytes, direct: int): Conn {
    var d := c.(sent := c.sent + message);
    if c.state.DISCONNECTED? then d
    else if c.writing && c.output == [] then
      var written := direct % SIZE_T;
      var remaining := (|message| - written) % SIZE_T;
      if remaining == 0 then d.(wire := d.wire + message)
      else if written + remaining > |message| then d.(failed := true)
      else Buffered(d.(wire := d.wire + message[..written]), message[written..written + remaining])
    else if message == [] then d
    else Buffered(d, message)
  }

  function Buffered(c: Conn, bytes: Bytes): Conn {
    var d := c.(output := c.output + bytes);
    if c.writing then d else Interest(d, d.reading, true)
  }

  /** TcpConnection::shutdownInLoop. */
  function ShutdownInLoop(c: Conn): Conn {
    if c.writing then c else c.(shutWrites := c.shutWrites + 1)
  }

  /** The kernel takes a prefix of what it is given, and nothing after SHUT_WR. */
  function Accepted(c: Conn, writable: int): nat {
    if writable <= 0 || c.shutWrites > 0 then 0
    else if writable < |c.output| then writable else |c.output|
  }

  /** TcpConnection::handleWrite. */
  function HandleWrite(c: Conn, writable: int): Conn {
    var n := Accepted(c, writable);
    if !c.writing || n == 0 then c
    else
      var d := c.(output := c.output[n..], wire := c.wire + c.output[..n]);
      var e := if d.output == [] then Interest(d, d.reading, false) else d;
      if e.state.DISCONNECTING? then ShutdownInLoop(e) else e
  }

  /* ---------------------------------- closing ---------------------------------- */

  predicate Open(c: Conn) { c.state.CONNECTED? || c.state.DISCONNECTING? }

  /** TcpConnection::handleClose, with its assertion. */
  function HandleClose(c: Conn): Conn {
    if !Open(c) then c.(failed := true)
    else Interest(c.(state := DISCONNECTED), false, false).(downs := c.downs + 1, removals := c.removals + 1)
  }

  function ForceCloseInLoop(c: Conn): Conn {
    if Open(c) then HandleClose(c) else c
  }

  function HandleRead(c: Conn, incoming: Incoming): Conn {
    match incoming
    case Error => c
    case Received(bytes) =>
      if bytes == [] then HandleClose(c)
      else c.(input := c.input + bytes, received := c.received + bytes)
  }

  function ConnectionEstablish(c: Conn): Conn {
    if !c.state.CONNECTING? then c.(failed := true)
    else Interest(c.(state := CONNECTED), true, c.writing).(ups := c.ups + 1)
  }

  /** TcpConnection::connectionDestory. */
  function ConnectionDestory(c: Conn): Conn {
    var d := if c.state.CONNECTED? then Interest(c.(state := DISCONNECTED), false, false).(downs := c.downs + 1) else c;
    d.(channel := EpollState.NEW)
  }

  /* ---------------------------------- events ---------------------------------- */

  function Perform(c: Conn, call: Call): Conn {
    match call
    case Send(message, own, direct) =>
      if !c.state.CONNECTED? then c
      else if own then SendInLoop(c, message, direct)
      else c.(tasks := c.tasks + [SendTask(message)])
    case Shutdown(own) =>
      if !c.state.CONNECTED? then c
      else if own then ShutdownInLoop(c.(state := DISCONNECTING))
      else c.(state := DISCONNECTING, tasks := c.tasks + [ShutdownTask])
    case ForceClose =>
      if !Open(c) then c else c.(state := DISCONNECTING, tasks := c.tasks + [ForceCloseTask])
    case Consume(n) =>
      if n > |c.input| then c else c.(input := c.input[n..], consumed := c.consumed + c.input[..n])
  }

  function PerformAll(c: Conn, calls: seq<Call>): Conn
    decreases |calls|
  {
    if calls == [] then c else PerformAll(Perform(c, calls[0]), calls[1..])
  }

  function RunOne(c: Conn, task: Task, direct: int): Conn {
    match task
    case SendTask(message) => SendInLoop(c, message, direct)
    case ShutdownTask => ShutdownInLoop(c)
    case ForceCloseTask => ForceCloseInLoop(c)
    case DestroyTask => ConnectionDestory(c)
  }

  /** Channel::handleEvents: write, error, read, close, in this order; the message callback comes after a read. */
  function HandleEvents(c: Conn, ready: Ready, writable: int, incoming: Incoming, calls: seq<Call>): Conn {
    var afterWrite := if ready.pollOut then HandleWrite(c, writable) else c;
    var afterRead := if ready.pollIn || ready.pollPri || ready.pollRdhup
                     then PerformAll(HandleRead(afterWrite, incoming), calls) else afterWrite;
    if ready.pollHup && !ready.pollIn then HandleClose(afterRead) else afterRead
  }

  function Step(c: Conn, e: Event): Conn {
    match e
    case Establish => if c.state.CONNECTING? then ConnectionEstablish(c) else c
    case User(call) => Perform(c, call)
    case RunTask(direct) => if c.tasks == [] then c else RunOne(c.(tasks := c.tasks[1..]), c.tasks[0], direct)
    case Dispatch(ready, writable, incoming, calls) =>
      if c.channel.ADDED? then HandleEvents(c, ready, writable, incoming, calls) else c
    case QueueDestroy =>
      if c.removals == 0 then c else c.(removals := c.removals - 1, tasks := c.tasks + [DestroyTask])
    case Destroy => ConnectionDestory(c)
  }

  function Run(c: Conn, events: seq<Event>): Conn
    decreases |events|
  {
    if events == [] then c else Run(Step(c, events[0]), events[1..])
  }

  /** A connection as its constructor leaves it. */
  predicate New(c: Conn) {
    && c.state.CONNECTING? && c.channel.NEW? && !c.reading && !c.writing && !c.failed
    && c.output == c.input == c.sent == c.wire == c.received == c.consumed == [] && c.tasks == []
    && c.removals == c.shutWrites == c.ups == c.downs == 0
  }
}
