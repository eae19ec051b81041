/**
  A Connector, the TcpClient that owns it and the phases of their loop, as a value.

  The loop thread alternates between handlers and a batch of queued tasks; a task queued in the handlers runs in
  the batch of the same iteration.  A socket is named by the order of its creation.  The calls of user code and
  the reports of the kernel are events; an event that is not possible changes nothing.
*/
module ConnectorState {
  const RETRY_DELAY_MS: nat := 500
  const MAX_RETRY_DELAY_MS: nat := 30000

  datatype SocketState = DISCONNECTED | CONNECTING | CONNECTED

  /** Who is responsible for a socket: the channel of the connector, nobody any more, the connection. */
  datatype Status = Held | Closed | Handed

  datatype Channel = NoChannel | Channel(fd: nat, registered: bool)

  /** The retry timer and the number of batches that end before it is due, if its delay is longer than what is left
      of the iteration that arms it and, if it is armed in a batch, than the next iteration as well. */
  datatype Timer = NoTimer | Armed(batches: nat)

  datatype Task = StartTask | StopTask | ResetTask | CloseTask(fd: nat)

  datatype Option<T> = None | Some(value: T)

  /** What connect(2) reports. */
  datatype Errno =
    | OK | EINPROGRESS | EINTR | EISCONN
    | EAGAIN | EADDRINUSE | EADDRNOTAVAIL | ECONNREFUSED | ENETUNREACH
    | EACCES | EPERM | EAFNOSUPPORT | EALREADY | EBADF | EFAULT | ENOTSOCK | EOTHER

  /** What the socket turns out to be when it becomes writable. */
  datatype Attempt = SocketError | SelfConnect | Established

  datatype Connector = Connector(
    state: SocketState,
    channel: Channel,
    connect: bool,
    retryDelay: nat,
    timer: Timer,
    inBatch: bool,
    batch: seq<Task>,         // what is left of the batch being run
    pending: seq<Task>,
    fds: seq<Status>,
    clientConnect: bool,      // TcpClient::connect_
    clientRetry: bool,        // TcpClient::retry_
    connection: Option<nat>,  // TcpClient::connection_
    newborn: bool,            // the connection was made in the current iteration
    started: bool,            // history: TcpClient::connect has been called
    gaveUp: bool,             // history: the last attempt failed for good
    delays: seq<nat>,         // history: the delays of the retries since the last restart
    failed: bool)             // an assertion failed, a socket was closed twice, or two timers were outstanding

  datatype Event =
    | Start(own: bool, errno: Errno)
    | Stop
    | Disconnect
    | EnableRetry
    | ForceClose
    | Fire(errno: Errno)
    | Dispatch(writable: bool, error: bool, attempt: Attempt)
    | Lost(errno: Errno)
    | Swap
    | RunTask(errno: Errno)
    | EndBatch

  function Queue(s: Connector, task: Task): Connector { s.(pending := s.pending + [task]) }

  /* ---------------------------------- the connector ---------------------------------- */

  function Settle(s: Connector, fd: nat, status: Status): Connector {
    if fd < |s.fds| && s.fds[fd].Held? then s.(fds := s.fds[fd := status]) else s.(failed := true)
  }

  /** Connector::retry. */
  function Retry(s: Connector, fd: nat): Connector {
    Delay(Settle(s, fd, Closed).(state := DISCONNECTED))
  }

  /** Its second half: arms the retry timer and doubles the delay, if the connector is to connect. */
  function Delay(s: Connector): Connector {
    if !s.connect then s
    else if !s.timer.NoTimer? then s.(failed := true)
    else s.(timer := Armed(if s.inBatch then 2 else 1), delays := s.delays + [s.retryDelay],
            retryDelay := if 2 * s.retryDelay < MAX_RETRY_DELAY_MS then 2 * s.retryDelay else MAX_RETRY_DELAY_MS)
  }

  /** Connector::connecting, with its assertion. */
  function Connecting(s: Connector, fd: nat): Connector {
    if s.channel.NoChannel? then s.(state := CONNECTING, channel := Channel(fd, true)) else s.(failed := true)
  }

  predicate Proceeds(errno: Errno) { errno.OK? || errno.EINPROGRESS? || errno.EINTR? || errno.EISCONN? }

  predicate Retryable(errno: Errno) {
    errno.EAGAIN? || errno.EADDRINUSE? || errno.EADDRNOTAVAIL? || errno.ECONNREFUSED? || errno.ENETUNREACH?
  }

  /** Connector::connect. */
  function Connect(s: Connector, errno: Errno): Connector {
    var fd := |s.fds|;
    var t := s.(fds := s.fds + [Held], gaveUp := false);
    if Proceeds(errno) then Connecting(t, fd)
    else if Retryable(errno) then Retry(t, fd)
    else Settle(t, fd, Closed).(gaveUp := true)
  }

  /** Connector::startInLoop, with its assertion. */
  function StartInLoop(s: Connector, errno: Errno): Connector {
    if !s.state.DISCONNECTED? then s.(failed := true)
    else if s.connect then Connect(s, errno)
    else s
  }

  /** Connector::removeAndResetChannel; the channel must exist. */
  function RemoveAndResetChannel(s: Connector): Connector {
    if s.channel.NoChannel? then s.(failed := true)
    else s.(channel := Channel(s.channel.fd, false), pending := s.pending + [ResetTask])
  }

  function ChannelFd(s: Connector): nat { if s.channel.NoChannel? then 0 else s.channel.fd }

  /** Connector::stopInLoop. */
  function StopInLoop(s: Connector): Connector {
    if s.state.CONNECTING? then Retry(RemoveAndResetChannel(s.(state := DISCONNECTED)), ChannelFd(s)) else s
  }

  /** Connector::handleWrite, with its assertion. */
  function HandleWrite(s: Connector, attempt: Attempt): Connector {
    if s.state.CONNECTING? then
      var t := RemoveAndResetChannel(s);
      if !attempt.Established? then Retry(t, ChannelFd(s))
      else if s.connect then NewConnection(t.(state := CONNECTED), ChannelFd(s))
      else Settle(t.(state := CONNECTED), ChannelFd(s), Closed)
    else if s.state.DISCONNECTED? then s
    else s.(failed := true)
  }

  /** Connector::handleError. */
  function HandleError(s: Connector): Connector {
    if s.state.CONNECTING? then Retry(RemoveAndResetChannel(s), ChannelFd(s)) else s
  }

  /** Connector::restart. */
  function Restart(s: Connector, errno: Errno): Connector {
    StartInLoop(s.(state := DISCONNECTED, retryDelay := RETRY_DELAY_MS, delays := [], connect := true), errno)
  }

  /* ---------------------------------- its client ---------------------------------- */

  /** TcpClient::newConnection. */
  function NewConnection(s: Connector, fd: nat): Connector {
    Settle(s, fd, Handed).(connection := Some(fd), newborn := true)
  }

  /** TcpClient::removeConnection, with its assertion. */
  function RemoveConnection(s: Connector, fd: nat, errno: Errno): Connector {
    var t := s.(connection := None);
    if s.connection != Some(fd) then s.(failed := true)
    else if s.clientRetry && s.clientConnect then Restart(t, errno)
    else t
  }

  /* ---------------------------------- events ---------------------------------- */

  function Execute(s: Connector, task: Task, errno: Errno): Connector {
    match task
    case StartTask => StartInLoop(s, errno)
    case StopTask => StopInLoop(s)
    case ResetTask => s.(channel := NoChannel)
    case CloseTask(fd) => if s.connection == Some(fd) then RemoveConnection(s, fd, errno) else s
  }

  function Older(timer: Timer): Timer {
    if timer.Armed? && timer.batches > 0 then Armed(timer.batches - 1) else timer
  }

  function Step(s: Connector, e: Event): Connector {
    match e
    case Start(own, errno) =>
      var t := s.(started := true, clientConnect := true, connect := true);
      if own then StartInLoop(t, errno) else Queue(t, StartTask)
    case Stop => Queue(s.(clientConnect := false, connect := false), StopTask)
    case Disconnect => s.(clientConnect := false)
    case EnableRetry => s.(clientRetry := true)
    case ForceClose => if s.connection.None? then s else Queue(s, CloseTask(s.connection.value))
    case Fire(errno) =>
      if !s.inBatch && s.timer.Armed? then StartInLoop(s.(timer := NoTimer), errno) else s
    case Dispatch(writable, error, attempt) =>
      if s.inBatch || s.channel.NoChannel? || !s.channel.registered then s
      else
        var t := if writable then HandleWrite(s, attempt) else s;
        if error then HandleError(t) else t
    case Lost(errno) =>
      if s.inBatch || s.connection.None? || s.newborn then s else RemoveConnection(s, s.connection.value, errno)
    case Swap => if s.inBatch then s else s.(inBatch := true, batch := s.pending, pending := [])
    case RunTask(errno) =>
      if !s.inBatch || s.batch == [] then s else Execute(s.(batch := s.batch[1..]), s.batch[0], errno)
    case EndBatch =>
      if !s.inBatch || s.batch != [] then s
      else s.(inBatch := false, newborn := false, timer := Older(s.timer))
  }

  function Run(s: Connector, events: seq<Event>): Connector
    decreases |events|
  {
    if events == [] then s else Run(Step(s, events[0]), events[1..])
  }

  /** A client and its connector as their constructors leave them. */
  predicate New(s: Connector) {
    && s.state.DISCONNECTED? && s.channel.NoChannel? && !s.connect && s.retryDelay == RETRY_DELAY_MS && s.timer.NoTimer?
    && !s.inBatch && s.batch == s.pending == [] && s.fds == [] && s.clientConnect && !s.clientRetry
    && s.connection.None? && !s.newborn && !s.started && !s.gaveUp && s.delays == [] && !s.failed
  }
}
