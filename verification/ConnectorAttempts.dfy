/**
  What a client and its connector do with each event: which socket is made, closed or handed over, what is queued and
  what the retry timer is set to, in terms of the error that connect(2) reports.
*/
module ConnectorAttempts {
  import opened ConnectorState
  import opened ConnectorProperties
  import opened ConnectorRuns

  /* ---------------------------------- attempts ---------------------------------- */

  /** The connector waits for its retry timer, with the next delay doubled up to 30 s. */
  function Waiting(s: Connector): Connector {
    s.(state := DISCONNECTED, timer := Armed(if s.inBatch then 2 else 1), delays := s.delays + [s.retryDelay],
       retryDelay := if s.retryDelay <= 15000 then 2 * s.retryDelay else 30000)
  }

  /** An attempt with a new socket: it is under way, or has failed and is tried again later, or has failed for good. */
  function Attempted(s: Connector, errno: Errno): Connector {
    match errno
    case OK | EINPROGRESS | EINTR | EISCONN =>
      s.(fds := s.fds + [Held], gaveUp := false, state := CONNECTING, channel := Channel(|s.fds|, true))
    case EAGAIN | EADDRINUSE | EADDRNOTAVAIL | ECONNREFUSED | ENETUNREACH =>
      Waiting(s.(fds := s.fds + [Closed], gaveUp := false))
    case EACCES | EPERM | EAFNOSUPPORT | EALREADY | EBADF | EFAULT | ENOTSOCK | EOTHER =>
      s.(fds := s.fds + [Closed], gaveUp := true)
  }

  predicate CanAttempt(s: Connector, errno: Errno) {
    s.state.DISCONNECTED? && s.timer.NoTimer? && s.connect
    && (errno.OK? || errno.EINPROGRESS? || errno.EINTR? || errno.EISCONN? ==> s.channel.NoChannel?)
  }

  lemma DelayDoes(s: Connector)
    requires s.state.DISCONNECTED? && s.timer.NoTimer?
    ensures Delay(s) == if s.connect then Waiting(s) else s
  {
  }

  lemma AttemptDoes(s: Connector, errno: Errno)
    requires CanAttempt(s, errno)
    ensures StartInLoop(s, errno) == Attempted(s, errno)
  {
    var t := s.(fds := s.fds + [Held], gaveUp := false);
    var u := s.(fds := s.fds + [Closed], gaveUp := false);
    assert t.fds[|s.fds| := Closed] == s.fds + [Closed];
    assert Settle(t, |s.fds|, Closed) == u;
    DelayDoes(u);
    hide Delay, Settle, Waiting;
    assert u.(state := DISCONNECTED) == u;
  }

  /** A start when nothing is under way. */
  lemma StartDoes(s: Connector, own: bool, errno: Errno)
    requires Inv(s) && CanStart(s, own)
    ensures var t := s.(started := true, clientConnect := true, connect := true);
            Step(s, Start(own, errno)) ==
            if own then Attempted(t, errno) else t.(pending := s.pending + [StartTask])
  {
    if own { AttemptDoes(s.(started := true, clientConnect := true, connect := true), errno); }
    hide StartInLoop, Attempted;
  }

  /** The retry timer. */
  lemma FireDoes(s: Connector, errno: Errno)
    requires Inv(s) && !s.inBatch && s.timer.Armed? && !FiresEarly(s, errno)
    ensures var t := s.(timer := NoTimer);
            Step(s, Fire(errno)) == if s.connect then Attempted(t, errno) else t
  {
    if s.connect { AttemptDoes(s.(timer := NoTimer), errno); }
    hide Attempted, Connect;
  }

  /* ---------------------------------- losing a connection ---------------------------------- */

  /** The connection is gone.  A client that is to retry and still connects makes a new attempt at once, with the delay
      back at half a second; otherwise nothing else happens. */
  function Gone(s: Connector, errno: Errno): Connector {
    if s.clientRetry && s.clientConnect
    then Attempted(s.(connection := None, state := DISCONNECTED, connect := true, retryDelay := 500, delays := []),
                   errno)
    else s.(connection := None)
  }

  lemma RemovedIsGone(s: Connector, fd: nat, errno: Errno)
    requires Inv(s) && s.connection == Some(fd) && s.channel.NoChannel?
    ensures RemoveConnection(s, fd, errno) == Gone(s, errno)
  {
    var t := s.(connection := None, state := DISCONNECTED, connect := true, retryDelay := 500, delays := []);
    if s.clientRetry && s.clientConnect { AttemptDoes(t, errno); }
    hide StartInLoop, Attempted;
  }

  /** A connection lost in the handlers. */
  lemma LossDoes(s: Connector, errno: Errno)
    requires Inv(s) && s.connection.Some? && !s.inBatch && !s.newborn
    ensures Step(s, Lost(errno)) == Gone(s, errno)
  {
    LostInv(s, errno);
    RemovedIsGone(s, s.connection.value, errno);
    hide Inv, RemoveConnection, Gone;
  }

  /** And one that a queued close closes. */
  lemma CloseDoes(s: Connector, errno: Errno)
    requires Inv(s) && s.connection.Some? && s.batch != [] && s.batch[0] == CloseTask(s.connection.value)
    ensures Execute(s.(batch := s.batch[1..]), s.batch[0], errno) == Gone(s.(batch := s.batch[1..]), errno)
  {
    QueuedCloseFindsReset(s);
    PopFacts(s);
    RemovedIsGone(s.(batch := s.batch[1..]), s.connection.value, errno);
    hide Inv, RemoveConnection, Gone;
  }

  /** So a client that is to retry has a new socket under way, or its retry timer is armed for half a second, unless
      the error is final. */
  lemma LossRestarts(s: Connector, errno: Errno)
    requires Inv(s) && s.connection.Some? && !s.inBatch && !s.newborn && s.clientRetry && s.clientConnect
    ensures var t := Step(s, Lost(errno));
            && t.connection.None? && t.connect && |t.fds| == |s.fds| + 1
            && (errno in {OK, EINPROGRESS, EINTR, EISCONN} ==>
                  t.state.CONNECTING? && t.channel == Channel(|s.fds|, true) && t.fds[|s.fds|].Held?)
            && (errno in {EAGAIN, EADDRINUSE, EADDRNOTAVAIL, ECONNREFUSED, ENETUNREACH} ==>
                  t.state.DISCONNECTED? && t.timer == Armed(1) && t.delays == [500] && t.fds[|s.fds|].Closed?)
            && (errno in {EACCES, EPERM, EAFNOSUPPORT, EALREADY, EBADF, EFAULT, ENOTSOCK, EOTHER} ==>
                  t.state.DISCONNECTED? && t.timer.NoTimer? && t.gaveUp && t.fds[|s.fds|].Closed?)
  {
    LossDoes(s, errno);
    hide Step;
  }

  /* ---------------------------------- the connecting channel ---------------------------------- */

  /** The connecting channel is taken out of the selector, to be reset by a queued function. */
  function TakenOut(s: Connector, fd: nat): Connector {
    s.(channel := Channel(fd, false), pending := s.pending + [ResetTask])
  }

  /** The attempt is over and its socket closed. */
  function Abandoned(s: Connector, fd: nat): Connector
    requires fd < |s.fds|
  {
    var t := TakenOut(s, fd).(state := DISCONNECTED, fds := s.fds[fd := Closed]);
    if s.connect then Waiting(t) else t
  }

  lemma AbandonDoes(s: Connector)
    requires Inv(s) && s.state.CONNECTING?
    ensures Retry(RemoveAndResetChannel(s), ChannelFd(s)) == Abandoned(s, s.channel.fd)
  {
    AbandonShape(s, s.channel.fd);
    DelayDoes(TakenOut(s, s.channel.fd).(state := DISCONNECTED, fds := s.fds[s.channel.fd := Closed]));
    hide Delay, Waiting, Retry, RemoveAndResetChannel;
  }

  /** The connecting channel reports.  A socket that turns out to be connected goes to the client, or is closed if the
      client has stopped meanwhile; an error or a connection to itself ends the attempt. */
  lemma DispatchDoes(s: Connector, writable: bool, error: bool, attempt: Attempt)
    requires Inv(s) && !s.inBatch && s.state.CONNECTING?
    ensures var fd := s.channel.fd;
            var t := TakenOut(s, fd).(state := CONNECTED);
            Step(s, Dispatch(writable, error, attempt)) ==
            if writable && attempt.Established? then
              if s.connect then t.(fds := s.fds[fd := Handed], connection := Some(fd), newborn := true)
              else t.(fds := s.fds[fd := Closed])
            else if writable || error then Abandoned(s, fd)
            else s
  {
    AbandonDoes(s);
    EstablishedShape(s, s.channel.fd);
    assert Abandoned(s, s.channel.fd).state.DISCONNECTED?;
    hide Retry, RemoveAndResetChannel, NewConnection, Settle, Abandoned, TakenOut;
  }

  /** And when there is no connecting channel nothing is dispatched. */
  lemma NothingToDispatch(s: Connector, writable: bool, error: bool, attempt: Attempt)
    requires Inv(s) && !s.state.CONNECTING?
    ensures Step(s, Dispatch(writable, error, attempt)) == s
  {
    hide HandleWrite, HandleError;
  }

  /** The assertions that stop the process: a socket is given up once only, a channel is there to be reset, no write
      callback comes to a connector that is connected, and the connection that is lost is the client's. */
  lemma AssertionsStop(s: Connector, fd: nat, attempt: Attempt, errno: Errno)
    ensures fd >= |s.fds| || !s.fds[fd].Held? ==> Settle(s, fd, Closed) == s.(failed := true)
    ensures s.channel.NoChannel? ==> RemoveAndResetChannel(s) == s.(failed := true)
    ensures s.state.CONNECTED? ==> HandleWrite(s, attempt) == s.(failed := true)
    ensures s.state.DISCONNECTED? ==> HandleWrite(s, attempt) == s
    ensures s.connection != Some(fd) ==> RemoveConnection(s, fd, errno) == s.(failed := true)
  {
    hide Retry, Restart, NewConnection;
  }

  /* ---------------------------------- the queued functions ---------------------------------- */

  lemma TaskDoes(s: Connector, errno: Errno)
    requires Inv(s) && s.inBatch && s.batch != []
    ensures var t := s.(batch := s.batch[1..]);
            Step(s, RunTask(errno)) ==
            match s.batch[0]
            case StartTask => if s.connect then Attempted(t, errno) else t
            case StopTask => if s.state.CONNECTING? then Abandoned(t, s.channel.fd) else t
            case ResetTask => t.(channel := NoChannel)
            case CloseTask(fd) => if s.connection == Some(fd) then Gone(t, errno) else t
  {
    hide Attempted, Abandoned, Gone, StartInLoop, StopInLoop, RemoveConnection;
    var t := s.(batch := s.batch[1..]);
    match s.batch[0]
    case StartTask => QueuedStartDoes(s, errno);
    case StopTask => StopDoes(s);
    case ResetTask =>
    case CloseTask(fd) => if s.connection == Some(fd) { CloseDoes(s, errno); }
  }

  lemma QueuedStartDoes(s: Connector, errno: Errno)
    requires Inv(s) && s.batch != [] && s.batch[0].StartTask?
    ensures var t := s.(batch := s.batch[1..]);
            StartInLoop(t, errno) == if s.connect then Attempted(t, errno) else t
  {
    StartTaskFindsRest(s);
    if s.connect { AttemptDoes(s.(batch := s.batch[1..]), errno); }
    hide Connect, Attempted, Inv;
  }

  lemma StopDoes(s: Connector)
    requires Inv(s) && s.batch != [] && s.batch[0].StopTask?
    ensures var t := s.(batch := s.batch[1..]);
            StopInLoop(t) == if s.state.CONNECTING? then Abandoned(t, s.channel.fd) else t
  {
    PopFacts(s);
    if s.state.CONNECTING? {
      AbandonDoes(s.(batch := s.batch[1..]));
      StopIsAbandon(s.(batch := s.batch[1..]));
    }
    hide Retry, RemoveAndResetChannel, Abandoned;
  }

  /* ---------------------------------- calls and phases ---------------------------------- */

  lemma CallsDo(s: Connector)
    ensures Step(s, Stop) == s.(clientConnect := false, connect := false, pending := s.pending + [StopTask])
    ensures Step(s, Disconnect) == s.(clientConnect := false)
    ensures Step(s, EnableRetry) == s.(clientRetry := true)
    ensures Step(s, ForceClose) ==
            if s.connection.Some? then s.(pending := s.pending + [CloseTask(s.connection.value)]) else s
  {
  }

  /** The batch takes over what is pending; its end ends the iteration, and a retry timer comes nearer. */
  lemma PhasesDo(s: Connector)
    ensures !s.inBatch ==> Step(s, Swap) == s.(inBatch := true, batch := s.pending, pending := [])
    ensures s.inBatch && s.batch == [] ==>
              Step(s, EndBatch) ==
              s.(inBatch := false, newborn := false,
                 timer := if s.timer.Armed? && s.timer.batches > 0 then Armed(s.timer.batches - 1) else s.timer)
  {
  }

  /** A lost connection is made again: the new attempt is established and handed over. */
  lemma Reconnects(s: Connector, errno: Errno)
    requires Inv(s) && s.connection.Some? && !s.inBatch && !s.newborn && s.clientRetry && s.clientConnect
    requires errno in {OK, EINPROGRESS, EINTR, EISCONN}
    ensures var t := Run(s, [Lost(errno), Dispatch(true, false, Established)]);
            t.state.CONNECTED? && t.connection == Some(|s.fds|) && t.fds == s.fds + [Handed] && !t.failed
  {
    var u := Step(s, Lost(errno));
    LossDoes(s, errno);
    LostInv(s, errno);
    assert u.state.CONNECTING? && u.channel == Channel(|s.fds|, true) && u.fds == s.fds + [Held] && u.connect;
    DispatchDoes(u, true, false, Established);
    assert (s.fds + [Held])[|s.fds| := Handed] == s.fds + [Handed];
    hide Step, Inv;
    assert [Lost(errno), Dispatch(true, false, Established)][1..] == [Dispatch(true, false, Established)];
    assert [Dispatch(true, false, Established)][1..] == [];
    assert Run(u, [Dispatch(true, false, Established)]) == Run(Step(u, Dispatch(true, false, Established)), []);
  }

  /** A connection that is refused, lost or closed leaves the state of a connection behind exactly if it is refused
      because of a stop, or the client is not to make another one. */
  lemma BecomesSpentIff(s: Connector, errno: Errno)
    requires Inv(s)
    ensures !s.inBatch && s.state.CONNECTING? ==>
              (Spent(Step(s, Dispatch(true, false, Established))) <==> !s.connect)
    ensures !s.inBatch && s.connection.Some? && !s.newborn ==>
              (Spent(Step(s, Lost(errno))) <==> !(s.clientRetry && s.clientConnect))
    ensures s.inBatch && s.connection.Some? && s.batch != [] && s.batch[0] == CloseTask(s.connection.value) ==>
              (Spent(Step(s, RunTask(errno))) <==> !(s.clientRetry && s.clientConnect))
  {
    if !s.inBatch && s.state.CONNECTING? { DispatchDoes(s, true, false, Established); }
    if !s.inBatch && s.connection.Some? && !s.newborn { LossDoes(s, errno); }
    if s.inBatch && s.connection.Some? && s.batch != [] && s.batch[0] == CloseTask(s.connection.value) {
      TaskDoes(s, errno);
    }
    hide Step;
  }
}
