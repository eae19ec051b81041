/**
  The main results about a client and its connector, over every run.
*/
module ConnectorRuns {
  import opened ConnectorState
  import opened ConnectorProperties

  /* ---------------------------------- safety ---------------------------------- */

  /** The client never starts while something is under way, as long as nothing has failed. */
  ghost predicate Polite(s: Connector, events: seq<Event>)
    decreases |events|
  {
    events == [] ||
    (&& (events[0].Start? ==> CanStart(s, events[0].own))
     && (Legit(s, events[0]) ==> Polite(Step(s, events[0]), events[1..])))
  }

  /** An assertion of the connector or its client fails, a socket is settled twice or a second timer is armed exactly
      when at some point the retry timer expires while the old channel has not been reset and the attempt proceeds. */
  lemma {:induction false} RunFailsIff(s: Connector, events: seq<Event>)
    requires Inv(s) && Polite(s, events)
    ensures Run(s, events).failed <==> !AllLegit(s, events)
    decreases |events|
  {
    if events != [] {
      var e, t := events[0], Step(s, events[0]);
      if Legit(s, e) {
        StepInv(s, e);
        hide Inv, Step, Legit;
        RunFailsIff(t, events[1..]);
      } else {
        FireInv(s, e.errno);
        RunStays(t, events[1..]);
      }
    }
  }

  /** The retry timer expires only when its delay has passed: not before the iteration that armed it is over. */
  ghost predicate InTime(s: Connector, events: seq<Event>)
    decreases |events|
  {
    events == [] ||
    (&& (events[0].Fire? && s.timer.Armed? && !s.inBatch ==> s.timer.batches == 0)
     && InTime(Step(s, events[0]), events[1..]))
  }

  lemma {:induction false} InTimeIsLegit(s: Connector, events: seq<Event>)
    requires Inv(s) && Polite(s, events) && InTime(s, events)
    ensures AllLegit(s, events)
    decreases |events|
  {
    if events != [] {
      assert Legit(s, events[0]);
      StepInv(s, events[0]);
      hide Inv, Step, Legit;
      InTimeIsLegit(Step(s, events[0]), events[1..]);
    }
  }

  /** So with timers that keep their time nothing ever fails, whatever is called and reported. */
  lemma NoRunFails(start: Connector, events: seq<Event>)
    requires New(start) && Polite(start, events) && InTime(start, events)
    ensures !Run(start, events).failed
  {
    InTimeIsLegit(start, events);
    RunFailsIff(start, events);
  }

  /** The phases: connecting means a registered channel and no reset on its way; any other channel is about to be
      reset, once; the timer is outstanding only while disconnected, and when it is due the channel has been reset. */
  lemma PhasesHold(start: Connector, events: seq<Event>)
    requires New(start) && AllLegit(start, events)
    ensures var s := Run(start, events);
            && (s.state.CONNECTING? ==> s.channel.Channel? && s.channel.registered && Resets(s) == 0)
            && (!s.state.CONNECTING? && s.channel.Channel? ==> !s.channel.registered && Resets(s) == 1)
            && (s.timer.Armed? ==> s.state.DISCONNECTED?)
            && (s.timer == Armed(0) && !s.inBatch ==> s.channel.NoChannel?)
  {
    RunInv(start, events);
  }

  /** What startInLoop needs: it fails exactly when the connector is not disconnected, or is to connect while the
      old channel has not been reset, or is to retry while a retry is outstanding. */
  lemma StartInLoopFailsIff(s: Connector, errno: Errno)
    requires !s.failed
    ensures StartInLoop(s, errno).failed <==>
            || !s.state.DISCONNECTED?
            || (s.connect && Proceeds(errno) && s.channel.Channel?)
            || (s.connect && Retryable(errno) && s.timer.Armed?)
  {
    hide Connect;
    if s.connect { ConnectFailsIff(s, errno); }
  }

  lemma ConnectFailsIff(s: Connector, errno: Errno)
    requires !s.failed && s.connect
    ensures Connect(s, errno).failed <==>
            (Proceeds(errno) && s.channel.Channel?) || (Retryable(errno) && s.timer.Armed?)
  {
    hide Retry, Connecting, Settle;
    var t := s.(fds := s.fds + [Held], gaveUp := false);
    RetryFailsIff(t, |s.fds|);
    ConnectingFailsIff(t, |s.fds|);
  }

  lemma RetryFailsIff(s: Connector, fd: nat)
    requires !s.failed && fd < |s.fds| && s.fds[fd].Held?
    ensures Retry(s, fd).failed <==> s.connect && s.timer.Armed?
    ensures !Settle(s, fd, Closed).failed
  {
  }

  lemma ConnectingFailsIff(s: Connector, fd: nat)
    requires !s.failed
    ensures Connecting(s, fd).failed <==> s.channel.Channel?
  {
  }

  /** The retry timer must not expire in the iteration that armed it: after a failed attempt the channel is still
      there, and an attempt that proceeds would fail the assertion. */
  lemma PrematureRetryFails(s: Connector, attempt: Attempt)
    requires Inv(s) && !s.inBatch && s.state.CONNECTING? && s.connect
    ensures var t := Step(s, Dispatch(false, true, attempt));
            t.timer == Armed(1) && FiresEarly(t, EINPROGRESS) && Step(t, Fire(EINPROGRESS)).failed
  {
    var r := RemoveAndResetChannel(s);
    var t := Retry(r, ChannelFd(s));
    assert r.timer.NoTimer? && r.channel.Channel? && r.connect && !r.inBatch;
    RetryArms(r, ChannelFd(s));
    assert Step(s, Dispatch(false, true, attempt)) == t by { hide Retry, RemoveAndResetChannel; }
    AbandonInv(s);
    hide Step, Inv, Retry, RemoveAndResetChannel;
    FireInv(t, EINPROGRESS);
  }

  lemma RetryArms(s: Connector, fd: nat)
    requires s.connect && s.timer.NoTimer?
    ensures var t := Retry(s, fd);
            && t.timer == Armed(if s.inBatch then 2 else 1)
            && t.connect && t.channel == s.channel && t.inBatch == s.inBatch
  {
    SettleKept(s, fd, Closed);
    hide Settle;
  }

  /* ---------------------------------- what every step keeps ---------------------------------- */

  /** Sockets are only added, and a socket that has been closed or handed over stays so. */
  predicate Settled(s: Connector, t: Connector) {
    && |s.fds| <= |t.fds|
    && forall fd | 0 <= fd < |s.fds| :: !s.fds[fd].Held? ==> t.fds[fd] == s.fds[fd]
  }

  /** No socket is added and none is handed over. */
  predicate Quiet(s: Connector, t: Connector) {
    |t.fds| == |s.fds| && forall fd | 0 <= fd < |s.fds| :: t.fds[fd].Handed? ==> s.fds[fd].Handed?
  }

  predicate Stopped(s: Connector) { !s.connect && !s.clientConnect }

  function Pow2(k: nat): nat { if k == 0 then 1 else 2 * Pow2(k - 1) }

  /** The delay before the k-th retry in a row: doubled each time, up to the maximum. */
  function Backoff(k: nat): nat {
    if 500 * Pow2(k) < 30000 then 500 * Pow2(k) else 30000
  }

  predicate Paced(s: Connector) {
    s.retryDelay == Backoff(|s.delays|) && forall i | 0 <= i < |s.delays| :: s.delays[i] == Backoff(i)
  }

  /** What holds between the states before and after any event. */
  predicate Lasting(s: Connector, t: Connector) {
    Settled(s, t) && (Paced(s) ==> Paced(t)) && (s.failed ==> t.failed)
  }

  /** What holds besides unless it is a start. */
  predicate Hushed(s: Connector, t: Connector) { Stopped(s) ==> Stopped(t) && Quiet(s, t) }

  /** Tasks are queued behind those that are there; the batch is left alone. */
  predicate Behind(s: Connector, t: Connector) {
    t.inBatch == s.inBatch && t.batch == s.batch && s.pending <= t.pending
  }

  /** What holds before and after each function of the connector. */
  predicate Kept(s: Connector, t: Connector) { Lasting(s, t) && Hushed(s, t) && Behind(s, t) }

  lemma LastingTrans(s: Connector, t: Connector, u: Connector)
    requires Lasting(s, t) && Lasting(t, u)
    ensures Lasting(s, u)
  {
    hide Paced;
  }

  lemma HushedTrans(s: Connector, t: Connector, u: Connector)
    requires Hushed(s, t) && Hushed(t, u)
    ensures Hushed(s, u)
  {
    hide Stopped;
  }

  lemma KeptTrans(s: Connector, t: Connector, u: Connector)
    requires Kept(s, t) && Kept(t, u)
    ensures Kept(s, u)
  {
    LastingTrans(s, t, u);
    HushedTrans(s, t, u);
    hide Lasting, Hushed;
  }

  lemma BackoffDoubles(k: nat)
    ensures Backoff(k + 1) == if 2 * Backoff(k) < MAX_RETRY_DELAY_MS then 2 * Backoff(k) else MAX_RETRY_DELAY_MS
    ensures Backoff(0) == RETRY_DELAY_MS
  {
    assert Pow2(k + 1) == 2 * Pow2(k) && Pow2(0) == 1;
  }

  /** What concerns neither the sockets nor the flags nor the delays does not matter. */
  lemma OthersKept(s: Connector, t: Connector)
    requires t.fds == s.fds && t.retryDelay == s.retryDelay && t.delays == s.delays
    requires t.connect == s.connect && t.clientConnect == s.clientConnect && (s.failed ==> t.failed) && Behind(s, t)
    ensures Kept(s, t)
  {
  }

  lemma SettleKept(s: Connector, fd: nat, status: Status)
    requires Stopped(s) ==> status.Closed?
    ensures Kept(s, Settle(s, fd, status))
    ensures var t := Settle(s, fd, status); t == s.(fds := t.fds, failed := t.failed)
  {
    hide Backoff;
  }

  lemma DelayPaced(s: Connector)
    ensures Paced(s) ==> Paced(Delay(s))
  {
    hide Backoff;
    BackoffDoubles(|s.delays|);
    if s.connect {
      if s.timer.NoTimer? {
        var t := Delay(s);
        assert t.delays == s.delays + [s.retryDelay];
      }
    }
  }

  lemma DelayKept(s: Connector)
    ensures Kept(s, Delay(s)) && Delay(s).connect == s.connect && Delay(s).state == s.state
    ensures s.connect && s.timer.NoTimer? ==> Delay(s).timer.Armed?
  {
    hide Paced;
    DelayPaced(s);
    if s.connect {
      if s.timer.NoTimer? {
      }
    }
  }

  lemma RetryKept(s: Connector, fd: nat)
    ensures Kept(s, Retry(s, fd))
    ensures var t := Retry(s, fd);
            t.connect == s.connect && t.state.DISCONNECTED? && (s.connect && s.timer.NoTimer? ==> t.timer.Armed?)
  {
    hide Settle, Delay, Kept;
    SettleKept(s, fd, Closed);
    var t := Settle(s, fd, Closed);
    var u := t.(state := DISCONNECTED);
    OthersKept(t, u);
    DelayKept(u);
    KeptTrans(s, t, u);
    KeptTrans(s, u, Delay(u));
  }

  lemma RemoveFacts(s: Connector)
    ensures var t := RemoveAndResetChannel(s);
            t.fds == s.fds && t.retryDelay == s.retryDelay && t.delays == s.delays
            && t.connect == s.connect && t.clientConnect == s.clientConnect && (s.failed ==> t.failed)
  {
    if s.channel.NoChannel? {
    }
  }

  lemma RemoveBehind(s: Connector)
    ensures Behind(s, RemoveAndResetChannel(s))
  {
    if s.channel.NoChannel? {
    }
  }

  lemma RemoveKept(s: Connector)
    ensures Kept(s, RemoveAndResetChannel(s)) && RemoveAndResetChannel(s).connect == s.connect
  {
    hide Kept, RemoveAndResetChannel, Behind;
    RemoveFacts(s);
    RemoveBehind(s);
    OthersKept(s, RemoveAndResetChannel(s));
  }

  lemma AbandonKept(s: Connector)
    ensures Kept(s, Retry(RemoveAndResetChannel(s), ChannelFd(s)))
  {
    hide Retry, RemoveAndResetChannel, Kept;
    RemoveKept(s);
    RetryKept(RemoveAndResetChannel(s), ChannelFd(s));
    KeptTrans(s, RemoveAndResetChannel(s), Retry(RemoveAndResetChannel(s), ChannelFd(s)));
  }

  /** A new connection, or its refusal because of a stop. */
  lemma EstablishedKept(s: Connector, fd: nat)
    ensures Kept(s, if s.connect then NewConnection(s, fd) else Settle(s, fd, Closed))
  {
    hide Settle, Kept;
    SettleKept(s, fd, if s.connect then Handed else Closed);
    if s.connect {
      OthersKept(Settle(s, fd, Handed), NewConnection(s, fd));
      hide NewConnection;
      KeptTrans(s, Settle(s, fd, Handed), NewConnection(s, fd));
    }
  }

  lemma CreatedKept(s: Connector)
    requires s.connect
    ensures Kept(s, s.(fds := s.fds + [Held], gaveUp := false))
  {
    hide Backoff;
  }

  lemma ConnectKept(s: Connector, errno: Errno)
    requires s.connect
    ensures Kept(s, Connect(s, errno))
  {
    hide Kept, Retry, Settle, Connecting, Proceeds, Retryable;
    var t := s.(fds := s.fds + [Held], gaveUp := false);
    CreatedKept(s);
    if Proceeds(errno) {
      ConnectingKept(t, |s.fds|);
      KeptTrans(s, t, Connecting(t, |s.fds|));
    } else if Retryable(errno) {
      RetryKept(t, |s.fds|);
      KeptTrans(s, t, Retry(t, |s.fds|));
    } else {
      GiveUpKept(t, |s.fds|);
      KeptTrans(s, t, Settle(t, |s.fds|, Closed).(gaveUp := true));
    }
  }

  lemma ConnectingKept(s: Connector, fd: nat)
    ensures Kept(s, Connecting(s, fd))
  {
    hide Kept;
    if s.channel.NoChannel? {
    }
    OthersKept(s, Connecting(s, fd));
  }

  lemma GiveUpKept(s: Connector, fd: nat)
    ensures Kept(s, Settle(s, fd, Closed).(gaveUp := true))
  {
    hide Kept, Settle;
    SettleKept(s, fd, Closed);
    var u := Settle(s, fd, Closed);
    OthersKept(u, u.(gaveUp := true));
    KeptTrans(s, u, u.(gaveUp := true));
  }

  lemma StartInLoopKept(s: Connector, errno: Errno)
    ensures Kept(s, StartInLoop(s, errno))
  {
    hide Connect, Kept;
    if s.connect { ConnectKept(s, errno); }
    OthersKept(s, s);
    OthersKept(s, s.(failed := true));
  }

  lemma RestartKept(s: Connector)
    requires s.clientConnect
    ensures Kept(s, s.(connection := None, state := DISCONNECTED, retryDelay := RETRY_DELAY_MS, delays := [],
            connect := true))
  {
    BackoffDoubles(0);
    hide Backoff;
  }

  lemma RemoveConnectionKept(s: Connector, fd: nat, errno: Errno)
    ensures Kept(s, RemoveConnection(s, fd, errno))
  {
    hide StartInLoop, Kept;
    OthersKept(s, s.(failed := true));
    OthersKept(s, s.(connection := None));
    if s.clientConnect {
      var u := s.(connection := None, state := DISCONNECTED, retryDelay := RETRY_DELAY_MS, delays := [],
          connect := true);
      RestartKept(s);
      StartInLoopKept(u, errno);
      KeptTrans(s, u, StartInLoop(u, errno));
    }
  }

  lemma HandleWriteKept(s: Connector, attempt: Attempt)
    ensures Kept(s, HandleWrite(s, attempt))
  {
    hide Retry, RemoveAndResetChannel, Settle, NewConnection, Kept;
    AbandonKept(s);
    OthersKept(s, s);
    OthersKept(s, s.(failed := true));
    RemoveKept(s);
    var t := RemoveAndResetChannel(s);
    var u := t.(state := CONNECTED);
    OthersKept(t, u);
    EstablishedKept(u, ChannelFd(s));
    KeptTrans(s, t, u);
    KeptTrans(s, u, if s.connect then NewConnection(u, ChannelFd(s)) else Settle(u, ChannelFd(s), Closed));
  }

  lemma HandleErrorKept(s: Connector)
    ensures Kept(s, HandleError(s))
  {
    hide Retry, RemoveAndResetChannel, Kept;
    AbandonKept(s);
    OthersKept(s, s);
  }

  lemma StopInLoopKept(s: Connector)
    ensures Kept(s, StopInLoop(s))
  {
    hide Retry, RemoveAndResetChannel, Kept;
    OthersKept(s, s);
    var t := s.(state := DISCONNECTED);
    OthersKept(s, t);
    AbandonKept(t);
    KeptTrans(s, t, Retry(RemoveAndResetChannel(t), ChannelFd(t)));
  }

  lemma ExecuteKept(s: Connector, task: Task, errno: Errno)
    ensures Kept(s, Execute(s, task, errno))
  {
    hide StartInLoop, StopInLoop, RemoveConnection, Kept;
    match task
    case StartTask => StartInLoopKept(s, errno);
    case StopTask => StopInLoopKept(s);
    case ResetTask => OthersKept(s, s.(channel := NoChannel));
    case CloseTask(fd) =>
      OthersKept(s, s);
      RemoveConnectionKept(s, fd, errno);
  }

  lemma DispatchKept(s: Connector, writable: bool, error: bool, attempt: Attempt)
    ensures Kept(s, Step(s, Dispatch(writable, error, attempt)))
  {
    hide HandleWrite, HandleError, Kept;
    OthersKept(s, s);
    HandleWriteKept(s, attempt);
    var t := if writable then HandleWrite(s, attempt) else s;
    HandleErrorKept(t);
    KeptTrans(s, t, HandleError(t));
  }

  lemma QueueKept(s: Connector, task: Task)
    ensures Kept(s, Queue(s, task))
  {
    hide Kept;
    OthersKept(s, Queue(s, task));
  }

  lemma ClearedKept(s: Connector, connect: bool)
    requires connect ==> s.connect
    ensures Kept(s, s.(clientConnect := false, connect := connect))
  {
    hide Backoff;
  }

  /** The events in which user code or another thread calls the client, apart from starts. */
  lemma CallKept(s: Connector, e: Event)
    requires e.Stop? || e.Disconnect? || e.EnableRetry? || e.ForceClose?
    ensures Kept(s, Step(s, e))
  {
    hide Kept, Queue;
    OthersKept(s, s);
    match e
    case Stop =>
      var t := s.(clientConnect := false, connect := false);
      ClearedKept(s, false);
      QueueKept(t, StopTask);
      KeptTrans(s, t, Queue(t, StopTask));
    case Disconnect => ClearedKept(s, s.connect);
    case EnableRetry => OthersKept(s, s.(clientRetry := true));
    case ForceClose => if s.connection.Some? { QueueKept(s, CloseTask(s.connection.value)); }
  }

  lemma FireKept(s: Connector, errno: Errno)
    ensures Kept(s, Step(s, Fire(errno)))
  {
    hide Kept, StartInLoop;
    OthersKept(s, s);
    var t := s.(timer := NoTimer);
    OthersKept(s, t);
    StartInLoopKept(t, errno);
    KeptTrans(s, t, StartInLoop(t, errno));
  }

  lemma LostKept(s: Connector, errno: Errno)
    ensures Kept(s, Step(s, Lost(errno)))
  {
    hide Kept, RemoveConnection;
    OthersKept(s, s);
    if s.connection.Some? { RemoveConnectionKept(s, s.connection.value, errno); }
  }

  /** Neither the change of phase nor the end of a batch matters. */
  lemma PhaseLasts(s: Connector, t: Connector)
    requires t.fds == s.fds && t.retryDelay == s.retryDelay && t.delays == s.delays && t.failed == s.failed
    requires t.connect == s.connect && t.clientConnect == s.clientConnect
    ensures Lasting(s, t) && Hushed(s, t)
  {
  }

  lemma RunTaskLasts(s: Connector, errno: Errno)
    ensures var t := Step(s, RunTask(errno)); Lasting(s, t) && Hushed(s, t)
  {
    hide Execute;
    PhaseLasts(s, s);
    if s.batch != [] {
      var t := s.(batch := s.batch[1..]);
      PhaseLasts(s, t);
      ExecuteKept(t, s.batch[0], errno);
      hide Lasting, Hushed;
      LastingTrans(s, t, Execute(t, s.batch[0], errno));
      HushedTrans(s, t, Execute(t, s.batch[0], errno));
    }
  }

  lemma StartLasts(s: Connector, own: bool, errno: Errno)
    ensures Lasting(s, Step(s, Start(own, errno)))
  {
    hide StartInLoop, Queue, Lasting;
    var t := s.(started := true, clientConnect := true, connect := true);
    StartedLasts(s);
    StartInLoopKept(t, errno);
    QueueKept(t, StartTask);
    LastingTrans(s, t, StartInLoop(t, errno));
    LastingTrans(s, t, Queue(t, StartTask));
  }

  lemma StartedLasts(s: Connector)
    ensures Lasting(s, s.(started := true, clientConnect := true, connect := true))
  {
  }

  lemma StepLasts(s: Connector, e: Event)
    ensures Lasting(s, Step(s, e)) && (!e.Start? ==> Hushed(s, Step(s, e)))
  {
    hide Lasting, Hushed;
    match e
    case Start(own, errno) => StartLasts(s, own, errno);
    case Stop => CallKept(s, e);
    case Disconnect => CallKept(s, e);
    case EnableRetry => CallKept(s, e);
    case ForceClose => CallKept(s, e);
    case Fire(errno) => FireKept(s, errno);
    case Dispatch(writable, error, attempt) => DispatchKept(s, writable, error, attempt);
    case Lost(errno) => LostKept(s, errno);
    case Swap => PhaseLasts(s, Step(s, e));
    case RunTask(errno) => RunTaskLasts(s, errno);
    case EndBatch => PhaseLasts(s, Step(s, e));
  }

  lemma {:induction false} RunLasts(s: Connector, events: seq<Event>)
    ensures Lasting(s, Run(s, events))
    ensures (forall i | 0 <= i < |events| :: !events[i].Start?) ==> Hushed(s, Run(s, events))
    decreases |events|
  {
    if events == [] {
      PhaseLasts(s, s);
    } else {
      var t := Step(s, events[0]);
      StepLasts(s, events[0]);
      hide Step, Lasting, Hushed;
      RunLasts(t, events[1..]);
      LastingTrans(s, t, Run(s, events));
      if forall i | 0 <= i < |events| :: !events[i].Start? {
        assert forall i | 0 <= i < |events| - 1 :: events[1..][i] == events[i + 1];
        HushedTrans(s, t, Run(s, events));
      }
    }
  }

  /** What has failed stays so. */
  lemma RunStays(s: Connector, events: seq<Event>)
    ensures s.failed ==> Run(s, events).failed
  {
    RunLasts(s, events);
  }

  /** Descriptor linearity: at any time a socket is held by the connecting channel, or has been closed, or has
      been handed over; each of the latter is for ever. */
  lemma SocketsHaveOneOwner(start: Connector, before: seq<Event>, after: seq<Event>, fd: nat)
    requires New(start) && AllLegit(start, before) && fd < |Run(start, before).fds|
    ensures var s := Run(start, before); var t := Run(s, after);
            && (s.fds[fd].Held? <==> s.state.CONNECTING? && s.channel == Channel(fd, true))
            && fd < |t.fds| && (s.fds[fd].Closed? ==> t.fds[fd].Closed?) && (s.fds[fd].Handed? ==> t.fds[fd].Handed?)
            && (s.connection == Some(fd) ==> s.fds[fd].Handed?)
  {
    RunInv(start, before);
    RunLasts(Run(start, before), after);
    hide Run, Count, ResetFirst, Paced, AllLegit;
  }

  /** Once TcpClient::stop has been called, and until TcpClient::connect is called again, no attempt is made and no
      connection handed over. */
  lemma StopIsFinal(s: Connector, events: seq<Event>)
    requires forall i | 0 <= i < |events| :: !events[i].Start?
    ensures Quiet(s, Run(Step(s, Stop), events))
  {
    var t := Step(s, Stop);
    assert Stopped(t) && t.fds == s.fds;
    RunLasts(t, events);
    hide Run;
  }

  /** Retries back off: the k-th retry since the last restart waits min(500 * 2^k, 30000) milliseconds. */
  lemma RetriesBackOff(start: Connector, events: seq<Event>)
    requires New(start)
    ensures var s := Run(start, events); forall k | 0 <= k < |s.delays| :: s.delays[k] == Backoff(k)
  {
    BackoffDoubles(0);
    assert Paced(start);
    RunLasts(start, events);
  }

  /* ---------------------------------- starting ---------------------------------- */

  /** Nothing fails in any continuation in which the client stays polite and timers keep their time. */
  ghost predicate SafeFrom(s: Connector) {
    forall events | Polite(s, events) && InTime(s, events) :: !Run(s, events).failed
  }

  /** A start is safe, whatever connect(2) answers and whatever comes afterwards, exactly when nothing is under way
      and no start is queued; at once on the loop thread, or queued by another thread. */
  lemma StartIsSafeIff(s: Connector, own: bool)
    requires Inv(s)
    ensures (forall errno :: SafeFrom(Step(s, Start(own, errno)))) <==> CanStart(s, own)
  {
    hide SafeFrom, Step, CanStart;
    if CanStart(s, own) {
      forall errno ensures SafeFrom(Step(s, Start(own, errno))) { GoodStart(s, own, errno); }
    } else {
      var errno := BadStart(s, own);
      assert !SafeFrom(Step(s, Start(own, errno)));
    }
  }

  lemma GoodStart(s: Connector, own: bool, errno: Errno)
    requires Inv(s) && CanStart(s, own)
    ensures SafeFrom(Step(s, Start(own, errno)))
  {
    StartInv(s, own, errno);
    var t := Step(s, Start(own, errno));
    hide Inv, Step;
    forall events | Polite(t, events) && InTime(t, events) ensures !Run(t, events).failed {
      InTimeIsLegit(t, events);
      RunFailsIff(t, events);
    }
  }

  lemma BadStart(s: Connector, own: bool) returns (errno: Errno)
    requires Inv(s) && !CanStart(s, own)
    ensures !SafeFrom(Step(s, Start(own, errno)))
  {
    errno := if own && s.state.DISCONNECTED? && s.timer.Armed? then EAGAIN else EINPROGRESS;
    var t := Step(s, Start(own, errno));
    if own { OwnStart(s, errno); } else { QueuedStart(s, errno); }
    if !t.failed {
      var k :| Doomed(t, k);
      hide Inv, Step, Doomed;
      var events := DoomedFails(t, k);
      CalmIsPolite(t, events);
    } else {
      assert Polite(t, []) && InTime(t, []) && Run(t, []).failed;
    }
  }

  /** A start fails at once, or meets the next one that is queued. */
  lemma OwnStart(s: Connector, errno: Errno)
    requires Inv(s) && !CanStart(s, true)
    requires errno == if s.state.DISCONNECTED? && s.timer.Armed? then EAGAIN else EINPROGRESS
    ensures var t := Step(s, Start(true, errno)); t.failed || exists k :: Doomed(t, k)
  {
    var u := s.(started := true, clientConnect := true, connect := true);
    var t := Step(s, Start(true, errno));
    StartInLoopFailsIff(u, errno);
    if !t.failed {
      assert Starts(s) > 0;
      StartMeets(u);
      StartInLoopKept(u, errno);
      var k := FindStart(s);
      hide Inv, StartInLoop, Lasting, Hushed, Count;
      assert (s.batch + s.pending)[k] == (t.batch + t.pending)[k];
      assert Doomed(t, k);
    }
  }

  /** A start that is queued will meet what is under way, or an earlier start. */
  lemma QueuedStart(s: Connector, errno: Errno)
    requires Inv(s) && !CanStart(s, false)
    ensures exists k :: Doomed(Step(s, Start(false, errno)), k)
  {
    var t := Step(s, Start(false, errno));
    var q, k := s.batch + s.pending, |s.batch| + |s.pending|;
    assert t.batch + t.pending == q + [StartTask];
    if Starts(s) > 0 {
      var j := FindStart(s);
      assert q[j] in (q + [StartTask])[..k];
    }
    hide Count;
    assert Doomed(t, k);
  }

  lemma FindStart(s: Connector) returns (k: nat)
    requires Starts(s) > 0
    ensures k < |s.batch + s.pending| && (s.batch + s.pending)[k].StartTask?
  {
    if Count(s.batch, StartTask) > 0 {
      k := FindTask(s.batch, StartTask);
    } else {
      k := FindTask(s.pending, StartTask);
      k := |s.batch| + k;
    }
    hide Count;
  }

  lemma FindTask(q: seq<Task>, task: Task) returns (k: nat)
    requires Count(q, task) > 0
    ensures k < |q| && q[k] == task
  {
    if q[0] == task {
      k := 0;
    } else {
      k := FindTask(q[1..], task);
      k := k + 1;
    }
  }

  /** Something is under way. */
  predicate Busy(s: Connector) { !s.state.DISCONNECTED? || s.timer.Armed? }

  /** The connector is to connect, a start is queued at `k`, and it will meet something under way. */
  predicate Doomed(s: Connector, k: nat) {
    var q := s.batch + s.pending;
    && s.connect && (!s.inBatch ==> s.batch == [])
    && k < |q| && q[k].StartTask?
    && (Busy(s) || StartTask in q[..k])
  }

  /** An attempt that proceeds is under way afterwards. */
  lemma StartMeets(s: Connector)
    requires s.connect
    ensures var t := StartInLoop(s, EINPROGRESS); t.failed || (t.connect && t.state.CONNECTING?)
  {
    hide Connecting, Retry, Settle, Retryable;
    ConnectingMeets(s.(fds := s.fds + [Held], gaveUp := false), |s.fds|);
  }

  lemma ConnectingMeets(s: Connector, fd: nat)
    requires s.connect
    ensures var t := Connecting(s, fd); t.failed || (t.connect && t.state.CONNECTING?)
  {
    if s.channel.NoChannel? {
    }
  }

  lemma AbandonMeets(s: Connector, fd: nat)
    requires s.connect
    ensures var t := Retry(s, fd); t.failed || (t.connect && t.timer.Armed?)
  {
    hide Settle;
    SettleKept(s, fd, Closed);
  }

  lemma RestartMeets(s: Connector, fd: nat)
    requires s.connect
    ensures var t := RemoveConnection(s, fd, EINPROGRESS); t.failed || (t.connect && (Busy(s) ==> Busy(t)))
  {
    StartMeets(s.(connection := None, state := DISCONNECTED, retryDelay := RETRY_DELAY_MS, delays := [],
        connect := true));
    hide StartInLoop;
  }

  /** What is under way stays so whatever task runs, if attempts proceed, and a start is under way itself. */
  lemma TaskMeets(s: Connector, task: Task)
    requires s.connect
    ensures var t := Execute(s, task, EINPROGRESS);
            t.failed || (t.connect && (Busy(s) || task.StartTask? ==> Busy(t)))
  {
    hide StartInLoop, StopInLoop, RemoveConnection;
    match task
    case StartTask => StartMeets(s);
    case StopTask => StopMeets(s);
    case ResetTask =>
    case CloseTask(fd) => RestartMeets(s, fd);
  }

  lemma StopMeets(s: Connector)
    requires s.connect
    ensures var t := StopInLoop(s); t.failed || (t.connect && (Busy(s) ==> Busy(t)))
  {
    hide Retry, RemoveAndResetChannel, Kept;
    var t := s.(state := DISCONNECTED);
    RemoveKept(t);
    AbandonMeets(RemoveAndResetChannel(t), ChannelFd(s));
  }

  /** The next task of the batch fails, or brings the start nearer. */
  lemma DoomedTask(s: Connector, k: nat)
    requires Doomed(s, k) && !s.failed && s.inBatch && s.batch != []
    ensures k == 0 ==> Step(s, RunTask(if s.state.DISCONNECTED? then EAGAIN else EINPROGRESS)).failed
    ensures k > 0 ==> var t := Step(s, RunTask(EINPROGRESS)); t.failed || Doomed(t, k - 1)
  {
    hide StartInLoop;
    var u, q := s.(batch := s.batch[1..]), s.batch + s.pending;
    if k == 0 {
      StartInLoopFailsIff(u, if s.state.DISCONNECTED? then EAGAIN else EINPROGRESS);
    } else {
      TaskMeets(u, s.batch[0]);
      ExecuteKept(u, s.batch[0], EINPROGRESS);
      hide Execute, Lasting, Hushed;
      var t := Step(s, RunTask(EINPROGRESS));
      assert forall i | 0 <= i < |q| - 1 :: (t.batch + t.pending)[i] == q[i + 1];
      if StartTask in q[..k] && !s.batch[0].StartTask? {
        var j :| 0 <= j < k && q[j].StartTask?;
        assert (t.batch + t.pending)[..k - 1][j - 1].StartTask?;
      }
    }
  }

  /** Nothing but the phases of the loop. */
  predicate Calm(events: seq<Event>) { forall i | 0 <= i < |events| :: !events[i].Start? && !events[i].Fire? }

  lemma {:induction false} CalmIsPolite(s: Connector, events: seq<Event>)
    requires Calm(events)
    ensures Polite(s, events) && InTime(s, events)
    decreases |events|
  {
    if events != [] {
      assert Calm(events[1..]);
      hide Step;
      CalmIsPolite(Step(s, events[0]), events[1..]);
    }
  }

  lemma {:induction false} DoomedFails(s: Connector, k: nat) returns (events: seq<Event>)
    requires Doomed(s, k)
    ensures Calm(events) && Run(s, events).failed
    decreases k, if !s.inBatch then 1 else if s.batch == [] then 2 else 0
  {
    hide Step, Run, Doomed, Calm;
    if s.failed {
      NoSteps(s);
      return [];
    }
    var e, rest := EndBatch, [];
    if s.inBatch && s.batch != [] {
      DoomedTask(s, k);
      e := RunTask(if k == 0 && s.state.DISCONNECTED? then EAGAIN else EINPROGRESS);
      if Step(s, e).failed {
        NoSteps(Step(s, e));
      } else {
        rest := DoomedFails(Step(s, e), k - 1);
      }
    } else {
      DoomedPhase(s, k);
      e := if s.inBatch then EndBatch else Swap;
      rest := DoomedFails(Step(s, e), k);
    }
    OneStep(s, e, rest);
    events := [e] + rest;
  }

  lemma NoSteps(s: Connector)
    ensures Run(s, []) == s && Calm([])
  {
  }

  lemma OneStep(s: Connector, e: Event, rest: seq<Event>)
    requires Calm(rest) && !e.Start? && !e.Fire?
    ensures Run(s, [e] + rest) == Run(Step(s, e), rest) && Calm([e] + rest)
  {
    hide Step;
    assert ([e] + rest)[1..] == rest;
  }

  lemma DoomedPhase(s: Connector, k: nat)
    requires Doomed(s, k) && (s.inBatch ==> s.batch == [])
    ensures var t := Step(s, if s.inBatch then EndBatch else Swap);
            Doomed(t, k) && (if s.inBatch then !t.inBatch else t.inBatch && t.batch != [])
  {
    assert s.batch + s.pending == s.pending == s.pending + [];
  }

  /** No connection any more, but the state is still that of one. */
  predicate Spent(s: Connector) { s.state.CONNECTED? && s.connection.None? }

  lemma SpentStep(s: Connector, e: Event)
    requires Inv(s) && Spent(s) && !e.Start?
    ensures Legit(s, e) && Spent(Step(s, e))
  {
    hide StartInLoop, HandleWrite, HandleError, RemoveConnection;
  }

  lemma {:induction false} SpentRun(s: Connector, events: seq<Event>)
    requires Inv(s) && Spent(s) && forall i | 0 <= i < |events| :: !events[i].Start?
    ensures AllLegit(s, events) && Spent(Run(s, events))
    decreases |events|
  {
    if events != [] {
      SpentStep(s, events[0]);
      StepInv(s, events[0]);
      hide Inv, Step, Legit, Spent;
      SpentRun(Step(s, events[0]), events[1..]);
    }
  }

  /** Spent, and a start is queued. */
  predicate Stuck(s: Connector) {
    && Spent(s) && s.timer.NoTimer? && (s.channel.Channel? ==> !s.channel.registered)
    && (!s.inBatch ==> s.batch == []) && (StartTask in s.batch || StartTask in s.pending)
  }

  lemma StuckStep(s: Connector, e: Event)
    requires Stuck(s)
    ensures Step(s, e).failed || Stuck(Step(s, e))
  {
    hide HandleWrite, HandleError, RemoveConnection, StartInLoop, Execute, Queue;
    if e.Start? {
      StuckStart(s, e.own, e.errno);
    } else if e.Stop? {
      StuckQueue(s.(clientConnect := false, connect := false));
    } else if e.RunTask? {
      if s.inBatch && s.batch != [] { StuckTask(s, e.errno); }
    } else if e.Swap? || e.EndBatch? {
      StuckPhase(s, e);
    } else {
      StuckIgnores(s, e);
      hide Step;
    }
  }

  lemma StuckIgnores(s: Connector, e: Event)
    requires Stuck(s) && !e.Start? && !e.Stop? && !e.RunTask? && !e.Swap? && !e.EndBatch?
    ensures Step(s, e) == s.(clientConnect := s.clientConnect && !e.Disconnect?,
                             clientRetry := s.clientRetry || e.EnableRetry?)
  {
    hide HandleWrite, HandleError, RemoveConnection, StartInLoop;
  }

  lemma StuckQueue(s: Connector)
    requires Stuck(s)
    ensures Stuck(Queue(s, StopTask))
  {
  }

  lemma StuckPhase(s: Connector, e: Event)
    requires Stuck(s) && (e.Swap? || e.EndBatch?)
    ensures Stuck(Step(s, e))
  {
    if e.Swap? {
    }
  }

  lemma StuckTask(s: Connector, errno: Errno)
    requires Stuck(s) && s.inBatch && s.batch != []
    ensures var t := Execute(s.(batch := s.batch[1..]), s.batch[0], errno); t.failed || Stuck(t)
  {
    hide Execute;
    SpentTask(s.(batch := s.batch[1..]), s.batch[0], errno);
    if !s.batch[0].StartTask? { assert s.batch == [s.batch[0]] + s.batch[1..]; }
  }

  /** A start fails, and no other task does more than reset the channel. */
  lemma SpentTask(s: Connector, task: Task, errno: Errno)
    requires Spent(s)
    ensures task.StartTask? ==> Execute(s, task, errno).failed
    ensures !task.StartTask? ==> Execute(s, task, errno) == if task.ResetTask? then s.(channel := NoChannel) else s
  {
    hide RemoveConnection, Connect, Retry, RemoveAndResetChannel;
    match task
    case StartTask =>
    case StopTask =>
    case ResetTask =>
    case CloseTask(fd) =>
  }

  lemma StuckStart(s: Connector, own: bool, errno: Errno)
    requires Spent(s) && s.timer.NoTimer? && (s.channel.Channel? ==> !s.channel.registered)
    requires !s.inBatch ==> s.batch == []
    ensures var t := Step(s, Start(own, errno)); t.failed || (!own && Stuck(t))
  {
    hide Connect;
    if own {
    }
  }

  lemma {:induction false} StuckRun(s: Connector, events: seq<Event>)
    requires s.failed || Stuck(s)
    ensures Run(s, events).failed || Stuck(Run(s, events))
    decreases |events|
  {
    if events != [] {
      if s.failed {
        RunStays(s, events);
      } else {
        StuckStep(s, events[0]);
        hide Step, Stuck;
        StuckRun(Step(s, events[0]), events[1..]);
      }
    }
  }

  /** From there the client can never connect again: whenever it starts, the start fails at once on the loop thread,
      and fails or is still queued after any events if it comes from another thread. */
  lemma SpentForGood(s: Connector, before: seq<Event>, own: bool, errno: Errno, after: seq<Event>)
    requires Inv(s) && Spent(s) && forall i | 0 <= i < |before| :: !before[i].Start?
    ensures var t := Step(Run(s, before), Start(own, errno)); own ==> t.failed
    ensures var u := Run(Step(Run(s, before), Start(own, errno)), after); u.failed || Stuck(u)
  {
    SpentRun(s, before);
    RunInv(s, before);
    var r := Run(s, before);
    var t := Step(r, Start(own, errno));
    StuckStart(r, own, errno);
    hide Step, Stuck;
    StuckRun(t, after);
  }

  /* ---------------------------------- retrying ---------------------------------- */

  /** A disconnected connector that is to connect has a retry outstanding, or its start is queued, or the last
      attempt failed for good. */
  predicate Trying(s: Connector) {
    s.connect && s.state.DISCONNECTED? ==> s.timer.Armed? || s.gaveUp || Starts(s) > 0
  }

  lemma StartInLoopTries(s: Connector, errno: Errno)
    requires s.state.DISCONNECTED? && s.timer.NoTimer? && (s.connect && Proceeds(errno) ==> s.channel.NoChannel?)
    ensures Trying(StartInLoop(s, errno))
  {
    hide Retry, Settle, Count;
    RetryKept(s.(fds := s.fds + [Held], gaveUp := false), |s.fds|);
  }

  lemma AbandonTries(s: Connector)
    requires s.channel.Channel? && s.timer.NoTimer?
    ensures Trying(Retry(RemoveAndResetChannel(s), ChannelFd(s)))
  {
    hide Retry, Count;
    RetryKept(RemoveAndResetChannel(s), ChannelFd(s));
  }

  lemma RemoveConnectionTries(s: Connector, fd: nat, errno: Errno)
    requires Inv(s) && s.connection == Some(fd) && s.channel.NoChannel?
    ensures Trying(RemoveConnection(s, fd, errno))
  {
    hide Count, StartInLoop;
    var u := s.(connection := None, state := DISCONNECTED, retryDelay := RETRY_DELAY_MS, delays := [], connect := true);
    StartInLoopTries(u, errno);
  }

  lemma DispatchTries(s: Connector, writable: bool, error: bool, attempt: Attempt)
    requires Inv(s) && Trying(s)
    ensures Trying(Step(s, Dispatch(writable, error, attempt)))
  {
    if !s.inBatch && s.channel.Channel? && s.channel.registered {
      AbandonTries(s);
      EstablishedInv(s);
      AbandonInv(s);
      hide Inv, RemoveAndResetChannel, Retry, NewConnection, Settle, Count;
    }
  }

  lemma ExecuteTries(s: Connector, errno: Errno)
    requires Inv(s) && Trying(s) && s.batch != []
    ensures Trying(Execute(s.(batch := s.batch[1..]), s.batch[0], errno))
  {
    PopFacts(s);
    var t := s.(batch := s.batch[1..]);
    match s.batch[0]
    case StartTask =>
      StartTaskFindsRest(s);
      StartInLoopTries(t, errno);
      hide StartInLoop, Inv, Trying, Count;
    case StopTask =>
      assert Trying(t);
      if s.state.CONNECTING? { AbandonTries(t.(state := DISCONNECTED)); }
      hide Inv, Retry, RemoveAndResetChannel, Trying, Count;
    case ResetTask => hide Inv;
    case CloseTask(fd) =>
      assert Trying(t);
      if s.connection == Some(fd) { RemoveConnectionTries(t, fd, errno); }
      hide Inv, RemoveConnection, Trying, Count;
  }

  lemma StartTries(s: Connector, own: bool, errno: Errno)
    requires CanStart(s, own)
    ensures Trying(Step(s, Start(own, errno)))
  {
    var t := s.(started := true, clientConnect := true, connect := true);
    if own {
      hide StartInLoop, Count;
      StartInLoopTries(t, errno);
    } else {
      QueueFacts(t, StartTask);
      hide Count;
    }
  }

  lemma CallTries(s: Connector, e: Event)
    requires Trying(s) && (e.Stop? || e.Disconnect? || e.EnableRetry? || e.ForceClose?)
    ensures Trying(Step(s, e))
  {
    if e.ForceClose? && s.connection.Some? { QueueFacts(s, CloseTask(s.connection.value)); }
    hide Count;
  }

  lemma FireTries(s: Connector, errno: Errno)
    requires Inv(s) && Trying(s) && !FiresEarly(s, errno)
    ensures Trying(Step(s, Fire(errno)))
  {
    if !s.inBatch && s.timer.Armed? {
      hide StartInLoop, Count;
      StartInLoopTries(s.(timer := NoTimer), errno);
    }
  }

  lemma LostTries(s: Connector, errno: Errno)
    requires Inv(s) && Trying(s)
    ensures Trying(Step(s, Lost(errno)))
  {
    LostInv(s, errno);
    hide RemoveConnection, Inv, Trying;
    if !s.inBatch && s.connection.Some? && !s.newborn { RemoveConnectionTries(s, s.connection.value, errno); }
  }

  lemma PhaseTries(s: Connector, e: Event)
    requires Inv(s) && Trying(s) && (e.Swap? || e.EndBatch?)
    ensures Trying(Step(s, e))
  {
    assert Count([], StartTask) == 0;
    hide Count;
  }

  lemma StepTries(s: Connector, e: Event)
    requires Inv(s) && Trying(s) && Legit(s, e)
    ensures Trying(Step(s, e))
  {
    hide Inv, Trying, Execute, CanStart, FiresEarly;
    match e
    case Start(own, errno) => StartTries(s, own, errno);
    case Stop => CallTries(s, e);
    case Disconnect => CallTries(s, e);
    case EnableRetry => CallTries(s, e);
    case ForceClose => CallTries(s, e);
    case Fire(errno) => FireTries(s, errno);
    case Dispatch(writable, error, attempt) => DispatchTries(s, writable, error, attempt);
    case Lost(errno) => LostTries(s, errno);
    case Swap => PhaseTries(s, e);
    case RunTask(errno) => if s.batch != [] { ExecuteTries(s, errno); }
    case EndBatch => PhaseTries(s, e);
  }

  lemma {:induction false} RunTries(s: Connector, events: seq<Event>)
    requires Inv(s) && Trying(s) && AllLegit(s, events)
    ensures Trying(Run(s, events))
    decreases |events|
  {
    if events != [] {
      StepInv(s, events[0]);
      StepTries(s, events[0]);
      hide Inv, Trying, Step, Legit;
      RunTries(Step(s, events[0]), events[1..]);
    }
  }

  /** A connector that is to connect never stops trying without having met an error that is not retried. */
  lemma NeverGivesUpSilently(start: Connector, events: seq<Event>)
    requires New(start) && AllLegit(start, events)
    ensures Trying(Run(start, events))
  {
    RunTries(start, events);
  }
}
