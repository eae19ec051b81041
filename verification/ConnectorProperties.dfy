/**
  What every run of a client and its connector keeps.
*/
module ConnectorProperties {
  import opened ConnectorState

  /* ---------------------------------- task queues ---------------------------------- */

  function Count(q: seq<Task>, task: Task): nat {
    if q == [] then 0 else (if q[0] == task then 1 else 0) + Count(q[1..], task)
  }

  lemma {:induction false} CountAppend(q: seq<Task>, last: Task, task: Task)
    ensures Count(q + [last], task) == Count(q, task) + if last == task then 1 else 0
  {
    if q == [] {
      assert [] + [last] == [last];
      assert [last][1..] == [];
    } else {
      assert (q + [last])[1..] == q[1..] + [last];
      CountAppend(q[1..], last, task);
    }
  }

  /** A reset comes in the queue before any such task. */
  predicate ResetFirst(q: seq<Task>, task: Task) {
    q != [] && (q[0].ResetTask? || (q[0] != task && ResetFirst(q[1..], task)))
  }

  lemma {:induction false} ResetFirstAppend(q: seq<Task>, last: Task, task: Task)
    requires ResetFirst(q, task) || (last.ResetTask? && Count(q, task) == 0)
    ensures ResetFirst(q + [last], task)
  {
    if q == [] {
      assert ([] + [last])[0] == last;
    } else if !q[0].ResetTask? {
      assert (q + [last])[1..] == q[1..] + [last];
      ResetFirstAppend(q[1..], last, task);
    }
  }

  lemma {:induction false} ResetIsFirst(q: seq<Task>, task: Task)
    requires Count(q, ResetTask) > 0 && Count(q, task) == 0
    ensures ResetFirst(q, task)
  {
    if !q[0].ResetTask? { ResetIsFirst(q[1..], task); }
  }

  /** The connections that queued tasks would close have been handed over. */
  predicate ClosesHanded(q: seq<Task>, fds: seq<Status>) {
    forall i | 0 <= i < |q| :: q[i].CloseTask? ==> q[i].fd < |fds| && fds[q[i].fd].Handed?
  }

  lemma {:induction false} NoCloseOfHeld(q: seq<Task>, fds: seq<Status>, fd: nat)
    requires ClosesHanded(q, fds) && (fd < |fds| ==> !fds[fd].Handed?)
    ensures Count(q, CloseTask(fd)) == 0
  {
    if q != [] {
      assert q[0] != CloseTask(fd);
      assert forall i | 0 <= i < |q[1..]| :: q[1..][i] == q[i + 1];
      NoCloseOfHeld(q[1..], fds, fd);
    }
  }

  /* ---------------------------------- the invariant ---------------------------------- */

  function Resets(s: Connector): nat { Count(s.batch, ResetTask) + Count(s.pending, ResetTask) }

  /** The channel: registered exactly while connecting; otherwise one reset is on its way as long as it exists. */
  predicate ChannelPhases(s: Connector) {
    && (s.state.CONNECTING? <==> s.channel.Channel? && s.channel.registered)
    && Resets(s) == (if s.channel.Channel? && !s.channel.registered then 1 else 0)
  }

  /** Each socket has one owner: only the connecting channel's is held. */
  predicate SocketsLinear(s: Connector) {
    && (s.state.CONNECTING? ==> s.channel.Channel? && s.channel.fd < |s.fds|)
    && forall fd | 0 <= fd < |s.fds| :: s.fds[fd].Held? <==> s.state.CONNECTING? && s.channel.fd == fd
  }

  /** The retry timer is outstanding only while disconnected, and cannot expire before the channel is reset. */
  predicate TimerPhases(s: Connector) {
    && (!s.timer.NoTimer? ==> s.state.DISCONNECTED? && s.connection.None?)
    && (!s.timer.NoTimer? && !s.channel.NoChannel? ==>
          s.timer.batches > if s.inBatch && Count(s.pending, ResetTask) > 0 then 1 else 0)
  }

  /** The connection: its socket was handed over, and the connector's channel is reset before anything can close it. */
  predicate ConnectionPhases(s: Connector) {
    && (s.connection.Some? ==> s.state.CONNECTED? && s.connection.value < |s.fds| && s.fds[s.connection.value].Handed?)
    && ClosesHanded(s.batch, s.fds) && ClosesHanded(s.pending, s.fds)
    && (s.connection.Some? && !s.channel.NoChannel? ==>
          s.newborn && ResetFirst(if s.inBatch then s.batch else s.pending, CloseTask(s.connection.value)))
  }

  /** Nothing is under way, except perhaps the reset of the channel of an earlier attempt. */
  predicate Resting(s: Connector) { s.state.DISCONNECTED? && s.timer.NoTimer? && s.connection.None? }

  function Starts(s: Connector): nat { Count(s.batch, StartTask) + Count(s.pending, StartTask) }

  /** The channel is reset before the queued start runs. */
  predicate ResetBeforeStart(s: Connector) {
    ResetFirst(s.batch, StartTask) || (Count(s.batch, StartTask) == 0 && ResetFirst(s.pending, StartTask))
  }

  /** A queued start will find nothing under way. */
  predicate StartPhases(s: Connector) {
    && Starts(s) <= (if Resting(s) then 1 else 0)
    && (Starts(s) > 0 && !s.channel.NoChannel? ==> ResetBeforeStart(s))
    && (!s.started ==> Resting(s) && s.channel.NoChannel? && Starts(s) == 0)
  }

  predicate Inv(s: Connector) {
    && !s.failed
    && (!s.inBatch ==> s.batch == [])
    && ChannelPhases(s)
    && SocketsLinear(s)
    && TimerPhases(s)
    && ConnectionPhases(s)
    && StartPhases(s)
  }

  /** What queueing a task changes. */
  lemma QueueFacts(s: Connector, task: Task)
    ensures var t := Queue(s, task);
            && Count(t.pending, ResetTask) == Count(s.pending, ResetTask) + (if task.ResetTask? then 1 else 0)
            && Count(t.pending, StartTask) == Count(s.pending, StartTask) + (if task.StartTask? then 1 else 0)
            && (ClosesHanded(s.pending, s.fds) && (task.CloseTask? ==> task.fd < |s.fds| && s.fds[task.fd].Handed?)
                ==> ClosesHanded(t.pending, t.fds))
    ensures s.connection.Some? && ResetFirst(s.pending, CloseTask(s.connection.value))
            ==> ResetFirst(Queue(s, task).pending, CloseTask(s.connection.value))
    ensures ResetFirst(s.pending, StartTask) ==> ResetFirst(Queue(s, task).pending, StartTask)
  {
    CountAppend(s.pending, task, ResetTask);
    CountAppend(s.pending, task, StartTask);
    if s.connection.Some? && ResetFirst(s.pending, CloseTask(s.connection.value)) {
      ResetFirstAppend(s.pending, task, CloseTask(s.connection.value));
    }
    if ResetFirst(s.pending, StartTask) { ResetFirstAppend(s.pending, task, StartTask); }
  }

  lemma CallInv(s: Connector, e: Event)
    requires Inv(s) && (e.Stop? || e.Disconnect? || e.EnableRetry? || e.ForceClose?)
    ensures Inv(Step(s, e))
  {
    if e.Stop? { QueueFacts(s, StopTask); }
    if e.ForceClose? && s.connection.Some? { QueueFacts(s, CloseTask(s.connection.value)); }
    hide Count, ResetFirst, ClosesHanded;
  }

  /* ---------------------------------- attempts ---------------------------------- */

  /** A start may come: nothing is under way and no other start is queued; on the loop thread, where it runs at once,
      the channel of an earlier attempt must have been reset as well. */
  predicate CanStart(s: Connector, own: bool) {
    Resting(s) && Starts(s) == 0 && (own ==> s.channel.NoChannel?)
  }

  /** An attempt may be made that fails at once. */
  predicate CanFail(s: Connector) {
    s.state.DISCONNECTED? && s.timer.NoTimer? && s.connection.None? && s.started && Starts(s) == 0
  }

  lemma ConnectInv(s: Connector, errno: Errno)
    requires Inv(s) && CanFail(s) && (Proceeds(errno) ==> s.channel.NoChannel?)
    ensures Inv(Connect(s, errno))
  {
    var t := s.(fds := s.fds + [Held], gaveUp := false);
    if Proceeds(errno) { ProceedInv(s, t); } else { SettleFreshInv(s, t); }
    hide Inv, Connecting, Retry, Settle, Proceeds, Retryable;
  }

  lemma ProceedInv(s: Connector, t: Connector)
    requires Inv(s) && CanFail(s) && s.channel.NoChannel? && t == s.(fds := s.fds + [Held], gaveUp := false)
    ensures Inv(Connecting(t, |s.fds|))
  {
    hide Count, ResetFirst;
  }

  lemma SettleFreshInv(s: Connector, t: Connector)
    requires Inv(s) && CanFail(s) && t == s.(fds := s.fds + [Held], gaveUp := false)
    ensures Inv(Retry(t, |s.fds|)) && Inv(Settle(t, |s.fds|, Closed).(gaveUp := true))
  {
    var u := t.(fds := s.fds + [Closed]);
    assert t.fds[|s.fds| := Closed] == s.fds + [Closed];
    assert Settle(t, |s.fds|, Closed) == u && u.(state := DISCONNECTED) == u;
    hide Settle, Delay, Count, ResetFirst;
    DelayInv(u);
  }

  /** A retry may be armed when the attempt is over. */
  lemma DelayInv(s: Connector)
    requires Inv(s) && CanFail(s)
    ensures Inv(Delay(s)) && Delay(s).state.DISCONNECTED?
  {
    hide Count, ResetFirst, ClosesHanded;
    if s.connect {
    }
  }

  lemma StartInLoopInv(s: Connector, errno: Errno)
    requires Inv(s) && CanFail(s) && (s.connect && Proceeds(errno) ==> s.channel.NoChannel?)
    ensures Inv(StartInLoop(s, errno))
  {
    if s.connect { ConnectInv(s, errno); }
    hide Inv, Connect;
  }

  lemma StartInv(s: Connector, own: bool, errno: Errno)
    requires Inv(s) && CanStart(s, own)
    ensures Inv(Step(s, Start(own, errno)))
  {
    var t := s.(started := true, clientConnect := true, connect := true);
    if own {
      assert Inv(t) && CanFail(t);
      StartInLoopInv(t, errno);
    } else {
      QueueStartInv(t);
    }
  }

  lemma QueueStartInv(s: Connector)
    requires Inv(s) && CanStart(s, false) && s.started
    ensures Inv(Queue(s, StartTask))
  {
    QueueFacts(s, StartTask);
    if Count(s.batch, ResetTask) > 0 { ResetIsFirst(s.batch, StartTask); }
    if Count(s.pending, ResetTask) > 0 {
      ResetIsFirst(s.pending, StartTask);
      ResetFirstAppend(s.pending, StartTask, StartTask);
    }
    hide Count, ResetFirst, ClosesHanded;
  }

  /** The retry timer expires while the channel of the last attempt is still there, and the attempt proceeds. */
  predicate FiresEarly(s: Connector, errno: Errno) {
    !s.inBatch && s.timer.Armed? && s.connect && Proceeds(errno) && s.channel.Channel?
  }

  lemma FireInv(s: Connector, errno: Errno)
    requires Inv(s)
    ensures Step(s, Fire(errno)).failed <==> FiresEarly(s, errno)
    ensures !FiresEarly(s, errno) ==> Inv(Step(s, Fire(errno)))
  {
    if !s.inBatch && s.timer.Armed? {
      var t := s.(timer := NoTimer);
      assert Inv(t) && CanFail(t) && !t.failed;
      if FiresEarly(s, errno) {
        assert Connect(t, errno).failed;
      } else {
        StartInLoopInv(t, errno);
      }
    }
  }

  /** A connecting channel is taken out and its socket closed, in a handler or in a task. */
  lemma AbandonInv(s: Connector)
    requires Inv(s) && s.state.CONNECTING?
    ensures Inv(Retry(RemoveAndResetChannel(s), ChannelFd(s)))
            && Retry(RemoveAndResetChannel(s), ChannelFd(s)).state.DISCONNECTED?
  {
    hide Retry, RemoveAndResetChannel, Delay;
    var fd := ChannelFd(s);
    AbandonShape(s, fd);
    QueueFacts(s, ResetTask);
    NoCloseOfHeld(s.batch, s.fds, fd);
    NoCloseOfHeld(s.pending, s.fds, fd);
    hide Count, ResetFirst;
    DelayInv(s.(channel := Channel(fd, false), pending := s.pending + [ResetTask], state := DISCONNECTED,
        fds := s.fds[fd := Closed]));
  }

  lemma AbandonShape(s: Connector, fd: nat)
    requires s.channel == Channel(fd, true) && fd < |s.fds| && s.fds[fd].Held?
    ensures Retry(RemoveAndResetChannel(s), fd) ==
            Delay(s.(channel := Channel(fd, false), pending := s.pending + [ResetTask], state := DISCONNECTED,
                     fds := s.fds[fd := Closed]))
  {
    hide Delay;
    var t := s.(channel := Channel(fd, false), pending := s.pending + [ResetTask]);
    assert RemoveAndResetChannel(s) == t;
    hide RemoveAndResetChannel;
    assert Settle(t, fd, Closed) == t.(fds := s.fds[fd := Closed]);
  }

  lemma StopIsAbandon(s: Connector)
    requires s.state.CONNECTING? && s.channel.Channel?
    ensures StopInLoop(s) == Retry(RemoveAndResetChannel(s), ChannelFd(s))
  {
    var t := s.(state := DISCONNECTED);
    var a, b := RemoveAndResetChannel(s), RemoveAndResetChannel(t);
    assert b == a.(state := DISCONNECTED);
    hide RemoveAndResetChannel;
    RetryIgnoresState(a, ChannelFd(s));
  }

  lemma RetryIgnoresState(s: Connector, fd: nat)
    ensures Retry(s.(state := DISCONNECTED), fd) == Retry(s, fd)
  {
    hide Delay, Settle;
    SettleIgnoresState(s, fd);
  }

  lemma SettleIgnoresState(s: Connector, fd: nat)
    ensures Settle(s.(state := DISCONNECTED), fd, Closed) == Settle(s, fd, Closed).(state := DISCONNECTED)
  {
    if fd < |s.fds| {
      if s.fds[fd].Held? {
      }
    }
  }

  lemma StopInLoopInv(s: Connector)
    requires Inv(s)
    ensures Inv(StopInLoop(s))
  {
    if s.state.CONNECTING? {
      AbandonInv(s);
      assert s.channel.Channel?;
      hide Inv, Retry, RemoveAndResetChannel, StopInLoop;
      StopIsAbandon(s);
    }
  }

  lemma EstablishedShape(s: Connector, fd: nat)
    requires s.state.CONNECTING? && s.channel == Channel(fd, true) && fd < |s.fds| && s.fds[fd].Held?
    ensures var t := s.(channel := Channel(fd, false), pending := s.pending + [ResetTask], state := CONNECTED);
            HandleWrite(s, Established) ==
            if s.connect then t.(fds := s.fds[fd := Handed], connection := Some(fd), newborn := true)
            else t.(fds := s.fds[fd := Closed])
  {
    if s.connect {
    }
  }

  /** The socket of a connecting channel becomes a connection, or is closed because of a stop. */
  lemma EstablishedInv(s: Connector)
    requires Inv(s) && s.state.CONNECTING? && !s.inBatch
    ensures Inv(HandleWrite(s, Established)) && HandleWrite(s, Established).state.CONNECTED?
  {
    hide HandleWrite;
    var fd := ChannelFd(s);
    EstablishedShape(s, fd);
    QueueFacts(s, ResetTask);
    NoCloseOfHeld(s.pending, s.fds, fd);
    ResetFirstAppend(s.pending, ResetTask, CloseTask(fd));
    hide Count, ResetFirst;
    if s.connect {
    }
  }

  lemma DispatchInv(s: Connector, writable: bool, error: bool, attempt: Attempt)
    requires Inv(s)
    ensures Inv(Step(s, Dispatch(writable, error, attempt)))
  {
    if !s.inBatch && s.channel.Channel? && s.channel.registered {
      EstablishedInv(s);
      AbandonInv(s);
      hide Inv, RemoveAndResetChannel, Retry, NewConnection, Settle;
    }
  }

  /* ---------------------------------- losing the connection ---------------------------------- */

  lemma RemoveConnectionInv(s: Connector, fd: nat, errno: Errno)
    requires Inv(s) && s.connection == Some(fd) && s.channel.NoChannel?
    ensures Inv(RemoveConnection(s, fd, errno))
  {
    var t := s.(connection := None);
    assert Inv(t);
    if s.clientRetry && s.clientConnect {
      var u := t.(state := DISCONNECTED, retryDelay := RETRY_DELAY_MS, delays := [], connect := true);
      assert Inv(u) && CanFail(u);
      StartInLoopInv(u, errno);
    }
  }

  /* ---------------------------------- phases ---------------------------------- */

  lemma SwapInv(s: Connector)
    requires Inv(s)
    ensures Inv(Step(s, Swap))
  {
  }

  lemma EndBatchInv(s: Connector)
    requires Inv(s)
    ensures Inv(Step(s, EndBatch))
  {
  }

  /** Taking a task off the batch. */
  lemma PopFacts(s: Connector)
    requires Inv(s) && s.batch != []
    ensures var t := s.(batch := s.batch[1..]);
            && Count(t.batch, ResetTask) == Count(s.batch, ResetTask) - (if s.batch[0].ResetTask? then 1 else 0)
            && Count(t.batch, StartTask) == Count(s.batch, StartTask) - (if s.batch[0].StartTask? then 1 else 0)
            && ClosesHanded(t.batch, t.fds)
            && (!s.batch[0].ResetTask? ==> Inv(t))
  {
  }

  /** A queued close of the connection runs only after the channel has been reset. */
  lemma QueuedCloseFindsReset(s: Connector)
    requires Inv(s) && s.batch != [] && s.connection.Some? && s.batch[0] == CloseTask(s.connection.value)
    ensures s.channel.NoChannel?
  {
  }

  lemma StartTaskFindsRest(s: Connector)
    requires Inv(s) && s.batch != [] && s.batch[0].StartTask?
    ensures CanStart(s.(batch := s.batch[1..]), true) && CanFail(s.(batch := s.batch[1..]))
  {
  }

  lemma ResetTaskInv(s: Connector)
    requires Inv(s) && s.batch != [] && s.batch[0].ResetTask?
    ensures Inv(s.(batch := s.batch[1..], channel := NoChannel))
  {
  }

  lemma ExecuteInv(s: Connector, errno: Errno)
    requires Inv(s) && s.batch != []
    ensures Inv(Execute(s.(batch := s.batch[1..]), s.batch[0], errno))
  {
    PopFacts(s);
    var t := s.(batch := s.batch[1..]);
    match s.batch[0]
    case StartTask =>
      StartTaskFindsRest(s);
      hide Inv, CanStart, CanFail, StartInLoop;
      StartInLoopInv(t, errno);
    case StopTask =>
      hide Inv, StopInLoop;
      StopInLoopInv(t);
    case ResetTask =>
      ResetTaskInv(s);
      hide Inv;
    case CloseTask(fd) =>
      if s.connection == Some(fd) { QueuedCloseFindsReset(s); }
      hide Inv, RemoveConnection;
      if s.connection == Some(fd) { RemoveConnectionInv(t, fd, errno); }
  }

  lemma RunTaskInv(s: Connector, errno: Errno)
    requires Inv(s)
    ensures Inv(Step(s, RunTask(errno)))
  {
    if s.batch != [] {
      ExecuteInv(s, errno);
      hide Inv, Execute;
    }
  }

  /** The client starts only when nothing is under way, and no retry timer expires while the old channel is there. */
  predicate Legit(s: Connector, e: Event) {
    (e.Start? ==> CanStart(s, e.own)) && (e.Fire? ==> !FiresEarly(s, e.errno))
  }

  lemma StepInv(s: Connector, e: Event)
    requires Inv(s) && Legit(s, e)
    ensures Inv(Step(s, e))
  {
    match e
    case Start(own, errno) => StartInv(s, own, errno);
    case Stop => CallInv(s, e);
    case Disconnect => CallInv(s, e);
    case EnableRetry => CallInv(s, e);
    case ForceClose => CallInv(s, e);
    case Fire(errno) => FireInv(s, errno);
    case Dispatch(writable, error, attempt) => DispatchInv(s, writable, error, attempt);
    case Lost(errno) => LostInv(s, errno);
    case Swap => SwapInv(s);
    case RunTask(errno) => RunTaskInv(s, errno);
    case EndBatch => EndBatchInv(s);
  }

  /** A connection that was made in an earlier iteration is lost: the channel has been reset. */
  lemma LostInv(s: Connector, errno: Errno)
    requires Inv(s)
    ensures !s.inBatch && s.connection.Some? && !s.newborn ==> s.channel.NoChannel?
    ensures Inv(Step(s, Lost(errno)))
  {
    if !s.inBatch && s.connection.Some? && !s.newborn { RemoveConnectionInv(s, s.connection.value, errno); }
  }

  ghost predicate AllLegit(s: Connector, events: seq<Event>)
    decreases |events|
  {
    events == [] || (Legit(s, events[0]) && AllLegit(Step(s, events[0]), events[1..]))
  }

  lemma {:induction false} RunInv(s: Connector, events: seq<Event>)
    requires Inv(s) && AllLegit(s, events)
    ensures Inv(Run(s, events))
    decreases |events|
  {
    if events != [] {
      StepInv(s, events[0]);
      hide Inv, Step, Legit;
      RunInv(Step(s, events[0]), events[1..]);
    }
  }

  lemma {:induction false} RunConcat(s: Connector, a: seq<Event>, b: seq<Event>)
    ensures Run(s, a + b) == Run(Run(s, a), b)
    ensures AllLegit(s, a + b) <==> AllLegit(s, a) && AllLegit(Run(s, a), b)
    decreases |a|
  {
    hide Step, Legit;
    if a == [] {
      assert a + b == b;
    } else {
      assert (a + b)[1..] == a[1..] + b;
      RunConcat(Step(s, a[0]), a[1..], b);
    }
  }
}
