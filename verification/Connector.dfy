/**
  Connector as an object, together with the parts of its client, its loop and the kernel that it acts on.
  `world` is the value of ConnectorState that they go through; Coupled() ties every field to it.
*/
module Connectors {
  import opened ConnectorState
  import opened ConnectorProperties

  class Connector {
    var state: SocketState
    var channel: Channel
    var connect: bool
    var retryDelayMs: nat
    // the loop: its retry timer for this connector, its batch and its pending tasks
    var timer: Timer
    var inBatch: bool
    var batch: seq<Task>
    var pending: seq<Task>
    // the sockets, and the client
    var fds: seq<Status>
    var clientConnect: bool
    var clientRetry: bool
    var connection: Option<nat>
    ghost var world: ConnectorState.Connector

    ghost predicate Coupled()
      reads this
    {
      && state == world.state && channel == world.channel && connect == world.connect
      && retryDelayMs == world.retryDelay
      && timer == world.timer && inBatch == world.inBatch && batch == world.batch && pending == world.pending
      && fds == world.fds
      && clientConnect == world.clientConnect && clientRetry == world.clientRetry && connection == world.connection
    }

    ghost predicate Valid()
      reads this
    {
      Coupled() && Inv(world)
    }

    constructor ()
      ensures Valid() && New(world)
    {
      state, channel, connect, retryDelayMs := DISCONNECTED, NoChannel, false, RETRY_DELAY_MS;
      timer, inBatch, batch, pending, fds := NoTimer, false, [], [], [];
      clientConnect, clientRetry, connection := true, false, None;
      world := ConnectorState.Connector(DISCONNECTED, NoChannel, false, RETRY_DELAY_MS, NoTimer, false, [], [], [],
                                        true, false, None, false, false, false, [], false);
    }

    /** The socket is closed, or handed to the client: nobody else has done either. */
    method Settle(fd: nat, status: Status)
      requires Coupled() && fd < |fds| && fds[fd].Held?
      modifies this`fds, this`world
      ensures Coupled() && world == ConnectorState.Settle(old(world), fd, status)
    {
      fds := fds[fd := status];
      world := ConnectorState.Settle(world, fd, status);
    }

    /** Connector::retry; no other retry is outstanding. */
    method Retry(sockfd: nat)
      requires Coupled() && sockfd < |fds| && fds[sockfd].Held? && (connect ==> timer.NoTimer?)
      modifies this`state, this`retryDelayMs, this`timer, this`fds, this`world
      ensures Coupled() && world == ConnectorState.Retry(old(world), sockfd)
    {
      hide ConnectorState.Settle, ConnectorState.Delay;
      Settle(sockfd, Closed);
      state := DISCONNECTED;
      world := world.(state := DISCONNECTED);
      ArmRetry();
    }

    /** The second half of it: the retry timer and the next delay, if the connector is to connect. */
    method ArmRetry()
      requires Coupled() && (connect ==> timer.NoTimer?)
      modifies this`retryDelayMs, this`timer, this`world
      ensures Coupled() && world == ConnectorState.Delay(old(world))
    {
      ghost var after := ConnectorState.Delay(world);
      if connect {
        timer := Armed(if inBatch then 2 else 1);
        retryDelayMs := if 2 * retryDelayMs < MAX_RETRY_DELAY_MS then 2 * retryDelayMs else MAX_RETRY_DELAY_MS;
      }
      world := after;
    }

    /** Connector::connecting; it fails where its assertion does. */
    method Connecting(sockfd: nat) returns (ok: bool)
      requires Coupled()
      modifies this`state, this`channel, this`world
      ensures ok <==> old(channel).NoChannel?
      ensures ok ==> Coupled() && world == ConnectorState.Connecting(old(world), sockfd)
    {
      state := CONNECTING;
      if channel.Channel? {
        return false;
      }
      ok := true;
      channel := Channel(sockfd, true);
      world := ConnectorState.Connecting(world, sockfd);
    }

    method Connect(errno: Errno) returns (ok: bool)
      requires Coupled() && connect && timer.NoTimer?
      modifies this`state, this`channel, this`retryDelayMs, this`timer, this`fds, this`world
      ensures ok <==> !(Proceeds(errno) && old(channel).Channel?)
      ensures ok ==> Coupled() && world == ConnectorState.Connect(old(world), errno)
    {
      hide ConnectorState.Retry, ConnectorState.Connecting, ConnectorState.Settle, Proceeds, Retryable;
      ghost var after := ConnectorState.Connect(world, errno);
      var sockfd := |fds|;
      fds := fds + [Held];
      world := world.(fds := fds, gaveUp := false);
      ok := true;
      if Proceeds(errno) {
        ok := Connecting(sockfd);
      } else if Retryable(errno) {
        Retry(sockfd);
      } else {
        Settle(sockfd, Closed);
      }
      world := after;
    }

    /** Connector::startInLoop; it fails where its own assertion or that of connecting does. */
    method StartInLoop(errno: Errno) returns (ok: bool)
      requires Coupled() && timer.NoTimer?
      modifies this`state, this`channel, this`retryDelayMs, this`timer, this`fds, this`world
      ensures ok <==> old(state) == DISCONNECTED && !(connect && Proceeds(errno) && old(channel).Channel?)
      ensures ok ==> Coupled() && world == ConnectorState.StartInLoop(old(world), errno)
    {
      hide ConnectorState.Connect, Proceeds;
      ok := state == DISCONNECTED;
      if ok && connect {
        ok := Connect(errno);
      }
    }

    method RemoveAndResetChannel() returns (sockfd: nat)
      requires Coupled() && channel.Channel?
      modifies this`channel, this`pending, this`world
      ensures Coupled() && world == ConnectorState.RemoveAndResetChannel(old(world)) && sockfd == ChannelFd(old(world))
    {
      channel := Channel(channel.fd, false);
      sockfd := channel.fd;
      pending := pending + [ResetTask];
      world := ConnectorState.RemoveAndResetChannel(world);
    }

    /** What Inv says about a connecting connector. */
    lemma ConnectingFacts(s: ConnectorState.Connector)
      requires Inv(s) && s.state.CONNECTING?
      ensures s.channel.Channel? && s.channel.registered && s.channel.fd < |s.fds| && s.fds[s.channel.fd].Held?
              && s.timer.NoTimer?
    {
    }

    method StopInLoop()
      requires Valid()
      modifies this`state, this`channel, this`retryDelayMs, this`timer, this`fds, this`world, this`pending
      ensures Valid() && world == ConnectorState.StopInLoop(old(world))
    {
      StopInLoopInv(world);
      if state == CONNECTING {
        ConnectingFacts(world);
        hide Inv, ConnectorState.Retry, ConnectorState.RemoveAndResetChannel;
        state := DISCONNECTED;
        world := world.(state := DISCONNECTED);
        var sockfd := RemoveAndResetChannel();
        Retry(sockfd);
      }
    }

    method HandleError()
      requires Valid()
      modifies this
      ensures Valid() && world == ConnectorState.HandleError(old(world))
    {
      if state == CONNECTING {
        AbandonInv(world);
        ConnectingFacts(world);
        hide Inv, ConnectorState.Retry, ConnectorState.RemoveAndResetChannel;
        var sockfd := RemoveAndResetChannel();
        Retry(sockfd);
      }
    }

    /** The attempt has succeeded: the client gets the socket, unless it has stopped. */
    method HandOver(socketFd: nat)
      requires Coupled() && socketFd < |fds| && fds[socketFd].Held?
      modifies this
      ensures Coupled()
      ensures var t := old(world).(state := CONNECTED);
              world == if t.connect then ConnectorState.NewConnection(t, socketFd)
                       else ConnectorState.Settle(t, socketFd, Closed)
    {
      hide ConnectorState.NewConnection, ConnectorState.Settle;
      state := CONNECTED;
      world := world.(state := CONNECTED);
      if connect {
        NewConnection(socketFd);
      } else {
        Settle(socketFd, Closed);
      }
    }

    /** Connector::handleWrite; its assertion is that the connector is disconnected if it is not connecting. */
    method HandleWrite(attempt: Attempt)
      requires Valid() && !inBatch && state != CONNECTED
      modifies this
      ensures Valid() && world == ConnectorState.HandleWrite(old(world), attempt)
    {
      if state == CONNECTING {
        AbandonInv(world);
        EstablishedInv(world);
        ConnectingFacts(world);
        hide Inv, ConnectorState.Retry, ConnectorState.RemoveAndResetChannel, ConnectorState.NewConnection,
            ConnectorState.Settle;
        var socketfd := RemoveAndResetChannel();
        if attempt != Established {
          Retry(socketfd);
        } else {
          HandOver(socketfd);
        }
      } else {
        assert state == DISCONNECTED;
      }
    }

    /** TcpClient::newConnection. */
    method NewConnection(socketFd: nat)
      requires Coupled() && socketFd < |fds| && fds[socketFd].Held?
      modifies this
      ensures Coupled() && world == ConnectorState.NewConnection(old(world), socketFd)
    {
      ghost var after := ConnectorState.NewConnection(world, socketFd);
      Settle(socketFd, Handed);
      hide ConnectorState.Settle;
      connection := Some(socketFd);
      world := after;
    }

    /** Connector::restart, called by the client when its connection is lost: nothing fails. */
    method Restart(errno: Errno)
      requires Coupled() && channel.NoChannel? && timer.NoTimer?
      modifies this`state, this`channel, this`retryDelayMs, this`timer, this`fds, this`world, this`connect
      ensures Coupled() && world == ConnectorState.Restart(old(world), errno)
    {
      state := DISCONNECTED;
      retryDelayMs := RETRY_DELAY_MS;
      connect := true;
      world := world.(state := DISCONNECTED, retryDelay := RETRY_DELAY_MS, delays := [], connect := true);
      hide ConnectorState.StartInLoop;
      var ok := StartInLoop(errno);
      assert ok;
    }

    /** TcpClient::removeConnection; the requirement includes its assertion. */
    method RemoveConnection(fd: nat, errno: Errno)
      requires Valid() && connection == Some(fd) && channel.NoChannel?
      modifies this`state, this`channel, this`retryDelayMs, this`timer, this`fds, this`world, this`connect,
          this`connection
      ensures Valid() && world == ConnectorState.RemoveConnection(old(world), fd, errno)
    {
      RemoveConnectionInv(world, fd, errno);
      assert timer.NoTimer?;
      hide Inv, ConnectorState.Restart;
      ghost var after := ConnectorState.RemoveConnection(world, fd, errno);
      connection := None;
      world := world.(connection := None);
      if clientRetry && clientConnect {
        Restart(errno);
      }
      world := after;
    }

    /** TcpClient::connect: Connector::start.  On the loop thread it fails where startInLoop does. */
    method Start(isInLoopThread: bool, errno: Errno) returns (ok: bool)
      requires Valid() && (isInLoopThread ==> timer.NoTimer?)
      modifies this
      ensures ok <==> (isInLoopThread ==> old(state) == DISCONNECTED && !(Proceeds(errno) && old(channel).Channel?))
      ensures ok && old(CanStart(world, isInLoopThread)) ==> Valid()
      ensures ok ==> Coupled() && world == Step(old(world), Event.Start(isInLoopThread, errno))
    {
      hide Inv, Step, ConnectorState.StartInLoop, CanStart, Proceeds;
      ok := true;
      if isInLoopThread {
        ok := StartHere(errno);
      } else {
        QueueStart(errno);
      }
    }

    /** The call on the loop thread. */
    method StartHere(errno: Errno) returns (ok: bool)
      requires Valid() && timer.NoTimer?
      modifies this
      ensures ok <==> old(state) == DISCONNECTED && !(Proceeds(errno) && old(channel).Channel?)
      ensures ok && old(CanStart(world, true)) ==> Valid()
      ensures ok ==> Coupled() && world == Step(old(world), Event.Start(true, errno))
    {
      hide Inv, ConnectorState.StartInLoop, CanStart, Proceeds;
      if CanStart(world, true) {
        StartInv(world, true, errno);
      }
      clientConnect := true;
      connect := true;
      world := world.(started := true, clientConnect := true, connect := true);
      ok := StartInLoop(errno);
    }

    /** The call by another thread; what connect(2) will report does not matter yet. */
    method QueueStart(ghost errno: Errno)
      requires Valid()
      modifies this`clientConnect, this`connect, this`pending, this`world
      ensures Coupled() && world == Step(old(world), Event.Start(false, errno))
      ensures old(CanStart(world, false)) ==> Valid()
    {
      hide Inv, CanStart;
      if CanStart(world, false) {
        StartInv(world, false, errno);
      }
      clientConnect := true;
      connect := true;
      pending := pending + [StartTask];
      world := Step(world, Event.Start(false, errno));
    }

    /** TcpClient::stop: Connector::stop. */
    method Stop()
      requires Valid()
      modifies this`clientConnect, this`connect, this`pending, this`world
      ensures Valid() && world == Step(old(world), Event.Stop)
    {
      CallInv(world, Event.Stop);
      hide Inv;
      clientConnect := false;
      connect := false;
      pending := pending + [StopTask];
      world := Step(world, Event.Stop);
    }

    method Disconnect()
      requires Valid()
      modifies this`clientConnect, this`world
      ensures Valid() && world == Step(old(world), Event.Disconnect)
    {
      CallInv(world, Event.Disconnect);
      hide Inv;
      clientConnect := false;
      world := Step(world, Event.Disconnect);
    }

    method EnableRetry()
      requires Valid()
      modifies this`clientRetry, this`world
      ensures Valid() && world == Step(old(world), Event.EnableRetry)
    {
      CallInv(world, Event.EnableRetry);
      hide Inv;
      clientRetry := true;
      world := Step(world, Event.EnableRetry);
    }

    /** TcpConnection::forceClose on the client's connection. */
    method ForceClose()
      requires Valid()
      modifies this`pending, this`world
      ensures Valid() && world == Step(old(world), Event.ForceClose)
    {
      CallInv(world, Event.ForceClose);
      hide Inv;
      if connection.Some? {
        pending := pending + [CloseTask(connection.value)];
      }
      world := Step(world, Event.ForceClose);
    }

    /** What another thread calls at any time, a start only when nothing is under way. */
    method Invoke(e: Event)
      requires Valid() && Call(e) && Legit(world, e)
      modifies this`clientConnect, this`clientRetry, this`connect, this`pending, this`world
      ensures Valid() && world == Step(old(world), e)
    {
      hide Inv, CanStart;
      match e
      case Start(_, errno) => QueueStart(errno);
      case Stop => Stop();
      case Disconnect => Disconnect();
      case EnableRetry => EnableRetry();
      case ForceClose => ForceClose();
    }

    method InvokeAll(calls: seq<Event>)
      requires Valid() && (forall i | 0 <= i < |calls| :: Call(calls[i])) && AllLegit(world, calls)
      modifies this`clientConnect, this`clientRetry, this`connect, this`pending, this`world
      ensures Valid() && world == Run(old(world), calls)
      decreases |calls|
    {
      hide Inv, Step, Legit;
      if calls != [] {
        Invoke(calls[0]);
        InvokeAll(calls[1..]);
      }
    }

    /** The retry timer expires; the attempt fails exactly where the old channel is still there. */
    method RetryTimerExpired(errno: Errno) returns (ok: bool)
      requires Valid() && !inBatch && timer.Armed?
      modifies this
      ensures ok <==> !FiresEarly(old(world), errno)
      ensures ok ==> Valid() && world == Step(old(world), Fire(errno))
      ensures !ok ==> Step(old(world), Fire(errno)).failed
    {
      FireInv(world, errno);
      assert state == DISCONNECTED;
      hide Inv, ConnectorState.StartInLoop, Proceeds;
      timer := NoTimer;
      world := world.(timer := NoTimer);
      ok := StartInLoop(errno);
    }

    /** Channel::handleEvents of the connecting channel: the write callback, then the error callback. */
    method HandleEvents(writable: bool, error: bool, attempt: Attempt)
      requires Valid() && !inBatch && channel.Channel? && channel.registered
      modifies this
      ensures Valid() && world == Step(old(world), Dispatch(writable, error, attempt))
    {
      assert state == CONNECTING;
      hide Inv, ConnectorState.HandleWrite, ConnectorState.HandleError;
      if writable {
        HandleWrite(attempt);
      }
      if error {
        HandleError();
      }
    }

    /** The client's connection is lost in the handlers: never in the iteration that made it. */
    method ConnectionLost(errno: Errno)
      requires Valid() && !inBatch && connection.Some? && !world.newborn
      modifies this
      ensures Valid() && world == Step(old(world), Lost(errno))
    {
      assert channel.NoChannel?;
      hide Inv, ConnectorState.RemoveConnection;
      RemoveConnection(connection.value, errno);
    }

    /** What a task finds when it is taken off the batch. */
    lemma TaskFacts(s: ConnectorState.Connector, errno: Errno)
      requires Inv(s) && s.batch != []
      ensures var t := s.(batch := s.batch[1..]);
              && (s.batch[0].StartTask? ==> t.state.DISCONNECTED? && t.channel.NoChannel? && t.timer.NoTimer?)
              && (!s.batch[0].ResetTask? ==> Inv(t))
              && (s.connection.Some? && s.batch[0] == CloseTask(s.connection.value) ==> t.channel.NoChannel?)
              && Inv(Execute(t, s.batch[0], errno))
    {
      PopFacts(s);
      ExecuteInv(s, errno);
      if s.batch[0].StartTask? { StartTaskFindsRest(s); }
      hide Execute, Inv, Count;
    }

    /** One task of the batch. */
    method RunTask(errno: Errno)
      requires Valid() && inBatch && batch != []
      modifies this
      ensures Valid() && world == Step(old(world), Event.RunTask(errno)) && batch == old(batch)[1..] && inBatch
    {
      hide Inv, ConnectorState.StartInLoop, ConnectorState.StopInLoop, ConnectorState.RemoveConnection;
      TaskFacts(world, errno);
      ghost var after := Step(world, Event.RunTask(errno));
      var task := batch[0];
      batch := batch[1..];
      world := world.(batch := world.batch[1..]);
      match task
      case StartTask =>
        var ok := StartInLoop(errno);
        assert ok;
      case StopTask => StopInLoop();
      case ResetTask =>
        channel := NoChannel;
        world := after;
      case CloseTask(fd) =>
        if connection == Some(fd) {
          RemoveConnection(fd, errno);
        }
    }

    method SwapBatch()
      requires Valid() && !inBatch
      modifies this`inBatch, this`batch, this`pending, this`world
      ensures Valid() && world == Step(old(world), Swap) && inBatch && batch == old(pending)
    {
      SwapInv(world);
      hide Inv;
      inBatch, batch, pending := true, pending, [];
      world := Step(world, Swap);
    }

    method EndOfBatch()
      requires Valid() && inBatch && batch == []
      modifies this`inBatch, this`timer, this`world
      ensures Valid() && world == Step(old(world), EndBatch) && !inBatch
    {
      EndBatchInv(world);
      hide Inv;
      inBatch, timer := false, Older(timer);
      world := Step(world, EndBatch);
    }

    /** EventLoop::doPendingFunctions for these tasks, with the calls that come before each of them and at the end. */
    method DoPendingFunctions(turns: seq<Turn>, last: seq<Event>)
      requires Valid() && !inBatch && |turns| == |pending| && (forall i | 0 <= i < |turns| :: turns[i].Fits())
      requires (forall i | 0 <= i < |last| :: Call(last[i])) && AllLegit(world, BatchEvents(turns, last))
      modifies this
      ensures Valid() && !inBatch && world == Run(old(world), BatchEvents(turns, last))
    {
      hide Inv, Step, Run, TurnEvents, BatchEvents, AllLegit;
      BatchUnfolds(world, turns, last);
      SwapBatch();
      var i := 0;
      while batch != []
        invariant Valid() && inBatch && i + |batch| == |turns|
        invariant Run(world, TurnEvents(turns[i..]) + (last + [EndBatch])) == Run(old(world), BatchEvents(turns, last))
        invariant AllLegit(world, TurnEvents(turns[i..]) + (last + [EndBatch]))
        decreases |batch|
      {
        assert turns[i..][1..] == turns[i + 1..];
        TurnsUnfold(world, turns[i..], last);
        InvokeAll(turns[i].calls);
        RunTask(turns[i].errno);
        i := i + 1;
      }
      TurnsUnfold(world, turns[i..], last);
      InvokeAll(last);
      EndOfBatch();
    }
  }

  predicate Call(e: Event) { e.Stop? || e.Disconnect? || e.EnableRetry? || e.ForceClose? || (e.Start? && !e.own) }

  /** One function of the batch: the calls before it, and what an attempt of it meets. */
  datatype Turn = Turn(calls: seq<Event>, errno: Errno) {
    predicate Fits() { forall i | 0 <= i < |calls| :: Call(calls[i]) }
  }

  function TurnEvents(turns: seq<Turn>): seq<Event> {
    if turns == [] then [] else turns[0].calls + ([RunTask(turns[0].errno)] + TurnEvents(turns[1..]))
  }

  /** The events of one batch. */
  function BatchEvents(turns: seq<Turn>, last: seq<Event>): seq<Event> {
    [Swap] + (TurnEvents(turns) + (last + [EndBatch]))
  }

  lemma RunCons(s: ConnectorState.Connector, e: Event, b: seq<Event>)
    ensures Run(s, [e] + b) == Run(Step(s, e), b) && Run(s, [e]) == Step(s, e)
    ensures AllLegit(s, [e] + b) <==> Legit(s, e) && AllLegit(Step(s, e), b)
  {
    hide Step, Legit;
    assert ([e] + b)[1..] == b && [e][1..] == [];
    assert Run(Step(s, e), []) == Step(s, e);
  }

  lemma BatchUnfolds(s: ConnectorState.Connector, turns: seq<Turn>, last: seq<Event>)
    ensures Run(s, BatchEvents(turns, last)) == Run(Step(s, Swap), TurnEvents(turns) + (last + [EndBatch]))
    ensures AllLegit(s, BatchEvents(turns, last)) ==>
              AllLegit(Step(s, Swap), TurnEvents(turns) + (last + [EndBatch]))
    ensures turns[0..] == turns
  {
    hide Step, Run, AllLegit, Legit;
    RunCons(s, Swap, TurnEvents(turns) + (last + [EndBatch]));
  }

  lemma TurnsUnfold(s: ConnectorState.Connector, turns: seq<Turn>, last: seq<Event>)
    ensures turns == [] ==> Run(s, TurnEvents(turns) + (last + [EndBatch])) == Step(Run(s, last), EndBatch)
    ensures turns != [] ==>
              Run(s, TurnEvents(turns) + (last + [EndBatch]))
              == Run(Step(Run(s, turns[0].calls), RunTask(turns[0].errno)),
                  TurnEvents(turns[1..]) + (last + [EndBatch]))
    ensures turns == [] && AllLegit(s, TurnEvents(turns) + (last + [EndBatch])) ==> AllLegit(s, last)
    ensures turns != [] && AllLegit(s, TurnEvents(turns) + (last + [EndBatch])) ==>
              && AllLegit(s, turns[0].calls)
              && AllLegit(Step(Run(s, turns[0].calls), RunTask(turns[0].errno)),
                          TurnEvents(turns[1..]) + (last + [EndBatch]))
  {
    hide Step, Run, AllLegit, Legit;
    if turns == [] {
      assert TurnEvents(turns) + (last + [EndBatch]) == last + [EndBatch];
      RunConcat(s, last, [EndBatch]);
      RunCons(Run(s, last), EndBatch, []);
    } else {
      var calls, rest := turns[0].calls, TurnEvents(turns[1..]) + (last + [EndBatch]);
      var one := [RunTask(turns[0].errno)];
      assert TurnEvents(turns) + (last + [EndBatch]) == calls + (one + rest);
      RunConcat(s, calls, one + rest);
      RunCons(Run(s, calls), RunTask(turns[0].errno), rest);
    }
  }
}
