/**
  What every run of a TcpConnection keeps.
*/
module TcpProperties {
  import opened ByteStrings
  import opened NetBuffers
  import opened TcpState
  import EpollState

  /* ---------------------------------- the channel ---------------------------------- */

  /** The channel of a connection changes as the selector changes it, whenever the selector does not fail. */
  lemma UpdatedIsUpdateChannel<C>(s: EpollState.Selector<C>, c: C)
    requires c in s.channels
    ensures var o, ch := EpollState.UpdateChannel(s, c), s.channels[c];
            var after := ch.(state := Updated(ch.state, ch.requested != EpollState.NONE_EVENT));
            o.Fine? ==> o.next.channels == s.channels[c := after]
  {
  }

  /* ---------------------------------- the invariant ---------------------------------- */

  /** Nothing has happened to a connection that is not established yet. */
  predicate Untouched(c: Conn) {
    && !c.reading && !c.writing && c.output == c.sent == c.wire == [] && c.tasks == []
    && c.removals == c.shutWrites == 0
  }

  /** The interest in writing follows the output buffer while the connection is open. */
  predicate InterestFollowsOutput(c: Conn) {
    && (c.writing ==> c.output != [])
    && (Open(c) ==> (c.writing <==> c.output != []))
    && (c.state.DISCONNECTED? ==> !c.writing && !c.reading)
  }

  /** The output stream: complete while the connection is not closed, a prefix afterwards. */
  predicate StreamIntact(c: Conn) {
    && c.wire + c.output <= c.sent
    && (!c.state.DISCONNECTED? ==> c.wire + c.output == c.sent)
  }

  predicate CallbacksOnce(c: Conn) {
    && c.ups == (if c.state.CONNECTING? then 0 else 1)
    && c.downs == (if c.state.DISCONNECTED? then 1 else 0)
  }

  predicate Inv(c: Conn) {
    && c.received == c.consumed + c.input
    && (c.shutWrites > 0 || ShutdownTask in c.tasks ==> Rank(c.state) >= 2)
    && InterestFollowsOutput(c)
    && StreamIntact(c)
    && CallbacksOnce(c)
    && (c.state.CONNECTING? ==> Untouched(c))
  }

  function Rank(s: SocketState): nat {
    match s
    case CONNECTING => 0
    case CONNECTED => 1
    case DISCONNECTING => 2
    case DISCONNECTED => 3
  }

  /** What a step of the connection may do to its past. */
  predicate Onward(c: Conn, d: Conn) {
    && Rank(c.state) <= Rank(d.state)
    && c.wire <= d.wire && c.sent <= d.sent && c.received <= d.received && c.consumed <= d.consumed
  }

  lemma OnwardTrans(c: Conn, d: Conn, e: Conn)
    requires Onward(c, d) && Onward(d, e)
    ensures Onward(c, e)
  {
  }

  lemma SendInLoopInv(c: Conn, message: Bytes, direct: int)
    requires Inv(c) && !c.state.CONNECTING?
    ensures Inv(SendInLoop(c, message, direct)) && Onward(c, SendInLoop(c, message, direct))
    ensures SendInLoop(c, message, direct).failed == c.failed && SendInLoop(c, message, direct).state == c.state
  {
    assert c.wire + (c.output + message) == (c.wire + c.output) + message;
    assert c.wire + c.output <= c.sent <= c.sent + message;
    if message == [] { assert c.sent + message == c.sent; }
  }

  lemma HandleWriteInv(c: Conn, writable: int)
    requires Inv(c)
    ensures Inv(HandleWrite(c, writable)) && Onward(c, HandleWrite(c, writable))
    ensures HandleWrite(c, writable).state == c.state && HandleWrite(c, writable).failed == c.failed
  {
  }

  lemma HandleCloseInv(c: Conn)
    requires Inv(c)
    ensures Inv(HandleClose(c)) && Onward(c, HandleClose(c))
    ensures HandleClose(c).failed == (c.failed || !Open(c))
  {
  }

  lemma HandleReadInv(c: Conn, incoming: Incoming)
    requires Inv(c)
    ensures Inv(HandleRead(c, incoming)) && Onward(c, HandleRead(c, incoming))
  {
    if incoming.Received? {
      HandleCloseInv(c);
      assert c.consumed + (c.input + incoming.bytes) == (c.consumed + c.input) + incoming.bytes;
    }
  }

  lemma PerformInv(c: Conn, call: Call)
    requires Inv(c)
    ensures Inv(Perform(c, call)) && Onward(c, Perform(c, call)) && Perform(c, call).failed == c.failed
    ensures Open(c) ==> Open(Perform(c, call))
    ensures !Open(c) ==> Perform(c, call).state == c.state
  {
    match call
    case Send(message, own, direct) => SendInLoopOrNot(c, message, direct);
    case Shutdown(own) =>
    case ForceClose =>
    case Consume(n) =>
      if n <= |c.input| { assert (c.consumed + c.input[..n]) + c.input[n..] == c.consumed + c.input; }
  }

  lemma SendInLoopOrNot(c: Conn, message: Bytes, direct: int)
    requires Inv(c)
    ensures c.state.CONNECTED? ==>
              var d := SendInLoop(c, message, direct);
              Inv(d) && Onward(c, d) && d.failed == c.failed && d.state == c.state
  {
    if c.state.CONNECTED? { SendInLoopInv(c, message, direct); }
    hide Inv, Onward, SendInLoop;
  }

  lemma {:induction false} PerformAllInv(c: Conn, calls: seq<Call>)
    requires Inv(c)
    ensures Inv(PerformAll(c, calls)) && Onward(c, PerformAll(c, calls)) && PerformAll(c, calls).failed == c.failed
    ensures Open(c) ==> Open(PerformAll(c, calls))
    ensures !Open(c) ==> PerformAll(c, calls).state == c.state
    decreases |calls|
  {
    hide Inv, Perform;
    if calls != [] {
      PerformInv(c, calls[0]);
      PerformAllInv(Perform(c, calls[0]), calls[1..]);
    }
  }

  lemma HandleEventsInv(c: Conn, ready: Ready, writable: int, incoming: Incoming, calls: seq<Call>)
    requires Inv(c)
    ensures var d := HandleEvents(c, ready, writable, incoming, calls); Inv(d) && Onward(c, d)
  {
    hide Inv, HandleWrite, HandleRead, HandleClose, PerformAll;
    HandleWriteInv(c, writable);
    var afterWrite := if ready.pollOut then HandleWrite(c, writable) else c;
    HandleReadInv(afterWrite, incoming);
    var afterRead := HandleRead(afterWrite, incoming);
    PerformAllInv(afterRead, calls);
    HandleCloseInv(PerformAll(afterRead, calls));
    HandleCloseInv(afterWrite);
  }

  lemma RunOneInv(c: Conn, task: Task, direct: int)
    requires Inv(c) && !c.state.CONNECTING? && (task.ShutdownTask? ==> Rank(c.state) >= 2)
    ensures Inv(RunOne(c, task, direct)) && Onward(c, RunOne(c, task, direct))
  {
    match task
    case SendTask(message) => SendInLoopInv(c, message, direct);
    case ShutdownTask =>
    case ForceCloseTask => HandleCloseInv(c);
    case DestroyTask =>
  }

  lemma PopInv(c: Conn)
    requires Inv(c) && c.tasks != []
    ensures Inv(c.(tasks := c.tasks[1..])) && !c.state.CONNECTING? && (c.tasks[0].ShutdownTask? ==> Rank(c.state) >= 2)
  {
  }

  lemma RunTaskInv(c: Conn, direct: int)
    requires Inv(c)
    ensures Inv(Step(c, RunTask(direct))) && Onward(c, Step(c, RunTask(direct)))
  {
    if c.tasks != [] {
      PopInv(c);
      hide Inv, RunOne;
      RunOneInv(c.(tasks := c.tasks[1..]), c.tasks[0], direct);
    }
  }

  lemma StepInv(c: Conn, e: Event)
    requires Inv(c)
    ensures Inv(Step(c, e)) && Onward(c, Step(c, e))
  {
    match e
    case Establish =>
    case User(call) => PerformInv(c, call);
    case RunTask(direct) => RunTaskInv(c, direct);
    case Dispatch(ready, writable, incoming, calls) =>
      if c.channel.ADDED? { HandleEventsInv(c, ready, writable, incoming, calls); }
    case QueueDestroy =>
    case Destroy =>
  }

  lemma {:induction false} RunInv(c: Conn, events: seq<Event>)
    requires Inv(c)
    ensures Inv(Run(c, events)) && Onward(c, Run(c, events))
    decreases |events|
  {
    hide Inv, Step, Onward;
    if events != [] {
      StepInv(c, events[0]);
      RunInv(Step(c, events[0]), events[1..]);
      OnwardTrans(c, Step(c, events[0]), Run(c, events));
    } else {
      OnwardRefl(c);
    }
  }

  lemma OnwardRefl(c: Conn)
    ensures Onward(c, c)
  {
  }

  /* ---------------------------------- the streams ---------------------------------- */

  /** Whatever the writes return and whoever calls: the kernel has a prefix of what was sent, in order, and until
      the connection is closed the rest is in the output buffer. */
  lemma OutputStreamIntact(start: Conn, events: seq<Event>)
    requires New(start)
    ensures var c := Run(start, events); c.wire <= c.sent && (!c.state.DISCONNECTED? ==> c.wire + c.output == c.sent)
  {
    RunInv(start, events);
  }

  lemma InputStreamIntact(start: Conn, events: seq<Event>)
    requires New(start)
    ensures var c := Run(start, events); c.consumed + c.input == c.received
  {
    RunInv(start, events);
  }

  lemma WriteInterestTracksOutput(start: Conn, events: seq<Event>)
    requires New(start)
    ensures var c := Run(start, events); (c.writing ==> c.output != []) && (Open(c) ==> (c.writing <==> c.output != []))
  {
    RunInv(start, events);
  }

  /** The branch of sendInLoop that writes at once is dead: no result of ::write makes a difference. */
  lemma DirectWriteIsUnreachable(start: Conn, events: seq<Event>, message: Bytes, direct: int, other: int)
    requires New(start)
    ensures var c := Run(start, events);
            !(c.writing && c.output == []) && SendInLoop(c, message, direct) == SendInLoop(c, message, other)
  {
    RunInv(start, events);
  }

  /* ---------------------------------- the lifecycle ---------------------------------- */

  /** The state never moves backward and each connection callback is made at most once. */
  lemma LifecycleIsOneWay(start: Conn, before: seq<Event>, after: seq<Event>)
    requires New(start)
    ensures var c := Run(start, before); var d := Run(c, after);
            Rank(c.state) <= Rank(d.state) && d.ups <= 1 && d.downs <= 1 && d.downs <= d.ups
            && (d.downs == 1 <==> d.state.DISCONNECTED?)
  {
    RunInv(start, before);
    RunInv(Run(start, before), after);
  }

  /** The channel is in the selector exactly while the connection is open, and no assertion has failed. */
  predicate Sound(c: Conn) {
    && !c.failed
    && (c.channel.ADDED? <==> Open(c))
    && (Open(c) ==> c.reading)
    && (c.removals > 0 || DestroyTask in c.tasks ==> c.state.DISCONNECTED?)
    && Inv(c)
  }

  lemma PerformSound(c: Conn, call: Call)
    requires Sound(c)
    ensures Sound(Perform(c, call))
  {
    PerformInv(c, call);
    var d := Perform(c, call);
    assert forall i | 0 <= i < |d.tasks| :: d.tasks[i] == DestroyTask ==> i < |c.tasks| && c.tasks[i] == DestroyTask;
  }

  lemma {:induction false} PerformAllSound(c: Conn, calls: seq<Call>)
    requires Sound(c)
    ensures Sound(PerformAll(c, calls))
    decreases |calls|
  {
    hide Sound, Perform;
    if calls != [] {
      PerformSound(c, calls[0]);
      PerformAllSound(Perform(c, calls[0]), calls[1..]);
    }
  }

  lemma HandleWriteSound(c: Conn, writable: int)
    requires Sound(c)
    ensures Sound(HandleWrite(c, writable)) && HandleWrite(c, writable).state == c.state
  {
  }

  lemma HandleReadSound(c: Conn, incoming: Incoming)
    requires Sound(c) && Open(c)
    ensures Sound(HandleRead(c, incoming)) && (Open(HandleRead(c, incoming)) <==> incoming != Received([]))
  {
  }

  lemma HandleCloseSound(c: Conn)
    requires Sound(c)
    ensures HandleClose(c).failed <==> !Open(c)
    ensures Open(c) ==> Sound(HandleClose(c))
  {
  }

  /** The dispatches in which the assertion of handleClose fails. */
  predicate ClosesTwice(ready: Ready, incoming: Incoming) {
    ready.pollHup && !ready.pollIn && (ready.pollPri || ready.pollRdhup) && incoming == Received([])
  }

  /** The assertion of handleClose fails in a dispatch exactly when the peer's end of stream is read because of
      urgent data or a half-close and a hang-up without readable data is reported together with it. */
  lemma DispatchFailsIff(c: Conn, ready: Ready, writable: int, incoming: Incoming, calls: seq<Call>)
    requires Sound(c) && c.channel.ADDED?
    ensures var d := HandleEvents(c, ready, writable, incoming, calls);
            (d.failed <==> ClosesTwice(ready, incoming)) && (!d.failed ==> Sound(d))
  {
    assert Open(c);
    HandleWriteSound(c, writable);
    var afterWrite := if ready.pollOut then HandleWrite(c, writable) else c;
    assert Sound(afterWrite) && Open(afterWrite);
    HandleReadSound(afterWrite, incoming);
    var read := HandleRead(afterWrite, incoming);
    PerformAllSound(read, calls);
    assert Inv(read) && !PerformAll(read, calls).failed;
    PerformAllInv(read, calls);
    HandleCloseSound(PerformAll(read, calls));
    HandleCloseSound(afterWrite);
    hide Sound, Inv, HandleWrite, HandleRead, HandleClose, PerformAll;
  }

  /** What the handlers of a dispatch find. */
  lemma DispatchFinds(c: Conn, ready: Ready, writable: int, incoming: Incoming, calls: seq<Call>)
    requires Sound(c) && c.channel.ADDED?
    ensures var w := if ready.pollOut then HandleWrite(c, writable) else c;
            var r := if ready.pollIn || ready.pollPri || ready.pollRdhup
                     then PerformAll(HandleRead(w, incoming), calls) else w;
            && Open(w) && (!Open(r) ==> r.state.DISCONNECTED?)
            && (ClosesTwice(ready, incoming) ==> ready.pollHup && !ready.pollIn)
            && (ready.pollHup && !ready.pollIn ==> (Open(r) <==> !ClosesTwice(ready, incoming)))
  {
    HandleWriteSound(c, writable);
    var w := if ready.pollOut then HandleWrite(c, writable) else c;
    HandleReadSound(w, incoming);
    PerformAllInv(HandleRead(w, incoming), calls);
  }

  lemma ConsumeOnly(c: Conn, n: nat)
    requires n <= |c.input|
    ensures Perform(c, Consume(n)) == c.(input := c.input[n..], consumed := c.consumed + c.input[..n])
  {
  }

  /** The owner destroys the connection only before it is being disconnected or after it is closed. */
  predicate Considerate(c: Conn, e: Event) { e.Destroy? ==> !c.state.DISCONNECTING? }

  /** And the event is not a dispatch in which the assertion of handleClose fails. */
  predicate Calm(c: Conn, e: Event) {
    Considerate(c, e) && !(e.Dispatch? && c.channel.ADDED? && ClosesTwice(e.ready, e.incoming))
  }

  lemma DestroyIsSoundIff(c: Conn)
    requires Sound(c)
    ensures Sound(ConnectionDestory(c)) <==> !c.state.DISCONNECTING?
  {
  }

  lemma SendInLoopSound(c: Conn, message: Bytes, direct: int)
    requires Sound(c) && !c.state.CONNECTING?
    ensures Sound(SendInLoop(c, message, direct))
  {
  }

  lemma PopSound(c: Conn)
    requires Sound(c) && c.tasks != []
    ensures Sound(c.(tasks := c.tasks[1..])) && !c.state.CONNECTING?
            && (c.tasks[0].DestroyTask? ==> c.state.DISCONNECTED?)
    ensures c.tasks[0].ShutdownTask? ==> Sound(ShutdownInLoop(c.(tasks := c.tasks[1..])))
  {
  }

  lemma OpenIsAdded(c: Conn)
    requires Sound(c)
    ensures c.channel.ADDED? <==> Open(c)
  {
  }

  lemma RunTaskSound(c: Conn, direct: int)
    requires Sound(c) && c.tasks != []
    ensures Sound(Step(c, RunTask(direct)))
  {
    PopSound(c);
    var d := c.(tasks := c.tasks[1..]);
    match c.tasks[0]
    case SendTask(message) => SendInLoopSound(d, message, direct);
    case ShutdownTask =>
    case ForceCloseTask => HandleCloseSound(d);
    case DestroyTask => DestroyIsSoundIff(d);
  }

  lemma StepSound(c: Conn, e: Event)
    requires Sound(c) && Calm(c, e)
    ensures Sound(Step(c, e))
  {
    match e
    case Establish => StepInv(c, e);
    case User(call) => PerformSound(c, call);
    case RunTask(direct) => if c.tasks != [] { RunTaskSound(c, direct); }
    case Dispatch(ready, writable, incoming, calls) =>
      if c.channel.ADDED? { DispatchFailsIff(c, ready, writable, incoming, calls); }
    case QueueDestroy => StepInv(c, e);
    case Destroy => DestroyIsSoundIff(c);
  }

  ghost predicate CalmRun(c: Conn, events: seq<Event>)
    decreases |events|
  {
    events == [] || (Calm(c, events[0]) && CalmRun(Step(c, events[0]), events[1..]))
  }

  lemma {:induction false} RunSound(c: Conn, events: seq<Event>)
    requires Sound(c) && CalmRun(c, events)
    ensures Sound(Run(c, events))
    decreases |events|
  {
    if events != [] {
      StepSound(c, events[0]);
      RunSound(Step(c, events[0]), events[1..]);
    }
  }

  lemma StepStays(c: Conn, e: Event)
    requires c.failed
    ensures Step(c, e).failed
  {
    if e.Dispatch? { DispatchStays(c, e.ready, e.writable, e.incoming, e.calls); }
    hide HandleEvents;
  }

  lemma DispatchStays(c: Conn, ready: Ready, writable: int, incoming: Incoming, calls: seq<Call>)
    requires c.failed
    ensures HandleEvents(c, ready, writable, incoming, calls).failed
  {
    var w := if ready.pollOut then HandleWrite(c, writable) else c;
    assert w.failed && HandleRead(w, incoming).failed && HandleClose(w).failed;
    PerformAllStays(HandleRead(w, incoming), calls);
    assert HandleClose(PerformAll(HandleRead(w, incoming), calls)).failed;
    hide HandleWrite, HandleRead, HandleClose, PerformAll;
  }

  lemma {:induction false} PerformAllStays(c: Conn, calls: seq<Call>)
    requires c.failed
    ensures PerformAll(c, calls).failed
    decreases |calls|
  {
    if calls != [] { PerformAllStays(Perform(c, calls[0]), calls[1..]); }
  }

  lemma {:induction false} RunStays(c: Conn, events: seq<Event>)
    requires c.failed
    ensures Run(c, events).failed
    decreases |events|
  {
    if events != [] {
      StepStays(c, events[0]);
      hide Step;
      RunStays(Step(c, events[0]), events[1..]);
    }
  }

  /** The owner is considerate as long as nothing has failed. */
  ghost predicate ConsiderateRun(c: Conn, events: seq<Event>)
    decreases |events|
  {
    events == [] ||
    (Considerate(c, events[0]) && (Calm(c, events[0]) ==> ConsiderateRun(Step(c, events[0]), events[1..])))
  }

  /** Then an assertion fails in a run exactly when at some point a registered channel is dispatched with a hang-up,
      no readable data, and an end of stream that is read because of urgent data or a half-close. */
  lemma {:induction false} RunFailsIff(c: Conn, events: seq<Event>)
    requires Sound(c) && ConsiderateRun(c, events)
    ensures Run(c, events).failed <==> !CalmRun(c, events)
    decreases |events|
  {
    if events != [] {
      var e, d := events[0], Step(c, events[0]);
      if Calm(c, e) {
        StepSound(c, e);
        hide Sound, Step, Calm, Considerate;
        RunFailsIff(d, events[1..]);
      } else {
        DispatchFailsIff(c, e.ready, e.writable, e.incoming, e.calls);
        hide HandleEvents;
        RunStays(d, events[1..]);
      }
    }
  }

  /** On calm runs no assertion fails, however often forceClose is called and whatever is dispatched: handleClose
      runs at most once, on an open connection, and the channel is in the selector exactly while it is open. */
  lemma CalmRunsAreSound(start: Conn, events: seq<Event>)
    requires New(start) && CalmRun(start, events)
    ensures var c := Run(start, events); Sound(c) && !c.failed && (c.channel.ADDED? <==> Open(c))
  {
    RunSound(start, events);
  }

  /** Destroyed while disconnecting, the connection is put back into the selector by its own forced close, and the
      next hang-up fails the assertion. */
  lemma DestroyWhileDisconnectingFails(c: Conn, direct: int, writable: int, incoming: Incoming)
    requires Sound(c) && c.state.DISCONNECTING? && c.tasks != [] && c.tasks[0] == ForceCloseTask
    ensures var d := Step(Step(c, Destroy), RunTask(direct));
            d.state.DISCONNECTED? && d.channel.ADDED?
            && Step(d, Dispatch(Ready(false, false, false, false, false, true), writable, incoming, [])).failed
  {
  }

  /* ---------------------------------- half-close ---------------------------------- */

  /** The call is made by the loop thread. */
  predicate OwnCall(call: Call) {
    (call.Send? || call.Shutdown?) ==> call.own
  }

  predicate OwnEvent(e: Event) {
    && (e.User? ==> OwnCall(e.call))
    && (e.Dispatch? ==> forall i | 0 <= i < |e.calls| :: OwnCall(e.calls[i]))
  }

  predicate OwnRun(events: seq<Event>) {
    forall i | 0 <= i < |events| :: OwnEvent(events[i])
  }

  /** SHUT_WR is issued at most once and only when everything sent is with the kernel; no message waits on the
      task queue. */
  predicate HalfClosing(c: Conn) {
    && (forall i | 0 <= i < |c.tasks| :: c.tasks[i].ForceCloseTask? || c.tasks[i].DestroyTask?)
    && c.shutWrites <= 1
    && (c.shutWrites == 1 ==> c.output == [] && c.wire == c.sent)
  }

  /** Nothing is sent any more. */
  predicate Frozen(c: Conn, d: Conn) {
    Rank(c.state) >= 2 ==> d.sent == c.sent && (c.shutWrites == 1 ==> d.wire == c.wire && d.shutWrites == 1)
  }

  lemma PerformHalfClosing(c: Conn, call: Call)
    requires Inv(c) && HalfClosing(c) && OwnCall(call)
    ensures HalfClosing(Perform(c, call)) && Frozen(c, Perform(c, call))
  {
    PerformInv(c, call);
    if call.Shutdown? && c.state.CONNECTED? && c.output == [] { assert c.wire + c.output == c.wire; }
  }

  lemma {:induction false} PerformAllHalfClosing(c: Conn, calls: seq<Call>)
    requires Inv(c) && HalfClosing(c) && forall i | 0 <= i < |calls| :: OwnCall(calls[i])
    ensures HalfClosing(PerformAll(c, calls)) && Frozen(c, PerformAll(c, calls))
    decreases |calls|
  {
    if calls != [] {
      PerformHalfClosing(c, calls[0]);
      PerformInv(c, calls[0]);
      hide Inv, HalfClosing, Perform;
      PerformAllHalfClosing(Perform(c, calls[0]), calls[1..]);
    }
  }

  lemma HandleWriteHalfClosing(c: Conn, writable: int)
    requires Inv(c) && HalfClosing(c)
    ensures HalfClosing(HandleWrite(c, writable)) && Frozen(c, HandleWrite(c, writable))
    ensures HandleWrite(c, writable).state == c.state
  {
  }

  lemma HandleReadHalfClosing(c: Conn, incoming: Incoming)
    requires Inv(c) && HalfClosing(c)
    ensures HalfClosing(HandleRead(c, incoming)) && Frozen(c, HandleRead(c, incoming))
  {
    HandleReadInv(c, incoming);
  }

  lemma HandleCloseHalfClosing(c: Conn)
    requires Inv(c) && HalfClosing(c)
    ensures HalfClosing(HandleClose(c)) && Frozen(c, HandleClose(c))
  {
  }

  lemma FrozenTrans(c: Conn, d: Conn, e: Conn)
    requires Frozen(c, d) && Frozen(d, e) && Rank(c.state) <= Rank(d.state)
    ensures Frozen(c, e)
  {
  }

  lemma DispatchHalfClosing(c: Conn, ready: Ready, writable: int, incoming: Incoming, calls: seq<Call>)
    requires Inv(c) && HalfClosing(c) && forall i | 0 <= i < |calls| :: OwnCall(calls[i])
    ensures var d := HandleEvents(c, ready, writable, incoming, calls); HalfClosing(d) && Frozen(c, d)
  {
    hide HalfClosing, Inv, HandleWrite, HandleRead, HandleClose, PerformAll, Frozen;
    HandleWriteHalfClosing(c, writable);
    HandleWriteInv(c, writable);
    var w := if ready.pollOut then HandleWrite(c, writable) else c;
    HandleReadHalfClosing(w, incoming);
    HandleReadInv(w, incoming);
    var r := HandleRead(w, incoming);
    PerformAllHalfClosing(r, calls);
    PerformAllInv(r, calls);
    var p := PerformAll(r, calls);
    HandleCloseHalfClosing(p);
    HandleCloseHalfClosing(w);
    FrozenRefl(c);
    FrozenTrans(c, w, HandleClose(w));
    FrozenTrans(c, w, r);
    FrozenTrans(c, r, p);
    FrozenTrans(c, p, HandleClose(p));
  }

  lemma FrozenRefl(c: Conn)
    ensures Frozen(c, c)
  {
  }

  lemma RunTaskHalfClosing(c: Conn, direct: int)
    requires Inv(c) && HalfClosing(c)
    ensures HalfClosing(Step(c, RunTask(direct))) && Frozen(c, Step(c, RunTask(direct)))
  {
    RunTaskInv(c, direct);
    if c.tasks != [] {
      var d := c.(tasks := c.tasks[1..]);
      assert forall i | 0 <= i < |d.tasks| :: d.tasks[i] == c.tasks[i + 1];
    }
  }

  lemma StepHalfClosing(c: Conn, e: Event)
    requires Inv(c) && HalfClosing(c) && OwnEvent(e)
    ensures HalfClosing(Step(c, e)) && Frozen(c, Step(c, e))
  {
    match e
    case Establish => StepInv(c, e);
    case User(call) => PerformHalfClosing(c, call);
    case RunTask(direct) => RunTaskHalfClosing(c, direct);
    case Dispatch(ready, writable, incoming, calls) =>
      if c.channel.ADDED? { DispatchHalfClosing(c, ready, writable, incoming, calls); }
    case QueueDestroy => StepInv(c, e);
    case Destroy => StepInv(c, e);
  }

  lemma {:induction false} RunHalfClosing(c: Conn, events: seq<Event>)
    requires Inv(c) && HalfClosing(c) && OwnRun(events)
    ensures HalfClosing(Run(c, events)) && Frozen(c, Run(c, events))
    decreases |events|
  {
    if events != [] {
      StepHalfClosing(c, events[0]);
      StepInv(c, events[0]);
      hide Inv, HalfClosing, Step;
      RunHalfClosing(Step(c, events[0]), events[1..]);
    }
  }

  /** With callers in the loop thread: SHUT_WR at most once, only after every byte sent has been accepted by the
      kernel, and no byte is sent once the connection is closing. */
  lemma HalfCloseAfterDrain(start: Conn, before: seq<Event>, after: seq<Event>)
    requires New(start) && OwnRun(before) && OwnRun(after)
    ensures var c := Run(start, before); var d := Run(c, after);
            && c.shutWrites <= 1
            && (c.shutWrites == 1 ==>
                  c.wire == c.sent && c.output == [] && d.shutWrites == 1 && d.wire == d.sent == c.sent)
            && (Rank(c.state) >= 2 ==> d.sent == c.sent)
  {
    RunInv(start, before);
    RunHalfClosing(start, before);
    RunHalfClosing(Run(start, before), after);
  }

  /** No call of forceClose. */
  predicate GentleCall(call: Call) { OwnCall(call) && !call.ForceClose? }

  predicate GentleEvent(e: Event) {
    (e.User? ==> GentleCall(e.call)) && (e.Dispatch? ==> forall i | 0 <= i < |e.calls| :: GentleCall(e.calls[i]))
  }

  /** While it is disconnecting: SHUT_WR has been issued exactly when the output buffer is empty. */
  predicate Graceful(c: Conn) {
    c.state.DISCONNECTING? ==> (c.shutWrites == 1 <==> c.output == [])
  }

  lemma PerformGraceful(c: Conn, call: Call)
    requires Inv(c) && HalfClosing(c) && Graceful(c) && GentleCall(call)
    ensures Graceful(Perform(c, call))
  {
    PerformHalfClosing(c, call);
  }

  lemma {:induction false} PerformAllGraceful(c: Conn, calls: seq<Call>)
    requires Inv(c) && HalfClosing(c) && Graceful(c) && forall i | 0 <= i < |calls| :: GentleCall(calls[i])
    ensures Graceful(PerformAll(c, calls))
    decreases |calls|
  {
    if calls != [] {
      PerformGraceful(c, calls[0]);
      PerformHalfClosing(c, calls[0]);
      PerformInv(c, calls[0]);
      hide Inv, HalfClosing, Graceful, Perform;
      PerformAllGraceful(Perform(c, calls[0]), calls[1..]);
    }
  }

  lemma HandleWriteGraceful(c: Conn, writable: int)
    requires Inv(c) && HalfClosing(c) && Graceful(c)
    ensures Graceful(HandleWrite(c, writable))
  {
  }

  lemma HandleReadGraceful(c: Conn, incoming: Incoming)
    requires Inv(c) && HalfClosing(c) && Graceful(c)
    ensures Graceful(HandleRead(c, incoming)) && Graceful(HandleClose(c))
  {
    HandleReadHalfClosing(c, incoming);
    HandleCloseHalfClosing(c);
  }

  lemma DispatchGraceful(c: Conn, ready: Ready, writable: int, incoming: Incoming, calls: seq<Call>)
    requires Inv(c) && HalfClosing(c) && Graceful(c) && (forall i | 0 <= i < |calls| :: GentleCall(calls[i]))
    ensures Graceful(HandleEvents(c, ready, writable, incoming, calls))
  {
    hide Inv, HalfClosing, Graceful, HandleWrite, HandleRead, HandleClose, PerformAll;
    HandleWriteInv(c, writable);
    HandleWriteHalfClosing(c, writable);
    HandleWriteGraceful(c, writable);
    var w := if ready.pollOut then HandleWrite(c, writable) else c;
    HandleReadInv(w, incoming);
    HandleReadHalfClosing(w, incoming);
    HandleReadGraceful(w, incoming);
    var r := HandleRead(w, incoming);
    PerformAllInv(r, calls);
    PerformAllHalfClosing(r, calls);
    PerformAllGraceful(r, calls);
    HandleReadGraceful(PerformAll(r, calls), incoming);
  }

  lemma StepGraceful(c: Conn, e: Event)
    requires Inv(c) && HalfClosing(c) && Graceful(c) && GentleEvent(e)
    ensures Graceful(Step(c, e))
  {
    match e
    case Establish => StepHalfClosing(c, e);
    case User(call) => PerformGraceful(c, call);
    case RunTask(direct) => StepHalfClosing(c, e);
    case Dispatch(ready, writable, incoming, calls) =>
      if c.channel.ADDED? {
        DispatchGraceful(c, ready, writable, incoming, calls);
        hide Inv, HalfClosing, Graceful, HandleEvents;
      }
    case QueueDestroy => StepHalfClosing(c, e);
    case Destroy => StepHalfClosing(c, e);
  }

  lemma {:induction false} RunGraceful(c: Conn, events: seq<Event>)
    requires Inv(c) && HalfClosing(c) && Graceful(c) && forall i | 0 <= i < |events| :: GentleEvent(events[i])
    ensures Graceful(Run(c, events))
    decreases |events|
  {
    if events != [] {
      StepGraceful(c, events[0]);
      StepHalfClosing(c, events[0]);
      StepInv(c, events[0]);
      hide Inv, HalfClosing, Graceful, Step;
      RunGraceful(Step(c, events[0]), events[1..]);
    }
  }

  /** Without forced closes, a disconnecting connection has half-closed exactly when its output is drained: the
      shutdown is never forgotten. */
  lemma ShutdownHappensIffDrained(start: Conn, events: seq<Event>)
    requires New(start) && forall i | 0 <= i < |events| :: GentleEvent(events[i])
    ensures var c := Run(start, events); c.state.DISCONNECTING? ==> (c.shutWrites == 1 <==> c.wire == c.sent)
  {
    RunGraceful(start, events);
    RunInv(start, events);
    var c := Run(start, events);
    if c.state.DISCONNECTING? && c.wire == c.sent {
      assert |c.wire + c.output| == |c.wire|;
    }
  }

  /* ---------------------------------- calls from other threads ---------------------------------- */

  /** A second SHUT_WR is issued exactly when a shutdown queued by another thread runs after the first one. */
  lemma SecondShutdownIff(c: Conn, e: Event)
    requires Inv(c) && c.shutWrites > 0
    ensures Step(c, e).shutWrites > c.shutWrites <==>
              && e.RunTask? && c.tasks != [] && c.tasks[0].ShutdownTask?
              && !c.writing
  {
    if e.Dispatch? {
      DispatchAfterShutdown(c, e.ready, e.writable, e.incoming, e.calls);
      hide HandleEvents;
    }
  }

  /** Nothing that is dispatched sends or shuts down again. */
  lemma DispatchAfterShutdown(c: Conn, ready: Ready, writable: int, incoming: Incoming, calls: seq<Call>)
    requires Inv(c) && c.shutWrites > 0
    ensures var d := HandleEvents(c, ready, writable, incoming, calls); d.shutWrites == c.shutWrites && d.sent == c.sent
  {
    assert HandleWrite(c, writable) == c;
    var r := HandleRead(c, incoming);
    HandleReadInv(c, incoming);
    PerformAllKeepsShutWrites(r, calls);
  }

  lemma {:induction false} PerformAllKeepsShutWrites(c: Conn, calls: seq<Call>)
    requires Inv(c) && c.shutWrites > 0
    ensures PerformAll(c, calls).shutWrites == c.shutWrites && PerformAll(c, calls).sent == c.sent
    decreases |calls|
  {
    if calls != [] {
      PerformInv(c, calls[0]);
      var d := Perform(c, calls[0]);
      assert d.shutWrites == c.shutWrites && d.sent == c.sent;
      hide Inv, Perform;
      PerformAllKeepsShutWrites(d, calls[1..]);
    }
  }

  /** Bytes are sent after SHUT_WR exactly when a message queued by another thread runs after it. */
  lemma LateBytesIff(c: Conn, e: Event)
    requires Inv(c) && c.shutWrites > 0
    ensures Step(c, e).sent != c.sent <==>
              && e.RunTask? && c.tasks != [] && c.tasks[0].SendTask?
              && c.tasks[0].message != []
  {
    if e.Dispatch? {
      DispatchAfterShutdown(c, e.ready, e.writable, e.incoming, e.calls);
      hide HandleEvents;
    } else if e.RunTask? && c.tasks != [] && c.tasks[0].SendTask? {
      assert |c.sent + c.tasks[0].message| == |c.sent| + |c.tasks[0].message|;
      if c.tasks[0].message == [] { assert c.sent + [] == c.sent; }
    }
  }

  /** Both happen: a shutdown by another thread while output is pending, then a drain; a message by another
      thread, then a shutdown by the loop thread. */
  lemma ForeignShutdownTwice(c: Conn, direct: int)
    requires Sound(c) && c.state.CONNECTED? && c.output != [] && c.tasks == []
    ensures var pollOut := Ready(true, false, false, false, false, false);
            var d := Step(Step(c, User(Shutdown(false))), Dispatch(pollOut, |c.output|, Error, []));
            d.shutWrites == 1 && Step(d, RunTask(direct)).shutWrites == 2
  {
  }

  lemma ForeignSendAfterShutdown(c: Conn, message: Bytes, direct: int, writable: int)
    requires Sound(c) && c.state.CONNECTED? && c.output == [] && c.tasks == [] && message != []
    ensures var d := Step(Step(Step(c, User(Send(message, false, direct))), User(Shutdown(true))), RunTask(direct));
            d.shutWrites == 1 && d.output == message && HandleWrite(d, writable) == d
  {
  }
}
