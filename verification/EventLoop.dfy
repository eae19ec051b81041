/**
  EventLoop as an object.  `world` is the state machine of LoopState that the object goes through; Valid() ties
  the fields, the eventfd counter and the log of executed functions to it.  Handlers, tasks and other threads
  are scripts of events that happen at the point where the source calls or admits them.
*/
module EventLoops {
  import opened LoopProperties
  import opened LoopState

  /** What other threads do. */
  predicate Foreign(e: Event) {
    e.ForeignPush? || e.ForeignWake? || e.ForeignQuit? || e.ForeignQuitWake?
  }

  /** What may happen while a handler or a task runs: also the loop thread queues or quits. */
  predicate Ambient(e: Event) {
    Foreign(e) || e.QueueInLoop? || e.Quit?
  }

  predicate AllForeign(events: seq<Event>) {
    forall i | 0 <= i < |events| :: Foreign(events[i])
  }

  predicate AllAmbient(events: seq<Event>) {
    forall i | 0 <= i < |events| :: Ambient(events[i])
  }

  /** What happens in one iteration: other threads before the test of running_ and while the loop thread is in
      epoll_wait, whether the wakeup channel is among the ready ones, the handlers before and after it, and one
      script per function of the batch. */
  datatype Iteration = Iteration(
    testing: seq<Event>,
    waiting: seq<Event>,
    ready: bool,
    before: seq<Event>,
    after: seq<Event>,
    tasks: seq<seq<Event>>)
  {
    predicate Fits() {
      && AllForeign(testing) && AllForeign(waiting) && AllAmbient(before) && AllAmbient(after)
      && forall i | 0 <= i < |tasks| :: AllAmbient(tasks[i])
    }

    /** The events from epoll_wait to the next test, if the wakeup channel is reported or not and n functions run. */
    ghost function Body(reported: bool, n: nat): seq<Event> {
      waiting + [Return(ready)] + WithRead(before, reported, after) + BatchOf(tasks, n)
    }
  }

  /** The handlers, with the one that reads the wakeup among them. */
  ghost function WithRead(before: seq<Event>, reported: bool, after: seq<Event>): seq<Event> {
    if reported then before + [ReadWakeup] + after else before + after
  }

  /** A batch of n functions: each is followed by what happens while it runs. */
  ghost function BatchOf(during: seq<seq<Event>>, n: nat): seq<Event> { TasksOf(during, n) + [EndBatch] }

  ghost function TasksOf(during: seq<seq<Event>>, n: nat): seq<Event> {
    if n == 0 then [Swap]
    else TasksOf(during, n - 1) + ([RunTask] + if n - 1 < |during| then during[n - 1] else [])
  }

  /** What differs from one iteration to the next besides the script: whether the wakeup is reported and how many
      functions are pending. */
  datatype Found = Found(reported: bool, functions: nat)

  /** The first n iterations of a call of loop(). */
  ghost function Iterations(script: seq<Iteration>, found: seq<Found>, n: nat): seq<Event>
    requires n <= |script| && n <= |found|
  {
    if n == 0 then [Start]
    else
      var f := found[n - 1];
      Iterations(script, found, n - 1) + (script[n - 1].testing + [Test]) + script[n - 1].Body(f.reported, f.functions)
  }

  lemma IterationsExtend(script: seq<Iteration>, found: seq<Found>, f: Found)
    requires |found| < |script|
    ensures var it := script[|found|];
            Iterations(script, found + [f], |found| + 1) ==
            Iterations(script, found, |found|) + (it.testing + [Test]) + it.Body(f.reported, f.functions)
  {
    IterationsKept(script, found, f, |found|);
    hide Iteration.Body;
  }

  lemma {:induction false} IterationsKept(script: seq<Iteration>, found: seq<Found>, f: Found, n: nat)
    requires n <= |script| && n <= |found|
    ensures Iterations(script, found + [f], n) == Iterations(script, found, n)
  {
    if n > 0 { IterationsKept(script, found, f, n - 1); }
    hide Iteration.Body;
  }

  /** What a script queues, in order. */
  function Queued(events: seq<Event>): seq<Task> {
    if events == [] then []
    else TaskOf(events[0]) + Queued(events[1..])
  }

  function TaskOf(e: Event): seq<Task> {
    if e.QueueInLoop? || e.ForeignPush? then [e.task] else []
  }

  lemma NothingHappens(s: Loop)
    ensures Run(s, []) == s && Queued([]) == []
  {
  }

  lemma {:induction false} QueuedSnoc(events: seq<Event>, e: Event)
    ensures Queued(events + [e]) == Queued(events) + TaskOf(e)
  {
    if events == [] {
      assert [] + [e] == [e];
      assert [e][1..] == [];
      assert Queued([e]) == TaskOf(e) + Queued([]);
      assert TaskOf(e) + [] == TaskOf(e) == [] + TaskOf(e);
    } else {
      assert (events + [e])[1..] == events[1..] + [e];
      QueuedSnoc(events[1..], e);
      hide TaskOf;
      assert Queued(events + [e]) == TaskOf(events[0]) + (Queued(events[1..]) + TaskOf(e));
    }
  }

  class EventLoop {
    var looping: bool
    var running: bool
    var pendingFunctions: seq<Task>
    var callingPendingFunctions: bool
    var wakeupCounter: nat  // the kernel's counter behind wakeupFd_
    var producers: nat      // the threads between their queueing of a task and their wakeup
    var quitters: nat       // the threads between their quit and their wakeup
    ghost var executed: seq<Task>
    ghost var world: Loop

    ghost predicate Coupled()
      reads this
    {
      && looping == world.looping && running == world.running && pendingFunctions == world.pending
      && callingPendingFunctions == world.calling && wakeupCounter == world.tokens && executed == world.ran
      && producers == world.wakes && quitters == world.quits
    }

    ghost predicate Valid()
      reads this
    {
      Coupled() && Inv(world)
    }

    constructor ()
      ensures Valid() && New(world)
    {
      looping, running, callingPendingFunctions := false, false, false;
      pendingFunctions, wakeupCounter, producers, quitters := [], 0, 0, 0;
      executed := [];
      world := Loop(Idle, false, false, false, [], 0, 0, 0, false, [], [], [], 0, 0, 0, 0);
    }

    /** A write of one to the semaphore. */
    method Wakeup()
      modifies this`wakeupCounter
      ensures wakeupCounter == old(wakeupCounter) + 1
    {
      wakeupCounter := wakeupCounter + 1;
    }

    /** EventLoop::queueInLoop; a thread other than the loop's writes its wakeup some time later. */
    method QueueInLoop(task: Task, isInLoopThread: bool)
      requires Valid() && (isInLoopThread ==> !world.phase.Check? && !world.phase.Select?)
      modifies this
      ensures Valid()
      ensures world == Step(old(world), if isInLoopThread then Event.QueueInLoop(task) else ForeignPush(task))
    {
      ghost var e := if isInLoopThread then Event.QueueInLoop(task) else ForeignPush(task);
      StepInv(world, e);
      pendingFunctions := pendingFunctions + [task];
      if !isInLoopThread {
        producers := producers + 1;
      } else if callingPendingFunctions {
        Wakeup();
      }
      world := Step(world, e);
    }

    /** EventLoop::quit, likewise. */
    method Quit(isInLoopThread: bool)
      requires Valid() && (isInLoopThread ==> !world.phase.Check? && !world.phase.Select?)
      modifies this
      ensures Valid() && world == Step(old(world), if isInLoopThread then Event.Quit else ForeignQuit)
    {
      ghost var e := if isInLoopThread then Event.Quit else ForeignQuit;
      StepInv(world, e);
      running := false;
      if !isInLoopThread {
        quitters := quitters + 1;
      }
      world := Step(world, e);
    }

    /** The second half of a queueInLoop or a quit in another thread. */
    method WakeAfterQueueing()
      requires Valid()
      modifies this
      ensures Valid() && world == Step(old(world), ForeignWake)
    {
      StepInv(world, ForeignWake);
      if producers > 0 {
        producers := producers - 1;
        Wakeup();
      }
      world := Step(world, ForeignWake);
    }

    method WakeAfterQuitting()
      requires Valid()
      modifies this
      ensures Valid() && world == Step(old(world), ForeignQuitWake)
    {
      StepInv(world, ForeignQuitWake);
      if quitters > 0 {
        quitters := quitters - 1;
        Wakeup();
      }
      world := Step(world, ForeignQuitWake);
    }

    method Occur(e: Event)
      requires Valid() && Ambient(e) && (Foreign(e) || (!world.phase.Check? && !world.phase.Select?))
      modifies this
      ensures Valid() && world == Step(old(world), e) && world.phase == old(world.phase)
      ensures world.swaps == old(world.swaps) && world.reported == old(world.reported)
      ensures world.ran == old(world.ran) && world.batch == old(world.batch)
      ensures world.queued == old(world.queued) + TaskOf(e) && pendingFunctions == old(pendingFunctions) + TaskOf(e)
    {
      hide Inv;
      match e
      case QueueInLoop(task) => QueueInLoop(task, true);
      case Quit => Quit(true);
      case ForeignPush(task) => QueueInLoop(task, false);
      case ForeignQuit => Quit(false);
      case ForeignWake => WakeAfterQueueing();
      case ForeignQuitWake => WakeAfterQuitting();
    }

    method OccurAll(events: seq<Event>)
      requires Valid() && AllAmbient(events)
      requires AllForeign(events) || (!world.phase.Check? && !world.phase.Select?)
      modifies this
      ensures Valid() && world == Run(old(world), events) && world.phase == old(world.phase)
      ensures pendingFunctions == old(pendingFunctions) + Queued(events)
      ensures world.swaps == old(world.swaps) && world.reported == old(world.reported)
      ensures world.ran == old(world.ran) && world.batch == old(world.batch)
      ensures world.queued == old(world.queued) + Queued(events)
    {
      hide Run, Step, Inv, Queued, TaskOf;
      NothingHappens(world);
      assert events[..0] == [];
      for i := 0 to |events|
        invariant Valid() && world == Run(old(world), events[..i]) && world.phase == old(world.phase)
        invariant pendingFunctions == old(pendingFunctions) + Queued(events[..i])
        invariant world.swaps == old(world.swaps) && world.reported == old(world.reported)
        invariant world.ran == old(world.ran) && world.batch == old(world.batch)
        invariant world.queued == old(world.queued) + Queued(events[..i])
      {
        Occur(events[i]);
        assert events[..i + 1] == events[..i] + [events[i]];
        RunSnoc(old(world), events[..i], events[i]);
        QueuedSnoc(events[..i], events[i]);
      }
      assert events[..|events|] == events;
    }

    /** EventLoop::wakeupReadCallback: the read finds a token. */
    method WakeupReadCallback()
      requires Valid() && world.phase.Handle? && world.reported
      modifies this
      ensures Valid() && world == Step(old(world), ReadWakeup) && wakeupCounter == old(wakeupCounter) - 1
    {
      StepInv(world, ReadWakeup);
      assert wakeupCounter > 0;
      wakeupCounter := wakeupCounter - 1;
      world := Step(world, ReadWakeup);
    }

    /** The call of one function of the batch. */
    method RunOne(func: Task, during: seq<Event>) returns (ghost trace: seq<Event>)
      requires Valid() && world.phase.Batch? && world.batch != [] && world.batch[0] == func && AllAmbient(during)
      modifies this
      ensures Valid() && world == Run(old(world), trace) && world.phase.Batch? && trace == [RunTask] + during
      ensures world.batch == old(world.batch)[1..] && executed == old(executed) + [func]
      ensures pendingFunctions == old(pendingFunctions) + Queued(during)
      ensures world.queued == old(world.queued) + Queued(during) && world.swaps == old(world.swaps)
    {
      hide Run, Inv, Queued;
      StepInv(world, RunTask);
      executed := executed + [func];
      world := Step(world, RunTask);
      RunSnoc(old(world), [], RunTask);
      NothingHappens(old(world));
      ghost var before := world;
      OccurAll(during);
      RunConcat(old(world), [] + [RunTask], during);
      trace := [RunTask] + during;
      assert [] + [RunTask] == [RunTask];
    }

    /** The head and the end of doPendingFunctions. */
    method SwapFunctions() returns (functions: seq<Task>)
      requires Valid() && world.phase.Handle? && !world.reported
      modifies this
      ensures Valid() && world == Step(old(world), Swap) && world.phase.Batch? && pendingFunctions == []
      ensures functions == old(pendingFunctions) == world.batch
      ensures world.queued == old(world.queued) && executed == old(executed) && world.swaps == old(world.swaps) + 1
    {
      StepInv(world, Swap);
      callingPendingFunctions := true;
      functions := pendingFunctions;
      pendingFunctions := [];
      world := Step(world, Swap);
    }

    method EndFunctions()
      requires Valid() && world.phase.Batch? && world.batch == []
      modifies this
      ensures Valid() && world == Step(old(world), EndBatch) && world.phase.Check?
      ensures pendingFunctions == old(pendingFunctions)
      ensures world.queued == old(world.queued) && executed == old(executed)
      ensures world.swaps == old(world.swaps)
    {
      StepInv(world, EndBatch);
      callingPendingFunctions := false;
      world := Step(world, EndBatch);
    }

    /** EventLoop::doPendingFunctions: runs what was pending when it was called and nothing else, in
        order; `during[i]` is what happens while the i-th one runs. */
    method DoPendingFunctions(during: seq<seq<Event>>) returns (ghost trace: seq<Event>)
      requires Valid() && world.phase.Handle? && !world.reported
      requires forall i | 0 <= i < |during| :: AllAmbient(during[i])
      modifies this
      ensures Valid() && world == Run(old(world), trace) && world.phase.Check?
      ensures trace == BatchOf(during, |old(pendingFunctions)|)
      ensures executed == old(executed) + old(pendingFunctions)
      ensures world.queued == old(world.queued) + pendingFunctions && world.swaps == old(world.swaps) + 1
    {
      hide Run, Step, Inv, Queued;
      var functions := SwapFunctions();
      trace := [] + [Swap];
      RunSnoc(old(world), [], Swap);
      NothingHappens(old(world));
      for i := 0 to |functions|
        invariant Valid() && world == Run(old(world), trace) && world.phase.Batch? && trace == TasksOf(during, i)
        invariant world.batch == functions[i..] && executed == old(executed) + functions[..i]
        invariant world.queued == old(world.queued) + pendingFunctions && world.swaps == old(world.swaps) + 1
      {
        assert functions[i..][1..] == functions[i + 1..];
        ghost var more := RunOne(functions[i], if i < |during| then during[i] else []);
        RunConcat(old(world), trace, more);
        trace := trace + more;
        assert functions[..i + 1] == functions[..i] + [functions[i]];
      }
      RunSnoc(old(world), trace, EndBatch);
      trace := trace + [EndBatch];
      EndFunctions();
      assert functions[..|functions|] == functions;
    }

    /** epoll_wait returns: whether the wakeup channel is among the ready ones. */
    method Select(waiting: seq<Event>, ready: bool) returns (reported: bool, ghost trace: seq<Event>)
      requires Valid() && world.phase.Select? && AllForeign(waiting)
      modifies this
      ensures Valid() && world == Run(old(world), trace) && world.phase.Handle? && world.reported == reported
      ensures trace == waiting + [Return(ready)] && (reported ==> ready)
      ensures world.queued == old(world.queued) + Queued(waiting) && world.swaps == old(world.swaps)
      ensures looping == old(looping)
    {
      hide Run, Queued;
      OccurAll(waiting);
      StepInv(world, Return(ready));
      reported := ready && wakeupCounter > 0;
      world := Step(world, Return(ready));
      RunSnoc(old(world), waiting, Return(ready));
      trace := waiting + [Return(ready)];
    }

    /** The handlers of the active channels, with the one that reads the wakeup. */
    method Handlers(before: seq<Event>, reported: bool, after: seq<Event>) returns (ghost trace: seq<Event>)
      requires Valid() && world.phase.Handle? && world.reported == reported && AllAmbient(before) && AllAmbient(after)
      modifies this
      ensures Valid() && world == Run(old(world), trace) && world.phase.Handle? && !world.reported
      ensures trace == WithRead(before, reported, after)
      ensures world.queued == old(world.queued) + Queued(before) + Queued(after) && world.swaps == old(world.swaps)
      ensures looping == old(looping)
    {
      hide Run, Queued;
      OccurAll(before);
      trace := before;
      if reported {
        WakeupReadCallback();
        RunSnoc(old(world), trace, ReadWakeup);
        trace := trace + [ReadWakeup];
      }
      OccurAll(after);
      RunConcat(old(world), trace, after);
      trace := trace + after;
    }

    /** The body of the while loop of loop(). */
    method LoopBody(it: Iteration) returns (ghost trace: seq<Event>, ghost found: Found)
      requires Valid() && world.phase.Select? && it.Fits()
      modifies this
      ensures Valid() && world == Run(old(world), trace) && world.phase.Check?
      ensures trace == it.Body(found.reported, found.functions)
      ensures old(world.queued) + Queued(it.waiting) + Queued(it.before) + Queued(it.after) == executed
      ensures world.swaps == old(world.swaps) + 1 && looping == old(looping)
    {
      hide Run, Step, Queued;
      var reported;
      ghost var more;
      reported, trace := Select(it.waiting, it.ready);
      more := Handlers(it.before, reported, it.after);
      RunConcat(old(world), trace, more);
      trace := trace + more;
      assert executed + pendingFunctions == world.queued;
      found := Found(reported, |pendingFunctions|);
      hide Inv;
      more := DoPendingFunctions(it.tasks);
      RunConcat(old(world), trace, more);
      trace := trace + more;
    }

    /** The test of running_, after what other threads did before it. */
    method TestRunning(testing: seq<Event>) returns (goOn: bool, ghost trace: seq<Event>)
      requires Valid() && world.phase.Check? && AllForeign(testing)
      modifies this
      ensures Valid() && world == Run(old(world), trace) && goOn == running && trace == testing + [Test]
      ensures if goOn then world.phase.Select? && looping else world.phase.Idle? && !looping
      ensures world.swaps == old(world.swaps) && executed == old(executed) && old(world.queued) <= world.queued
    {
      OccurAll(testing);
      goOn := running;
      StepInv(world, Test);
      if !goOn {
        looping := false;
      }
      world := Step(world, Test);
      RunSnoc(old(world), testing, Test);
      trace := testing + [Test];
    }

    /** The head of loop(). */
    method Enter()
      requires Valid() && world.phase.Idle?
      modifies this`looping, this`running, this`world
      ensures Valid() && world == Run(old(world), [] + [Start]) && world.phase.Check? && looping && running
      ensures world.swaps == old(world.swaps) && world.queued == old(world.queued)
    {
      assert !looping;
      assert !running;
      StepInv(world, Start);
      looping := true;
      running := true;
      world := Step(world, Start);
      RunSnoc(old(world), [], Start);
      NothingHappens(old(world));
    }

    /** Once around the while loop, after `trace0`: the test, and the body if it succeeds. */
    method Once(it: Iteration, ghost s: Loop, ghost trace0: seq<Event>)
      returns (goOn: bool, ghost trace: seq<Event>, ghost found: Found)
      requires Valid() && world.phase.Check? && looping && it.Fits() && world == Run(s, trace0)
      modifies this
      ensures Valid() && world == Run(s, trace) && old(world.queued) <= world.queued
      ensures goOn ==>
                && world.phase.Check? && looping && world.swaps == old(world.swaps) + 1
                && old(world.queued) <= executed
                && trace == trace0 + (it.testing + [Test]) + it.Body(found.reported, found.functions)
      ensures !goOn ==>
                && world.phase.Idle? && !looping && !running && world.swaps == old(world.swaps)
                && executed == old(executed) && trace == trace0 + (it.testing + [Test])
    {
      ghost var more;
      goOn, more := TestRunning(it.testing);
      hide Run, Step, Inv, Queued, Iteration.Body;
      RunConcat(s, trace0, more);
      trace, found := trace0 + more, Found(false, 0);
      if goOn {
        more, found := LoopBody(it);
        RunConcat(s, trace, more);
        trace := trace + more;
      }
    }

    /** EventLoop::loop for as many iterations as the script has: it returns early exactly when running_ is found
        cleared, after having taken one batch per iteration. */
    method RunLoop(script: seq<Iteration>) returns (n: nat, ghost trace: seq<Event>, ghost found: seq<Found>)
      requires Valid() && world.phase.Idle?
      requires forall i | 0 <= i < |script| :: script[i].Fits()
      modifies this
      ensures Valid() && world == Run(old(world), trace)
      ensures n <= |script| && world.swaps == old(world.swaps) + n && |found| == n
      ensures looping ==> trace == Iterations(script, found, n)
      ensures !looping ==> n < |script| && trace == Iterations(script, found, n) + (script[n].testing + [Test])
      ensures if looping then n == |script| && world.phase.Check? else n < |script| && !running && world.phase.Idle?
      ensures n > 0 ==> old(world.queued) <= executed
    {
      hide Run, Step, Inv, Coupled, Queued, Iteration.Body, Iteration.Fits;
      Enter();
      n, trace, found := 0, [] + [Start], [];
      while n < |script|
        invariant Valid() && world == Run(old(world), trace) && world.phase.Check? && looping && n <= |script|
        invariant world.swaps == old(world.swaps) + n
        invariant |found| == n && trace == Iterations(script, found, n)
        invariant old(world.queued) <= world.queued && (n > 0 ==> old(world.queued) <= executed)
      {
        ghost var f;
        var goOn;
        goOn, trace, f := Once(script[n], old(world), trace);
        if !goOn {
          break;
        }
        IterationsExtend(script, found, f);
        n, found := n + 1, found + [f];
      }
    }
  }
}
