/**
  What every run of an EventLoop's queue and wakeups keeps.
*/
module LoopProperties {
  import opened LoopState

  /* ---------------------------------- the invariant ---------------------------------- */

  ghost predicate Inv(s: Loop) {
    && (s.looping <==> !s.phase.Idle?)
    && (s.phase.Idle? ==> !s.running)
    && (s.calling <==> s.phase.Batch?)
    && (!s.phase.Batch? ==> s.batch == [])
    && (s.reported ==> s.phase.Handle? && s.tokens > 0)
    && s.queued == s.ran + s.batch + s.pending
    && (!s.phase.Handle? ==> |s.pending| <= s.tokens + s.wakes + s.unannounced)
    && (s.phase.Batch? ==> s.unannounced == 0)
    && (s.phase.Select? && !s.running ==> s.tokens + s.quits > 0)
  }

  lemma StepInv(s: Loop, e: Event)
    requires Inv(s)
    ensures Inv(Step(s, e))
  {
    if e.RunTask? { RunTaskInv(s); }
    if e.ForeignPush? || e.QueueInLoop? { PushInv(s, e); }
  }

  lemma RunTaskInv(s: Loop)
    requires Inv(s)
    ensures Inv(Step(s, RunTask))
  {
    if s.phase.Batch? && s.batch != [] {
      assert s.batch == [s.batch[0]] + s.batch[1..];
      assert s.ran + s.batch + s.pending == (s.ran + [s.batch[0]]) + s.batch[1..] + s.pending;
    }
  }

  lemma PushInv(s: Loop, e: Event)
    requires Inv(s) && (e.ForeignPush? || e.QueueInLoop?)
    ensures Inv(Step(s, e))
  {
    assert s.ran + s.batch + (s.pending + [e.task]) == (s.ran + s.batch + s.pending) + [e.task];
  }

  lemma {:induction false} RunInv(s: Loop, events: seq<Event>)
    requires Inv(s)
    ensures Inv(Run(s, events))
    decreases |events|
  {
    if events != [] {
      StepInv(s, events[0]);
      RunInv(Step(s, events[0]), events[1..]);
    }
  }

  /* ---------------------------------- task order ---------------------------------- */

  /** Every task is run at most once and in the order of queueing: what has run, what is left of the batch and
      what is pending always make up the queue order; outside a batch nothing is left over. */
  lemma TasksRunInOrder(start: Loop, events: seq<Event>)
    requires New(start)
    ensures var s := Run(start, events);
            s.ran + s.batch + s.pending == s.queued && (!s.phase.Batch? ==> s.ran + s.pending == s.queued)
  {
    hide Run, Step;
    RunInv(start, events);
    var s := Run(start, events);
    if !s.phase.Batch? { assert s.ran + s.batch == s.ran; }
  }

  /** History only grows. */
  predicate Extends(s: Loop, t: Loop) {
    s.ran <= t.ran && s.queued <= t.queued && s.selects <= t.selects && s.swaps <= t.swaps
  }

  lemma StepExtends(s: Loop, e: Event)
    ensures Extends(s, Step(s, e))
  {
  }

  lemma {:induction false} RunExtends(s: Loop, events: seq<Event>)
    ensures Extends(s, Run(s, events))
    decreases |events|
  {
    if events != [] {
      StepExtends(s, events[0]);
      hide Step;
      RunExtends(Step(s, events[0]), events[1..]);
    }
  }

  /** `s` was in epoll_wait or its handlers when the first `n` tasks had been queued: in `t` the batch that holds
      them is still to come, is running, or has run. */
  predicate Serving(n: nat, swaps: nat, t: Loop) {
    && n <= |t.queued|
    && (t.swaps == swaps ==> t.phase.Select? || t.phase.Handle?)
    && (t.swaps > swaps ==> n <= |t.ran| + |t.batch|)
    && t.swaps >= swaps
  }

  lemma StepServes(n: nat, swaps: nat, t: Loop, e: Event)
    requires Inv(t) && Serving(n, swaps, t)
    ensures Serving(n, swaps, Step(t, e))
  {
  }

  lemma {:induction false} RunServes(n: nat, swaps: nat, t: Loop, events: seq<Event>)
    requires Inv(t) && Serving(n, swaps, t)
    ensures Serving(n, swaps, Run(t, events))
    decreases |events|
  {
    if events != [] {
      StepInv(t, events[0]);
      StepServes(n, swaps, t, events[0]);
      hide Step, Inv, Serving;
      RunServes(n, swaps, Step(t, events[0]), events[1..]);
    }
  }

  /** One iteration runs everything that was queued when epoll_wait returned, in order: once the loop thread is
      back at its test, whatever happened in between, those tasks have all run. */
  lemma IterationRunsTheQueue(s: Loop, events: seq<Event>)
    requires Inv(s) && (s.phase.Select? || s.phase.Handle?)
    ensures var t := Run(s, events); t.phase.Check? || t.phase.Idle? ==> s.queued <= t.ran
  {
    RunServes(|s.queued|, s.swaps, s, events);
    RunExtends(s, events);
    RunInv(s, events);
    var t := Run(s, events);
    if t.phase.Check? || t.phase.Idle? {
      assert t.ran <= t.queued && s.queued <= t.queued && |s.queued| <= |t.ran|;
      assert s.queued == t.queued[..|s.queued|] == t.ran[..|s.queued|];
    }
  }

  /** A batch is fixed when it is swapped out: tasks queued while it runs wait for the next one. */
  lemma {:induction false} BatchIsFixed(s: Loop, events: seq<Event>)
    requires Inv(s) && s.phase.Batch?
    ensures var t := Run(s, events);
            t.swaps == s.swaps && t.phase.Batch? ==> t.ran + t.batch == s.ran + s.batch
    ensures var t := Run(s, events);
            t.swaps == s.swaps && !t.phase.Batch? ==> t.ran == s.ran + s.batch
    decreases |events|
  {
    if events != [] {
      BatchStep(s, events[0]);
      var u := Step(s, events[0]);
      StepInv(s, events[0]);
      if u.phase.Batch? {
        BatchIsFixed(u, events[1..]);
      } else {
        StayedOut(u, events[1..]);
      }
    } else {
      assert s.ran + s.batch == s.ran + s.batch;
    }
  }

  lemma BatchStep(s: Loop, e: Event)
    requires Inv(s) && s.phase.Batch?
    ensures var t := Step(s, e); t.swaps == s.swaps && t.ran + t.batch == s.ran + s.batch
    ensures var t := Step(s, e); !t.phase.Batch? ==> t.ran == s.ran + s.batch && t.phase.Check?
  {
  }

  lemma OutsideStep(s: Loop, e: Event)
    requires !s.phase.Batch?
    ensures var t := Step(s, e); t.swaps == s.swaps ==> t.ran == s.ran && !t.phase.Batch?
  {
  }

  lemma {:induction false} StayedOut(s: Loop, events: seq<Event>)
    requires Inv(s) && !s.phase.Batch?
    ensures var t := Run(s, events); t.swaps == s.swaps ==> t.ran == s.ran && !t.phase.Batch?
    decreases |events|
  {
    if events != [] {
      var u := Step(s, events[0]);
      StepInv(s, events[0]);
      RunExtends(u, events[1..]);
      OutsideStep(s, events[0]);
      hide Step, Inv;
      if u.swaps == s.swaps {
        StayedOut(u, events[1..]);
      }
    }
  }

  /* ---------------------------------- wakeups ---------------------------------- */

  /** Tasks wait, the loop thread is in epoll_wait, and neither a token nor a thread about to write one will
      bring it back before some other descriptor or the timeout does. */
  predicate Stranded(s: Loop) {
    s.phase.Select? && s.pending != [] && s.tokens == 0 && s.wakes == 0 && s.quits == 0
  }

  /** The loop thread queues nothing while it is outside loop(). */
  ghost predicate StartsQuiet(s: Loop, events: seq<Event>)
    decreases |events|
  {
    events == [] || (!(events[0].QueueInLoop? && s.phase.Idle?) && StartsQuiet(Step(s, events[0]), events[1..]))
  }

  lemma {:induction false} QuietRuns(s: Loop, events: seq<Event>)
    requires s.unannounced == 0 && StartsQuiet(s, events)
    ensures Run(s, events).unannounced == 0
    decreases |events|
  {
    if events != [] {
      QuietRuns(Step(s, events[0]), events[1..]);
    }
  }

  /** No lost wakeup: whenever the loop thread is in epoll_wait and tasks are pending, the eventfd is readable
      or a producer is about to make it so. */
  lemma NoLostWakeup(start: Loop, events: seq<Event>)
    requires New(start)
    requires StartsQuiet(start, events)
    ensures var s := Run(start, events);
            (s.phase.Select? || s.phase.Check?) && s.pending != [] ==> s.tokens + s.wakes > 0
    ensures !Stranded(Run(start, events))
  {
    hide Run, Step;
    RunInv(start, events);
    QuietRuns(start, events);
  }

  predicate AtEntry(s: Loop, u: Loop) {
    (u.phase.Check? && u.selects == s.selects) || (u.phase.Select? && u.selects == s.selects + 1)
  }

  /** From the start of loop() to its first epoll_wait: at the test, or in that epoll_wait. */
  predicate Entering(s: Loop, u: Loop) {
    && AtEntry(s, u)
    && s.notices <= u.notices
    && u.tokens + u.wakes + u.quits - u.notices == s.tokens + s.wakes + s.quits - s.notices
    && (u.notices == s.notices ==> u.pending == s.pending)
  }

  lemma StepEntering(s: Loop, u: Loop, e: Event)
    requires Entering(s, u)
    ensures Entering(s, Step(u, e)) || !Step(u, e).phase.Select?
    ensures !Entering(s, Step(u, e)) ==> Step(u, e).selects >= s.selects
    ensures !Entering(s, Step(u, e)) ==> Step(u, e).selects == s.selects ==> Step(u, e).phase.Idle?
  {
  }

  /** A loop that is not in epoll_wait has to enter it, and from outside loop() only a start leads there. */
  lemma {:induction false} SelectsAgain(s: Loop, events: seq<Event>)
    requires !s.phase.Select? && Start !in events
    ensures var t := Run(s, events); t.phase.Select? ==> t.selects > s.selects && !s.phase.Idle?
    decreases |events|
  {
    if events != [] {
      var u := Step(s, events[0]);
      StepSelects(s, events[0]);
      RunExtends(u, events[1..]);
      hide Step;
      if !u.phase.Select? { SelectsAgain(u, events[1..]); }
    }
  }

  lemma StepSelects(s: Loop, e: Event)
    requires !s.phase.Select? && !e.Start?
    ensures var u := Step(s, e); s.selects <= u.selects && (u.phase.Select? ==> u.selects > s.selects)
    ensures var u := Step(s, e); s.phase.Idle? ==> u.phase.Idle?
  {
  }

  lemma {:induction false} FirstSelect(s: Loop, u: Loop, events: seq<Event>)
    requires Entering(s, u) && Start !in events
    ensures var t := Run(u, events); t.phase.Select? && t.selects == s.selects + 1 ==> Entering(s, t)
    decreases |events|
  {
    if events != [] {
      var v := Step(u, events[0]);
      StepEntering(s, u, events[0]);
      hide Step, Entering;
      if Entering(s, v) {
        FirstSelect(s, v, events[1..]);
      } else {
        SelectsAgain(v, events[1..]);
      }
    }
  }

  /** In the first epoll_wait of any call of loop(), tasks are stranded exactly when some were pending at the call
      with no wakeup on its way, and no other thread has queued or quit since. */
  lemma StrandedIff(s: Loop, events: seq<Event>)
    requires Inv(s) && s.phase.Idle? && Start !in events
    ensures var t := Run(Step(s, Start), events);
            t.phase.Select? && t.selects == s.selects + 1 ==>
              (Stranded(t) <==> s.pending != [] && s.tokens + s.wakes + s.quits == 0 && t.notices == s.notices)
  {
    FirstSelect(s, Step(s, Start), events);
    hide Run;
  }

  /** In any later epoll_wait of that call nothing is stranded. */
  lemma LaterNeverStranded(s: Loop, events: seq<Event>)
    requires Inv(s) && s.phase.Idle? && Start !in events
    ensures var t := Run(Step(s, Start), events);
            t.phase.Select? && t.selects > s.selects + 1 ==>
              !Stranded(t) && (t.pending != [] ==> t.tokens + t.wakes > 0)
  {
    var u := Step(s, Start);
    StepInv(s, Start);
    RunInv(u, events);
    AnnouncedOrFirst(s, u, events);
    hide Run, Step;
  }

  /** Inside loop() nothing is unannounced once a batch has been taken out. */
  predicate AnnouncedAfterEntry(s: Loop, u: Loop) {
    u.unannounced == 0 || u.phase.Idle? || u.phase.Handle? || AtEntry(s, u)
  }

  lemma {:induction false} AnnouncedOrFirst(s: Loop, u: Loop, events: seq<Event>)
    requires AnnouncedAfterEntry(s, u) && Start !in events
    ensures var t := Run(u, events); t.phase.Select? && t.selects > s.selects + 1 ==> t.unannounced == 0
    decreases |events|
  {
    if events != [] {
      var v := Step(u, events[0]);
      if u.phase.Idle? {
        SelectsAgain(u, events);
      } else {
        StepAnnounced(s, u, events[0]);
        hide Step;
        AnnouncedOrFirst(s, v, events[1..]);
      }
    }
  }

  lemma StepAnnounced(s: Loop, u: Loop, e: Event)
    requires !u.phase.Idle? && AnnouncedAfterEntry(s, u)
    ensures AnnouncedAfterEntry(s, Step(u, e))
  {
  }

  lemma QueuedBeforeLoopIsStranded(start: Loop, task: Task)
    requires New(start)
    ensures Stranded(Step(Step(Step(start, QueueInLoop(task)), Start), Test))
  {
  }

  /* ---------------------------------- quitting ---------------------------------- */

  /** loop() is called while the thread is outside it. */
  ghost predicate Restarts(s: Loop, events: seq<Event>)
    decreases |events|
  {
    events != [] && ((events[0].Start? && s.phase.Idle?) || Restarts(Step(s, events[0]), events[1..]))
  }

  /** running_ is set at some point. */
  ghost predicate EverRunning(s: Loop, events: seq<Event>)
    decreases |events|
  {
    s.running || (events != [] && EverRunning(Step(s, events[0]), events[1..]))
  }

  /** After a quit running_ is set again exactly when loop() is called afterwards, whatever else happens; until
      then the loop never goes to epoll_wait again. */
  lemma {:induction false} QuitIsUndoneIff(s: Loop, events: seq<Event>)
    requires !s.running
    ensures EverRunning(s, events) <==> Restarts(s, events)
    ensures Run(s, events).selects > s.selects ==> Restarts(s, events)
    decreases |events|
  {
    if events != [] {
      var u := Step(s, events[0]);
      QuitStays(s, events[0]);
      hide Step;
      if !u.running {
        QuitIsUndoneIff(u, events[1..]);
      }
    }
  }

  lemma QuitStays(s: Loop, e: Event)
    requires !s.running
    ensures Step(s, e).running <==> e.Start? && s.phase.Idle?
    ensures Step(s, e).selects == s.selects
  {
  }

  /** Both quits clear running_ wherever they can be called. */
  lemma QuitClears(s: Loop)
    ensures !Step(s, ForeignQuit).running
    ensures !s.phase.Check? && !s.phase.Select? ==> !Step(s, Quit).running
  {
  }

  lemma QuitStep(s: Loop, e: Event)
    requires Inv(s) && !s.running && !(e.Start? && s.phase.Idle?)
    ensures var u := Step(s, e); !u.running && u.selects == s.selects
    ensures var u := Step(s, e);
            u.swaps + (if u.phase.Select? || u.phase.Handle? then 1 else 0)
            <= s.swaps + (if s.phase.Select? || s.phase.Handle? then 1 else 0)
  {
  }

  /** A quit is final until loop() is called again: running_ stays cleared, the loop never goes to epoll_wait and
      takes at most the one batch of the current iteration. */
  lemma {:induction false} QuitIsFinal(s: Loop, events: seq<Event>)
    requires Inv(s) && !s.running && !Restarts(s, events)
    ensures var t := Run(s, events); !t.running && t.selects == s.selects
    ensures var t := Run(s, events); t.swaps <= s.swaps + if s.phase.Select? || s.phase.Handle? then 1 else 0
    decreases |events|
  {
    if events != [] {
      var u := Step(s, events[0]);
      StepInv(s, events[0]);
      QuitStep(s, events[0]);
      hide Step, Inv;
      QuitIsFinal(u, events[1..]);
    }
  }

  /** A quit cannot leave the loop thread blocked: in epoll_wait with running_ cleared, the eventfd is readable
      or the quitting thread is about to make it so. */
  lemma QuitWakesTheLoop(start: Loop, events: seq<Event>)
    requires New(start)
    ensures var s := Run(start, events); s.phase.Select? && !s.running ==> s.tokens + s.quits > 0
  {
    hide Run, Step;
    RunInv(start, events);
  }

  /** The assertions at the head of loop(). */
  lemma LoopMayStart(start: Loop, events: seq<Event>)
    requires New(start)
    ensures var s := Run(start, events); s.phase.Idle? ==> !s.looping && !s.running
  {
    hide Run, Step;
    RunInv(start, events);
  }

  /* ---------------------------------- accounts ---------------------------------- */

  /** How many wakeups the producers owe after these events if they owed `n` before: one for every task, until it is
      written. */
  function Owed(n: nat, events: seq<Event>): nat
    decreases |events|
  {
    if events == [] then n
    else Owed(if events[0].ForeignPush? then n + 1 else if events[0].ForeignWake? && n > 0 then n - 1 else n,
              events[1..])
  }

  function OwedQuits(n: nat, events: seq<Event>): nat
    decreases |events|
  {
    if events == [] then n
    else OwedQuits(if events[0].ForeignQuit? then n + 1 else if events[0].ForeignQuitWake? && n > 0 then n - 1 else n,
                   events[1..])
  }

  lemma {:induction false} WakeupsAreOwed(s: Loop, events: seq<Event>)
    ensures Run(s, events).wakes == Owed(s.wakes, events) && Run(s, events).quits == OwedQuits(s.quits, events)
    decreases |events|
  {
    if events != [] {
      StepOwes(s, events[0]);
      hide Step;
      WakeupsAreOwed(Step(s, events[0]), events[1..]);
    }
  }

  lemma StepOwes(s: Loop, e: Event)
    ensures Step(s, e).wakes ==
            if e.ForeignPush? then s.wakes + 1 else if e.ForeignWake? && s.wakes > 0 then s.wakes - 1 else s.wakes
    ensures Step(s, e).quits ==
            if e.ForeignQuit? then s.quits + 1 else if e.ForeignQuitWake? && s.quits > 0 then s.quits - 1 else s.quits
  {
  }

  /** The writes to the eventfd: by producers and quitting threads that owe one, and by the loop thread when it queues
      while a batch runs. */
  function Written(s: Loop, events: seq<Event>): nat
    decreases |events|
  {
    if events == [] then 0
    else
      var e := events[0];
      var one := (e.ForeignWake? && s.wakes > 0) || (e.ForeignQuitWake? && s.quits > 0)
                 || (e.QueueInLoop? && s.phase.Batch?);
      (if one then 1 else 0) + Written(Step(s, e), events[1..])
  }

  /** The reads: by the handler of the wakeup channel when that was reported. */
  function Read(s: Loop, events: seq<Event>): nat
    decreases |events|
  {
    if events == [] then 0
    else
      var one := events[0].ReadWakeup? && s.phase.Handle? && s.reported;
      (if one then 1 else 0) + Read(Step(s, events[0]), events[1..])
  }

  /** The counter of the eventfd is exactly what was written to it and not read yet. */
  lemma {:induction false} TokensAreKept(s: Loop, events: seq<Event>)
    requires Inv(s)
    ensures Run(s, events).tokens + Read(s, events) == s.tokens + Written(s, events)
    decreases |events|
  {
    if events != [] {
      StepInv(s, events[0]);
      StepTokens(s, events[0]);
      hide Inv, Step;
      TokensAreKept(Step(s, events[0]), events[1..]);
    }
  }

  lemma StepTokens(s: Loop, e: Event)
    requires Inv(s)
    ensures Step(s, e).tokens + (if e.ReadWakeup? && s.phase.Handle? && s.reported then 1 else 0) ==
            s.tokens + if (e.ForeignWake? && s.wakes > 0) || (e.ForeignQuitWake? && s.quits > 0)
                          || (e.QueueInLoop? && s.phase.Batch?) then 1 else 0
  {
  }

  /** The task that is queued by an event: always by another thread, by the loop thread whenever it executes code. */
  function QueuedBy(s: Loop, e: Event): seq<Task> {
    if e.ForeignPush? || (e.QueueInLoop? && (s.phase.Idle? || s.phase.Handle? || s.phase.Batch?)) then [e.task] else []
  }

  function AllQueued(s: Loop, events: seq<Event>): seq<Task>
    decreases |events|
  {
    if events == [] then [] else QueuedBy(s, events[0]) + AllQueued(Step(s, events[0]), events[1..])
  }

  /** What has run, what is left of the batch and what is pending are exactly these tasks, behind those that were
      there. */
  lemma {:induction false} NoTaskIsDropped(s: Loop, events: seq<Event>)
    requires Inv(s)
    ensures var t := Run(s, events);
            t.ran + t.batch + t.pending == s.ran + s.batch + s.pending + AllQueued(s, events)
    decreases |events|
  {
    var before := s.ran + s.batch + s.pending;
    if events == [] {
      assert before + [] == before;
    } else {
      StepInv(s, events[0]);
      StepQueues(s, events[0]);
      hide Inv, Step, QueuedBy;
      NoTaskIsDropped(Step(s, events[0]), events[1..]);
      var one, more := QueuedBy(s, events[0]), AllQueued(Step(s, events[0]), events[1..]);
      assert (before + one) + more == before + (one + more);
    }
  }

  lemma StepQueues(s: Loop, e: Event)
    requires Inv(s)
    ensures var t := Step(s, e);
            t.ran + t.batch + t.pending == (s.ran + s.batch + s.pending) + QueuedBy(s, e)
  {
    StepInv(s, e);
  }

  /* ---------------------------------- one iteration ---------------------------------- */

  function RunTasks(n: nat): seq<Event> { if n == 0 then [] else RunTasks(n - 1) + [RunTask] }

  /** From epoll_wait to the next one if nobody interferes: the wakeup is read iff it is reported, which it can be iff
      the eventfd has a token; all pending tasks run. */
  function QuietIteration(s: Loop, ready: bool): seq<Event> {
    Opening(s, ready) + RunTasks(|s.pending|) + [EndBatch] + [Test]
  }

  /** It leaves nothing pending, takes one token if the wakeup was reported, and ends in the next epoll_wait, or
      outside loop() if running_ has been cleared. */
  lemma IterationDoes(s: Loop, ready: bool)
    requires Inv(s) && s.phase.Select?
    ensures Run(s, QuietIteration(s, ready)) ==
            s.(phase := if s.running then Select else Idle, looping := s.running, pending := [], ran := s.queued,
               tokens := if ready && s.tokens > 0 then s.tokens - 1 else s.tokens,
               swaps := s.swaps + 1, selects := if s.running then s.selects + 1 else s.selects, unannounced := 0)
  {
    hide Run, Step;
    var front := Opening(s, ready);
    var t := Swapped(s, ready);
    IterationOpens(s, ready);
    RunConcat(s, front, RunTasks(|s.pending|));
    BatchRuns(t, |s.pending|);
    var done := t.(batch := [], ran := s.queued);
    assert s.batch == [] && s.queued == s.ran + s.pending;
    assert s.pending[|s.pending|..] == [] && s.pending[..|s.pending|] == s.pending && s.ran + [] == s.ran;
    assert Run(s, front + RunTasks(|s.pending|)) == done;
    RunSnoc(s, front + RunTasks(|s.pending|), EndBatch);
    RunSnoc(s, front + RunTasks(|s.pending|) + [EndBatch], Test);
    IterationEnds(done);
  }

  /** An iteration up to its batch. */
  function Opening(s: Loop, ready: bool): seq<Event> {
    [Return(ready)] + (if ready && s.tokens > 0 then [ReadWakeup] else []) + [Swap]
  }

  function Swapped(s: Loop, ready: bool): Loop {
    s.(phase := Batch, tokens := if ready && s.tokens > 0 then s.tokens - 1 else s.tokens, calling := true,
       batch := s.pending, pending := [], swaps := s.swaps + 1, unannounced := 0)
  }

  lemma IterationOpens(s: Loop, ready: bool)
    requires Inv(s) && s.phase.Select?
    ensures Run(s, Opening(s, ready)) == Swapped(s, ready)
  {
    var returned := s.(phase := Handle, reported := ready && s.tokens > 0);
    var handled := s.(phase := Handle, tokens := if ready && s.tokens > 0 then s.tokens - 1 else s.tokens);
    assert Step(s, Return(ready)) == returned;
    assert ready && s.tokens > 0 ==> Step(returned, ReadWakeup) == handled;
    assert Step(handled, Swap) == Swapped(s, ready);
    hide Step, Run, Inv;
    Nothing(s);
    assert [] + [Return(ready)] == [Return(ready)] == [Return(ready)] + [];
    RunSnoc(s, [], Return(ready));
    RunSnoc(s, [Return(ready)], ReadWakeup);
    RunSnoc(s, [Return(ready)] + (if ready && s.tokens > 0 then [ReadWakeup] else []), Swap);
  }

  lemma IterationEnds(s: Loop)
    requires s.phase.Batch? && s.batch == []
    ensures Step(Step(s, EndBatch), Test) ==
            s.(phase := if s.running then Select else Idle, looping := s.running && s.looping, calling := false,
               selects := if s.running then s.selects + 1 else s.selects)
  {
  }

  lemma Nothing(s: Loop)
    ensures Run(s, []) == s
  {
  }

  lemma {:induction false} BatchRuns(s: Loop, n: nat)
    requires s.phase.Batch? && n <= |s.batch|
    ensures Run(s, RunTasks(n)) == s.(batch := s.batch[n..], ran := s.ran + s.batch[..n])
  {
    if n == 0 {
      Nothing(s);
      assert s.batch[0..] == s.batch && s.ran + s.batch[..0] == s.ran;
    } else {
      BatchRuns(s, n - 1);
      RunSnoc(s, RunTasks(n - 1), RunTask);
      assert s.ran + s.batch[..n - 1] + [s.batch[n - 1]] == s.ran + s.batch[..n];
      assert s.batch[..n] == s.batch[..n - 1] + [s.batch[n - 1]];
      hide Run;
    }
  }

  /** And before the first one: loop() sets running_ and tests it. */
  lemma LoopStarts(s: Loop)
    requires Inv(s) && s.phase.Idle?
    ensures Run(s, [Start] + [Test]) == s.(phase := Select, looping := true, running := true, selects := s.selects + 1)
  {
    Nothing(s);
    assert [] + [Start] == [Start];
    RunSnoc(s, [], Start);
    RunSnoc(s, [Start], Test);
  }

  /** What queueing and quitting change: the loop thread's own tasks get a wakeup only while a batch runs; other threads
      write theirs later. */
  lemma CallsDo(s: Loop, e: Event)
    requires Inv(s) && (e.QueueInLoop? || e.Quit? ==> s.phase.Idle? || s.phase.Handle? || s.phase.Batch?)
    ensures var t := Step(s, e);
            match e
            case QueueInLoop(task) =>
              t == s.(pending := s.pending + [task], queued := s.queued + [task],
                      tokens := if s.phase.Batch? then s.tokens + 1 else s.tokens,
                      unannounced := if s.phase.Idle? then s.unannounced + 1 else s.unannounced)
            case Quit => t == s.(running := false)
            case ForeignPush(task) =>
              t == s.(pending := s.pending + [task], queued := s.queued + [task], wakes := s.wakes + 1,
                      notices := s.notices + 1)
            case ForeignWake => s.wakes > 0 ==> t == s.(wakes := s.wakes - 1, tokens := s.tokens + 1)
            case ForeignQuit => t == s.(running := false, quits := s.quits + 1, notices := s.notices + 1)
            case ForeignQuitWake => s.quits > 0 ==> t == s.(quits := s.quits - 1, tokens := s.tokens + 1)
            case _ => true
  {
  }
}
