/**
  The queued functions and the wakeups of an EventLoop as a state machine.

  The loop thread runs through the phases of loop(); other threads queue tasks and quit the loop in two steps
  each, first the change and then the write to the eventfd, and any step of any thread may come in between.
  The eventfd is a semaphore: a read takes one token.  An event that is not possible in a state changes nothing.
*/
module LoopState {
  type Task = nat

  /** Outside loop(); at the test of running_; in epoll_wait; in the handlers; in the swapped-out batch. */
  datatype Phase = Idle | Check | Select | Handle | Batch

  datatype Loop = Loop(
    phase: Phase,
    looping: bool,
    running: bool,
    calling: bool,
    pending: seq<Task>,
    tokens: nat,        // the eventfd counter
    wakes: nat,         // foreign threads between queueing a task and their wakeup
    quits: nat,         // foreign threads between clearing running_ and their wakeup
    reported: bool,     // the wakeup channel was reported ready and has not been read yet
    batch: seq<Task>,   // what is left of the swapped-out tasks
    ran: seq<Task>,     // history: everything run so far
    queued: seq<Task>,  // history: everything queued, in that order
    swaps: nat,         // history: how many batches have been swapped out
    selects: nat,       // history: how many times the loop went to epoll_wait
    unannounced: nat,   // history: tasks the loop thread has queued outside loop() since the last batch
    notices: nat)       // history: tasks and quits of other threads

  /** The events of the loop thread, then those of the others. */
  datatype Event =
    | Start | Test | Return(ready: bool) | ReadWakeup | Swap | RunTask | EndBatch
    | QueueInLoop(task: Task) | Quit
    | ForeignPush(task: Task) | ForeignWake | ForeignQuit | ForeignQuitWake

  function Push(s: Loop, task: Task): Loop {
    s.(pending := s.pending + [task], queued := s.queued + [task])
  }

  function Step(s: Loop, e: Event): Loop {
    match e
    case Start =>
      if s.phase.Idle? then s.(phase := Check, looping := true, running := true) else s
    case Test =>
      if !s.phase.Check? then s
      else if s.running then s.(phase := Select, selects := s.selects + 1)
      else s.(phase := Idle, looping := false)
    case Return(ready) =>
      if s.phase.Select? then s.(phase := Handle, reported := ready && s.tokens > 0) else s
    case ReadWakeup =>
      if s.phase.Handle? && s.reported && s.tokens > 0 then s.(tokens := s.tokens - 1, reported := false) else s
    case Swap =>
      if s.phase.Handle? && !s.reported
      then s.(phase := Batch, calling := true, batch := s.pending, pending := [], swaps := s.swaps + 1,
          unannounced := 0)
      else s
    case RunTask =>
      if s.phase.Batch? && s.batch != [] then s.(batch := s.batch[1..], ran := s.ran + [s.batch[0]]) else s
    case EndBatch =>
      if s.phase.Batch? && s.batch == [] then s.(phase := Check, calling := false) else s
    case QueueInLoop(task) =>
      if s.phase.Check? || s.phase.Select? then s
      else if s.calling then Push(s, task).(tokens := s.tokens + 1)
      else Push(s, task).(unannounced := s.unannounced + if s.phase.Idle? then 1 else 0)
    case Quit =>
      if s.phase.Check? || s.phase.Select? then s else s.(running := false)
    case ForeignPush(task) => Push(s, task).(wakes := s.wakes + 1, notices := s.notices + 1)
    case ForeignWake =>
      if s.wakes > 0 then s.(wakes := s.wakes - 1, tokens := s.tokens + 1) else s
    case ForeignQuit => s.(running := false, quits := s.quits + 1, notices := s.notices + 1)
    case ForeignQuitWake =>
      if s.quits > 0 then s.(quits := s.quits - 1, tokens := s.tokens + 1) else s
  }

  function Run(s: Loop, events: seq<Event>): Loop
    decreases |events|
  {
    if events == [] then s else Run(Step(s, events[0]), events[1..])
  }

  /** A loop as its constructor leaves it. */
  predicate New(s: Loop) {
    && s.phase.Idle? && !s.looping && !s.running && !s.calling && !s.reported
    && s.pending == s.batch == s.ran == s.queued == []
    && s.tokens == s.wakes == s.quits == s.swaps == s.selects == s.unannounced == s.notices == 0
  }

  lemma {:induction false} RunConcat(s: Loop, a: seq<Event>, b: seq<Event>)
    ensures Run(s, a + b) == Run(Run(s, a), b)
    decreases |a|
  {
    if a == [] {
      assert a + b == b;
    } else {
      assert (a + b)[0] == a[0] && (a + b)[1..] == a[1..] + b;
      RunConcat(Step(s, a[0]), a[1..], b);
    }
  }

  lemma RunSnoc(s: Loop, events: seq<Event>, e: Event)
    ensures Run(s, events + [e]) == Step(Run(s, events), e)
  {
    RunConcat(s, events, [e]);
    assert [e][1..] == [];
    assert Run(Run(s, events), [e]) == Run(Step(Run(s, events), e), []);
  }
}
