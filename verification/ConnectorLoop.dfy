/**
  The connector on its event loop: the phases and queues that ConnectorState keeps are those of LoopState.

  The loop also serves others, so the connector sees the part of the loop's queues that is its own.  A system runs
  the two models side by side; every move is a run of each of them, and the two stay aligned.
*/
module ConnectorLoop {
  import opened ConnectorProperties
  import opened ConnectorState
  import opened ConnectorRuns
  import L = LoopState
  import LoopProperties

  /* ---------------------------------- the connector's functions among all ---------------------------------- */

  /** Odd functions are the connector's. */
  function Code(task: Task): L.Task {
    match task
    case StartTask => 1
    case StopTask => 3
    case ResetTask => 5
    case CloseTask(fd) => 7 + 2 * fd
  }

  predicate OfConnector(n: L.Task) { n % 2 == 1 }

  function Decode(n: L.Task): (task: Task)
    requires OfConnector(n)
    ensures Code(task) == n
  {
    if n == 1 then StartTask else if n == 3 then StopTask else if n == 5 then ResetTask else CloseTask((n - 7) / 2)
  }

  lemma DecodeCode(task: Task)
    ensures OfConnector(Code(task)) && Decode(Code(task)) == task
  {
  }

  function Mine(q: seq<L.Task>): seq<Task> {
    if q == [] then [] else Own(q[0]) + Mine(q[1..])
  }

  function Own(n: L.Task): seq<Task> { if OfConnector(n) then [Decode(n)] else [] }

  lemma {:induction false} MineConcat(a: seq<L.Task>, b: seq<L.Task>)
    ensures Mine(a + b) == Mine(a) + Mine(b)
  {
    if a == [] {
      assert a + b == b;
    } else {
      hide Own;
      assert (a + b)[1..] == a[1..] + b;
      MineConcat(a[1..], b);
      assert Own(a[0]) + (Mine(a[1..]) + Mine(b)) == (Own(a[0]) + Mine(a[1..])) + Mine(b);
    }
  }

  lemma MineOne(q: seq<L.Task>, n: L.Task)
    ensures Mine(q + [n]) == Mine(q) + Own(n)
  {
    MineConcat(q, [n]);
    assert [n][1..] == [];
    assert Mine([n]) == Own(n) + Mine([]) == Own(n);
  }

  /** The events by which tasks are queued on the loop. */
  function Pushes(tasks: seq<Task>, own: bool): seq<L.Event> {
    if tasks == [] then []
    else [Pushing(tasks[0], own)] + Pushes(tasks[1..], own)
  }

  /** The loop thread executes code. */
  predicate LoopThreadRuns(l: L.Loop) { l.phase.Idle? || l.phase.Handle? || l.phase.Batch? }

  function Pushing(task: Task, own: bool): L.Event {
    if own then L.QueueInLoop(Code(task)) else L.ForeignPush(Code(task))
  }

  lemma PushOne(l: L.Loop, task: Task, own: bool)
    requires LoopProperties.Inv(l) && (own ==> LoopThreadRuns(l))
    ensures var k := L.Step(l, Pushing(task, own));
            k.phase == l.phase && k.batch == l.batch && Mine(k.pending) == Mine(l.pending) + [task]
  {
    LoopProperties.StepInv(l, Pushing(task, own));
    hide LoopProperties.Inv;
    MineOne(l.pending, Code(task));
    DecodeCode(task);
  }

  lemma {:induction false} PushAll(l: L.Loop, tasks: seq<Task>, own: bool)
    requires LoopProperties.Inv(l) && (own ==> LoopThreadRuns(l))
    ensures var k := L.Run(l, Pushes(tasks, own));
            k.phase == l.phase && k.batch == l.batch && Mine(k.pending) == Mine(l.pending) + tasks
    decreases |tasks|
  {
    hide L.Step, LoopProperties.Inv, Mine, Pushing;
    if tasks == [] {
      assert Mine(l.pending) + [] == Mine(l.pending);
    } else {
      PushOne(l, tasks[0], own);
      LoopProperties.StepInv(l, Pushing(tasks[0], own));
      PushAll(L.Step(l, Pushing(tasks[0], own)), tasks[1..], own);
      assert Pushes(tasks, own)[0] == Pushing(tasks[0], own) && Pushes(tasks, own)[1..] == Pushes(tasks[1..], own);
      assert Mine(l.pending) + [tasks[0]] + tasks[1..] == Mine(l.pending) + tasks;
    }
  }

  /* ---------------------------------- the two models side by side ---------------------------------- */

  datatype System = System(connector: Connector, loop: L.Loop)

  /** A step of the loop or of another thread that is not the connector's business, the next function of the batch,
      or an event of the connector. */
  datatype Move = Other(e: L.Event) | RunFunction(errno: Errno) | Act(event: Event, own: bool)

  /** Handlers run in the loop's handler phase, the loop thread's calls where it executes code. */
  predicate Possible(sys: System, m: Move) {
    match m
    case Other(e) => !e.RunTask? && (e.QueueInLoop? || e.ForeignPush? ==> !OfConnector(e.task))
    case RunFunction(_) => sys.loop.phase.Batch? && sys.loop.batch != []
    case Act(e, own) =>
      && !e.Swap? && !e.RunTask? && !e.EndBatch?
      && (own ==> LoopThreadRuns(sys.loop))
      && (e.Fire? || e.Dispatch? || e.Lost? ==> own && sys.loop.phase.Handle?)
  }

  function NewTasks(s: Connector, t: Connector): seq<Task> {
    if |s.pending| <= |t.pending| then t.pending[|s.pending|..] else []
  }

  /** What a move is for the connector. */
  function Events(sys: System, m: Move): seq<Event> {
    var l := sys.loop;
    match m
    case Other(e) =>
      if e.Swap? && l.phase.Handle? && !l.reported then [Swap]
      else if e.EndBatch? && l.phase.Batch? && l.batch == [] then [EndBatch]
      else []
    case RunFunction(errno) => if l.batch != [] && OfConnector(l.batch[0]) then [RunTask(errno)] else []
    case Act(e, _) => [e]
  }

  /** What it is for the loop: what the connector queues by it is queued there. */
  function LoopEvents(sys: System, m: Move): seq<L.Event> {
    var s, t := sys.connector, Run(sys.connector, Events(sys, m));
    match m
    case Other(e) => [e]
    case RunFunction(_) => [L.RunTask] + Pushes(NewTasks(s, t), true)
    case Act(_, own) => Pushes(NewTasks(s, t), own)
  }

  function Next(sys: System, m: Move): System {
    System(Run(sys.connector, Events(sys, m)), L.Run(sys.loop, LoopEvents(sys, m)))
  }

  function RunMoves(sys: System, moves: seq<Move>): System
    decreases |moves|
  {
    if moves == [] then sys else RunMoves(Next(sys, moves[0]), moves[1..])
  }

  ghost predicate AllPossible(sys: System, moves: seq<Move>)
    decreases |moves|
  {
    moves == [] || (Possible(sys, moves[0]) && AllPossible(Next(sys, moves[0]), moves[1..]))
  }

  /** The connector is in a batch when the loop is, and its queues are its part of the loop's. */
  ghost predicate Aligned(sys: System) {
    && (sys.connector.inBatch <==> sys.loop.phase.Batch?)
    && sys.connector.batch == Mine(sys.loop.batch)
    && sys.connector.pending == Mine(sys.loop.pending)
  }

  lemma One(s: Connector, e: Event)
    ensures Run(s, [e]) == Step(s, e) && Run(s, []) == s
  {
    assert [e][1..] == [];
    hide Step;
    assert Run(s, [e]) == Run(Step(s, e), []);
  }

  lemma LoopOne(l: L.Loop, e: L.Event, more: seq<L.Event>)
    ensures L.Run(l, [e]) == L.Step(l, e) && L.Run(l, [e] + more) == L.Run(L.Step(l, e), more)
  {
    hide L.Step;
    assert [e][1..] == [] && ([e] + more)[1..] == more;
    assert L.Run(l, [e]) == L.Run(L.Step(l, e), []);
  }

  /** An event of the connector other than a change of phase queues tasks and does nothing else to the queues. */
  lemma ActBehind(s: Connector, e: Event)
    requires !e.Swap? && !e.RunTask? && !e.EndBatch?
    ensures Behind(s, Step(s, e))
  {
    hide Lasting, Hushed;
    match e
    case Start(own, errno) => StartBehind(s, own, errno);
    case Stop => CallKept(s, e);
    case Disconnect => CallKept(s, e);
    case EnableRetry => CallKept(s, e);
    case ForceClose => CallKept(s, e);
    case Fire(errno) => FireKept(s, errno);
    case Dispatch(writable, error, attempt) => DispatchKept(s, writable, error, attempt);
    case Lost(errno) => LostKept(s, errno);
  }

  lemma StartBehind(s: Connector, own: bool, errno: Errno)
    ensures Behind(s, Step(s, Start(own, errno)))
  {
    hide StartInLoop, Queue, Lasting, Hushed;
    var t := s.(started := true, clientConnect := true, connect := true);
    StartInLoopKept(t, errno);
    QueueKept(t, StartTask);
  }

  /** Running a task of the batch takes it off and queues tasks behind. */
  lemma RunTaskBehind(s: Connector, errno: Errno)
    requires s.inBatch && s.batch != []
    ensures Behind(s.(batch := s.batch[1..]), Step(s, RunTask(errno)))
  {
    hide Execute, Lasting, Hushed;
    ExecuteKept(s.(batch := s.batch[1..]), s.batch[0], errno);
  }

  lemma BehindTasks(s: Connector, t: Connector)
    requires Behind(s, t)
    ensures t.pending == s.pending + NewTasks(s, t)
  {
  }

  lemma ActAligned(sys: System, e: Event, own: bool)
    requires LoopProperties.Inv(sys.loop) && Aligned(sys) && Possible(sys, Act(e, own))
    ensures Aligned(Next(sys, Act(e, own)))
  {
    hide Step, LoopProperties.Inv, L.Run, Mine, Pushes;
    var s := sys.connector;
    One(s, e);
    ActBehind(s, e);
    BehindTasks(s, Step(s, e));
    PushAll(sys.loop, NewTasks(s, Step(s, e)), own);
    hide Run;
  }

  lemma RunFunctionAligned(sys: System, errno: Errno)
    requires LoopProperties.Inv(sys.loop) && Aligned(sys) && Possible(sys, RunFunction(errno))
    ensures Aligned(Next(sys, RunFunction(errno)))
  {
    var s, l := sys.connector, sys.loop;
    var k := L.Step(l, L.RunTask);
    LoopProperties.StepInv(l, L.RunTask);
    assert k.phase == l.phase && k.batch == l.batch[1..] && k.pending == l.pending;
    assert Mine(l.batch) == Own(l.batch[0]) + Mine(l.batch[1..]);
    hide Step, L.Step, LoopProperties.Inv, L.Run, Mine, Pushes;
    if OfConnector(l.batch[0]) {
      var t, u := Step(s, RunTask(errno)), s.(batch := s.batch[1..]);
      assert s.batch != [] && s.batch[1..] == Mine(l.batch[1..]);
      One(s, RunTask(errno));
      RunTaskBehind(s, errno);
      BehindTasks(u, t);
      LoopOne(l, L.RunTask, Pushes(NewTasks(s, t), true));
      PushAll(k, NewTasks(s, t), true);
    } else {
      assert s.batch == Mine(l.batch[1..]);
      One(s, EndBatch);
      assert NewTasks(s, s) == [];
      LoopOne(l, L.RunTask, Pushes([], true));
      PushAll(k, [], true);
      assert Mine(k.pending) + [] == Mine(k.pending);
    }
    hide Run;
  }

  /** A step that the connector does not see. */
  lemma UnseenAligned(sys: System, e: L.Event)
    requires LoopProperties.Inv(sys.loop) && Aligned(sys) && Possible(sys, Other(e)) && Events(sys, Other(e)) == []
    ensures Aligned(System(sys.connector, L.Step(sys.loop, e)))
  {
    LoopProperties.StepInv(sys.loop, e);
    if e.QueueInLoop? || e.ForeignPush? {
      MineOne(sys.loop.pending, e.task);
      assert Mine(sys.loop.pending) + [] == Mine(sys.loop.pending);
    }
    hide LoopProperties.Inv, Mine;
  }

  lemma PhaseAligned(sys: System, e: L.Event)
    requires LoopProperties.Inv(sys.loop) && Aligned(sys) && Possible(sys, Other(e)) && Events(sys, Other(e)) != []
    ensures Aligned(System(Step(sys.connector, if e.Swap? then Swap else EndBatch), L.Step(sys.loop, e)))
  {
    LoopProperties.StepInv(sys.loop, e);
    assert Mine([]) == [];
    hide Mine;
  }

  lemma OtherAligned(sys: System, e: L.Event)
    requires LoopProperties.Inv(sys.loop) && Aligned(sys) && Possible(sys, Other(e))
    ensures Aligned(Next(sys, Other(e)))
  {
    hide Aligned, Step, L.Step;
    LoopOne(sys.loop, e, []);
    One(sys.connector, Swap);
    One(sys.connector, EndBatch);
    if Events(sys, Other(e)) == [] {
      UnseenAligned(sys, e);
    } else {
      PhaseAligned(sys, e);
    }
    hide Run, L.Run;
  }

  lemma MoveAligned(sys: System, m: Move)
    requires LoopProperties.Inv(sys.loop) && Aligned(sys) && Possible(sys, m)
    ensures Aligned(Next(sys, m))
  {
    hide Aligned, Next, Possible;
    match m
    case Other(e) => OtherAligned(sys, e);
    case RunFunction(errno) => RunFunctionAligned(sys, errno);
    case Act(e, own) => ActAligned(sys, e, own);
  }

  /** Side by side with its loop, the connector's batches are the loop's batches and its queues are its part of the
      loop's, in every run. */
  lemma {:induction false} RunsAligned(sys: System, moves: seq<Move>)
    requires LoopProperties.Inv(sys.loop) && Aligned(sys) && AllPossible(sys, moves)
    ensures Aligned(RunMoves(sys, moves))
    decreases |moves|
  {
    if moves != [] {
      MoveAligned(sys, moves[0]);
      LoopProperties.RunInv(sys.loop, LoopEvents(sys, moves[0]));
      hide Aligned, Next, Possible;
      RunsAligned(Next(sys, moves[0]), moves[1..]);
    }
  }

  lemma NewIsAligned(s: Connector, l: L.Loop)
    requires New(s) && L.New(l)
    ensures Aligned(System(s, l))
  {
  }

  /* ---------------------------------- what the loop gives the connector ---------------------------------- */

  function AllLoopEvents(sys: System, moves: seq<Move>): seq<L.Event>
    decreases |moves|
  {
    if moves == [] then [] else LoopEvents(sys, moves[0]) + AllLoopEvents(Next(sys, moves[0]), moves[1..])
  }

  lemma {:induction false} LoopRuns(sys: System, moves: seq<Move>)
    ensures RunMoves(sys, moves).loop == L.Run(sys.loop, AllLoopEvents(sys, moves))
    decreases |moves|
  {
    if moves != [] {
      hide LoopEvents, Events, Run;
      LoopRuns(Next(sys, moves[0]), moves[1..]);
      L.RunConcat(sys.loop, LoopEvents(sys, moves[0]), AllLoopEvents(Next(sys, moves[0]), moves[1..]));
    }
  }

  lemma {:induction false} MinePrefix(a: seq<L.Task>, b: seq<L.Task>)
    requires a <= b
    ensures Mine(a) <= Mine(b)
  {
    assert b == a + b[|a|..];
    MineConcat(a, b[|a|..]);
  }

  /** Whatever the connector had queued when its loop was in the handlers has run when the loop is back at its test. */
  lemma QueuedRunsInTheIteration(sys: System, moves: seq<Move>)
    requires LoopProperties.Inv(sys.loop) && Aligned(sys) && AllPossible(sys, moves) && sys.loop.phase.Handle?
    ensures var end := RunMoves(sys, moves);
            end.loop.phase.Check? ==>
              && Mine(sys.loop.ran) + sys.connector.pending <= Mine(end.loop.ran)
              && end.connector.batch == []
  {
    assert Mine([]) == [];
    hide RunMoves, AllLoopEvents, AllPossible, L.Run, Mine;
    RunsAligned(sys, moves);
    LoopRuns(sys, moves);
    var end, l := RunMoves(sys, moves), sys.loop;
    LoopProperties.IterationRunsTheQueue(l, AllLoopEvents(sys, moves));
    LoopProperties.RunInv(l, AllLoopEvents(sys, moves));
    if end.loop.phase.Check? {
      MinePrefix(l.queued, end.loop.ran);
      assert l.batch == [] && l.queued == l.ran + l.pending;
      MineConcat(l.ran, l.pending);
    }
  }

  /* ---------------------------------- the whole system ---------------------------------- */

  function AllEvents(sys: System, moves: seq<Move>): seq<Event>
    decreases |moves|
  {
    if moves == [] then [] else Events(sys, moves[0]) + AllEvents(Next(sys, moves[0]), moves[1..])
  }

  lemma {:induction false} ConnectorMoves(sys: System, moves: seq<Move>)
    ensures RunMoves(sys, moves).connector == Run(sys.connector, AllEvents(sys, moves))
    decreases |moves|
  {
    if moves != [] {
      hide LoopEvents, Events, Run, L.Run;
      ConnectorMoves(Next(sys, moves[0]), moves[1..]);
      RunConcat(sys.connector, Events(sys, moves[0]), AllEvents(Next(sys, moves[0]), moves[1..]));
    } else {
      hide L.Run;
    }
  }

  /** A new client on a new loop, whatever else the loop serves: with polite starts and timers that keep their time
      nothing fails, and the connector's queues stay its part of the loop's. */
  lemma NoSystemFails(s: Connector, l: L.Loop, moves: seq<Move>)
    requires New(s) && L.New(l) && AllPossible(System(s, l), moves)
    requires Polite(s, AllEvents(System(s, l), moves)) && InTime(s, AllEvents(System(s, l), moves))
    ensures var end := RunMoves(System(s, l), moves); !end.connector.failed && Aligned(end)
  {
    var sys := System(s, l);
    NewIsAligned(s, l);
    RunsAligned(sys, moves);
    ConnectorMoves(sys, moves);
    NoRunFails(s, AllEvents(sys, moves));
  }
}
