/** The wait-for graph around one replay: when it has a cycle, and that everything else comes to its end. */
module ReplayWaits {
  import opened Common
  import opened ReplayGate

  // ---- The graph ----------------------------------------------------------------------------

  /** A native call that waits for the replay's callback worker to run dry. */
  predicate WaitsForQuiet(s: State, y: Node)
    requires Valid(s)
  {
    (y.Producer? && y.p in s.producers) || (y == WorkerOf(REPLAY) && !Ready(s.objects[REPLAY]))
  }

  predicate HeldBy(s: State, q: nat, y: Node) { q < |s.objects| && s.objects[q].gate == Some(y) }

  predicate CallerWaitsFor(s: State, c: Caller, y: Node)
    requires Valid(s)
  {
    match c
    case Want(_, _) => HeldBy(s, REPLAY, y)
    case WantOutput(o) => HeldBy(s, o, y)
    case WantClose(o) => HeldBy(s, o, y)
    case InNative(_, waits) => waits && WaitsForQuiet(s, y)
    case AwaitWorker(q) => q < |s.objects| && y == WorkerOf(q) && !s.objects[q].worker.Stopped?
    case _ => false
  }

  /** `x` cannot go on before `y` has done something. */
  predicate WaitsFor(s: State, x: Node, y: Node)
    requires Valid(s)
  {
    match x
    case User(i) => i < |s.callers| && CallerWaitsFor(s, s.callers[i], y)
    case WorkerOf(q) =>
      && q < |s.objects| && s.objects[q].worker.Calling? && y == User(s.objects[q].worker.i)
      && y.i < |s.callers| && !s.callers[y.i].Over?
    case Producer(p) =>
      && p in s.producers && y == WorkerOf(REPLAY)
      && !s.objects[REPLAY].queueClosed && s.objects[REPLAY].lane == CAPACITY
    case Outsider(_) => false
  }

  /** The threads of `path` wait for one another in a ring. */
  ghost predicate Cycle(s: State, path: seq<Node>)
    requires Valid(s)
  {
    && |path| >= 2 && path[0] == path[|path| - 1]
    && forall k :: 0 <= k < |path| - 1 ==> WaitsFor(s, path[k], path[k + 1])
  }

  // ---- When there is a cycle ----------------------------------------------------------------

  /**
   Call `i` depends on the replay's callback worker: it waits for the worker in a native call or for a gate behind
   such a call, drains the worker, or drains an output whose handler is inside a call that does.
   */
  predicate OnWorker(s: State, i: nat)
    requires Valid(s)
    decreases |s.callers| - i
  {
    i < |s.callers| &&
    match s.callers[i]
    case Want(_, _) =>
      var gate := s.objects[REPLAY].gate;
      && gate.Some? && gate.value.User? && gate.value.i < |s.callers|
      && s.callers[gate.value.i].InNative? && s.callers[gate.value.i].waits
    case InNative(_, waits) => waits
    case AwaitWorker(q) =>
      q == REPLAY
      || (q < |s.objects| && s.objects[q].worker.Calling? && i < s.objects[q].worker.i
          && OnWorker(s, s.objects[q].worker.i))
    case _ => false
  }

  /** A handler of the replay is draining an output, and a handler of that output depends on the replay's worker. */
  predicate Deadlocked(s: State)
    requires Valid(s)
  {
    s.objects[REPLAY].worker.Calling? && OnWorker(s, s.objects[REPLAY].worker.i)
  }

  /** In a deadlock the replay's handler has closed an output natively and drains its queue. */
  lemma DeadlockIsADrain(steps: seq<Step>)
    requires Deadlocked(Run(steps))
    ensures var s := Run(steps);
      var i := s.objects[REPLAY].worker.i;
      i < |s.callers| && s.callers[i].AwaitWorker? && s.callers[i].q != REPLAY
  {
    RunIsSafe(steps);
  }

  function Chain(s: State, i: nat): nat {
    if i < |s.callers| then 2 * (|s.callers| - i) else 0
  }

  /** What does not depend on the worker is below `Base`, the worker is at it, the rest above. */
  function Base(s: State): nat { 2 * |s.callers| + 20 }

  function CallRank(s: State, i: nat): nat {
    if i >= |s.callers| then 0
    else match s.callers[i]
      case Want(_, _) => 5
      case WantOutput(_) => 1
      case WantClose(_) => 1
      case InNative(_, waits) => if waits then 2 else 0
      case AwaitWorker(q) => if q == REPLAY then 2 else 10 + Chain(s, i)
      case _ => 0
  }

  function Above(s: State, i: nat): nat
    requires Valid(s)
  {
    if OnWorker(s, i) then Base(s) else 0
  }

  function Rank(s: State, x: Node): nat
    requires Valid(s)
  {
    match x
    case User(i) => Above(s, i) + CallRank(s, i)
    case WorkerOf(q) =>
      if q == REPLAY then Base(s)
      else if q < |s.objects| && s.objects[q].worker.Calling? then
        Above(s, s.objects[q].worker.i) + 11 + Chain(s, s.objects[q].worker.i)
      else 0
    case Producer(_) => Base(s) + 1
    case Outsider(_) => 0
  }

  lemma CallersWaitDown(s: State, i: nat, y: Node)
    requires Safe(s) && WaitsFor(s, User(i), y)
    ensures Rank(s, y) < Rank(s, User(i))
  {
  }

  lemma WaitsGoDown(s: State, x: Node, y: Node)
    requires Safe(s) && !Deadlocked(s) && WaitsFor(s, x, y)
    ensures Rank(s, y) < Rank(s, x)
  {
    if x.User? {
      CallersWaitDown(s, x.i, y);
    }
  }

  lemma {:induction false} PathGoesDown(s: State, path: seq<Node>)
    requires Safe(s) && !Deadlocked(s)
    requires |path| >= 2 && forall k :: 0 <= k < |path| - 1 ==> WaitsFor(s, path[k], path[k + 1])
    ensures Rank(s, path[|path| - 1]) < Rank(s, path[0])
    decreases |path|
  {
    WaitsGoDown(s, path[0], path[1]);
    if |path| > 2 {
      PathGoesDown(s, path[1..]);
    }
  }

  /** From a call that depends on the replay's worker, while that is inside a call, a chain of waits leads to it. */
  lemma {:induction false} ChainToWorker(s: State, i: nat) returns (path: seq<Node>)
    requires Safe(s) && OnWorker(s, i) && s.objects[REPLAY].worker.Calling?
    ensures |path| >= 2 && path[0] == User(i) && path[|path| - 1] == WorkerOf(REPLAY)
    ensures forall k :: 0 <= k < |path| - 1 ==> WaitsFor(s, path[k], path[k + 1])
    decreases |s.callers| - i
  {
    match s.callers[i]
    case Want(_, _) => path := [User(i), s.objects[REPLAY].gate.value, WorkerOf(REPLAY)];
    case InNative(_, _) => path := [User(i), WorkerOf(REPLAY)];
    case AwaitWorker(q) =>
      if q == REPLAY {
        path := [User(i), WorkerOf(REPLAY)];
      } else {
        var j := s.objects[q].worker.i;
        var rest := ChainToWorker(s, j);
        path := [User(i), WorkerOf(q)] + rest;
      }
  }

  /**
   Threads wait for one another in a ring exactly when a handler of the replay is draining an output of which a
   handler depends on the replay's worker. All other waits go down.
   */
  lemma CycleIffDeadlocked(steps: seq<Step>)
    ensures Deadlocked(Run(steps)) <==> exists path :: Cycle(Run(steps), path)
  {
    RunIsSafe(steps);
    var s := Run(steps);
    if Deadlocked(s) {
      var i := s.objects[REPLAY].worker.i;
      var rest := ChainToWorker(s, i);
      assert Cycle(s, [WorkerOf(REPLAY)] + rest);
    }
    if path :| Cycle(s, path) && !Deadlocked(s) {
      PathGoesDown(s, path);
    }
  }

  // ---- The deadlock is real, permanent, and only made by a handler's close -------------------

  lemma OneMoreStep(steps: seq<Step>, last: Step)
    ensures Run(steps + [last]) == Next(Run(steps), last)
  {
    assert (steps + [last])[..|steps|] == steps;
  }

  const QUIET_HANDLER := NEW_OBJECT.(worker := Handling)

  const CLOSING_HANDLER := NEW_OBJECT.(worker := Calling(0))

  /** A handler of the replay runs, and there is an idle output. */
  lemma HandlerRuns() returns (steps: seq<Step>)
    ensures Run(steps) == State([QUIET_HANDLER, NEW_OBJECT], [], {})
  {
    var s1 := [NewOutput];
    var s2 := s1 + [Post(REPLAY, 0)];
    steps := s2 + [WorkerMoves(REPLAY)];
    OneMoreStep([], NewOutput);
    assert [] + [NewOutput] == s1;
    OneMoreStep(s1, Post(REPLAY, 0));
    OneMoreStep(s2, WorkerMoves(REPLAY));
    assert Run(s1).objects == [NEW_OBJECT, NEW_OBJECT];
    assert Run(steps).objects == [QUIET_HANDLER, NEW_OBJECT];
  }

  /** It starts to close the output. */
  lemma HandlerClosesOutput() returns (steps: seq<Step>)
    ensures Run(steps) == State([CLOSING_HANDLER, NEW_OBJECT.(gate := Some(User(0)))], [InClose(1)], {})
  {
    var s0 := HandlerRuns();
    var s1 := s0 + [Begin(Some(REPLAY), CloseOutput(1), false)];
    steps := s1 + [CallerMoves(0, true)];
    OneMoreStep(s0, Begin(Some(REPLAY), CloseOutput(1), false));
    OneMoreStep(s1, CallerMoves(0, true));
    assert Run(s1) == State([CLOSING_HANDLER, NEW_OBJECT], [WantClose(1)], {});
  }

  /** Before the native close returns, a callback reaches the output's queue; its handler seeks the replay. */
  lemma OutputHandlerSeeks() returns (steps: seq<Step>)
    ensures var output := NEW_OBJECT.(gate := Some(User(0)), worker := Calling(1));
      Run(steps) == State([CLOSING_HANDLER, output], [InClose(1), Want(Seek, true)], {})
  {
    var s0 := HandlerClosesOutput();
    var s1 := s0 + [Post(1, 0)];
    var s2 := s1 + [WorkerMoves(1)];
    steps := s2 + [Begin(Some(1), Seek, true)];
    OneMoreStep(s0, Post(1, 0));
    OneMoreStep(s1, WorkerMoves(1));
    OneMoreStep(s2, Begin(Some(1), Seek, true));
  }

  /** The native seek waits for the replay's worker, the replay's handler drains the output's queue. */
  lemma DeadlockHappens()
    ensures exists steps :: Deadlocked(Run(steps))
  {
    var s0 := OutputHandlerSeeks();
    var s1 := s0 + [CallerMoves(1, true)];
    var s2 := s1 + [CallerMoves(0, true)];
    var s3 := s2 + [CallerMoves(0, true)];
    OneMoreStep(s0, CallerMoves(1, true));
    OneMoreStep(s1, CallerMoves(0, true));
    OneMoreStep(s2, CallerMoves(0, true));
    assert Run(s1).callers == [InClose(1), InNative(Seek, true)];
    assert Run(s3).callers == [AwaitWorker(1), InNative(Seek, true)];
    assert OnWorker(Run(s3), 1);
    assert Deadlocked(Run(s3));
  }

  /** Whoever is not the caller of a step keeps its entry. */
  lemma OtherCallersStay(s: State, step: Step, i: nat)
    requires Safe(s) && i < |s.callers| && !(step.CallerMoves? && step.i == i)
    ensures i < |Next(s, step).callers| && Next(s, step).callers[i] == s.callers[i]
  {
    if step.CallerMoves? && step.i < |s.callers| {
      CallerStepEffect(s, step.i, step.ok);
    }
  }

  /** A call that depends on the worker, while the worker's own call does, is stuck where it is. */
  lemma DependentCallsStay(s: State, step: Step, i: nat)
    requires Safe(s) && Deadlocked(s) && OnWorker(s, i)
    ensures i < |Next(s, step).callers| && Next(s, step).callers[i] == s.callers[i]
  {
    if !(step.CallerMoves? && step.i == i) {
      OtherCallersStay(s, step, i);
    }
  }

  /** A handler stays inside a call that is not over. */
  lemma HandlersStay(s: State, step: Step, q: nat)
    requires Safe(s) && q < |s.objects| && s.objects[q].worker.Calling?
    requires !s.callers[s.objects[q].worker.i].Over?
    ensures q < |Next(s, step).objects| && Next(s, step).objects[q].worker == s.objects[q].worker
  {
    if step.CallerMoves? && step.i < |s.callers| {
      CallerStepEffect(s, step.i, step.ok);
    }
  }

  lemma GateStays(s: State, step: Step)
    requires Safe(s) && Deadlocked(s) && s.objects[REPLAY].gate.Some?
    requires OnWorker(s, s.objects[REPLAY].gate.value.i)
    ensures Next(s, step).objects[REPLAY].gate == s.objects[REPLAY].gate
  {
    var k := s.objects[REPLAY].gate.value.i;
    DependentCallsStay(s, step, k);
    NextIsSafe(s, step);
    assert Holds(s.callers[k], REPLAY);
  }

  lemma {:induction false} DependenceStays(s: State, step: Step, i: nat)
    requires Safe(s) && Deadlocked(s) && OnWorker(s, i)
    ensures OnWorker(Next(s, step), i)
    decreases |s.callers| - i
  {
    DependentCallsStay(s, step, i);
    if s.callers[i].AwaitWorker? && s.callers[i].q != REPLAY {
      var q := s.callers[i].q;
      HandlersStay(s, step, q);
      DependenceStays(s, step, s.objects[q].worker.i);
    } else if s.callers[i].Want? {
      GateStays(s, step);
      DependentCallsStay(s, step, s.objects[REPLAY].gate.value.i);
    }
  }

  lemma DeadlockStays(s: State, step: Step)
    requires Safe(s) && Deadlocked(s)
    ensures Deadlocked(Next(s, step)) && Next(s, step).objects[REPLAY].worker == s.objects[REPLAY].worker
  {
    HandlersStay(s, step, REPLAY);
    DependenceStays(s, step, s.objects[REPLAY].worker.i);
  }

  function Exec(s: State, steps: seq<Step>): (t: State)
    requires Valid(s)
    ensures Valid(t)
    decreases |steps|
  {
    if steps == [] then s else Exec(Next(s, steps[0]), steps[1..])
  }

  lemma {:induction false} DeadlockLasts(s: State, steps: seq<Step>)
    requires Safe(s) && Deadlocked(s)
    ensures Deadlocked(Exec(s, steps)) && Exec(s, steps).objects[REPLAY].worker == s.objects[REPLAY].worker
    decreases |steps|
  {
    if steps != [] {
      DeadlockStays(s, steps[0]);
      NextIsSafe(s, steps[0]);
      DeadlockLasts(Next(s, steps[0]), steps[1..]);
    }
  }

  /** A deadlock never ends, whatever else happens: the handler stays in that call. */
  lemma DeadlockIsForever(steps: seq<Step>, more: seq<Step>)
    requires Deadlocked(Run(steps))
    ensures var t := Exec(Run(steps), more);
      Deadlocked(t) && t.objects[REPLAY].worker == Run(steps).objects[REPLAY].worker
  {
    RunIsSafe(steps);
    DeadlockLasts(Run(steps), more);
  }

  predicate HandlerCloses(step: Step) { step.Begin? && step.within == Some(REPLAY) && step.op.CloseOutput? }

  predicate Draining(c: Caller) { c.WantClose? || c.InClose? || c.ClosingQueue? || c.AwaitWorker? }

  predicate HandlerDrains(s: State)
    requires Valid(s)
  {
    var w := s.objects[REPLAY].worker;
    w.Calling? && w.i < |s.callers| && Draining(s.callers[w.i])
  }

  lemma OnlyHandlerClosesDrain(s: State, step: Step)
    requires Safe(s) && !HandlerDrains(s) && HandlerDrains(Next(s, step))
    ensures HandlerCloses(step)
  {
    if step.CallerMoves? && step.i < |s.callers| {
      CallerStepEffect(s, step.i, step.ok);
      CallerStepOwn(s, step.i, step.ok);
    }
  }

  lemma {:induction false} DrainsComeFromCloses(steps: seq<Step>)
    requires HandlerDrains(Run(steps))
    ensures exists k :: 0 <= k < |steps| && HandlerCloses(steps[k])
  {
    var n := |steps| - 1;
    RunIsSafe(steps[..n]);
    if HandlerDrains(Run(steps[..n])) {
      DrainsComeFromCloses(steps[..n]);
      var k :| 0 <= k < n && HandlerCloses(steps[..n][k]);
      assert HandlerCloses(steps[k]);
    } else {
      OnlyHandlerClosesDrain(Run(steps[..n]), steps[n]);
    }
  }

  /** As long as no handler of the replay closes an output, no threads ever wait for one another in a ring. */
  lemma NoCycleWithoutHandlerClose(steps: seq<Step>, path: seq<Node>)
    requires forall k :: 0 <= k < |steps| ==> !HandlerCloses(steps[k])
    ensures !Cycle(Run(steps), path)
  {
    if Cycle(Run(steps), path) {
      CycleIffDeadlocked(steps);
      DeadlockIsADrain(steps);
      DrainsComeFromCloses(steps);
    }
  }

  /**
   A handler of the replay never waits for its own replay: not for the gate, not for the worker, not for a native
   thread. All it can wait for is the gate of an output that it binds or closes, and the worker of one that it
   closes. Its long calls and its close are refused at once.
   */
  lemma HandlersWaitOnlyForOutputs(steps: seq<Step>, i: nat, y: Node, op: Op, waits: bool)
    ensures var s := Run(steps);
      && (s.objects[REPLAY].worker == Calling(i) && WaitsFor(s, User(i), y) ==>
            || (exists o: nat :: IsOutput(s, o) && s.objects[o].gate == Some(y))
            || (y.WorkerOf? && IsOutput(s, y.q) && Closes(s.callers[i], y.q)))
      && (MayWait(op) ==> Next(s, Begin(Some(REPLAY), op, waits)) == s)
  {
    RunIsSafe(steps);
    var s := Run(steps);
    if s.objects[REPLAY].worker == Calling(i) && WaitsFor(s, User(i), y) && !s.callers[i].AwaitWorker? {
      assert IsOutput(s, s.callers[i].o) && s.objects[s.callers[i].o].gate == Some(y);
    }
  }

  // ---- Everything else comes to its end ------------------------------------------------------

  predicate Moves(s: State, step: Step)
    requires Valid(s)
  {
    !Input(step) && Next(s, step) != s
  }

  predicate Unfinished(s: State, x: Node)
    requires Valid(s)
  {
    match x
    case User(i) => i < |s.callers| && !s.callers[i].Over?
    case WorkerOf(q) =>
      && q < |s.objects| && !s.objects[q].worker.Stopped?
      && (s.objects[q].worker.Idle? ==> s.objects[q].lane > 0 || s.objects[q].queueClosed)
    case Producer(p) => p in s.producers
    case Outsider(o) => IsOutput(s, o) && s.objects[o].gate == Some(Outsider(o))
  }

  function OwnStep(x: Node): Step {
    match x
    case User(i) => CallerMoves(i, false)
    case WorkerOf(q) => WorkerMoves(q)
    case Producer(p) => Unblock(p)
    case Outsider(o) => OutputReturns(o)
  }

  /** What somebody waits for is itself unfinished. */
  lemma NobodyWaitsInVain(s: State, x: Node, y: Node)
    requires Safe(s) && WaitsFor(s, x, y)
    ensures Unfinished(s, y)
  {
  }

  /** Who is unfinished and waits for nobody can move. */
  lemma FreeOnesMove(s: State, x: Node)
    requires Safe(s) && Unfinished(s, x) && forall y :: !WaitsFor(s, x, y)
    ensures Moves(s, OwnStep(x))
  {
    match x
    case User(i) =>
      var c := s.callers[i];
      var g := s.objects[REPLAY].gate;
      assert c.Want? && g.Some? ==> WaitsFor(s, x, g.value);
      assert (c.WantOutput? || c.WantClose?) && s.objects[c.o].gate.Some? ==> WaitsFor(s, x, s.objects[c.o].gate.value);
      assert c.AwaitWorker? && !s.objects[c.q].worker.Stopped? ==> WaitsFor(s, x, WorkerOf(c.q));
      assert c.InNative? && c.waits && !Ready(s.objects[REPLAY]) ==> WaitsFor(s, x, WorkerOf(REPLAY));
      if c.InNative? && c.waits && s.producers != {} {
        var p :| p in s.producers;
        assert WaitsFor(s, x, Producer(p));
      }
      assert Next(s, OwnStep(x)).callers[i] != c;
    case WorkerOf(q) =>
      var w := s.objects[q].worker;
      assert w.Calling? && !s.callers[w.i].Over? ==> WaitsFor(s, x, User(w.i));
      assert Next(s, OwnStep(x)).objects[q].worker != w;
    case Producer(p) =>
      assert !WaitsFor(s, x, WorkerOf(REPLAY));
      assert p !in Next(s, OwnStep(x)).producers;
    case Outsider(o) => assert Next(s, OwnStep(x)).objects[o].gate.None?;
  }

  lemma {:induction false} SomethingMoves(s: State, x: Node) returns (step: Step)
    requires Safe(s) && !Deadlocked(s) && Unfinished(s, x)
    ensures Moves(s, step)
    decreases Rank(s, x)
  {
    if y :| WaitsFor(s, x, y) {
      WaitsGoDown(s, x, y);
      NobodyWaitsInVain(s, x, y);
      step := SomethingMoves(s, y);
    } else {
      FreeOnesMove(s, x);
      step := OwnStep(x);
    }
  }

  function CallerWork(c: Caller): nat {
    match c
    case Want(_, _) => 5
    case WantOutput(_) => 4
    case InNative(_, _) => 3
    case WantClose(_) => 4
    case InClose(_) => 3
    case ClosingQueue(_) => 2
    case AwaitWorker(_) => 1
    case Over => 0
  }

  function CallersWork(cs: seq<Caller>): nat {
    if cs == [] then 0 else CallersWork(cs[..|cs| - 1]) + CallerWork(cs[|cs| - 1])
  }

  lemma {:induction false} CallersWorkUpdates(cs: seq<Caller>, i: nat, c: Caller)
    requires i < |cs|
    ensures CallersWork(cs[i := c]) == CallersWork(cs) - CallerWork(cs[i]) + CallerWork(c)
  {
    var last := |cs| - 1;
    if i == last {
      assert cs[i := c][..last] == cs[..last];
    } else {
      CallersWorkUpdates(cs[..last], i, c);
      assert cs[i := c][..last] == cs[..last][i := c];
    }
  }

  function WorkerWork(w: Worker): nat {
    match w
    case Stopped => 0
    case Idle => 1
    case Handling => 2
    case Calling(_) => 3
  }

  function ObjectWork(b: Object): nat {
    3 * b.lane + WorkerWork(b.worker) + if b.gate.Some? && b.gate.value.Outsider? then 1 else 0
  }

  function ObjectsWork(bs: seq<Object>): nat {
    if bs == [] then 0 else ObjectsWork(bs[..|bs| - 1]) + ObjectWork(bs[|bs| - 1])
  }

  lemma {:induction false} ObjectsWorkUpdates(bs: seq<Object>, q: nat, b: Object)
    requires q < |bs|
    ensures ObjectsWork(bs[q := b]) == ObjectsWork(bs) - ObjectWork(bs[q]) + ObjectWork(b)
  {
    var last := |bs| - 1;
    if q == last {
      assert bs[q := b][..last] == bs[..last];
    } else {
      ObjectsWorkUpdates(bs[..last], q, b);
      assert bs[q := b][..last] == bs[..last][q := b];
    }
  }

  lemma {:induction false} ObjectsWorkSame(bs: seq<Object>, cs: seq<Object>)
    requires |bs| == |cs| && forall q :: 0 <= q < |bs| ==> ObjectWork(cs[q]) == ObjectWork(bs[q])
    ensures ObjectsWork(cs) == ObjectsWork(bs)
  {
    if bs != [] {
      ObjectsWorkSame(bs[..|bs| - 1], cs[..|bs| - 1]);
    }
  }

  function Work(s: State): nat {
    CallersWork(s.callers) + ObjectsWork(s.objects) + 4 * |s.producers|
  }

  lemma CallerLowersWork(s: State, i: nat, ok: bool)
    requires Safe(s) && i < |s.callers| && CallerStep(s, i, ok) != s
    ensures |CallerStep(s, i, ok).callers| == |s.callers|
    ensures CallerWork(CallerStep(s, i, ok).callers[i]) < CallerWork(s.callers[i])
  {
  }

  lemma ReplayCallKeepsWork(s: State, i: nat, ok: bool)
    requires Safe(s) && i < |s.callers| && OnReplay(s.callers[i])
    ensures var t := ReplayCall(s, i, ok);
      && |t.objects| == |s.objects|
      && forall q :: 0 <= q < |s.objects| ==> ObjectWork(t.objects[q]) == ObjectWork(s.objects[q])
  {
    assert s.callers[i].InNative? ==> s.objects[REPLAY].gate == Some(User(i));
  }

  lemma CloseCallKeepsWork(s: State, i: nat, ok: bool)
    requires Safe(s) && i < |s.callers| && !OnReplay(s.callers[i])
    ensures var t := CloseCall(s, i, ok);
      && |t.objects| == |s.objects|
      && forall q :: 0 <= q < |s.objects| ==> ObjectWork(t.objects[q]) == ObjectWork(s.objects[q])
  {
    assert s.callers[i].InClose? ==> Holds(s.callers[i], s.callers[i].o);
  }

  lemma CallersUseUpWork(s: State, i: nat, ok: bool)
    requires Safe(s) && i < |s.callers| && CallerStep(s, i, ok) != s
    ensures Work(CallerStep(s, i, ok)) < Work(s)
  {
    var t := CallerStep(s, i, ok);
    CallerStepEffect(s, i, ok);
    CallerLowersWork(s, i, ok);
    if OnReplay(s.callers[i]) {
      ReplayCallKeepsWork(s, i, ok);
    } else {
      CloseCallKeepsWork(s, i, ok);
    }
    CallersWorkUpdates(s.callers, i, t.callers[i]);
    ObjectsWorkSame(s.objects, t.objects);
  }

  lemma UnblockUsesUpWork(s: State, p: nat)
    requires Valid(s) && UnblockStep(s, p) != s
    ensures Work(UnblockStep(s, p)) < Work(s)
  {
    assert |s.producers - {p}| == |s.producers| - 1;
    ObjectsWorkUpdates(s.objects, REPLAY, UnblockStep(s, p).objects[REPLAY]);
  }

  lemma WorkerUsesUpWork(s: State, q: nat)
    requires q < |s.objects| && WorkerStep(s, q) != s
    ensures Work(WorkerStep(s, q)) < Work(s)
  {
    ObjectsWorkUpdates(s.objects, q, WorkerStep(s, q).objects[q]);
  }

  lemma OutsiderUsesUpWork(s: State, o: nat)
    requires Valid(s) && Next(s, OutputReturns(o)) != s
    ensures Work(Next(s, OutputReturns(o))) < Work(s)
  {
    ObjectsWorkUpdates(s.objects, o, Next(s, OutputReturns(o)).objects[o]);
  }

  /** Every step that is not new work, and does anything, leaves less to do. */
  lemma StepsUseUpWork(s: State, step: Step)
    requires Safe(s) && Moves(s, step)
    ensures Work(Next(s, step)) < Work(s)
  {
    match step
    case CallerMoves(i, ok) => CallersUseUpWork(s, i, ok);
    case Unblock(p) => UnblockUsesUpWork(s, p);
    case WorkerMoves(q) => WorkerUsesUpWork(s, q);
    case OutputReturns(o) => OutsiderUsesUpWork(s, o);
  }

  /** All calls have returned, no native thread is blocked, and no task is left. */
  predicate AtRest(s: State)
    requires Valid(s)
  {
    && (forall i :: 0 <= i < |s.callers| ==> s.callers[i].Over?)
    && (forall q :: 0 <= q < |s.objects| ==> Ready(s.objects[q]))
    && s.producers == {}
  }

  lemma SomebodyUnfinished(s: State) returns (x: Node)
    requires Safe(s) && !AtRest(s)
    ensures Unfinished(s, x)
  {
    if i :| 0 <= i < |s.callers| && !s.callers[i].Over? {
      x := User(i);
    } else if p :| p in s.producers {
      x := Producer(p);
    } else {
      var q :| 0 <= q < |s.objects| && !Ready(s.objects[q]);
      x := WorkerOf(q);
    }
  }

  /** Every one of the steps is no new work and does something. */
  predicate AllMove(s: State, steps: seq<Step>)
    requires Valid(s)
    decreases |steps|
  {
    steps == [] || (Moves(s, steps[0]) && AllMove(Next(s, steps[0]), steps[1..]))
  }

  lemma {:induction false} SchedulesUseUpWork(s: State, steps: seq<Step>)
    requires Safe(s) && AllMove(s, steps)
    ensures Safe(Exec(s, steps)) && |steps| + Work(Exec(s, steps)) <= Work(s)
    decreases |steps|
  {
    if steps != [] {
      StepsUseUpWork(s, steps[0]);
      NextIsSafe(s, steps[0]);
      SchedulesUseUpWork(Next(s, steps[0]), steps[1..]);
    }
  }

  /**
   There is no schedule to choose: without new work from outside, every order of steps from every reachable state
   ends after a bounded number of them. Where none is left, every call has returned, no native thread is blocked and
   every queue is empty, exactly unless the state is deadlocked.
   */
  lemma EverythingEnds(steps: seq<Step>, more: seq<Step>)
    requires AllMove(Run(steps), more)
    ensures |more| <= Work(Run(steps))
    ensures var t := Exec(Run(steps), more);
      (forall step :: !Moves(t, step)) ==> (AtRest(t) <==> !Deadlocked(t))
  {
    RunIsSafe(steps);
    SchedulesUseUpWork(Run(steps), more);
    var t := Exec(Run(steps), more);
    if !AtRest(t) && !Deadlocked(t) {
      var x := SomebodyUnfinished(t);
      var step := SomethingMoves(t, x);
    }
  }
}
