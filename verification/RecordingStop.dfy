/**
 Stopping a recording task: one native stop at a time, retried by the next caller until the native task is destroyed.
 */
module RecordingStop {
  import opened Common

  datatype Result = Result(file: int, err: Outcome)

  /** `generation` names the current `done` channel; it is closed once that stop is over. */
  datatype Task = Task(stopping: bool, generation: nat, finished: bool, result: Result)
  {
    predicate DoneClosed(g: nat) { g < generation || (g == generation && !stopping) }
  }

  datatype Entry = Return(result: Result) | WaitFor(generation: nat) | Invoke(generation: nat)

  /** The lock section at the top of the loop. */
  function Entered(t: Task): (Task, Entry) {
    if t.finished then (t, Return(t.result))
    else if t.stopping then (t, WaitFor(t.generation))
    else (t.(stopping := true, generation := t.generation + 1), Invoke(t.generation + 1))
  }

  /** The lock section after the native stop; the result is kept only when the native task is gone. */
  function Left(t: Task, result: Result, destroyed: bool): Task {
    if destroyed then t.(stopping := false, finished := true, result := result) else t.(stopping := false)
  }

  class RecordingTask {
    var stopping: bool
    var generation: nat
    var finished: bool
    var result: Result

    function View(): Task
      reads this
    {
      Task(stopping, generation, finished, result)
    }

    constructor (result: Result)
      ensures View() == Task(false, 0, false, result)
    {
      stopping, generation, finished, this.result := false, 0, false, result;
    }

    method EnterStop() returns (entry: Entry)
      modifies this
      ensures (View(), entry) == Entered(old(View()))
    {
      if finished {
        return Return(result);
      }
      if stopping {
        return WaitFor(generation);
      }
      stopping := true;
      generation := generation + 1;
      return Invoke(generation);
    }

    method LeaveStop(file: int, code: int, destroyed: bool) returns (own: Result)
      modifies this
      ensures own == Result(file, OutcomeOf(code)) && View() == Left(old(View()), own, destroyed)
    {
      own := Result(file, OutcomeOf(code));
      if destroyed {
        finished := true;
        result := own;
      }
      stopping := false;
    }
  }

  // ---- Any number of callers ----------------------------------------------------------------

  datatype Caller = Arrived | Blocked(generation: nat) | Stopping(generation: nat) | Returned(result: Result, own: bool)

  /** `invoked` is the set of callers that have called the native stop, `stops` the number of such calls. */
  datatype State = State(task: Task, callers: map<nat, Caller>, invoked: set<nat>, stops: nat, nativeAlive: bool)

  datatype Step =
    | Arrive(id: nat)
    | Enter(id: nat)
    | NativeReturns(id: nat, result: Result, destroyed: bool)

  function Initial(result: Result): State {
    State(Task(false, 0, false, result), map[], {}, 0, true)
  }

  predicate MayEnter(s: State, id: nat) {
    && id in s.callers
    && (s.callers[id].Arrived? || (s.callers[id].Blocked? && s.task.DoneClosed(s.callers[id].generation)))
  }

  function Next(s: State, step: Step): State {
    match step
    case Arrive(id) => if id in s.callers then s else s.(callers := s.callers[id := Arrived])
    case Enter(id) =>
      if !MayEnter(s, id) then s
      else
        var (task, entry) := Entered(s.task);
        (match entry
         case Return(result) => s.(callers := s.callers[id := Returned(result, false)])
         case WaitFor(g) => s.(callers := s.callers[id := Blocked(g)])
         case Invoke(g) =>
           s.(task := task, callers := s.callers[id := Stopping(g)], invoked := s.invoked + {id}, stops := s.stops + 1))
    case NativeReturns(id, result, destroyed) =>
      if id in s.callers && s.callers[id].Stopping?
      then s.(task := Left(s.task, result, destroyed), callers := s.callers[id := Returned(result, true)],
              nativeAlive := s.nativeAlive && !destroyed)
      else s
  }

  function Run(start: Result, steps: seq<Step>): State {
    if steps == [] then Initial(start) else Next(Run(start, steps[..|steps| - 1]), steps[|steps| - 1])
  }

  predicate CallerOk(s: State, id: nat)
    requires id in s.callers
  {
    match s.callers[id]
    case Arrived => id !in s.invoked
    case Blocked(g) => id !in s.invoked && 0 < g <= s.task.generation
    case Stopping(g) => id in s.invoked && s.task.stopping && g == s.task.generation && !s.task.finished
    case Returned(result, own) => if own then id in s.invoked else s.task.finished && result == s.task.result
  }

  ghost predicate Safe(s: State) {
    && s.stops == |s.invoked| == s.task.generation
    && s.invoked <= s.callers.Keys
    && (s.nativeAlive <==> !s.task.finished)
    && (s.task.finished ==> !s.task.stopping)
    && (s.task.stopping ==> exists id :: id in s.callers && s.callers[id].Stopping?)
    && (forall id :: id in s.callers ==> CallerOk(s, id))
    && (forall i, j :: i in s.callers && j in s.callers && s.callers[i].Stopping? && s.callers[j].Stopping? ==> i == j)
  }

  lemma EnterIsSafe(s: State, id: nat)
    requires Safe(s) && MayEnter(s, id)
    ensures Safe(Next(s, Enter(id)))
  {
    var t := Next(s, Enter(id));
    assert CallerOk(s, id);
    if s.task.stopping {
      var k :| k in s.callers && s.callers[k].Stopping?;
      assert t.callers[k].Stopping?;
    } else if !s.task.finished {
      assert t.callers[id].Stopping?;
      assert forall i :: i in s.callers ==> CallerOk(s, i);
    }
    forall i | i in t.callers ensures CallerOk(t, i) {
      assert CallerOk(s, i);
    }
  }

  lemma ReturnIsSafe(s: State, id: nat, result: Result, destroyed: bool)
    requires Safe(s) && id in s.callers && s.callers[id].Stopping?
    ensures Safe(Next(s, NativeReturns(id, result, destroyed)))
  {
    var t := Next(s, NativeReturns(id, result, destroyed));
    assert CallerOk(s, id);
    forall i | i in t.callers ensures CallerOk(t, i) {
      assert CallerOk(s, i);
    }
  }

  lemma NextIsSafe(s: State, step: Step)
    requires Safe(s)
    ensures Safe(Next(s, step))
  {
    match step
    case Arrive(id) =>
      if s.task.stopping {
        var k :| k in s.callers && s.callers[k].Stopping?;
        assert Next(s, step).callers[k].Stopping?;
      }
    case Enter(id) => if MayEnter(s, id) { EnterIsSafe(s, id); }
    case NativeReturns(id, result, destroyed) =>
      if id in s.callers && s.callers[id].Stopping? { ReturnIsSafe(s, id, result, destroyed); }
  }

  lemma {:induction false} RunIsSafe(start: Result, steps: seq<Step>)
    ensures Safe(Run(start, steps))
  {
    if steps != [] {
      RunIsSafe(start, steps[..|steps| - 1]);
      NextIsSafe(Run(start, steps[..|steps| - 1]), steps[|steps| - 1]);
    }
  }

  /** At most one native stop is in flight, and never on a destroyed native task. */
  lemma SingleFlight(start: Result, steps: seq<Step>, i: nat, j: nat)
    requires var s := Run(start, steps);
      i in s.callers && j in s.callers && s.callers[i].Stopping? && s.callers[j].Stopping?
    ensures i == j && Run(start, steps).nativeAlive
  {
    RunIsSafe(start, steps);
    assert CallerOk(Run(start, steps), i);
  }

  /** Each caller invokes the native stop at most once, so n callers make at most n native stops. */
  lemma StopsAreBounded(start: Result, steps: seq<Step>)
    ensures Run(start, steps).stops <= |Run(start, steps).callers|
  {
    RunIsSafe(start, steps);
    var s := Run(start, steps);
    SubsetSize(s.invoked, s.callers.Keys);
  }

  lemma {:induction false} SubsetSize(a: set<nat>, b: set<nat>)
    requires a <= b
    ensures |a| <= |b|
  {
    if a != {} {
      var x :| x in a;
      SubsetSize(a - {x}, b - {x});
    }
  }

  lemma FinishedStays(s: State, step: Step)
    requires Safe(s) && s.task.finished
    ensures var t := Next(s, step); t.task == s.task && t.stops == s.stops
  {
    if step.NativeReturns? && step.id in s.callers {
      assert CallerOk(s, step.id);
    }
  }

  /** Once the native task is destroyed no stop is invoked again and the stored file and error never change. */
  lemma {:induction false} FinishedIsFinal(start: Result, steps: seq<Step>, more: seq<Step>)
    requires Run(start, steps).task.finished
    ensures var s, t := Run(start, steps), Run(start, steps + more); t.task == s.task && t.stops == s.stops
  {
    if more == [] {
      assert steps + more == steps;
    } else {
      var last := |more| - 1;
      FinishedIsFinal(start, steps, more[..last]);
      assert (steps + more)[..|steps + more| - 1] == steps + more[..last];
      RunIsSafe(start, steps + more[..last]);
      FinishedStays(Run(start, steps + more[..last]), more[last]);
    }
  }

  /** A caller that did not stop the task itself returns exactly the stored file and error. */
  lemma OthersGetStoredResult(start: Result, steps: seq<Step>, id: nat)
    requires id in Run(start, steps).callers
    requires Run(start, steps).callers[id].Returned? && !Run(start, steps).callers[id].own
    ensures var s := Run(start, steps); s.task.finished && s.callers[id].result == s.task.result
  {
    RunIsSafe(start, steps);
    assert CallerOk(Run(start, steps), id);
  }

  /**
   Nobody waits in vain: a waiting caller waits for a stop in flight or can go on at once; going on, it
   returns, stops the task itself, or waits for a strictly later stop, of which there are at most as many
   as callers.
   */
  lemma WaitersMakeProgress(start: Result, steps: seq<Step>, id: nat)
    requires id in Run(start, steps).callers && Run(start, steps).callers[id].Blocked?
    ensures var s := Run(start, steps); var g := s.callers[id].generation; var t := Next(s, Enter(id));
      && (MayEnter(s, id) || exists k :: k in s.callers && s.callers[k].Stopping?)
      && (MayEnter(s, id) ==> t.callers[id].Blocked? ==> g < t.callers[id].generation <= |t.callers|)
  {
    RunIsSafe(start, steps);
    StopsAreBounded(start, steps);
    assert CallerOk(Run(start, steps), id);
    var s := Run(start, steps);
    assert Next(s, Enter(id)).callers.Keys == s.callers.Keys;
    MapSize(Next(s, Enter(id)).callers, s.callers);
  }

  lemma MapSize(a: map<nat, Caller>, b: map<nat, Caller>)
    requires a.Keys == b.Keys
    ensures |a| == |b|
  {
    assert |a| == |a.Keys| && |b| == |b.Keys|;
  }
}
