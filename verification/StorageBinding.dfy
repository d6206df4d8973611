/** A storage replay and an output as objects: what their methods do when nothing interferes. */
module Replays {
  import opened Common
  import Children = StorageChildren

  /** The errors a replay's close joins into its result. */
  datatype Problem = Refused | DumpStop(d: Id) | DumpDestroy(d: Id) | NativeStop | NativeClose | DeviceClose

  class Replay {
    var closed: bool
    var deps: set<Id>
    var tasks: set<Id>
    var dumps: set<Id>
    var speed: nat
    ghost var destroys: nat

    ghost predicate Valid()
      reads this
    {
      && destroys == (if closed then 1 else 0)
      && (closed ==> deps == {} && tasks == {} && dumps == {})
    }

    constructor ()
      ensures Valid() && !closed && deps == {} && tasks == {} && dumps == {}
    {
      closed, deps, tasks, dumps, speed, destroys := false, {}, {}, {}, 1000, 0;
    }

    /** The speed is remembered exactly when the runtime accepted it; `entered` is whether the gate was obtained. */
    method SetSpeed(value: nat, entered: bool, code: int) returns (outcome: Outcome)
      requires Valid()
      modifies this`speed
      ensures outcome == if value !in {125, 250, 500, 1000, 2000, 4000, 8000} then Err(InvalidArgument)
                         else if !entered then Err(InUse)
                         else if closed then Err(Closed)
                         else OutcomeOf(code)
      ensures speed == if outcome.Ok? then value else old(speed)
    {
      if value !in {125, 250, 500, 1000, 2000, 4000, 8000} {
        return Err(InvalidArgument);
      }
      if !entered {
        return Err(InUse);
      }
      if closed {
        return Err(Closed);
      }
      outcome := OutcomeOf(code);
      if outcome.Ok? {
        speed := value;
      }
    }

    /** Closes the dumps attached now; stops at the first that cannot be destroyed. */
    method CloseDumps(stopFails: set<Id>, fails: set<Id>) returns (problems: seq<Problem>, stuck: bool)
      requires Valid() && !closed
      modifies this`dumps
      ensures Valid() && old(dumps) * fails <= dumps <= old(dumps)
      ensures stuck <==> old(dumps) * fails != {}
      ensures if stuck then problems != [] else dumps == {} && (problems == [] <==> old(dumps) * stopFails == {})
    {
      problems, stuck := [], false;
      ghost var before := dumps;
      while dumps != {}
        invariant Valid() && before * fails <= dumps <= before
        invariant problems == [] <==> forall d :: d in before && d in stopFails ==> d in dumps
        decreases |dumps|
      {
        var d :| d in dumps;
        if d in stopFails {
          problems := problems + [DumpStop(d)];
        }
        if d in fails {
          assert d in before * fails;
          return problems + [DumpDestroy(d)], true;
        }
        dumps := dumps - {d};
      }
    }

    /**
     Closes exactly when the gate is obtained, the callback queue is empty and idle, nothing is attached or
     recording, every raw dump can be destroyed and the native stop and close succeed. A failure removes
     destroyed raw dumps and nothing else. `problems` is what the close joins into its result: it may be
     non-empty although the replay is closed, when a dump's stop or the device's close failed.
     */
    method Close(entered: bool, ready: bool, dumpStopFails: set<Id>, dumpFails: set<Id>,
                 stopFails: bool, closeFails: bool, deviceFails: bool)
      returns (problems: seq<Problem>)
      requires Valid()
      modifies this
      ensures Valid() && speed == old(speed)
      ensures closed <==> old(closed) || (entered && ready && deps == {} && tasks == {} && old(dumps) * dumpFails == {}
                                          && !stopFails && !closeFails)
      ensures deps == old(deps) && tasks == old(tasks) && old(dumps) * dumpFails <= dumps <= old(dumps)
      ensures !closed ==> problems != []
      ensures old(closed) ==> problems == if entered && ready then [] else [Refused]
      ensures closed && !old(closed) ==> (problems == [] <==> old(dumps) * dumpStopFails == {} && !deviceFails)
    {
      problems := [];
      if !entered || !ready {
        return [Refused];
      }
      if closed {
        return;
      }
      if deps != {} || tasks != {} {
        return [Refused];
      }
      var stuck: bool;
      problems, stuck := CloseDumps(dumpStopFails, dumpFails);
      if stuck {
        return;
      }
      if stopFails {
        return problems + [NativeStop];
      }
      if closeFails {
        return problems + [NativeClose];
      }
      closed, destroys := true, destroys + 1;
      problems := problems + (if deviceFails then [DeviceClose] else []);
    }

    /** Stops the recording tasks that are running now, up to the first that does not end. */
    method StopTasks(fails: set<Id>) returns (stuck: bool)
      requires Valid()
      modifies this`tasks
      ensures Valid() && tasks <= old(tasks)
      ensures if old(tasks) * fails == {} then !stuck && tasks == {} else stuck
    {
      ghost var before := tasks;
      while tasks != {}
        invariant Valid() && before * fails <= tasks <= before
        decreases |tasks|
      {
        var t :| t in tasks;
        if t in fails {
          assert t in before * fails;
          return true;
        }
        tasks := tasks - {t};
      }
      stuck := false;
    }

    /** Detaches the outputs that are attached now, up to the first that cannot be detached. */
    method DetachAll(fails: set<Id>) returns (stuck: bool)
      requires Valid()
      modifies this`deps
      ensures Valid() && deps <= old(deps)
      ensures if old(deps) * fails == {} then !stuck && deps == {} else stuck
    {
      ghost var before := deps;
      while deps != {}
        invariant Valid() && before * fails <= deps <= before
        decreases |deps|
      {
        var o :| o in deps;
        if o in fails {
          assert o in before * fails;
          return true;
        }
        deps := deps - {o};
      }
      stuck := false;
    }

    /**
     The client's way of closing: dumps, tasks and outputs first, then the close itself. It closes exactly when
     each of them can be released and the emptied replay closes; a replay left open reports why.
     */
    method CloseFromClient(a: Children.ReplayAnswers) returns (problems: seq<Problem>)
      requires Valid()
      modifies this
      ensures Valid()
      ensures var reply := Children.ReplayReply(old(closed), Children.Holdings(old(dumps), old(tasks), old(deps)), a);
        (closed <==> reply.gone) && (problems == [] <==> reply.outcome.Ok?)
      ensures deps <= old(deps) && tasks <= old(tasks) && dumps <= old(dumps)
    {
      problems := [];
      if !closed {
        var stuck: bool;
        problems, stuck := CloseDumps(a.dumpStopFails, a.dumpFails);
        if stuck {
          return;
        }
        stuck := StopTasks(a.taskFails);
        if !stuck {
          stuck := DetachAll(a.detachFails);
        }
        if stuck {
          return problems + [Refused];
        }
      }
      var last :=
        Close(a.entered, a.ready, a.dumpStopFails, a.dumpFails, a.stopFails, a.closeFails, a.deviceFails);
      problems := problems + last;
    }
  }

  class Output {
    const id: Id
    var closed: bool
    var bound: Replay?
    var channel: nat
    var dropped: bool

    /** The output and the replay it is bound to know each other, and that replay is open. */
    ghost predicate Valid()
      reads this, bound
    {
      && (closed ==> bound == null)
      && (bound != null ==> bound.Valid() && !bound.closed && id in bound.deps)
    }

    constructor (id: Id)
      ensures Valid() && this.id == id && !closed && bound == null && !dropped
    {
      this.id, closed, bound, channel, dropped := id, false, null, 0, false;
    }

    /** Attaching again to the same replay and channel succeeds and changes nothing. */
    method Attach(replay: Replay?, channel: nat, entered: bool, code: int) returns (outcome: Outcome)
      requires Valid() && (replay != null ==> replay.Valid())
      modifies this, replay
      ensures Valid() && (replay != null ==> replay.Valid()) && closed == old(closed) && dropped == old(dropped)
      ensures outcome ==
        if replay == null then Err(InvalidArgument)
        else if !entered then Err(InUse)
        else if closed then Err(Closed)
        else if old(bound) != null then
          (if old(bound) == replay && old(this.channel) == channel then Ok else Err(InUse))
        else if old(replay.closed) then Err(Closed)
        else OutcomeOf(code)
      ensures outcome.Ok? ==> bound == replay && this.channel == channel && id in replay.deps
      ensures replay != null ==> replay.deps == if outcome.Ok? then old(replay.deps) + {id} else old(replay.deps)
      ensures outcome.Err? ==> bound == old(bound) && this.channel == old(this.channel)
    {
      if replay == null {
        return Err(InvalidArgument);
      }
      if !entered {
        return Err(InUse);
      }
      if closed {
        return Err(Closed);
      }
      if bound != null {
        if bound == replay && this.channel == channel {
          assert old(replay.deps) == old(replay.deps) + {id};
          return Ok;
        }
        return Err(InUse);
      }
      if replay.closed {
        return Err(Closed);
      }
      outcome := OutcomeOf(code);
      if outcome.Ok? {
        bound, this.channel := replay, channel;
        replay.deps := replay.deps + {id};
      }
    }

    /** Undoes an attach and remembers that the stream was interrupted. */
    method Detach(entered: bool, code: int) returns (outcome: Outcome)
      requires Valid()
      modifies this, bound
      ensures Valid() && (old(bound) != null ==> old(bound).Valid()) && closed == old(closed)
      ensures outcome == if closed then Err(Closed)
                         else if old(bound) == null then Err(NotBound)
                         else if !entered then Err(InUse)
                         else OutcomeOf(code)
      ensures outcome.Ok? ==> bound == null && dropped && old(bound).deps == old(bound.deps) - {id}
      ensures outcome.Err? ==>
                && bound == old(bound) && dropped == old(dropped)
                && (bound != null ==> bound.deps == old(bound.deps))
    {
      if closed {
        return Err(Closed);
      }
      if bound == null {
        return Err(NotBound);
      }
      if !entered {
        return Err(InUse);
      }
      outcome := OutcomeOf(code);
      if outcome.Ok? {
        bound.deps := bound.deps - {id};
        bound, dropped := null, true;
      }
    }
  }
}

/**
 Any number of storage outputs and replays under any interleaving of attach, detach, snapshots and closes.

 Here the replay's gate is taken first and the output's second, and a detach reads which replay it is bound to
 before it has either, so by then the answer may be old: a detach may start on any replay. Whoever holds a
 gate is described by the phase that gate is in. A step takes a gate together with the section behind it, or
 is one native call (answered `ok`) together with the section after it; a step the state does not allow
 changes nothing. `misuse` records a native call on a destroyed output or replay.
 */
module StorageBindingProtocol {
  import opened Common

  datatype Phase =
    | Free
    | WantOutput(o: Id, attach: bool)
    | Calling(o: Id, attach: bool)
    | Settling(o: Id, attach: bool)
    | Closing

  datatype Gate = Open | HeldFor(r: Id) | Snapping | Destroying

  datatype Replay = Replay(phase: Phase, closed: bool, destroys: nat, deps: set<Id>)

  datatype Output = Output(gate: Gate, closed: bool, destroys: nat, bound: Option<Id>)

  datatype State = State(replays: map<Id, Replay>, outputs: map<Id, Output>, misuse: bool)

  datatype Step =
    | NewReplay(r: Id) | NewOutput(o: Id)
    | Start(r: Id, o: Id, attach: bool)
    | Proceed(r: Id, ok: bool)
    | CloseReplay(r: Id) | ReplayCloseReturns(r: Id, ok: bool)
    | Snapshot(o: Id) | CloseOutput(o: Id, idle: bool) | OutputReturns(o: Id, ok: bool)

  const INITIAL := State(map[], map[], false)

  function SetReplay(s: State, r: Id, k: Replay): State { s.(replays := s.replays[r := k]) }
  function SetOutput(s: State, o: Id, k: Output): State { s.(outputs := s.outputs[o := k]) }
  function Uses(s: State, destroys: nat): State { s.(misuse := s.misuse || destroys > 0) }

  /** Takes the output's gate second and checks everything again under both. */
  function TakeOutput(s: State, r: Id): State
    requires r in s.replays && s.replays[r].phase.WantOutput?
  {
    var k := s.replays[r];
    var (o, attach) := (k.phase.o, k.phase.attach);
    if o !in s.outputs || !s.outputs[o].gate.Open? then s
    else
      var out := s.outputs[o];
      if out.closed || (attach && k.closed) || out.bound != (if attach then None else Some(r))
      then SetReplay(s, r, k.(phase := Free))
      else SetOutput(SetReplay(s, r, k.(phase := Calling(o, attach))), o, out.(gate := HeldFor(r)))
  }

  /** The native call, then the output's own side of the binding. */
  function CallReturns(s: State, r: Id, ok: bool): State
    requires r in s.replays && s.replays[r].phase.Calling?
  {
    var k := s.replays[r];
    var (o, attach) := (k.phase.o, k.phase.attach);
    if o !in s.outputs then s
    else
      var out := s.outputs[o];
      var t := Uses(Uses(s, out.destroys), k.destroys);
      if !ok then SetOutput(SetReplay(t, r, k.(phase := Free)), o, out.(gate := Open))
      else
        SetOutput(SetReplay(t, r, k.(phase := Settling(o, attach))), o,
                  out.(bound := if attach then Some(r) else None))
  }

  /** The replay's side of the binding; both gates are left. */
  function Settle(s: State, r: Id): State
    requires r in s.replays && s.replays[r].phase.Settling?
  {
    var k := s.replays[r];
    var (o, attach) := (k.phase.o, k.phase.attach);
    if o !in s.outputs then s
    else SetOutput(SetReplay(s, r, k.(phase := Free, deps := if attach then k.deps + {o} else k.deps - {o})), o,
                   s.outputs[o].(gate := Open))
  }

  function ProceedStep(s: State, r: Id, ok: bool): State
    requires r in s.replays
  {
    match s.replays[r].phase
    case WantOutput(_, _) => TakeOutput(s, r)
    case Calling(_, _) => CallReturns(s, r, ok)
    case Settling(_, _) => Settle(s, r)
    case _ => s
  }

  function ReplayStep(s: State, step: Step): State {
    match step
    case NewReplay(r) => if r in s.replays then s else SetReplay(s, r, Replay(Free, false, 0, {}))
    case Start(r, o, attach) =>
      if r in s.replays && o in s.outputs && s.replays[r].phase.Free?
      then SetReplay(s, r, s.replays[r].(phase := WantOutput(o, attach))) else s
    case CloseReplay(r) =>
      if r in s.replays && s.replays[r].phase.Free? && !s.replays[r].closed && s.replays[r].deps == {}
      then SetReplay(s, r, s.replays[r].(phase := Closing)) else s
    case ReplayCloseReturns(r, ok) =>
      if r in s.replays && s.replays[r].phase.Closing? then
        var k := s.replays[r];
        SetReplay(Uses(s, k.destroys), r,
                  if ok then k.(phase := Free, closed := true, destroys := k.destroys + 1) else k.(phase := Free))
      else s
    case _ => s
  }

  /** A snapshot or a close of an output holds only the output's gate; a bound output is not closed. */
  function OutputStep(s: State, step: Step): State {
    match step
    case NewOutput(o) => if o in s.outputs then s else SetOutput(s, o, Output(Open, false, 0, None))
    case Snapshot(o) =>
      if o in s.outputs && s.outputs[o].gate.Open? && !s.outputs[o].closed
      then SetOutput(s, o, s.outputs[o].(gate := Snapping)) else s
    case CloseOutput(o, idle) =>
      if o in s.outputs && s.outputs[o].gate.Open? && !s.outputs[o].closed && s.outputs[o].bound.None? && idle
      then SetOutput(s, o, s.outputs[o].(gate := Destroying)) else s
    case OutputReturns(o, ok) =>
      if o !in s.outputs then s
      else
        var out := s.outputs[o];
        if out.gate.Snapping? then SetOutput(Uses(s, out.destroys), o, out.(gate := Open))
        else if out.gate.Destroying? then
          SetOutput(Uses(s, out.destroys), o,
                    if ok then out.(gate := Open, closed := true, destroys := out.destroys + 1) else out.(gate := Open))
        else s
    case _ => s
  }

  function Next(s: State, step: Step): State {
    match step
    case Proceed(r, ok) => if r in s.replays then ProceedStep(s, r, ok) else s
    case NewReplay(_) => ReplayStep(s, step)
    case Start(_, _, _) => ReplayStep(s, step)
    case CloseReplay(_) => ReplayStep(s, step)
    case ReplayCloseReturns(_, _) => ReplayStep(s, step)
    case _ => OutputStep(s, step)
  }

  function Run(steps: seq<Step>): State {
    if steps == [] then INITIAL else Next(Run(steps[..|steps| - 1]), steps[|steps| - 1])
  }

  // ---- What every reachable state keeps -----------------------------------------------------

  predicate Both(p: Phase) { p.Calling? || p.Settling? }

  ghost predicate GatesOk(s: State) {
    && !s.misuse
    && (forall r :: r in s.replays && !s.replays[r].phase.Free? && !s.replays[r].phase.Closing? ==>
          s.replays[r].phase.o in s.outputs)
    && (forall r :: r in s.replays && Both(s.replays[r].phase) && s.replays[r].phase.o in s.outputs ==>
          s.outputs[s.replays[r].phase.o].gate == HeldFor(r))
    && (forall o :: o in s.outputs && s.outputs[o].gate.HeldFor? ==>
          s.outputs[o].gate.r in s.replays && Both(s.replays[s.outputs[o].gate.r].phase)
          && s.replays[s.outputs[o].gate.r].phase.o == o)
  }

  predicate ReplayOk(k: Replay) {
    && k.destroys == (if k.closed then 1 else 0)
    && (k.closed || k.phase.Closing? ==> k.deps == {})
    && (Both(k.phase) || k.phase.Closing? ==> !k.closed)
  }

  predicate OutputOk(out: Output) {
    && out.destroys == (if out.closed then 1 else 0)
    && (out.closed ==> out.bound.None?)
    && (out.gate.HeldFor? || out.gate.Snapping? || out.gate.Destroying? ==> !out.closed)
    && (out.gate.Destroying? ==> out.bound.None?)
  }

  ghost predicate EachOk(s: State) {
    && (forall r :: r in s.replays ==> ReplayOk(s.replays[r]))
    && (forall o :: o in s.outputs ==> OutputOk(s.outputs[o]))
  }

  /** In the middle of a call the two sides of the binding differ in a known way. */
  predicate BoundInPhase(out: Output, r: Id, p: Phase) {
    match p
    case Calling(_, attach) => out.bound == (if attach then None else Some(r))
    case Settling(_, attach) => out.bound == (if attach then Some(r) else None)
    case _ => true
  }

  /** The replay that lists the output: the one it is bound to, except in the middle of a call. */
  function LinkOf(s: State, o: Id): Option<Id>
    requires o in s.outputs
  {
    var out := s.outputs[o];
    if out.gate.HeldFor? && out.gate.r in s.replays && s.replays[out.gate.r].phase.Settling?
    then if s.replays[out.gate.r].phase.attach then None else Some(out.gate.r)
    else out.bound
  }

  ghost predicate PhasesOk(s: State) {
    forall r :: r in s.replays && Both(s.replays[r].phase) && s.replays[r].phase.o in s.outputs ==>
      BoundInPhase(s.outputs[s.replays[r].phase.o], r, s.replays[r].phase)
  }

  /** A replay lists exactly the outputs that are linked to it. */
  ghost predicate ListsOk(s: State) {
    && (forall r, o :: r in s.replays && o in s.replays[r].deps ==> o in s.outputs && LinkOf(s, o) == Some(r))
    && (forall o :: o in s.outputs && LinkOf(s, o).Some? ==>
          LinkOf(s, o).value in s.replays && o in s.replays[LinkOf(s, o).value].deps)
  }

  ghost predicate LinksOk(s: State) { PhasesOk(s) && ListsOk(s) }

  ghost predicate Safe(s: State) { GatesOk(s) && EachOk(s) && LinksOk(s) }

  lemma TakeOutputKeepsGates(s: State, r: Id)
    requires Safe(s) && r in s.replays && s.replays[r].phase.WantOutput?
    ensures GatesOk(TakeOutput(s, r)) && EachOk(TakeOutput(s, r))
  {
  }

  lemma TakeOutputKeepsPhases(s: State, r: Id)
    requires Safe(s) && r in s.replays && s.replays[r].phase.WantOutput?
    ensures PhasesOk(TakeOutput(s, r))
  {
  }

  lemma TakeOutputKeepsLists(s: State, r: Id)
    requires Safe(s) && r in s.replays && s.replays[r].phase.WantOutput?
    ensures ListsOk(TakeOutput(s, r))
  {
    forall o | o in s.outputs ensures o in TakeOutput(s, r).outputs && LinkOf(TakeOutput(s, r), o) == LinkOf(s, o) {
    }
  }

  lemma CallReturnsKeepsGates(s: State, r: Id, ok: bool)
    requires Safe(s) && r in s.replays && s.replays[r].phase.Calling?
    ensures GatesOk(CallReturns(s, r, ok)) && EachOk(CallReturns(s, r, ok))
  {
  }

  lemma CallReturnsKeepsPhases(s: State, r: Id, ok: bool)
    requires Safe(s) && r in s.replays && s.replays[r].phase.Calling?
    ensures PhasesOk(CallReturns(s, r, ok))
  {
  }

  lemma CallReturnsKeepsLists(s: State, r: Id, ok: bool)
    requires Safe(s) && r in s.replays && s.replays[r].phase.Calling?
    ensures ListsOk(CallReturns(s, r, ok))
  {
    var t := CallReturns(s, r, ok);
    forall o | o in s.outputs && o != s.replays[r].phase.o ensures o in t.outputs && LinkOf(t, o) == LinkOf(s, o) {
    }
  }

  lemma SettleKeepsGates(s: State, r: Id)
    requires Safe(s) && r in s.replays && s.replays[r].phase.Settling?
    ensures GatesOk(Settle(s, r)) && EachOk(Settle(s, r))
  {
  }

  lemma SettleKeepsPhases(s: State, r: Id)
    requires Safe(s) && r in s.replays && s.replays[r].phase.Settling?
    ensures PhasesOk(Settle(s, r))
  {
  }

  lemma SettleKeepsLists(s: State, r: Id)
    requires Safe(s) && r in s.replays && s.replays[r].phase.Settling?
    ensures ListsOk(Settle(s, r))
  {
    var t := Settle(s, r);
    forall o | o in s.outputs && o != s.replays[r].phase.o ensures o in t.outputs && LinkOf(t, o) == LinkOf(s, o) {
    }
  }

  lemma ReplayStepKeepsGates(s: State, step: Step)
    requires Safe(s)
    ensures GatesOk(ReplayStep(s, step)) && EachOk(ReplayStep(s, step))
  {
  }

  lemma ReplayStepKeepsPhases(s: State, step: Step)
    requires Safe(s)
    ensures PhasesOk(ReplayStep(s, step))
  {
  }

  lemma ReplayStepKeepsLists(s: State, step: Step)
    requires Safe(s)
    ensures ListsOk(ReplayStep(s, step))
  {
    forall o | o in s.outputs ensures LinkOf(ReplayStep(s, step), o) == LinkOf(s, o) {
    }
  }

  lemma OutputStepKeepsGates(s: State, step: Step)
    requires Safe(s)
    ensures GatesOk(OutputStep(s, step)) && EachOk(OutputStep(s, step))
  {
  }

  lemma OutputStepKeepsPhases(s: State, step: Step)
    requires Safe(s)
    ensures PhasesOk(OutputStep(s, step))
  {
  }

  lemma OutputStepKeepsLists(s: State, step: Step)
    requires Safe(s)
    ensures ListsOk(OutputStep(s, step))
  {
    var t := OutputStep(s, step);
    forall o | o in s.outputs ensures o in t.outputs && LinkOf(t, o) == LinkOf(s, o) {
    }
  }

  lemma ProceedIsSafe(s: State, r: Id, ok: bool)
    requires Safe(s) && r in s.replays
    ensures Safe(ProceedStep(s, r, ok))
  {
    match s.replays[r].phase
    case WantOutput(_, _) =>
      TakeOutputKeepsGates(s, r);
      TakeOutputKeepsPhases(s, r);
      TakeOutputKeepsLists(s, r);
    case Calling(_, _) =>
      CallReturnsKeepsGates(s, r, ok);
      CallReturnsKeepsPhases(s, r, ok);
      CallReturnsKeepsLists(s, r, ok);
    case Settling(_, _) =>
      SettleKeepsGates(s, r);
      SettleKeepsPhases(s, r);
      SettleKeepsLists(s, r);
    case _ =>
  }

  lemma NextIsSafe(s: State, step: Step)
    requires Safe(s)
    ensures Safe(Next(s, step))
  {
    ReplayStepKeepsGates(s, step);
    ReplayStepKeepsPhases(s, step);
    ReplayStepKeepsLists(s, step);
    OutputStepKeepsGates(s, step);
    OutputStepKeepsPhases(s, step);
    OutputStepKeepsLists(s, step);
    if step.Proceed? && step.r in s.replays {
      ProceedIsSafe(s, step.r, step.ok);
    }
  }

  lemma {:induction false} RunIsSafe(steps: seq<Step>)
    ensures Safe(Run(steps))
  {
    if steps != [] {
      RunIsSafe(steps[..|steps| - 1]);
      NextIsSafe(Run(steps[..|steps| - 1]), steps[|steps| - 1]);
    }
  }

  // ---- Theorems -----------------------------------------------------------------------------

  /**
   Whenever either gate is free, the output is bound to the replay exactly when the replay lists it, and then the
   replay is open.
   */
  lemma BindingDuality(steps: seq<Step>, o: Id, r: Id)
    requires var s := Run(steps);
      o in s.outputs && r in s.replays && (!s.outputs[o].gate.HeldFor? || s.replays[r].phase.Free?)
    ensures var s := Run(steps);
      && (s.outputs[o].bound == Some(r) <==> o in s.replays[r].deps)
      && (s.outputs[o].bound == Some(r) ==> !s.replays[r].closed && !s.outputs[o].closed)
  {
    RunIsSafe(steps);
    var s := Run(steps);
    assert o in s.replays[r].deps ==> LinkOf(s, o) == Some(r);
  }

  /** The output's call has changed the output's side of the binding and not yet the replay's. */
  predicate MidCall(s: State, o: Id)
    requires o in s.outputs
  {
    var gate := s.outputs[o].gate;
    gate.HeldFor? && gate.r in s.replays && s.replays[gate.r].phase.Settling?
  }

  /** Exactly between the two sections of an attach or a detach the two sides of the binding differ. */
  lemma DualityExactly(steps: seq<Step>, o: Id)
    requires o in Run(steps).outputs
    ensures var s := Run(steps);
      (forall r :: r in s.replays ==> (s.outputs[o].bound == Some(r) <==> o in s.replays[r].deps)) <==> !MidCall(s, o)
  {
    RunIsSafe(steps);
    var s := Run(steps);
    forall r | r in s.replays ensures o in s.replays[r].deps <==> LinkOf(s, o) == Some(r) {
    }
    if MidCall(s, o) {
      var r := s.outputs[o].gate.r;
      assert BoundInPhase(s.outputs[o], r, s.replays[r].phase);
      assert !(s.outputs[o].bound == Some(r) <==> o in s.replays[r].deps);
    }
  }

  lemma OneMoreStep(steps: seq<Step>, last: Step)
    ensures Run(steps + [last]) == Next(Run(steps), last)
  {
    assert (steps + [last])[..|steps|] == steps;
  }

  /** A run that gets there: an attach whose native call has just returned. */
  lemma DualityFailsMidCall()
    ensures exists steps ::
      0 in Run(steps).outputs && 0 in Run(steps).replays
      && Run(steps).outputs[0].bound == Some(0) && 0 !in Run(steps).replays[0].deps
  {
    var s1 := [NewReplay(0)];
    var s2 := s1 + [NewOutput(0)];
    var s3 := s2 + [Start(0, 0, true)];
    var s4 := s3 + [Proceed(0, true)];
    var s5 := s4 + [Proceed(0, true)];
    OneMoreStep([], NewReplay(0));
    assert [] + [NewReplay(0)] == s1;
    OneMoreStep(s1, NewOutput(0));
    OneMoreStep(s2, Start(0, 0, true));
    OneMoreStep(s3, Proceed(0, true));
    OneMoreStep(s4, Proceed(0, true));
    assert Run(s5).outputs[0].bound == Some(0);
  }

  /** At every moment an output is listed by at most one replay, and that replay is open. */
  lemma AtMostOneParent(steps: seq<Step>, o: Id, q: Id, r: Id)
    requires var s := Run(steps); q in s.replays && r in s.replays && o in s.replays[q].deps && o in s.replays[r].deps
    ensures q == r && !Run(steps).replays[r].closed
  {
    RunIsSafe(steps);
    var s := Run(steps);
    assert LinkOf(s, o) == Some(q) && LinkOf(s, o) == Some(r);
  }

  /** No output or replay is destroyed twice or used after its destroy. */
  lemma HandlesAreSafe(steps: seq<Step>)
    ensures var s := Run(steps);
      && !s.misuse
      && (forall o :: o in s.outputs ==> s.outputs[o].destroys <= 1)
      && (forall r :: r in s.replays ==> s.replays[r].destroys <= 1)
  {
    RunIsSafe(steps);
  }

  function Rank(p: Phase): nat {
    match p
    case Free => 0
    case WantOutput(_, _) => 3
    case Calling(_, _) => 2
    case Settling(_, _) => 1
    case Closing => 0
  }

  /** Past the output's gate nothing can hold a call up. */
  lemma HolderAdvances(s: State, r: Id, ok: bool)
    requires Safe(s) && r in s.replays && Both(s.replays[r].phase)
    ensures Rank(Next(s, Proceed(r, ok)).replays[r].phase) < Rank(s.replays[r].phase)
  {
  }

  lemma WaiterAdvances(s: State, r: Id, ok: bool)
    requires Safe(s) && r in s.replays && s.replays[r].phase.WantOutput?
    ensures var o := s.replays[r].phase.o;
      && o in s.outputs
      && var gate := s.outputs[o].gate;
         match gate
         case Open => Rank(Next(s, Proceed(r, ok)).replays[r].phase) < 3
         case HeldFor(q) => q in s.replays && Both(s.replays[q].phase)
         case _ => Next(s, OutputReturns(o, ok)).outputs[o].gate.Open?
  {
  }

  /**
   Gates are taken in one order, replay before output, so nothing deadlocks: a call that holds a replay's gate
   gets closer to its end with its next step, unless it waits for an output's gate whose holder does so instead.
   */
  lemma NoDeadlock(steps: seq<Step>, r: Id, ok: bool)
    requires r in Run(steps).replays && !Run(steps).replays[r].phase.Free? && !Run(steps).replays[r].phase.Closing?
    ensures var s := Run(steps); var p := s.replays[r].phase;
      || Rank(Next(s, Proceed(r, ok)).replays[r].phase) < Rank(p)
      || (&& p.WantOutput? && p.o in s.outputs
          && var gate := s.outputs[p.o].gate;
          if gate.HeldFor? then
            && gate.r in s.replays && Both(s.replays[gate.r].phase)
            && Rank(Next(s, Proceed(gate.r, ok)).replays[gate.r].phase) < Rank(s.replays[gate.r].phase)
          else Next(s, OutputReturns(p.o, ok)).outputs[p.o].gate.Open?)
  {
    RunIsSafe(steps);
    var s := Run(steps);
    if s.replays[r].phase.WantOutput? {
      WaiterAdvances(s, r, ok);
      var gate := s.outputs[s.replays[r].phase.o].gate;
      if gate.HeldFor? {
        HolderAdvances(s, gate.r, ok);
      }
    } else {
      HolderAdvances(s, r, ok);
    }
  }
}
