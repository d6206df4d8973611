/** An RTC output as an object: what its methods do when nothing interferes. */
module Outputs {
  import opened Common
  import opened Connections

  /** The native answers one close of an output may get; the mailbox answers with two flags. */
  datatype OutputAnswers = OutputAnswers(idle: bool, gate: bool, detach: int, close: int)

  class VideoOutput {
    const id: Id
    var closed: bool
    var bound: Connection?
    var snapshot: nat
    ghost var destroys: nat

    /** The output and the connection it is bound to know each other, and that connection is open. */
    ghost predicate Valid()
      reads this, bound
    {
      && destroys == (if closed then 1 else 0)
      && (closed ==> bound == null)
      && (bound != null ==> bound.Valid() && !bound.closed && id in bound.deps)
    }

    constructor (id: Id)
      ensures Valid() && this.id == id && !closed && bound == null && snapshot == 0
    {
      this.id, closed, bound, snapshot, destroys := id, false, null, 0, 0;
    }

    method Attach(connection: Connection?, validStream: bool, code: int) returns (outcome: Outcome)
      requires Valid() && (connection != null ==> connection.Valid())
      modifies this`bound, connection
      ensures Valid() && (connection != null ==> connection.Valid())
      ensures outcome ==
        if connection == null || !validStream then Err(InvalidArgument)
        else if closed then Err(Closed)
        else if old(bound) != null || snapshot != 0 then Err(Error.InUse)
        else if old(connection.closed) then Err(Closed)
        else OutcomeOf(code)
      ensures outcome.Ok? ==>
                && bound == connection
                && connection.View() == old(connection.View()).(deps := old(connection.deps) + {id})
      ensures outcome.Err? ==>
                bound == old(bound) && (connection != null ==> connection.View() == old(connection.View()))
    {
      if connection == null || !validStream {
        return Err(InvalidArgument);
      }
      if closed {
        return Err(Closed);
      }
      if bound != null || snapshot != 0 {
        return Err(Error.InUse);
      }
      outcome := connection.AttachDependency(id, code);
      if outcome.Ok? {
        bound := connection;
      }
    }

    /** Undoes an attach; the connection loses exactly this output. */
    method Detach(code: int) returns (outcome: Outcome)
      requires Valid()
      modifies this`bound, bound
      ensures Valid() && (old(bound) != null ==> old(bound).Valid())
      ensures outcome ==
        if closed then Err(Closed)
        else if snapshot != 0 then Err(Error.InUse)
        else if old(bound) == null then Err(NotBound)
        else OutcomeOf(code)
      ensures outcome.Ok? ==>
                bound == null && old(bound).View() == old(bound.View()).(deps := old(bound.deps) - {id})
      ensures outcome.Err? ==> bound == old(bound) && (bound != null ==> bound.View() == old(bound.View()))
    {
      if closed {
        return Err(Closed);
      }
      if snapshot != 0 {
        return Err(Error.InUse);
      }
      if bound == null {
        return Err(NotBound);
      }
      outcome := bound.DetachDependency(id, code);
      if outcome.Ok? {
        bound := null;
      }
    }

    /**
     Closes exactly when no snapshot is in flight, the mailbox agrees twice and every native call it needs
     succeeds. When only the native close fails the output stays open but detached.
     */
    method Close(native: OutputAnswers) returns (outcome: Outcome)
      requires Valid()
      modifies this, bound
      ensures Valid() && (old(bound) != null ==> old(bound).Valid())
      ensures snapshot == old(snapshot)
      ensures closed <==> old(closed) || (snapshot == 0 && native.idle && native.gate && native.close == 0
                                          && (old(bound) == null || native.detach == 0))
      ensures outcome.Ok? <==> closed
      ensures old(bound) != null ==>
                old(bound).View() == if bound == null then old(bound.View()).(deps := old(bound.deps) - {id})
                                     else old(bound.View())
      ensures bound == null || bound == old(bound)
    {
      if closed {
        return Ok;
      }
      if snapshot != 0 || !native.idle || !native.gate {
        return Err(Error.InUse);
      }
      if bound != null {
        outcome := Detach(native.detach);
        if outcome.Err? {
          return;
        }
      }
      outcome := OutcomeOf(native.close);
      if outcome.Ok? {
        closed, destroys := true, destroys + 1;
      }
    }
  }
}

/**
 Any number of outputs and connections: attach, detach, snapshots and closes under any interleaving.

 Whoever holds an output's operation lock is described by the phase it is in, so an output's phase stands for
 its lock and the thread behind it. That thread takes the connection's lock second. A step takes a lock
 together with the section behind it, or is one native call (answered `ok`) together with the section after
 it. A step the state does not allow changes nothing. `misuse` records a native call on a destroyed output.
 */
module BindingProtocol {
  import opened Common

  datatype ConnLock = Free | HeldFor(o: Id) | Closing

  datatype Conn = Conn(lock: ConnLock, closed: bool, deps: set<Id>)

  /** `closing` tells a close of the output from a detach. */
  datatype Phase =
    | Idle
    | WantConn(c: Id, attach: bool, closing: bool)
    | Calling(c: Id, attach: bool, closing: bool)
    | Linked(c: Id)
    | Unlinked(c: Id, closing: bool)
    | Destroying

  datatype Output = Output(phase: Phase, closed: bool, destroys: nat, bound: Option<Id>, snapshots: nat)

  datatype State = State(conns: map<Id, Conn>, outputs: map<Id, Output>, misuse: bool)

  datatype Step =
    | NewConn(c: Id) | NewOutput(o: Id)
    | Attach(o: Id, c: Id) | Detach(o: Id) | CloseOutput(o: Id, idle: bool)
    | Proceed(o: Id, ok: bool)
    | BeginSnapshot(o: Id) | EndSnapshot(o: Id)
    | CloseConn(c: Id) | ConnCloseReturns(c: Id, ok: bool)

  const INITIAL := State(map[], map[], false)

  function SetConn(s: State, c: Id, k: Conn): State { s.(conns := s.conns[c := k]) }
  function SetOutput(s: State, o: Id, k: Output): State { s.(outputs := s.outputs[o := k]) }

  function Uses(s: State, out: Output): State { s.(misuse := s.misuse || out.destroys > 0) }

  function AttachStart(s: State, o: Id, c: Id): State
    requires o in s.outputs && c in s.conns
  {
    var out := s.outputs[o];
    if !out.phase.Idle? || out.closed || out.bound.Some? || out.snapshots != 0 then s
    else SetOutput(s, o, out.(phase := WantConn(c, true, false)))
  }

  /** A detach of an unbound output fails; a close of one goes straight to the native destroy. */
  function DetachStart(s: State, o: Id, closing: bool): State
    requires o in s.outputs
  {
    var out := s.outputs[o];
    if !out.phase.Idle? || out.closed || out.snapshots != 0 then s
    else match out.bound
      case Some(c) => SetOutput(s, o, out.(phase := WantConn(c, false, closing)))
      case None => if closing then SetOutput(s, o, out.(phase := Destroying)) else s
  }

  /** Takes the connection's lock, or gives up on a closed connection. */
  function TakeConn(s: State, o: Id): State
    requires o in s.outputs && s.outputs[o].phase.WantConn?
  {
    var out := s.outputs[o];
    var c := out.phase.c;
    if c !in s.conns || !s.conns[c].lock.Free? then s
    else if s.conns[c].closed then SetOutput(s, o, out.(phase := Idle))
    else SetOutput(SetConn(s, c, s.conns[c].(lock := HeldFor(o))), o,
                   out.(phase := Calling(c, out.phase.attach, out.phase.closing)))
  }

  /** The native attach or detach and the change of the connection's dependencies; gives the connection's lock back. */
  function CallReturns(s: State, o: Id, ok: bool): State
    requires o in s.outputs && s.outputs[o].phase.Calling?
  {
    var out := s.outputs[o];
    var (c, attach) := (out.phase.c, out.phase.attach);
    if c !in s.conns then s
    else
      var k := s.conns[c].(lock := Free);
      if !ok then SetOutput(SetConn(Uses(s, out), c, k), o, out.(phase := Idle))
      else if attach then SetOutput(SetConn(Uses(s, out), c, k.(deps := k.deps + {o})), o, out.(phase := Linked(c)))
      else
        SetOutput(SetConn(Uses(s, out), c, k.(deps := k.deps - {o})), o,
                  out.(phase := Unlinked(c, out.phase.closing)))
  }

  /** The output's own bookkeeping, and the native destroy of a close. */
  function Settle(s: State, o: Id, ok: bool): State
    requires o in s.outputs
  {
    var out := s.outputs[o];
    match out.phase
    case Linked(c) => SetOutput(s, o, out.(phase := Idle, bound := Some(c)))
    case Unlinked(_, closing) => SetOutput(s, o, out.(phase := if closing then Destroying else Idle, bound := None))
    case Destroying =>
      SetOutput(Uses(s, out), o,
                if ok then out.(phase := Idle, closed := true, destroys := out.destroys + 1) else out.(phase := Idle))
    case _ => s
  }

  function ProceedStep(s: State, o: Id, ok: bool): State
    requires o in s.outputs
  {
    var phase := s.outputs[o].phase;
    if phase.WantConn? then TakeConn(s, o)
    else if phase.Calling? then CallReturns(s, o, ok)
    else Settle(s, o, ok)
  }

  /** A snapshot counts itself in, runs its native call without the lock, and counts itself out under it. */
  function SnapshotStep(s: State, o: Id, begin: bool): State
    requires o in s.outputs
  {
    var out := s.outputs[o];
    if !out.phase.Idle? then s
    else if begin then
      if out.closed || out.snapshots != 0 then s else SetOutput(s, o, out.(snapshots := out.snapshots + 1))
    else if out.snapshots == 0 then s
    else SetOutput(Uses(s, out), o, out.(snapshots := out.snapshots - 1))
  }

  /** Of a connection's close, only what concerns its outputs: it is refused while any is attached. */
  function CloseConnStep(s: State, c: Id): State
    requires c in s.conns
  {
    var k := s.conns[c];
    if !k.lock.Free? || k.closed || k.deps != {} then s else SetConn(s, c, k.(lock := Closing))
  }

  function Next(s: State, step: Step): State {
    match step
    case NewConn(c) => if c in s.conns then s else SetConn(s, c, Conn(Free, false, {}))
    case NewOutput(o) => if o in s.outputs then s else SetOutput(s, o, Output(Idle, false, 0, None, 0))
    case Attach(o, c) => if o in s.outputs && c in s.conns then AttachStart(s, o, c) else s
    case Detach(o) => if o in s.outputs then DetachStart(s, o, false) else s
    case CloseOutput(o, idle) => if o in s.outputs && idle then DetachStart(s, o, true) else s
    case Proceed(o, ok) => if o in s.outputs then ProceedStep(s, o, ok) else s
    case BeginSnapshot(o) => if o in s.outputs then SnapshotStep(s, o, true) else s
    case EndSnapshot(o) => if o in s.outputs then SnapshotStep(s, o, false) else s
    case CloseConn(c) => if c in s.conns then CloseConnStep(s, c) else s
    case ConnCloseReturns(c, ok) =>
      if c in s.conns && s.conns[c].lock.Closing? then SetConn(s, c, s.conns[c].(lock := Free, closed := ok)) else s
  }

  function Run(steps: seq<Step>): State {
    if steps == [] then INITIAL else Next(Run(steps[..|steps| - 1]), steps[|steps| - 1])
  }

  // ---- What every reachable state keeps -----------------------------------------------------

  /** The connection whose dependencies hold the output: what it is bound to, or is just becoming. */
  function LinkOf(out: Output): Option<Id> {
    match out.phase
    case Linked(c) => Some(c)
    case Unlinked(_, _) => None
    case _ => out.bound
  }

  predicate OutputOk(out: Output) {
    && out.destroys == (if out.closed then 1 else 0)
    && out.snapshots <= 1
    && (out.closed ==> out.bound.None? && out.snapshots == 0 && out.phase.Idle?)
    && (!out.phase.Idle? ==> out.snapshots == 0)
    && match out.phase
       case Idle => true
       case WantConn(c, attach, closing) => out.bound == (if attach then None else Some(c)) && !(attach && closing)
       case Calling(c, attach, closing) => out.bound == (if attach then None else Some(c)) && !(attach && closing)
       case Linked(_) => out.bound == None
       case Unlinked(c, _) => out.bound == Some(c)
       case Destroying => out.bound == None
  }

  ghost predicate OutputsOk(s: State) {
    !s.misuse && forall o :: o in s.outputs ==> OutputOk(s.outputs[o])
  }

  /**
   A connection's lock agrees with the output it is held for, and a closing or closed connection has no dependency.
   */
  ghost predicate LocksOk(s: State) {
    && (forall o :: o in s.outputs && s.outputs[o].phase.Calling? ==>
          s.outputs[o].phase.c in s.conns && s.conns[s.outputs[o].phase.c].lock == HeldFor(o))
    && (forall c :: c in s.conns && s.conns[c].lock.HeldFor? ==>
          && !s.conns[c].closed
          && s.conns[c].lock.o in s.outputs
          && s.outputs[s.conns[c].lock.o].phase.Calling? && s.outputs[s.conns[c].lock.o].phase.c == c)
    && (forall c :: c in s.conns && (s.conns[c].closed || s.conns[c].lock.Closing?) ==> s.conns[c].deps == {})
    && (forall c :: c in s.conns && s.conns[c].closed ==> s.conns[c].lock.Free?)
  }

  /** Every dependency is an output linked to the connection. */
  ghost predicate DepsOk(s: State) {
    forall c, o :: c in s.conns && o in s.conns[c].deps ==> o in s.outputs && LinkOf(s.outputs[o]) == Some(c)
  }

  /** Every linked output is a dependency, and whatever an output names exists. */
  ghost predicate NamesOk(s: State) {
    && (forall o :: o in s.outputs && LinkOf(s.outputs[o]).Some? ==>
          LinkOf(s.outputs[o]).value in s.conns && o in s.conns[LinkOf(s.outputs[o]).value].deps)
    && (forall o :: o in s.outputs && s.outputs[o].phase.WantConn? ==> s.outputs[o].phase.c in s.conns)
    && (forall o :: o in s.outputs && s.outputs[o].bound.Some? ==> s.outputs[o].bound.value in s.conns)
  }

  ghost predicate LinksOk(s: State) { DepsOk(s) && NamesOk(s) }

  ghost predicate Safe(s: State) { OutputsOk(s) && LocksOk(s) && LinksOk(s) }

  lemma TakeConnKeepsOutputs(s: State, o: Id)
    requires Safe(s) && o in s.outputs && s.outputs[o].phase.WantConn?
    ensures OutputsOk(TakeConn(s, o))
  {
  }

  lemma TakeConnKeepsLocks(s: State, o: Id)
    requires Safe(s) && o in s.outputs && s.outputs[o].phase.WantConn?
    ensures LocksOk(TakeConn(s, o))
  {
  }

  lemma TakeConnKeepsLinks(s: State, o: Id)
    requires Safe(s) && o in s.outputs && s.outputs[o].phase.WantConn?
    ensures LinksOk(TakeConn(s, o))
  {
  }

  lemma CallReturnsKeepsOutputs(s: State, o: Id, ok: bool)
    requires Safe(s) && o in s.outputs && s.outputs[o].phase.Calling?
    ensures OutputsOk(CallReturns(s, o, ok))
  {
  }

  lemma CallReturnsKeepsLocks(s: State, o: Id, ok: bool)
    requires Safe(s) && o in s.outputs && s.outputs[o].phase.Calling?
    ensures LocksOk(CallReturns(s, o, ok))
  {
  }

  lemma CallReturnsKeepsDeps(s: State, o: Id, ok: bool)
    requires Safe(s) && o in s.outputs && s.outputs[o].phase.Calling?
    ensures DepsOk(CallReturns(s, o, ok))
  {
  }

  lemma CallReturnsKeepsNames(s: State, o: Id, ok: bool)
    requires Safe(s) && o in s.outputs && s.outputs[o].phase.Calling?
    ensures NamesOk(CallReturns(s, o, ok))
  {
  }

  lemma SettleKeepsOutputs(s: State, o: Id, ok: bool)
    requires Safe(s) && o in s.outputs
    ensures OutputsOk(Settle(s, o, ok))
  {
  }

  lemma SettleKeepsLocks(s: State, o: Id, ok: bool)
    requires Safe(s) && o in s.outputs
    ensures LocksOk(Settle(s, o, ok))
  {
  }

  lemma SettleKeepsLinks(s: State, o: Id, ok: bool)
    requires Safe(s) && o in s.outputs
    ensures LinksOk(Settle(s, o, ok))
  {
    assert LinkOf(Settle(s, o, ok).outputs[o]) == LinkOf(s.outputs[o]);
  }

  predicate OnOutput(step: Step) {
    step.NewOutput? || step.Attach? || step.Detach? || step.CloseOutput? || step.BeginSnapshot? || step.EndSnapshot?
  }

  lemma OutputStepKeepsOutputs(s: State, step: Step)
    requires Safe(s) && OnOutput(step)
    ensures OutputsOk(Next(s, step))
  {
  }

  lemma OutputStepKeepsLocks(s: State, step: Step)
    requires Safe(s) && OnOutput(step)
    ensures LocksOk(Next(s, step))
  {
  }

  lemma OutputStepKeepsDeps(s: State, step: Step)
    requires Safe(s) && OnOutput(step)
    ensures DepsOk(Next(s, step))
  {
    assert step.o in s.outputs ==> LinkOf(Next(s, step).outputs[step.o]) == LinkOf(s.outputs[step.o]);
  }

  lemma OutputStepKeepsNames(s: State, step: Step)
    requires Safe(s) && OnOutput(step)
    ensures NamesOk(Next(s, step))
  {
    assert step.o in s.outputs ==> LinkOf(Next(s, step).outputs[step.o]) == LinkOf(s.outputs[step.o]);
  }

  lemma ConnStepIsSafe(s: State, step: Step)
    requires Safe(s) && (step.NewConn? || step.CloseConn? || step.ConnCloseReturns?)
    ensures Safe(Next(s, step))
  {
  }

  lemma NextIsSafe(s: State, step: Step)
    requires Safe(s)
    ensures Safe(Next(s, step))
  {
    if step.NewConn? || step.CloseConn? || step.ConnCloseReturns? {
      ConnStepIsSafe(s, step);
    } else if !step.Proceed? {
      OutputStepKeepsOutputs(s, step);
      OutputStepKeepsLocks(s, step);
      OutputStepKeepsDeps(s, step);
      OutputStepKeepsNames(s, step);
    } else if step.o in s.outputs {
      if s.outputs[step.o].phase.WantConn? {
        TakeConnKeepsOutputs(s, step.o);
        TakeConnKeepsLocks(s, step.o);
        TakeConnKeepsLinks(s, step.o);
      } else if s.outputs[step.o].phase.Calling? {
        CallReturnsKeepsOutputs(s, step.o, step.ok);
        CallReturnsKeepsLocks(s, step.o, step.ok);
        CallReturnsKeepsDeps(s, step.o, step.ok);
        CallReturnsKeepsNames(s, step.o, step.ok);
      } else {
        SettleKeepsOutputs(s, step.o, step.ok);
        SettleKeepsLocks(s, step.o, step.ok);
        SettleKeepsLinks(s, step.o, step.ok);
      }
    }
  }

  lemma {:induction false} RunIsSafe(steps: seq<Step>)
    ensures Safe(Run(steps))
  {
    if steps != [] {
      RunIsSafe(steps[..|steps| - 1]);
      NextIsSafe(Run(steps[..|steps| - 1]), steps[|steps| - 1]);
    }
  }

  // ---- Theorems -----------------------------------------------------------------------------

  /**
   Whenever an output's lock is free, it is bound to a connection exactly when it is among its dependencies, and that
   connection is open.
   */
  lemma BindingDuality(steps: seq<Step>, o: Id, c: Id)
    requires var s := Run(steps); o in s.outputs && c in s.conns && s.outputs[o].phase.Idle?
    ensures var s := Run(steps);
      && (s.outputs[o].bound == Some(c) <==> o in s.conns[c].deps)
      && (s.outputs[o].bound == Some(c) ==> !s.conns[c].closed && !s.conns[c].lock.Closing?)
  {
    RunIsSafe(steps);
  }

  lemma DepsAreLinks(s: State, o: Id, c: Id)
    requires LinksOk(s) && o in s.outputs && c in s.conns
    ensures o in s.conns[c].deps <==> LinkOf(s.outputs[o]) == Some(c)
  {
  }

  /** Exactly between the two sections of an attach or a detach the two sides of the binding differ. */
  lemma DualityExactly(steps: seq<Step>, o: Id)
    requires o in Run(steps).outputs
    ensures var s := Run(steps);
      (forall c :: c in s.conns ==> (s.outputs[o].bound == Some(c) <==> o in s.conns[c].deps))
      <==> !(s.outputs[o].phase.Linked? || s.outputs[o].phase.Unlinked?)
  {
    RunIsSafe(steps);
    DualityIn(Run(steps), o);
  }

  lemma DualityIn(s: State, o: Id)
    requires OutputsOk(s) && LinksOk(s) && o in s.outputs
    ensures (forall c :: c in s.conns ==> (s.outputs[o].bound == Some(c) <==> o in s.conns[c].deps))
            <==> !(s.outputs[o].phase.Linked? || s.outputs[o].phase.Unlinked?)
  {
    var out := s.outputs[o];
    assert OutputOk(out);
    forall c | c in s.conns ensures o in s.conns[c].deps <==> LinkOf(out) == Some(c) {
      DepsAreLinks(s, o, c);
    }
    if out.phase.Linked? || out.phase.Unlinked? {
      var c := out.phase.c;
      assert c in s.conns;
      assert !(out.bound == Some(c) <==> o in s.conns[c].deps);
    }
  }

  lemma OneMoreStep(steps: seq<Step>, last: Step)
    ensures Run(steps + [last]) == Next(Run(steps), last)
  {
    assert (steps + [last])[..|steps|] == steps;
  }

  /** A run that gets there: an attach whose native call has just returned. */
  lemma DualityFailsMidCall()
    ensures exists steps ::
      0 in Run(steps).outputs && 0 in Run(steps).conns
      && Run(steps).outputs[0].bound == None && 0 in Run(steps).conns[0].deps
  {
    var s1 := [NewConn(0)];
    var s2 := s1 + [NewOutput(0)];
    var s3 := s2 + [Attach(0, 0)];
    var s4 := s3 + [Proceed(0, true)];
    var s5 := s4 + [Proceed(0, true)];
    OneMoreStep([], NewConn(0));
    assert [] + [NewConn(0)] == s1;
    OneMoreStep(s1, NewOutput(0));
    OneMoreStep(s2, Attach(0, 0));
    OneMoreStep(s3, Proceed(0, true));
    OneMoreStep(s4, Proceed(0, true));
    assert Run(s5).outputs[0].phase == Linked(0);
  }

  /**
   At every moment, even in the middle of a call, an output is among the dependencies of at most one connection, and
   that one is open.
   */
  lemma AtMostOneParent(steps: seq<Step>, o: Id, c: Id, d: Id)
    requires var s := Run(steps); c in s.conns && d in s.conns && o in s.conns[c].deps && o in s.conns[d].deps
    ensures c == d && !Run(steps).conns[c].closed && o in Run(steps).outputs && !Run(steps).outputs[o].closed
  {
    RunIsSafe(steps);
    var s := Run(steps);
    assert LinkOf(s.outputs[o]) == Some(c) && LinkOf(s.outputs[o]) == Some(d);
  }

  /**
   No output handle is used after its destroy or destroyed twice, and a snapshot in flight keeps its output alive and
   unmoved.
   */
  lemma OutputHandlesAreSafe(steps: seq<Step>, o: Id)
    requires o in Run(steps).outputs
    ensures var s := Run(steps); var out := s.outputs[o];
      && !s.misuse && out.destroys <= 1
      && (out.snapshots > 0 ==> out.snapshots == 1 && !out.closed && out.phase.Idle?)
  {
    RunIsSafe(steps);
  }

  /** How far a call is from letting go of the output's lock. */
  function Rank(p: Phase): nat {
    match p
    case Idle => 0
    case WantConn(_, _, _) => 4
    case Calling(_, _, _) => 3
    case Linked(_) => 1
    case Unlinked(_, _) => 2
    case Destroying => 1
  }

  /** Past the connection's lock nothing can hold a call up. */
  lemma HolderAdvances(s: State, o: Id, ok: bool)
    requires Safe(s) && o in s.outputs && !s.outputs[o].phase.Idle? && !s.outputs[o].phase.WantConn?
    ensures Rank(Next(s, Proceed(o, ok)).outputs[o].phase) < Rank(s.outputs[o].phase)
    ensures s.outputs[o].phase.Calling? ==>
              s.outputs[o].phase.c in s.conns
              && Next(s, Proceed(o, ok)).conns[s.outputs[o].phase.c].lock.Free?
  {
  }

  lemma WaiterAdvances(s: State, o: Id, ok: bool)
    requires Safe(s) && o in s.outputs && s.outputs[o].phase.WantConn?
    ensures var c := s.outputs[o].phase.c;
      && c in s.conns
      && (s.conns[c].lock.Free? ==> Rank(Next(s, Proceed(o, ok)).outputs[o].phase) < 4)
      && (s.conns[c].lock.HeldFor? ==>
            && s.conns[c].lock.o in s.outputs && s.conns[c].lock.o != o
            && s.outputs[s.conns[c].lock.o].phase.Calling? && s.outputs[s.conns[c].lock.o].phase.c == c)
  {
  }

  /**
   Locks are taken in one order, output before connection, so nothing deadlocks: a call that holds an output's
   lock gets closer to its end with its next step, unless it waits for a connection's lock whose holder
   gives it back with its own next step, whatever the native answers are.
   */
  lemma NoDeadlock(steps: seq<Step>, o: Id, ok: bool)
    requires o in Run(steps).outputs && !Run(steps).outputs[o].phase.Idle?
    ensures var s := Run(steps); var p := s.outputs[o].phase;
      || Rank(Next(s, Proceed(o, ok)).outputs[o].phase) < Rank(p)
      || (&& p.WantConn? && p.c in s.conns
          && var lock := s.conns[p.c].lock;
          || (lock.Closing? && Next(s, ConnCloseReturns(p.c, ok)).conns[p.c].lock.Free?)
          || (lock.HeldFor? && lock.o != o && Next(s, Proceed(lock.o, ok)).conns[p.c].lock.Free?))
  {
    RunIsSafe(steps);
    var s := Run(steps);
    if s.outputs[o].phase.WantConn? {
      WaiterAdvances(s, o, ok);
      var lock := s.conns[s.outputs[o].phase.c].lock;
      if lock.HeldFor? {
        HolderAdvances(s, lock.o, ok);
      }
    } else {
      HolderAdvances(s, o, ok);
    }
  }
}
