/** The RTC client as an object: what its methods do when nothing interferes. */
module Clients {
  import opened Common
  import opened Connections

  /** `created` collects every connection ever made by this client. */
  class Client {
    var connections: set<Connection>
    var closing: bool
    var closed: bool
    ghost var destroys: nat
    ghost var created: set<Connection>

    /** Every connection that is still open is registered, and a closed client has none. */
    ghost predicate Valid()
      reads this, created
    {
      && connections <= created
      && destroys == (if closed then 1 else 0)
      && (forall c :: c in created ==> c.Valid() && (c in connections || c.closed))
      && (closed ==> connections == {})
    }

    constructor ()
      ensures Valid() && !closing && !closed && created == {}
    {
      connections, closing, closed, destroys, created := {}, false, false, 0, {};
    }

    method NewConnection(code: int) returns (connection: Connection?, outcome: Outcome)
      requires Valid()
      modifies this
      ensures Valid() && closed == old(closed) && closing == old(closing)
      ensures outcome == if closed || closing then Err(Closed) else OutcomeOf(code)
      ensures outcome.Ok? ==> connection != null && fresh(connection) && !connection.closed
                              && connections == old(connections) + {connection}
                              && created == old(created) + {connection}
      ensures outcome.Err? ==> connection == null && connections == old(connections) && created == old(created)
    {
      if closed || closing {
        return null, Err(Closed);
      }
      outcome := OutcomeOf(code);
      if outcome.Err? {
        return null, outcome;
      }
      connection := new Connection();
      connections := connections + {connection};
      created := created + {connection};
    }

    /** Closes one registered connection and what hangs off it, with arbitrary native answers. */
    method CloseConnection(connection: Connection) returns (problems: seq<Problem>)
      requires Valid() && connection in connections && !closed
      modifies this`connections, connection
      ensures Valid()
      ensures connections == if connection.closed then old(connections) - {connection} else old(connections)
      ensures old(connection.closed) ==> connection.closed
    {
      var answers: Answers := *;
      problems := connection.CloseFromClient(answers);
      if connection.closed {
        connections := connections - {connection};
      }
    }

    /** Closes the registered connections one by one, up to the first that stays open. */
    method CloseConnections() returns (problems: seq<Problem>, stopped: bool)
      requires Valid() && !closed
      modifies this`connections, created
      ensures Valid() && connections <= old(connections)
      ensures !stopped ==> connections == {}
      ensures forall c :: c in created && old(c.closed) ==> c.closed
    {
      problems, stopped := [], false;
      while connections != {}
        invariant Valid() && connections <= old(connections)
        invariant forall c :: c in created && old(c.closed) ==> c.closed
        decreases |connections|
      {
        var connection :| connection in connections;
        ghost var before := connections;
        var more := CloseConnection(connection);
        problems := problems + more;
        if !connection.closed {
          return problems, true;
        }
        assert connections == before - {connection};
      }
    }

    /**
     Closes the whole tree. `busy` are the connections whose preflight fails; every native answer on the way
     is arbitrary. Success destroys the native client exactly once and leaves no open connection; a failed
     preflight changes nothing at all; after any failure the client can be closed again.
     */
    method Close(busy: set<Connection>, native: int) returns (problems: seq<Problem>, outcome: Outcome)
      requires Valid()
      modifies this, created
      ensures Valid() && created == old(created) && closing == old(closing)
      ensures old(closed) ==> outcome.Ok? && closed
      ensures !old(closed) && old(closing) ==>
                outcome == Err(Error.InUse) && !closed && unchanged(created) && unchanged(this)
      ensures !old(closed) && !old(closing) && old(connections) * busy != {} ==>
                outcome == Err(Error.InUse) && unchanged(created) && unchanged(this)
      ensures outcome.Ok? <==> closed
      ensures closed ==> forall c :: c in created ==> c.closed && !c.View().Busy() && c.dumps == {}
      ensures forall c :: c in created && old(c.closed) ==> c.closed
    {
      problems := [];
      if closed {
        return problems, Ok;
      }
      if closing || connections * busy != {} {
        return problems, Err(Error.InUse);
      }
      closing := true;
      var stopped: bool;
      problems, stopped := CloseConnections();
      if stopped {
        closing := false;
        return problems, Err(Error.InUse);
      }
      outcome := OutcomeOf(native);
      if outcome.Ok? {
        closed, destroys := true, destroys + 1;
      }
      closing := false;
    }
  }
}

/**
 Closing the client while every other call goes on: connections are created, used and closed by others.

 Only one Close is past the flag, so its progress is the client's `phase`. What other threads do to a
 connection is one step each: something is attached, goes away, or the connection is closed on its own;
 that a connection closes only when nothing is left on it is what ConnectionProtocol proves. A step the
 state does not allow changes nothing. `misuse` records a native call on the client after its destroy, or a
 native connection closed after it.
 */
module ClientProtocol {
  import opened Common

  datatype Kids = Kids(deps: set<Id>, tasks: set<Id>, dumps: set<Id>)
  {
    predicate Empty() { deps == {} && tasks == {} && dumps == {} }

    predicate Busy() { deps != {} || tasks != {} }

    predicate Within(k: Kids) { deps <= k.deps && tasks <= k.tasks && dumps <= k.dumps }

    function Without(x: Id): Kids { Kids(deps - {x}, tasks - {x}, dumps - {x}) }
  }

  datatype Kind = Dep | Task | Dump

  function With(k: Kids, kind: Kind, x: Id): Kids {
    match kind
    case Dep => k.(deps := k.deps + {x})
    case Task => k.(tasks := k.tasks + {x})
    case Dump => k.(dumps := k.dumps + {x})
  }

  function Removed(k: Kids, kind: Kind, x: Id): Kids {
    match kind
    case Dep => k.(deps := k.deps - {x})
    case Task => k.(tasks := k.tasks - {x})
    case Dump => k.(dumps := k.dumps - {x})
  }

  function Of(k: Kids, kind: Kind): set<Id> {
    match kind
    case Dep => k.deps
    case Task => k.tasks
    case Dump => k.dumps
  }

  const NO_KIDS := Kids({}, {}, {})

  /** A close takes the raw dumps that are left with it; outputs and recording tasks stop it. */
  datatype Conn = Conn(closed: bool, kids: Kids)

  /** What one step of a thread that works on the connection can do to it. */
  datatype Change = Stays | Gains(kind: Kind, x: Id) | Loses(kind: Kind, x: Id) | Closes

  predicate CanClose(k: Conn) { !k.closed && !k.kids.Busy() }

  function Changed(k: Conn, change: Change): Conn {
    match change
    case Stays => k
    case Gains(kind, x) => if k.closed then k else k.(kids := With(k.kids, kind, x))
    case Loses(kind, x) => k.(kids := Removed(k.kids, kind, x))
    case Closes => if CanClose(k) then Conn(true, NO_KIDS) else k
  }

  /** Where the Close in progress is; `left` is what remains of the snapshot taken from connection `c`. */
  datatype Phase =
    | Open
    | Preflight(rest: set<Id>, all: set<Id>)
    | Trees(rest: set<Id>)
    | Tree(c: Id, left: Kids, rest: set<Id>)
    | Destroying
    | Publishing(ok: bool)

  datatype Client = Client(closing: bool, closed: bool, destroys: nat, connections: set<Id>, phase: Phase)

  datatype State = State(client: Client, conns: map<Id, Conn>, misuse: bool)

  datatype Step =
    | NewConnection(c: Id, ok: bool)
    | Gain(c: Id, kind: Kind, x: Id) | Lose(c: Id, kind: Kind, x: Id)
    | CloseAlone(c: Id) | Unregister(c: Id)
    | BeginClose
    | Work(pick: Id, ok: bool)

  const INITIAL := State(Client(false, false, 0, {}, Open), map[], false)

  function To(s: State, phase: Phase): State { s.(client := s.client.(phase := phase)) }

  /** A failed Close only gives the flag back. */
  function Fail(s: State): State { s.(client := s.client.(phase := Open, closing := false)) }

  function SetConn(s: State, c: Id, k: Conn): State { s.(conns := s.conns[c := k]) }

  function Used(s: State): State { s.(misuse := s.misuse || s.client.destroys > 0) }

  // ---- Other threads ------------------------------------------------------------------------

  function OtherStep(s: State, step: Step): State {
    match step
    case NewConnection(c, ok) =>
      if c in s.conns || s.client.closed || s.client.closing then s
      else if !ok then Used(s)
      else SetConn(Used(s), c, Conn(false, NO_KIDS)).(client := s.client.(connections := s.client.connections + {c}))
    case Gain(c, kind, x) => if c in s.conns then SetConn(s, c, Changed(s.conns[c], Gains(kind, x))) else s
    case Lose(c, kind, x) => if c in s.conns then SetConn(s, c, Changed(s.conns[c], Loses(kind, x))) else s
    case CloseAlone(c) =>
      if c in s.conns && CanClose(s.conns[c]) then SetConn(Used(s), c, Changed(s.conns[c], Closes)) else s
    case Unregister(c) =>
      if c in s.conns && s.conns[c].closed then s.(client := s.client.(connections := s.client.connections - {c}))
      else s
    case _ => s
  }

  // ---- The Close in progress ----------------------------------------------------------------

  function PreflightWork(s: State, pick: Id, ok: bool): State
    requires s.client.phase.Preflight?
  {
    var (rest, all) := (s.client.phase.rest, s.client.phase.all);
    if rest == {} then To(s, Trees(all))
    else if pick !in rest then s
    else if ok then To(s, Preflight(rest - {pick}, all))
    else Fail(s)
  }

  function TreesWork(s: State, pick: Id): State
    requires s.client.phase.Trees?
  {
    var rest := s.client.phase.rest;
    if rest == {} then To(s, Destroying)
    else if pick in rest && pick in s.conns then To(s, Tree(pick, s.conns[pick].kids, rest - {pick}))
    else s
  }

  /** Removes one child of the snapshot: it is gone already, goes now, or the whole Close fails. */
  function Remove(s: State, kind: Kind, x: Id, ok: bool): State
    requires s.client.phase.Tree? && s.client.phase.c in s.conns
  {
    var (c, left, rest) := (s.client.phase.c, s.client.phase.left, s.client.phase.rest);
    var k := s.conns[c];
    if x !in Of(left, kind) then s
    else if x !in Of(k.kids, kind) then To(s, Tree(c, Removed(left, kind, x), rest))
    else if ok then To(SetConn(s, c, k.(kids := Removed(k.kids, kind, x))), Tree(c, Removed(left, kind, x), rest))
    else Fail(s)
  }

  function TreeWork(s: State, pick: Id, ok: bool): State
    requires s.client.phase.Tree? && s.client.phase.c in s.conns
  {
    var (c, left, rest) := (s.client.phase.c, s.client.phase.left, s.client.phase.rest);
    if left.dumps != {} then Remove(s, Dump, pick, ok)
    else if left.tasks != {} then Remove(s, Task, pick, ok)
    else if left.deps != {} then Remove(s, Dep, pick, ok)
    else if s.conns[c].closed then To(s, Trees(rest))
    else if !s.conns[c].kids.Busy() && ok then To(SetConn(Used(s), c, Conn(true, NO_KIDS)), Trees(rest))
    else Fail(s)
  }

  function CloseWork(s: State, pick: Id, ok: bool): State {
    match s.client.phase
    case Open => s
    case Preflight(_, _) => PreflightWork(s, pick, ok)
    case Trees(_) => TreesWork(s, pick)
    case Tree(c, _, _) => if c in s.conns then TreeWork(s, pick, ok) else s
    case Destroying =>
      var t := Used(s);
      if ok then t.(client := s.client.(destroys := s.client.destroys + 1, phase := Publishing(true)))
      else To(t, Publishing(false))
    case Publishing(success) => s.(client := s.client.(closed := success, closing := false, phase := Open))
  }

  function Next(s: State, step: Step): State {
    match step
    case BeginClose =>
      if s.client.closed || s.client.closing then s
      else s.(client := s.client.(closing := true, phase := Preflight(s.client.connections, s.client.connections)))
    case Work(pick, ok) => CloseWork(s, pick, ok)
    case _ => OtherStep(s, step)
  }

  function Run(steps: seq<Step>): State {
    if steps == [] then INITIAL else Next(Run(steps[..|steps| - 1]), steps[|steps| - 1])
  }

  // ---- What every reachable state keeps -----------------------------------------------------

  /** Every connection that is still open is found in `among`. */
  ghost predicate OpenOnes(s: State, among: set<Id>) {
    forall c :: c in s.conns && !s.conns[c].closed ==> c in among
  }

  ghost predicate PhaseAgrees(s: State) {
    match s.client.phase
    case Open => true
    case Preflight(_, all) => OpenOnes(s, all) && all <= s.conns.Keys
    case Trees(rest) => OpenOnes(s, rest) && rest <= s.conns.Keys
    case Tree(c, _, rest) => OpenOnes(s, rest + {c}) && rest <= s.conns.Keys && c in s.conns
    case _ => OpenOnes(s, {})
  }

  ghost predicate Safe(s: State) {
    && !s.misuse
    && s.client.closing == !s.client.phase.Open?
    && s.client.destroys == (if s.client.closed || s.client.phase == Publishing(true) then 1 else 0)
    && (s.client.closed ==> s.client.phase.Open? && OpenOnes(s, {}))
    && OpenOnes(s, s.client.connections) && s.client.connections <= s.conns.Keys
    && (forall c :: c in s.conns && s.conns[c].closed ==> s.conns[c].kids.Empty())
    && PhaseAgrees(s)
  }

  lemma OtherStepIsSafe(s: State, step: Step)
    requires Safe(s)
    ensures Safe(OtherStep(s, step))
  {
  }

  lemma TreeWorkIsSafe(s: State, pick: Id, ok: bool)
    requires Safe(s) && s.client.phase.Tree?
    ensures Safe(TreeWork(s, pick, ok))
  {
  }

  lemma CloseWorkIsSafe(s: State, pick: Id, ok: bool)
    requires Safe(s)
    ensures Safe(CloseWork(s, pick, ok))
  {
    if s.client.phase.Tree? {
      TreeWorkIsSafe(s, pick, ok);
    }
  }

  lemma NextIsSafe(s: State, step: Step)
    requires Safe(s)
    ensures Safe(Next(s, step))
  {
    match step
    case BeginClose =>
    case Work(pick, ok) => CloseWorkIsSafe(s, pick, ok);
    case _ => OtherStepIsSafe(s, step);
  }

  lemma {:induction false} RunIsSafe(steps: seq<Step>)
    ensures Safe(Run(steps))
  {
    if steps != [] {
      RunIsSafe(steps[..|steps| - 1]);
      NextIsSafe(Run(steps[..|steps| - 1]), steps[|steps| - 1]);
    }
  }

  // ---- Theorems -----------------------------------------------------------------------------

  /**
   However often Close failed and whatever else went on: once the native client is destroyed, every connection
   ever created is closed with nothing left on it; it is destroyed at most once; and no native call on it comes later.
   */
  lemma DestroyedLast(steps: seq<Step>)
    ensures var s := Run(steps);
      && !s.misuse && s.client.destroys <= 1
      && (s.client.closed ==> s.client.destroys == 1)
      && (s.client.destroys == 1 ==> forall c :: c in s.conns ==> s.conns[c].closed && s.conns[c].kids.Empty())
  {
    RunIsSafe(steps);
  }

  /** The flag that keeps other closes and new connections out is set exactly while a Close is in progress. */
  lemma {:induction false} FlagMeansInProgress(steps: seq<Step>)
    ensures Run(steps).client.closing <==> !Run(steps).client.phase.Open?
  {
    RunIsSafe(steps);
  }

  // ---- A failed preflight -------------------------------------------------------------------

  function Exec(s: State, steps: seq<Step>): State
    decreases |steps|
  {
    if steps == [] then s else Exec(Next(s, steps[0]), steps[1..])
  }

  /** What is left when the steps of closes, and the creations a close turns away, are taken out. */
  function Others(steps: seq<Step>): seq<Step> {
    if steps == [] then []
    else (if OfOthers(steps[0]) then [steps[0]] else []) + Others(steps[1..])
  }

  /** Every one of the steps is taken while the Close is in its preflight. */
  predicate InPreflight(s: State, steps: seq<Step>)
    decreases |steps|
  {
    steps == [] || (s.client.phase.Preflight? && InPreflight(Next(s, steps[0]), steps[1..]))
  }

  predicate OfOthers(step: Step) { !step.Work? && !step.BeginClose? && !step.NewConnection? }

  lemma StepIsInvisible(s: State, step: Step)
    requires s.client.closing && s.client.phase.Preflight?
    ensures var t := Next(s, step);
      && Fail(t) == (if OfOthers(step) then Next(Fail(s), step) else Fail(s))
      && (t.client.closing || t.client.phase.Open?)
  {
  }

  lemma {:induction false} PreflightIsInvisible(s: State, steps: seq<Step>)
    requires s.client.closing || s.client.phase.Open?
    requires InPreflight(s, steps)
    ensures Fail(Exec(s, steps)) == Exec(Fail(s), Others(steps))
    decreases |steps|
  {
    if steps != [] {
      StepIsInvisible(s, steps[0]);
      PreflightIsInvisible(Next(s, steps[0]), steps[1..]);
      if OfOthers(steps[0]) {
        assert Others(steps)[0] == steps[0] && Others(steps)[1..] == Others(steps[1..]);
      } else {
        assert Others(steps) == Others(steps[1..]);
      }
    }
  }

  lemma {:induction false} ExecIsSafe(s: State, steps: seq<Step>)
    requires Safe(s)
    ensures Safe(Exec(s, steps))
    decreases |steps|
  {
    if steps != [] {
      NextIsSafe(s, steps[0]);
      ExecIsSafe(Next(s, steps[0]), steps[1..]);
    }
  }

  /**
   A Close that fails in its preflight leaves exactly the state the other threads' steps make without it,
   whatever they did meanwhile: it changed nothing but the flag, which is given back.
   */
  lemma FailedPreflightChangesNothing(steps: seq<Step>, work: seq<Step>)
    requires var begun := Next(Run(steps), BeginClose);
      begun.client.phase.Preflight? && InPreflight(begun, work) && Exec(begun, work).client.phase.Open?
    requires Run(steps).client.phase.Open?
    ensures Exec(Next(Run(steps), BeginClose), work) == Exec(Run(steps), Others(work))
  {
    RunIsSafe(steps);
    var begun := Next(Run(steps), BeginClose);
    NextIsSafe(Run(steps), BeginClose);
    PreflightIsInvisible(begun, work);
    ExecIsSafe(begun, work);
    assert Fail(begun) == Run(steps);
    assert Fail(Exec(begun, work)) == Exec(begun, work);
  }

  // ---- Closing again ------------------------------------------------------------------------

  /** The snapshot a Close is working through still covers what is left on the connection. */
  predicate Undisturbed(s: State) {
    s.client.phase.Tree? && s.client.phase.c in s.conns ==> s.conns[s.client.phase.c].kids.Within(s.client.phase.left)
  }

  function Left(p: Phase): nat {
    match p
    case Open => 0
    case Preflight(rest, _) => |rest|
    case Trees(rest) => |rest|
    case Tree(_, _, rest) => |rest|
    case _ => 0
  }

  function Size(p: Phase): nat {
    match p
    case Tree(_, left, _) => 1 + |left.deps| + |left.tasks| + |left.dumps|
    case _ => 0
  }

  function Stage(p: Phase): nat {
    match p
    case Open => 0
    case Publishing(_) => 1
    case Destroying => 2
    case Trees(_) => 4
    case Tree(_, _, _) => 4
    case Preflight(_, _) => 5
  }

  predicate Closer(p: Phase, q: Phase) {
    || Stage(p) < Stage(q)
    || (Stage(p) == Stage(q) && (Left(p) < Left(q) || (Left(p) == Left(q) && Size(p) < Size(q))))
  }

  lemma RemoveAdvances(s: State, kind: Kind, x: Id)
    requires Safe(s) && Undisturbed(s) && s.client.phase.Tree? && x in Of(s.client.phase.left, kind)
    ensures var t := Remove(s, kind, x, true);
      Undisturbed(t) && t.client.phase.Tree? && Closer(t.client.phase, s.client.phase)
  {
    assert |Of(s.client.phase.left, kind) - {x}| < |Of(s.client.phase.left, kind)|;
  }

  lemma TreeAdvances(s: State) returns (pick: Id)
    requires Safe(s) && Undisturbed(s) && s.client.phase.Tree?
    ensures var t := Next(s, Work(pick, true));
      Undisturbed(t) && !t.client.phase.Open? && Closer(t.client.phase, s.client.phase)
  {
    var left := s.client.phase.left;
    pick := 0;
    if left.dumps != {} {
      pick :| pick in left.dumps;
      RemoveAdvances(s, Dump, pick);
    } else if left.tasks != {} {
      pick :| pick in left.tasks;
      RemoveAdvances(s, Task, pick);
    } else if left.deps != {} {
      pick :| pick in left.deps;
      RemoveAdvances(s, Dep, pick);
    }
  }

  lemma SnapshotAdvances(s: State) returns (pick: Id)
    requires Safe(s) && (s.client.phase.Preflight? || s.client.phase.Trees?)
    ensures var t := Next(s, Work(pick, true));
      && Undisturbed(t) && !t.client.phase.Open? && t.client.phase != Publishing(false)
      && Closer(t.client.phase, s.client.phase)
  {
    var rest := s.client.phase.rest;
    if rest != {} {
      pick :| pick in rest;
      assert |rest - {pick}| < |rest|;
    } else {
      pick := 0;
    }
  }

  /** A step of a Close that meets no failure brings it closer to its end. */
  lemma WorkAdvances(s: State) returns (pick: Id)
    requires Safe(s) && Undisturbed(s) && !s.client.phase.Open? && s.client.phase != Publishing(false)
    ensures var t := Next(s, Work(pick, true));
      && Undisturbed(t) && t.client.phase != Publishing(false)
      && (t.client.closed || !t.client.phase.Open?)
      && Closer(t.client.phase, s.client.phase)
  {
    pick := 0;
    if s.client.phase.Tree? {
      pick := TreeAdvances(s);
    } else if s.client.phase.Preflight? || s.client.phase.Trees? {
      pick := SnapshotAdvances(s);
    }
  }

  lemma {:induction false} WorkFinishes(s: State) returns (more: seq<Step>)
    requires Safe(s) && Undisturbed(s) && s.client.phase != Publishing(false)
    requires s.client.closed || !s.client.phase.Open?
    ensures Exec(s, more).client.closed
    decreases Stage(s.client.phase), Left(s.client.phase), Size(s.client.phase)
  {
    if s.client.closed {
      more := [];
    } else {
      var pick := WorkAdvances(s);
      NextIsSafe(s, Work(pick, true));
      var rest := WorkFinishes(Next(s, Work(pick, true)));
      more := [Work(pick, true)] + rest;
    }
  }

  /** However many closes failed before, and wherever: the next Close can still close the whole tree. */
  lemma CloseCanBeRetried(steps: seq<Step>)
    requires Run(steps).client.phase.Open?
    ensures exists more :: Exec(Run(steps), more).client.closed
  {
    RunIsSafe(steps);
    var s := Run(steps);
    if s.client.closed {
      assert Exec(s, []).client.closed;
    } else {
      NextIsSafe(s, BeginClose);
      var rest := WorkFinishes(Next(s, BeginClose));
      assert ([BeginClose] + rest)[1..] == rest;
      assert Exec(s, [BeginClose] + rest).client.closed;
    }
  }
}
