/** What closing the storage client guarantees, what it does not, and that it can be repeated. */
module StorageTeardown {
  import opened Common
  import opened ExportOutcome
  import opened StorageChildren
  import opened StorageRegistryProtocol
  import opened StorageRequests

  // ---- Completeness -------------------------------------------------------------------------

  /**
   Whatever the interleaving of creations with closes: when the native client is destroyed, every replay, export
   and list call ever registered is retired, and each call has destroyed its request unless its own native close
   failed; the client is destroyed at most once; and nothing uses it afterwards.
   */
  lemma SnapshotsAreComplete(steps: seq<Step>)
    ensures var s := Run(steps);
      && !s.misuse && s.client.destroys <= 1
      && (s.client.destroys == 1 ==> s.client.closed && forall id :: id in s.kids ==> s.kids[id].Retired())
      && (s.client.destroys == 1 ==>
            forall id :: IsCall(s, id) ==> (s.kids[id].request.destroys == 1 <==> !Happened(steps, id, GiveUp)))
  {
    RunIsSafe(steps);
    var s := Run(steps);
    forall id | IsCall(s, id) && s.client.destroys == 1
      ensures s.kids[id].request.destroys == 1 <==> !Happened(steps, id, GiveUp)
    {
      RequestIsWhatHappened(steps, id);
    }
  }

  /** While a close has its flag set, and for ever after one succeeded, no child is created. */
  lemma NothingCreatedWhileClosing(steps: seq<Step>, step: Step)
    requires Run(steps).client.closing || Run(steps).client.closed
    ensures Next(Run(steps), step).kids.Keys == Run(steps).kids.Keys
    ensures !Next(Run(steps), step).client.gate.Creating?
  {
    RunIsSafe(steps);
  }

  lemma ClosedStays(s: State, step: Step)
    requires Safe(s) && s.client.closed
    ensures var t := Next(s, step);
      t.client.closed && t.client.destroys == s.client.destroys && t.kids.Keys == s.kids.Keys
  {
  }

  /** A closed client stays closed, and no child is ever created again. */
  lemma {:induction false} ClosedIsForever(steps: seq<Step>, more: seq<Step>)
    requires Run(steps).client.closed
    ensures var s, t := Run(steps), Run(steps + more);
      t.client.closed && t.client.destroys == s.client.destroys && t.kids.Keys == s.kids.Keys
    decreases |more|
  {
    if more == [] {
      assert steps + more == steps;
    } else {
      RunIsSafe(steps);
      OneMoreStep(steps, more[0]);
      ClosedStays(Run(steps), more[0]);
      ClosedIsForever(steps + [more[0]], more[1..]);
      assert steps + [more[0]] + more[1..] == steps + more;
    }
  }

  // ---- A device that is closed after the client ---------------------------------------------

  predicate DroppedLate(s: State, id: Id) { id in s.kids && s.kids[id].OfReplay? && s.kids[id].device == Dropped(true) }

  /** The thread that closed a replay by itself closes the device, after the replay has left the registry. */
  predicate Drops(s: State, step: Step, id: Id) {
    && step == CloseDevice(id) && id !in s.client.children
    && id in s.kids && s.kids[id].OfReplay? && s.kids[id].closed && s.kids[id].device.Held?
  }

  ghost predicate DropsAfterClient(steps: seq<Step>, id: Id, k: nat) {
    k < |steps| && Drops(Run(steps[..k]), steps[k], id) && Run(steps[..k]).client.closed
  }

  lemma StepOnDevice(s: State, step: Step, id: Id)
    requires Safe(s)
    ensures DroppedLate(Next(s, step), id) <==> DroppedLate(s, id) || (Drops(s, step, id) && s.client.closed)
  {
  }

  lemma DropsPrefix(steps: seq<Step>, id: Id, k: nat)
    requires k < |steps| - 1
    ensures DropsAfterClient(steps, id, k) <==> DropsAfterClient(steps[..|steps| - 1], id, k)
  {
    assert steps[..|steps| - 1][..k] == steps[..k];
  }

  /**
   The device of a replay is closed after the native client was destroyed exactly when the replay was closed by its
   own Close and the client's close, which did not find it registered any more, was faster.
   */
  lemma {:induction false} LateDeviceIff(steps: seq<Step>, id: Id)
    ensures DroppedLate(Run(steps), id) <==> exists k: nat :: DropsAfterClient(steps, id, k)
  {
    if steps != [] {
      var n := |steps| - 1;
      RunIsSafe(steps[..n]);
      StepOnDevice(Run(steps[..n]), steps[n], id);
      LateDeviceIff(steps[..n], id);
      if k: nat :| DropsAfterClient(steps[..n], id, k) {
        DropsPrefix(steps, id, k);
      }
      if k: nat :| DropsAfterClient(steps, id, k) {
        if k < n {
          DropsPrefix(steps, id, k);
        }
      }
      assert Drops(Run(steps[..n]), steps[n], id) && Run(steps[..n]).client.closed <==> DropsAfterClient(steps, id, n);
    }
  }

  const LOOSE := map[0 := OfReplay(true, Held)]

  /** A replay is closed by itself and leaves the registry; its device is still open. */
  lemma ReplayLeaves() returns (steps: seq<Step>)
    ensures Run(steps) == State(Registry(Open, Idle, false, false, 0, {}), LOOSE, false)
  {
    var s1 := [OpenDevice(0, Replay, true)];
    var s2 := s1 + [CreationReturns(true)];
    var s3 := s2 + [CloseReplay(0)];
    steps := s3 + [Unregister(0)];
    OneMoreStep([], s1[0]);
    assert [] + [s1[0]] == s1;
    OneMoreStep(s1, CreationReturns(true));
    OneMoreStep(s2, CloseReplay(0));
    OneMoreStep(s3, Unregister(0));
    assert {0} - {0} == {};
  }

  /** A close of the client finds nothing registered and destroys the native client before the device is closed. */
  lemma LateDeviceHappens(a: Answers)
    ensures exists steps :: DroppedLate(Run(steps), 0)
  {
    var s0 := ReplayLeaves();
    var s1 := s0 + [BeginClose(true)];
    var s2 := s1 + [Work(0, true, a)];
    var s3 := s2 + [Work(0, true, a)];
    var s4 := s3 + [Work(0, true, a)];
    var s5 := s4 + [Work(0, true, a)];
    var s6 := s5 + [CloseDevice(0)];
    OneMoreStep(s0, BeginClose(true));
    OneMoreStep(s1, Work(0, true, a));
    OneMoreStep(s2, Work(0, true, a));
    OneMoreStep(s3, Work(0, true, a));
    OneMoreStep(s4, Work(0, true, a));
    OneMoreStep(s5, CloseDevice(0));
    assert Run(s4) == State(Registry(Destroying, AtGate, true, false, 0, {}), LOOSE, false);
    assert DroppedLate(Run(s6), 0);
  }

  // ---- An export that is retired with an in-use error ---------------------------------------

  lemma LeftStays(s: State, step: Step, id: Id)
    requires Safe(s) && id in s.kids && id !in s.client.children
    ensures id in Next(s, step).kids && id !in Next(s, step).client.children
  {
  }

  /** A child that has left the registry never comes back. */
  lemma {:induction false} LeftForever(steps: seq<Step>, more: seq<Step>, id: Id)
    requires id in Run(steps).kids && id !in Run(steps).client.children
    ensures id in Run(steps + more).kids && id !in Run(steps + more).client.children
    decreases |more|
  {
    if more == [] {
      assert steps + more == steps;
    } else {
      RunIsSafe(steps);
      OneMoreStep(steps, more[0]);
      LeftStays(Run(steps), more[0], id);
      LeftForever(steps + [more[0]], more[1..], id);
      assert steps + [more[0]] + more[1..] == steps + more;
    }
  }

  /** The step of a close that fails on an export although the export is gone. */
  predicate StoppedByGoneExport(s: State, step: Step) {
    && step.Work? && s.client.phase.Each? && step.id in s.client.phase.rest && step.id in s.kids
    && s.kids[step.id].OfExport?
    && var t := Next(s, step);
       t.client.phase.Idle? && step.id in t.kids && t.kids[step.id].OfExport? && t.kids[step.id].final.Some?
  }

  /**
   A close that is stopped by an export that is gone was stopped by its stored in-use error; that export has left
   the registry, so no later close finds it in its snapshot.
   */
  lemma StoppedOnceByGoneExport(steps: seq<Step>, step: Step, more: seq<Step>, idle: bool)
    requires StoppedByGoneExport(Run(steps), step)
    ensures var t := Next(Run(steps), step);
      && StoredInUse(t.kids[step.id].final.value) && step.id !in t.client.children
      && var u := Run(steps + [step] + more);
         u.client.phase.Idle? ==> !InPhase(Next(u, BeginClose(idle)).client.phase, step.id)
  {
    RunIsSafe(steps);
    OneMoreStep(steps, step);
    LeftForever(steps + [step], more, step.id);
  }

  // ---- Closing again ------------------------------------------------------------------------

  function Exec(s: State, steps: seq<Step>): State
    decreases |steps|
  {
    if steps == [] then s else Exec(Next(s, steps[0]), steps[1..])
  }

  lemma {:induction false} ExecJoins(s: State, first: seq<Step>, second: seq<Step>)
    ensures Exec(s, first + second) == Exec(Exec(s, first), second)
    decreases |first|
  {
    if first == [] {
      assert first + second == second;
    } else {
      assert (first + second)[1..] == first[1..] + second;
      ExecJoins(Next(s, first[0]), first[1..], second);
    }
  }

  lemma ExecFive(s: State, v: Step, w: Step, x: Step, y: Step, z: Step)
    ensures Exec(s, [v, w, x, y, z]) == Next(Next(Next(Next(Next(s, v), w), x), y), z)
  {
    assert [v, w, x, y, z][1..] == [w, x, y, z] && [w, x, y, z][1..] == [x, y, z];
    assert [x, y, z][1..] == [y, z] && [y, z][1..] == [z] && [z][1..] == [];
    var t := Next(Next(s, v), w);
    assert Exec(Next(s, v), [w, x, y, z]) == Exec(t, [x, y, z]);
    assert Exec(t, [x, y, z]) == Exec(Next(t, x), [y, z]);
    assert Exec(Next(t, x), [y, z]) == Exec(Next(Next(t, x), y), [z]);
  }

  lemma {:induction false} ExecIsSafe(s: State, steps: seq<Step>)
    requires Safe(s)
    ensures Safe(Exec(s, steps))
    decreases |steps|
  {
    if steps != [] {
      NextIsSafe(s, steps[0]);
      ExecIsSafe(Next(s, steps[0]), steps[1..]);
    }
  }

  /** What a list call does at its end, when its request does not complete by itself; `ok` is its own native close. */
  function CallEnds(id: Id, ok: bool): seq<Step> {
    [CompleteCall(id, false), DestroyRequest(id, ok), ClearPointer(id), Unregister(id), FinishCall(id)]
  }

  predicate OthersSame(s: State, t: State, id: Id) {
    t.kids.Keys == s.kids.Keys && forall k :: k in s.kids && k != id ==> t.kids[k] == s.kids[k]
  }

  lemma CancelledCallCompletes(s: State, id: Id)
    requires IsCall(s, id) && (s.kids[id].request.cancelled || s.kids[id].request.complete)
    ensures var t := Next(s, CompleteCall(id, false));
      t.client == s.client && IsCall(t, id) && t.kids[id].request.complete && OthersSame(s, t, id)
  {
  }

  lemma CompleteCallEnds(s: State, id: Id, ok: bool)
    requires Safe(s) && IsCall(s, id) && s.kids[id].request.complete
    ensures var t := Next(Next(s, DestroyRequest(id, ok)), ClearPointer(id));
      t.client == s.client && IsCall(t, id) && t.kids[id].request.ended && OthersSame(s, t, id)
  {
  }

  lemma EndedCallFinishes(s: State, id: Id)
    requires IsCall(s, id) && s.kids[id].request.ended
    ensures var t := Next(Next(s, Unregister(id)), FinishCall(id));
      && t.client == s.client.(children := s.client.children - {id})
      && Finished(t, id) && OthersSame(s, t, id)
  {
  }

  /** Once a close has cancelled a list call, the call's own last steps end the wait and touch nothing else. */
  lemma CallWaitsEnd(s: State, id: Id, ok: bool)
    requires Safe(s) && s.client.phase.Awaiting? && s.client.phase.id == id
    ensures var t := Exec(s, CallEnds(id, ok));
      && Safe(t) && Finished(t, id) && OthersSame(s, t, id)
      && t.client == s.client.(children := s.client.children - {id})
  {
    var a := Next(s, CompleteCall(id, false));
    var b := Next(Next(a, DestroyRequest(id, ok)), ClearPointer(id));
    NextIsSafe(s, CompleteCall(id, false));
    CancelledCallCompletes(s, id);
    CompleteCallEnds(a, id, ok);
    EndedCallFinishes(b, id);
    ExecIsSafe(s, CallEnds(id, ok));
    ExecFive(s, CompleteCall(id, false), DestroyRequest(id, ok), ClearPointer(id), Unregister(id), FinishCall(id));
  }

  /** The steps that can make a list call's request complete. */
  predicate Completes(s: State, step: Step, id: Id) {
    step == CancelCall(id) || step == CompleteCall(id, true) || Does(s, step, id, NativeCancel)
  }

  predicate Completing(s: State, id: Id) {
    IsCall(s, id) && (s.kids[id].request.cancelled || s.kids[id].request.complete)
  }

  lemma StepOnCompletion(s: State, step: Step, id: Id)
    requires Safe(s) && !Completing(s, id) && Completing(Next(s, step), id)
    ensures Completes(s, step, id)
  {
  }

  /**
   A list call ends only if a close of the client or the call's own context has cancelled it, or its request has
   completed by itself.
   */
  lemma {:induction false} CancelIsNeeded(steps: seq<Step>, id: Id)
    requires Completing(Run(steps), id) || Finished(Run(steps), id)
    ensures exists j: nat :: j < |steps| && Completes(Run(steps[..j]), steps[j], id)
  {
    RunIsSafe(steps);
    var n := |steps| - 1;
    RunIsSafe(steps[..n]);
    if Completing(Run(steps[..n]), id) {
      CancelIsNeeded(steps[..n], id);
      var j: nat :| j < n && Completes(Run(steps[..n][..j]), steps[..n][j], id);
      assert steps[..n][..j] == steps[..j] && steps[..n][j] == steps[j];
    } else {
      StepOnCompletion(Run(steps[..n]), steps[n], id);
    }
  }

  /** No export the close still has to deal with is retired. */
  ghost predicate NoStaleExport(s: State) {
    forall id :: InPhase(s.client.phase, id) && id in s.kids && s.kids[id].OfExport? ==> s.kids[id].final.None?
  }

  predicate Closes(p: Phase) { p.Preflight? || p.Each? || p.Loaded? || p.Awaiting? || p.AtGate? }

  function Stage(p: Phase): nat {
    match p
    case Preflight(_, _) => 3
    case Each(_) => 2
    case Loaded(_, _, _) => 2
    case Awaiting(_, _) => 2
    case AtGate => 1
    case _ => 0
  }

  function Left(p: Phase): nat {
    match p
    case Preflight(rest, _) => |rest|
    case Each(rest) => 3 * |rest|
    case Loaded(_, _, rest) => 3 * |rest| + 2
    case Awaiting(_, rest) => 3 * |rest| + 1
    case _ => 0
  }

  predicate Closer(p: Phase, q: Phase) {
    Closes(p) && (Stage(p) < Stage(q) || (Stage(p) == Stage(q) && Left(p) < Left(q)))
  }

  const WILLING :=
    Answers(Holdings({}, {}, {}), ReplayAnswers(true, true, {}, {}, {}, {}, false, false, false),
            ExportAnswers(0, false, 0, 0, 0, 0, false))

  lemma PickAdvances(s: State) returns (more: seq<Step>)
    requires Safe(s) && NoStaleExport(s) && s.client.gate.Open?
    requires s.client.phase.Preflight? || s.client.phase.Each?
    ensures var t := Exec(s, more);
      Safe(t) && NoStaleExport(t) && t.client.gate.Open? && Closer(t.client.phase, s.client.phase)
  {
    var id := 0;
    if s.client.phase.rest != {} {
      id :| id in s.client.phase.rest;
      assert |s.client.phase.rest - {id}| < |s.client.phase.rest|;
    }
    more := [Work(id, true, WILLING)];
    NextIsSafe(s, more[0]);
  }

  lemma LoadAdvances(s: State) returns (more: seq<Step>)
    requires Safe(s) && NoStaleExport(s) && s.client.gate.Open? && s.client.phase.Loaded?
    ensures var t := Exec(s, more);
      Safe(t) && NoStaleExport(t) && t.client.gate.Open? && Closer(t.client.phase, s.client.phase)
  {
    more := [Work(0, true, WILLING)];
    NextIsSafe(s, more[0]);
  }

  lemma AwaitAdvances(s: State) returns (more: seq<Step>)
    requires Safe(s) && NoStaleExport(s) && s.client.gate.Open? && s.client.phase.Awaiting?
    ensures var t := Exec(s, more);
      Safe(t) && NoStaleExport(t) && t.client.gate.Open? && Closer(t.client.phase, s.client.phase)
  {
    var id := s.client.phase.id;
    var t := Exec(s, CallEnds(id, true));
    CallWaitsEnd(s, id, true);
    NextIsSafe(t, Work(id, true, WILLING));
    more := CallEnds(id, true) + [Work(id, true, WILLING)];
    ExecJoins(s, CallEnds(id, true), [Work(id, true, WILLING)]);
  }

  lemma {:induction false} WorkFinishes(s: State) returns (more: seq<Step>)
    requires Safe(s) && NoStaleExport(s) && s.client.gate.Open? && Closes(s.client.phase)
    ensures Exec(s, more).client.closed
    decreases Stage(s.client.phase), Left(s.client.phase)
  {
    if s.client.phase.AtGate? {
      more := [Work(0, true, WILLING), Work(0, true, WILLING)];
      assert more[1..] == [Work(0, true, WILLING)] && more[1..][1..] == [];
      var t := Next(s, Work(0, true, WILLING));
      assert Exec(t, more[1..]) == Exec(Next(t, Work(0, true, WILLING)), []);
    } else {
      var first: seq<Step>;
      if s.client.phase.Awaiting? {
        first := AwaitAdvances(s);
      } else if s.client.phase.Loaded? {
        first := LoadAdvances(s);
      } else {
        first := PickAdvances(s);
      }
      var rest := WorkFinishes(Exec(s, first));
      more := first + rest;
      ExecJoins(s, first, rest);
    }
  }

  /** The retired children's own threads take them out of the registry. */
  lemma {:induction false} RegistryClears(s: State) returns (more: seq<Step>)
    requires Safe(s) && s.client.phase.Idle? && s.client.gate.Open?
    ensures var t := Exec(s, more);
      && Safe(t) && t.client.phase.Idle? && t.client.gate.Open? && t.client.closed == s.client.closed
      && forall id :: id in t.client.children ==> id in t.kids && !t.kids[id].Retired()
    decreases s.client.children
  {
    if id :| id in s.client.children && s.kids[id].Retired() {
      NextIsSafe(s, Unregister(id));
      var rest := RegistryClears(Next(s, Unregister(id)));
      more := [Unregister(id)] + rest;
      assert more[1..] == rest;
    } else {
      more := [];
    }
  }

  /**
   However many closes failed before, and whatever stopped them: once the threads that retired a child have taken
   it out of the registry, the next close can still close the client.
   */
  lemma CloseCanBeRetried(steps: seq<Step>)
    requires Run(steps).client.phase.Idle? && Run(steps).client.gate.Open?
    ensures exists more :: Exec(Run(steps), more).client.closed
  {
    RunIsSafe(steps);
    var s := Run(steps);
    var cleared := RegistryClears(s);
    var t := Exec(s, cleared);
    if t.client.closed {
      assert Exec(s, cleared).client.closed;
    } else {
      NextIsSafe(t, BeginClose(true));
      var rest := WorkFinishes(Next(t, BeginClose(true)));
      assert ([BeginClose(true)] + rest)[1..] == rest;
      ExecJoins(s, cleared, [BeginClose(true)] + rest);
      assert Exec(s, cleared + ([BeginClose(true)] + rest)).client.closed;
    }
  }
}
