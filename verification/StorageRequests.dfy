/** What becomes of a list call's native request, and when a close of the client cancels it too late. */
module StorageRequests {
  import opened Common
  import opened StorageChildren
  import opened StorageRegistryProtocol

  lemma OneMoreStep(steps: seq<Step>, last: Step)
    ensures Run(steps + [last]) == Next(Run(steps), last)
  {
    assert (steps + [last])[..|steps|] == steps;
  }

  // ---- The request of a list call -----------------------------------------------------------

  predicate IsCall(s: State, id: Id) { id in s.kids && s.kids[id].OfCall? }

  predicate Destroyed(s: State, id: Id) { IsCall(s, id) && s.kids[id].request.destroys > 0 }

  predicate Cleared(s: State, id: Id) { IsCall(s, id) && !s.kids[id].request.pointer }

  /** The call's own native close is over, and the request is still there. */
  predicate GaveUp(s: State, id: Id) {
    IsCall(s, id) && s.kids[id].request.ended && s.kids[id].request.destroys == 0
  }

  predicate UsedStale(s: State, id: Id) { IsCall(s, id) && s.kids[id].request.staleUse }

  predicate UsedNull(s: State, id: Id) { IsCall(s, id) && s.kids[id].request.nullUse }

  /** A close of the client has loaded the call's pointer (present or not) and is about to cancel the call. */
  predicate Carries(s: State, id: Id) { s.client.phase.Loaded? && s.client.phase.id == id }

  /**
   What happens to a request: a close of the client loads its pointer, or makes the native cancel; the call itself
   destroys it, fails to, or clears the pointer.
   */
  datatype Event = Load | NativeCancel | Destroy | GiveUp | Clear

  predicate Does(s: State, step: Step, id: Id, e: Event) {
    IsCall(s, id) &&
    var r := s.kids[id].request;
    match e
    case Load => step.Work? && step.id == id && s.client.phase.Each? && id in s.client.phase.rest
    case NativeCancel => step.Work? && Carries(s, id)
    case Destroy => step == DestroyRequest(id, true) && Destroyable(r)
    case GiveUp => step == DestroyRequest(id, false) && Destroyable(r)
    case Clear => step == ClearPointer(id) && r.destroys > 0 && r.pointer
  }

  /** A step of the client's close does nothing to a request but cancel it. */
  lemma WorkOnRequest(s: State, step: Step, id: Id)
    requires Safe(s) && step.Work?
    ensures var t := Next(s, step);
      && (IsCall(t, id) <==> IsCall(s, id)) && (Destroyed(t, id) <==> Destroyed(s, id))
      && (Cleared(t, id) <==> Cleared(s, id)) && (GaveUp(t, id) <==> GaveUp(s, id))
  {
  }

  lemma StepOnRequest(s: State, step: Step, id: Id)
    requires Safe(s)
    ensures var t := Next(s, step);
      && (IsCall(s, id) ==> IsCall(t, id))
      && (Destroyed(t, id) <==> Destroyed(s, id) || Does(s, step, id, Destroy))
      && (Cleared(t, id) <==> Cleared(s, id) || Does(s, step, id, Clear))
      && (GaveUp(t, id) <==> GaveUp(s, id) || Does(s, step, id, GiveUp))
  {
    if step.Work? {
      WorkOnRequest(s, step, id);
    }
  }

  lemma OthersOnUses(s: State, step: Step, id: Id)
    requires Safe(s) && !step.Work?
    ensures UsedStale(Next(s, step), id) <==> UsedStale(s, id)
    ensures UsedNull(Next(s, step), id) <==> UsedNull(s, id)
  {
  }

  lemma StepOnUses(s: State, step: Step, id: Id)
    requires Safe(s)
    ensures var t := Next(s, step);
      && (UsedStale(t, id) <==>
            UsedStale(s, id) || (Does(s, step, id, NativeCancel) && s.client.phase.pointer && Destroyed(s, id)))
      && (UsedNull(t, id) <==> UsedNull(s, id) || (Does(s, step, id, NativeCancel) && !s.client.phase.pointer))
  {
    if !step.Work? {
      OthersOnUses(s, step, id);
    }
  }

  ghost predicate At(steps: seq<Step>, id: Id, e: Event, j: nat) {
    j < |steps| && Does(Run(steps[..j]), steps[j], id, e)
  }

  ghost predicate Happened(steps: seq<Step>, id: Id, e: Event) { exists j: nat :: At(steps, id, e, j) }

  lemma AtPrefix(steps: seq<Step>, id: Id, e: Event, j: nat, n: nat)
    requires j < n <= |steps|
    ensures At(steps, id, e, j) <==> At(steps[..n], id, e, j)
  {
    assert steps[..n][..j] == steps[..j];
  }

  /** What happened by some point of a run happened at one of the steps before. */
  lemma HappenedBefore(steps: seq<Step>, id: Id, e: Event, n: nat)
    requires n <= |steps|
    ensures Happened(steps[..n], id, e) <==> exists j: nat :: j < n && At(steps, id, e, j)
  {
    if j: nat :| At(steps[..n], id, e, j) {
      AtPrefix(steps, id, e, j, n);
    }
    if j: nat :| j < n && At(steps, id, e, j) {
      AtPrefix(steps, id, e, j, n);
    }
  }

  lemma HappensAtLast(steps: seq<Step>, id: Id, e: Event)
    requires steps != []
    ensures var n := |steps| - 1;
      Happened(steps, id, e) <==> Happened(steps[..n], id, e) || Does(Run(steps[..n]), steps[n], id, e)
  {
    var n := |steps| - 1;
    HappenedBefore(steps, id, e, n);
    assert Does(Run(steps[..n]), steps[n], id, e) <==> At(steps, id, e, n);
    if j: nat :| At(steps, id, e, j) {
      assert j < n || j == n;
    }
  }

  /** A request is destroyed, its pointer cleared, or given up, exactly when the call itself did that. */
  lemma {:induction false} RequestIsWhatHappened(steps: seq<Step>, id: Id)
    ensures Destroyed(Run(steps), id) <==> Happened(steps, id, Destroy)
    ensures Cleared(Run(steps), id) <==> Happened(steps, id, Clear)
    ensures GaveUp(Run(steps), id) <==> Happened(steps, id, GiveUp)
  {
    if steps != [] {
      var n := |steps| - 1;
      RunIsSafe(steps[..n]);
      StepOnRequest(Run(steps[..n]), steps[n], id);
      RequestIsWhatHappened(steps[..n], id);
      HappensAtLast(steps, id, Destroy);
      HappensAtLast(steps, id, Clear);
      HappensAtLast(steps, id, GiveUp);
    }
  }

  // ---- A request that is given up -----------------------------------------------------------

  lemma GivenUpStays(s: State, step: Step, id: Id)
    requires Safe(s) && GaveUp(s, id)
    ensures GaveUp(Next(s, step), id)
  {
    StepOnRequest(s, step, id);
  }

  /** A request that the call could not destroy is never destroyed, whatever happens afterwards. */
  lemma {:induction false} GivenUpForever(steps: seq<Step>, more: seq<Step>, id: Id)
    requires GaveUp(Run(steps), id)
    ensures GaveUp(Run(steps + more), id)
    decreases |more|
  {
    if more == [] {
      assert steps + more == steps;
    } else {
      RunIsSafe(steps);
      OneMoreStep(steps, more[0]);
      GivenUpStays(Run(steps), more[0], id);
      GivenUpForever(steps + [more[0]], more[1..], id);
      assert steps + [more[0]] + more[1..] == steps + more;
    }
  }

  /**
   When the call's native close is over, its request stays undestroyed for ever exactly if that close failed: it is
   not tried again, neither by the call nor by a close of the client.
   */
  lemma NeverDestroyedIff(steps: seq<Step>, id: Id)
    requires IsCall(Run(steps), id) && Run(steps).kids[id].request.ended
    ensures (forall more :: !Destroyed(Run(steps + more), id)) <==> Happened(steps, id, GiveUp)
  {
    RequestIsWhatHappened(steps, id);
    if GaveUp(Run(steps), id) {
      forall more ensures !Destroyed(Run(steps + more), id) {
        GivenUpForever(steps, more, id);
      }
    } else {
      assert steps + [] == steps;
      assert Destroyed(Run(steps + []), id);
    }
  }

  // ---- A cancel that comes too late ---------------------------------------------------------

  /** From the load at `l` up to step `k` the close that loaded the pointer has not made the native cancel. */
  ghost predicate CarriedTo(steps: seq<Step>, id: Id, l: nat, k: nat) {
    && l < k <= |steps| && At(steps, id, Load, l)
    && forall m :: l < m <= k ==> Carries(Run(steps[..m]), id)
  }

  /** A native cancel at `k`, with the pointer loaded at `l`. */
  ghost predicate CancelOf(steps: seq<Step>, id: Id, l: nat, k: nat) {
    CarriedTo(steps, id, l, k) && At(steps, id, NativeCancel, k)
  }

  /** Loaded before the clear, run after the destroy. */
  ghost predicate StaleAt(steps: seq<Step>, id: Id, l: nat, d: nat, k: nat) {
    && CancelOf(steps, id, l, k)
    && d < k && At(steps, id, Destroy, d) && forall c: nat :: c < l ==> !At(steps, id, Clear, c)
  }

  /** Loaded after the clear. */
  ghost predicate NullAt(steps: seq<Step>, id: Id, c: nat, l: nat, k: nat) {
    CancelOf(steps, id, l, k) && c < l && At(steps, id, Clear, c)
  }

  lemma LoadStarts(s: State, step: Step, id: Id)
    requires Safe(s) && Carries(Next(s, step), id)
    ensures if Carries(s, id) then Next(s, step).client.phase.pointer == s.client.phase.pointer
            else Does(s, step, id, Load) && (Next(s, step).client.phase.pointer <==> !Cleared(s, id))
  {
  }

  /** A close that carries a pointer has loaded it at some step, and knows whether it was cleared by then. */
  lemma {:induction false} WhoeverCarriesLoaded(steps: seq<Step>, id: Id) returns (l: nat)
    requires Carries(Run(steps), id)
    ensures CarriedTo(steps, id, l, |steps|)
    ensures Run(steps).client.phase.pointer <==> !Cleared(Run(steps[..l]), id)
  {
    var n := |steps| - 1;
    RunIsSafe(steps[..n]);
    LoadStarts(Run(steps[..n]), steps[n], id);
    if Carries(Run(steps[..n]), id) {
      l := WhoeverCarriesLoaded(steps[..n], id);
      CarriesOn(steps, id, l);
    } else {
      l := n;
      assert steps[..|steps|] == steps;
    }
  }

  lemma CarriesOn(steps: seq<Step>, id: Id, l: nat)
    requires steps != [] && CarriedTo(steps[..|steps| - 1], id, l, |steps| - 1) && Carries(Run(steps), id)
    ensures CarriedTo(steps, id, l, |steps|) && steps[..|steps| - 1][..l] == steps[..l]
  {
    var n := |steps| - 1;
    AtPrefix(steps, id, Load, l, n);
    forall m | l < m <= |steps| ensures Carries(Run(steps[..m]), id) {
      if m <= n {
        assert steps[..n][..m] == steps[..m];
      } else {
        assert steps[..m] == steps;
      }
    }
  }

  /** The pointer does not change on the way. */
  lemma {:induction false} CarriedPointer(steps: seq<Step>, id: Id, l: nat, k: nat)
    requires CarriedTo(steps, id, l, k)
    ensures Run(steps[..k]).client.phase.pointer <==> !Cleared(Run(steps[..l]), id)
  {
    assert Carries(Run(steps[..k]), id);
    assert steps[..k][..k - 1] == steps[..k - 1];
    RunIsSafe(steps[..k - 1]);
    LoadStarts(Run(steps[..k - 1]), steps[k - 1], id);
    if k > l + 1 {
      assert Carries(Run(steps[..k - 1]), id);
      CarriedPointer(steps, id, l, k - 1);
    }
  }

  /** A native cancel of a close, seen from the step where it is made. */
  ghost predicate LateAt(steps: seq<Step>, id: Id, pointer: bool, k: nat) {
    && At(steps, id, NativeCancel, k) && Run(steps[..k]).client.phase.pointer == pointer
    && (pointer ==> Destroyed(Run(steps[..k]), id))
  }

  lemma LatePrefix(steps: seq<Step>, id: Id, pointer: bool, k: nat)
    requires steps != [] && k < |steps| - 1
    ensures LateAt(steps, id, pointer, k) <==> LateAt(steps[..|steps| - 1], id, pointer, k)
  {
    AtPrefix(steps, id, NativeCancel, k, |steps| - 1);
    assert steps[..|steps| - 1][..k] == steps[..k];
  }

  lemma LateAtLast(steps: seq<Step>, id: Id, pointer: bool)
    requires steps != []
    ensures var n := |steps| - 1;
      (exists k: nat :: LateAt(steps, id, pointer, k)) <==>
      (exists k: nat :: LateAt(steps[..n], id, pointer, k)) || LateAt(steps, id, pointer, n)
  {
    var n := |steps| - 1;
    if k: nat :| LateAt(steps[..n], id, pointer, k) {
      LatePrefix(steps, id, pointer, k);
    }
    if k: nat :| LateAt(steps, id, pointer, k) {
      if k < n {
        LatePrefix(steps, id, pointer, k);
      }
    }
  }

  lemma {:induction false} UsesAreLate(steps: seq<Step>, id: Id)
    ensures UsedStale(Run(steps), id) <==> exists k: nat :: LateAt(steps, id, true, k)
    ensures UsedNull(Run(steps), id) <==> exists k: nat :: LateAt(steps, id, false, k)
  {
    if steps != [] {
      var n := |steps| - 1;
      RunIsSafe(steps[..n]);
      StepOnUses(Run(steps[..n]), steps[n], id);
      UsesAreLate(steps[..n], id);
      LateAtLast(steps, id, true);
      LateAtLast(steps, id, false);
    }
  }

  /** Where a native cancel's pointer was loaded. */
  lemma CancelHasLoad(steps: seq<Step>, id: Id, k: nat) returns (l: nat)
    requires At(steps, id, NativeCancel, k)
    ensures CancelOf(steps, id, l, k)
    ensures Run(steps[..k]).client.phase.pointer <==> !Cleared(Run(steps[..l]), id)
  {
    l := WhoeverCarriesLoaded(steps[..k], id);
    AtPrefix(steps, id, Load, l, k);
    forall m | l < m <= k ensures Carries(Run(steps[..m]), id) {
      assert steps[..k][..m] == steps[..m];
    }
    CarriedPointer(steps, id, l, k);
  }

  lemma ClearedBefore(steps: seq<Step>, id: Id, l: nat)
    requires l <= |steps|
    ensures Cleared(Run(steps[..l]), id) <==> exists c: nat :: c < l && At(steps, id, Clear, c)
    ensures Destroyed(Run(steps[..l]), id) <==> exists d: nat :: d < l && At(steps, id, Destroy, d)
  {
    RequestIsWhatHappened(steps[..l], id);
    HappenedBefore(steps, id, Clear, l);
    HappenedBefore(steps, id, Destroy, l);
  }

  /**
   A destroyed request is used exactly when a close of the client loaded its pointer before the call cleared it,
   and makes its native cancel after the call has destroyed the request. Nothing keeps the two apart.
   */
  lemma StaleUseIff(steps: seq<Step>, id: Id)
    ensures UsedStale(Run(steps), id) <==> exists l: nat, d: nat, k: nat :: StaleAt(steps, id, l, d, k)
  {
    UsesAreLate(steps, id);
    if k: nat :| LateAt(steps, id, true, k) {
      var l := CancelHasLoad(steps, id, k);
      ClearedBefore(steps, id, l);
      ClearedBefore(steps, id, k);
      var d: nat :| d < k && At(steps, id, Destroy, d);
      assert StaleAt(steps, id, l, d, k);
    }
    if l: nat, d: nat, k: nat :| StaleAt(steps, id, l, d, k) {
      CarriedPointer(steps, id, l, k);
      ClearedBefore(steps, id, l);
      ClearedBefore(steps, id, k);
      assert LateAt(steps, id, true, k);
    }
  }

  /** The native cancel gets no request at all exactly when the close loaded the pointer after it was cleared. */
  lemma NullUseIff(steps: seq<Step>, id: Id)
    ensures UsedNull(Run(steps), id) <==> exists c: nat, l: nat, k: nat :: NullAt(steps, id, c, l, k)
  {
    UsesAreLate(steps, id);
    if k: nat :| LateAt(steps, id, false, k) {
      var l := CancelHasLoad(steps, id, k);
      ClearedBefore(steps, id, l);
      var c: nat :| c < l && At(steps, id, Clear, c);
      assert NullAt(steps, id, c, l, k);
    }
    if c: nat, l: nat, k: nat :| NullAt(steps, id, c, l, k) {
      CarriedPointer(steps, id, l, k);
      ClearedBefore(steps, id, l);
      assert LateAt(steps, id, false, k);
    }
  }

  // ---- Runs that do it ----------------------------------------------------------------------

  function Closing(phase: Phase, r: Request): State {
    State(Registry(Open, phase, true, false, 0, {0}), map[0 := OfCall(r)], false)
  }

  /** A list call is registered, and a close is about to deal with it. */
  lemma CloseReachesCall(a: Answers) returns (steps: seq<Step>)
    ensures Run(steps) == Closing(Each({0}), NEW_REQUEST)
  {
    var s1 := [OpenDevice(0, Call, true)];
    var s2 := s1 + [CreationReturns(true)];
    var s3 := s2 + [BeginClose(true)];
    var s4 := s3 + [Work(0, true, a)];
    steps := s4 + [Work(0, true, a)];
    OneMoreStep([], s1[0]);
    assert [] + [s1[0]] == s1;
    OneMoreStep(s1, CreationReturns(true));
    OneMoreStep(s2, BeginClose(true));
    OneMoreStep(s3, Work(0, true, a));
    OneMoreStep(s4, Work(0, true, a));
    assert Run(s3).client.phase == Preflight({0}, {0});
    assert {0} - {0} == {};
  }

  const DONE := NEW_REQUEST.(complete := true)

  /** The close loads the pointer, the call destroys its request, and then the native cancel runs on it. */
  lemma StaleUseHappens(a: Answers)
    ensures exists steps :: UsedStale(Run(steps), 0)
  {
    var s0 := CloseReachesCall(a);
    var s1 := s0 + [CompleteCall(0, true)];
    var s2 := s1 + [Work(0, true, a)];
    var s3 := s2 + [DestroyRequest(0, true)];
    var s4 := s3 + [Work(0, true, a)];
    OneMoreStep(s0, CompleteCall(0, true));
    OneMoreStep(s1, Work(0, true, a));
    OneMoreStep(s2, DestroyRequest(0, true));
    OneMoreStep(s3, Work(0, true, a));
    assert Run(s2) == Closing(Loaded(0, true, {0} - {0}), DONE);
    assert UsedStale(Run(s4), 0);
  }

  /** The call destroys its request and clears the pointer before the close loads it. */
  lemma NullUseHappens(a: Answers)
    ensures exists steps :: UsedNull(Run(steps), 0)
  {
    var s0 := CloseReachesCall(a);
    var s1 := s0 + [CompleteCall(0, true)];
    var s2 := s1 + [DestroyRequest(0, true)];
    var s3 := s2 + [ClearPointer(0)];
    var s4 := s3 + [Work(0, true, a)];
    var s5 := s4 + [Work(0, true, a)];
    OneMoreStep(s0, CompleteCall(0, true));
    OneMoreStep(s1, DestroyRequest(0, true));
    OneMoreStep(s2, ClearPointer(0));
    OneMoreStep(s3, Work(0, true, a));
    OneMoreStep(s4, Work(0, true, a));
    assert Run(s3) == Closing(Each({0}), DONE.(destroys := 1, pointer := false, ended := true));
    assert UsedNull(Run(s5), 0);
  }

  /** The call's native close fails; the call gives its request up. */
  lemma GiveUpHappens(a: Answers)
    ensures exists steps :: GaveUp(Run(steps), 0)
  {
    var s0 := CloseReachesCall(a);
    var s1 := s0 + [CompleteCall(0, true)];
    var s2 := s1 + [DestroyRequest(0, false)];
    OneMoreStep(s0, CompleteCall(0, true));
    OneMoreStep(s1, DestroyRequest(0, false));
    assert GaveUp(Run(s2), 0);
  }

  // ---- Only calls of the snapshot -----------------------------------------------------------

  predicate InPhase(p: Phase, id: Id) {
    match p
    case Preflight(rest, all) => id in rest || id in all
    case Each(rest) => id in rest
    case Loaded(call, _, rest) => id == call || id in rest
    case Awaiting(call, rest) => id == call || id in rest
    case _ => false
  }

  /** The same close has been in progress ever since step `j`. */
  ghost predicate ClosingSince(steps: seq<Step>, j: nat) {
    forall i :: j < i <= |steps| ==> !Run(steps[..i]).client.phase.Idle?
  }

  /** At `j` the close that is in progress now took its snapshot, with `id` in it. */
  ghost predicate SnapshotHeld(steps: seq<Step>, id: Id, j: nat) {
    && j < |steps| && steps[j].BeginClose?
    && id in Run(steps[..j]).client.children
    && (IsCall(Run(steps[..j]), id) <==> IsCall(Run(steps), id))
    && ClosingSince(steps, j)
  }

  lemma StillClosing(steps: seq<Step>, j: nat)
    requires steps != [] && ClosingSince(steps[..|steps| - 1], j) && !Run(steps).client.phase.Idle?
    ensures ClosingSince(steps, j)
  {
    var n := |steps| - 1;
    forall i | j < i <= |steps| ensures !Run(steps[..i]).client.phase.Idle? {
      if i <= n {
        assert steps[..n][..i] == steps[..i];
      } else {
        assert steps[..i] == steps;
      }
    }
  }

  lemma StepInPhase(s: State, step: Step, id: Id)
    requires Safe(s) && InPhase(Next(s, step).client.phase, id)
    ensures IsCall(s, id) <==> IsCall(Next(s, step), id)
    ensures if s.client.phase.Idle? then step.BeginClose? && id in s.client.children else InPhase(s.client.phase, id)
  {
  }

  lemma StillHeld(steps: seq<Step>, id: Id, j: nat)
    requires steps != [] && SnapshotHeld(steps[..|steps| - 1], id, j) && !Run(steps).client.phase.Idle?
    requires IsCall(Run(steps[..|steps| - 1]), id) <==> IsCall(Run(steps), id)
    ensures SnapshotHeld(steps, id, j)
  {
    assert steps[..|steps| - 1][..j] == steps[..j];
    StillClosing(steps, j);
  }

  lemma {:induction false} WorkComesFromSnapshot(steps: seq<Step>, id: Id) returns (j: nat)
    requires InPhase(Run(steps).client.phase, id)
    ensures SnapshotHeld(steps, id, j)
  {
    var n := |steps| - 1;
    RunIsSafe(steps[..n]);
    StepInPhase(Run(steps[..n]), steps[n], id);
    if Run(steps[..n]).client.phase.Idle? {
      j := n;
      assert steps[..n + 1] == steps;
    } else {
      j := WorkComesFromSnapshot(steps[..n], id);
      StillHeld(steps, id, j);
    }
  }

  /**
   A close only ever cancels list calls of its own snapshot; so a close whose snapshot holds no list call never uses
   a request at all, destroyed or not.
   */
  lemma OnlySnapshotCallsAreCancelled(steps: seq<Step>, step: Step, id: Id, e: Event)
    requires Does(Run(steps), step, id, e) && (e.Load? || e.NativeCancel?)
    ensures exists j: nat :: SnapshotHeld(steps, id, j) && IsCall(Run(steps[..j]), id)
  {
    var j := WorkComesFromSnapshot(steps, id);
    assert SnapshotHeld(steps, id, j) && IsCall(Run(steps[..j]), id);
  }

  /** A close begins and finds the list call registered. */
  ghost predicate FoundAt(steps: seq<Step>, id: Id, j: nat) {
    && j < |steps| && steps[j].BeginClose?
    && id in Run(steps[..j]).client.children && IsCall(Run(steps[..j]), id)
  }

  lemma CancelledWasFound(steps: seq<Step>, id: Id, k: nat) returns (i: nat)
    requires At(steps, id, NativeCancel, k)
    ensures FoundAt(steps, id, i)
  {
    i := WorkComesFromSnapshot(steps[..k], id);
    assert steps[..k][..i] == steps[..i] && steps[..k][i] == steps[i];
  }

  /** Runs in which no close finds the list call registered never cancel its request too late, in either way. */
  lemma NoSnapshotNoLateUse(steps: seq<Step>, id: Id)
    requires forall j: nat :: !FoundAt(steps, id, j)
    ensures !UsedStale(Run(steps), id) && !UsedNull(Run(steps), id)
  {
    UsesAreLate(steps, id);
    if pointer: bool, k: nat :| LateAt(steps, id, pointer, k) {
      var i := CancelledWasFound(steps, id, k);
    }
  }
}
