/**
 The mailbox under any number of posters, closers and waiters, with its drain goroutines explicit.
 A step is one section between taking and releasing the mailbox lock; a step the state does not allow
 changes nothing. Handlers return; a handler that panics ends the process and is not modelled.
 */
module MailboxProtocol {
  import opened Common
  import opened MailboxSpec

  datatype Drainer = AtTop | InHandler(fn: Handler)

  datatype Waiter = Arrived | Asleep | Returned

  /** `gate` records that some closer's beginClose succeeded and it has neither cancelled nor finished yet. */
  datatype State = State(box: Box, drainers: map<nat, Drainer>, born: nat, gate: bool,
                         waiters: map<nat, Waiter>, condition: bool)

  datatype Step =
    | Post(target: Target, fn: Handler)
    | DrainerTop(id: nat)
    | DrainerReturns(id: nat)
    | Begin
    | Cancel
    | Finish
    | Unpause
    | ArriveWaiter(id: nat)
    | ResumeWaiter(id: nat)

  function Initial(paused: bool): State {
    State(Empty(paused), map[], 0, false, map[], false)
  }

  /** Publishes a new mailbox state; a goroutine is born exactly when `draining` goes up. */
  function WithBox(s: State, b: Box): State {
    if b.draining && !s.box.draining
    then s.(box := b, drainers := s.drainers[s.born := AtTop], born := s.born + 1)
    else s.(box := b)
  }

  function Broadcast(s: State): State {
    if !s.condition then s
    else s.(waiters := map id | id in s.waiters :: if s.waiters[id].Asleep? then Arrived else s.waiters[id])
  }

  predicate Busy(b: Box) {
    b.inHandler != 0 || b.draining || b.HasEvents()
  }

  function DrainerStep(s: State, id: nat): State
    requires id in s.drainers
  {
    match s.drainers[id]
    case AtTop =>
      var (b, event) := Drained(s.box);
      if event.None? then Broadcast(s.(box := b, drainers := s.drainers - {id}))
      else s.(box := b, drainers := s.drainers[id := InHandler(event.value.fn)])
    case InHandler(_) => s
  }

  function Next(s: State, step: Step): State {
    match step
    case Post(target, fn) => WithBox(s, Posted(s.box, target, fn).0)
    case DrainerTop(id) => if id in s.drainers then DrainerStep(s, id) else s
    case DrainerReturns(id) =>
      if id in s.drainers && s.drainers[id].InHandler?
      then Broadcast(s.(box := HandlerReturned(s.box), drainers := s.drainers[id := AtTop]))
      else s
    case Begin =>
      if s.box.closed || BeganClose(s.box).1 != Ok then s
      else Broadcast(s.(box := BeganClose(s.box).0, gate := true))
    case Cancel => if s.gate then Broadcast(WithBox(s, CancelledClose(s.box)).(gate := false)) else s
    case Finish => if s.gate then Broadcast(s.(box := FinishedClose(s.box), gate := false)) else s
    case Unpause => WithBox(s, Unpaused(s.box))
    case ArriveWaiter(id) => if id in s.waiters then s else s.(waiters := s.waiters[id := Arrived])
    case ResumeWaiter(id) =>
      if id in s.waiters && s.waiters[id].Arrived?
      then s.(condition := true, waiters := s.waiters[id := if Busy(s.box) then Asleep else Returned])
      else s
  }

  function Run(paused: bool, steps: seq<Step>): State {
    if steps == [] then Initial(paused)
    else Next(Run(paused, steps[..|steps| - 1]), steps[|steps| - 1])
  }

  /** One live goroutine when `draining`, none otherwise, and `inHandler` counts handlers in progress. */
  ghost predicate DrainersAgree(s: State) {
    && (s.box.draining <==> s.drainers.Keys != {})
    && (forall i, j :: i in s.drainers && j in s.drainers ==> i == j)
    && (forall i :: i in s.drainers ==> i < s.born)
    && s.box.inHandler <= 1
    && (s.box.inHandler == 1 <==> exists i :: i in s.drainers && s.drainers[i].InHandler?)
  }

  predicate NothingStranded(b: Box) {
    b.HasEvents() && !b.paused && !b.closing && !b.closed ==> b.draining
  }

  predicate GateHolds(s: State) {
    && (s.gate <==> s.box.closing)
    && (s.box.closing || s.box.closed ==> s.box.inHandler == 0 && !s.box.HasEvents())
    && !(s.box.closing && s.box.closed)
  }

  ghost predicate SleepersHaveReason(s: State) {
    forall id :: id in s.waiters && s.waiters[id].Asleep? ==> s.condition && Busy(s.box)
  }

  ghost predicate Safe(s: State) {
    DrainersAgree(s) && NothingStranded(s.box) && GateHolds(s) && SleepersHaveReason(s)
  }

  lemma TakeChangesLanesOnly(b: Box)
    ensures var (c, event) := TakeNext(b);
      && c.(data := b.data, control := b.control, latest := b.latest, terminal := b.terminal,
            stopRequest := b.stopRequest) == b
      && (event.None? ==> !b.HasEvents())
  {
    if TakeNext(b).1.None? {
      NothingOldest(b);
    }
  }

  lemma NothingOldest(b: Box)
    requires Oldest(b).None?
    ensures b.data == [] && b.control == [] && b.terminal.None? && forall k :: 0 <= k < |b.latest| ==> b.latest[k].None?
  {
    NothingLatest(b, 0, Prefer(Prefer(None, Data, b.data), Control, b.control));
    assert At(b, Terminal) == [] <==> b.terminal.None?;
  }

  lemma NothingLatest(b: Box, from: nat, best: Option<Stamped>)
    requires from <= |b.latest| && PreferLatest(b, from, best).None?
    ensures best.None? && forall k :: from <= k < |b.latest| ==> b.latest[k].None?
    decreases |b.latest| - from
  {
    if from < |b.latest| {
      NothingLatest(b, from + 1, Prefer(best, Latest(from), At(b, Latest(from))));
      assert At(b, Latest(from)) == [] <==> b.latest[from].None?;
    }
  }

  lemma DrainerTopIsSafe(s: State, id: nat)
    requires Safe(s) && id in s.drainers
    ensures Safe(DrainerStep(s, id))
  {
    TakeChangesLanesOnly(s.box);
    var t := DrainerStep(s, id);
    if s.drainers[id].AtTop? && Drained(s.box).1.None? {
      assert s.drainers.Keys == {id};
      assert t.drainers.Keys == {};
    }
  }

  lemma GateStepIsSafe(s: State, step: Step)
    requires Safe(s) && (step.Begin? || step.Cancel? || step.Finish?)
    ensures Safe(Next(s, step))
  {
  }

  lemma ScheduleIsSafe(s: State, b: Box)
    requires Safe(s)
    requires b.inHandler == s.box.inHandler && b.closing == s.box.closing && b.closed == s.box.closed
    requires s.box.draining ==> b.draining
    requires NothingStranded(b) && (b.HasEvents() ==> s.box.HasEvents() || (!b.closing && !b.closed))
    requires s.box.HasEvents() ==> b.HasEvents()
    ensures Safe(WithBox(s, b))
  {
    var t := WithBox(s, b);
    if b.draining && !s.box.draining {
      assert s.drainers.Keys == {};
      assert t.drainers.Keys == {s.born};
    }
  }

  lemma PostedHasEvents(b: Box, target: Target, fn: Handler)
    ensures var c := Posted(b, target, fn).0;
      b.HasEvents() ==> c.HasEvents()
  {
    if target.ToLatest? && 0 <= target.slot < |b.latest| {
      var c := Posted(b, target, fn).0;
      assert c.latest == b.latest || c.latest[target.slot].Some?;
      if k :| 0 <= k < |b.latest| && b.latest[k].Some? {
        assert c.latest[k].Some?;
      }
    }
  }

  lemma NextIsSafe(s: State, step: Step)
    requires Safe(s)
    ensures Safe(Next(s, step))
  {
    match step
    case Post(target, fn) =>
      PostedHasEvents(s.box, target, fn);
      ScheduleIsSafe(s, Posted(s.box, target, fn).0);
    case Unpause => ScheduleIsSafe(s, Unpaused(s.box));
    case DrainerTop(id) => if id in s.drainers { DrainerTopIsSafe(s, id); }
    case DrainerReturns(id) =>
      var t := Next(s, step);
      if id in s.drainers && s.drainers[id].InHandler? {
        assert t.drainers.Keys == s.drainers.Keys;
      }
    case Begin => GateStepIsSafe(s, step);
    case Cancel => GateStepIsSafe(s, step);
    case Finish => GateStepIsSafe(s, step);
    case _ =>
  }

  lemma {:induction false} RunIsSafe(paused: bool, steps: seq<Step>)
    ensures Safe(Run(paused, steps))
  {
    if steps != [] {
      RunIsSafe(paused, steps[..|steps| - 1]);
      NextIsSafe(Run(paused, steps[..|steps| - 1]), steps[|steps| - 1]);
    }
  }

  /**
   There is one live goroutine while `draining` and none otherwise; handlers never overlap, and none runs while
   a close is under way or after one has finished.
   */
  lemma HandlersAreSerialAndGated(paused: bool, steps: seq<Step>, i: nat, j: nat)
    ensures var s := Run(paused, steps);
      && (s.box.draining <==> s.drainers.Keys != {}) && s.box.inHandler <= 1
      && (i in s.drainers && j in s.drainers ==> i == j)
      && (i in s.drainers && s.drainers[i].InHandler? ==> !s.gate && !s.box.closed && s.box.inHandler == 1)
  {
    RunIsSafe(paused, steps);
  }

  lemma ClosedStays(s: State, step: Step)
    requires s.box.closed
    ensures Next(s, step).box.closed
  {
  }

  lemma LastStepStaysClosed(paused: bool, steps: seq<Step>)
    requires steps != [] && Run(paused, steps[..|steps| - 1]).box.closed
    ensures Run(paused, steps).box.closed
  {
    ClosedStays(Run(paused, steps[..|steps| - 1]), steps[|steps| - 1]);
  }

  lemma {:induction false} StaysClosed(paused: bool, steps: seq<Step>, more: seq<Step>)
    requires Run(paused, steps).box.closed
    ensures Run(paused, steps + more).box.closed
  {
    if more == [] {
      assert steps + more == steps;
    } else {
      var last := |more| - 1;
      StaysClosed(paused, steps, more[..last]);
      assert (steps + more)[..|steps + more| - 1] == steps + more[..last];
      LastStepStaysClosed(paused, steps + more);
    }
  }

  /** After finishClose no event is ever pending or handled again, whatever is called. */
  lemma ClosedIsForever(paused: bool, steps: seq<Step>, more: seq<Step>)
    requires Run(paused, steps).box.closed
    ensures var t := Run(paused, steps + more);
      t.box.closed && !t.box.HasEvents() && forall i :: i in t.drainers ==> t.drainers[i].AtTop?
  {
    StaysClosed(paused, steps, more);
    RunIsSafe(paused, steps + more);
  }

  /** Pending events of an open, unpaused mailbox always have a live goroutine that will take one or finish. */
  lemma PendingIsServed(paused: bool, steps: seq<Step>) returns (id: nat)
    requires var b := Run(paused, steps).box; b.HasEvents() && !b.paused && !b.closing && !b.closed
    ensures var s := Run(paused, steps); id in s.drainers && s.drainers.Keys == {id}
    ensures var s := Run(paused, steps); s.drainers[id].AtTop? ==> Next(s, DrainerTop(id)).box.inHandler == 1
  {
    RunIsSafe(paused, steps);
    var s := Run(paused, steps);
    id :| id in s.drainers;
    TakeChangesLanesOnly(s.box);
  }

  /** A sleeping waiter always has a reason; unless the mailbox is paused, a live goroutine is that reason. */
  lemma SleepersAreServed(paused: bool, steps: seq<Step>, id: nat)
    requires id in Run(paused, steps).waiters && Run(paused, steps).waiters[id].Asleep?
    ensures Busy(Run(paused, steps).box)
    ensures !Run(paused, steps).box.paused ==> exists d :: d in Run(paused, steps).drainers
  {
    RunIsSafe(paused, steps);
    var s := Run(paused, steps);
    if !s.box.paused {
      assert s.box.draining;
      assert s.drainers.Keys != {};
      var d :| d in s.drainers.Keys;
      assert d in s.drainers;
    }
  }
}
