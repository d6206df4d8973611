/** The storage client's registry of children as an object: what its methods do when nothing interferes. */
module StorageClients {
  import opened Common
  import opened StorageChildren

  class Client {
    var children: map<Id, Kind>
    var closing: bool
    var closed: bool
    ghost var destroys: nat
    ghost var created: set<Id>
    ghost var retired: set<Id>

    /** Every child ever created is registered or retired, and a closed client has none left. */
    ghost predicate Valid()
      reads this
    {
      && children.Keys <= created && retired <= created
      && created <= children.Keys + retired
      && destroys == (if closed then 1 else 0)
      && (closed ==> created <= retired)
    }

    constructor ()
      ensures Valid() && !closing && !closed && created == {}
    {
      children, closing, closed, destroys, created, retired := map[], false, false, 0, {}, {};
    }

    /** Opens the device and registers the child in one gate section, unless a close has been observed. */
    method Create(id: Id, kind: Kind, device: int, code: int) returns (outcome: Outcome)
      requires Valid() && id !in created
      modifies this
      ensures Valid() && closed == old(closed) && closing == old(closing) && retired == old(retired)
      ensures outcome == if closed || closing then Err(Closed)
                         else if device != 0 then OutcomeOf(device)
                         else OutcomeOf(code)
      ensures created == (if outcome.Ok? then old(created) + {id} else old(created))
      ensures children == (if outcome.Ok? then old(children)[id := kind] else old(children))
    {
      if closed || closing {
        return Err(Closed);
      }
      outcome := if device != 0 then OutcomeOf(device) else OutcomeOf(code);
      if outcome.Ok? {
        children, created := children[id := kind], created + {id};
      }
    }

    /**
     Closes one registered child the way its kind does it. A child that is gone has left the registry; an error
     stops the client's close unless the child is a replay that is gone.
     */
    method CloseChild(id: Id, a: Answers) returns (stops: bool)
      requires Valid() && id in children && !closed
      modifies this
      ensures Valid() && created == old(created) && closing == old(closing) && !closed
      ensures stops <==>
        match old(children)[id]
        case Replay => !ReplayCloses(a.held, a.replay)
        case Export => ExportClose(None, a.task).1.Err?
        case Call => false
      ensures id !in children <==>
        match old(children)[id]
        case Replay => ReplayCloses(a.held, a.replay)
        case Export => ExportClose(None, a.task).0.Some?
        case Call => true
      ensures if id in children then children == old(children) && retired == old(retired)
              else children == old(children) - {id} && retired == old(retired) + {id}
    {
      var reply := Reply(true, Ok);
      match children[id] {
        case Replay => reply := ReplayReply(false, a.held, a.replay);
        case Export =>
          var (final, outcome) := ExportClose(None, a.task);
          reply := Reply(final.Some?, outcome);
        case Call =>
      }
      stops := reply.outcome.Err? && !(children[id].Replay? && reply.gone);
      if reply.gone {
        children, retired := children - {id}, retired + {id};
      }
    }

    /** Closes the registered children one by one, with arbitrary answers, up to the first that stops the close. */
    method CloseChildren() returns (stopped: bool)
      requires Valid() && !closed
      modifies this
      ensures Valid() && created == old(created) && closing == old(closing) && !closed
      ensures old(retired) <= retired
      ensures !stopped ==> children.Keys == {}
    {
      while children.Keys != {}
        invariant Valid() && created == old(created) && old(retired) <= retired
        invariant closing == old(closing) && !closed
        decreases |children.Keys|
      {
        var id :| id in children.Keys;
        var answers: Answers := *;
        ghost var before := children.Keys;
        stopped := CloseChild(id, answers);
        if stopped {
          return;
        }
        assert children.Keys == before - {id};
      }
      stopped := false;
    }

    /**
     Closes the client. `busy` children fail their preflight, which changes nothing; the answers of the child
     closes and of the native destroy are arbitrary. The native client is destroyed exactly when every child
     ever created is retired and its own close succeeds; after any failure the client can be closed again.
     */
    method Close(idle: bool, busy: set<Id>, native: int) returns (outcome: Outcome)
      requires Valid()
      modifies this
      ensures Valid() && created == old(created) && old(retired) <= retired
      ensures closing == old(closing)
      ensures outcome.Ok? ==> closed && idle
      ensures closed ==> created == retired && destroys == 1
      ensures closed && !old(closed) ==> idle && native == 0 && old(children).Keys * busy == {}
      ensures old(closed) || old(closing) || !idle || old(children).Keys * busy != {} ==> unchanged(this)
    {
      if !idle {
        return Err(InUse);
      }
      if closed {
        return Ok;
      }
      if closing || children.Keys * busy != {} {
        return Err(InUse);
      }
      closing := true;
      var stopped := CloseChildren();
      if stopped {
        closing := false;
        return Err(InUse);
      }
      outcome := OutcomeOf(native);
      if outcome.Ok? {
        closed, destroys := true, destroys + 1;
      }
      closing := false;
    }
  }
}

/**
 Closing the storage client while creations, list calls, exports and replays go on in other threads.

 The client's gate is held by one creation or by the close's own sections; only one close is past the flag, so
 its progress is the client's `phase`. A step the state does not allow changes nothing. `misuse` records a
 native call on the client, or on something opened from it, after the native client was destroyed. Two things
 are recorded by themselves: how each list call's request was cancelled, and when a replay's device was closed.
 */
module StorageRegistryProtocol {
  import opened Common
  import opened ExportOutcome
  import opened StorageChildren

  datatype Gate = Open | Creating(id: Id, kind: Kind) | Destroying

  /**
   A close cancels a list call in two steps: it loads the request's pointer (`Loaded` says whether there was one),
   then makes the native call. After that it is `Awaiting` the end of the call.
   */
  datatype Phase =
    | Idle
    | Preflight(rest: set<Id>, all: set<Id>)
    | Each(rest: set<Id>)
    | Loaded(id: Id, pointer: bool, rest: set<Id>)
    | Awaiting(id: Id, rest: set<Id>)
    | AtGate
    | GivingUp

  datatype Registry =
    Registry(gate: Gate, phase: Phase, closing: bool, closed: bool, destroys: nat, children: set<Id>)

  datatype State = State(client: Registry, kids: map<Id, Child>, misuse: bool)

  datatype Step =
    | OpenDevice(id: Id, kind: Kind, ok: bool)
    | CreationReturns(ok: bool)
    | CloseReplay(id: Id) | CloseDevice(id: Id)
    | FinishExport(id: Id, final: Final)
    | CancelCall(id: Id) | CompleteCall(id: Id, byItself: bool)
    | DestroyRequest(id: Id, ok: bool) | ClearPointer(id: Id) | FinishCall(id: Id)
    | Unregister(id: Id)
    | BeginClose(idle: bool)
    | Work(id: Id, ok: bool, answers: Answers)

  const INITIAL := State(Registry(Open, Idle, false, false, 0, {}), map[], false)

  function Used(s: State): State { s.(misuse := s.misuse || s.client.destroys > 0) }

  function To(s: State, phase: Phase): State { s.(client := s.client.(phase := phase)) }

  /** A failed close only gives the flag back. */
  function Fail(s: State): State { s.(client := s.client.(phase := Idle, closing := false)) }

  function SetKid(s: State, id: Id, kid: Child): State { s.(kids := s.kids[id := kid]) }

  function Forget(s: State, id: Id): State { s.(client := s.client.(children := s.client.children - {id})) }

  // ---- Creation -----------------------------------------------------------------------------

  function CreateStep(s: State, step: Step): State {
    match step
    case OpenDevice(id, kind, ok) =>
      if !s.client.gate.Open? || id in s.kids || s.client.closed || s.client.closing then s
      else if ok then Used(s).(client := s.client.(gate := Creating(id, kind)))
      else Used(s)
    case CreationReturns(ok) =>
      if !s.client.gate.Creating? then s
      else
        var (id, kind) := (s.client.gate.id, s.client.gate.kind);
        if !ok || id in s.kids then Used(s).(client := s.client.(gate := Open))
        else SetKid(Used(s), id, NewChild(kind))
               .(client := s.client.(gate := Open, children := s.client.children + {id}))
    case _ => s
  }

  // ---- What the children do by themselves ---------------------------------------------------

  /** The list call's own thread, and the completion of its request. */
  function CallStep(s: State, step: Step, id: Id, r: Request): State {
    match step
    case CancelCall(_) => if r.ended || r.destroys > 0 then s else SetKid(Used(s), id, OfCall(Cancelled(r, true)))
    case CompleteCall(_, byItself) => SetKid(s, id, OfCall(Completed(r, byItself)))
    case DestroyRequest(_, ok) =>
      if Destroyable(r) then SetKid(Used(s), id, OfCall(NativelyDestroyed(r, ok))) else s
    case ClearPointer(_) => SetKid(s, id, OfCall(PointerCleared(r)))
    case FinishCall(_) =>
      if r.ended && id !in s.client.children then SetKid(s, id, OfCall(r.(finished := true))) else s
    case _ => s
  }

  predicate OnChild(step: Step) {
    step.CloseReplay? || step.CloseDevice? || step.FinishExport? || step.CancelCall? || step.CompleteCall?
    || step.DestroyRequest? || step.ClearPointer? || step.FinishCall? || step.Unregister?
  }

  /** A replay's own close: the native close, and the device's once the replay has left the registry. */
  function ReplayStep(s: State, step: Step, id: Id, closed: bool, device: Device): State {
    match step
    case CloseReplay(_) => if closed then s else SetKid(Used(s), id, OfReplay(true, device))
    case CloseDevice(_) =>
      if !closed || id in s.client.children || device.Dropped? then s
      else SetKid(s, id, OfReplay(true, Dropped(s.client.destroys > 0)))
    case _ => s
  }

  /** A child retires, and leaves the registry one section later. */
  function ChildStep(s: State, step: Step): State
    requires OnChild(step)
  {
    if step.id !in s.kids then s
    else if step.Unregister? then if s.kids[step.id].Retired() then Forget(s, step.id) else s
    else match s.kids[step.id]
      case OfReplay(closed, device) => ReplayStep(s, step, step.id, closed, device)
      case OfExport(final) =>
        if step.FinishExport? && final.None? then SetKid(Used(s), step.id, OfExport(Some(step.final))) else s
      case OfCall(r) => CallStep(s, step, step.id, r)
  }

  // ---- The close in progress ----------------------------------------------------------------

  /**
   Closes one child of the snapshot. A retired export that is still registered has a Wait under way, which the
   close waits for; a list call is to be cancelled first, whatever it has come to. The preflight has made sure
   that this is no handler of the export.
   */
  function CloseKid(s: State, id: Id, a: Answers): State
    requires s.client.phase.Each? && id in s.client.phase.rest && id in s.kids
  {
    var rest := s.client.phase.rest - {id};
    match s.kids[id]
    case OfReplay(closed, _) =>
      if closed then To(s, Each(rest))
      else if !ReplayReply(closed, a.held, a.replay).gone then Fail(Used(s))
      else To(Forget(SetKid(Used(s), id, OfReplay(true, Dropped(s.client.destroys > 0))), id), Each(rest))
    case OfExport(final) =>
      if final.Some? && id in s.client.children then s
      else
        var (after, outcome) := ExportClose(final, a.task.(inHandler := false));
        var t := if final.Some? then s else Used(s);
        var u := if after.Some? then Forget(SetKid(t, id, OfExport(after)), id) else t;
        if outcome.Err? then Fail(u) else To(u, Each(rest))
    case OfCall(r) => To(s, Loaded(id, r.pointer, rest))
  }

  function CancelKid(s: State, id: Id, pointer: bool, rest: set<Id>): State {
    if id in s.kids && s.kids[id].OfCall? then
      To(SetKid(Used(s), id, OfCall(Cancelled(s.kids[id].request, pointer))), Awaiting(id, rest))
    else s
  }

  predicate Finished(s: State, id: Id) {
    id in s.kids && s.kids[id].OfCall? && s.kids[id].request.finished
  }

  function GateWork(s: State, ok: bool): State {
    if s.client.gate.Open? then s.(client := s.client.(gate := Destroying))
    else if !s.client.gate.Destroying? then s
    else if ok then
      Used(s).(client := s.client.(gate := Open, phase := Idle, closing := false, closed := true,
                                   destroys := s.client.destroys + 1))
    else Used(s).(client := s.client.(gate := Open, phase := GivingUp))
  }

  function CloseWork(s: State, id: Id, ok: bool, a: Answers): State {
    match s.client.phase
    case Idle => s
    case Preflight(rest, all) =>
      if rest == {} then To(s, Each(all))
      else if id !in rest then s
      else if ok then To(s, Preflight(rest - {id}, all))
      else Fail(s)
    case Each(rest) =>
      if rest == {} then To(s, AtGate)
      else if id in rest && id in s.kids then CloseKid(s, id, a)
      else s
    case Loaded(call, pointer, rest) => CancelKid(s, call, pointer, rest)
    case Awaiting(call, rest) => if Finished(s, call) then To(s, Each(rest)) else s
    case AtGate => GateWork(s, ok)
    case GivingUp => Fail(s)
  }

  function Next(s: State, step: Step): State {
    if step.BeginClose? then
      if !step.idle || !s.client.gate.Open? || s.client.closed || s.client.closing then s
      else s.(client := s.client.(closing := true, phase := Preflight(s.client.children, s.client.children)))
    else if step.Work? then CloseWork(s, step.id, step.ok, step.answers)
    else if OnChild(step) then ChildStep(s, step)
    else CreateStep(s, step)
  }

  function Run(steps: seq<Step>): State {
    if steps == [] then INITIAL else Next(Run(steps[..|steps| - 1]), steps[|steps| - 1])
  }

  // ---- What every reachable state keeps -----------------------------------------------------

  /** Every child that is not retired is found in `among`. */
  ghost predicate AliveOnly(s: State, among: set<Id>) {
    forall id :: id in s.kids && !s.kids[id].Retired() ==> id in among
  }

  ghost predicate PhaseAgrees(s: State) {
    match s.client.phase
    case Preflight(rest, all) => AliveOnly(s, all) && rest <= all <= s.kids.Keys
    case Each(rest) => AliveOnly(s, rest) && rest <= s.kids.Keys
    case Loaded(call, pointer, rest) =>
      && AliveOnly(s, rest + {call}) && rest <= s.kids.Keys
      && call in s.kids && s.kids[call].OfCall? && (!pointer ==> !s.kids[call].request.pointer)
    case Awaiting(call, rest) =>
      && AliveOnly(s, rest + {call}) && rest <= s.kids.Keys
      && call in s.kids && s.kids[call].OfCall? && (s.kids[call].request.cancelled || s.kids[call].request.complete)
    case AtGate => AliveOnly(s, {})
    case _ => true
  }

  ghost predicate FlagsAgree(c: Registry) {
    && c.destroys == (if c.closed then 1 else 0)
    && c.closing == !c.phase.Idle?
    && (c.closed ==> c.phase.Idle? && c.gate.Open?)
    && (c.gate.Creating? ==> !c.closing && !c.closed)
    && (c.gate.Destroying? ==> c.phase.AtGate?)
  }

  ghost predicate RequestsAgree(s: State) {
    forall id :: id in s.kids && s.kids[id].OfCall? ==>
      var r := s.kids[id].request;
      && r.destroys <= 1 && (r.destroys > 0 || r.ended ==> r.complete)
      && (!r.pointer <==> r.ended && r.destroys > 0) && (r.finished ==> r.ended)
      && (r.staleUse ==> r.destroys > 0) && (r.nullUse ==> !r.pointer)
  }

  ghost predicate DevicesAgree(s: State) {
    forall id :: id in s.kids && s.kids[id].OfReplay? && s.kids[id].device.Dropped? ==> s.kids[id].closed
  }

  ghost predicate Safe(s: State) {
    && !s.misuse
    && FlagsAgree(s.client)
    && (s.client.closed ==> AliveOnly(s, {}))
    && AliveOnly(s, s.client.children) && s.client.children <= s.kids.Keys
    && RequestsAgree(s) && DevicesAgree(s)
    && PhaseAgrees(s)
  }

  lemma CreateStepIsSafe(s: State, step: Step)
    requires Safe(s)
    ensures Safe(CreateStep(s, step))
  {
  }

  lemma ChildStepIsSafe(s: State, step: Step)
    requires Safe(s) && OnChild(step)
    ensures Safe(ChildStep(s, step))
  {
  }

  lemma CloseKidIsSafe(s: State, id: Id, a: Answers)
    requires Safe(s) && s.client.phase.Each? && id in s.client.phase.rest && id in s.kids
    ensures Safe(CloseKid(s, id, a))
  {
  }

  lemma CloseWorkIsSafe(s: State, id: Id, ok: bool, a: Answers)
    requires Safe(s)
    ensures Safe(CloseWork(s, id, ok, a))
  {
    if s.client.phase.Each? && id in s.client.phase.rest && id in s.kids {
      CloseKidIsSafe(s, id, a);
    }
  }

  lemma NextIsSafe(s: State, step: Step)
    requires Safe(s)
    ensures Safe(Next(s, step))
  {
    if step.Work? {
      CloseWorkIsSafe(s, step.id, step.ok, step.answers);
    } else if OnChild(step) {
      ChildStepIsSafe(s, step);
    } else if !step.BeginClose? {
      CreateStepIsSafe(s, step);
    }
  }

  lemma {:induction false} RunIsSafe(steps: seq<Step>)
    ensures Safe(Run(steps))
  {
    if steps != [] {
      RunIsSafe(steps[..|steps| - 1]);
      NextIsSafe(Run(steps[..|steps| - 1]), steps[|steps| - 1]);
    }
  }
}
