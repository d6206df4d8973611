/**
 Who can wait for whom around one replay and its outputs: callers waiting for the replay's gate or an output's,
 native calls made under a gate, native threads blocked on a full callback lane, callback workers whose handler
 is inside a call, and closes that drain a worker.

 Object 0 is the replay, the others are outputs; each has a gate, a queue and a callback worker. The worst case
 is assumed: a native play, seek, stop or close of the replay may return only once its callback worker has
 nothing left to do (`waits`). The other native calls, and what else is done under an output's gate, return by
 themselves, and do not deliver a reliable task on the worker's own thread. A step takes a gate together with
 the checks behind it, or is the return of one native call; a step the state does not allow changes nothing.
 */
module ReplayGate {
  import opened Common

  const CAPACITY: nat := 256

  const REPLAY: nat := 0

  /** `Bind` is an attach or a detach, which needs the gate of output `o` too; the rest are calls on the replay. */
  datatype Op = Play | Seek | Stop | Close | Other | Bind(o: nat) | CloseOutput(o: nat)

  /** The native calls that may wait for the replay's callback worker. */
  predicate MayWait(op: Op) { op.Play? || op.Seek? || op.Stop? || op.Close? }

  /** How far a call has come; a bind holds the replay's gate while it wants the output's. */
  datatype Caller =
    | Want(op: Op, waits: bool) | WantOutput(o: nat) | InNative(op: Op, waits: bool)
    | WantClose(o: nat) | InClose(o: nat)
    | ClosingQueue(q: nat) | AwaitWorker(q: nat) | Over

  /** `Calling` is a handler inside the call of that number. */
  datatype Worker = Idle | Handling | Calling(i: nat) | Stopped

  /** Somebody who can wait or be waited for; an outsider holds an output's gate for a snapshot or another replay. */
  datatype Node = WorkerOf(q: nat) | User(i: nat) | Producer(p: nat) | Outsider(o: nat)

  datatype Object = Object(gate: Option<Node>, closed: bool, lane: nat, queueClosed: bool, worker: Worker)

  const NEW_OBJECT := Object(None, false, 0, false, Idle)

  /** Calls are numbered in the order in which they began. */
  datatype State = State(objects: seq<Object>, callers: seq<Caller>, producers: set<nat>)

  const INITIAL := State([NEW_OBJECT], [], {})

  /** `within` is the object in whose handler a call is made, if any. */
  datatype Step =
    | NewOutput | Begin(within: Option<nat>, op: Op, waits: bool) | Post(q: nat, p: nat) | OutputTaken(o: nat)
    | CallerMoves(i: nat, ok: bool) | Unblock(p: nat) | WorkerMoves(q: nat) | OutputReturns(o: nat)

  /** New work from outside, as opposed to what is under way already. */
  predicate Input(step: Step) { step.NewOutput? || step.Begin? || step.Post? || step.OutputTaken? }

  ghost predicate Valid(s: State) { |s.objects| > 0 }

  predicate IsOutput(s: State, o: nat) { 0 < o < |s.objects| }

  predicate Ready(b: Object) { (b.worker.Idle? || b.worker.Stopped?) && b.lane == 0 }

  /** Nothing is left for the replay's callback worker. */
  predicate Quiet(s: State)
    requires Valid(s)
  {
    Ready(s.objects[REPLAY]) && s.producers == {}
  }

  function SetCaller(s: State, i: nat, c: Caller): State
    requires i < |s.callers|
  {
    s.(callers := s.callers[i := c])
  }

  function SetGate(s: State, q: nat, gate: Option<Node>): State
    requires q < |s.objects|
  {
    s.(objects := s.objects[q := s.objects[q].(gate := gate)])
  }

  function SetWorker(s: State, q: nat, w: Worker): State
    requires q < |s.objects|
  {
    s.(objects := s.objects[q := s.objects[q].(worker := w)])
  }

  /** The native close succeeded: the object is closed and its gate free, its queue still open. */
  function CloseObject(s: State, q: nat): State
    requires q < |s.objects|
  {
    s.(objects := s.objects[q := s.objects[q].(gate := None, closed := true)])
  }

  // ---- Calls --------------------------------------------------------------------------------

  /** What is checked under the gate: refused on a closed replay, and a close also unless the queue is ready. */
  predicate Admitted(s: State, op: Op)
    requires Valid(s)
  {
    !s.objects[REPLAY].closed && (op.Close? ==> Ready(s.objects[REPLAY]))
  }

  function Entered(op: Op, waits: bool): Caller {
    if op.Bind? then WantOutput(op.o) else InNative(op, waits && MayWait(op))
  }

  /**
   How a call begins, if it is not refused at once. Closing an output asks first whether its queue is idle. In the
   replay's own handler the long calls are refused, and the others only try the gate.
   */
  function Beginning(s: State, within: Option<nat>, op: Op, waits: bool): Option<Caller>
    requires Valid(s)
  {
    if (op.Bind? || op.CloseOutput?) && !IsOutput(s, op.o) then None
    else if op.CloseOutput? then if Ready(s.objects[op.o]) then Some(WantClose(op.o)) else None
    else if within != Some(REPLAY) then Some(Want(op, waits))
    else if op.Play? || op.Seek? || op.Stop? || s.objects[REPLAY].gate.Some? || !Admitted(s, op) then None
    else Some(Entered(op, waits))
  }

  function BeginStep(s: State, within: Option<nat>, op: Op, waits: bool): State
    requires Valid(s)
  {
    var c := Beginning(s, within, op, waits);
    if c.None? || (within.Some? && !(within.value < |s.objects| && s.objects[within.value].worker.Handling?)) then s
    else
      var t := s.(callers := s.callers + [c.value]);
      var u := if within.Some? then SetWorker(t, within.value, Calling(|s.callers|)) else t;
      if Holds(c.value, REPLAY) then SetGate(u, REPLAY, Some(User(|s.callers|))) else u
  }

  /** On the replay's gate, and behind it an output's. */
  function ReplayCall(s: State, i: nat, ok: bool): State
    requires Valid(s) && i < |s.callers|
  {
    match s.callers[i]
    case Want(op, waits) =>
      if s.objects[REPLAY].gate.Some? then s
      else if !Admitted(s, op) then SetCaller(s, i, Over)
      else SetGate(SetCaller(s, i, Entered(op, waits)), REPLAY, Some(User(i)))
    case WantOutput(o) =>
      if !IsOutput(s, o) || s.objects[o].gate.Some? then s
      else if s.objects[o].closed || !ok then SetGate(SetCaller(s, i, Over), REPLAY, None)
      else SetGate(SetCaller(s, i, InNative(Bind(o), false)), o, Some(User(i)))
    case InNative(op, waits) =>
      if waits && !Quiet(s) then s
      else if op.Close? && ok then CloseObject(SetCaller(s, i, ClosingQueue(REPLAY)), REPLAY)
      else
        var t := SetGate(SetCaller(s, i, Over), REPLAY, None);
        if op.Bind? && IsOutput(s, op.o) then SetGate(t, op.o, None) else t
    case _ => s
  }

  /** On an output's gate, and draining a queue behind a gate. */
  function CloseCall(s: State, i: nat, ok: bool): State
    requires Valid(s) && i < |s.callers|
  {
    match s.callers[i]
    case WantClose(o) =>
      if !IsOutput(s, o) || s.objects[o].gate.Some? then s
      else if s.objects[o].closed || !Ready(s.objects[o]) || !ok then SetCaller(s, i, Over)
      else SetGate(SetCaller(s, i, InClose(o)), o, Some(User(i)))
    case InClose(o) =>
      if !IsOutput(s, o) then s
      else if ok then CloseObject(SetCaller(s, i, ClosingQueue(o)), o)
      else SetGate(SetCaller(s, i, Over), o, None)
    case ClosingQueue(q) =>
      if q >= |s.objects| then s
      else
        SetCaller(s, i, AwaitWorker(q)).(objects := s.objects[q := s.objects[q].(queueClosed := true)])
    case AwaitWorker(q) => if q < |s.objects| && s.objects[q].worker.Stopped? then SetCaller(s, i, Over) else s
    case _ => s
  }

  predicate OnReplay(c: Caller) { c.Want? || c.WantOutput? || c.InNative? }

  function CallerStep(s: State, i: nat, ok: bool): State
    requires Valid(s) && i < |s.callers|
  {
    if OnReplay(s.callers[i]) then ReplayCall(s, i, ok) else CloseCall(s, i, ok)
  }

  // ---- Workers, native threads and outsiders ------------------------------------------------

  function WorkerStep(s: State, q: nat): State
    requires q < |s.objects|
  {
    var b := s.objects[q];
    match b.worker
    case Idle =>
      if b.lane > 0 then s.(objects := s.objects[q := b.(lane := b.lane - 1, worker := Handling)])
      else if b.queueClosed then SetWorker(s, q, Stopped) else s
    case Handling => SetWorker(s, q, Idle)
    case Calling(i) => if i < |s.callers| && s.callers[i].Over? then SetWorker(s, q, Handling) else s
    case Stopped => s
  }

  /** The replay's tasks must all be delivered, so their threads wait for room; an output's may be refused. */
  function PostStep(s: State, q: nat, p: nat): State
    requires q < |s.objects|
  {
    var b := s.objects[q];
    if b.queueClosed then s
    else if q == REPLAY && b.lane >= CAPACITY then s.(producers := s.producers + {p})
    else s.(objects := s.objects[q := b.(lane := b.lane + 1)])
  }

  function UnblockStep(s: State, p: nat): State
    requires Valid(s)
  {
    var b := s.objects[REPLAY];
    if p !in s.producers then s
    else if b.queueClosed then s.(producers := s.producers - {p})
    else if b.lane < CAPACITY then
      s.(producers := s.producers - {p}, objects := s.objects[REPLAY := b.(lane := b.lane + 1)])
    else s
  }

  function Next(s: State, step: Step): State
    requires Valid(s)
  {
    match step
    case NewOutput => s.(objects := s.objects + [NEW_OBJECT])
    case Begin(within, op, waits) => BeginStep(s, within, op, waits)
    case Post(q, p) => if q < |s.objects| then PostStep(s, q, p) else s
    case OutputTaken(o) =>
      if IsOutput(s, o) && s.objects[o].gate.None? then SetGate(s, o, Some(Outsider(o))) else s
    case CallerMoves(i, ok) => if i < |s.callers| then CallerStep(s, i, ok) else s
    case Unblock(p) => UnblockStep(s, p)
    case WorkerMoves(q) => if q < |s.objects| then WorkerStep(s, q) else s
    case OutputReturns(o) =>
      if IsOutput(s, o) && s.objects[o].gate == Some(Outsider(o)) then SetGate(s, o, None) else s
  }

  function Run(steps: seq<Step>): (s: State)
    ensures Valid(s)
  {
    if steps == [] then INITIAL else Next(Run(steps[..|steps| - 1]), steps[|steps| - 1])
  }

  // ---- What every reachable state keeps -----------------------------------------------------

  predicate Holds(c: Caller, q: nat) {
    match c
    case WantOutput(_) => q == REPLAY
    case InNative(op, _) => q == REPLAY || (op.Bind? && q == op.o)
    case InClose(o) => q == o
    case _ => false
  }

  predicate Closes(c: Caller, q: nat) {
    ((c.WantClose? || c.InClose?) && c.o == q) || ((c.ClosingQueue? || c.AwaitWorker?) && c.q == q)
  }

  ghost predicate GatesAgree(s: State) {
    && (forall i, q :: 0 <= i < |s.callers| && 0 <= q < |s.objects| ==>
          (Holds(s.callers[i], q) <==> s.objects[q].gate == Some(User(i))))
    && (forall q :: 0 <= q < |s.objects| && s.objects[q].gate.Some? ==>
          var x := s.objects[q].gate.value;
          (x.User? && x.i < |s.callers|) || (x == Outsider(q) && q != REPLAY))
  }

  predicate CallIsValid(s: State, c: Caller) {
    match c
    case Want(op, _) => (op.Bind? ==> IsOutput(s, op.o)) && !op.CloseOutput?
    case WantOutput(o) => IsOutput(s, o)
    case InNative(op, waits) =>
      (op.Bind? ==> IsOutput(s, op.o)) && !op.CloseOutput? && (waits ==> MayWait(op))
    case WantClose(o) => IsOutput(s, o)
    case InClose(o) => IsOutput(s, o)
    case ClosingQueue(q) => q < |s.objects|
    case AwaitWorker(q) => q < |s.objects| && s.objects[q].queueClosed
    case Over => true
  }

  ghost predicate CallsAreValid(s: State) {
    forall i :: 0 <= i < |s.callers| ==> CallIsValid(s, s.callers[i])
  }

  ghost predicate WorkersAgree(s: State)
    requires Valid(s)
  {
    && (forall q :: 0 <= q < |s.objects| && s.objects[q].worker.Calling? ==> s.objects[q].worker.i < |s.callers|)
    && (forall q :: 0 <= q < |s.objects| && s.objects[q].worker.Stopped? ==>
          s.objects[q].queueClosed && s.objects[q].lane == 0)
    && s.objects[REPLAY].lane <= CAPACITY
  }

  /** What a handler of the replay can be inside of. */
  predicate Modest(c: Caller) {
    !c.Want? && (c.InNative? ==> !MayWait(c.op)) && !Closes(c, REPLAY)
  }

  ghost predicate HandlerIsModest(s: State)
    requires Valid(s)
  {
    var w := s.objects[REPLAY].worker;
    w.Calling? && w.i < |s.callers| ==> Modest(s.callers[w.i])
  }

  /** A call that closes an output found its queue idle, so what the output's handlers call began later. */
  ghost predicate LaterCalls(s: State) {
    forall i, q :: 0 <= i < |s.callers| && 0 < q < |s.objects| && Closes(s.callers[i], q)
                   && s.objects[q].worker.Calling? ==>
                     i < s.objects[q].worker.i
  }

  ghost predicate Safe(s: State) {
    && Valid(s) && GatesAgree(s) && CallsAreValid(s) && WorkersAgree(s) && HandlerIsModest(s) && LaterCalls(s)
  }

  lemma BeginKeepsGates(s: State, within: Option<nat>, op: Op, waits: bool)
    requires Safe(s)
    ensures GatesAgree(BeginStep(s, within, op, waits))
  {
  }

  lemma BeginKeepsLater(s: State, within: Option<nat>, op: Op, waits: bool)
    requires Safe(s)
    ensures LaterCalls(BeginStep(s, within, op, waits))
  {
  }

  lemma BeginIsSafe(s: State, within: Option<nat>, op: Op, waits: bool)
    requires Safe(s)
    ensures Safe(BeginStep(s, within, op, waits))
  {
    BeginKeepsGates(s, within, op, waits);
    BeginKeepsLater(s, within, op, waits);
  }

  /** What a call's step can change: its own entry, gates, two flags; no queue and no worker. */
  lemma CallerStepEffect(s: State, i: nat, ok: bool)
    requires Safe(s) && i < |s.callers|
    ensures var t := CallerStep(s, i, ok);
      && |t.objects| == |s.objects| && |t.callers| == |s.callers| && t.producers == s.producers
      && t.callers == s.callers[i := t.callers[i]]
      && (forall q :: 0 <= q < |s.objects| ==>
            && t.objects[q].worker == s.objects[q].worker && t.objects[q].lane == s.objects[q].lane
            && (s.objects[q].queueClosed ==> t.objects[q].queueClosed))
  {
  }

  lemma CallerStepOwn(s: State, i: nat, ok: bool)
    requires Safe(s) && i < |s.callers|
    ensures var t := CallerStep(s, i, ok);
      && |t.callers| == |s.callers|
      && CallIsValid(t, t.callers[i])
      && (Modest(s.callers[i]) ==> Modest(t.callers[i]))
      && (forall q :: q != REPLAY && Closes(t.callers[i], q) ==> Closes(s.callers[i], q))
  {
  }

  lemma NativeReturnKeepsGates(s: State, i: nat, ok: bool)
    requires Safe(s) && i < |s.callers| && s.callers[i].InNative?
    ensures GatesAgree(ReplayCall(s, i, ok))
  {
  }

  lemma ReplayCallKeepsGates(s: State, i: nat, ok: bool)
    requires Safe(s) && i < |s.callers| && OnReplay(s.callers[i])
    ensures GatesAgree(ReplayCall(s, i, ok))
  {
    if s.callers[i].InNative? {
      NativeReturnKeepsGates(s, i, ok);
    }
  }

  lemma DrainKeepsGates(s: State, i: nat, ok: bool)
    requires Safe(s) && i < |s.callers| && (s.callers[i].ClosingQueue? || s.callers[i].AwaitWorker?)
    ensures GatesAgree(CloseCall(s, i, ok))
  {
  }

  lemma CloseCallKeepsGates(s: State, i: nat, ok: bool)
    requires Safe(s) && i < |s.callers| && !OnReplay(s.callers[i])
    ensures GatesAgree(CloseCall(s, i, ok))
  {
    if s.callers[i].ClosingQueue? || s.callers[i].AwaitWorker? {
      DrainKeepsGates(s, i, ok);
    }
  }

  lemma CallerStepIsSafe(s: State, i: nat, ok: bool)
    requires Safe(s) && i < |s.callers|
    ensures Safe(CallerStep(s, i, ok))
  {
    CallerStepEffect(s, i, ok);
    CallerStepOwn(s, i, ok);
    if OnReplay(s.callers[i]) {
      ReplayCallKeepsGates(s, i, ok);
    } else {
      CloseCallKeepsGates(s, i, ok);
    }
  }

  predicate OnQueue(step: Step) { step.Post? || step.Unblock? || step.WorkerMoves? }

  lemma QueueStepEffect(s: State, step: Step)
    requires Safe(s) && OnQueue(step)
    ensures var t := Next(s, step);
      && t.callers == s.callers && |t.objects| == |s.objects|
      && forall q :: 0 <= q < |s.objects| ==>
           && t.objects[q].gate == s.objects[q].gate && t.objects[q].queueClosed == s.objects[q].queueClosed
           && (t.objects[q].worker.Calling? ==> t.objects[q].worker == s.objects[q].worker)
  {
  }

  lemma SameGatesAgree(s: State, t: State)
    requires GatesAgree(s) && t.callers == s.callers && |t.objects| == |s.objects|
    requires forall q :: 0 <= q < |s.objects| ==> t.objects[q].gate == s.objects[q].gate
    ensures GatesAgree(t)
  {
  }

  lemma QueueStepsKeepWorkers(s: State, step: Step)
    requires Safe(s) && OnQueue(step)
    ensures WorkersAgree(Next(s, step))
  {
  }

  lemma QueueStepsAreSafe(s: State, step: Step)
    requires Safe(s) && OnQueue(step)
    ensures Safe(Next(s, step))
  {
    QueueStepEffect(s, step);
    QueueStepsKeepWorkers(s, step);
    SameGatesAgree(s, Next(s, step));
  }

  predicate OnOutput(step: Step) { step.NewOutput? || step.OutputTaken? || step.OutputReturns? }

  lemma OutputStepsAreSafe(s: State, step: Step)
    requires Safe(s) && OnOutput(step)
    ensures Safe(Next(s, step))
  {
  }

  lemma NextIsSafe(s: State, step: Step)
    requires Safe(s)
    ensures Safe(Next(s, step))
  {
    match step
    case Begin(within, op, waits) => BeginIsSafe(s, within, op, waits);
    case CallerMoves(i, ok) =>
      if i < |s.callers| {
        CallerStepIsSafe(s, i, ok);
      }
    case _ =>
      if OnQueue(step) {
        QueueStepsAreSafe(s, step);
      } else {
        OutputStepsAreSafe(s, step);
      }
  }

  lemma {:induction false} RunIsSafe(steps: seq<Step>)
    ensures Safe(Run(steps))
  {
    if steps != [] {
      RunIsSafe(steps[..|steps| - 1]);
      NextIsSafe(Run(steps[..|steps| - 1]), steps[|steps| - 1]);
    }
  }
}
