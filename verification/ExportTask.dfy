/** How an export's native answers become its result. */
module ExportOutcome {

  const CODE_CANCELLED: int := 6115
  const CODE_STOPPED: int := 6124

  /** `Wrapped` is an error reported as cancelled, possibly carrying the context's error as well. */
  datatype Failure = NoFailure | Plain(code: int) | Wrapped(code: int, withContext: bool) | TaskClosed

  datatype Final = Final(hasFile: bool, failure: Failure)

  /** The first failing answer, in the order wait, report, native close, device close. */
  function FirstCode(wait: int, report: int, close: int, device: int): int {
    if wait != 0 then wait
    else if report != 0 then report
    else if close != 0 then close
    else device
  }

  function Settle(wait: int, report: int, close: int, device: int, contextSeen: bool, cancelled: bool): Final {
    var code := FirstCode(wait, report, close, device);
    Final(wait == 0,
          if code == 0 then NoFailure
          else if (code == CODE_CANCELLED || code == CODE_STOPPED) && (contextSeen || cancelled)
          then Wrapped(code, contextSeen) else Plain(code))
  }

  /** A cancel request never rewrites another outcome: only a native stop or cancel is reported as cancelled. */
  lemma CancellationOnlyExplainsStops(wait: int, report: int, close: int, device: int,
                                      contextSeen: bool, cancelled: bool)
    ensures var final := Settle(wait, report, close, device, contextSeen, cancelled);
      && (final.failure == NoFailure <==> wait == 0 && report == 0 && close == 0 && device == 0)
      && (final.failure != Settle(wait, report, close, device, false, false).failure ==>
            (contextSeen || cancelled) && final.failure.Wrapped?
            && (wait == 0 ==> report in {CODE_CANCELLED, CODE_STOPPED} || report == 0))
      && (final.hasFile <==> wait == 0)
  {
  }
}

/**
 The retirement of an export task: the context hook, Cancel, Progress and any number of Waits race on one
 native handle. A step is one lock section or the return of one native call; a step the state does not
 allow changes nothing. `misuse` records a native call started after the native close was called.
 */
module ExportProtocol {
  import opened Common
  import opened ExportOutcome

  datatype Actor = Hook | Caller(id: nat)

  /** The function registered on the context: not yet run, taken back, started, in its native call, or over. */
  datatype HookPc = Armed | Disarmed | Fired | Calling | HookOver

  /** The one run of the finishing sequence; it holds the gate from `Reporting` to `Publishing`. */
  datatype Phase =
    | Start
    | NativeWait
    | Disarm(wait: int)
    | AwaitContext(wait: int)
    | WantGate(wait: int)
    | Reporting(wait: int)
    | ClosingNative(wait: int, report: int)
    | ClosingDevice(wait: int, report: int, close: int)
    | Publishing(wait: int, report: int, close: int, device: int)
    | Draining
    | Unregistering

  datatype Pc =
    | WantProgress | Progressing | GotProgress
    | WantCancel | Cancelling | GotCancel(ok: bool)
    | WantWait(inHandler: bool) | AwaitOnce | Finishing(phase: Phase) | GotResult(final: Option<Final>)

  datatype Once = NotRun | RunBy(id: nat) | Ran

  /** The native handle, with its closes called and its closes that succeeded, and what the task has published. */
  datatype Life = Life(created: bool, native: bool, closes: nat, destroys: nat, misuse: bool, final: Option<Final>,
                       queueClosed: bool, registered: bool)

  /** The context hook, how often the context channel was closed, and what cancellation was asked for. */
  datatype Cancellation = Cancellation(hook: HookPc, channelCloses: nat, contextSeen: bool, requested: bool)

  datatype State = State(life: Life, context: Cancellation, gate: Option<Actor>, once: Once, callers: map<nat, Pc>)
  {
    predicate Terminal() { life.final.Some? }
  }

  datatype Call = Progress | Cancel | Wait(inHandler: bool)

  datatype Step =
    | ContextExpires
    | HookEnters
    | HookReturns
    | Begin(id: nat, call: Call)
    | Advance(id: nat, code: int)

  /** A task that was really created, or the zero value, which has no native handle and no hook. */
  function Initial(created: bool): State {
    State(Life(created, created, 0, 0, false, None, false, created),
          Cancellation(if created then Armed else Disarmed, 0, false, false), None, NotRun, map[])
  }

  function Used(life: Life): Life {
    life.(misuse := life.misuse || life.closes > 0)
  }

  /** The once-guarded close of the context channel. */
  function ChannelClosed(c: Cancellation): Cancellation {
    if c.channelCloses > 0 then c else c.(channelCloses := 1)
  }

  function Moved(s: State, id: nat, pc: Pc): State {
    s.(callers := s.callers[id := pc])
  }

  /** The finishing sequence up to the point where it takes the gate. */
  function EarlyFinish(s: State, id: nat, phase: Phase, code: int): State {
    match phase
    case Start =>
      if s.life.native then Moved(s.(life := Used(s.life)), id, Finishing(NativeWait))
      else
        var final := Some(Final(false, TaskClosed));
        Moved(s.(life := s.life.(final := final), once := Ran), id, GotResult(final))
    case NativeWait => Moved(s, id, Finishing(Disarm(code)))
    case Disarm(w) =>
      Moved(s.(context := if s.context.hook.Armed? then ChannelClosed(s.context.(hook := Disarmed)) else s.context),
            id, Finishing(AwaitContext(w)))
    case AwaitContext(w) => if s.context.channelCloses > 0 then Moved(s, id, Finishing(WantGate(w))) else s
    case WantGate(w) =>
      if s.gate.None? then Moved(s.(life := Used(s.life), gate := Some(Caller(id))), id, Finishing(Reporting(w))) else s
    case _ => s
  }

  /** The rest: report, native close, device close, publication under the gate, then the drain and the registry. */
  function LateFinish(s: State, id: nat, phase: Phase, code: int): State {
    match phase
    case Reporting(w) =>
      Moved(s.(life := Used(s.life).(closes := s.life.closes + 1)), id, Finishing(ClosingNative(w, code)))
    case ClosingNative(w, r) =>
      var destroyed := if code == 0 then 1 else 0;
      Moved(s.(life := s.life.(destroys := s.life.destroys + destroyed)), id, Finishing(ClosingDevice(w, r, code)))
    case ClosingDevice(w, r, c) => Moved(s, id, Finishing(Publishing(w, r, c, code)))
    case Publishing(w, r, c, d) =>
      var final := Settle(w, r, c, d, s.context.contextSeen, s.context.requested);
      Moved(s.(life := s.life.(final := Some(final), native := false), gate := None), id, Finishing(Draining))
    case Draining => Moved(s.(life := s.life.(queueClosed := true)), id, Finishing(Unregistering))
    case Unregistering => Moved(s.(life := s.life.(registered := false), once := Ran), id, GotResult(s.life.final))
    case _ => s
  }

  predicate Early(phase: Phase) {
    phase.Start? || phase.NativeWait? || phase.Disarm? || phase.AwaitContext? || phase.WantGate?
  }

  function ProgressStep(s: State, id: nat, inCall: bool): State {
    if inCall then Moved(s.(gate := None), id, GotProgress)
    else if s.gate.Some? then s
    else if s.life.native then Moved(s.(life := Used(s.life), gate := Some(Caller(id))), id, Progressing)
    else Moved(s, id, GotProgress)
  }

  function CancelStep(s: State, id: nat, inCall: bool, code: int): State {
    if inCall then Moved(s.(gate := None), id, GotCancel(code == 0))
    else if s.gate.Some? then s
    else if s.Terminal() then Moved(s, id, GotCancel(true))
    else
      var t := s.(context := s.context.(requested := true));
      if !s.life.native then Moved(t, id, GotCancel(false))
      else Moved(t.(life := Used(s.life), gate := Some(Caller(id))), id, Cancelling)
  }

  function WaitStep(s: State, id: nat, inHandler: bool): State {
    if inHandler then Moved(s, id, GotResult(None))
    else match s.once
      case NotRun => Moved(s.(once := RunBy(id)), id, Finishing(Start))
      case RunBy(_) => Moved(s, id, AwaitOnce)
      case Ran => Moved(s, id, GotResult(s.life.final))
  }

  function AdvanceStep(s: State, id: nat, code: int): State
    requires id in s.callers
  {
    match s.callers[id]
    case WantProgress => ProgressStep(s, id, false)
    case Progressing => ProgressStep(s, id, true)
    case WantCancel => CancelStep(s, id, false, code)
    case Cancelling => CancelStep(s, id, true, code)
    case WantWait(inHandler) => WaitStep(s, id, inHandler)
    case AwaitOnce => if s.once.Ran? then WaitStep(s, id, false) else s
    case Finishing(phase) => if Early(phase) then EarlyFinish(s, id, phase, code) else LateFinish(s, id, phase, code)
    case _ => s
  }

  function HookStep(s: State): State {
    var over := s.context.(hook := HookOver);
    if s.Terminal() then s.(context := ChannelClosed(over))
    else if !s.life.native then s.(context := ChannelClosed(over.(contextSeen := true, requested := true)))
    else
      s.(life := Used(s.life), gate := Some(Hook),
         context := s.context.(hook := Calling, contextSeen := true, requested := true))
  }

  function Next(s: State, step: Step): State {
    match step
    case ContextExpires => if s.context.hook.Armed? then s.(context := s.context.(hook := Fired)) else s
    case HookEnters => if s.context.hook.Fired? && s.gate.None? then HookStep(s) else s
    case HookReturns =>
      if s.context.hook.Calling? then s.(context := ChannelClosed(s.context.(hook := HookOver)), gate := None) else s
    case Begin(id, call) =>
      if id in s.callers then s
      else Moved(s, id, match call
                        case Progress => WantProgress
                        case Cancel => WantCancel
                        case Wait(inHandler) => WantWait(inHandler))
    case Advance(id, code) => if id in s.callers then AdvanceStep(s, id, code) else s
  }

  function Run(created: bool, steps: seq<Step>): State {
    if steps == [] then Initial(created) else Next(Run(created, steps[..|steps| - 1]), steps[|steps| - 1])
  }

  predicate AfterClose(phase: Phase) {
    phase.ClosingNative? || phase.ClosingDevice? || phase.Publishing?
  }

  predicate Published(phase: Phase) { phase.Draining? || phase.Unregistering? }

  predicate HoldsGate(pc: Pc) {
    pc.Progressing? || pc.Cancelling? || (pc.Finishing? && (pc.phase.Reporting? || AfterClose(pc.phase)))
  }

  ghost predicate GateAgrees(s: State) {
    && (s.gate == Some(Hook) <==> s.context.hook.Calling?)
    && (forall id :: id in s.callers ==> (HoldsGate(s.callers[id]) <==> s.gate == Some(Caller(id))))
    && (s.gate.Some? && s.gate.value.Caller? ==> s.gate.value.id in s.callers)
  }

  ghost predicate OnceAgrees(s: State) {
    && (forall id :: id in s.callers ==> (s.callers[id].Finishing? <==> s.once == RunBy(id)))
    && (s.once.RunBy? ==> s.once.id in s.callers)
  }

  /** Whether the native handle was destroyed, and what the result says about it. */
  predicate DestroysInPhase(life: Life, phase: Phase) {
    match phase
    case ClosingDevice(_, _, c) => life.destroys == (if c == 0 then 1 else 0)
    case Publishing(_, _, c, _) => life.destroys == (if c == 0 then 1 else 0)
    case _ => if Published(phase) then DestroysAgree(life) else life.destroys == 0
  }

  predicate DestroysAgree(life: Life) {
    life.destroys <= 1 && (life.final.Some? && life.final.value.failure.NoFailure? ==> life.destroys == 1)
  }

  /** Where the native handle and the result stand while the finishing sequence is in a phase. */
  predicate LifeInPhase(life: Life, phase: Phase) {
    && (!phase.Start? ==> life.created)
    && (life.native <==> life.created && !Published(phase))
    && life.closes == (if AfterClose(phase) || Published(phase) then 1 else 0)
    && (life.final.Some? <==> Published(phase))
    && life.registered == life.created
    && (phase.Unregistering? ==> life.queueClosed)
    && DestroysInPhase(life, phase)
  }

  predicate LifeAgrees(s: State) {
    && !s.life.misuse
    && match s.once
       case NotRun => s.life.native == s.life.created && s.life.closes == 0 && s.life.final.None?
                      && s.life.destroys == 0 && s.life.registered == s.life.created
       case Ran => !s.life.native && s.life.final.Some? && !s.life.registered
                   && DestroysAgree(s.life)
                   && (if s.life.created then s.life.closes == 1 && s.life.queueClosed
                       else s.life.closes == 0 && s.life.destroys == 0)
       case RunBy(id) => id in s.callers && s.callers[id].Finishing? && LifeInPhase(s.life, s.callers[id].phase)
  }

  predicate ContextInPhase(c: Cancellation, phase: Phase) {
    && (phase.AwaitContext? ==> !c.hook.Armed?)
    && (phase.Start? || phase.NativeWait? || phase.Disarm? || phase.AwaitContext? || c.channelCloses == 1)
  }

  predicate ContextAgrees(s: State) {
    && s.context.channelCloses <= 1
    && (s.context.hook.HookOver? ==> s.context.channelCloses == 1)
    && (s.context.hook.Disarmed? && s.life.created ==> s.context.channelCloses == 1)
    && (s.context.hook.Armed? || s.context.hook.Fired? || s.context.hook.Calling? ==>
          s.life.created && s.context.channelCloses == 0)
    && (s.once.RunBy? && s.once.id in s.callers && s.callers[s.once.id].Finishing? ==>
          ContextInPhase(s.context, s.callers[s.once.id].phase))
    && (s.once.Ran? && s.life.created ==> s.context.channelCloses == 1)
  }

  ghost predicate ResultsAgree(s: State) {
    forall id :: id in s.callers && s.callers[id].GotResult? && s.callers[id].final.Some? ==>
      s.once.Ran? && s.callers[id].final == s.life.final
  }

  ghost predicate Safe(s: State) {
    GateAgrees(s) && OnceAgrees(s) && LifeAgrees(s) && ContextAgrees(s) && ResultsAgree(s)
  }

  lemma FinishStartIsSafe(s: State, id: nat, code: int)
    requires Safe(s) && id in s.callers && s.callers[id] == Finishing(Start)
    ensures Safe(EarlyFinish(s, id, Start, code))
  {
    assert s.once == RunBy(id);
  }

  lemma EarlyFinishIsSafe(s: State, id: nat, code: int)
    requires Safe(s) && id in s.callers && s.callers[id].Finishing?
    requires Early(s.callers[id].phase) && !s.callers[id].phase.Start?
    ensures Safe(EarlyFinish(s, id, s.callers[id].phase, code))
  {
    assert s.once == RunBy(id);
  }

  /** From the report to the publication, under the gate. */
  lemma GatedFinishIsSafe(s: State, id: nat, code: int)
    requires Safe(s) && id in s.callers && s.callers[id].Finishing?
    requires !Early(s.callers[id].phase) && !Published(s.callers[id].phase)
    ensures Safe(LateFinish(s, id, s.callers[id].phase, code))
  {
    assert s.once == RunBy(id);
  }

  lemma LateFinishIsSafe(s: State, id: nat, code: int)
    requires Safe(s) && id in s.callers && s.callers[id].Finishing? && Published(s.callers[id].phase)
    ensures Safe(LateFinish(s, id, s.callers[id].phase, code))
  {
    assert s.once == RunBy(id);
  }

  lemma FinishIsSafe(s: State, id: nat, code: int)
    requires Safe(s) && id in s.callers && s.callers[id].Finishing?
    ensures Safe(AdvanceStep(s, id, code))
  {
    var phase := s.callers[id].phase;
    if phase.Start? {
      FinishStartIsSafe(s, id, code);
    } else if Early(phase) {
      EarlyFinishIsSafe(s, id, code);
    } else if Published(phase) {
      LateFinishIsSafe(s, id, code);
    } else {
      GatedFinishIsSafe(s, id, code);
    }
  }

  lemma ProgressIsSafe(s: State, id: nat, inCall: bool)
    requires Safe(s) && id in s.callers && s.callers[id] == (if inCall then Progressing else WantProgress)
    ensures Safe(ProgressStep(s, id, inCall))
  {
  }

  lemma CancelStartKeepsGate(s: State, id: nat, code: int)
    requires Safe(s) && id in s.callers && s.callers[id] == WantCancel
    ensures GateAgrees(CancelStep(s, id, false, code))
  {
  }

  lemma CancelStartKeepsLife(s: State, id: nat, code: int)
    requires Safe(s) && id in s.callers && s.callers[id] == WantCancel
    ensures LifeAgrees(CancelStep(s, id, false, code))
  {
  }

  lemma CancelStartIsSafe(s: State, id: nat, code: int)
    requires Safe(s) && id in s.callers && s.callers[id] == WantCancel
    ensures Safe(CancelStep(s, id, false, code))
  {
    CancelStartKeepsGate(s, id, code);
    CancelStartKeepsLife(s, id, code);
  }

  lemma CancelReturnIsSafe(s: State, id: nat, code: int)
    requires Safe(s) && id in s.callers && s.callers[id] == Cancelling
    ensures Safe(CancelStep(s, id, true, code))
  {
  }

  lemma WaitIsSafe(s: State, id: nat, inHandler: bool)
    requires Safe(s) && id in s.callers && (s.callers[id].WantWait? || s.callers[id].AwaitOnce?)
    ensures Safe(WaitStep(s, id, inHandler))
  {
  }

  lemma AdvanceIsSafe(s: State, id: nat, code: int)
    requires Safe(s) && id in s.callers
    ensures Safe(AdvanceStep(s, id, code))
  {
    match s.callers[id]
    case WantProgress => ProgressIsSafe(s, id, false);
    case Progressing => ProgressIsSafe(s, id, true);
    case WantCancel => CancelStartIsSafe(s, id, code);
    case Cancelling => CancelReturnIsSafe(s, id, code);
    case WantWait(inHandler) => WaitIsSafe(s, id, inHandler);
    case AwaitOnce => WaitIsSafe(s, id, false);
    case Finishing(_) => FinishIsSafe(s, id, code);
    case _ =>
  }

  lemma NextIsSafe(s: State, step: Step)
    requires Safe(s)
    ensures Safe(Next(s, step))
  {
    if step.Advance? && step.id in s.callers {
      AdvanceIsSafe(s, step.id, step.code);
    }
  }

  lemma {:induction false} RunIsSafe(created: bool, steps: seq<Step>)
    ensures Safe(Run(created, steps)) && Run(created, steps).life.created == created
  {
    if steps != [] {
      RunIsSafe(created, steps[..|steps| - 1]);
      NextIsSafe(Run(created, steps[..|steps| - 1]), steps[|steps| - 1]);
      CreatedStays(Run(created, steps[..|steps| - 1]), steps[|steps| - 1]);
    }
  }

  lemma AdvanceKeepsCreated(s: State, id: nat, code: int)
    requires id in s.callers
    ensures AdvanceStep(s, id, code).life.created == s.life.created
  {
  }

  lemma CreatedStays(s: State, step: Step)
    ensures Next(s, step).life.created == s.life.created
  {
    if step.Advance? && step.id in s.callers {
      AdvanceKeepsCreated(s, step.id, step.code);
    }
  }

  /** No native call ever starts after the native close was called, and it is called at most once. */
  lemma NoCallAfterClose(created: bool, steps: seq<Step>)
    ensures var life := Run(created, steps).life; !life.misuse && life.closes <= 1 && life.destroys <= life.closes
  {
    RunIsSafe(created, steps);
  }

  /**
   The context channel is closed at most once, and a finisher waiting for it never waits in vain: it is
   closed, or the hook is about to close it, needing at most the return of the native call that holds the gate.
   */
  lemma ContextIsAlwaysSettled(created: bool, steps: seq<Step>, id: nat)
    requires id in Run(created, steps).callers && Run(created, steps).callers[id].Finishing?
             && Run(created, steps).callers[id].phase.AwaitContext?
    ensures var s := Run(created, steps);
      && s.context.channelCloses <= 1
      && (s.context.channelCloses == 0 ==>
            || Next(s, HookReturns).context.channelCloses == 1
            || (s.gate == None && Next(Next(s, HookEnters), HookReturns).context.channelCloses == 1)
            || (exists c: nat :: c in s.callers && s.gate == Some(Caller(c))
                                 && forall code :: Next(s, Advance(c, code)).gate == None))
  {
    RunIsSafe(created, steps);
    var s := Run(created, steps);
    assert s.once == RunBy(id);
    if s.context.channelCloses == 0 && s.context.hook.Fired? && s.gate.Some? {
      var c := s.gate.value.id;
      assert HoldsGate(s.callers[c]);
      assert !s.callers[c].Finishing?;
      assert forall code :: Next(s, Advance(c, code)).gate == None;
    }
  }

  lemma TerminalStays(s: State, step: Step)
    requires Safe(s) && s.Terminal()
    ensures Next(s, step).life.final == s.life.final
  {
    if step.Advance? && step.id in s.callers && s.callers[step.id].Finishing? {
      assert s.once == RunBy(step.id);
    }
  }

  lemma OneMoreStep(created: bool, steps: seq<Step>, last: Step)
    ensures Run(created, steps + [last]) == Next(Run(created, steps), last)
  {
    assert (steps + [last])[..|steps|] == steps;
  }

  /** Once the task is terminal its result and error never change. */
  lemma {:induction false} TerminalIsFinal(created: bool, steps: seq<Step>, more: seq<Step>)
    requires Run(created, steps).Terminal()
    ensures Run(created, steps + more).life.final == Run(created, steps).life.final
    decreases |more|
  {
    if more == [] {
      assert steps + more == steps;
    } else {
      RunIsSafe(created, steps);
      OneMoreStep(created, steps, more[0]);
      TerminalStays(Run(created, steps), more[0]);
      TerminalIsFinal(created, steps + [more[0]], more[1..]);
      assert steps + [more[0]] + more[1..] == steps + more;
    }
  }

  // ---- A handle that is given up ------------------------------------------------------------

  /** The native close has returned, and the handle is still there. */
  predicate GivenUp(s: State) {
    && s.life.closes > 0 && s.life.destroys == 0
    && !(s.once.RunBy? && s.once.id in s.callers && s.callers[s.once.id].Finishing?
         && s.callers[s.once.id].phase.ClosingNative?)
  }

  predicate CloseFails(s: State, step: Step) {
    && step.Advance? && step.code != 0 && step.id in s.callers
    && s.callers[step.id].Finishing? && s.callers[step.id].phase.ClosingNative?
  }

  ghost predicate CloseFailsAt(created: bool, steps: seq<Step>, j: nat) {
    j < |steps| && CloseFails(Run(created, steps[..j]), steps[j])
  }

  lemma FinishOnHandle(s: State, id: nat, code: int)
    requires Safe(s) && id in s.callers && s.callers[id].Finishing?
    ensures GivenUp(Next(s, Advance(id, code))) <==> GivenUp(s) || CloseFails(s, Advance(id, code))
  {
    assert s.once == RunBy(id);
  }

  lemma StepOnHandle(s: State, step: Step)
    requires Safe(s)
    ensures GivenUp(Next(s, step)) <==> GivenUp(s) || CloseFails(s, step)
  {
    if step.Advance? && step.id in s.callers && s.callers[step.id].Finishing? {
      FinishOnHandle(s, step.id, step.code);
    }
  }

  lemma {:induction false} GivenUpIff(created: bool, steps: seq<Step>)
    ensures GivenUp(Run(created, steps)) <==> exists j: nat :: CloseFailsAt(created, steps, j)
  {
    if steps != [] {
      var n := |steps| - 1;
      RunIsSafe(created, steps[..n]);
      StepOnHandle(Run(created, steps[..n]), steps[n]);
      GivenUpIff(created, steps[..n]);
      if j: nat :| CloseFailsAt(created, steps[..n], j) {
        assert steps[..n][..j] == steps[..j] && CloseFailsAt(created, steps, j);
      }
      if j: nat :| CloseFailsAt(created, steps, j) {
        assert j < n ==> steps[..n][..j] == steps[..j] && CloseFailsAt(created, steps[..n], j);
      }
      assert CloseFails(Run(created, steps[..n]), steps[n]) <==> CloseFailsAt(created, steps, n);
    }
  }

  function Waiting(hook: HookPc, channelCloses: nat, gate: Option<Actor>, phase: Phase, closes: nat): State {
    State(Life(true, true, closes, 0, false, None, false, true), Cancellation(hook, channelCloses, false, false),
          gate, RunBy(0), map[0 := Finishing(phase)])
  }

  lemma WaitBegins() returns (steps: seq<Step>)
    ensures Run(true, steps) == Waiting(Armed, 0, None, Disarm(0), 0)
  {
    var s1 := [Begin(0, Wait(false))];
    var s2 := s1 + [Advance(0, 0)];
    var s3 := s2 + [Advance(0, 0)];
    steps := s3 + [Advance(0, 0)];
    OneMoreStep(true, [], s1[0]);
    assert [] + [s1[0]] == s1;
    OneMoreStep(true, s1, Advance(0, 0));
    OneMoreStep(true, s2, Advance(0, 0));
    OneMoreStep(true, s3, Advance(0, 0));
  }

  lemma WaitReports() returns (steps: seq<Step>)
    ensures Run(true, steps) == Waiting(Disarmed, 1, Some(Caller(0)), Reporting(0), 0)
  {
    var s0 := WaitBegins();
    var s1 := s0 + [Advance(0, 0)];
    var s2 := s1 + [Advance(0, 0)];
    steps := s2 + [Advance(0, 0)];
    OneMoreStep(true, s0, Advance(0, 0));
    OneMoreStep(true, s1, Advance(0, 0));
    OneMoreStep(true, s2, Advance(0, 0));
  }

  /** Everything succeeds but the native close. */
  lemma GiveUpHappens(code: int)
    requires code != 0
    ensures exists steps :: GivenUp(Run(true, steps))
  {
    var s0 := WaitReports();
    var s1 := s0 + [Advance(0, 0)];
    var s2 := s1 + [Advance(0, code)];
    OneMoreStep(true, s0, Advance(0, 0));
    OneMoreStep(true, s1, Advance(0, code));
    assert GivenUp(Run(true, s2));
  }

  lemma DestroysStay(s: State, step: Step)
    requires Safe(s) && s.Terminal()
    ensures Next(s, step).life.destroys == s.life.destroys
  {
    if step.Advance? && step.id in s.callers && s.callers[step.id].Finishing? {
      assert s.once == RunBy(step.id);
    }
  }

  lemma {:induction false} DestroysAreFinal(created: bool, steps: seq<Step>, more: seq<Step>)
    requires Run(created, steps).Terminal()
    ensures Run(created, steps + more).life.destroys == Run(created, steps).life.destroys
    decreases |more|
  {
    if more == [] {
      assert steps + more == steps;
    } else {
      RunIsSafe(created, steps);
      OneMoreStep(created, steps, more[0]);
      TerminalStays(Run(created, steps), more[0]);
      DestroysStay(Run(created, steps), more[0]);
      DestroysAreFinal(created, steps + [more[0]], more[1..]);
      assert steps + [more[0]] + more[1..] == steps + more;
    }
  }

  /**
   The native handle of a terminal task stays undestroyed for ever exactly if the one native close failed: the task
   drops the handle all the same. An export that reports no error has destroyed it.
   */
  lemma NeverDestroyedIff(steps: seq<Step>)
    requires Run(true, steps).Terminal()
    ensures (forall more :: Run(true, steps + more).life.destroys == 0) <==>
            exists j: nat :: CloseFailsAt(true, steps, j)
    ensures var life := Run(true, steps).life;
      life.final.value.failure.NoFailure? ==> life.destroys == 1
  {
    RunIsSafe(true, steps);
    GivenUpIff(true, steps);
    assert steps + [] == steps;
    if Run(true, steps).life.destroys == 0 {
      forall more ensures Run(true, steps + more).life.destroys == 0 {
        DestroysAreFinal(true, steps, more);
      }
    } else {
      assert Run(true, steps + []).life.destroys != 0;
    }
  }

  /** Every Wait that returns a result returns the one stored result, after the task is fully retired. */
  lemma WaitsAgree(created: bool, steps: seq<Step>, id: nat)
    requires id in Run(created, steps).callers
    requires Run(created, steps).callers[id].GotResult? && Run(created, steps).callers[id].final.Some?
    ensures var s := Run(created, steps);
      && s.callers[id].final == s.life.final
      && s.Terminal() && !s.life.native && !s.life.registered
      && (created ==> s.life.closes == 1 && s.life.queueClosed)
  {
    RunIsSafe(created, steps);
  }

  /** The only states of a cancel that began after the terminal. */
  predicate QuietCancel(s: State, id: nat) {
    id in s.callers && (s.callers[id] == WantCancel || s.callers[id] == GotCancel(true))
  }

  lemma QuietCancelStays(s: State, step: Step, id: nat)
    requires s.Terminal() && QuietCancel(s, id)
    ensures QuietCancel(Next(s, step), id)
  {
  }

  lemma {:induction false} QuietCancelInRun(created: bool, steps: seq<Step>, more: seq<Step>, id: nat)
    requires Run(created, steps).Terminal() && QuietCancel(Run(created, steps), id)
    ensures QuietCancel(Run(created, steps + more), id)
    decreases |more|
  {
    if more == [] {
      assert steps + more == steps;
    } else {
      RunIsSafe(created, steps);
      OneMoreStep(created, steps, more[0]);
      TerminalStays(Run(created, steps), more[0]);
      QuietCancelStays(Run(created, steps), more[0], id);
      QuietCancelInRun(created, steps + [more[0]], more[1..], id);
      assert steps + [more[0]] + more[1..] == steps + more;
    }
  }

  /**
   A cancel that begins after the terminal never makes a native call and never fails, whatever happens meanwhile:
   it is waiting for the gate or has returned success.
   */
  lemma LateCancelSucceeds(created: bool, steps: seq<Step>, id: nat, more: seq<Step>)
    requires Run(created, steps).Terminal() && id !in Run(created, steps).callers
    ensures var s := Run(created, steps + [Begin(id, Cancel)] + more);
      id in s.callers && (s.callers[id].WantCancel? || s.callers[id] == GotCancel(true))
  {
    RunIsSafe(created, steps);
    OneMoreStep(created, steps, Begin(id, Cancel));
    QuietCancelInRun(created, steps + [Begin(id, Cancel)], more, id);
  }

  /**
   Whoever waits for the gate is past it after at most one return of a native call, or the publication, of its
   holder.
   */
  lemma LateCancelReturns(created: bool, steps: seq<Step>, id: nat, code: int)
    requires var s := Run(created, steps); s.Terminal() && id in s.callers && s.callers[id].WantCancel?
    ensures var s := Run(created, steps);
      if s.gate.None? then Next(s, Advance(id, code)).callers[id] == GotCancel(true)
      else s.gate.value.Caller? && s.gate.value.id in s.callers
           && Next(Next(s, Advance(s.gate.value.id, 0)), Advance(id, code)).callers[id] == GotCancel(true)
  {
    RunIsSafe(created, steps);
  }
}
