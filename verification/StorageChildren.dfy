/** What closing each kind of child from the storage client comes to. */
module StorageChildren {
  import opened Common
  import opened ExportOutcome

  datatype Kind = Replay | Export | Call

  /** How a close from the client ends: whether the child is gone, and the error it returns. */
  datatype Reply = Reply(gone: bool, outcome: Outcome)

  // ---- Replays ------------------------------------------------------------------------------

  /** What a replay has attached or running. */
  datatype Holdings = Holdings(dumps: set<Id>, tasks: set<Id>, deps: set<Id>)

  /** Whether the gate is obtained and the queue ready, and which of the native calls on the way fail. */
  datatype ReplayAnswers =
    ReplayAnswers(entered: bool, ready: bool, dumpStopFails: set<Id>, dumpFails: set<Id>, taskFails: set<Id>,
                  detachFails: set<Id>, stopFails: bool, closeFails: bool, deviceFails: bool)

  /** Dumps, tasks and outputs are released first, then the replay itself is stopped and closed. */
  predicate ReplayCloses(h: Holdings, a: ReplayAnswers) {
    && h.dumps * a.dumpFails == {} && h.tasks * a.taskFails == {} && h.deps * a.detachFails == {}
    && a.entered && a.ready && !a.stopFails && !a.closeFails
  }

  /** An error may be joined on the way although everything was released: a dump's stop or the device's close. */
  function ReplayReply(closed: bool, h: Holdings, a: ReplayAnswers): Reply {
    if closed then Reply(true, if a.entered && a.ready then Ok else Err(InUse))
    else if ReplayCloses(h, a) then
      Reply(true, if h.dumps * a.dumpStopFails == {} && !a.deviceFails then Ok else Err(InUse))
    else Reply(false, Err(InUse))
  }

  // ---- Exports ------------------------------------------------------------------------------

  /** The native answers to the cancel and to the finishing sequence, should the task still have to run it. */
  datatype ExportAnswers =
    ExportAnswers(cancel: int, inHandler: bool, wait: int, report: int, close: int, device: int, contextSeen: bool)

  predicate StoredInUse(final: Final) { final.failure == Plain(ERROR_IN_USE) }

  /** Cancel a task that is not terminal, then wait for it; only an in-use error is passed on. */
  function ExportClose(final: Option<Final>, a: ExportAnswers): (Option<Final>, Outcome) {
    var cancelled := if final.Some? then Ok else OutcomeOf(a.cancel);
    if cancelled.Err? && cancelled.error != Closed then (final, cancelled)
    else if a.inHandler then (final, Err(InUse))
    else
      var stored :=
        if final.Some? then final.value
        else Settle(a.wait, a.report, a.close, a.device, a.contextSeen, true);
      (Some(stored), if StoredInUse(stored) then Err(InUse) else Ok)
  }

  /** A retired export stops the close exactly when its stored failure is in-use, and keeps what it stored. */
  lemma RetiredExportStopsIff(final: Final, a: ExportAnswers)
    requires !a.inHandler
    ensures var (after, outcome) := ExportClose(Some(final), a);
      after == Some(final) && (outcome.Err? <==> final.failure == Plain(ERROR_IN_USE))
  {
  }

  /**
   A running export stops the close exactly when its native cancel fails, or when the first failing answer of
   its finishing sequence is in-use; in the second case it is gone all the same.
   */
  lemma RunningExportStopsIff(a: ExportAnswers)
    requires !a.inHandler
    ensures var (after, outcome) := ExportClose(None, a);
      && (outcome.Err? <==> a.cancel != 0 || FirstCode(a.wait, a.report, a.close, a.device) == ERROR_IN_USE)
      && (after.Some? <==> a.cancel == 0)
  {
  }

  /** An export that ran well but whose device could not be closed: its file is there, and it stops the close. */
  lemma InUseExportStopsClose(a: ExportAnswers)
    requires !a.inHandler
    ensures var final := Settle(0, 0, 0, ERROR_IN_USE, false, false);
      final.hasFile && ExportClose(Some(final), a) == (Some(final), Err(InUse))
  {
  }

  // ---- List calls ---------------------------------------------------------------------------

  /**
   A list call and its native request. The request completes, by itself or because it was cancelled. The call then
   destroys it and clears its `pointer`; if the destroy fails it keeps both and never tries again. Either way its
   native close has `ended`; the call leaves the registry and tells whoever waits (`finished`).

   `staleUse`: the native cancel ran on the request after its destroy. `nullUse`: it ran on a cleared pointer.
   */
  datatype Request =
    Request(cancelled: bool, complete: bool, destroys: nat, pointer: bool, ended: bool, finished: bool,
            staleUse: bool, nullUse: bool)

  const NEW_REQUEST := Request(false, false, 0, true, false, false, false, false)

  /** The native cancel, with the pointer that was loaded for it. */
  function Cancelled(r: Request, loaded: bool): Request {
    if !loaded then r.(nullUse := true)
    else if r.destroys > 0 then r.(staleUse := true)
    else r.(cancelled := true)
  }

  function Completed(r: Request, byItself: bool): Request {
    if r.cancelled || byItself then r.(complete := true) else r
  }

  /** The call's own native close may destroy the request now. */
  predicate Destroyable(r: Request) { r.complete && !r.ended && r.destroys == 0 }

  function NativelyDestroyed(r: Request, ok: bool): Request {
    if !Destroyable(r) then r else if ok then r.(destroys := r.destroys + 1) else r.(ended := true)
  }

  function PointerCleared(r: Request): Request {
    if r.destroys > 0 && r.pointer then r.(pointer := false, ended := true) else r
  }

  // ---- Children -----------------------------------------------------------------------------

  /** A replay's device is closed by whoever closed the replay; `late` is after the native client's destroy. */
  datatype Device = Held | Dropped(late: bool)

  datatype Child = OfReplay(closed: bool, device: Device) | OfExport(final: Option<Final>) | OfCall(request: Request)
  {
    /** Over for good, as far as the child itself can bring it. */
    predicate Retired() {
      match this
      case OfReplay(closed, _) => closed
      case OfExport(final) => final.Some?
      case OfCall(request) => request.ended
    }
  }

  function NewChild(kind: Kind): Child {
    match kind
    case Replay => OfReplay(false, Held)
    case Export => OfExport(None)
    case Call => OfCall(NEW_REQUEST)
  }

  datatype Answers = Answers(held: Holdings, replay: ReplayAnswers, task: ExportAnswers)
}
