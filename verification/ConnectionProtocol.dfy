/**
 One connection under any number of concurrent calls and any native failures.

 A step takes a lock together with the section behind it, or is one native call (answered `ok`) together
 with the section after it. A step the state does not allow changes nothing. `op` names the holder of the
 operation lock. `misuse` records a native call on the connection after it was destroyed, and every handle
 counts its successful destroys.
 */
module ConnectionProtocol {
  import opened Common
  import opened Connections

  datatype Op =
    | Use
    | Attach(o: Id) | Detach(o: Id)
    | StartRecording | StopRecording(t: Id)
    | StartDump | CloseDump(d: Id)
    | Connect

  /**
   A close. Each look takes the operation lock and snapshots the dumps and the connect attempt; the second
   look follows the wait for that attempt. `rest` is what is left of the snapshot; `Release` holds a dump's own
   lock.
   */
  datatype Close =
    | Preflight
    | Look(again: bool)
    | Dumps(rest: set<Id>, attempt: Option<Id>)
    | Release(d: Id, rest: set<Id>, attempt: Option<Id>)
    | Forget(d: Id, rest: set<Id>, attempt: Option<Id>)
    | Recheck(d: Id, rest: set<Id>, attempt: Option<Id>)
    | AwaitConnect(awaited: Id)
    | Gate | HangUp | Destroy | Publish | Leave

  /**
   `InDump` is a call that holds a dump's own lock; a stop of the dump is one that destroys nothing. `Over` and
   `CloseOver` remember what the call returned; a close that returns true found or made the connection closed.
   */
  datatype Pc =
    | Want(op: Op) | In(op: Op) | InDump(d: Id) | Closing(at: Close)
    | Over(op: Op, ok: bool) | CloseOver(ok: bool)

  datatype Task = Live | Stopping(stopper: Id) | Finished

  /** Every recording task and raw dump ever started here, with the number of times its handle was destroyed. */
  datatype Children = Children(tasks: map<Id, Task>, dumps: map<Id, nat>)
  {
    predicate Released(d: Id) { d in dumps && dumps[d] > 0 }

    /** No task is unfinished and no raw dump unreleased, of all that were ever started. */
    ghost predicate AllGone() {
      (forall t :: t in tasks ==> tasks[t].Finished?) && (forall d :: d in dumps ==> dumps[d] > 0)
    }
  }

  datatype Handle = Handle(destroys: nat, misuse: bool)

  /** `locks` says which call holds the own lock of a raw dump. */
  datatype State =
    State(conn: Conn, op: Option<Id>, native: Handle, children: Children, locks: map<Id, Id>, acts: map<Id, Pc>)

  datatype Step = Begin(a: Id, op: Op) | BeginClose(a: Id) | Go(a: Id, ok: bool, pick: Id) | StateChange(linked: bool)

  const INITIAL :=
    State(Conn(false, false, {}, {}, {}, None), None, Handle(0, false), Children(map[], map[]), map[], map[])

  function Goto(s: State, a: Id, pc: Pc): State { s.(acts := s.acts[a := pc]) }

  function Used(n: Handle): Handle { n.(misuse := n.misuse || n.destroys > 0) }

  /** Leaves the operation lock. */
  function Return(s: State, a: Id, pc: Pc): State {
    s.(op := None, acts := s.acts[a := pc])
  }

  // ---- Operations ---------------------------------------------------------------------------

  predicate Exclusive(op: Op) { op.Use? || op.Attach? || op.Detach? || op.StartRecording? || op.StartDump? }

  /** Up to the native call: the operation lock and the closed check. */
  function Enter(s: State, a: Id, op: Op): State {
    if s.op.Some? then s
    else if s.conn.closed then Goto(s, a, Over(op, false))
    else Goto(s.(op := Some(a)), a, In(op))
  }

  /** The native call and what is recorded when it succeeds; `fresh` names the child it creates. */
  function Finish(s: State, a: Id, op: Op, ok: bool, child: Id): State {
    var t := s.(native := Used(s.native));
    var c := s.conn;
    if !ok then Return(t, a, Over(op, false))
    else match op
      case Attach(o) => Return(t.(conn := c.(deps := c.deps + {o})), a, Over(op, true))
      case Detach(o) => Return(t.(conn := c.(deps := c.deps - {o})), a, Over(op, true))
      case StartRecording =>
        if child in s.children.tasks then s
        else Return(t.(conn := c.(tasks := c.tasks + {child}),
                       children := s.children.(tasks := s.children.tasks[child := Live])), a, Over(op, true))
      case StartDump =>
        if child in s.children.dumps then s
        else Return(t.(conn := c.(dumps := c.dumps + {child}),
                       children := s.children.(dumps := s.children.dumps[child := 0])), a, Over(op, true))
      case _ => Return(t, a, Over(op, true))
  }

  /** A connect attempt is started under both locks, runs without them, and clears its own channel. */
  function StartConnect(s: State, a: Id, ok: bool): State {
    if s.op.Some? then s
    else if s.conn.closed || s.conn.connecting.Some? then Goto(s, a, Over(Connect, false))
    else
      var t := s.(native := Used(s.native));
      if ok then Goto(t.(conn := s.conn.(connecting := Some(a))), a, In(Connect)) else Goto(t, a, Over(Connect, false))
  }

  function EndConnect(s: State, a: Id, ok: bool): State {
    Goto(if s.conn.connecting == Some(a) then s.(conn := s.conn.(connecting := None)) else s, a, Over(Connect, ok))
  }

  /** One native stop at a time; a task leaves the connection when its native task is destroyed. */
  function StartStop(s: State, a: Id, t: Id): State {
    if t !in s.children.tasks then Goto(s, a, Over(StopRecording(t), false))
    else match s.children.tasks[t]
      case Live =>
        Goto(s.(children := s.children.(tasks := s.children.tasks[t := Stopping(a)])), a, In(StopRecording(t)))
      case Stopping(_) => s
      case Finished => Goto(s, a, Over(StopRecording(t), true))
  }

  function EndStop(s: State, a: Id, t: Id, destroyed: bool): State {
    var u := s.(children := s.children.(tasks := s.children.tasks[t := if destroyed then Finished else Live]));
    Goto(if destroyed then u.(conn := s.conn.(tasks := s.conn.tasks - {t})) else u, a,
         Over(StopRecording(t), destroyed))
  }

  function DestroyDump(s: State, d: Id): State
    requires d in s.children.dumps
  {
    s.(children := s.children.(dumps := s.children.dumps[d := s.children.dumps[d] + 1]))
  }

  function ForgetDump(s: State, d: Id): State { s.(conn := s.conn.(dumps := s.conn.dumps - {d})) }

  /** The destroy happens under the dump's own lock; the connection forgets the dump one section later. */
  function CloseDumpGo(s: State, a: Id, d: Id, inside: bool): State {
    if inside then Goto(ForgetDump(s, d), a, Over(CloseDump(d), true))
    else if d !in s.children.dumps then Goto(s, a, Over(CloseDump(d), false))
    else if d in s.locks then s
    else if s.children.dumps[d] > 0 then Goto(s, a, Over(CloseDump(d), true))
    else Goto(s.(locks := s.locks[d := a]), a, InDump(d))
  }

  /** The native destroy of a dump, with its retries, and the end of the dump's lock. */
  function DestroyGo(s: State, a: Id, d: Id, ok: bool, done: Pc, failed: Pc): State {
    if d !in s.children.dumps then s
    else
      var t := s.(locks := s.locks - {d});
      if ok then Goto(DestroyDump(t, d), a, done) else Goto(t, a, failed)
  }

  function OpGo(s: State, a: Id, op: Op, inside: bool, ok: bool, pick: Id): State {
    match op
    case Connect => if inside then EndConnect(s, a, ok) else StartConnect(s, a, ok)
    case StopRecording(t) => if inside then EndStop(s, a, t, ok) else StartStop(s, a, t)
    case CloseDump(d) => CloseDumpGo(s, a, d, inside)
    case _ => if inside then Finish(s, a, op, ok, pick) else Enter(s, a, op)
  }

  // ---- Close --------------------------------------------------------------------------------

  function LookGo(s: State, a: Id, again: bool): State {
    if s.op.Some? then s
    else if s.conn.closed then Goto(s, a, CloseOver(true))
    else if s.conn.Busy() then Goto(s, a, CloseOver(false))
    else Goto(s.(op := Some(a)), a, Closing(Dumps(s.conn.dumps, if again then None else s.conn.connecting)))
  }

  predicate OnDumps(at: Close) { at.Dumps? || at.Release? || at.Forget? || at.Recheck? }

  /** The loop over the snapshot of raw dumps, and the hang-up that ends a connect attempt. */
  function DumpsGo(s: State, a: Id, at: Close, ok: bool, pick: Id): State
    requires OnDumps(at)
  {
    var (rest, attempt) := (at.rest, at.attempt);
    match at
    case Forget(d, _, _) => Goto(ForgetDump(s, d), a, Closing(Dumps(rest, attempt)))
    case Release(d, _, _) =>
      DestroyGo(s, a, d, ok, Closing(Forget(d, rest, attempt)), Closing(Recheck(d, rest, attempt)))
    case Recheck(d, _, _) =>
      if d in s.locks then s
      else if s.children.Released(d) then Goto(s, a, Closing(Dumps(rest, attempt))) else Return(s, a, CloseOver(false))
    case Dumps(_, _) =>
      if pick in rest && pick in s.children.dumps then
        if pick in s.locks then s
        else if s.children.dumps[pick] > 0 then Goto(s, a, Closing(Dumps(rest - {pick}, attempt)))
        else Goto(s.(locks := s.locks[pick := a]), a, Closing(Release(pick, rest - {pick}, attempt)))
      else if rest != {} then s
      else match attempt
        case None => Goto(s, a, Closing(Gate))
        case Some(x) =>
          var t := s.(native := Used(s.native));
          if ok then Goto(t.(op := None), a, Closing(AwaitConnect(x))) else Return(t, a, CloseOver(false))
  }

  /** The mailbox gate, the hang-up of a live connection, the native destroy, and what is published afterwards. */
  function FinishClose(s: State, a: Id, at: Close, ok: bool): State {
    match at
    case Gate => if ok then Goto(s, a, Closing(Close.HangUp)) else Return(s, a, CloseOver(false))
    case HangUp =>
      if !s.conn.linked then Goto(s, a, Closing(Close.Destroy))
      else
        var t := s.(native := Used(s.native));
        if ok then Goto(t, a, Closing(Close.Destroy)) else Return(t, a, CloseOver(false))
    case Destroy =>
      var t := s.(native := Used(s.native));
      if ok then Goto(t.(native := t.native.(destroys := s.native.destroys + 1)), a, Closing(Publish))
      else Return(t, a, CloseOver(false))
    case Publish => Goto(s.(conn := s.conn.(closed := true, linked := false)), a, Closing(Leave))
    case Leave => Return(s, a, CloseOver(true))
    case _ => s
  }

  function CloseGo(s: State, a: Id, at: Close, ok: bool, pick: Id): State {
    match at
    case Preflight =>
      if s.conn.closed then Goto(s, a, CloseOver(true))
      else if s.conn.Busy() || !ok then Goto(s, a, CloseOver(false))
      else Goto(s, a, Closing(Look(false)))
    case Look(again) => LookGo(s, a, again)
    case AwaitConnect(x) => if s.conn.connecting == Some(x) then s else Goto(s, a, Closing(Look(true)))
    case _ => if OnDumps(at) then DumpsGo(s, a, at, ok, pick) else FinishClose(s, a, at, ok)
  }

  // ---- Runs ---------------------------------------------------------------------------------

  function Next(s: State, step: Step): State {
    match step
    case Begin(a, op) => if a in s.acts then s else Goto(s, a, Want(op))
    case BeginClose(a) => if a in s.acts then s else Goto(s, a, Closing(Preflight))
    case StateChange(linked) => if s.conn.closed then s else s.(conn := s.conn.(linked := linked))
    case Go(a, ok, pick) =>
      if a !in s.acts then s
      else match s.acts[a]
        case Want(op) => OpGo(s, a, op, false, ok, pick)
        case In(op) => OpGo(s, a, op, true, ok, pick)
        case InDump(d) => DestroyGo(s, a, d, ok, In(CloseDump(d)), Over(CloseDump(d), false))
        case Closing(at) => CloseGo(s, a, at, ok, pick)
        case _ => s
  }

  function Run(steps: seq<Step>): State {
    if steps == [] then INITIAL else Next(Run(steps[..|steps| - 1]), steps[|steps| - 1])
  }

  // ---- What every reachable state keeps -----------------------------------------------------

  predicate HoldsOp(pc: Pc) {
    match pc
    case In(op) => Exclusive(op)
    case Closing(at) => !at.Preflight? && !at.Look? && !at.AwaitConnect?
    case _ => false
  }

  ghost predicate LockAgrees(s: State) {
    && (forall a :: a in s.acts && HoldsOp(s.acts[a]) ==> s.op == Some(a))
    && (s.op.Some? ==> s.op.value in s.acts && HoldsOp(s.acts[s.op.value]))
  }

  /** The dumps among which every unreleased one is found. */
  ghost predicate Unreleased(s: State, among: set<Id>) {
    forall d :: d in s.children.dumps && s.children.dumps[d] == 0 ==> d in among
  }

  ghost predicate HolderAgrees(s: State, pc: Pc) {
    match pc
    case In(_) => !s.conn.closed && s.native.destroys == 0
    case Closing(at) =>
      && s.conn.deps == {} && s.conn.tasks == {}
      && s.conn.closed == at.Leave?
      && s.native.destroys == (if at.Publish? || at.Leave? then 1 else 0)
      && (match at
          case Dumps(rest, _) => Unreleased(s, rest) && rest <= s.children.dumps.Keys
          case Release(d, rest, _) => Unreleased(s, rest + {d}) && rest <= s.children.dumps.Keys
          case Forget(_, rest, _) => Unreleased(s, rest) && rest <= s.children.dumps.Keys
          case Recheck(d, rest, _) => Unreleased(s, rest + {d}) && rest <= s.children.dumps.Keys
          case _ => Unreleased(s, {}))
    case _ => true
  }

  ghost predicate NativeAgrees(s: State) {
    && !s.native.misuse
    && (s.op.Some? ==> s.op.value in s.acts && HolderAgrees(s, s.acts[s.op.value]))
    && (s.op.None? ==> s.native.destroys == if s.conn.closed then 1 else 0)
    && (s.conn.closed ==> s.conn.deps == {} && s.conn.tasks == {} && Unreleased(s, {}))
  }

  ghost predicate DumpsAgree(s: State) {
    && s.conn.dumps <= s.children.dumps.Keys
    && Unreleased(s, s.conn.dumps)
    && (forall d :: d in s.children.dumps ==> s.children.dumps[d] <= 1)
    && (forall a :: a in s.acts && s.acts[a].In? && s.acts[a].op.CloseDump? ==> s.children.Released(s.acts[a].op.d))
    && (forall a :: a in s.acts && s.acts[a].Closing? && s.acts[a].at.Forget? ==> s.children.Released(s.acts[a].at.d))
  }

  ghost predicate TasksAgree(s: State) {
    && (forall t :: t in s.conn.tasks <==> t in s.children.tasks && !s.children.tasks[t].Finished?)
    && (forall a :: a in s.acts && s.acts[a].In? && s.acts[a].op.StopRecording? ==>
          s.acts[a].op.t in s.children.tasks && s.children.tasks[s.acts[a].op.t] == Stopping(a))
    && (forall t :: t in s.children.tasks && s.children.tasks[t].Stopping? ==>
          s.children.tasks[t].stopper in s.acts && s.acts[s.children.tasks[t].stopper] == In(StopRecording(t)))
  }

  ghost predicate AttemptsAgree(s: State) {
    && (s.conn.connecting.Some? ==> s.conn.connecting.value in s.acts && s.acts[s.conn.connecting.value] == In(Connect))
    && (forall a :: a in s.acts && s.acts[a] == In(Connect) ==> s.conn.connecting == Some(a))
  }

  ghost predicate Safe(s: State) {
    LockAgrees(s) && NativeAgrees(s) && DumpsAgree(s) && TasksAgree(s) && AttemptsAgree(s)
  }

  // ---- Raw dumps' own locks -----------------------------------------------------------------

  /** The call holds the lock of dump `d`. */
  predicate OnDump(pc: Pc, d: Id) {
    pc == InDump(d) || (pc.Closing? && pc.at.Release? && pc.at.d == d)
  }

  /** Each lock has one holder, and only an undestroyed dump is locked. */
  ghost predicate LocksAgree(s: State) {
    && (forall d :: d in s.locks ==>
          && d in s.children.dumps && s.children.dumps[d] == 0
          && s.locks[d] in s.acts && OnDump(s.acts[s.locks[d]], d))
    && (forall a, d :: a in s.acts && OnDump(s.acts[a], d) ==> d in s.locks && s.locks[d] == a)
  }

  lemma DestroyKeepsLocks(s: State, a: Id, d: Id, ok: bool, done: Pc, failed: Pc)
    requires LocksAgree(s) && a in s.acts && OnDump(s.acts[a], d)
    requires forall e :: !OnDump(done, e) && !OnDump(failed, e)
    ensures LocksAgree(DestroyGo(s, a, d, ok, done, failed))
  {
  }

  lemma CloseDumpKeepsLocks(s: State, a: Id, d: Id, inside: bool)
    requires LocksAgree(s) && a in s.acts && s.acts[a] == (if inside then In(CloseDump(d)) else Want(CloseDump(d)))
    ensures LocksAgree(CloseDumpGo(s, a, d, inside))
  {
    var t := CloseDumpGo(s, a, d, inside);
    if t.locks != s.locks {
      TakeKeepsLocks(s, a, d, InDump(d));
    } else {
      OtherStepKeepsLocks(s, t, a);
    }
  }

  lemma OpKeepsLocks(s: State, a: Id, op: Op, inside: bool, ok: bool, pick: Id)
    requires LocksAgree(s) && a in s.acts && s.acts[a] == (if inside then In(op) else Want(op))
    ensures LocksAgree(OpGo(s, a, op, inside, ok, pick))
  {
    if op.CloseDump? {
      CloseDumpKeepsLocks(s, a, op.d, inside);
    } else {
      OtherStepKeepsLocks(s, OpGo(s, a, op, inside, ok, pick), a);
    }
  }

  lemma TakeKeepsLocks(s: State, a: Id, d: Id, pc: Pc)
    requires LocksAgree(s) && a in s.acts && d !in s.locks && d in s.children.dumps && s.children.dumps[d] == 0
    requires forall e :: !OnDump(s.acts[a], e) && (OnDump(pc, e) <==> e == d)
    ensures LocksAgree(Goto(s.(locks := s.locks[d := a]), a, pc))
  {
  }

  lemma LoopKeepsLocks(s: State, a: Id, at: Close, ok: bool, pick: Id)
    requires LocksAgree(s) && a in s.acts && s.acts[a] == Closing(at) && OnDumps(at) && !at.Release?
    ensures LocksAgree(DumpsGo(s, a, at, ok, pick))
  {
    var t := DumpsGo(s, a, at, ok, pick);
    if at.Dumps? && t.locks != s.locks {
      TakeKeepsLocks(s, a, pick, Closing(Release(pick, at.rest - {pick}, at.attempt)));
    } else {
      OtherStepKeepsLocks(s, t, a);
    }
  }

  /** A step that touches no dump and no lock, of a call that has none before and after. */
  lemma OtherStepKeepsLocks(s: State, t: State, a: Id)
    requires LocksAgree(s) && a in s.acts && t.locks == s.locks
    requires a in t.acts && t.acts == s.acts[a := t.acts[a]]
    requires forall d :: !OnDump(s.acts[a], d) && !OnDump(t.acts[a], d)
    requires forall d :: d in s.children.dumps ==> d in t.children.dumps && t.children.dumps[d] == s.children.dumps[d]
    ensures LocksAgree(t)
  {
  }

  lemma CloseKeepsLocks(s: State, a: Id, at: Close, ok: bool, pick: Id)
    requires LocksAgree(s) && a in s.acts && s.acts[a] == Closing(at)
    ensures LocksAgree(CloseGo(s, a, at, ok, pick))
  {
    if !OnDumps(at) {
      OtherStepKeepsLocks(s, CloseGo(s, a, at, ok, pick), a);
    } else if !at.Release? {
      LoopKeepsLocks(s, a, at, ok, pick);
    } else {
      DestroyKeepsLocks(s, a, at.d, ok, Closing(Forget(at.d, at.rest, at.attempt)),
                        Closing(Recheck(at.d, at.rest, at.attempt)));
    }
  }

  lemma NextKeepsLocks(s: State, step: Step)
    requires LocksAgree(s)
    ensures LocksAgree(Next(s, step))
  {
    if step.Go? && step.a in s.acts {
      match s.acts[step.a]
      case Want(op) => OpKeepsLocks(s, step.a, op, false, step.ok, step.pick);
      case In(op) => OpKeepsLocks(s, step.a, op, true, step.ok, step.pick);
      case InDump(d) => DestroyKeepsLocks(s, step.a, d, step.ok, In(CloseDump(d)), Over(CloseDump(d), false));
      case Closing(at) => CloseKeepsLocks(s, step.a, at, step.ok, step.pick);
      case _ =>
    }
  }

  // ---- Every step is safe -------------------------------------------------------------------

  predicate OnTaskOrAttempt(pc: Pc) { pc.In? && (pc.op.StopRecording? || pc.op.Connect?) }

  /** A step that concerns neither a recording task nor a connect attempt. */
  lemma TasksStay(s: State, t: State, a: Id)
    requires TasksAgree(s) && AttemptsAgree(s)
    requires a in s.acts && a in t.acts && t.acts == s.acts[a := t.acts[a]]
    requires !OnTaskOrAttempt(s.acts[a]) && !OnTaskOrAttempt(t.acts[a])
    requires t.conn.tasks == s.conn.tasks && t.conn.connecting == s.conn.connecting
    requires t.children.tasks == s.children.tasks
    ensures TasksAgree(t) && AttemptsAgree(t)
  {
  }

  /** The operation lock is taken, kept, left or not touched. */
  predicate LockMoves(s: State, t: State, a: Id)
    requires a in s.acts && a in t.acts
  {
    || (t.op == s.op && (HoldsOp(t.acts[a]) <==> HoldsOp(s.acts[a])))
    || (s.op == Some(a) && t.op.None? && !HoldsOp(t.acts[a]))
    || (s.op.None? && t.op == Some(a) && HoldsOp(t.acts[a]))
  }

  lemma LockStays(s: State, t: State, a: Id)
    requires LockAgrees(s) && a in s.acts && a in t.acts && t.acts == s.acts[a := t.acts[a]] && LockMoves(s, t, a)
    ensures LockAgrees(t)
  {
  }

  lemma EnterIsSafe(s: State, a: Id, op: Op)
    requires Safe(s) && a in s.acts && s.acts[a] == Want(op) && Exclusive(op)
    ensures Safe(Enter(s, a, op))
  {
  }

  lemma FinishIsSafe(s: State, a: Id, op: Op, ok: bool, child: Id)
    requires Safe(s) && a in s.acts && s.acts[a] == In(op) && Exclusive(op)
    ensures Safe(Finish(s, a, op, ok, child))
  {
    assert HoldsOp(s.acts[a]);
  }

  lemma StartConnectIsSafe(s: State, a: Id, ok: bool)
    requires Safe(s) && a in s.acts && s.acts[a] == Want(Connect)
    ensures Safe(StartConnect(s, a, ok))
  {
  }

  lemma EndConnectIsSafe(s: State, a: Id, ok: bool)
    requires Safe(s) && a in s.acts && s.acts[a] == In(Connect)
    ensures Safe(EndConnect(s, a, ok))
  {
  }

  lemma StartStopKeepsTasks(s: State, a: Id, t: Id)
    requires Safe(s) && a in s.acts && s.acts[a] == Want(StopRecording(t))
    ensures TasksAgree(StartStop(s, a, t)) && AttemptsAgree(StartStop(s, a, t))
  {
  }

  lemma StartStopIsSafe(s: State, a: Id, t: Id)
    requires Safe(s) && a in s.acts && s.acts[a] == Want(StopRecording(t))
    ensures Safe(StartStop(s, a, t))
  {
    LockStays(s, StartStop(s, a, t), a);
    StartStopKeepsTasks(s, a, t);
  }

  lemma EndStopIsSafe(s: State, a: Id, t: Id, destroyed: bool)
    requires Safe(s) && a in s.acts && s.acts[a] == In(StopRecording(t))
    ensures Safe(EndStop(s, a, t, destroyed))
  {
  }

  /** A step that only moves a call which neither has nor gets anything. */
  lemma MoveIsSafe(s: State, t: State, a: Id)
    requires Safe(s) && a in s.acts && (s.acts[a].Want? || s.acts[a].Closing?) && !HoldsOp(s.acts[a])
    requires a in t.acts && (t.acts[a].InDump? || t.acts[a].Over? || t.acts[a].CloseOver?)
    requires t.conn == s.conn && t.op == s.op && t.native == s.native && t.children == s.children
    requires t.acts == s.acts[a := t.acts[a]]
    ensures Safe(t)
  {
  }

  lemma CloseDumpIsSafe(s: State, a: Id, d: Id)
    requires Safe(s) && a in s.acts && s.acts[a] == Want(CloseDump(d))
    ensures Safe(CloseDumpGo(s, a, d, false))
  {
    if CloseDumpGo(s, a, d, false) != s {
      MoveIsSafe(s, CloseDumpGo(s, a, d, false), a);
    }
  }

  lemma InDumpKeepsDumps(s: State, a: Id, d: Id, ok: bool)
    requires Safe(s) && LocksAgree(s) && a in s.acts && s.acts[a] == InDump(d)
    ensures var t := DestroyGo(s, a, d, ok, In(CloseDump(d)), Over(CloseDump(d), false));
      DumpsAgree(t)
  {
    assert OnDump(s.acts[a], d);
  }

  lemma InDumpKeepsNative(s: State, a: Id, d: Id, ok: bool)
    requires Safe(s) && LocksAgree(s) && a in s.acts && s.acts[a] == InDump(d)
    ensures NativeAgrees(DestroyGo(s, a, d, ok, In(CloseDump(d)), Over(CloseDump(d), false)))
  {
  }

  lemma InDumpIsSafe(s: State, a: Id, d: Id, ok: bool)
    requires Safe(s) && LocksAgree(s) && a in s.acts && s.acts[a] == InDump(d)
    ensures Safe(DestroyGo(s, a, d, ok, In(CloseDump(d)), Over(CloseDump(d), false)))
  {
    InDumpKeepsDumps(s, a, d, ok);
    InDumpKeepsNative(s, a, d, ok);
    TasksStay(s, DestroyGo(s, a, d, ok, In(CloseDump(d)), Over(CloseDump(d), false)), a);
  }

  lemma ForgetDumpIsSafe(s: State, a: Id, d: Id)
    requires Safe(s) && a in s.acts && s.acts[a] == In(CloseDump(d))
    ensures Safe(CloseDumpGo(s, a, d, true))
  {
  }

  lemma OpGoIsSafe(s: State, a: Id, op: Op, inside: bool, ok: bool, pick: Id)
    requires Safe(s) && a in s.acts && s.acts[a] == (if inside then In(op) else Want(op))
    ensures Safe(OpGo(s, a, op, inside, ok, pick))
  {
    match op
    case Connect => if inside { EndConnectIsSafe(s, a, ok); } else { StartConnectIsSafe(s, a, ok); }
    case StopRecording(t) => if inside { EndStopIsSafe(s, a, t, ok); } else { StartStopIsSafe(s, a, t); }
    case CloseDump(d) => if inside { ForgetDumpIsSafe(s, a, d); } else { CloseDumpIsSafe(s, a, d); }
    case _ => if inside { FinishIsSafe(s, a, op, ok, pick); } else { EnterIsSafe(s, a, op); }
  }

  lemma LookIsSafe(s: State, a: Id, again: bool)
    requires Safe(s) && a in s.acts && s.acts[a] == Closing(Look(again))
    ensures Safe(LookGo(s, a, again))
  {
    TasksStay(s, LookGo(s, a, again), a);
    LockStays(s, LookGo(s, a, again), a);
  }

  lemma DumpsKeepsDumps(s: State, a: Id, at: Close, ok: bool, pick: Id)
    requires Safe(s) && a in s.acts && s.acts[a] == Closing(at) && at.Dumps?
    ensures var t := DumpsGo(s, a, at, ok, pick); NativeAgrees(t) && DumpsAgree(t)
  {
    assert HoldsOp(s.acts[a]);
  }

  lemma DumpsKeepsRest(s: State, a: Id, at: Close, ok: bool, pick: Id)
    requires Safe(s) && a in s.acts && s.acts[a] == Closing(at) && at.Dumps?
    ensures var t := DumpsGo(s, a, at, ok, pick); LockAgrees(t) && TasksAgree(t) && AttemptsAgree(t)
  {
    assert HoldsOp(s.acts[a]);
    TasksStay(s, DumpsGo(s, a, at, ok, pick), a);
    LockStays(s, DumpsGo(s, a, at, ok, pick), a);
  }

  lemma DumpsIsSafe(s: State, a: Id, at: Close, ok: bool, pick: Id)
    requires Safe(s) && a in s.acts && s.acts[a] == Closing(at) && at.Dumps?
    ensures Safe(DumpsGo(s, a, at, ok, pick))
  {
    DumpsKeepsDumps(s, a, at, ok, pick);
    DumpsKeepsRest(s, a, at, ok, pick);
  }

  lemma ReleaseKeepsDumps(s: State, a: Id, at: Close, ok: bool, pick: Id)
    requires Safe(s) && LocksAgree(s) && a in s.acts && s.acts[a] == Closing(at) && at.Release?
    ensures DumpsAgree(DumpsGo(s, a, at, ok, pick))
  {
    assert OnDump(s.acts[a], at.d);
  }

  lemma ReleaseKeepsNative(s: State, a: Id, at: Close, ok: bool, pick: Id)
    requires Safe(s) && LocksAgree(s) && a in s.acts && s.acts[a] == Closing(at) && at.Release?
    ensures NativeAgrees(DumpsGo(s, a, at, ok, pick))
  {
    assert HoldsOp(s.acts[a]) && OnDump(s.acts[a], at.d);
  }

  lemma ReleaseIsSafe(s: State, a: Id, at: Close, ok: bool, pick: Id)
    requires Safe(s) && LocksAgree(s) && a in s.acts && s.acts[a] == Closing(at) && at.Release?
    ensures Safe(DumpsGo(s, a, at, ok, pick))
  {
    assert HoldsOp(s.acts[a]);
    ReleaseKeepsDumps(s, a, at, ok, pick);
    ReleaseKeepsNative(s, a, at, ok, pick);
    TasksStay(s, DumpsGo(s, a, at, ok, pick), a);
    LockStays(s, DumpsGo(s, a, at, ok, pick), a);
  }

  lemma ForgetIsSafe(s: State, a: Id, at: Close, ok: bool, pick: Id)
    requires Safe(s) && a in s.acts && s.acts[a] == Closing(at) && (at.Forget? || at.Recheck?)
    ensures Safe(DumpsGo(s, a, at, ok, pick))
  {
    assert HoldsOp(s.acts[a]);
    TasksStay(s, DumpsGo(s, a, at, ok, pick), a);
    LockStays(s, DumpsGo(s, a, at, ok, pick), a);
  }

  lemma FinishCloseKeepsRest(s: State, a: Id, at: Close, ok: bool)
    requires Safe(s) && a in s.acts && s.acts[a] == Closing(at)
    requires at.Gate? || at.HangUp? || at.Destroy? || at.Publish? || at.Leave?
    ensures var t := FinishClose(s, a, at, ok); DumpsAgree(t) && TasksAgree(t) && AttemptsAgree(t)
  {
    TasksStay(s, FinishClose(s, a, at, ok), a);
  }

  lemma FinishCloseIsSafe(s: State, a: Id, at: Close, ok: bool)
    requires Safe(s) && a in s.acts && s.acts[a] == Closing(at)
    requires at.Gate? || at.HangUp? || at.Destroy? || at.Publish? || at.Leave?
    ensures Safe(FinishClose(s, a, at, ok))
  {
    assert HoldsOp(s.acts[a]);
    FinishCloseKeepsRest(s, a, at, ok);
  }

  lemma CloseWaitsAreSafe(s: State, a: Id, at: Close, ok: bool, pick: Id)
    requires Safe(s) && a in s.acts && s.acts[a] == Closing(at) && (at.Preflight? || at.AwaitConnect?)
    ensures Safe(CloseGo(s, a, at, ok, pick))
  {
    TasksStay(s, CloseGo(s, a, at, ok, pick), a);
    LockStays(s, CloseGo(s, a, at, ok, pick), a);
  }

  lemma CloseGoIsSafe(s: State, a: Id, at: Close, ok: bool, pick: Id)
    requires Safe(s) && LocksAgree(s) && a in s.acts && s.acts[a] == Closing(at)
    ensures Safe(CloseGo(s, a, at, ok, pick))
  {
    match at
    case Preflight => CloseWaitsAreSafe(s, a, at, ok, pick);
    case AwaitConnect(_) => CloseWaitsAreSafe(s, a, at, ok, pick);
    case Look(again) => LookIsSafe(s, a, again);
    case Dumps(_, _) => DumpsIsSafe(s, a, at, ok, pick);
    case Release(_, _, _) => ReleaseIsSafe(s, a, at, ok, pick);
    case Forget(_, _, _) => ForgetIsSafe(s, a, at, ok, pick);
    case Recheck(_, _, _) => ForgetIsSafe(s, a, at, ok, pick);
    case _ => FinishCloseIsSafe(s, a, at, ok);
  }

  lemma NextIsSafe(s: State, step: Step)
    requires Safe(s) && LocksAgree(s)
    ensures Safe(Next(s, step))
  {
    if step.Go? && step.a in s.acts {
      match s.acts[step.a]
      case Want(op) => OpGoIsSafe(s, step.a, op, false, step.ok, step.pick);
      case In(op) => OpGoIsSafe(s, step.a, op, true, step.ok, step.pick);
      case InDump(d) => InDumpIsSafe(s, step.a, d, step.ok);
      case Closing(at) => CloseGoIsSafe(s, step.a, at, step.ok, step.pick);
      case _ =>
    }
  }

  ghost predicate Sound(s: State) { Safe(s) && LocksAgree(s) }

  lemma NextIsSound(s: State, step: Step)
    requires Sound(s)
    ensures Sound(Next(s, step))
  {
    NextKeepsLocks(s, step);
    NextIsSafe(s, step);
  }

  lemma {:induction false} RunIsSafe(steps: seq<Step>)
    ensures Sound(Run(steps))
  {
    if steps != [] {
      RunIsSafe(steps[..|steps| - 1]);
      NextIsSound(Run(steps[..|steps| - 1]), steps[|steps| - 1]);
    }
  }

  /** What a returned call has reported is still true. */
  predicate ReportHolds(s: State, pc: Pc) {
    match pc
    case CloseOver(true) => s.conn.closed
    case Over(StopRecording(t), true) => t in s.children.tasks && s.children.tasks[t].Finished?
    case Over(CloseDump(d), true) => s.children.Released(d)
    case _ => true
  }

  ghost predicate ReportsHold(s: State) {
    forall a :: a in s.acts ==> ReportHolds(s, s.acts[a])
  }

  /** Closed, finished and released are for good. */
  ghost predicate Lasts(s: State, t: State) {
    && (s.conn.closed ==> t.conn.closed)
    && (forall x :: x in s.children.tasks && s.children.tasks[x].Finished? ==>
          x in t.children.tasks && t.children.tasks[x].Finished?)
    && (forall d :: s.children.Released(d) ==> t.children.Released(d))
  }

  ghost predicate OthersStay(s: State, t: State, a: Id) {
    forall b :: b != a ==> (b in t.acts <==> b in s.acts) && (b in s.acts ==> t.acts[b] == s.acts[b])
  }

  lemma GatedOpKeepsReports(s: State, a: Id, op: Op, inside: bool, ok: bool, pick: Id)
    requires a in s.acts && s.acts[a] == (if inside then In(op) else Want(op)) && Exclusive(op)
    ensures var t := OpGo(s, a, op, inside, ok, pick);
      Lasts(s, t) && ReportHolds(t, t.acts[a]) && OthersStay(s, t, a)
  {
  }

  lemma OpKeepsReports(s: State, a: Id, op: Op, inside: bool, ok: bool, pick: Id)
    requires Safe(s) && a in s.acts && s.acts[a] == (if inside then In(op) else Want(op))
    ensures var t := OpGo(s, a, op, inside, ok, pick);
      Lasts(s, t) && ReportHolds(t, t.acts[a]) && OthersStay(s, t, a)
  {
    if Exclusive(op) {
      GatedOpKeepsReports(s, a, op, inside, ok, pick);
    }
  }

  lemma DestroyKeepsReports(s: State, a: Id, d: Id, ok: bool)
    requires a in s.acts && s.acts[a] == InDump(d)
    ensures var t := DestroyGo(s, a, d, ok, In(CloseDump(d)), Over(CloseDump(d), false));
      Lasts(s, t) && ReportHolds(t, t.acts[a]) && OthersStay(s, t, a)
  {
  }

  lemma LoopKeepsReports(s: State, a: Id, at: Close, ok: bool, pick: Id)
    requires Safe(s) && a in s.acts && s.acts[a] == Closing(at) && OnDumps(at)
    ensures var t := DumpsGo(s, a, at, ok, pick);
      Lasts(s, t) && ReportHolds(t, t.acts[a]) && OthersStay(s, t, a)
  {
  }

  lemma CloseKeepsReports(s: State, a: Id, at: Close, ok: bool, pick: Id)
    requires Safe(s) && a in s.acts && s.acts[a] == Closing(at)
    ensures var t := CloseGo(s, a, at, ok, pick);
      Lasts(s, t) && ReportHolds(t, t.acts[a]) && OthersStay(s, t, a)
  {
    if OnDumps(at) {
      LoopKeepsReports(s, a, at, ok, pick);
    }
    if HoldsOp(s.acts[a]) {
      assert s.op == Some(a);
    }
  }

  lemma MoveKeepsReports(s: State, t: State, a: Id)
    requires ReportsHold(s) && Lasts(s, t) && OthersStay(s, t, a)
    requires a in s.acts && a in t.acts && ReportHolds(t, t.acts[a])
    ensures ReportsHold(t)
  {
    forall b | b in t.acts && b != a ensures ReportHolds(t, t.acts[b]) {
      assert ReportHolds(s, s.acts[b]);
    }
  }

  lemma OpReportsHold(s: State, a: Id, op: Op, inside: bool, ok: bool, pick: Id)
    requires Safe(s) && ReportsHold(s) && a in s.acts && s.acts[a] == (if inside then In(op) else Want(op))
    ensures ReportsHold(OpGo(s, a, op, inside, ok, pick))
  {
    OpKeepsReports(s, a, op, inside, ok, pick);
    MoveKeepsReports(s, OpGo(s, a, op, inside, ok, pick), a);
  }

  lemma DestroyReportsHold(s: State, a: Id, d: Id, ok: bool)
    requires ReportsHold(s) && a in s.acts && s.acts[a] == InDump(d)
    ensures ReportsHold(DestroyGo(s, a, d, ok, In(CloseDump(d)), Over(CloseDump(d), false)))
  {
    DestroyKeepsReports(s, a, d, ok);
    MoveKeepsReports(s, DestroyGo(s, a, d, ok, In(CloseDump(d)), Over(CloseDump(d), false)), a);
  }

  lemma CloseReportsHold(s: State, a: Id, at: Close, ok: bool, pick: Id)
    requires Safe(s) && ReportsHold(s) && a in s.acts && s.acts[a] == Closing(at)
    ensures ReportsHold(CloseGo(s, a, at, ok, pick))
  {
    CloseKeepsReports(s, a, at, ok, pick);
    MoveKeepsReports(s, CloseGo(s, a, at, ok, pick), a);
  }

  lemma NextKeepsReports(s: State, step: Step)
    requires Safe(s) && ReportsHold(s)
    ensures ReportsHold(Next(s, step))
  {
    if step.Go? && step.a in s.acts {
      match s.acts[step.a]
      case Want(op) => OpReportsHold(s, step.a, op, false, step.ok, step.pick);
      case In(op) => OpReportsHold(s, step.a, op, true, step.ok, step.pick);
      case InDump(d) => DestroyReportsHold(s, step.a, d, step.ok);
      case Closing(at) => CloseReportsHold(s, step.a, at, step.ok, step.pick);
      case _ =>
    } else {
      var t := Next(s, step);
      forall b | b in s.acts ensures ReportHolds(t, t.acts[b]) {
        assert ReportHolds(s, s.acts[b]);
      }
    }
  }

  lemma {:induction false} ReportsHoldInRuns(steps: seq<Step>)
    ensures ReportsHold(Run(steps))
  {
    if steps != [] {
      RunIsSafe(steps[..|steps| - 1]);
      ReportsHoldInRuns(steps[..|steps| - 1]);
      NextKeepsReports(Run(steps[..|steps| - 1]), steps[|steps| - 1]);
    }
  }

  // ---- Theorems -----------------------------------------------------------------------------

  /**
   Whatever the interleaving and whatever fails: the native connection is destroyed at most once and never
   used afterwards, every raw dump is destroyed at most once, and from the destroy on nothing is attached,
   no recording task is unfinished and no raw dump ever started is unreleased.
   */
  lemma DestroyedOnlyWhenEmpty(steps: seq<Step>)
    ensures var s := Run(steps);
      && !s.native.misuse && s.native.destroys <= 1
      && (forall d :: d in s.children.dumps ==> s.children.dumps[d] <= 1)
      && (s.native.destroys == 1 || s.conn.closed ==> !s.conn.Busy() && s.children.AllGone())
      && (s.conn.closed ==> s.native.destroys == 1)
  {
    RunIsSafe(steps);
    var s := Run(steps);
    if s.op.Some? {
      assert HolderAgrees(s, s.acts[s.op.value]);
    }
  }

  /**
   A call that reported success did what it says, for good: the connection is closed, the task finished, the dump
   released.
   */
  lemma ReportsAreTrue(steps: seq<Step>, a: Id)
    requires a in Run(steps).acts
    ensures var s := Run(steps);
      && (s.acts[a] == CloseOver(true) ==> s.conn.closed)
      && (forall t :: s.acts[a] == Over(StopRecording(t), true) ==>
            t in s.children.tasks && s.children.tasks[t].Finished?)
      && (forall d :: s.acts[a] == Over(CloseDump(d), true) ==> s.children.Released(d))
  {
    ReportsHoldInRuns(steps);
    assert ReportHolds(Run(steps), Run(steps).acts[a]);
  }

  /** There is never more than one connect attempt in flight, and it is the one a close would wait for. */
  lemma OneConnectAttempt(steps: seq<Step>, a: Id)
    requires a in Run(steps).acts
    ensures var s := Run(steps); s.acts[a] == In(Connect) <==> s.conn.connecting == Some(a)
  {
    RunIsSafe(steps);
  }

  lemma ClosedStays(s: State, step: Step)
    requires Sound(s) && s.conn.closed
    ensures var t := Next(s, step);
      t.conn.closed && t.native == s.native && t.children == s.children
  {
    assert s.locks == map[];
    if step.Go? && step.a in s.acts && s.acts[step.a].InDump? {
      assert OnDump(s.acts[step.a], s.acts[step.a].d);
    }
    if s.op.Some? {
      assert HolderAgrees(s, s.acts[s.op.value]);
    }
    if step.Go? && step.a in s.acts && HoldsOp(s.acts[step.a]) {
      assert s.op == Some(step.a);
    }
  }

  lemma OneMoreStep(steps: seq<Step>, last: Step)
    ensures Run(steps + [last]) == Next(Run(steps), last)
  {
    assert (steps + [last])[..|steps|] == steps;
  }

  lemma ClosedStaysInRun(steps: seq<Step>, last: Step)
    requires Run(steps).conn.closed
    ensures var s, t := Run(steps), Run(steps + [last]);
      t.conn.closed && t.native == s.native && t.children == s.children
  {
    RunIsSafe(steps);
    OneMoreStep(steps, last);
    ClosedStays(Run(steps), last);
  }

  /** A closed connection stays closed, starts nothing, and makes no native call any more. */
  lemma {:induction false} ClosedIsForever(steps: seq<Step>, more: seq<Step>)
    requires Run(steps).conn.closed
    ensures var s, t := Run(steps), Run(steps + more);
      t.conn.closed && t.native == s.native && t.children == s.children
    decreases |more|
  {
    if more == [] {
      assert steps + more == steps;
    } else {
      ClosedStaysInRun(steps, more[0]);
      ClosedIsForever(steps + [more[0]], more[1..]);
      assert steps + [more[0]] + more[1..] == steps + more;
    }
  }

  // ---- An attempt that outlives the close ---------------------------------------------------

  /** A close past its looks holds the operation lock, and a connect attempt it will not wait for is in flight. */
  predicate Unawaited(s: State) {
    && s.op.Some? && s.op.value in s.acts && s.acts[s.op.value].Closing? && HoldsOp(s.acts[s.op.value])
    && (OnDumps(s.acts[s.op.value].at) ==> s.acts[s.op.value].at.attempt.None?)
    && s.conn.connecting.Some?
  }

  /** The second look of a close, after the wait for one attempt, finds another attempt and lets it pass. */
  predicate SecondLookPasses(s: State, step: Step) {
    && step.Go? && step.a in s.acts && s.acts[step.a] == Closing(Look(true))
    && s.op.None? && !s.conn.closed && !s.conn.Busy() && s.conn.connecting.Some?
  }

  lemma LookLeavesAttempt(s: State, step: Step)
    requires Sound(s) && !Unawaited(s) && s.op.None?
    ensures Unawaited(Next(s, step)) <==> SecondLookPasses(s, step)
  {
  }

  /** While somebody has the operation lock no attempt begins. */
  lemma OpsBeginNoAttempt(s: State, a: Id, op: Op, inside: bool, ok: bool, pick: Id)
    requires s.op.Some?
    ensures var t := OpGo(s, a, op, inside, ok, pick);
      t.conn.connecting == s.conn.connecting || t.conn.connecting.None?
  {
  }

  lemma ClosesBeginNoAttempt(s: State, a: Id, at: Close, ok: bool, pick: Id)
    ensures CloseGo(s, a, at, ok, pick).conn.connecting == s.conn.connecting
  {
  }

  lemma LockKeepsAttempt(s: State, step: Step)
    requires s.op.Some?
    ensures var t := Next(s, step); t.conn.connecting == s.conn.connecting || t.conn.connecting.None?
  {
    if step.Go? && step.a in s.acts {
      match s.acts[step.a]
      case Want(op) => OpsBeginNoAttempt(s, step.a, op, false, step.ok, step.pick);
      case In(op) => OpsBeginNoAttempt(s, step.a, op, true, step.ok, step.pick);
      case Closing(at) => ClosesBeginNoAttempt(s, step.a, at, step.ok, step.pick);
      case _ =>
    }
  }

  lemma HolderLeavesNoAttempt(s: State, ok: bool, pick: Id)
    requires Sound(s) && !Unawaited(s) && s.op.Some?
    ensures !Unawaited(Next(s, Go(s.op.value, ok, pick)))
  {
    LockKeepsAttempt(s, Go(s.op.value, ok, pick));
  }

  lemma HeldLockLeavesNoAttempt(s: State, step: Step)
    requires Sound(s) && !Unawaited(s) && s.op.Some?
    ensures !Unawaited(Next(s, step))
  {
    if step.Go? && step.a == s.op.value {
      HolderLeavesNoAttempt(s, step.ok, step.pick);
    } else {
      LockKeepsAttempt(s, step);
      OthersKeepHolder(s, step);
    }
  }

  /**
   A connect attempt is in flight when the native connection is destroyed exactly if the close does not wait for
   it, and that begins exactly at a second look.
   */
  lemma AttemptOutlivesIff(steps: seq<Step>, step: Step)
    ensures var (s, t) := (Run(steps), Next(Run(steps), step));
      && (!Unawaited(s) ==> (Unawaited(t) <==> SecondLookPasses(s, step)))
      && (t.native.destroys > s.native.destroys ==> (t.conn.connecting.Some? <==> Unawaited(s)))
  {
    RunIsSafe(steps);
    var s := Run(steps);
    if !Unawaited(s) {
      if s.op.None? {
        LookLeavesAttempt(s, step);
      } else {
        HeldLockLeavesNoAttempt(s, step);
      }
    }
    if Next(s, step).native.destroys > s.native.destroys {
      OnlyCloserDestroys(s, step);
    }
  }

  lemma OpsDestroyNothing(s: State, a: Id, op: Op, inside: bool, ok: bool, pick: Id)
    ensures OpGo(s, a, op, inside, ok, pick).native.destroys == s.native.destroys
  {
  }

  lemma ClosesDestroyAtOnePoint(s: State, a: Id, at: Close, ok: bool, pick: Id)
    ensures var t := CloseGo(s, a, at, ok, pick);
      t.native.destroys == s.native.destroys || (at.Destroy? && t.conn == s.conn)
  {
  }

  lemma OnlyCloserDestroys(s: State, step: Step)
    requires Sound(s) && Next(s, step).native.destroys > s.native.destroys
    ensures Next(s, step).conn.connecting == s.conn.connecting
    ensures step.Go? && s.op == Some(step.a) && step.a in s.acts && s.acts[step.a] == Closing(Close.Destroy)
  {
    match s.acts[step.a]
    case Want(op) => OpsDestroyNothing(s, step.a, op, false, step.ok, step.pick);
    case In(op) => OpsDestroyNothing(s, step.a, op, true, step.ok, step.pick);
    case Closing(at) =>
      ClosesDestroyAtOnePoint(s, step.a, at, step.ok, step.pick);
      assert HoldsOp(s.acts[step.a]);
    case _ =>
  }

  function During(op: Option<Id>, connecting: Option<Id>, acts: map<Id, Pc>): State {
    INITIAL.(conn := INITIAL.conn.(connecting := connecting), op := op, acts := acts)
  }

  /** A close has found the attempt of call 0 and waits for it without the lock. */
  lemma CloseWaitsForAttempt() returns (steps: seq<Step>)
    ensures Run(steps) == During(None, Some(0), map[0 := In(Connect), 1 := Closing(AwaitConnect(0))])
  {
    var s1 := [Begin(0, Connect)];
    var s2 := s1 + [Go(0, true, 0)];
    var s3 := s2 + [BeginClose(1)];
    var s4 := s3 + [Go(1, true, 0)];
    var s5 := s4 + [Go(1, true, 0)];
    steps := s5 + [Go(1, true, 0)];
    OneMoreStep([], s1[0]);
    assert [] + [s1[0]] == s1;
    OneMoreStep(s1, Go(0, true, 0));
    OneMoreStep(s2, BeginClose(1));
    OneMoreStep(s3, Go(1, true, 0));
    OneMoreStep(s4, Go(1, true, 0));
    OneMoreStep(s5, Go(1, true, 0));
    assert Run(s2) == During(None, Some(0), map[0 := In(Connect)]);
    assert Run(s4) == During(None, Some(0), map[0 := In(Connect), 1 := Closing(Look(false))]);
    assert Run(s5) == During(Some(1), Some(0), map[0 := In(Connect), 1 := Closing(Dumps({}, Some(0)))]);
  }

  function Calls(at: Close): map<Id, Pc> { map[0 := Over(Connect, true), 1 := Closing(at), 2 := In(Connect)] }

  /** That attempt ends, another begins, and the second look does not see it. */
  lemma SecondLookHappens() returns (steps: seq<Step>)
    ensures Run(steps) == During(Some(1), Some(2), Calls(Dumps({}, None)))
  {
    var s0 := CloseWaitsForAttempt();
    var s1 := s0 + [Go(0, true, 0)];
    var s2 := s1 + [Begin(2, Connect)];
    var s3 := s2 + [Go(2, true, 0)];
    var s4 := s3 + [Go(1, true, 0)];
    steps := s4 + [Go(1, true, 0)];
    OneMoreStep(s0, Go(0, true, 0));
    OneMoreStep(s1, Begin(2, Connect));
    OneMoreStep(s2, Go(2, true, 0));
    OneMoreStep(s3, Go(1, true, 0));
    OneMoreStep(s4, Go(1, true, 0));
    assert Run(s3) == During(None, Some(2), Calls(AwaitConnect(0)));
    assert Run(s4) == During(None, Some(2), Calls(Look(true)));
  }

  /** The native connection is destroyed, if the runtime lets it, while a connect attempt is in flight. */
  lemma AttemptOutlivesClose()
    ensures exists steps :: Run(steps).native.destroys == 1 && Run(steps).conn.connecting.Some?
  {
    var s0 := SecondLookHappens();
    var s1 := s0 + [Go(1, true, 0)];
    var s2 := s1 + [Go(1, true, 0)];
    var s3 := s2 + [Go(1, true, 0)];
    var s4 := s3 + [Go(1, true, 0)];
    OneMoreStep(s0, Go(1, true, 0));
    OneMoreStep(s1, Go(1, true, 0));
    OneMoreStep(s2, Go(1, true, 0));
    OneMoreStep(s3, Go(1, true, 0));
    assert Run(s1) == During(Some(1), Some(2), Calls(Gate));
    assert Run(s3) == During(Some(1), Some(2), Calls(Close.Destroy));
    assert Run(s4).native.destroys == 1;
  }

  // ---- Progress -----------------------------------------------------------------------------

  /** How many more steps of its own the holder of the operation lock needs at most. */
  function Rank(pc: Pc): nat {
    match pc
    case In(_) => 1
    case Closing(at) =>
      (match at
       case Dumps(rest, _) => 3 * |rest| + 6
       case Release(_, rest, _) => 3 * |rest| + 8
       case Forget(_, rest, _) => 3 * |rest| + 7
       case Recheck(_, rest, _) => 3 * |rest| + 7
       case Gate => 5
       case HangUp => 4
       case Destroy => 3
       case Publish => 2
       case _ => 1)
    case _ => 0
  }

  function HolderRank(s: State): nat {
    if s.op.Some? && s.op.value in s.acts then Rank(s.acts[s.op.value]) else 0
  }

  lemma {:induction false} Unused(ids: set<Id>) returns (id: Id)
    ensures forall i :: i in ids ==> i < id
  {
    if ids == {} {
      id := 0;
    } else {
      var i :| i in ids;
      id := Unused(ids - {i});
      id := if i < id then id else i + 1;
      assert ids == ids - {i} + {i};
    }
  }

  /** A dump that the loop may take next, or a name that is still free for a new child. */
  ghost predicate Fits(s: State, pc: Pc, pick: Id) {
    match pc
    case In(StartRecording) => pick !in s.children.tasks
    case In(StartDump) => pick !in s.children.dumps
    case Closing(Dumps(rest, _)) => rest != {} ==> pick in rest
    case _ => true
  }

  /** The holder of the operation lock needs the own lock of a dump that another call has. */
  predicate NeedsDump(s: State, pc: Pc, pick: Id) {
    match pc
    case Closing(Dumps(rest, _)) => pick in rest && pick in s.locks
    case Closing(Recheck(d, _, _)) => d in s.locks
    case _ => false
  }

  lemma CloserMoves(s: State, ok: bool, pick: Id)
    requires LockAgrees(s) && NativeAgrees(s) && s.op.Some? && s.acts[s.op.value].Closing?
    requires Fits(s, s.acts[s.op.value], pick) && !NeedsDump(s, s.acts[s.op.value], pick)
    requires s.acts[s.op.value].at.Release? ==> s.acts[s.op.value].at.d in s.children.dumps
    ensures Next(s, Go(s.op.value, ok, pick)) != s
  {
    var t := Next(s, Go(s.op.value, ok, pick));
    assert t.op.None? || t.acts[s.op.value] != s.acts[s.op.value];
  }

  /** The holder can go on, whatever its native call answers, unless it needs a dump's lock. */
  lemma HolderMoves(s: State, ok: bool, pick: Id)
    requires LockAgrees(s) && NativeAgrees(s) && LocksAgree(s) && s.op.Some?
    requires Fits(s, s.acts[s.op.value], pick) && !NeedsDump(s, s.acts[s.op.value], pick)
    ensures Next(s, Go(s.op.value, ok, pick)) != s
  {
    var pc := s.acts[s.op.value];
    if pc.Closing? {
      assert pc.at.Release? ==> OnDump(pc, pc.at.d);
      CloserMoves(s, ok, pick);
    } else {
      assert Next(s, Go(s.op.value, ok, pick)).op.None?;
    }
  }

  lemma SomethingFits(s: State, pc: Pc) returns (pick: Id)
    ensures Fits(s, pc, pick)
  {
    if pc.Closing? && pc.at.Dumps? && pc.at.rest != {} {
      pick :| pick in pc.at.rest;
    } else {
      pick := Unused(s.children.tasks.Keys + s.children.dumps.Keys);
    }
  }

  function Exec(s: State, steps: seq<Step>): State
    decreases |steps|
  {
    if steps == [] then s else Exec(Next(s, steps[0]), steps[1..])
  }

  lemma DumpsStepLowersRank(s: State, ok: bool, pick: Id)
    requires LockAgrees(s) && NativeAgrees(s) && s.op.Some? && s.acts[s.op.value].Closing?
    requires s.acts[s.op.value].at.Dumps? && Next(s, Go(s.op.value, ok, pick)) != s
    ensures var t := Next(s, Go(s.op.value, ok, pick)); t.op.None? || (t.op == s.op && HolderRank(t) < HolderRank(s))
  {
  }

  lemma LoopStepLowersRank(s: State, ok: bool, pick: Id)
    requires LockAgrees(s) && NativeAgrees(s) && s.op.Some? && s.acts[s.op.value].Closing?
    requires OnDumps(s.acts[s.op.value].at) && Next(s, Go(s.op.value, ok, pick)) != s
    ensures var t := Next(s, Go(s.op.value, ok, pick)); t.op.None? || (t.op == s.op && HolderRank(t) < HolderRank(s))
  {
    if s.acts[s.op.value].at.Dumps? {
      DumpsStepLowersRank(s, ok, pick);
    }
  }

  lemma CloserStepLowersRank(s: State, ok: bool, pick: Id)
    requires LockAgrees(s) && NativeAgrees(s) && s.op.Some? && s.acts[s.op.value].Closing?
    requires Next(s, Go(s.op.value, ok, pick)) != s
    ensures var t := Next(s, Go(s.op.value, ok, pick)); t.op.None? || (t.op == s.op && HolderRank(t) < HolderRank(s))
  {
    if OnDumps(s.acts[s.op.value].at) {
      LoopStepLowersRank(s, ok, pick);
    }
  }

  /** A step of the holder that does anything brings it closer to letting go, whatever its native call answered. */
  lemma OwnStepLowersRank(s: State, ok: bool, pick: Id)
    requires LockAgrees(s) && NativeAgrees(s) && s.op.Some? && Next(s, Go(s.op.value, ok, pick)) != s
    ensures var t := Next(s, Go(s.op.value, ok, pick)); t.op.None? || (t.op == s.op && HolderRank(t) < HolderRank(s))
  {
    if s.acts[s.op.value].Closing? {
      CloserStepLowersRank(s, ok, pick);
    }
  }

  /** No step of another thread touches the holder. */
  lemma OthersKeepHolder(s: State, step: Step)
    requires LockAgrees(s) && s.op.Some? && !(step.Go? && step.a == s.op.value)
    ensures var t := Next(s, step);
      t.op == s.op && s.op.value in t.acts && t.acts[s.op.value] == s.acts[s.op.value]
  {
  }

  predicate OwnStep(s: State, step: Step, a: Id) { step.Go? && step.a == a && Next(s, step) != s }

  /** How many of the steps are steps of `a` that do anything. */
  function OwnSteps(s: State, steps: seq<Step>, a: Id): nat
    decreases |steps|
  {
    if steps == [] then 0
    else (if OwnStep(s, steps[0], a) then 1 else 0) + OwnSteps(Next(s, steps[0]), steps[1..], a)
  }

  /** `a` has the lock before, between and after all of the steps. */
  predicate Held(s: State, steps: seq<Step>, a: Id)
    decreases |steps|
  {
    s.op == Some(a) && (steps == [] || Held(Next(s, steps[0]), steps[1..], a))
  }

  lemma HeldStep(s: State, step: Step, a: Id)
    requires Safe(s) && s.op == Some(a) && Next(s, step).op == Some(a)
    ensures HolderRank(Next(s, step)) + (if OwnStep(s, step, a) then 1 else 0) <= HolderRank(s)
  {
    if step.Go? && step.a == a {
      if Next(s, step) != s {
        OwnStepLowersRank(s, step.ok, step.pick);
      }
    } else {
      OthersKeepHolder(s, step);
    }
  }

  lemma {:induction false} HoldingUsesRank(s: State, steps: seq<Step>, a: Id)
    requires Sound(s) && Held(s, steps, a)
    ensures OwnSteps(s, steps, a) < HolderRank(s)
    decreases |steps|
  {
    if steps != [] {
      HeldStep(s, steps[0], a);
      NextIsSound(s, steps[0]);
      HoldingUsesRank(Next(s, steps[0]), steps[1..], a);
    }
  }

  lemma {:induction false} LetGo(s: State, steps: seq<Step>, a: Id) returns (k: nat)
    requires !Held(s, steps, a)
    ensures k <= |steps| && Exec(s, steps[..k]).op != Some(a)
    decreases |steps|
  {
    if s.op != Some(a) {
      k := 0;
    } else {
      var j := LetGo(Next(s, steps[0]), steps[1..], a);
      k := j + 1;
      assert steps[..k][1..] == steps[1..][..j];
    }
  }

  /**
   The operation lock is never stuck: however other threads interleave and whatever each native call answers, the
   holder has let it go once it has taken a bounded number of steps of its own.
   */
  lemma OperationLockIsReleased(steps: seq<Step>, more: seq<Step>)
    requires Run(steps).op.Some?
    requires OwnSteps(Run(steps), more, Run(steps).op.value) >= HolderRank(Run(steps))
    ensures exists k: nat :: k <= |more| && Exec(Run(steps), more[..k]).op != Run(steps).op
  {
    RunIsSafe(steps);
    var s := Run(steps);
    if Held(s, more, s.op.value) {
      HoldingUsesRank(s, more, s.op.value);
    }
    var k := LetGo(s, more, s.op.value);
    assert Exec(s, more[..k]).op != s.op;
  }

  /** Whoever else holds a dump's lock is in the destroy of that dump, and lets go with its next step. */
  lemma DumpIsReleased(s: State, d: Id, ok: bool, pick: Id)
    requires Sound(s) && d in s.locks && s.op.Some? && s.locks[d] != s.op.value
    ensures s.acts[s.locks[d]] == InDump(d)
    ensures var t := Next(s, Go(s.locks[d], ok, pick));
      && d !in t.locks && t.op == s.op && s.op.value in s.acts && s.op.value in t.acts
      && t.acts[s.op.value] == s.acts[s.op.value]
  {
    assert !HoldsOp(s.acts[s.locks[d]]);
    OthersKeepHolder(s, Go(s.locks[d], ok, pick));
  }

  lemma ReleaseUnblocks(s: State, d: Id, ok: bool, pick: Id, other: bool, any: Id)
    requires Sound(s) && s.op.Some? && d in s.locks && s.op.value in s.acts
    requires Fits(s, s.acts[s.op.value], pick) && NeedsDump(s, s.acts[s.op.value], pick)
    requires d == if s.acts[s.op.value].at.Dumps? then pick else s.acts[s.op.value].at.d
    ensures s.locks[d] != s.op.value
    ensures OwnStep(Next(s, Go(s.locks[d], other, any)), Go(s.op.value, ok, pick), s.op.value)
  {
    assert OnDump(s.acts[s.locks[d]], d);
    DumpIsReleased(s, d, other, any);
    var t := Next(s, Go(s.locks[d], other, any));
    NextIsSound(s, Go(s.locks[d], other, any));
    HolderMoves(t, ok, pick);
  }

  /**
   And the holder can always take such a step, whatever its native call answers, unless it needs the own lock of a
   raw dump; then the next step of the call that has that lock, whatever its destroy answers, lets the holder go on.
   */
  lemma HolderIsNeverBlocked(steps: seq<Step>, ok: bool, pick: Id)
    requires Run(steps).op.Some?
    requires Run(steps).op.value in Run(steps).acts ==> Fits(Run(steps), Run(steps).acts[Run(steps).op.value], pick)
    ensures var (s, a) := (Run(steps), Run(steps).op.value);
      || OwnStep(s, Go(a, ok, pick), a)
      || exists b :: b != a && b in s.acts && s.acts[b].InDump?
           && forall other, any :: OwnStep(Next(s, Go(b, other, any)), Go(a, ok, pick), a)
  {
    RunIsSafe(steps);
    var (s, a) := (Run(steps), Run(steps).op.value);
    if NeedsDump(s, s.acts[a], pick) {
      var d := if s.acts[a].at.Dumps? then pick else s.acts[a].at.d;
      var b := s.locks[d];
      forall other, any ensures OwnStep(Next(s, Go(b, other, any)), Go(a, ok, pick), a) {
        ReleaseUnblocks(s, d, ok, pick, other, any);
      }
      DumpIsReleased(s, d, ok, pick);
    } else {
      HolderMoves(s, ok, pick);
    }
  }

  // ---- Closing again ------------------------------------------------------------------------

  /** A close has the operation lock, and no other call has a dump's. */
  predicate HasLock(s: State, a: Id) {
    && s.op == Some(a) && a in s.acts && s.acts[a].Closing? && !s.acts[a].at.Recheck?
    && (s.acts[a].at.Dumps? || s.acts[a].at.Release? || s.acts[a].at.Forget? ==> s.acts[a].at.attempt.None?)
    && forall d :: d in s.locks ==> s.locks[d] == a
  }

  lemma ClosingGoesOn(s: State, a: Id) returns (pick: Id)
    requires Sound(s) && !s.conn.closed && HasLock(s, a)
    ensures var t := Next(s, Go(a, true, pick));
      Sound(t) && (t.conn.closed || HasLock(t, a)) && HolderRank(t) < HolderRank(s)
  {
    pick := SomethingFits(s, s.acts[a]);
    assert !NeedsDump(s, s.acts[a], pick);
    HolderMoves(s, true, pick);
    OwnStepLowersRank(s, true, pick);
    NextIsSound(s, Go(a, true, pick));
  }

  /** A close that has the lock and meets no failing native call closes. */
  lemma {:induction false} CloseSucceeds(s: State, a: Id) returns (more: seq<Step>)
    requires Sound(s) && (s.conn.closed || HasLock(s, a))
    ensures Exec(s, more).conn.closed
    decreases HolderRank(s)
  {
    if s.conn.closed {
      more := [];
    } else {
      var pick := ClosingGoesOn(s, a);
      var rest := CloseSucceeds(Next(s, Go(a, true, pick)), a);
      more := [Go(a, true, pick)] + rest;
      assert more[1..] == rest;
    }
  }

  /** The operation lock is free, nothing is attached, no dump is locked and no connect attempt under way. */
  predicate Clear(s: State) {
    s.op.None? && !s.conn.Busy() && !s.conn.closed && s.conn.connecting.None? && s.locks == map[]
  }

  /** A new close with nothing in its way comes to its first look. */
  lemma CloseLooks(s: State, a: Id)
    requires Sound(s) && Clear(s) && a !in s.acts
    ensures var u := Next(Next(s, BeginClose(a)), Go(a, true, 0));
      Sound(u) && u == s.(acts := s.acts[a := Closing(Look(false))])
  {
    NextIsSound(s, BeginClose(a));
    NextIsSound(Next(s, BeginClose(a)), Go(a, true, 0));
  }

  lemma LookLocks(u: State, a: Id)
    requires Sound(u) && Clear(u) && a in u.acts && u.acts[a] == Closing(Look(false))
    ensures Sound(Next(u, Go(a, true, 0))) && HasLock(Next(u, Go(a, true, 0)), a)
  {
    NextIsSound(u, Go(a, true, 0));
  }

  /** Then it gets the operation lock, and has no attempt to wait for. */
  lemma CloseGetsLock(s: State) returns (more: seq<Step>)
    requires Sound(s) && Clear(s)
    ensures Exec(s, more).conn.closed
  {
    var a := Unused(s.acts.Keys);
    var (x, y) := (BeginClose(a), Go(a, true, 0));
    var u := Next(Next(s, x), y);
    CloseLooks(s, a);
    LookLocks(u, a);
    var rest := CloseSucceeds(Next(u, y), a);
    more := [x, y, y] + rest;
    assert more[1..] == [y, y] + rest && more[1..][1..] == [y] + rest && more[1..][1..][1..] == rest;
    assert Exec(Next(s, x), more[1..]) == Exec(u, more[1..][1..]);
  }

  /** The connect attempt in flight ends. */
  lemma AttemptEnds(s: State) returns (more: seq<Step>)
    requires Sound(s) && s.op.None? && !s.conn.Busy() && !s.conn.closed && s.locks == map[]
    ensures Exec(s, more).conn.closed
  {
    if s.conn.connecting.None? {
      more := CloseGetsLock(s);
    } else {
      var ends := Go(s.conn.connecting.value, true, 0);
      NextIsSound(s, ends);
      var rest := CloseGetsLock(Next(s, ends));
      more := [ends] + rest;
      assert more[1..] == rest;
    }
  }

  /** The calls that are in the destroy of a dump return, failing. */
  lemma {:induction false} LocksClear(s: State) returns (more: seq<Step>)
    requires Sound(s) && s.op.None? && !s.conn.Busy() && !s.conn.closed
    ensures Exec(s, more).conn.closed
    decreases s.locks.Keys
  {
    if d :| d in s.locks {
      var step := Go(s.locks[d], false, 0);
      assert !HoldsOp(s.acts[s.locks[d]]);
      NextIsSound(s, step);
      assert Next(s, step).locks.Keys == s.locks.Keys - {d};
      var rest := LocksClear(Next(s, step));
      more := [step] + rest;
      assert more[1..] == rest;
    } else {
      more := AttemptEnds(s);
    }
  }

  /**
   However many closes failed before: whenever the operation lock is free and nothing is attached, one more
   close, after the calls and the connect attempt in flight have ended, can still close the connection.
   */
  lemma CloseCanBeRetried(steps: seq<Step>)
    requires var s := Run(steps); s.op.None? && !s.conn.Busy()
    ensures exists more :: Exec(Run(steps), more).conn.closed
  {
    RunIsSafe(steps);
    var s := Run(steps);
    if s.conn.closed {
      assert Exec(s, []).conn.closed;
    } else {
      var more := LocksClear(s);
      assert Exec(s, more).conn.closed;
    }
  }
}
