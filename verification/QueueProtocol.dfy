/**
 The callback queue under any number of threads. A step is one section between taking and releasing
 the lock. The condition variable is explicit: a thread is asleep or not, Signal wakes one sleeper
 chosen by the scheduler, Broadcast wakes all of them. A step that the state does not allow changes
 nothing, so every sequence of steps is a run.
 */
module QueueProtocol {
  import opened Common
  import opened CallbackLanes

  datatype Worker = Ready | Asleep | Running(kind: Kind, f: Func) | Exited

  /** Where a thread that may have to wait stands. A dispatching producer runs a refused task itself. */
  datatype Pc =
    | Producing(f: Func, dispatching: bool, asleep: bool)
    | AwaitingIdle(asleep: bool)
    | Closing(announced: bool, asleep: bool)
    | Produced(f: Func, dispatching: bool, accepted: bool)
    | SawIdle
    | ClosedQueue

  /** Every callback handed over so far and what became of it, oldest first. */
  datatype Log = Log(issued: set<Func>, runInline: seq<Func>,
                     events: seq<Func>, startedEvents: seq<Func>, finishedEvents: seq<Func>,
                     controls: seq<Func>, startedControls: seq<Func>, finishedControls: seq<Func>,
                     critical: multiset<Func>, startedCritical: multiset<Func>, superseded: multiset<Func>)

  datatype State = State(lanes: Lanes, worker: Worker, threads: map<nat, Pc>, log: Log)

  datatype Sleeper = TheWorker | Thread(id: nat)

  /** `pick` is the sleeper a Signal in this step wakes. */
  datatype Step =
    | ArriveProducer(id: nat, f: Func, dispatching: bool)
    | ArriveWaiter(id: nat)
    | ArriveCloser(id: nat)
    | PostNow(kind: Kind, f: Func, pick: Option<Sleeper>)
    | Resume(id: nat, pick: Option<Sleeper>)
    | Work

  const EMPTY_LOG := Log({}, [], [], [], [], [], [], [], multiset{}, multiset{}, multiset{})
  const INITIAL := State(Lanes([], [], [NIL, NIL, NIL], 0, false, false), Ready, map[], EMPTY_LOG)

  predicate IsAsleep(pc: Pc) {
    (pc.Producing? || pc.AwaitingIdle? || pc.Closing?) && pc.asleep
  }

  function Roused(pc: Pc): Pc {
    if IsAsleep(pc) then pc.(asleep := false) else pc
  }

  predicate Sleeps(s: State, who: Sleeper) {
    match who
    case TheWorker => s.worker.Asleep?
    case Thread(id) => id in s.threads && IsAsleep(s.threads[id])
  }

  function Broadcast(s: State): (t: State)
    ensures t.lanes == s.lanes && t.log == s.log && t.threads.Keys == s.threads.Keys
    ensures t.worker == s.worker || (s.worker.Asleep? && t.worker.Ready?)
    ensures forall id :: id in s.threads ==> t.threads[id] == Roused(s.threads[id])
  {
    s.(worker := if s.worker.Asleep? then Ready else s.worker,
       threads := map id | id in s.threads :: Roused(s.threads[id]))
  }

  /** Signal wakes somebody whenever anybody sleeps. */
  ghost predicate MayPick(s: State, wake: Wake, pick: Option<Sleeper>) {
    wake.One? ==>
      match pick
      case Some(who) => Sleeps(s, who)
      case None => forall who :: !Sleeps(s, who)
  }

  function Rouse(s: State, wake: Wake, pick: Option<Sleeper>): (t: State)
    ensures t.lanes == s.lanes && t.log == s.log && t.threads.Keys == s.threads.Keys
    ensures t.worker == s.worker || (s.worker.Asleep? && t.worker.Ready?)
    ensures forall id :: id in s.threads ==> t.threads[id] == s.threads[id] || t.threads[id] == Roused(s.threads[id])
  {
    if wake.Everybody? then Broadcast(s)
    else if wake.One? && pick.Some? && Sleeps(s, pick.value) then
      match pick.value
      case TheWorker => s.(worker := Ready)
      case Thread(id) => s.(threads := s.threads[id := Roused(s.threads[id])])
    else s
  }

  function Bag(f: Func): multiset<Func> {
    if f == NIL then multiset{} else multiset{f}
  }

  function Record(log: Log, q: Lanes, kind: Kind, f: Func): Log
    requires q.Bounded()
  {
    if f == NIL || !Offer(q, kind, f).wake.One? then log
    else match kind
      case Ordinary => log.(events := log.events + [f])
      case Control => log.(controls := log.controls + [f])
      case Critical(slot, _) =>
        log.(critical := log.critical + multiset{f},
             superseded := log.superseded + Bag(q.critical[slot]))
  }

  function RecordStart(log: Log, kind: Kind, f: Func): Log {
    match kind
    case Ordinary => log.(startedEvents := log.startedEvents + [f])
    case Control => log.(startedControls := log.startedControls + [f])
    case Critical(_, _) => log.(startedCritical := log.startedCritical + multiset{f})
  }

  function RecordFinish(log: Log, kind: Kind, f: Func): Log {
    match kind
    case Ordinary => log.(finishedEvents := log.finishedEvents + [f])
    case Control => log.(finishedControls := log.finishedControls + [f])
    case Critical(_, _) => log
  }

  ghost function PostStep(s: State, kind: Kind, f: Func, pick: Option<Sleeper>): State
    requires s.lanes.Bounded()
  {
    var r := Offer(s.lanes, kind, f);
    if f == NIL || f in s.log.issued || !MayPick(s, r.wake, pick) then s
    else
      Rouse(s.(lanes := r.lanes, log := Record(s.log, s.lanes, kind, f).(issued := s.log.issued + {f})),
            r.wake, pick)
  }

  ghost function ProducerStep(s: State, id: nat, pick: Option<Sleeper>): State
    requires s.lanes.Bounded() && id in s.threads && s.threads[id].Producing?
  {
    var pc := s.threads[id];
    var r := OfferReliably(s.lanes, pc.f);
    if !MayPick(s, r.wake, pick) then s
    else match r.verdict
      case Blocked => s.(threads := s.threads[id := Producing(pc.f, pc.dispatching, true)])
      case Refused =>
        s.(threads := s.threads[id := Produced(pc.f, pc.dispatching, false)],
           log := s.log.(runInline := if pc.dispatching then s.log.runInline + [pc.f] else s.log.runInline))
      case Accepted =>
        Rouse(s.(lanes := r.lanes, threads := s.threads[id := Produced(pc.f, pc.dispatching, true)],
                 log := Record(s.log, s.lanes, Ordinary, pc.f)), r.wake, pick)
  }

  /** A closer announces once, then waits for the worker to stop. */
  function CloserStep(s: State, id: nat): State
    requires id in s.threads && s.threads[id].Closing?
  {
    var t := if s.threads[id].announced then s else Broadcast(s.(lanes := s.lanes.(closed := true)));
    t.(threads := t.threads[id := if t.lanes.stopped then ClosedQueue else Closing(true, true)])
  }

  ghost function ResumeStep(s: State, id: nat, pick: Option<Sleeper>): State
    requires s.lanes.Bounded() && id in s.threads
  {
    match s.threads[id]
    case Producing(_, _, false) => ProducerStep(s, id, pick)
    case AwaitingIdle(false) =>
      s.(threads := s.threads[id := if s.lanes.active == 0 && !s.lanes.Pending() then SawIdle
                                    else AwaitingIdle(true)])
    case Closing(_, false) => CloserStep(s, id)
    case _ => s
  }

  /** The worker's decision, with the broadcast the source makes when it takes a callback or stops. */
  function TurnStep(s: State): State {
    var (lanes, turn) := TakeTurn(s.lanes);
    match turn
    case Sleep => s.(worker := Asleep)
    case Stop => Broadcast(s.(lanes := lanes, worker := Exited))
    case Run(kind, f) => Broadcast(s.(lanes := lanes, worker := Running(kind, f), log := RecordStart(s.log, kind, f)))
  }

  function WorkStep(s: State): State {
    match s.worker
    case Ready => TurnStep(s)
    case Running(kind, f) =>
      TurnStep(Broadcast(s.(lanes := s.lanes.(active := if s.lanes.active == 0 then 0 else s.lanes.active - 1),
                            worker := Ready, log := RecordFinish(s.log, kind, f))))
    case _ => s
  }

  ghost function Next(s: State, step: Step): State
    requires s.lanes.Bounded()
  {
    match step
    case ArriveProducer(id, f, dispatching) =>
      if id in s.threads || f == NIL || f in s.log.issued then s
      else s.(threads := s.threads[id := Producing(f, dispatching, false)], log := s.log.(issued := s.log.issued + {f}))
    case ArriveWaiter(id) =>
      if id in s.threads then s else s.(threads := s.threads[id := AwaitingIdle(false)])
    case ArriveCloser(id) =>
      if id in s.threads then s else s.(threads := s.threads[id := Closing(false, false)])
    case PostNow(kind, f, pick) => PostStep(s, kind, f, pick)
    case Resume(id, pick) => if id in s.threads then ResumeStep(s, id, pick) else s
    case Work => WorkStep(s)
  }

  // ---- The lock-and-sleep invariant ---------------------------------------------------------

  ghost predicate WorkerAgrees(s: State) {
    && s.lanes.Bounded()
    && s.lanes.active == (if s.worker.Running? then 1 else 0)
    && (s.lanes.stopped <==> s.worker.Exited?)
    && (s.lanes.stopped ==> s.lanes.closed && !s.lanes.Pending())
    && (s.worker.Asleep? ==> !s.lanes.closed && !s.lanes.Pending())
  }

  /** Why a thread that sleeps has to sleep. */
  predicate MustWait(q: Lanes, pc: Pc) {
    match pc
    case Producing(_, _, _) => |q.events| == EVENT_CAPACITY && !q.closed
    case AwaitingIdle(_) => q.active != 0 || q.Pending()
    case Closing(announced, _) => announced && q.closed && !q.stopped
    case _ => false
  }

  ghost predicate SleepersMustWait(s: State) {
    forall id :: id in s.threads && IsAsleep(s.threads[id]) ==> MustWait(s.lanes, s.threads[id]) && !s.worker.Asleep?
  }

  ghost predicate ClosersHeard(s: State) {
    forall id :: id in s.threads ==>
      && (s.threads[id].Closing? && s.threads[id].announced ==> s.lanes.closed)
      && (s.threads[id].ClosedQueue? ==> s.lanes.stopped)
  }

  ghost predicate Safe(s: State) {
    WorkerAgrees(s) && SleepersMustWait(s) && ClosersHeard(s)
  }

  ghost function Run(steps: seq<Step>): (s: State)
    ensures Safe(s)
  {
    if steps == [] then INITIAL
    else
      var s := Run(steps[..|steps| - 1]);
      NextIsSafe(s, steps[|steps| - 1]);
      Next(s, steps[|steps| - 1])
  }

  lemma OfferKeepsPending(q: Lanes, kind: Kind, f: Func)
    requires q.Bounded()
    ensures var r := Offer(q, kind, f).lanes;
      && (q.Pending() ==> r.Pending())
      && r.Bounded() && r.active == q.active && r.closed == q.closed && r.stopped == q.stopped
      && |q.events| <= |r.events| && (q.closed ==> r == q)
  {
    var r := Offer(q, kind, f).lanes;
    if kind.Critical? && r != q {
      assert r.critical[kind.slot] == f;
    }
  }

  /** The worker is the only sleeper, so a post that adds anything wakes it. */
  lemma PostWakesWorker(s: State, kind: Kind, f: Func, pick: Option<Sleeper>)
    requires Safe(s) && s.worker.Asleep?
    ensures Safe(PostStep(s, kind, f, pick))
  {
    OfferKeepsPending(s.lanes, kind, f);
    assert Sleeps(s, TheWorker);
    assert forall id :: !Sleeps(s, Thread(id));
    assert Offer(s.lanes, kind, f).wake.One? || Offer(s.lanes, kind, f).lanes == s.lanes;
  }

  lemma PostKeepsWorker(s: State, kind: Kind, f: Func, pick: Option<Sleeper>)
    requires Safe(s) && !s.worker.Asleep?
    ensures WorkerAgrees(PostStep(s, kind, f, pick))
  {
    OfferKeepsPending(s.lanes, kind, f);
  }

  /** Nobody who sleeps is freed by a post, and whoever it wakes may be woken. */
  lemma PostKeepsSleepers(s: State, kind: Kind, f: Func, pick: Option<Sleeper>)
    requires Safe(s) && !s.worker.Asleep?
    ensures SleepersMustWait(PostStep(s, kind, f, pick)) && ClosersHeard(PostStep(s, kind, f, pick))
  {
    OfferKeepsPending(s.lanes, kind, f);
    var t := PostStep(s, kind, f, pick);
    forall id | id in t.threads ensures t.threads[id] == s.threads[id] || t.threads[id] == Roused(s.threads[id]) {
    }
  }

  lemma PostIsSafe(s: State, kind: Kind, f: Func, pick: Option<Sleeper>)
    requires Safe(s)
    ensures Safe(PostStep(s, kind, f, pick))
  {
    if s.worker.Asleep? {
      PostWakesWorker(s, kind, f, pick);
    } else {
      PostKeepsWorker(s, kind, f, pick);
      PostKeepsSleepers(s, kind, f, pick);
    }
  }

  lemma ProducerIsSafe(s: State, id: nat, pick: Option<Sleeper>)
    requires Safe(s) && id in s.threads && s.threads[id].Producing? && !s.threads[id].asleep
    ensures Safe(ProducerStep(s, id, pick))
  {
    var r := OfferReliably(s.lanes, s.threads[id].f);
    if s.worker.Asleep? && r.wake.One? && MayPick(s, r.wake, pick) {
      assert Sleeps(s, TheWorker);
    }
  }

  lemma TurnIsSafe(s: State)
    requires WorkerAgrees(s.(lanes := s.lanes.(active := 0), worker := Ready)) && SleepersMustWait(s) && ClosersHeard(s)
    requires s.worker.Ready? && s.lanes.active == 0
    ensures Safe(TurnStep(s))
  {
  }

  lemma WorkIsSafe(s: State)
    requires Safe(s)
    ensures Safe(WorkStep(s))
  {
    match s.worker
    case Ready => TurnIsSafe(s);
    case Running(kind, f) =>
      TurnIsSafe(Broadcast(s.(lanes := s.lanes.(active := 0), worker := Ready, log := RecordFinish(s.log, kind, f))));
    case _ =>
  }

  lemma NextIsSafe(s: State, step: Step)
    requires Safe(s)
    ensures Safe(Next(s, step))
  {
    match step
    case PostNow(kind, f, pick) => PostIsSafe(s, kind, f, pick);
    case Work => WorkIsSafe(s);
    case Resume(id, pick) =>
      if id in s.threads && s.threads[id].Producing? && !s.threads[id].asleep {
        ProducerIsSafe(s, id, pick);
      }
    case _ =>
  }

  /** Nobody sleeps without cause, and whoever sleeps is woken by the worker's very next section. */
  lemma NoMissedWakeUp(steps: seq<Step>)
    ensures var s := Run(steps);
      && (s.worker.Asleep? ==>
            && !s.lanes.Pending() && s.lanes.active == 0 && !s.lanes.closed
            && forall id :: !Sleeps(s, Thread(id)))
      && (forall id :: Sleeps(s, Thread(id)) ==>
            && (s.worker.Ready? || s.worker.Running?)
            && MustWait(s.lanes, s.threads[id])
            && !Sleeps(Next(s, Work), Thread(id)))
  {
    var s := Run(steps);
    forall id | Sleeps(s, Thread(id))
      ensures (s.worker.Ready? || s.worker.Running?) && !Sleeps(Next(s, Work), Thread(id))
    {
      assert MustWait(s.lanes, s.threads[id]);
      if s.worker.Ready? {
        assert s.lanes.Pending() || s.lanes.closed;
      }
    }
  }

  // ---- Closing terminates -------------------------------------------------------------------

  function Occupied(critical: seq<Func>): int {
    |critical| - multiset(critical)[NIL]
  }

  /** How many more worker sections a closed queue needs. */
  function SectionsLeft(s: State): int {
    if s.lanes.stopped then 0
    else Occupied(s.lanes.critical) + |s.lanes.controls| + |s.lanes.events| + 1
  }

  lemma NoneOccupied(critical: seq<Func>)
    ensures Occupied(critical) >= 0
    ensures FirstCritical(critical) == -1 ==> Occupied(critical) == 0
  {
    if critical != [] {
      var n := |critical| - 1;
      NoneOccupied(critical[..n]);
      assert critical == critical[..n] + [critical[n]];
      if FirstCritical(critical) == -1 {
        assert forall k :: 0 <= k < n ==> critical[..n][k] == critical[k];
      }
    }
  }

  lemma TurnUsesOneSection(s: State)
    requires s.lanes.Bounded() && s.lanes.closed && !s.lanes.stopped
    ensures SectionsLeft(s) > 0 && SectionsLeft(TurnStep(s)) == SectionsLeft(s) - 1
  {
    var critical := s.lanes.critical;
    var slot := FirstCritical(critical);
    NoneOccupied(critical);
    if slot >= 0 {
      assert multiset(critical[slot := NIL]) == multiset(critical) - multiset{critical[slot]} + multiset{NIL};
    }
  }

  /** In a closed queue a worker section always makes progress and nothing else adds work. */
  lemma ClosedQueueOnlyDrains(s: State, step: Step)
    requires Safe(s) && s.lanes.closed
    ensures Next(s, step).lanes.closed
    ensures s.lanes.stopped ==> SectionsLeft(Next(s, step)) == 0
    ensures !s.lanes.stopped ==> SectionsLeft(s) > 0
    ensures !s.lanes.stopped ==> SectionsLeft(Next(s, step)) == SectionsLeft(s) - if step.Work? then 1 else 0
  {
    NoneOccupied(s.lanes.critical);
    if step.Work? && s.worker.Ready? {
      TurnUsesOneSection(s);
    } else if step.Work? && s.worker.Running? {
      TurnUsesOneSection(Broadcast(s.(lanes := s.lanes.(active := 0), worker := Ready,
                                      log := RecordFinish(s.log, s.worker.kind, s.worker.f))));
    }
  }

  function Works(steps: seq<Step>): nat {
    if steps == [] then 0 else Works(steps[..|steps| - 1]) + if steps[|steps| - 1].Work? then 1 else 0
  }

  /** However the other threads interleave, `close` has its condition after a bounded number of worker sections. */
  lemma {:induction false} CloseReturns(steps: seq<Step>, more: seq<Step>)
    requires Run(steps).lanes.closed
    requires Works(more) >= SectionsLeft(Run(steps))
    ensures Run(steps + more).lanes.stopped
  {
    DrainsBy(steps, more);
  }

  lemma {:induction false} DrainsBy(steps: seq<Step>, more: seq<Step>)
    requires Run(steps).lanes.closed
    ensures var s, t := Run(steps), Run(steps + more);
      && t.lanes.closed
      && (t.lanes.stopped || SectionsLeft(t) == SectionsLeft(s) - Works(more))
      && (t.lanes.stopped || SectionsLeft(t) > 0)
  {
    if more == [] {
      assert steps + more == steps;
      NoneOccupied(Run(steps).lanes.critical);
    } else {
      var last := |more| - 1;
      DrainsBy(steps, more[..last]);
      assert (steps + more)[..|steps + more| - 1] == steps + more[..last];
      ClosedQueueOnlyDrains(Run(steps + more[..last]), more[last]);
      NoneOccupied(Run(steps + more).lanes.critical);
    }
  }

  // ---- Every accepted callback runs exactly once, in order -----------------------------------

  function InSlots(critical: seq<Func>): multiset<Func> {
    multiset(critical)[NIL := 0]
  }

  /** Each lane is what was accepted minus what was started, in order; critical slots may also be superseded. */
  ghost predicate BooksBalance(log: Log, q: Lanes) {
    log.events == log.startedEvents + q.events && log.controls == log.startedControls + q.controls
  }

  ghost predicate SlotsBalance(log: Log, q: Lanes) {
    log.critical == log.startedCritical + log.superseded + InSlots(q.critical)
  }

  function RunningIn(worker: Worker, kind: Kind): seq<Func> {
    if worker.Running? && worker.kind == kind then [worker.f] else []
  }

  ghost predicate LanesAccounted(s: State) {
    && BooksBalance(s.log, s.lanes)
    && s.log.startedEvents == s.log.finishedEvents + RunningIn(s.worker, Ordinary)
    && s.log.startedControls == s.log.finishedControls + RunningIn(s.worker, Control)
  }

  predicate Unrepeated(fs: seq<Func>) {
    forall i, j :: 0 <= i < j < |fs| ==> fs[i] != fs[j]
  }

  ghost predicate HandedOver(log: Log, pc: Pc) {
    match pc
    case Producing(f, _, _) => f != NIL && f in log.issued && f !in log.events && f !in log.runInline
    case Produced(f, dispatching, accepted) =>
      && f != NIL && f in log.issued
      && (accepted ==> f in log.events)
      && (!accepted && dispatching ==> f in log.runInline)
    case _ => true
  }

  ghost predicate HandoversDistinct(s: State) {
    && Unrepeated(s.log.events) && Unrepeated(s.log.runInline)
    && (forall f :: f in s.log.events ==> f in s.log.issued && f !in s.log.runInline)
    && (forall f :: f in s.log.runInline ==> f in s.log.issued)
    && (forall id :: id in s.threads ==> HandedOver(s.log, s.threads[id]))
    && (forall i, j :: i in s.threads && j in s.threads && i != j && s.threads[i].Producing? && s.threads[j].Producing?
          ==> s.threads[i].f != s.threads[j].f)
  }

  lemma SlotUpdate(critical: seq<Func>, slot: nat, f: Func)
    requires slot < |critical|
    ensures InSlots(critical[slot := f]) + Bag(critical[slot]) == InSlots(critical) + Bag(f)
  {
    assert multiset(critical[slot := f]) == multiset(critical) - multiset{critical[slot]} + multiset{f};
  }

  lemma OfferKeepsSlots(log: Log, q: Lanes, kind: Kind, f: Func)
    requires q.Bounded() && SlotsBalance(log, q)
    ensures SlotsBalance(Record(log, q, kind, f), Offer(q, kind, f).lanes)
  {
    if kind.Critical? {
      CriticalKeepsSlots(log, q, kind, f);
    }
  }

  lemma CriticalKeepsSlots(log: Log, q: Lanes, kind: Kind, f: Func)
    requires q.Bounded() && SlotsBalance(log, q) && kind.Critical?
    ensures SlotsBalance(Record(log, q, kind, f), Offer(q, kind, f).lanes)
  {
    if 0 <= kind.slot < |q.critical| {
      SlotUpdate(q.critical, kind.slot, f);
      var u := q.critical[kind.slot := f];
      Regroup(log.critical, log.startedCritical, log.superseded, InSlots(q.critical), InSlots(u),
              Bag(q.critical[kind.slot]), Bag(f));
    }
  }

  /** Moving `out` out of the slots and `into` into them. */
  lemma Regroup(all: multiset<Func>, started: multiset<Func>, gone: multiset<Func>,
                slots: multiset<Func>, updated: multiset<Func>, out: multiset<Func>, into: multiset<Func>)
    requires all == started + gone + slots && updated + out == slots + into
    ensures all + into == started + (gone + out) + updated
    ensures into == multiset{} ==> all == (started + out) + gone + updated
  {
    forall f ensures (all + into)[f] == (started + (gone + out) + updated)[f] {
      assert (updated + out)[f] == (slots + into)[f] && all[f] == (started + gone + slots)[f];
    }
    if into == multiset{} {
      assert all + into == all;
      assert started + (gone + out) + updated == (started + out) + gone + updated;
    }
  }

  lemma TurnKeepsSlots(s: State)
    requires s.lanes.Bounded() && SlotsBalance(s.log, s.lanes)
    ensures SlotsBalance(TurnStep(s).log, TurnStep(s).lanes)
  {
    var slot := FirstCritical(s.lanes.critical);
    if slot >= 0 {
      SlotUpdate(s.lanes.critical, slot, NIL);
      Regroup(s.log.critical, s.log.startedCritical, s.log.superseded, InSlots(s.lanes.critical),
              InSlots(s.lanes.critical[slot := NIL]), Bag(s.lanes.critical[slot]), Bag(NIL));
    }
  }

  lemma WorkKeepsSlots(s: State)
    requires Safe(s) && SlotsBalance(s.log, s.lanes)
    ensures SlotsBalance(WorkStep(s).log, WorkStep(s).lanes)
  {
    if s.worker.Ready? {
      TurnKeepsSlots(s);
    } else if s.worker.Running? {
      TurnKeepsSlots(Broadcast(s.(lanes := s.lanes.(active := 0), worker := Ready,
                                  log := RecordFinish(s.log, s.worker.kind, s.worker.f))));
    }
  }

  lemma ResumeKeepsSlots(s: State, id: nat, pick: Option<Sleeper>)
    requires Safe(s) && id in s.threads
    ensures var t := ResumeStep(s, id, pick);
      && t.lanes.critical == s.lanes.critical && t.log.critical == s.log.critical
      && t.log.startedCritical == s.log.startedCritical && t.log.superseded == s.log.superseded
  {
  }

  lemma NextKeepsSlots(s: State, step: Step)
    requires Safe(s) && SlotsBalance(s.log, s.lanes)
    ensures SlotsBalance(Next(s, step).log, Next(s, step).lanes)
  {
    match step
    case PostNow(kind, f, _) => OfferKeepsSlots(s.log, s.lanes, kind, f);
    case Work => WorkKeepsSlots(s);
    case Resume(id, pick) => if id in s.threads { ResumeKeepsSlots(s, id, pick); }
    case _ =>
  }

  lemma OfferKeepsBooks(log: Log, q: Lanes, kind: Kind, f: Func)
    requires q.Bounded() && BooksBalance(log, q)
    ensures BooksBalance(Record(log, q, kind, f), Offer(q, kind, f).lanes)
  {
  }

  lemma TurnIsAccounted(s: State)
    requires s.lanes.Bounded() && s.worker.Ready? && LanesAccounted(s)
    ensures LanesAccounted(TurnStep(s))
  {
    var q := s.lanes;
    if FirstCritical(q.critical) == -1 && q.controls != [] {
      assert s.log.startedControls + q.controls == s.log.startedControls + [q.controls[0]] + q.controls[1..];
    } else if FirstCritical(q.critical) == -1 && q.events != [] {
      assert s.log.startedEvents + q.events == s.log.startedEvents + [q.events[0]] + q.events[1..];
    }
  }

  lemma WorkIsAccounted(s: State)
    requires Safe(s) && LanesAccounted(s)
    ensures LanesAccounted(WorkStep(s))
  {
    match s.worker
    case Ready => TurnIsAccounted(s);
    case Running(kind, f) =>
      TurnIsAccounted(Broadcast(s.(lanes := s.lanes.(active := 0), worker := Ready,
                                   log := RecordFinish(s.log, kind, f))));
    case _ =>
  }

  lemma PostIsAccounted(s: State, kind: Kind, f: Func, pick: Option<Sleeper>)
    requires Safe(s) && LanesAccounted(s)
    ensures LanesAccounted(PostStep(s, kind, f, pick))
  {
    OfferKeepsBooks(s.log, s.lanes, kind, f);
  }

  lemma ProducerIsAccounted(s: State, id: nat, pick: Option<Sleeper>)
    requires Safe(s) && LanesAccounted(s) && id in s.threads && s.threads[id].Producing?
    ensures LanesAccounted(ProducerStep(s, id, pick))
  {
    OfferKeepsBooks(s.log, s.lanes, Ordinary, s.threads[id].f);
  }

  lemma ResumeIsAccounted(s: State, id: nat, pick: Option<Sleeper>)
    requires Safe(s) && LanesAccounted(s) && id in s.threads
    ensures LanesAccounted(ResumeStep(s, id, pick))
  {
    if s.threads[id].Producing? && !s.threads[id].asleep {
      ProducerIsAccounted(s, id, pick);
    } else {
      var t := ResumeStep(s, id, pick);
      assert t.log == s.log && (t.worker == s.worker || (s.worker.Asleep? && t.worker.Ready?));
    }
  }

  lemma NextIsAccounted(s: State, step: Step)
    requires Safe(s) && LanesAccounted(s)
    ensures LanesAccounted(Next(s, step))
  {
    match step
    case PostNow(kind, f, pick) => PostIsAccounted(s, kind, f, pick);
    case Work => WorkIsAccounted(s);
    case Resume(id, pick) =>
      if id in s.threads {
        ResumeIsAccounted(s, id, pick);
      }
    case _ =>
  }

  /** Waking threads moves no callback. */
  lemma SameHandovers(s: State, t: State)
    requires HandoversDistinct(s)
    requires t.log.events == s.log.events && t.log.runInline == s.log.runInline && t.log.issued == s.log.issued
    requires t.threads.Keys == s.threads.Keys
    requires forall id :: id in s.threads ==> t.threads[id] == s.threads[id] || t.threads[id] == Roused(s.threads[id])
    ensures HandoversDistinct(t)
  {
  }

  lemma PostKeepsHandovers(s: State, kind: Kind, f: Func, pick: Option<Sleeper>)
    requires Safe(s) && HandoversDistinct(s)
    ensures HandoversDistinct(PostStep(s, kind, f, pick))
  {
    var r := Offer(s.lanes, kind, f);
    if f != NIL && f !in s.log.issued && MayPick(s, r.wake, pick) {
      var t := s.(lanes := r.lanes, log := Record(s.log, s.lanes, kind, f).(issued := s.log.issued + {f}));
      SameHandovers(t, Rouse(t, r.wake, pick));
    }
  }

  /** The reliable post was accepted, before the wake-up. */
  lemma AcceptedKeepsHandovers(s: State, id: nat)
    requires Safe(s) && HandoversDistinct(s) && id in s.threads && s.threads[id].Producing? && !s.threads[id].asleep
    requires OfferReliably(s.lanes, s.threads[id].f).verdict.Accepted?
    ensures var pc := s.threads[id];
      HandoversDistinct(s.(lanes := OfferReliably(s.lanes, pc.f).lanes,
                           threads := s.threads[id := Produced(pc.f, pc.dispatching, true)],
                           log := Record(s.log, s.lanes, Ordinary, pc.f)))
  {
    assert HandedOver(s.log, s.threads[id]);
  }

  lemma ProducerKeepsHandovers(s: State, id: nat, pick: Option<Sleeper>)
    requires Safe(s) && HandoversDistinct(s) && id in s.threads && s.threads[id].Producing? && !s.threads[id].asleep
    ensures HandoversDistinct(ProducerStep(s, id, pick))
  {
    var pc := s.threads[id];
    var r := OfferReliably(s.lanes, pc.f);
    assert HandedOver(s.log, pc);
    if r.verdict.Accepted? && MayPick(s, r.wake, pick) {
      AcceptedKeepsHandovers(s, id);
      var t := s.(lanes := r.lanes, threads := s.threads[id := Produced(pc.f, pc.dispatching, true)],
                  log := Record(s.log, s.lanes, Ordinary, pc.f));
      SameHandovers(t, Rouse(t, r.wake, pick));
    }
  }

  /** A worker section touches neither the producers nor what they handed over. */
  lemma WorkKeepsHandovers(s: State)
    requires Safe(s) && HandoversDistinct(s)
    ensures HandoversDistinct(WorkStep(s))
  {
    SameHandovers(s, WorkStep(s));
  }

  lemma CloserKeepsHandovers(s: State, id: nat)
    requires HandoversDistinct(s) && id in s.threads && s.threads[id].Closing?
    ensures HandoversDistinct(CloserStep(s, id))
  {
  }

  lemma NextKeepsHandovers(s: State, step: Step)
    requires Safe(s) && HandoversDistinct(s)
    ensures HandoversDistinct(Next(s, step))
  {
    match step
    case PostNow(kind, f, pick) => PostKeepsHandovers(s, kind, f, pick);
    case Resume(id, pick) =>
      if id in s.threads && s.threads[id].Producing? && !s.threads[id].asleep {
        ProducerKeepsHandovers(s, id, pick);
      } else if id in s.threads && s.threads[id].Closing? {
        CloserKeepsHandovers(s, id);
      }
    case Work => WorkKeepsHandovers(s);
    case _ =>
  }

  lemma {:induction false} RunIsAccounted(steps: seq<Step>)
    ensures LanesAccounted(Run(steps)) && HandoversDistinct(Run(steps))
    ensures SlotsBalance(Run(steps).log, Run(steps).lanes)
  {
    if steps != [] {
      RunIsAccounted(steps[..|steps| - 1]);
      NextKeepsSlots(Run(steps[..|steps| - 1]), steps[|steps| - 1]);
      NextIsAccounted(Run(steps[..|steps| - 1]), steps[|steps| - 1]);
      NextKeepsHandovers(Run(steps[..|steps| - 1]), steps[|steps| - 1]);
    }
  }

  lemma {:induction false} CountOnce(fs: seq<Func>, f: Func)
    requires Unrepeated(fs)
    ensures multiset(fs)[f] == if f in fs then 1 else 0
  {
    if fs != [] {
      CountOnce(fs[1..], f);
      assert fs == [fs[0]] + fs[1..];
    }
  }

  /** First in, first out per lane; when the worker has stopped, everything accepted has run to completion. */
  lemma LanesAreFifo(steps: seq<Step>)
    ensures var log, q := Run(steps).log, Run(steps).lanes;
      && log.finishedEvents <= log.startedEvents <= log.events
      && log.finishedControls <= log.startedControls <= log.controls
      && (q.stopped ==>
            && log.finishedEvents == log.events && log.finishedControls == log.controls
            && log.critical == log.startedCritical + log.superseded)
  {
    RunIsAccounted(steps);
    var s := Run(steps);
    if s.lanes.stopped {
      assert FirstCritical(s.lanes.critical) == -1;
      assert forall f :: InSlots(s.lanes.critical)[f] == 0;
    }
  }

  /** A dispatched task is executed at most once, and exactly once when the queue's close has returned. */
  lemma DispatchedExactlyOnce(steps: seq<Step>, id: nat)
    requires id in Run(steps).threads && Run(steps).threads[id].Produced? && Run(steps).threads[id].dispatching
    ensures var s := Run(steps); var f := s.threads[id].f;
      && multiset(s.log.startedEvents)[f] + multiset(s.log.runInline)[f] + multiset(s.lanes.events)[f] == 1
      && (f in s.log.runInline <==> !s.threads[id].accepted)
      && (s.lanes.stopped ==> multiset(s.log.finishedEvents)[f] + multiset(s.log.runInline)[f] == 1)
  {
    RunIsAccounted(steps);
    var s := Run(steps);
    var f := s.threads[id].f;
    CountOnce(s.log.events, f);
    CountOnce(s.log.runInline, f);
  }

  /** No critical callback is waiting, or none in a slot below `slot`. */
  predicate NoCritical(q: Lanes, slot: int) {
    forall k :: 0 <= k < slot && k < |q.critical| ==> q.critical[k] == NIL
  }

  predicate NothingStarts(s: Log, t: Log) {
    && t.startedEvents == s.startedEvents
    && t.startedControls == s.startedControls
    && t.startedCritical == s.startedCritical
  }

  lemma OnlyWorkStarts(s: State, step: Step)
    requires Safe(s) && !step.Work?
    ensures NothingStarts(s.log, Next(s, step).log)
  {
  }

  ghost predicate ByPriority(q: Lanes, before: Log, after: Log) {
    && (after.startedEvents != before.startedEvents ==> q.controls == [] && NoCritical(q, CRITICAL_SLOTS))
    && (after.startedControls != before.startedControls ==> NoCritical(q, CRITICAL_SLOTS))
    && (after.startedCritical != before.startedCritical ==>
          exists slot :: 0 <= slot < |q.critical| && NoCritical(q, slot)
                         && after.startedCritical == before.startedCritical + multiset{q.critical[slot]})
  }

  lemma TurnServesByPriority(s: State)
    requires s.lanes.Bounded() && !s.worker.Running?
    ensures ByPriority(s.lanes, s.log, TurnStep(s).log)
  {
    var slot := FirstCritical(s.lanes.critical);
    if slot >= 0 {
      assert NoCritical(s.lanes, slot);
    }
  }

  /**
   In every run, whatever step is taken: no ordinary callback starts while a control or a critical one waits, no
   control callback while a critical one waits, and a critical one only from the lowest occupied slot.
   */
  lemma ServesByPriority(steps: seq<Step>, step: Step)
    ensures ByPriority(Run(steps).lanes, Run(steps).log, Next(Run(steps), step).log)
  {
    var s := Run(steps);
    if !step.Work? {
      OnlyWorkStarts(s, step);
    } else if s.worker.Ready? {
      TurnServesByPriority(s);
    } else if s.worker.Running? {
      var done := RecordFinish(s.log, s.worker.kind, s.worker.f);
      var r := Broadcast(s.(lanes := s.lanes.(active := 0), worker := Ready, log := done));
      TurnServesByPriority(r);
      assert NothingStarts(s.log, done);
      assert forall slot :: NoCritical(r.lanes, slot) == NoCritical(s.lanes, slot);
    }
  }
}
