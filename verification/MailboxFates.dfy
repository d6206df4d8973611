/** What becomes of every event a mailbox accepts, over any history of calls. */
module MailboxFates {
  import opened Common
  import opened MailboxSpec
  import opened MailboxFifo

  datatype Fate = Delivered | Superseded | Discarded

  /** What became of each numbered event, and the numbers of the merged events handed to a handler, in order. */
  datatype Trace = Trace(box: Box, fates: map<nat, Fate>, delivered: seq<nat>)

  function NumbersOf(events: seq<Event>): set<nat> {
    set e | e in events :: e.sequence
  }

  function LatestNumbers(b: Box): set<nat> {
    set k | 0 <= k < |b.latest| && b.latest[k].Some? :: b.latest[k].value.sequence
  }

  /** The numbers waiting in the four merged lanes. */
  function Merged(b: Box): set<nat> {
    NumbersOf(b.data) + NumbersOf(b.control) + LatestNumbers(b) + NumbersOf(At(b, Terminal))
  }

  function StopNumber(b: Box): set<nat> {
    if b.stopRequest.Some? then {b.stopRequest.value.sequence} else {}
  }

  function Pending(b: Box): set<nat> { Merged(b) + StopNumber(b) }

  function Settled(numbers: set<nat>, fate: Fate): map<nat, Fate> {
    map n | n in numbers :: fate
  }

  /** What leaves the lanes in a call gets its fate then; a fate given before would be overwritten. */
  function TraceStep(t: Trace, op: Op): Trace {
    var (b, c) := (t.box, BoxStep(t.box, op).0);
    var gone := Pending(b) - Pending(c);
    match op
    case Post(_, _) => t.(box := c, fates := t.fates + Settled(gone, Superseded))
    case Drain =>
      (match Drained(b).1
       case None => t.(box := c)
       case Some(event) =>
         t.(box := c, fates := t.fates + map[event.sequence := Delivered],
            delivered := if b.stopRequest.Some? then t.delivered else t.delivered + [event.sequence]))
    case _ => t.(box := c, fates := t.fates + Settled(gone, Discarded))
  }

  function TraceRun(paused: bool, ops: seq<Op>): Trace {
    if ops == [] then Trace(Empty(paused), map[], [])
    else TraceStep(TraceRun(paused, ops[..|ops| - 1]), ops[|ops| - 1])
  }

  // ---- The lanes and the arrival list -------------------------------------------------------

  function Numbers(w: seq<Stamped>): set<nat> {
    set i | 0 <= i < |w| :: w[i].event.sequence
  }

  lemma {:induction false} ProjectContains(w: seq<Stamped>, k: nat)
    requires k < |w|
    ensures w[k].event in Project(w, w[k].lane)
  {
    var n := |w| - 1;
    if k < n {
      ProjectContains(w[..n], k);
      assert w[..n][k] == w[k];
    }
  }

  lemma LaneIsMerged(b: Box, lane: Lane, event: Event)
    requires event in At(b, lane)
    ensures event.sequence in Merged(b)
  {
    match lane
    case Data =>
    case Control =>
    case Latest(slot) => assert b.latest[slot].value == event;
    case Terminal =>
  }

  lemma MergedIsInLane(b: Box, n: nat) returns (lane: Lane, event: Event)
    requires n in Merged(b)
    ensures event in At(b, lane) && event.sequence == n
  {
    if n in NumbersOf(b.data) {
      lane := Data;
      event :| event in b.data && event.sequence == n;
    } else if n in NumbersOf(b.control) {
      lane := Control;
      event :| event in b.control && event.sequence == n;
    } else if n in LatestNumbers(b) {
      var k :| 0 <= k < |b.latest| && b.latest[k].Some? && b.latest[k].value.sequence == n;
      lane, event := Latest(k), b.latest[k].value;
    } else {
      lane := Terminal;
      event :| event in At(b, Terminal) && event.sequence == n;
    }
  }

  /** What waits in the lanes is exactly what is on the arrival list. */
  lemma LanesHoldArrivals(b: Box, w: seq<Stamped>)
    requires Arrivals(b, w)
    ensures Merged(b) == Numbers(w)
  {
    forall n | n in Merged(b) ensures n in Numbers(w) {
      var lane, event := MergedIsInLane(b, n);
      assert At(b, lane) == Project(w, lane);
      var k :| 0 <= k < |Project(w, lane)| && Project(w, lane)[k] == event;
      ProjectMember(w, lane, k);
      var i :| 0 <= i < |w| && w[i] == Stamped(lane, event);
    }
    forall n | n in Numbers(w) ensures n in Merged(b) {
      var i :| 0 <= i < |w| && w[i].event.sequence == n;
      ProjectContains(w, i);
      assert At(b, w[i].lane) == Project(w, w[i].lane);
      LaneIsMerged(b, w[i].lane, w[i].event);
    }
  }

  // ---- The ledger ---------------------------------------------------------------------------

  /** Numbers 1..next are split between settled and pending events; a stop request has a number of its own. */
  ghost predicate Balanced(t: Trace) {
    && (forall n: nat :: 1 <= n <= t.box.next <==> n in t.fates || n in Merged(t.box) || n in StopNumber(t.box))
    && t.fates.Keys !! Merged(t.box) !! StopNumber(t.box)
  }

  ghost predicate InOrder(t: Trace) {
    && (forall i, j :: 0 <= i < j < |t.delivered| ==> t.delivered[i] < t.delivered[j])
    && (forall i, n :: 0 <= i < |t.delivered| && n in Merged(t.box) ==> t.delivered[i] < n)
    && (forall i :: 0 <= i < |t.delivered| ==> t.delivered[i] <= t.box.next)
  }

  /** `w` is the arrival list behind the lanes. */
  ghost predicate Ledger(t: Trace, w: seq<Stamped>) {
    Arrivals(t.box, w) && Balanced(t) && InOrder(t)
  }

  lemma AppendedMembers(b: Box, w: seq<Stamped>, target: Target, fn: Handler)
    requires Arrivals(b, w)
    ensures forall x :: x in Appended(b, w, target, fn) ==> x in w || x.event.sequence == b.next + 1
  {
    if target.ToLatest? && target.slot >= 0 {
      forall x {:trigger x in w} ensures x in Without(w, Latest(target.slot)) ==> x in w {
        WithoutMembers(w, Latest(target.slot), x);
      }
    }
  }

  lemma AppendedBound(b: Box, w: seq<Stamped>, target: Target, fn: Handler)
    requires Arrivals(b, w)
    ensures Numbers(Appended(b, w, target, fn)) <= Numbers(w) + {b.next + 1}
  {
    var v := Appended(b, w, target, fn);
    AppendedMembers(b, w, target, fn);
    forall n | n in Numbers(v) ensures n in Numbers(w) || n == b.next + 1 {
      var i :| 0 <= i < |v| && v[i].event.sequence == n;
      assert v[i] in v;
    }
  }

  lemma AppendedOwn(b: Box, w: seq<Stamped>, target: Target, fn: Handler)
    ensures var v, c := Appended(b, w, target, fn), Posted(b, target, fn).0;
      if c.next == b.next || target.ToStop? then v == w else b.next + 1 in Numbers(v)
  {
    var v := Appended(b, w, target, fn);
    if Posted(b, target, fn).0.next != b.next && !target.ToStop? {
      assert v[|v| - 1].event.sequence == b.next + 1;
    }
  }

  lemma PostedStop(b: Box, target: Target, fn: Handler)
    ensures var c := Posted(b, target, fn).0;
      && (c.next == b.next || c.next == b.next + 1)
      && if c.next != b.next && target.ToStop? then StopNumber(c) == {c.next} else c.stopRequest == b.stopRequest
  {
  }

  /** A post adds its own number to the lanes, or to the stop request, and can only take others away. */
  lemma PostedNumbers(b: Box, w: seq<Stamped>, target: Target, fn: Handler)
    requires Arrivals(b, w)
    ensures var c := Posted(b, target, fn).0;
      && Merged(c) <= Merged(b) + {b.next + 1}
      && (c.next == b.next || target.ToStop? ==> Merged(c) == Merged(b))
      && (c.next != b.next && !target.ToStop? ==> b.next + 1 in Merged(c))
  {
    PostKeepsArrivals(b, w, target, fn);
    AppendedBound(b, w, target, fn);
    AppendedOwn(b, w, target, fn);
    LanesHoldArrivals(b, w);
    LanesHoldArrivals(Posted(b, target, fn).0, Appended(b, w, target, fn));
  }

  lemma PostKeepsOrder(t: Trace, w: seq<Stamped>, target: Target, fn: Handler)
    requires Ledger(t, w)
    ensures InOrder(TraceStep(t, Post(target, fn)))
  {
    PostedStop(t.box, target, fn);
    PostedNumbers(t.box, w, target, fn);
  }

  lemma PostKeepsBalance(t: Trace, w: seq<Stamped>, target: Target, fn: Handler)
    requires Ledger(t, w)
    ensures Balanced(TraceStep(t, Post(target, fn)))
  {
    PostedStop(t.box, target, fn);
    PostedNumbers(t.box, w, target, fn);
  }

  /** What a drain section hands out leaves the lanes, and nothing else does. */
  lemma DrainedNumbers(b: Box, w: seq<Stamped>) returns (v: seq<Stamped>)
    requires Arrivals(b, w)
    ensures var (c, event) := Drained(b);
      && Arrivals(c, v) && c.next == b.next
      && (event.None? ==> Merged(c) == Merged(b) && c.stopRequest == b.stopRequest)
      && (event.Some? && b.stopRequest.Some? ==>
            StopNumber(b) == {event.value.sequence} && Merged(c) == Merged(b) && c.stopRequest == None)
      && (event.Some? && b.stopRequest.None? ==>
            && c.stopRequest == None && event.value.sequence in Merged(b)
            && Merged(c) == Merged(b) - {event.value.sequence}
            && forall n :: n in Merged(c) ==> event.value.sequence < n)
  {
    var c := Drained(b).0;
    LanesHoldArrivals(b, w);
    if b.closed || b.closing || b.paused || b.stopRequest.Some? || w == [] {
      if !(b.closed || b.closing || b.paused || b.stopRequest.Some?) {
        TakeKeepsArrivals(b, w);
      }
      SameLanes(b, c, w);
      v := w;
    } else {
      TakeKeepsArrivals(b, w);
      v := w[1..];
      SameLanes(TakeNext(b).0, c, v);
      TailNumbers(w, b.next);
    }
    LanesHoldArrivals(c, v);
  }

  lemma TailNumbers(w: seq<Stamped>, bound: nat)
    requires w != [] && Increasing(w, bound)
    ensures Numbers(w[1..]) == Numbers(w) - {w[0].event.sequence}
    ensures forall n :: n in Numbers(w[1..]) ==> w[0].event.sequence < n
  {
    assert w == [w[0]] + w[1..];
  }

  lemma StopKeepsBalance(t: Trace, w: seq<Stamped>)
    requires Ledger(t, w) && t.box.stopRequest.Some?
    ensures Balanced(TraceStep(t, Drain)) && InOrder(TraceStep(t, Drain))
  {
    var v := DrainedNumbers(t.box, w);
  }

  lemma HeadKeepsOrder(t: Trace, w: seq<Stamped>)
    requires Ledger(t, w) && t.box.stopRequest.None?
    ensures InOrder(TraceStep(t, Drain))
  {
    var v := DrainedNumbers(t.box, w);
    var u := TraceStep(t, Drain);
    if Drained(t.box).1.Some? {
      assert u.delivered == t.delivered + [Drained(t.box).1.value.sequence];
    }
  }

  lemma HeadKeepsBalance(t: Trace, w: seq<Stamped>)
    requires Ledger(t, w) && t.box.stopRequest.None?
    ensures Balanced(TraceStep(t, Drain))
  {
    var v := DrainedNumbers(t.box, w);
  }

  lemma GateNumbers(b: Box, w: seq<Stamped>, op: Op)
    requires Arrivals(b, w) && !op.Post? && !op.Drain?
    ensures var c := BoxStep(b, op).0;
      && Arrivals(c, if Clears(b, op) then [] else w)
      && Merged(c) == (if Clears(b, op) then {} else Merged(b))
  {
    GateKeepsArrivals(b, w, op);
    LanesHoldArrivals(b, w);
    LanesHoldArrivals(BoxStep(b, op).0, if Clears(b, op) then [] else w);
    assert Numbers([]) == {};
  }

  lemma GateStop(b: Box, op: Op)
    requires !op.Post? && !op.Drain?
    ensures var c := BoxStep(b, op).0;
      c.next == b.next && c.stopRequest == if Clears(b, op) then None else b.stopRequest
  {
  }

  lemma GateKeepsBalance(t: Trace, w: seq<Stamped>, op: Op)
    requires Ledger(t, w) && !op.Post? && !op.Drain?
    ensures Balanced(TraceStep(t, op)) && InOrder(TraceStep(t, op))
  {
    GateNumbers(t.box, w, op);
    GateStop(t.box, op);
  }

  lemma StepKeepsLedger(t: Trace, w: seq<Stamped>, op: Op) returns (v: seq<Stamped>)
    requires Ledger(t, w)
    ensures Ledger(TraceStep(t, op), v)
  {
    match op
    case Post(target, fn) =>
      v := Appended(t.box, w, target, fn);
      PostKeepsArrivals(t.box, w, target, fn);
      PostKeepsBalance(t, w, target, fn);
      PostKeepsOrder(t, w, target, fn);
    case Drain =>
      v := DrainedNumbers(t.box, w);
      if t.box.stopRequest.Some? {
        StopKeepsBalance(t, w);
      } else {
        HeadKeepsBalance(t, w);
        HeadKeepsOrder(t, w);
      }
    case _ =>
      GateNumbers(t.box, w, op);
      GateKeepsBalance(t, w, op);
      v := if Clears(t.box, op) then [] else w;
  }

  lemma {:induction false} RunKeepsLedger(paused: bool, ops: seq<Op>) returns (w: seq<Stamped>)
    ensures Ledger(TraceRun(paused, ops), w)
  {
    if ops == [] {
      w := [];
      assert forall lane :: At(Empty(paused), lane) == [];
      LanesHoldArrivals(Empty(paused), []);
    } else {
      var v := RunKeepsLedger(paused, ops[..|ops| - 1]);
      w := StepKeepsLedger(TraceRun(paused, ops[..|ops| - 1]), v, ops[|ops| - 1]);
    }
  }

  // ---- Theorems -----------------------------------------------------------------------------

  /**
   Conservation: each accepted event is delivered, superseded, discarded by a close, or still in a lane, and only one
   of them.
   */
  lemma EveryEventHasOneFate(paused: bool, ops: seq<Op>, n: nat)
    ensures var t := TraceRun(paused, ops);
      && (1 <= n <= t.box.next <==> n in t.fates || n in Pending(t.box))
      && !(n in t.fates && n in Pending(t.box))
  {
    var w := RunKeepsLedger(paused, ops);
  }

  /** An event handed to a handler was waiting and had not been delivered, superseded or discarded before. */
  lemma HandedOutOnce(paused: bool, ops: seq<Op>)
    requires Drained(TraceRun(paused, ops).box).1.Some?
    ensures var t := TraceRun(paused, ops); var n := Drained(t.box).1.value.sequence;
      n in Pending(t.box) && n !in t.fates && n !in Pending(Drained(t.box).0)
  {
    var w := RunKeepsLedger(paused, ops);
    var v := DrainedNumbers(TraceRun(paused, ops).box, w);
  }

  predicate Extends(fates: map<nat, Fate>, later: map<nat, Fate>) {
    forall n :: n in fates ==> n in later && later[n] == fates[n]
  }

  lemma StepExtendsFates(t: Trace, w: seq<Stamped>, op: Op)
    requires Ledger(t, w)
    ensures Extends(t.fates, TraceStep(t, op).fates)
  {
    if op.Drain? {
      var v := DrainedNumbers(t.box, w);
    }
  }

  /** The run goes on from a trace. */
  function TraceOn(t: Trace, more: seq<Op>): Trace
    decreases |more|
  {
    if more == [] then t else TraceOn(TraceStep(t, more[0]), more[1..])
  }

  lemma {:induction false} FatesStay(t: Trace, w: seq<Stamped>, more: seq<Op>)
    requires Ledger(t, w)
    ensures Extends(t.fates, TraceOn(t, more).fates)
    decreases |more|
  {
    if more != [] {
      var v := StepKeepsLedger(t, w, more[0]);
      StepExtendsFates(t, w, more[0]);
      FatesStay(TraceStep(t, more[0]), v, more[1..]);
    }
  }

  /** A fate, once settled, never changes: no event is delivered twice, or after it was superseded or discarded. */
  lemma FatesAreFinal(paused: bool, ops: seq<Op>, more: seq<Op>)
    ensures Extends(TraceRun(paused, ops).fates, TraceOn(TraceRun(paused, ops), more).fates)
  {
    var w := RunKeepsLedger(paused, ops);
    FatesStay(TraceRun(paused, ops), w, more);
  }

  /**
   What the drain sections hand out, stop requests aside, comes in strictly increasing sequence over the whole run.
   */
  lemma DeliveryIsInOrder(paused: bool, ops: seq<Op>)
    ensures var d := TraceRun(paused, ops).delivered;
      forall i, j :: 0 <= i < j < |d| ==> d[i] < d[j]
  {
    var w := RunKeepsLedger(paused, ops);
  }
}
