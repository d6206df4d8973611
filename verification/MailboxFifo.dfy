/** The five-lane mailbox behaves like one list in arrival order, and every accepted event meets exactly one fate. */
module MailboxFifo {
  import opened Common
  import opened MailboxSpec

  /** The reference: no sequence numbers, no lanes to merge. */
  datatype Entry = Entry(lane: Lane, fn: Handler)

  datatype Fifo = Fifo(list: seq<Entry>, stop: Option<Handler>,
                       draining: bool, paused: bool, closing: bool, closed: bool, busy: nat)

  datatype Op = Post(target: Target, fn: Handler) | Drain | Return | Begin | Cancel | Finish | Unpause

  datatype Reply = Admitted(ok: bool) | Ran(fn: Option<Handler>) | Began(outcome: Outcome) | Done

  function Count(list: seq<Entry>, lane: Lane): nat {
    if list == [] then 0
    else Count(list[..|list| - 1], lane) + if list[|list| - 1].lane == lane then 1 else 0
  }

  function Keep(list: seq<Entry>, gone: Lane): seq<Entry> {
    if list == [] then []
    else
      var n := |list| - 1;
      Keep(list[..n], gone) + if list[n].lane == gone then [] else [list[n]]
  }

  /** Lane capacities as the reference sees them: an occupied terminal refuses, a latest slot never does. */
  predicate HasRoom(f: Fifo, target: Target) {
    match target
    case ToData => Count(f.list, Data) < DATA_CAPACITY
    case ToControl => Count(f.list, Control) < CONTROL_CAPACITY
    case ToLatest(slot) => 0 <= slot < LATEST_COUNT
    case ToTerminal => Count(f.list, Terminal) == 0
    case ToStop => true
  }

  function Wake(f: Fifo): Fifo {
    if f.paused then f else f.(draining := true)
  }

  function FifoPost(f: Fifo, target: Target, fn: Handler): (Fifo, bool) {
    if fn == NIL then (f, true)
    else if f.closed || f.closing || !HasRoom(f, target) then (f, false)
    else match target
      case ToStop => (Wake(f.(stop := Some(fn))), true)
      case ToLatest(slot) => (Wake(f.(list := Keep(f.list, Latest(slot)) + [Entry(Latest(slot), fn)])), true)
      case _ => (Wake(f.(list := f.list + [Entry(LaneOf(target), fn)])), true)
  }

  function FifoDrain(f: Fifo): (Fifo, Option<Handler>) {
    if f.closed || f.closing || f.paused || (f.stop.None? && f.list == []) then (f.(draining := false), None)
    else if f.stop.Some? then (f.(stop := None, busy := f.busy + 1), f.stop)
    else (f.(list := f.list[1..], busy := f.busy + 1), Some(f.list[0].fn))
  }

  predicate Waiting(f: Fifo) {
    f.list != [] || f.stop.Some?
  }

  function FifoStep(f: Fifo, op: Op): (Fifo, Reply) {
    match op
    case Post(target, fn) => var (g, ok) := FifoPost(f, target, fn); (g, Admitted(ok))
    case Drain => var (g, fn) := FifoDrain(f); (g, Ran(fn))
    case Return => (if f.busy == 0 then f else f.(busy := f.busy - 1), Done)
    case Begin =>
      if f.closed then (f, Began(Ok))
      else if f.closing || f.busy != 0 then (f, Began(Err(InUse)))
      else (f.(list := [], stop := None, closing := true), Began(Ok))
    case Cancel =>
      (if f.closed then f
       else if Waiting(f) then Wake(f.(closing := false)) else f.(closing := false), Done)
    case Finish => (f.(list := [], stop := None, closed := true, closing := false), Done)
    case Unpause => (if Waiting(f) then Wake(f.(paused := false)) else f.(paused := false), Done)
  }

  function FnOf(event: Option<Event>): Option<Handler> {
    if event.Some? then Some(event.value.fn) else None
  }

  function BoxStep(b: Box, op: Op): (Box, Reply) {
    match op
    case Post(target, fn) => var (c, ok) := Posted(b, target, fn); (c, Admitted(ok))
    case Drain => var (c, event) := Drained(b); (c, Ran(FnOf(event)))
    case Return => (HandlerReturned(b), Done)
    case Begin => var (c, outcome) := BeganClose(b); (c, Began(outcome))
    case Cancel => (CancelledClose(b), Done)
    case Finish => (FinishedClose(b), Done)
    case Unpause => (Unpaused(b), Done)
  }

  function Strip(w: seq<Stamped>): (list: seq<Entry>)
    ensures |list| == |w|
    ensures forall i :: 0 <= i < |w| ==> list[i] == Entry(w[i].lane, w[i].event.fn)
  {
    seq(|w|, i requires 0 <= i < |w| => Entry(w[i].lane, w[i].event.fn))
  }

  ghost predicate Matches(b: Box, f: Fifo, w: seq<Stamped>) {
    && Arrivals(b, w)
    && f == Fifo(Strip(w), FnOf(b.stopRequest), b.draining, b.paused, b.closing, b.closed, b.inHandler)
  }

  lemma {:induction false} CountIsLength(w: seq<Stamped>, lane: Lane)
    ensures Count(Strip(w), lane) == |Project(w, lane)|
  {
    if w != [] {
      CountIsLength(w[..|w| - 1], lane);
      assert Strip(w)[..|w| - 1] == Strip(w[..|w| - 1]);
    }
  }

  lemma {:induction false} StripWithout(w: seq<Stamped>, gone: Lane)
    ensures Strip(Without(w, gone)) == Keep(Strip(w), gone)
  {
    if w != [] {
      StripWithout(w[..|w| - 1], gone);
      assert Strip(w)[..|w| - 1] == Strip(w[..|w| - 1]);
    }
  }

  lemma HasEventsIsWaiting(b: Box, f: Fifo, w: seq<Stamped>)
    requires Matches(b, f, w)
    ensures b.HasEvents() <==> Waiting(f)
  {
    if w != [] {
      DropKeepsArrivals(b, w);
      assert At(b, w[0].lane) != [];
    }
    if w == [] {
      assert forall lane :: At(b, lane) == Project(w, lane) == [];
      assert At(b, Data) == [] && At(b, Control) == [] && At(b, Terminal) == [] && At(b, Latest(0)) == [];
    }
  }

  lemma ClearedMatches(b: Box)
    requires |b.latest| == LATEST_COUNT
    ensures Arrivals(b.Cleared(), [])
  {
    assert forall lane :: At(b.Cleared(), lane) == [];
  }

  lemma SameLanes(b: Box, c: Box, w: seq<Stamped>)
    requires Arrivals(b, w)
    requires c.data == b.data && c.control == b.control && c.latest == b.latest && c.terminal == b.terminal
    requires c.next >= b.next
    ensures Arrivals(c, w)
  {
    assert forall lane :: At(c, lane) == At(b, lane);
  }

  /** The list after a post is the list the simple mailbox keeps. */
  lemma AppendedStrips(b: Box, f: Fifo, w: seq<Stamped>, target: Target, fn: Handler)
    requires Matches(b, f, w) && Posted(b, target, fn).1 == FifoPost(f, target, fn).1
    ensures Strip(Appended(b, w, target, fn)) == FifoPost(f, target, fn).0.list
  {
    if target.ToLatest? && 0 <= target.slot < LATEST_COUNT {
      StripWithout(w, Latest(target.slot));
    }
  }

  lemma PostMatches(b: Box, f: Fifo, w: seq<Stamped>, target: Target, fn: Handler) returns (v: seq<Stamped>)
    requires Matches(b, f, w)
    ensures Matches(Posted(b, target, fn).0, FifoPost(f, target, fn).0, v)
    ensures Posted(b, target, fn).1 == FifoPost(f, target, fn).1
  {
    v := Appended(b, w, target, fn);
    PostKeepsArrivals(b, w, target, fn);
    CountIsLength(w, Data);
    CountIsLength(w, Control);
    CountIsLength(w, Terminal);
    assert Project(w, Data) == At(b, Data) && Project(w, Control) == At(b, Control);
    assert Project(w, Terminal) == At(b, Terminal);
    assert Posted(b, target, fn).1 == FifoPost(f, target, fn).1;
    AppendedStrips(b, f, w, target, fn);
  }

  /** A drain section that takes nothing from the merged lanes. */
  lemma DrainLeavesLanes(b: Box, f: Fifo, w: seq<Stamped>)
    requires Matches(b, f, w)
    requires b.closed || b.closing || b.paused || b.stopRequest.Some? || w == []
    ensures Matches(Drained(b).0, FifoDrain(f).0, w) && FnOf(Drained(b).1) == FifoDrain(f).1
  {
    if !(b.closed || b.closing || b.paused || b.stopRequest.Some?) {
      TakeKeepsArrivals(b, w);
    }
    SameLanes(b, Drained(b).0, w);
  }

  /** A drain section that takes the head. */
  lemma DrainTakesHead(b: Box, f: Fifo, w: seq<Stamped>)
    requires Matches(b, f, w) && w != []
    requires !b.closed && !b.closing && !b.paused && b.stopRequest.None?
    ensures Matches(Drained(b).0, FifoDrain(f).0, w[1..]) && FnOf(Drained(b).1) == FifoDrain(f).1
  {
    TakeKeepsArrivals(b, w);
    SameLanes(TakeNext(b).0, Drained(b).0, w[1..]);
    assert Strip(w[1..]) == Strip(w)[1..];
  }

  lemma DrainMatches(b: Box, f: Fifo, w: seq<Stamped>) returns (v: seq<Stamped>)
    requires Matches(b, f, w)
    ensures Matches(Drained(b).0, FifoDrain(f).0, v)
    ensures FnOf(Drained(b).1) == FifoDrain(f).1
  {
    if b.closed || b.closing || b.paused || b.stopRequest.Some? || w == [] {
      DrainLeavesLanes(b, f, w);
      v := w;
    } else {
      DrainTakesHead(b, f, w);
      v := w[1..];
    }
  }

  predicate Clears(b: Box, op: Op) {
    op.Finish? || (op.Begin? && !b.closed && !b.closing && b.inHandler == 0)
  }

  lemma GateKeepsArrivals(b: Box, w: seq<Stamped>, op: Op)
    requires Arrivals(b, w) && !op.Post? && !op.Drain?
    ensures Arrivals(BoxStep(b, op).0, if Clears(b, op) then [] else w)
  {
    ClearedMatches(b);
    if Clears(b, op) {
      SameLanes(b.Cleared(), BoxStep(b, op).0, []);
    } else {
      SameLanes(b, BoxStep(b, op).0, w);
    }
  }

  lemma StepMatches(b: Box, f: Fifo, w: seq<Stamped>, op: Op) returns (v: seq<Stamped>)
    requires Matches(b, f, w)
    ensures Matches(BoxStep(b, op).0, FifoStep(f, op).0, v)
    ensures BoxStep(b, op).1 == FifoStep(f, op).1
  {
    match op
    case Post(target, fn) => v := PostMatches(b, f, w, target, fn);
    case Drain => v := DrainMatches(b, f, w);
    case _ =>
      HasEventsIsWaiting(b, f, w);
      GateKeepsArrivals(b, w, op);
      v := if Clears(b, op) then [] else w;
  }

  /** The replies to a whole history of calls, oldest first. */
  function BoxRun(b: Box, ops: seq<Op>): (Box, seq<Reply>) {
    if ops == [] then (b, [])
    else
      var (c, replies) := BoxRun(b, ops[..|ops| - 1]);
      var (d, reply) := BoxStep(c, ops[|ops| - 1]);
      (d, replies + [reply])
  }

  function FifoRun(f: Fifo, ops: seq<Op>): (Fifo, seq<Reply>) {
    if ops == [] then (f, [])
    else
      var (g, replies) := FifoRun(f, ops[..|ops| - 1]);
      var (h, reply) := FifoStep(g, ops[|ops| - 1]);
      (h, replies + [reply])
  }

  lemma {:induction false} RunMatches(b: Box, f: Fifo, w: seq<Stamped>, ops: seq<Op>) returns (v: seq<Stamped>)
    requires Matches(b, f, w)
    ensures Matches(BoxRun(b, ops).0, FifoRun(f, ops).0, v)
    ensures BoxRun(b, ops).1 == FifoRun(f, ops).1
  {
    if ops == [] {
      return w;
    }
    var u := RunMatches(b, f, w, ops[..|ops| - 1]);
    v := StepMatches(BoxRun(b, ops[..|ops| - 1]).0, FifoRun(f, ops[..|ops| - 1]).0, u, ops[|ops| - 1]);
  }

  /** No caller and no handler can tell the five lanes from one list: every history of calls gets the same replies. */
  lemma MailboxRefinesFifo(paused: bool, ops: seq<Op>)
    ensures BoxRun(Empty(paused), ops).1
         == FifoRun(Fifo([], None, false, paused, false, false, 0), ops).1
  {
    assert forall lane :: At(Empty(paused), lane) == [];
    assert Strip([]) == [];
    var w := RunMatches(Empty(paused), Fifo([], None, false, paused, false, false, 0), [], ops);
  }
}
