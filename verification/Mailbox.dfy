/**
 The RTC mailbox: five lanes merged by sequence number, served by a goroutine that exists only while there is work.
 */
module MailboxSpec {
  import opened Common

  const DATA_CAPACITY := 256
  const CONTROL_CAPACITY := 32
  const LATEST_COUNT := 1

  /** A callback; `NIL` is the nil function value. */
  type Handler = nat
  const NIL: Handler := 0

  datatype Event = Event(sequence: nat, fn: Handler)

  datatype Box = Box(data: seq<Event>, control: seq<Event>, latest: seq<Option<Event>>,
                     terminal: Option<Event>, stopRequest: Option<Event>, next: nat,
                     draining: bool, paused: bool, closing: bool, closed: bool, overflowed: bool, inHandler: nat)
  {
    predicate HasEvents() {
      data != [] || control != [] || terminal.Some? || stopRequest.Some?
      || exists k :: 0 <= k < |latest| && latest[k].Some?
    }

    function Cleared(): Box {
      this.(data := [], control := [], latest := seq(|latest|, _ => None), terminal := None, stopRequest := None)
    }
  }

  /** The lanes that are merged by arrival. The stop request is not one of them: it overtakes. */
  datatype Lane = Data | Control | Latest(slot: nat) | Terminal

  datatype Target = ToData | ToControl | ToLatest(slot: int) | ToTerminal | ToStop

  datatype Stamped = Stamped(lane: Lane, event: Event)

  function Empty(paused: bool): Box {
    Box([], [], seq(LATEST_COUNT, _ => None), None, None, 0, false, paused, false, false, false, 0)
  }

  function At(b: Box, lane: Lane): seq<Event> {
    match lane
    case Data => b.data
    case Control => b.control
    case Latest(slot) => if slot < |b.latest| && b.latest[slot].Some? then [b.latest[slot].value] else []
    case Terminal => if b.terminal.Some? then [b.terminal.value] else []
  }

  /** Starts the drain goroutine unless one is alive or the mailbox is paused. */
  function Scheduled(b: Box): Box {
    if b.paused then b else b.(draining := true)
  }

  function Posted(b: Box, target: Target, fn: Handler): (Box, bool) {
    var event := Event(b.next + 1, fn);
    var c := Scheduled(b.(next := b.next + 1));
    if fn == NIL then (b, true)
    else if b.closed || b.closing then (b, false)
    else match target
      case ToData => if |b.data| >= DATA_CAPACITY then (b.(overflowed := true), false)
                     else (c.(data := b.data + [event]), true)
      case ToControl => if |b.control| >= CONTROL_CAPACITY then (b.(overflowed := true), false)
                        else (c.(control := b.control + [event]), true)
      case ToLatest(slot) => if slot < 0 || slot >= |b.latest| then (b, false)
                             else (c.(latest := b.latest[slot := Some(event)]), true)
      case ToTerminal => if b.terminal.Some? then (b, false) else (c.(terminal := Some(event)), true)
      case ToStop => (c.(stopRequest := Some(event)), true)
  }

  function Prefer(best: Option<Stamped>, lane: Lane, waiting: seq<Event>): Option<Stamped> {
    if waiting != [] && (best.None? || waiting[0].sequence < best.value.event.sequence)
    then Some(Stamped(lane, waiting[0])) else best
  }

  function PreferLatest(b: Box, from: nat, best: Option<Stamped>): Option<Stamped>
    requires from <= |b.latest|
    decreases |b.latest| - from
  {
    if from == |b.latest| then best else PreferLatest(b, from + 1, Prefer(best, Latest(from), At(b, Latest(from))))
  }

  /** The front of the merged lanes: the smallest sequence number among the lane heads. */
  function Oldest(b: Box): Option<Stamped> {
    Prefer(PreferLatest(b, 0, Prefer(Prefer(None, Data, b.data), Control, b.control)), Terminal, At(b, Terminal))
  }

  function DropHead(b: Box, lane: Lane): (c: Box)
    requires At(b, lane) != []
    ensures c == b.(data := c.data, control := c.control, latest := c.latest, terminal := c.terminal)
  {
    match lane
    case Data => b.(data := b.data[1..])
    case Control => b.(control := b.control[1..])
    case Latest(slot) => b.(latest := b.latest[slot := None])
    case Terminal => b.(terminal := None)
  }

  lemma OldestIsHead(b: Box)
    ensures Oldest(b).Some? ==>
              At(b, Oldest(b).value.lane) != [] && At(b, Oldest(b).value.lane)[0] == Oldest(b).value.event
  {
    LatestIsHead(b, 0, Prefer(Prefer(None, Data, b.data), Control, b.control));
  }

  lemma LatestIsHead(b: Box, from: nat, best: Option<Stamped>)
    requires from <= |b.latest|
    requires best.Some? ==> At(b, best.value.lane) != [] && At(b, best.value.lane)[0] == best.value.event
    ensures var r := PreferLatest(b, from, best);
      r.Some? ==> At(b, r.value.lane) != [] && At(b, r.value.lane)[0] == r.value.event
    decreases |b.latest| - from
  {
  }

  function TakeNext(b: Box): (Box, Option<Event>) {
    if b.stopRequest.Some? then (b.(stopRequest := None), b.stopRequest)
    else
      OldestIsHead(b);
      match Oldest(b)
      case None => (b, None)
      case Some(x) => (DropHead(b, x.lane), Some(x.event))
  }

  /** One lock section of the drain goroutine: take an event to run, or retire. */
  function Drained(b: Box): (Box, Option<Event>) {
    if b.closed || b.closing || b.paused then (b.(draining := false), None)
    else
      var (c, event) := TakeNext(b);
      if event.None? then (b.(draining := false), None) else (c.(inHandler := c.inHandler + 1), event)
  }

  function HandlerReturned(b: Box): Box {
    if b.inHandler == 0 then b else b.(inHandler := b.inHandler - 1)
  }

  function Unpaused(b: Box): Box {
    var c := b.(paused := false);
    if b.HasEvents() then Scheduled(c) else c
  }

  function BeganClose(b: Box): (Box, Outcome) {
    if b.closed then (b, Ok)
    else if b.closing || b.inHandler != 0 then (b, Err(InUse))
    else (b.Cleared().(closing := true), Ok)
  }

  function CancelledClose(b: Box): Box {
    if b.closed then b
    else if b.HasEvents() then Scheduled(b.(closing := false))
    else b.(closing := false)
  }

  function FinishedClose(b: Box): Box {
    b.Cleared().(closed := true, closing := false)
  }

  // ---- The arrival list ---------------------------------------------------------------------

  /** The events of one lane, in arrival order. */
  function Project(w: seq<Stamped>, lane: Lane): seq<Event> {
    if w == [] then []
    else
      var n := |w| - 1;
      Project(w[..n], lane) + if w[n].lane == lane then [w[n].event] else []
  }

  function Without(w: seq<Stamped>, lane: Lane): seq<Stamped> {
    if w == [] then []
    else
      var n := |w| - 1;
      Without(w[..n], lane) + if w[n].lane == lane then [] else [w[n]]
  }

  predicate Increasing(w: seq<Stamped>, bound: nat) {
    && (forall i, j :: 0 <= i < j < |w| ==> w[i].event.sequence < w[j].event.sequence)
    && (forall i :: 0 <= i < |w| ==> 0 < w[i].event.sequence <= bound)
  }

  /** `w` is everything waiting in the merged lanes of `b`, oldest first. */
  ghost predicate Arrivals(b: Box, w: seq<Stamped>) {
    && Increasing(w, b.next)
    && (forall lane :: Project(w, lane) == At(b, lane))
    && |b.latest| == LATEST_COUNT
  }

  /** The posts that add to the merged lanes. */
  predicate Merged(target: Target) { !target.ToStop? && (target.ToLatest? ==> target.slot >= 0) }

  function LaneOf(target: Target): Lane
    requires Merged(target)
  {
    match target
    case ToData => Data
    case ToControl => Control
    case ToTerminal => Terminal
    case ToLatest(slot) => Latest(slot)
  }

  /** An accepted event goes to the end, after dropping the entry that a latest slot supersedes. */
  function Added(w: seq<Stamped>, target: Target, event: Event): seq<Stamped>
    requires Merged(target)
  {
    (if target.ToLatest? then Without(w, LaneOf(target)) else w) + [Stamped(LaneOf(target), event)]
  }

  /** What a post does to the arrival list. */
  function Appended(b: Box, w: seq<Stamped>, target: Target, fn: Handler): seq<Stamped> {
    if fn == NIL || !Posted(b, target, fn).1 || !Merged(target) then w else Added(w, target, Event(b.next + 1, fn))
  }

  lemma {:induction false} ProjectAppend(w: seq<Stamped>, x: Stamped, lane: Lane)
    ensures Project(w + [x], lane) == Project(w, lane) + if x.lane == lane then [x.event] else []
  {
    assert (w + [x])[..|w|] == w;
  }

  lemma {:induction false} ProjectWithout(w: seq<Stamped>, gone: Lane, lane: Lane)
    ensures Project(Without(w, gone), lane) == if lane == gone then [] else Project(w, lane)
  {
    if w != [] {
      var n := |w| - 1;
      ProjectWithout(w[..n], gone, lane);
      ProjectAppend(Without(w[..n], gone), w[n], lane);
      assert Without(w[..n], gone) + [] == Without(w[..n], gone);
    }
  }

  /** Dropping entries keeps the order of the rest. */
  lemma {:induction false} WithoutMembers(w: seq<Stamped>, gone: Lane, x: Stamped)
    ensures x in Without(w, gone) <==> x in w && x.lane != gone
  {
    if w != [] {
      var n := |w| - 1;
      WithoutMembers(w[..n], gone, x);
      assert x in w <==> x in w[..n] || x == w[n];
    }
  }

  lemma {:induction false} WithoutIncreasing(w: seq<Stamped>, gone: Lane, bound: nat)
    requires Increasing(w, bound)
    ensures Increasing(Without(w, gone), bound)
  {
    if w != [] {
      var n := |w| - 1;
      WithoutIncreasing(w[..n], gone, bound);
      forall x | x in Without(w[..n], gone) ensures x.event.sequence < w[n].event.sequence {
        WithoutMembers(w[..n], gone, x);
      }
    }
  }

  lemma OneMoreIncreasing(w: seq<Stamped>, x: Stamped, bound: nat)
    requires Increasing(w, bound) && x.event.sequence == bound + 1
    ensures Increasing(w + [x], bound + 1)
  {
  }

  lemma {:induction false} ProjectHead(w: seq<Stamped>, lane: Lane)
    requires w != []
    ensures Project(w, lane) == (if w[0].lane == lane then [w[0].event] else []) + Project(w[1..], lane)
  {
    var n := |w| - 1;
    if n > 0 {
      ProjectHead(w[..n], lane);
      assert w[..n][1..] == w[1..][..n - 1];
    }
  }

  lemma {:induction false} ProjectMember(w: seq<Stamped>, lane: Lane, k: nat)
    requires k < |Project(w, lane)|
    ensures Stamped(lane, Project(w, lane)[k]) in w
  {
    var n := |w| - 1;
    if k < |Project(w[..n], lane)| {
      ProjectMember(w[..n], lane, k);
      assert Stamped(lane, Project(w, lane)[k]) in w[..n];
    }
  }

  lemma PostedLane(b: Box, target: Target, fn: Handler, lane: Lane)
    requires fn != NIL && Posted(b, target, fn).1 && !target.ToStop?
    ensures Merged(target)
    ensures At(Posted(b, target, fn).0, lane)
         == if lane != LaneOf(target) then At(b, lane)
            else (if target.ToLatest? then [] else At(b, lane)) + [Event(b.next + 1, fn)]
  {
  }

  lemma RefusedKeepsLane(b: Box, target: Target, fn: Handler, lane: Lane)
    requires fn == NIL || !Posted(b, target, fn).1 || target.ToStop?
    ensures At(Posted(b, target, fn).0, lane) == At(b, lane)
  {
  }

  lemma AddedLane(w: seq<Stamped>, target: Target, event: Event, lane: Lane)
    requires Merged(target)
    ensures Project(Added(w, target, event), lane)
         == if lane != LaneOf(target) then Project(w, lane)
            else (if target.ToLatest? then [] else Project(w, lane)) + [event]
  {
    var mine := LaneOf(target);
    var kept := if target.ToLatest? then Without(w, mine) else w;
    ProjectWithout(w, mine, lane);
    ProjectAppend(kept, Stamped(mine, event), lane);
    assert Project(kept, lane) + [] == Project(kept, lane);
  }

  lemma AddedIncreasing(w: seq<Stamped>, target: Target, event: Event, bound: nat)
    requires Merged(target) && Increasing(w, bound) && event.sequence == bound + 1
    ensures Increasing(Added(w, target, event), bound + 1)
  {
    var kept := if target.ToLatest? then Without(w, LaneOf(target)) else w;
    WithoutIncreasing(w, LaneOf(target), bound);
    OneMoreIncreasing(kept, Stamped(LaneOf(target), event), bound);
  }

  lemma PostedNumber(b: Box, target: Target, fn: Handler)
    ensures Posted(b, target, fn).0.next == b.next + if fn != NIL && Posted(b, target, fn).1 then 1 else 0
    ensures fn != NIL && Posted(b, target, fn).1 && !target.ToStop? ==> Merged(target)
  {
  }

  lemma AppendedIncreasing(b: Box, w: seq<Stamped>, target: Target, fn: Handler)
    requires Increasing(w, b.next)
    ensures Increasing(Appended(b, w, target, fn), Posted(b, target, fn).0.next)
  {
    PostedNumber(b, target, fn);
    if fn != NIL && Posted(b, target, fn).1 && Merged(target) {
      AddedIncreasing(w, target, Event(b.next + 1, fn), b.next);
    }
  }

  lemma PostKeepsLane(b: Box, w: seq<Stamped>, target: Target, fn: Handler, lane: Lane)
    requires Project(w, lane) == At(b, lane)
    ensures Project(Appended(b, w, target, fn), lane) == At(Posted(b, target, fn).0, lane)
  {
    if fn != NIL && Posted(b, target, fn).1 && !target.ToStop? {
      PostedLane(b, target, fn, lane);
      AddedLane(w, target, Event(b.next + 1, fn), lane);
    } else {
      RefusedKeepsLane(b, target, fn, lane);
      assert Appended(b, w, target, fn) == w;
    }
  }

  lemma PostKeepsArrivals(b: Box, w: seq<Stamped>, target: Target, fn: Handler)
    requires Arrivals(b, w)
    ensures Arrivals(Posted(b, target, fn).0, Appended(b, w, target, fn))
  {
    AppendedIncreasing(b, w, target, fn);
    forall lane ensures Project(Appended(b, w, target, fn), lane) == At(Posted(b, target, fn).0, lane) {
      PostKeepsLane(b, w, target, fn, lane);
    }
  }

  /** The merge by sequence number finds exactly the oldest arrival. */
  lemma HeadsAreLater(b: Box, w: seq<Stamped>, lane: Lane)
    requires Arrivals(b, w) && At(b, lane) != []
    ensures w != []
    ensures w[0].event.sequence <= At(b, lane)[0].sequence
    ensures w[0].event.sequence == At(b, lane)[0].sequence ==> lane == w[0].lane
    ensures At(b, w[0].lane) != [] && At(b, w[0].lane)[0] == w[0].event
  {
    assert Project(w, lane) == At(b, lane);
    ProjectMember(w, lane, 0);
    ProjectHead(w, w[0].lane);
    assert Project(w, w[0].lane) == At(b, w[0].lane);
    var x := Stamped(lane, At(b, lane)[0]);
    var i :| 0 <= i < |w| && w[i] == x;
  }

  lemma PreferKeepsFirst(w: seq<Stamped>, best: Option<Stamped>, b: Box, lane: Lane)
    requires Arrivals(b, w)
    requires best.None? || (w != [] && w[0].event.sequence < best.value.event.sequence)
             || (w != [] && best.value == w[0])
    ensures var r := Prefer(best, lane, At(b, lane));
      && (r.None? || (w != [] && w[0].event.sequence < r.value.event.sequence) || (w != [] && r.value == w[0]))
      && (w != [] && (best == Some(w[0]) || lane == w[0].lane) ==> r == Some(w[0]))
  {
    if At(b, lane) != [] {
      HeadsAreLater(b, w, lane);
    } else if w != [] {
      ProjectHead(w, lane);
      assert Project(w, lane) == At(b, lane);
    }
  }

  lemma OldestIsFirstArrival(b: Box, w: seq<Stamped>)
    requires Arrivals(b, w)
    ensures Oldest(b) == if w == [] then None else Some(w[0])
  {
    var afterData := Prefer(None, Data, b.data);
    var afterControl := Prefer(afterData, Control, b.control);
    var afterLatest := Prefer(afterControl, Latest(0), At(b, Latest(0)));
    assert PreferLatest(b, 1, afterLatest) == afterLatest;
    PreferKeepsFirst(w, None, b, Data);
    PreferKeepsFirst(w, afterData, b, Control);
    PreferKeepsFirst(w, afterControl, b, Latest(0));
    PreferKeepsFirst(w, afterLatest, b, Terminal);
    if w != [] && w[0].lane.Latest? {
      ProjectHead(w, w[0].lane);
      assert Project(w, w[0].lane) == At(b, w[0].lane);
    }
  }

  lemma DroppedLane(b: Box, gone: Lane, lane: Lane)
    requires At(b, gone) != []
    ensures At(DropHead(b, gone), lane) == if lane == gone then At(b, gone)[1..] else At(b, lane)
  {
  }

  lemma ProjectTail(w: seq<Stamped>, lane: Lane)
    requires w != []
    ensures lane == w[0].lane ==> Project(w, lane) != [] && Project(w[1..], lane) == Project(w, lane)[1..]
    ensures lane != w[0].lane ==> Project(w[1..], lane) == Project(w, lane)
  {
    ProjectHead(w, lane);
  }

  lemma FirstIsWaiting(b: Box, w: seq<Stamped>)
    requires Arrivals(b, w) && w != []
    ensures At(b, w[0].lane) != [] && At(b, w[0].lane)[0] == w[0].event
  {
    ProjectHead(w, w[0].lane);
    assert Project(w, w[0].lane) == At(b, w[0].lane);
  }

  lemma DropKeepsArrivals(b: Box, w: seq<Stamped>)
    requires Arrivals(b, w) && w != []
    ensures At(b, w[0].lane) != [] && At(b, w[0].lane)[0] == w[0].event
    ensures Arrivals(DropHead(b, w[0].lane), w[1..])
  {
    var head := w[0].lane;
    ProjectHead(w, head);
    assert Project(w, head) == At(b, head);
    forall lane ensures Project(w[1..], lane) == At(DropHead(b, head), lane) {
      assert Project(w, lane) == At(b, lane);
      ProjectTail(w, lane);
      DroppedLane(b, head, lane);
    }
  }

  /** Taking from the merged lanes pops the front of the arrival list. */
  lemma TakeKeepsArrivals(b: Box, w: seq<Stamped>)
    requires Arrivals(b, w) && b.stopRequest.None?
    ensures w == [] ==> TakeNext(b) == (b, None)
    ensures w != [] ==> TakeNext(b).1 == Some(w[0].event) && Arrivals(TakeNext(b).0, w[1..])
  {
    OldestIsFirstArrival(b, w);
    if w != [] {
      DropKeepsArrivals(b, w);
    }
  }

  /** The arrival list says nothing about the flags and the stop request. */
  lemma LanesDecide(b: Box, c: Box, w: seq<Stamped>)
    requires Arrivals(b, w) && c.next == b.next
    requires c.data == b.data && c.control == b.control && c.latest == b.latest && c.terminal == b.terminal
    ensures Arrivals(c, w)
  {
    assert forall lane :: At(c, lane) == At(b, lane);
  }

  lemma ClearedHasNone(b: Box)
    requires |b.latest| == LATEST_COUNT
    ensures Arrivals(b.Cleared(), [])
  {
  }

  /** The mailbox object. `arrivals` is the single list that its five lanes stand for. */
  class Mailbox {
    var data: seq<Event>
    var control: seq<Event>
    var latest: seq<Option<Event>>
    var terminal: Option<Event>
    var stopRequest: Option<Event>
    var next: nat
    var draining: bool
    var paused: bool
    var closing: bool
    var closed: bool
    var overflowed: bool
    var inHandler: nat
    ghost var arrivals: seq<Stamped>

    ghost function View(): Box
      reads this
    {
      Box(data, control, latest, terminal, stopRequest, next,
          draining, paused, closing, closed, overflowed, inHandler)
    }

    ghost predicate Valid()
      reads this
    {
      Arrivals(View(), arrivals)
    }

    constructor ()
      ensures Valid() && View() == Empty(false) && arrivals == []
    {
      data, control, latest, terminal, stopRequest, next := [], [], seq(LATEST_COUNT, _ => None), None, None, 0;
      draining, paused, closing, closed, overflowed, inHandler := false, false, false, false, false, 0;
      arrivals := [];
    }

    /** Numbers an event and makes sure somebody will run it; true when a goroutine has to be started. */
    method Admit(fn: Handler) returns (event: Event, spawn: bool)
      modifies this`next, this`draining
      ensures next == old(next) + 1 && event == Event(next, fn)
      ensures draining == (old(draining) || !paused) && spawn == (draining && !old(draining))
    {
      next := next + 1;
      event := Event(next, fn);
      spawn := !paused && !draining;
      if spawn {
        draining := true;
      }
    }

    /** Brings the arrival list up to date after a post. */
    ghost method Settle(before: Box, target: Target, fn: Handler)
      requires Arrivals(before, arrivals) && View() == Posted(before, target, fn).0
      modifies this`arrivals
      ensures Valid() && arrivals == Appended(before, old(arrivals), target, fn)
    {
      PostKeepsArrivals(before, arrivals, target, fn);
      arrivals := Appended(before, arrivals, target, fn);
    }

    /** The post itself, before the arrival list follows. */
    method PutBounded(toData: bool, fn: Handler) returns (ok: bool, spawn: bool)
      modifies this`data, this`control, this`next, this`draining, this`overflowed
      ensures (View(), ok) == Posted(old(View()), if toData then ToData else ToControl, fn)
      ensures spawn == (draining && !old(draining))
    {
      ok, spawn := fn == NIL, false;
      if fn != NIL && !closed && !closing {
        if |if toData then data else control| >= (if toData then DATA_CAPACITY else CONTROL_CAPACITY) {
          overflowed := true;
        } else {
          var event;
          event, spawn := Admit(fn);
          if toData {
            data := data + [event];
          } else {
            control := control + [event];
          }
          ok := true;
        }
      }
    }

    method PostBounded(toData: bool, fn: Handler) returns (ok: bool, spawn: bool)
      requires Valid()
      modifies this
      ensures Valid()
      ensures var target := if toData then ToData else ToControl;
        && (View(), ok) == Posted(old(View()), target, fn)
        && arrivals == Appended(old(View()), old(arrivals), target, fn)
      ensures spawn == (draining && !old(draining))
    {
      ghost var before := View();
      ok, spawn := PutBounded(toData, fn);
      Settle(before, if toData then ToData else ToControl, fn);
    }

    method PostLatest(slot: int, fn: Handler) returns (ok: bool, spawn: bool)
      requires Valid()
      modifies this
      ensures Valid()
      ensures (View(), ok) == Posted(old(View()), ToLatest(slot), fn)
      ensures arrivals == Appended(old(View()), old(arrivals), ToLatest(slot), fn)
      ensures spawn == (draining && !old(draining))
    {
      ghost var before := View();
      ok, spawn := fn == NIL, false;
      if fn != NIL && !closed && !closing && 0 <= slot < |latest| {
        var event;
        event, spawn := Admit(fn);
        latest := latest[slot := Some(event)];
        ok := true;
      }
      Settle(before, ToLatest(slot), fn);
    }

    method PutReserved(stop: bool, fn: Handler) returns (ok: bool, spawn: bool)
      modifies this`terminal, this`stopRequest, this`next, this`draining
      ensures (View(), ok) == Posted(old(View()), if stop then ToStop else ToTerminal, fn)
      ensures spawn == (draining && !old(draining))
    {
      ok, spawn := fn == NIL, false;
      if fn != NIL && !closed && !closing && (stop || terminal.None?) {
        var event;
        event, spawn := Admit(fn);
        if stop {
          stopRequest := Some(event);
        } else {
          terminal := Some(event);
        }
        ok := true;
      }
    }

    /** The two reserved slots: a stop request replaces the one waiting, a terminal does not. */
    method PostReserved(stop: bool, fn: Handler) returns (ok: bool, spawn: bool)
      requires Valid()
      modifies this
      ensures Valid()
      ensures var target := if stop then ToStop else ToTerminal;
        && (View(), ok) == Posted(old(View()), target, fn)
        && arrivals == Appended(old(View()), old(arrivals), target, fn)
      ensures spawn == (draining && !old(draining))
    {
      ghost var before := View();
      ok, spawn := PutReserved(stop, fn);
      Settle(before, if stop then ToStop else ToTerminal, fn);
    }

    method Better(selected: Option<Event>, waiting: seq<Event>) returns (best: Option<Event>)
      ensures best == if waiting != [] && (selected.None? || waiting[0].sequence < selected.value.sequence)
                      then Some(waiting[0]) else selected
    {
      best := selected;
      if waiting != [] && (selected.None? || waiting[0].sequence < selected.value.sequence) {
        best := Some(waiting[0]);
      }
    }

    /** Selects the smallest sequence number among the lane heads. */
    method SelectOldest() returns (selected: Option<Event>)
      requires Valid()
      ensures selected == if arrivals == [] then None else Some(arrivals[0].event)
    {
      ghost var b := View();
      OldestIsFirstArrival(b, arrivals);
      selected := Better(None, data);
      selected := Better(selected, control);
      ghost var first := Prefer(Prefer(None, Data, data), Control, control);
      ghost var best := first;
      for k := 0 to |latest|
        invariant selected == if best.None? then None else Some(best.value.event)
        invariant PreferLatest(b, 0, first) == PreferLatest(b, k, best)
      {
        ghost var waiting := At(b, Latest(k));
        selected := Better(selected, if latest[k].Some? then [latest[k].value] else []);
        best := Prefer(best, Latest(k), waiting);
      }
      assert PreferLatest(b, |latest|, best) == best;
      selected := Better(selected, if terminal.Some? then [terminal.value] else []);
    }

    /** Finds the lane of the selected event again, by its sequence number. */
    method LaneHolding(selected: Event) returns (lane: Lane)
      requires Valid() && arrivals != [] && selected == arrivals[0].event
      ensures lane == arrivals[0].lane
    {
      FirstIsWaiting(View(), arrivals);
      if data != [] && data[0].sequence == selected.sequence {
        HeadsAreLater(View(), arrivals, Data);
        return Data;
      }
      if control != [] && control[0].sequence == selected.sequence {
        HeadsAreLater(View(), arrivals, Control);
        return Control;
      }
      for k := 0 to |latest|
        invariant forall j :: 0 <= j < k ==> arrivals[0].lane != Latest(j)
      {
        if latest[k].Some? && latest[k].value.sequence == selected.sequence {
          HeadsAreLater(View(), arrivals, Latest(k));
          return Latest(k);
        }
      }
      return Terminal;
    }

    method RemoveHead(lane: Lane)
      requires Valid() && arrivals != [] && lane == arrivals[0].lane
      modifies this`data, this`control, this`latest, this`terminal, this`arrivals
      ensures Valid() && arrivals == old(arrivals)[1..]
      ensures At(old(View()), lane) != [] && View() == DropHead(old(View()), lane)
    {
      DropKeepsArrivals(View(), arrivals);
      arrivals := arrivals[1..];
      match lane
      case Data => data := data[1..];
      case Control => control := control[1..];
      case Latest(slot) => latest := latest[slot := None];
      case Terminal => terminal := None;
    }

    method TakeNextLocked() returns (event: Option<Event>)
      requires Valid()
      modifies this
      ensures Valid()
      ensures (View(), event) == TakeNext(old(View()))
      ensures old(stopRequest).Some? ==> event == old(stopRequest) && arrivals == old(arrivals)
      ensures old(stopRequest).None? ==>
        if old(arrivals) == [] then event == None && arrivals == []
        else event == Some(old(arrivals)[0].event) && arrivals == old(arrivals)[1..]
    {
      if stopRequest.Some? {
        event := stopRequest;
        stopRequest := None;
        LanesDecide(old(View()), View(), arrivals);
        return;
      }
      TakeKeepsArrivals(View(), arrivals);
      OldestIsFirstArrival(View(), arrivals);
      event := SelectOldest();
      if event.Some? {
        var lane := LaneHolding(event.value);
        RemoveHead(lane);
      }
    }

    /** One lock section of the drain goroutine. */
    method DrainSection() returns (event: Option<Event>)
      requires Valid()
      modifies this
      ensures Valid()
      ensures (View(), event) == Drained(old(View()))
    {
      if closed || closing || paused {
        draining := false;
        LanesDecide(old(View()), View(), arrivals);
        return None;
      }
      event := TakeNextLocked();
      ghost var taken := View();
      if event.None? {
        draining := false;
      } else {
        inHandler := inHandler + 1;
      }
      LanesDecide(taken, View(), arrivals);
    }

    method HasEventsLocked() returns (pending: bool)
      ensures pending == View().HasEvents()
    {
      if data != [] || control != [] || terminal.Some? || stopRequest.Some? {
        return true;
      }
      for k := 0 to |latest|
        invariant forall j :: 0 <= j < k ==> latest[j].None?
      {
        if latest[k].Some? {
          return true;
        }
      }
      return false;
    }

    method Clear()
      requires Valid()
      modifies this
      ensures Valid() && View() == old(View()).Cleared() && arrivals == []
    {
      ClearedHasNone(View());
      data, control, terminal, stopRequest := [], [], None, None;
      latest := seq(|latest|, _ => None);
      arrivals := [];
    }

    method BeginClose() returns (outcome: Outcome)
      requires Valid()
      modifies this
      ensures Valid()
      ensures (View(), outcome) == BeganClose(old(View()))
    {
      if closed {
        return Ok;
      }
      if closing || inHandler != 0 {
        return Err(InUse);
      }
      Clear();
      ghost var cleared := View();
      closing := true;
      LanesDecide(cleared, View(), arrivals);
      return Ok;
    }

    method CancelClose() returns (spawn: bool)
      requires Valid()
      modifies this`closing, this`draining
      ensures Valid()
      ensures View() == CancelledClose(old(View()))
      ensures spawn == (draining && !old(draining))
    {
      spawn := false;
      if !closed {
        closing := false;
        var pending := HasEventsLocked();
        spawn := pending && !paused && !draining;
        if spawn {
          draining := true;
        }
      }
      LanesDecide(old(View()), View(), arrivals);
    }

    method FinishClose()
      requires Valid()
      modifies this
      ensures Valid() && View() == FinishedClose(old(View()))
    {
      Clear();
      closed, closing := true, false;
      assert forall lane :: At(View(), lane) == [];
    }
  }
}
