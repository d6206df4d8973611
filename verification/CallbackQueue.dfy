/** The storage callback queue: three bounded lanes served by one worker. */
module CallbackLanes {

  const EVENT_CAPACITY := 256
  const CONTROL_CAPACITY := 16
  const CRITICAL_SLOTS := 3

  /** A callback. Only its identity matters; `NIL` is the nil function value. */
  type Func = nat
  const NIL: Func := 0

  datatype Lanes = Lanes(events: seq<Func>, controls: seq<Func>, critical: seq<Func>,
                         active: nat, closed: bool, stopped: bool)
  {
    predicate Bounded() {
      && |events| <= EVENT_CAPACITY
      && |controls| <= CONTROL_CAPACITY
      && |critical| == CRITICAL_SLOTS
    }

    predicate Pending() {
      FirstCritical(critical) >= 0 || controls != [] || events != []
    }
  }

  /** What a critical section does to the condition variable before it releases the lock. */
  datatype Wake = Nobody | One | Everybody

  datatype Verdict = Accepted | Refused | Blocked

  datatype Posted = Posted(lanes: Lanes, verdict: Verdict, wake: Wake)

  datatype Kind = Ordinary | Control | Critical(slot: int, replace: bool)

  datatype Turn = Sleep | Stop | Run(kind: Kind, f: Func)

  /** The lowest occupied critical slot, or -1. */
  function FirstCritical(critical: seq<Func>): (slot: int)
    ensures -1 <= slot < |critical|
    ensures slot >= 0 ==> critical[slot] != NIL && forall k :: 0 <= k < slot ==> critical[k] == NIL
    ensures slot == -1 ==> forall k :: 0 <= k < |critical| ==> critical[k] == NIL
  {
    FirstCriticalFrom(critical, 0)
  }

  function FirstCriticalFrom(critical: seq<Func>, from: nat): (slot: int)
    requires from <= |critical|
    ensures slot == -1 || from <= slot < |critical|
    ensures slot >= 0 ==> critical[slot] != NIL && forall k :: from <= k < slot ==> critical[k] == NIL
    ensures slot == -1 ==> forall k :: from <= k < |critical| ==> critical[k] == NIL
    decreases |critical| - from
  {
    if from == |critical| then -1
    else if critical[from] != NIL then from
    else FirstCriticalFrom(critical, from + 1)
  }

  /** One attempt to post without waiting. */
  function Offer(q: Lanes, kind: Kind, f: Func): Posted
    requires q.Bounded()
  {
    if f == NIL then Posted(q, Accepted, Nobody)
    else match kind
      case Ordinary =>
        if q.closed || |q.events| == EVENT_CAPACITY then Posted(q, Refused, Nobody)
        else Posted(q.(events := q.events + [f]), Accepted, One)
      case Control =>
        if q.closed || |q.controls| == CONTROL_CAPACITY then Posted(q, Refused, Nobody)
        else Posted(q.(controls := q.controls + [f]), Accepted, One)
      case Critical(slot, replace) =>
        if q.closed || slot < 0 || slot >= |q.critical| then Posted(q, Refused, Nobody)
        else if q.critical[slot] != NIL && !replace then Posted(q, Accepted, Nobody)
        else Posted(q.(critical := q.critical[slot := f]), Accepted, One)
  }

  /** One pass of the reliable producer: the only post that may have to wait for room. */
  function OfferReliably(q: Lanes, f: Func): Posted
    requires q.Bounded()
  {
    if f != NIL && !q.closed && |q.events| == EVENT_CAPACITY then Posted(q, Blocked, Nobody)
    else Offer(q, Ordinary, f)
  }

  /** What the worker decides while it holds the lock. */
  function TakeTurn(q: Lanes): (Lanes, Turn) {
    var slot := FirstCritical(q.critical);
    if slot >= 0 then
      (q.(critical := q.critical[slot := NIL], active := q.active + 1), Run(Critical(slot, true), q.critical[slot]))
    else if q.controls != [] then
      (q.(controls := q.controls[1..], active := q.active + 1), Run(Control, q.controls[0]))
    else if q.events != [] then
      (q.(events := q.events[1..], active := q.active + 1), Run(Ordinary, q.events[0]))
    else if q.closed then (q.(stopped := true), Stop)
    else (q, Sleep)
  }

  /** The queue object itself. Each method body is what the source runs between taking and releasing the lock. */
  class CallbackQueue {
    const events: array<Func>
    const controls: array<Func>
    const critical: array<Func>
    var eventCount: nat
    var controlCount: nat
    var active: nat
    var closed: bool
    var stopped: bool

    ghost predicate Valid()
      reads this, events, controls, critical
    {
      && events.Length == EVENT_CAPACITY && eventCount <= EVENT_CAPACITY
      && controls.Length == CONTROL_CAPACITY && controlCount <= CONTROL_CAPACITY
      && critical.Length == CRITICAL_SLOTS
      && events != controls && events != critical && controls != critical
      && (forall i :: eventCount <= i < EVENT_CAPACITY ==> events[i] == NIL)
      && (forall i :: controlCount <= i < CONTROL_CAPACITY ==> controls[i] == NIL)
    }

    ghost function View(): (q: Lanes)
      requires Valid()
      reads this, events, controls, critical
      ensures q.Bounded()
    {
      Lanes(events[..eventCount], controls[..controlCount], critical[..], active, closed, stopped)
    }

    constructor ()
      ensures Valid() && fresh(events) && fresh(controls) && fresh(critical)
      ensures View() == Lanes([], [], [NIL, NIL, NIL], 0, false, false)
    {
      events := new Func[EVENT_CAPACITY](_ => NIL);
      controls := new Func[CONTROL_CAPACITY](_ => NIL);
      critical := new Func[CRITICAL_SLOTS](_ => NIL);
      eventCount, controlCount, active, closed, stopped := 0, 0, 0, false, false;
    }

    method Post(f: Func) returns (ok: bool, wake: Wake)
      requires Valid()
      modifies this`eventCount, events
      ensures Valid()
      ensures Posted(View(), if ok then Accepted else Refused, wake) == Offer(old(View()), Ordinary, f)
    {
      if f == NIL {
        return true, Nobody;
      }
      if closed || eventCount == events.Length {
        return false, Nobody;
      }
      events[eventCount] := f;
      eventCount := eventCount + 1;
      return true, One;
    }

    /** One pass of the producer's wait loop; `Blocked` means it goes back to sleep on the condition. */
    method PostReliablePass(f: Func) returns (verdict: Verdict, wake: Wake)
      requires Valid()
      modifies this`eventCount, events
      ensures Valid()
      ensures Posted(View(), verdict, wake) == OfferReliably(old(View()), f)
    {
      if f != NIL && !closed && eventCount == events.Length {
        return Blocked, Nobody;
      }
      var ok;
      ok, wake := Post(f);
      verdict := if ok then Accepted else Refused;
    }

    method PostControl(f: Func) returns (ok: bool, wake: Wake)
      requires Valid()
      modifies this`controlCount, controls
      ensures Valid()
      ensures Posted(View(), if ok then Accepted else Refused, wake) == Offer(old(View()), Control, f)
    {
      if f == NIL {
        return true, Nobody;
      }
      if closed || controlCount == controls.Length {
        return false, Nobody;
      }
      controls[controlCount] := f;
      controlCount := controlCount + 1;
      return true, One;
    }

    method PostCritical(slot: int, f: Func, replace: bool) returns (ok: bool, wake: Wake)
      requires Valid()
      modifies critical
      ensures Valid()
      ensures Posted(View(), if ok then Accepted else Refused, wake)
           == Offer(old(View()), Critical(slot, replace), f)
    {
      if f == NIL {
        return true, Nobody;
      }
      if closed || slot < 0 || slot >= critical.Length {
        return false, Nobody;
      }
      if critical[slot] != NIL && !replace {
        return true, Nobody;
      }
      critical[slot] := f;
      return true, One;
    }

    /** Scans the critical slots in order. */
    method ScanCritical() returns (slot: int)
      requires Valid()
      ensures slot == FirstCritical(critical[..])
    {
      for k := 0 to critical.Length
        invariant FirstCritical(critical[..]) == FirstCriticalFrom(critical[..], k)
      {
        if critical[k] != NIL {
          return k;
        }
      }
      return -1;
    }

    /** Removes the front of a lane by moving every later entry down and clearing the vacated slot. */
    static method ShiftOut(lane: array<Func>, count: nat) returns (first: Func)
      requires 0 < count <= lane.Length
      modifies lane
      ensures first == old(lane[..count])[0]
      ensures lane[..count - 1] == old(lane[..count])[1..]
      ensures lane[count - 1] == NIL
      ensures forall i :: count <= i < lane.Length ==> lane[i] == old(lane[i])
    {
      first := lane[0];
      for i := 1 to count
        invariant forall k :: 0 <= k < i - 1 ==> lane[k] == old(lane[k + 1])
        invariant forall k :: i - 1 <= k < lane.Length ==> lane[k] == old(lane[k])
      {
        lane[i - 1] := lane[i];
      }
      lane[count - 1] := NIL;
      assert forall k :: 0 <= k < count - 1 ==> lane[..count - 1][k] == old(lane[..count])[1..][k];
    }

    method TakeCritical(slot: nat) returns (f: Func)
      requires Valid() && slot < CRITICAL_SLOTS
      modifies critical, this`active
      ensures Valid() && f == old(critical[slot])
      ensures View() == old(View()).(critical := old(View()).critical[slot := NIL], active := old(active) + 1)
    {
      f := critical[slot];
      critical[slot] := NIL;
      active := active + 1;
    }

    method TakeControl() returns (f: Func)
      requires Valid() && controlCount > 0
      modifies controls, this`controlCount, this`active
      ensures Valid() && f == old(View()).controls[0]
      ensures View() == old(View()).(controls := old(View()).controls[1..], active := old(active) + 1)
    {
      f := ShiftOut(controls, controlCount);
      controlCount := controlCount - 1;
      active := active + 1;
      assert Valid();
      assert View().controls == old(View()).controls[1..];
      assert View().events == old(View()).events && View().critical == old(View()).critical;
    }

    method TakeOrdinary() returns (f: Func)
      requires Valid() && eventCount > 0
      modifies events, this`eventCount, this`active
      ensures Valid() && f == old(View()).events[0]
      ensures View() == old(View()).(events := old(View()).events[1..], active := old(active) + 1)
    {
      f := ShiftOut(events, eventCount);
      eventCount := eventCount - 1;
      active := active + 1;
      assert Valid();
      assert View().events == old(View()).events[1..];
      assert View().controls == old(View()).controls && View().critical == old(View()).critical;
    }

    /** The worker's critical section: choose a callback, go to sleep, or stop for good. */
    method WorkerSection() returns (turn: Turn, wake: Wake)
      requires Valid()
      modifies this, events, controls, critical
      ensures Valid()
      ensures (View(), turn) == TakeTurn(old(View()))
      ensures wake == if turn.Sleep? then Nobody else Everybody
    {
      var slot := ScanCritical();
      assert slot == FirstCritical(View().critical);
      if slot >= 0 {
        var f := TakeCritical(slot);
        return Run(Critical(slot, true), f), Everybody;
      } else if controlCount != 0 {
        var f := TakeControl();
        return Run(Control, f), Everybody;
      } else if eventCount != 0 {
        var f := TakeOrdinary();
        return Run(Ordinary, f), Everybody;
      } else if closed {
        stopped := true;
        return Stop, Everybody;
      } else {
        return Sleep, Nobody;
      }
    }

    method HandlerReturned() returns (wake: Wake)
      requires Valid() && active > 0
      modifies this`active
      ensures Valid() && wake == Everybody
      ensures View() == old(View()).(active := old(active) - 1)
    {
      active := active - 1;
      wake := Everybody;
    }

    /** Also the readiness test of a replay's close. */
    method Idle() returns (idle: bool)
      requires Valid()
      ensures idle <==> active == 0 && !View().Pending()
    {
      var slot := ScanCritical();
      idle := active == 0 && eventCount == 0 && controlCount == 0 && slot < 0;
    }

    method BeginClose() returns (wake: Wake)
      requires Valid()
      modifies this`closed
      ensures Valid() && wake == Everybody
      ensures View() == old(View()).(closed := true)
    {
      closed := true;
      wake := Everybody;
    }
  }
}
