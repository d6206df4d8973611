/** Which delivered frames carry the discontinuity flag. */
module Discontinuity {

  /** The output's memory of lost media. */
  class FrameGate {
    var dropped: bool

    constructor ()
      ensures !dropped
    {
      dropped := false;
    }

    method Discontinuity(value: bool) returns (flag: bool)
      modifies this
      ensures flag == (value || old(dropped)) && !dropped
    {
      flag := value || dropped;
      dropped := false;
    }

    method MarkDropped()
      modifies this
      ensures dropped
    {
      dropped := true;
    }

    /** The frame callback: sample the flag, then offer the frame; a detach may run in between. */
    method Frame(value: bool, detachedMeanwhile: bool, admitted: bool) returns (flag: bool)
      modifies this
      ensures (dropped, flag) == After(old(dropped), Arrival(value, detachedMeanwhile, admitted))
    {
      flag := Discontinuity(value);
      if detachedMeanwhile {
        MarkDropped();
      }
      if !admitted {
        MarkDropped();
      }
    }
  }

  /** A frame with its native flag, or a successful detach (which only the storage outputs record). */
  datatype Event = Arrival(native: bool, detachedMeanwhile: bool, admitted: bool) | Detach

  /** The memory after an event, and the flag a frame was given. */
  function After(dropped: bool, e: Event): (bool, bool) {
    match e
    case Detach => (true, false)
    case Arrival(native, detachedMeanwhile, admitted) => (detachedMeanwhile || !admitted, native || dropped)
  }

  function Memory(es: seq<Event>): bool {
    es != [] && After(Memory(es[..|es| - 1]), es[|es| - 1]).0
  }

  function Flag(es: seq<Event>, k: nat): bool
    requires k < |es|
  {
    After(Memory(es[..k]), es[k]).1
  }

  predicate Admitted(e: Event) { e.Arrival? && e.admitted }

  /** Media was lost at this event: a refused frame, or a detach. */
  predicate Loses(e: Event) { e.Detach? || !e.admitted || e.detachedMeanwhile }

  /** Something was lost since the last admitted frame before `k` was sampled, or since the start. */
  predicate LostBefore(es: seq<Event>, k: nat)
    requires k <= |es|
  {
    exists j :: 0 <= j < k && Loses(es[j]) && forall i :: j < i < k ==> !Admitted(es[i])
  }

  lemma {:induction false} MemoryIsLoss(es: seq<Event>)
    ensures Memory(es) <==> LostBefore(es, |es|)
  {
    if es != [] {
      var n := |es| - 1;
      MemoryIsLoss(es[..n]);
      if Memory(es) {
        assert Loses(es[n]);
      }
      if LostBefore(es, |es|) && !Loses(es[n]) {
        assert Admitted(es[n]);
      }
    }
  }

  /**
   An admitted frame is flagged exactly when the runtime flagged it or something was lost since the previous admitted
   frame.
   */
  lemma {:induction false} FlaggedIffLoss(es: seq<Event>, k: nat)
    requires k < |es| && Admitted(es[k])
    ensures Flag(es, k) <==> es[k].native || LostBefore(es, k)
  {
    MemoryIsLoss(es[..k]);
    if j :| 0 <= j < k && Loses(es[..k][j]) && forall i :: j < i < k ==> !Admitted(es[..k][i]) {
      assert Loses(es[j]) && forall i :: j < i < k ==> !Admitted(es[i]) by {
        assert forall i :: 0 <= i < k ==> es[..k][i] == es[i];
      }
    }
    if j :| 0 <= j < k && Loses(es[j]) && forall i :: j < i < k ==> !Admitted(es[i]) {
      assert Loses(es[..k][j]) && forall i :: j < i < k ==> !Admitted(es[..k][i]);
    }
  }

  lemma LossIsRemembered(es: seq<Event>, k: nat)
    requires 0 < k <= |es| && Loses(es[k - 1])
    ensures LostBefore(es, k)
  {
    var last := k - 1;
    assert Loses(es[last]);
  }

  /**
   An unflagged admitted frame directly continues the stream: nothing precedes it, or an admitted frame without loss
   does.
   */
  lemma UnflaggedFramesAreContiguous(es: seq<Event>, k: nat)
    requires k < |es| && Admitted(es[k]) && !Flag(es, k)
    ensures k == 0 || (Admitted(es[k - 1]) && !es[k - 1].detachedMeanwhile)
  {
    FlaggedIffLoss(es, k);
    if k > 0 && Loses(es[k - 1]) {
      LossIsRemembered(es, k);
    }
  }
}
