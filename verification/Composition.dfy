/**
 The client's view of a connection is what the connection does: every step of ConnectionProtocol is at most one
 change of the kind ClientProtocol allows other threads, with the raw dumps that are not yet released as the dumps.
 */
module Composition {
  import opened Common
  import opened ConnectionProtocol
  import Client = ClientProtocol

  function Unreleased(dumps: map<Id, nat>): set<Id> {
    set d | d in dumps && dumps[d] == 0
  }

  function Seen(s: State): Client.Conn {
    Client.Conn(s.conn.closed, Client.Kids(s.conn.deps, s.conn.tasks, Unreleased(s.children.dumps)))
  }

  /** Which change the client sees in a step. */
  function ChangeOf(s: State, step: Step): Client.Change {
    if !step.Go? || step.a !in s.acts || Next(s, step) == s then Client.Stays
    else match s.acts[step.a]
      case In(Attach(o)) => if step.ok then Client.Gains(Client.Dep, o) else Client.Stays
      case In(Detach(o)) => if step.ok then Client.Loses(Client.Dep, o) else Client.Stays
      case In(StartRecording) => if step.ok then Client.Gains(Client.Task, step.pick) else Client.Stays
      case In(StartDump) => if step.ok then Client.Gains(Client.Dump, step.pick) else Client.Stays
      case In(StopRecording(t)) => if step.ok then Client.Loses(Client.Task, t) else Client.Stays
      case InDump(d) => if step.ok then Client.Loses(Client.Dump, d) else Client.Stays
      case Closing(Release(d, _, _)) => if step.ok then Client.Loses(Client.Dump, d) else Client.Stays
      case Closing(Publish) => Client.Closes
      case _ => Client.Stays
  }

  lemma FinishIsOneChange(s: State, step: Step)
    requires Safe(s) && step.Go? && step.a in s.acts && s.acts[step.a].In? && Exclusive(s.acts[step.a].op)
    ensures Seen(Next(s, step)) == Client.Changed(Seen(s), ChangeOf(s, step))
  {
    assert s.op == Some(step.a);
  }

  lemma OtherOpIsOneChange(s: State, step: Step)
    requires Safe(s) && step.Go? && step.a in s.acts && s.acts[step.a].In? && !Exclusive(s.acts[step.a].op)
    ensures Seen(Next(s, step)) == Client.Changed(Seen(s), ChangeOf(s, step))
  {
  }

  lemma DestroyIsOneChange(s: State, step: Step)
    requires Sound(s) && step.Go? && step.a in s.acts && s.acts[step.a].InDump?
    ensures Seen(Next(s, step)) == Client.Changed(Seen(s), ChangeOf(s, step))
  {
    assert OnDump(s.acts[step.a], s.acts[step.a].d);
  }

  lemma StartIsOneChange(s: State, step: Step)
    requires Safe(s) && step.Go? && step.a in s.acts && s.acts[step.a].Want?
    ensures Seen(Next(s, step)) == Client.Changed(Seen(s), ChangeOf(s, step))
  {
  }

  lemma DumpsAreOneChange(s: State, step: Step)
    requires Sound(s) && step.Go? && step.a in s.acts && s.acts[step.a].Closing? && OnDumps(s.acts[step.a].at)
    ensures Seen(Next(s, step)) == Client.Changed(Seen(s), ChangeOf(s, step))
  {
    assert s.op == Some(step.a);
    assert s.acts[step.a].at.Release? ==> OnDump(s.acts[step.a], s.acts[step.a].at.d);
  }

  lemma CloseIsOneChange(s: State, step: Step)
    requires Safe(s) && step.Go? && step.a in s.acts && s.acts[step.a].Closing? && !OnDumps(s.acts[step.a].at)
    ensures Seen(Next(s, step)) == Client.Changed(Seen(s), ChangeOf(s, step))
  {
    if HoldsOp(s.acts[step.a]) {
      assert s.op == Some(step.a);
    }
  }

  /**
   In every run, every step of any thread on a connection is at most one gain, loss or close in the client's model,
   and a close happens only where that model allows it: with nothing attached, recording or unreleased.
   */
  lemma StepIsOneChange(steps: seq<Step>, step: Step)
    ensures var s := Run(steps);
      && Seen(Next(s, step)) == Client.Changed(Seen(s), ChangeOf(s, step))
      && (ChangeOf(s, step).Closes? ==> Client.CanClose(Seen(s)) && Seen(s).kids.Empty())
  {
    RunIsSafe(steps);
    var s := Run(steps);
    if step.Go? && step.a in s.acts {
      if s.acts[step.a].Closing? {
        if OnDumps(s.acts[step.a].at) {
          DumpsAreOneChange(s, step);
        } else {
          CloseIsOneChange(s, step);
        }
        PublishedIsEmpty(s, step.a);
      } else if s.acts[step.a].Want? {
        StartIsOneChange(s, step);
      } else if s.acts[step.a].InDump? {
        DestroyIsOneChange(s, step);
      } else if s.acts[step.a].In? {
        if Exclusive(s.acts[step.a].op) {
          FinishIsOneChange(s, step);
        } else {
          OtherOpIsOneChange(s, step);
        }
      }
    }
  }

  lemma PublishedIsEmpty(s: State, a: Id)
    requires Safe(s) && a in s.acts && s.acts[a].Closing?
    ensures s.acts[a].at.Publish? ==> Client.CanClose(Seen(s)) && Seen(s).kids.Empty()
  {
    if s.acts[a].at.Publish? {
      assert HoldsOp(s.acts[a]) && s.op == Some(a);
    }
  }
}
