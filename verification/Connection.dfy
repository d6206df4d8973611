/** A connection: what its methods do to its fields when nothing interferes. */
module Connections {
  import opened Common

  /** `linked` says that the last reported state is connecting or connected. */
  datatype Conn =
    Conn(closed: bool, linked: bool, deps: set<Id>, tasks: set<Id>, dumps: set<Id>, connecting: Option<Id>)
  {
    predicate Busy() { deps != {} || tasks != {} }
  }

  /** What one close meets: the mailbox's two answers and the native calls that fail. */
  datatype Answers = Answers(idle: bool, gate: bool, stopFails: set<Id>, destroyFails: set<Id>,
                             taskFails: set<Id>, detachFails: set<Id>,
                             hangUpFails: bool, lastHangUpFails: bool, closeFails: bool)

  /** The errors a close joins into its result. */
  datatype Problem =
    | InUse | DumpStop(dump: Id) | DumpDestroy(dump: Id) | HangUp | Destroy
    | TaskStop(task: Id) | DetachFailed(output: Id)

  class Connection {
    var closed: bool
    var linked: bool
    var deps: set<Id>
    var tasks: set<Id>
    var dumps: set<Id>
    var connecting: Option<Id>
    ghost var destroys: nat
    ghost var released: set<Id>

    function View(): Conn
      reads this
    {
      Conn(closed, linked, deps, tasks, dumps, connecting)
    }

    /** No dump that is still attached has been destroyed, and the native connection goes away with the close. */
    ghost predicate Valid()
      reads this
    {
      && released !! dumps
      && destroys == (if closed then 1 else 0)
      && (closed ==> !View().Busy() && dumps == {})
    }

    constructor ()
      ensures Valid() && View() == Conn(false, false, {}, {}, {}, None) && released == {}
    {
      closed, linked, deps, tasks, dumps, connecting := false, false, {}, {}, {}, None;
      destroys, released := 0, {};
    }

    method AttachDependency(o: Id, code: int) returns (outcome: Outcome)
      requires Valid()
      modifies this
      ensures Valid() && released == old(released)
      ensures outcome == if old(closed) then Err(Closed) else OutcomeOf(code)
      ensures View() == if outcome.Ok? then old(View()).(deps := old(deps) + {o}) else old(View())
    {
      if closed {
        return Err(Closed);
      }
      outcome := OutcomeOf(code);
      if outcome.Ok? {
        deps := deps + {o};
      }
    }

    method DetachDependency(o: Id, code: int) returns (outcome: Outcome)
      requires Valid()
      modifies this
      ensures Valid() && released == old(released)
      ensures outcome == if old(closed) then Err(Closed) else OutcomeOf(code)
      ensures View() == if outcome.Ok? then old(View()).(deps := old(deps) - {o}) else old(View())
    {
      if closed {
        return Err(Closed);
      }
      outcome := OutcomeOf(code);
      if outcome.Ok? {
        deps := deps - {o};
      }
    }

    /** Closes the dumps attached now; stops at the first that cannot be released. */
    method CloseDumps(native: Answers) returns (problems: seq<Problem>, stuck: bool)
      requires Valid() && !closed
      modifies this
      ensures Valid() && View() == old(View()).(dumps := dumps)
      ensures dumps <= old(dumps) && released == old(released) + (old(dumps) - dumps)
      ensures stuck <==> old(dumps) * native.destroyFails != {}
      ensures if stuck then problems != [] else dumps == {}
      ensures old(dumps) * native.destroyFails <= dumps
      ensures old(dumps) * native.stopFails == {} && !stuck ==> problems == []
    {
      problems, stuck := [], false;
      ghost var before := dumps;
      while dumps != {}
        invariant Valid() && View() == old(View()).(dumps := dumps)
        invariant dumps <= before && released == old(released) + (before - dumps)
        invariant before * native.destroyFails <= dumps
        invariant before * native.stopFails == {} ==> problems == []
        decreases |dumps|
      {
        var d :| d in dumps;
        problems := problems + (if d in native.stopFails then [DumpStop(d)] else []);
        if d in native.destroyFails {
          assert d in before * native.destroyFails;
          return problems + [DumpDestroy(d)], true;
        }
        dumps, released := dumps - {d}, released + {d};
      }
    }

    /**
     The whole close. It closes exactly when nothing is attached, the mailbox agrees twice, every raw dump
     can be destroyed, and the native connection can be hung up and destroyed. Otherwise only raw dumps that
     were destroyed are gone, a connect attempt may be over, and the connection can be closed again.
     */
    method Close(native: Answers) returns (problems: seq<Problem>)
      requires Valid()
      modifies this
      ensures Valid()
      ensures closed <==> old(closed) || ClosesWith(old(View()), native)
      ensures old(closed) ==> problems == [] && View() == old(View())
      ensures !old(closed) && old(View()).Busy() ==> problems == [Problem.InUse] && View() == old(View())
      ensures !old(closed) && closed ==> View() == Conn(true, false, {}, {}, {}, None)
      ensures !old(closed) && closed && old(dumps) * native.stopFails == {} ==> problems == []
      ensures !closed ==>
                && problems != []
                && View() == old(View()).(dumps := dumps, connecting := connecting)
                && (connecting == old(connecting) || connecting.None?)
      ensures dumps <= old(dumps) && released == old(released) + (old(dumps) - dumps)
      ensures !old(closed) ==> old(dumps) * native.destroyFails <= dumps
    {
      if closed {
        return [];
      }
      if View().Busy() || !native.idle {
        return [Problem.InUse];
      }
      var stuck: bool;
      problems, stuck := CloseDumps(native);
      if stuck {
        return;
      }
      if connecting.Some? {
        if native.hangUpFails {
          return problems + [HangUp];
        }
        // The attempt ends; by itself it attaches nothing, so the second look finds what the first left.
        connecting := None;
        var again: seq<Problem>;
        again, stuck := CloseDumps(native);
        problems := problems + again;
      }
      if !native.gate {
        return problems + [Problem.InUse];
      }
      if linked && native.lastHangUpFails {
        return problems + [HangUp];
      }
      if native.closeFails {
        return problems + [Destroy];
      }
      closed, linked, destroys := true, false, destroys + 1;
    }

    /** Stops the recording tasks that are running now, up to the first that does not end. */
    method StopTasks(native: Answers) returns (problems: seq<Problem>)
      requires Valid()
      modifies this
      ensures Valid() && View() == old(View()).(tasks := tasks) && released == old(released)
      ensures problems == [] <==> old(tasks) * native.taskFails == {}
      ensures if problems == [] then tasks == {} else old(tasks) * native.taskFails <= tasks <= old(tasks)
    {
      problems := [];
      ghost var before := tasks;
      while tasks != {}
        invariant Valid() && View() == old(View()).(tasks := tasks) && released == old(released)
        invariant before * native.taskFails <= tasks <= before
        decreases |tasks|
      {
        var t :| t in tasks;
        if t in native.taskFails {
          assert t in before * native.taskFails;
          return [TaskStop(t)];
        }
        tasks := tasks - {t};
      }
    }

    /** Detaches the outputs that are attached now, up to the first that cannot be detached. */
    method DetachAll(native: Answers) returns (problems: seq<Problem>)
      requires Valid()
      modifies this
      ensures Valid() && View() == old(View()).(deps := deps) && released == old(released)
      ensures problems == [] <==> old(deps) * native.detachFails == {}
      ensures if problems == [] then deps == {} else old(deps) * native.detachFails <= deps <= old(deps)
    {
      problems := [];
      ghost var before := deps;
      while deps != {}
        invariant Valid() && View() == old(View()).(deps := deps) && released == old(released)
        invariant before * native.detachFails <= deps <= before
        decreases |deps|
      {
        var o :| o in deps;
        if o in native.detachFails {
          assert o in before * native.detachFails;
          return [DetachFailed(o)];
        }
        deps := deps - {o};
      }
    }

    /**
     The client's way of closing: raw dumps, recording tasks and outputs first, then the close itself. It
     closes exactly when each of them can be removed and the emptied connection can be closed; whatever
     happens nothing is added, and what is left can be closed again.
     */
    method CloseFromClient(native: Answers) returns (problems: seq<Problem>)
      requires Valid()
      modifies this
      ensures Valid()
      ensures closed <==> old(closed) || TreeClosesWith(old(View()), native)
      ensures !closed ==> problems != []
      ensures deps <= old(deps) && tasks <= old(tasks) && dumps <= old(dumps)
      ensures released == old(released) + (old(dumps) - dumps)
    {
      if closed {
        return [];
      }
      var stuck: bool;
      problems, stuck := CloseDumps(native);
      if stuck {
        return;
      }
      var next := StopTasks(native);
      if next != [] {
        return next;
      }
      next := DetachAll(native);
      if next != [] {
        return problems + next;
      }
      next := Close(native);
      return problems + next;
    }
  }

  predicate ClosesWith(c: Conn, native: Answers) {
    && !c.closed && !c.Busy() && native.idle && native.gate
    && c.dumps * native.destroyFails == {}
    && !(c.connecting.Some? && native.hangUpFails)
    && !(c.linked && native.lastHangUpFails)
    && !native.closeFails
  }

  predicate TreeClosesWith(c: Conn, native: Answers) {
    && c.dumps * native.destroyFails == {} && c.tasks * native.taskFails == {} && c.deps * native.detachFails == {}
    && ClosesWith(c.(deps := {}, tasks := {}, dumps := {}), native)
  }
}
