/** The agent object whose registry the requests update, one atomic stretch between awaits at a time. */
module AgentServer {
  import opened Options
  import opened SessionRegistry

  class Agent {
    const attach: bool
    var all: seq<Session>             // the session objects, named by position
    var sessions: map<Id, nat>
    var restoring: set<Id>
    var attaching: bool
    var tasks: seq<Task>

    function View(): State
      reads this
    {
      State(attach, Book(all, sessions), restoring, attaching, tasks)
    }

    constructor (attached: bool)
      ensures View() == State(attached, NOBODY, {}, false, []) && Inv(View())
    {
      attach := attached;
      all, sessions, restoring, attaching, tasks := [], map[], {}, false, [];
    }

    method Register(uuid: Id) returns (it: nat)
      modifies this`all, this`sessions
      ensures View() == old(View()).(book := Registered(old(View().book), uuid))
      ensures it == |old(all)|
    {
      it := |all|;
      all := all + [Session(uuid, false)];
      sessions := sessions[uuid := it];
    }

    /** `stored` is the conversation lookup, `valid` the checks on the workspace. */
    method LoadOrResume(id: Id, stored: bool, valid: bool, uuid: Id) returns (accepted: bool)
      requires Inv(View()) && Possible(View(), Restore(id, uuid))
      modifies this
      ensures View() == if stored && valid then Step(old(View()), Restore(id, uuid)) else old(View())
      ensures accepted <==> old(!attach && id !in sessions && id !in restoring) && stored && valid
      ensures Inv(View())
    {
      StepKeepsInvIff(View(), Restore(id, uuid));
      if attach || id in sessions || id in restoring || !stored {
        return false;
      }
      restoring := restoring + {id};
      if !valid {
        restoring := restoring - {id};  // the finally clause
        return false;
      }
      var it := Register(uuid);
      tasks := tasks + [Opening(it, Some(id))];
      return true;
    }

    method NewSession(valid: bool, uuid: Id) returns (accepted: bool)
      requires Inv(View()) && Possible(View(), New(uuid))
      modifies this
      ensures View() == if valid then Step(old(View()), New(uuid)) else old(View())
      ensures accepted <==> valid && (attach ==> old(sessions == map[] && !attaching))
      ensures Inv(View())
    {
      StepKeepsInvIff(View(), New(uuid));
      if !valid {
        return false;
      }
      if attach {
        if sessions != map[] || attaching {
          return false;
        }
        attaching := true;
        tasks := tasks + [Adopting];
      } else {
        var it := Register(uuid);
        tasks := tasks + [Opening(it, None)];
      }
      return true;
    }

    method CloseSession(id: Id) returns (accepted: bool)
      requires Inv(View())
      modifies this
      ensures View() == Step(old(View()), Close(id))
      ensures accepted <==> old(id in sessions && id !in restoring)
      ensures Inv(View())
    {
      StepKeepsInvIff(View(), Close(id));
      if id in restoring || id !in sessions {
        return false;
      }
      tasks := tasks + [Closing(sessions[id])];
      return true;
    }

    /** End of input reaches one of the sessions registered when it came. */
    method DrainSession(it: nat)
      requires Inv(View()) && it < |all|
      modifies this
      ensures View() == Step(old(View()), Drain(it))
      ensures Inv(View())
    {
      StepKeepsInvIff(View(), Drain(it));
      if all[it].id in restoring {
        tasks := tasks + [Stopping(it, None)];
      } else {
        var _ := CloseSession(all[it].id);
      }
    }

    /** A restored session takes the id it was asked for. */
    method TakeId(it: nat, id: Id)
      requires it < |all|
      modifies this`all, this`sessions
      ensures View() == old(View()).(book := Rekeyed(old(View().book), it, id))
    {
      sessions := sessions - {all[it].id};
      all := all[it := all[it].(id := id)];
      sessions := sessions[id := it];
    }

    method EndShutdown(it: nat)
      requires it < |all|
      modifies this`all, this`sessions
      ensures View() == old(View()).(book := ShutDown(old(View().book), it))
    {
      var id := all[it].id;
      all := all[it := Session(id, true)];
      if id in sessions && sessions[id] == it {
        sessions := sessions - {id};
      }
    }

    method Move(task: nat, t: Task)
      requires task < |tasks|
      modifies this`tasks, this`restoring
      ensures View() == Goto(old(View()), task, t)
    {
      var was := Target(tasks[task]);
      tasks := tasks[task := t];
      if was.Some? && Target(t) == None {
        restoring := restoring - {was.value};
      }
    }

    /** An await of a task ends, well or not. */
    method Continue(task: nat, ok: bool, uuid: Id)
      requires Inv(View()) && task < |tasks| && Possible(View(), Wake(task, ok, uuid))
      modifies this
      ensures View() == Step(old(View()), Wake(task, ok, uuid))
      ensures Inv(View()) <==> !LosesLive(old(View()), Wake(task, ok, uuid))
    {
      hide Listed, Locked, Free, OneAdopts, AtMostOne, Registered, Rekeyed, ShutDown, Goto, LosesLive;
      StepKeepsInvIff(View(), Wake(task, ok, uuid));
      match tasks[task]
      case Adopting =>
        attaching := false;
        if ok {
          var _ := Register(uuid);
        }
        Move(task, Done);
      case Opening(it, None) => Move(task, if ok then Saving(it) else Stopping(it, None));
      case Opening(it, Some(id)) => Move(task, if ok then Resuming(it, id) else Stopping(it, Some(id)));
      case Saving(it) => Move(task, if ok then Done else Stopping(it, None));
      case Resuming(it, id) =>
        if ok {
          TakeId(it, id);
          Move(task, Replaying(it, id));
        } else {
          Move(task, Stopping(it, Some(id)));
        }
      case Replaying(it, id) => Move(task, if ok then Done else Stopping(it, Some(id)));
      case Closing(it) => Move(task, Stopping(it, None));
      case Stopping(it, _) =>
        if ok {
          EndShutdown(it);
        }
        Move(task, Done);
      case Done =>
    }
  }
}
