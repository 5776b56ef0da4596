/**
 * The stop ladder: graceful shutdown, then SIGTERM, then SIGKILL, against a process table in which
 * the selected pid may die and be reused at any wait.
 */
module StopLadder {
  import opened Options

  const REUSE_SLACK := 5.0

  /** Start time, executable and argument hash of a process. */
  datatype Identity = Identity(start: real, exe: string, argv: string)

  /**
   * Who holds the pid at one instant. A process has a key of its own, an identity that may be
   * unreadable, and may belong to someone we may not signal.
   */
  datatype Occupant = Vacant | Process(key: nat, identity: Option<Identity>, forbidden: bool)

  /** The pid over time: what the environment does, chosen in advance. */
  type Table = nat -> Occupant

  /** Signalling fails for an empty slot and for someone else's process alike. */
  predicate Signallable(o: Occupant) {
    o.Process? && !o.forbidden
  }

  function IdentityOf(o: Occupant): Option<Identity> {
    if o.Process? then o.identity else None
  }

  predicate Same(now: Option<Identity>, before: Option<Identity>) {
    && now.Some? && before.Some?
    && -REUSE_SLACK <= now.value.start - before.value.start <= REUSE_SLACK
    && now.value.exe == before.value.exe && now.value.argv == before.value.argv
  }

  /** Two looks see one process: both could be read, within five seconds of each other, same program and arguments. */
  lemma SameMeans(a: Identity, b: Identity)
    ensures Same(Some(a), Some(b)) <==>
            a.start - b.start <= 5.0 && b.start - a.start <= 5.0 && a.exe == b.exe && a.argv == b.argv
    ensures !Same(None, Some(b)) && !Same(Some(a), None)
  {
  }

  datatype Kind = Term | Kill
  datatype Signal = Signal(kind: Kind, time: nat, target: Occupant)

  datatype Outcome = Stopped | StoppedByTerm | StoppedByKill | IdentityUnread | IdentityChanged | Survived | NoPid

  /** How long the awaits take, in polls or ticks of the table. */
  datatype Waits = Waits(status: nat, shutdown: nat, grace: nat, term: nat, kill: nat)

  /** Polls until the pid looks gone or the budget is spent; the last look decides. */
  method WaitForExit(table: Table, from: nat, budget: nat) returns (gone: bool, now: nat)
    ensures from <= now <= from + budget
    ensures gone <==> !Signallable(table(now))
    ensures !gone ==> now == from + budget
    ensures forall t :: from <= t < now ==> Signallable(table(t))
  {
    now := from;
    while now < from + budget
      invariant from <= now <= from + budget
      invariant forall t :: from <= t < now ==> Signallable(table(t))
    {
      if !Signallable(table(now)) {
        return true, now;
      }
      now := now + 1;
    }
    gone := !Signallable(table(now));
  }

  /** May the selected process be signalled at this instant? None is yes. */
  function Guard(o: Occupant, selected: Option<Identity>): Option<Outcome> {
    if selected.None? then (if Signallable(o) then Some(IdentityUnread) else None)
    else if !Same(IdentityOf(o), selected) then Some(IdentityChanged)
    else None
  }

  /** Every delivered signal hit a process that was just verified to be the selected one. */
  predicate Verified(log: seq<Signal>, table: Table, selected: Option<Identity>) {
    forall i :: 0 <= i < |log| ==>
      && log[i].target == table(log[i].time) && Signallable(log[i].target)
      && Same(IdentityOf(log[i].target), selected)
  }

  /** At most SIGTERM, then SIGKILL once a full wait after it has expired with the pid in use throughout. */
  predicate InOrder(log: seq<Signal>, table: Table, termWait: nat) {
    && |log| <= 2
    && (|log| >= 1 ==> log[0].kind == Term)
    && (|log| == 2 ==>
          && log[1].kind == Kill && log[1].time == log[0].time + termWait
          && forall t :: log[0].time <= t <= log[1].time ==> Signallable(table(t)))
  }

  /** A failure is honest: the guard refuses at that instant, or both signals and both waits were spent. */
  predicate Justified(outcome: Outcome, log: seq<Signal>, table: Table, selected: Option<Identity>, now: nat,
      waits: Waits) {
    || Guard(table(now), selected) == Some(outcome)
    || (outcome == Survived && |log| == 2 && now == log[1].time + waits.kill && Signallable(table(now)))
  }

  method HardKill(table: Table, pid: nat, selected: Option<Identity>, from: nat, waits: Waits, sent: seq<Signal>)
    returns (ok: bool, outcome: Outcome, log: seq<Signal>, now: nat)
    requires pid != 0 && |sent| == 1 && Verified(sent, table, selected) && InOrder(sent, table, waits.term)
    requires from == sent[0].time + waits.term
    requires forall t :: sent[0].time <= t <= from ==> Signallable(table(t))
    ensures Verified(log, table, selected) && InOrder(log, table, waits.term)
    ensures ok ==> !Signallable(table(now))
    ensures from <= now
    ensures ok <==> outcome == Stopped || outcome == StoppedByKill
    ensures outcome != StoppedByTerm && outcome != NoPid
    ensures !ok ==> Justified(outcome, log, table, selected, now, waits)
    ensures sent <= log && (outcome == StoppedByKill ==> |log| == 2)
  {
    log, now := sent, from;
    var refusal := Guard(table(now), selected);
    if refusal.Some? {
      return false, refusal.value, log, now;
    }
    if !Signallable(table(now)) {
      return true, Stopped, log, now;  // the signal itself fails
    }
    log := log + [Signal(Kill, now, table(now))];
    var gone;
    gone, now := WaitForExit(table, now, waits.kill);
    return gone, if gone then StoppedByKill else Survived, log, now;
  }

  /** SIGTERM, and SIGKILL when it is not enough. */
  method TermThenKill(table: Table, pid: nat, selected: Option<Identity>, from: nat, waits: Waits)
    returns (ok: bool, outcome: Outcome, log: seq<Signal>, now: nat)
    requires pid != 0
    ensures Verified(log, table, selected) && InOrder(log, table, waits.term)
    ensures ok ==> !Signallable(table(now))
    ensures from <= now
    ensures ok <==> outcome == Stopped || outcome == StoppedByTerm || outcome == StoppedByKill
    ensures !ok ==> Justified(outcome, log, table, selected, now, waits)
    ensures outcome == StoppedByTerm ==> |log| == 1
    ensures outcome == StoppedByKill ==> |log| == 2
    ensures outcome != NoPid
    ensures Guard(table(from), selected) == None && !Signallable(table(from)) ==> ok
    ensures log != [] ==> log[0].time == from
  {
    log, now := [], from;
    var refusal := Guard(table(now), selected);
    if refusal.Some? {
      return false, refusal.value, log, now;
    }
    if !Signallable(table(now)) {
      return true, Stopped, log, now;
    }
    log := [Signal(Term, now, table(now))];
    var gone;
    gone, now := WaitForExit(table, now, waits.term);
    if gone {
      return true, StoppedByTerm, log, now;
    }
    ok, outcome, log, now := HardKill(table, pid, selected, now, waits, log);
  }

  // ---------------------------------------------------------------- what success means

  predicate Holds(o: Occupant, key: nat) {
    o.Process? && o.key == key
  }

  /** A process that has left its pid never comes back. */
  ghost predicate NoReturn(table: Table) {
    forall key, t, u :: t <= u && (exists s :: s <= t && Holds(table(s), key)) && !Holds(table(t), key)
        ==> !Holds(table(u), key)
  }

  ghost predicate GoneFrom(table: Table, key: nat, now: nat) {
    forall t :: now <= t ==> !Holds(table(t), key)
  }

  /** A process that may be signalled for as long as it holds the pid. */
  ghost predicate NeverForbidden(table: Table, key: nat, at: nat) {
    forall t :: at <= t && Holds(table(t), key) ==> !table(t).forbidden
  }

  /** One process holds the pid throughout, unchanged, and may not be signalled. */
  ghost predicate Haunts(table: Table, key: nat, at: nat) {
    forall t :: at <= t ==> Holds(table(t), key) && table(t).forbidden && table(t).identity == IdentityOf(table(at))
  }

  /** A process that looks gone and may be signalled is gone for good. */
  lemma LooksGone(table: Table, at: nat, now: nat)
    requires at <= now && NoReturn(table) && !Signallable(table(now))
    ensures forall key :: Holds(table(at), key) && NeverForbidden(table, key, at) ==> GoneFrom(table, key, now)
  {
  }

  lemma HauntedLooksGone(table: Table, key: nat, at: nat, t: nat)
    requires Haunts(table, key, at) && at <= t
    ensures !Signallable(table(t)) && Guard(table(t), IdentityOf(table(at))) == None && !GoneFrom(table, key, t)
  {
    assert Holds(table(t), key) && Holds(table(at), key);
  }

  /** When the status and shutdown calls end; without a socket there are none. */
  function Answered(at: nat, socket: bool, waits: Waits): nat {
    if socket then at + waits.status + waits.shutdown else at
  }

  /**
   * An acknowledged shutdown gets its grace: the first signal comes when the wait has expired with the
   * pid in use at every poll, and none comes if the pid looked gone at one of them.
   */
  ghost predicate Graceful(log: seq<Signal>, outcome: Outcome, table: Table, from: nat, grace: nat) {
    && (log != [] ==> log[0].time == from + grace && forall t :: from <= t <= from + grace ==> Signallable(table(t)))
    && ((exists t :: from <= t <= from + grace && !Signallable(table(t))) ==> log == [] && outcome == Stopped)
  }

  /** `acked` is whether the agent acknowledged a graceful shutdown; without a socket it cannot. */
  method StopAgent(table: Table, pid: nat, socket: bool, acked: bool, at: nat, waits: Waits)
    returns (ok: bool, outcome: Outcome, log: seq<Signal>, now: nat)
    ensures at <= now
    ensures Verified(log, table, if pid != 0 then IdentityOf(table(at)) else None)
    ensures InOrder(log, table, waits.term)
    ensures ok && pid != 0 ==> !Signallable(table(now))
    ensures pid == 0 ==> log == [] && (ok <==> socket && acked)
    ensures ok <==> outcome == Stopped || outcome == StoppedByTerm || outcome == StoppedByKill
    ensures !ok ==>
              || (pid == 0 && outcome == NoPid)
              || (pid != 0 && Justified(outcome, log, table, IdentityOf(table(at)), now, waits))
    ensures outcome == StoppedByTerm ==> |log| == 1
    ensures outcome == StoppedByKill ==> |log| == 2
    ensures ok && pid != 0 && NoReturn(table) ==>
              forall key :: Holds(table(at), key) && NeverForbidden(table, key, at) ==> GoneFrom(table, key, now)
    ensures pid != 0 ==> forall key :: Haunts(table, key, at) ==> ok && !GoneFrom(table, key, now)
    ensures outcome == IdentityUnread ==> IdentityOf(table(at)) == None && Signallable(table(now))
    ensures outcome == IdentityChanged ==>
              IdentityOf(table(at)).Some? && !Same(IdentityOf(table(now)), IdentityOf(table(at)))
    ensures socket && acked && pid != 0 ==> Graceful(log, outcome, table, Answered(at, socket, waits), waits.grace)
    ensures !(socket && acked) && log != [] ==> log[0].time == Answered(at, socket, waits)
  {
    hide GoneFrom, NoReturn, NeverForbidden, Haunts;
    forall t | at <= t && NoReturn(table) && !Signallable(table(t))
      ensures forall key :: Holds(table(at), key) && NeverForbidden(table, key, at) ==> GoneFrom(table, key, t)
    {
      LooksGone(table, at, t);
    }
    forall key, t | Haunts(table, key, at) && at <= t
      ensures !Signallable(table(t)) && Guard(table(t), IdentityOf(table(at))) == None && !GoneFrom(table, key, t)
    {
      HauntedLooksGone(table, key, at, t);
    }
    now, log := at, [];
    var selected := if pid != 0 then IdentityOf(table(now)) else None;  // captured once
    var shutdownAcked := false;
    if socket {
      now := now + waits.status + waits.shutdown;
      shutdownAcked := acked;
    }
    if shutdownAcked {
      if pid == 0 {
        return true, Stopped, log, now;
      }
      var gone;
      gone, now := WaitForExit(table, now, waits.grace);
      if gone {
        return true, Stopped, log, now;
      }
      ok, outcome, log, now := TermThenKill(table, pid, selected, now, waits);
    } else if pid != 0 {
      ok, outcome, log, now := TermThenKill(table, pid, selected, now, waits);
    } else {
      return false, NoPid, log, now;
    }
  }

  /** A process we may not signal, its identity unreadable, is reported as stopped while it runs on. */
  method ForbiddenLooksStopped(key: nat, waits: Waits) returns (ok: bool, outcome: Outcome, now: nat)
    ensures ok && !GoneFrom((t: nat) => Process(key, None, true), key, now)
  {
    var table: Table := (t: nat) => Process(key, None, true);
    var log;
    ok, outcome, log, now := StopAgent(table, 1, false, false, 0, waits);
    assert Haunts(table, key, 0);
    assert Holds(table(now), key);
  }
}
