/** The plugin object: its fields, and its methods as the atomic steps between awaits. */
module CompactionPlugin {
  import opened Options
  import opened Messages
  import opened ToolGroups
  import opened KeepRecent
  import opened Routing
  import opened Round
  import opened RoundBuilder
  import opened Budget
  import Coordination
  import OperatorWords
  import Rollover
  import Runs
  import Staging
  import TriggerGate

  const MAX_FAILURES := 3
  const MIN_SUMMARY_CHARS := 100

  /** A background run: none, scheduled, or waiting for the summarizer with its snapshot in hand. */
  datatype Phase = Idle | Scheduled | Running(snapshot: seq<Message>, session: Option<string>, prep: Prepared)

  datatype Boundary = Request | ToolCall
  datatype Verdict = Allowed | Refused | Raised
  datatype Outcome = Sent | Cancelled | Interrupted

  /** The whole of the plugin's state, as it may be found after an await. */
  datatype Moment = Moment(
    history: seq<Message>, session: Option<string>, job: Phase,
    pending: Option<seq<Message>>, pendingSession: Option<string>, preLen: nat,
    round: nat, failures: nat, disabled: bool,
    justApplied: bool, shrinkFloor: Option<int>, tokensAtTrigger: int,
    window: nat, reported: int, stale: bool, scale: Option<real>,
    turn: nat, guardTurn: Option<nat>, guardSignature: Option<(nat, nat)>, pass: Option<Pass>)

  /** Whoever sets the guard has let a history pass. */
  ghost predicate HonestMoment(m: Moment) {
    Honest(m.guardTurn, m.guardSignature, m.pass)
  }

  /** What the k-th await wakes up to, whether it is cancelled, and where the k-th guarded call raises. */
  datatype Environment = Environment(wakes: nat -> Moment, cancelled: nat -> bool, faults: nat -> Option<Moment>)

  ghost predicate HonestEnvironment(env: Environment) {
    forall k :: HonestMoment(env.wakes(k)) && (env.faults(k).Some? ==> HonestMoment(env.faults(k).value))
  }

  /** The history after applying the stage found at a moment, if it has one that is not discarded. */
  function AfterApply(m: Moment): seq<Message> {
    if m.pending.Some? && m.history != [] && Staging.SameSession(m.session, m.pendingSession) && |m.history| >= m.preLen
    then SwapIn(m.history, m.preLen, m.pending.value)
    else m.history
  }

  function Attempts(setting: int): nat {
    if setting < 1 then 1 else if setting > 3 then 3 else setting
  }

  lemma AttemptsInRange(setting: int)
    ensures 1 <= Attempts(setting) <= 3
    ensures 1 <= setting <= 3 ==> Attempts(setting) == setting
    ensures setting < 1 ==> Attempts(setting) == 1
  {
  }

  /** The count the trigger looks at: the provider's, or the estimate when there is none. */
  function Count(h: seq<Message>, reported: int): int {
    if reported <= 0 then Estimate(h) else reported
  }

  function HumanTurns(h: seq<Message>, hub: Message -> bool): nat {
    if h == [] then 0
    else HumanTurns(h[..|h| - 1], hub) + if h[|h| - 1].role == User && !hub(h[|h| - 1]) then 1 else 0
  }

  /** Enough human turns, or a reported count and something to summarize. */
  ghost predicate TurnGate(h: seq<Message>, c: KeepConfig, minTurns: int, hub: Message -> bool) {
    || HumanTurns(h, hub) >= minTurns
    || (c.reported > 0 && exists k :: IsKeepCount(h, c, k) && Cut(h, k).Some?)
  }

  /** The cut for what is kept leaves at least two messages before it. */
  ghost predicate HasOlder(h: seq<Message>, c: KeepConfig) {
    exists k :: IsKeepCount(h, c, k) && SplitPoint(h, k).Some? && SplitPoint(h, k).value >= 2
  }

  /** Human turns add up message by message: a user message that is no hub message is one. */
  lemma {:induction false} HumanTurnsAddUp(a: seq<Message>, b: seq<Message>, m: Message, hub: Message -> bool)
    ensures HumanTurns(a + b, hub) == HumanTurns(a, hub) + HumanTurns(b, hub)
    ensures HumanTurns([m], hub) == (if m.role == User && !hub(m) then 1 else 0) && HumanTurns([], hub) == 0
    decreases |b|
  {
    assert [m][..0] == [];
    if b == [] {
      assert a + b == a;
    } else {
      var n := |b| - 1;
      assert (a + b)[..|a + b| - 1] == a + b[..n] && (a + b)[|a + b| - 1] == b[n];
      HumanTurnsAddUp(a, b[..n], m, hub);
    }
  }

  method CountHumanTurns(h: seq<Message>, hub: Message -> bool) returns (n: nat)
    ensures n == HumanTurns(h, hub)
  {
    n := 0;
    for i := 0 to |h|
      invariant n == HumanTurns(h[..i], hub)
    {
      assert h[..i + 1][..i] == h[..i];
      if h[i].role == User && !hub(h[i]) {
        n := n + 1;
      }
    }
    assert h[..|h|] == h;
  }

  lemma OneKeepCount(h: seq<Message>, c: KeepConfig, keep: int)
    requires IsKeepCount(h, c, keep)
    ensures forall k :: IsKeepCount(h, c, k) ==> k == keep
    ensures Cut(h, keep).Some? <==> SplitPoint(h, keep).Some? && SplitPoint(h, keep).value >= 2
  {
    forall k | IsKeepCount(h, c, k)
      ensures k == keep
    {
      KeepCountUnique(h, c, k, keep);
    }
  }

  /** With a stale provider count the outgoing prompt is the estimate, which is what the rollover is judged by. */
  lemma StaleIsEstimated(h: seq<Message>, m: Budget.Meter)
    requires m.stale
    ensures Outgoing(h, m) == Effective(h, m) == EstimatedPrompt(h, m)
  {
  }

  class Compactor {
    // the conversation
    var history: seq<Message>
    var session: Option<string>
    // the run and its stage
    var job: Phase
    var pending: Option<seq<Message>>
    var pendingSession: Option<string>
    var preLen: nat
    var round: nat
    var failures: nat
    var disabled: bool
    // the automatic trigger
    var justApplied: bool
    var shrinkFloor: Option<int>
    var tokensAtTrigger: int
    // the prompt budget
    var window: nat
    var reported: int
    var stale: bool
    var scale: Option<real>
    var turn: nat
    var guardTurn: Option<nat>
    var guardSignature: Option<(nat, nat)>
    // what the specification remembers
    ghost var past: Runs.World
    ghost var since: seq<Message>
    ghost var intact: bool
    ghost var staged: Staging.Flight
    ghost var stagedInput: Input
    ghost var pass: Option<Pass>

    ghost function View(): Staging.State
      reads this
    {
      Staging.State(
        past.(h := history),
        session,
        match job
        case Idle => Staging.Idle
        case Scheduled => Staging.Scheduled
        case Running(snapshot, at, _) => Staging.Running(Staging.Flight(snapshot, at, since, intact)),
        if pending.None? then None
        else Some(Staging.Staged(pending.value, preLen, staged.(session := pendingSession), stagedInput)))
    }

    function Gate(): TriggerGate.Gate
      reads this
    {
      TriggerGate.Gate(justApplied, shrinkFloor, tokensAtTrigger)
    }

    function Meter(): Budget.Meter
      reads this
    {
      Budget.Meter(reported, stale, scale)
    }

    /** A conversation that has not been compacted. */
    constructor (h: seq<Message>, id: Option<string>, contextWindow: nat)
      ensures View() == Staging.State(Runs.Loaded(Runs.World([], [], 0, [], [], []), h), id, Staging.Idle, None)
      ensures Gate() == TriggerGate.Gate(false, None, 0) && Meter() == Budget.Meter(0, false, None)
      ensures window == contextWindow && !disabled && round == failures == 0 && guardTurn == None
    {
      history, session, job := h, id, Idle;
      pending, pendingSession, preLen := None, None, 0;
      round, failures, disabled := 0, 0, false;
      justApplied, shrinkFloor, tokensAtTrigger := false, None, 0;
      window, reported, stale, scale := contextWindow, 0, false, None;
      turn, guardTurn, guardSignature, pass := 0, None, None, None;
      past, since, intact := Runs.Loaded(Runs.World([], [], 0, [], [], []), h), [], false;
      staged := Staging.Flight([], None, [], false);
      stagedInput := Input(0, map[], TaskView(_ => false, {}), "", 0, 0, _ => {});
    }

    // -------------------------------------------------------------- the conversation goes on

    method Receive(ms: seq<Message>)
      modifies this`history, this`past, this`since, this`staged
      ensures View() == Staging.Step(old(View()), Staging.Append(ms))
    {
      hide OperatorWords.AllWords, OperatorWords.AllOmitted, SwapIn, Replacement, Cut, Staging.Discards;
      past := Runs.Appended(past.(h := history), ms);
      history := history + ms;
      since := since + ms;
      staged := Staging.Extend(staged, ms);
    }

    method ResetHistory(h: seq<Message>, id: Option<string>)
      modifies this`history, this`session, this`past, this`intact, this`staged
      ensures View() == Staging.Step(old(View()), Staging.Reset(h, id))
    {
      hide OperatorWords.AllWords, OperatorWords.AllOmitted, SwapIn, Replacement, Cut, Staging.Discards;
      intact, staged := false, Staging.Broken(staged);
      history, session := h, id;
      past := Runs.Loaded(past, h);
    }

    method EnterSession(id: Option<string>)
      modifies this`session
      ensures View() == Staging.Step(old(View()), Staging.SwitchSession(id))
    {
      session := id;
    }

    // -------------------------------------------------------------- the run

    method StartCompaction(force: bool) returns (started: bool)
      modifies this`job
      ensures started <==> old(job.Idle?) && (!disabled || force)
      ensures View() == if started then Staging.Step(old(View()), Staging.Start) else old(View())
    {
      if !job.Idle? || (disabled && !force) {
        return false;
      }
      job := Scheduled;
      return true;
    }

    /** A run that ends without staging; a counted failure may switch compaction off. */
    method EndWithoutStage(counted: bool)
      modifies this`job, this`failures, this`disabled
      ensures View() == Staging.Step(old(View()), Staging.Fail) && job == Idle
      ensures failures == old(failures) + if counted then 1 else 0
      ensures disabled <==> old(disabled) || (counted && failures >= 3)
    {
      job := Idle;
      if counted {
        failures := failures + 1;
        if failures >= MAX_FAILURES {
          disabled := true;
        }
      }
    }

    /** The stretch of a run up to the summarizer call; `basis` holds what it reads from outside but the keep count. */
    method BeginRun(setting: int, threshold: nat, basis: Input, extract: seq<Message> -> seq<string>)
        returns (keep: int)
      requires job.Scheduled?
      modifies this`job, this`failures, this`disabled, this`since, this`intact
      ensures IsKeepCount(history, KeepConfig(setting, window, threshold, reported), keep)
      ensures job.Running? <==> history != [] && Cut(history, keep).Some?
      ensures job.Running? ==>
                && View() == Staging.Step(old(View()), Staging.Snapshot)
                && Fitting(history, job.prep, basis.(keep := keep))
                && Coordination.IsSelection(extract(job.prep.summarizable), job.prep.blocks)
      ensures !job.Running? ==> View() == Staging.Step(Staging.Step(old(View()), Staging.Snapshot), Staging.Fail)
      ensures failures == old(failures) + if history != [] && SplitPoint(history, keep).None? then 1 else 0
    {
      hide IsKeepCount, Coordination.IsSelection, RoundBuilder.Fitting, SplitPoint, Cut, Staging.Step;
      CutNeedsSplit(history);
      SnapshotUnfolds(View());
      since, intact := [], true;
      keep := KeepRecentCount(history, KeepConfig(setting, window, threshold, reported));
      if history == [] {
        EndWithoutStage(false);
        return;
      }
      var split := FindSplitPoint(history, keep);
      var prep := Prepare(history, basis.(keep := keep), extract);
      if prep.None? {
        EndWithoutStage(split.None?);
      } else {
        job := Running(history, session, prep.value);
      }
    }

    /** Stages the replacement of the run's snapshot. */
    method StageRound(input: Input)
      requires job.Running? && Fitting(job.snapshot, job.prep, input)
      modifies this`job, this`pending, this`pendingSession, this`preLen, this`staged, this`stagedInput
      ensures View() == Staging.Step(old(View()), Staging.Stage(input))
      ensures pending.Some?
    {
      hide Replacement, Cut, RoundBuilder.Fitting;
      var snapshot, at, prep := job.snapshot, job.session, job.prep;
      var compacted := Assemble(snapshot, prep, input);
      preLen := |snapshot|;
      pendingSession := at;
      pending := Some(compacted);
      staged, stagedInput := Staging.Flight(snapshot, at, since, intact), input;
      job := Idle;
    }

    /** The stretch after the summarizer answered with `written`. */
    method EndRun(basis: Input, written: string, notes: string)
      requires job.Running? && Fitting(job.snapshot, job.prep, basis)
      modifies this`job, this`failures, this`disabled, this`round, this`pending, this`pendingSession, this`preLen,
               this`staged, this`stagedInput
      ensures var prep := old(job.prep);
              var short := prep.summarizable != [] && |written| < 100;
              var text := SummaryText(prep.blocks, if prep.summarizable == [] then "" else written, notes);
              && View() == Staging.Step(old(View()), if short then Staging.Fail
                                        else Staging.Stage(basis.(summary := text, round := old(round) + 1)))
              && (if short then failures == old(failures) + 1 && round == old(round)
                  else failures == 0 && round == old(round) + 1 && pending.Some?)
              && (disabled <==> old(disabled) || (short && failures >= 3))
    {
      hide RoundBuilder.Fitting, SummaryText, Staging.Step;
      var prep := job.prep;
      if prep.summarizable != [] && |written| < MIN_SUMMARY_CHARS {
        EndWithoutStage(true);
        return;
      }
      var text := SummaryText(prep.blocks, if prep.summarizable == [] then "" else written, notes);
      var input := basis.(summary := text, round := round + 1);
      SameFitting(job.snapshot, prep, basis, input);
      StageRound(input);
      round := round + 1;
      failures := 0;
    }

    // -------------------------------------------------------------- the swap

    method ApplyPending()
      modifies this`history, this`pending, this`pendingSession, this`preLen, this`stale, this`justApplied,
               this`past, this`intact
      ensures View() == Staging.Step(old(View()), Staging.Apply)
      ensures pending == None
      ensures var swapped := old(pending.Some? && !Staging.Discards(View()));
              && stale == (old(stale) || swapped) && justApplied == (old(justApplied) || swapped)
              && intact == (old(intact) && !swapped)
    {
      hide Stamp, Staging.Step, Staging.Comparable, Replacement, Cut, OperatorWords.AllWords;
      ApplyUnfolds(View());
      if pending.None? {
        return;
      }
      var replacement := pending.value;
      if history != [] && Staging.SameSession(session, pendingSession) && |history| >= preLen {
        var newer, before := history[preLen..], |history|;
        history := replacement + newer;
        history := Stamp(replacement, before, |history|) + newer;  // the summary shares its metadata
        stale := true;
        justApplied := true;
        past, intact := Runs.Moved(past, history), false;
      }
      pending, pendingSession, preLen := None, None, 0;
    }

    /** Replaces the old part by a local note, at once. */
    method RolloverWithSummary(request: Rollover.Request) returns (done: bool)
      modifies this`history, this`pending, this`pendingSession, this`preLen, this`stale, this`justApplied, this`past,
               this`intact, this`round, this`staged, this`stagedInput
      ensures done <==> |old(history)| >= 3
      ensures View() == Staging.Step(old(View()), Staging.Roll(request.(round := old(round) + 1)))
      ensures done ==> history == Rollover.Rolled(old(history), request.(round := old(round) + 1))
      ensures done ==> round == old(round) + 1 && stale && justApplied && pending == None
      ensures !done ==>
                && history == old(history) && round == old(round)
                && stale == old(stale) && justApplied == old(justApplied)
    {
      hide Rollover.RollParts, CompactedHistory.Compacted, Staging.Step, Stamp, OperatorWords.AllWords,
           OperatorWords.AllOmitted;
      ghost var before := View();
      var asked := request.(round := round + 1);
      RollUnfolds(before, asked);
      if |history| < 3 {
        return false;
      }
      var compacted := Rollover.BuildRollover(history, asked);
      SwapAtOnce(compacted);
      past := Runs.RolledOver(before.w, asked);
      round := round + 1;
      return true;
    }

    /** Stages a replacement of the whole history and applies it. */
    method SwapAtOnce(compacted: seq<Message>)
      requires history != []
      modifies this`history, this`pending, this`pendingSession, this`preLen, this`stale, this`justApplied, this`past,
               this`intact, this`staged, this`stagedInput
      ensures history == SwapIn(old(history), |old(history)|, compacted)
      ensures pending == None && stale && justApplied && !intact
    {
      hide SwapIn, Staging.Step, OperatorWords.AllWords, OperatorWords.AllOmitted;
      pending, pendingSession, preLen := Some(compacted), session, |history|;
      stale := true;
      ApplyUnfolds(View());
      ApplyPending();
    }

    // -------------------------------------------------------------- the automatic trigger

    /** None is the exception a non-positive keep count raises; `hub` marks hub messages. */
    method ShouldCompact(setting: int, threshold: nat, minTurns: int, hub: Message -> bool)
        returns (fires: Option<bool>)
      modifies this`justApplied, this`shrinkFloor, this`tokensAtTrigger
      ensures var c := KeepConfig(setting, window, threshold, reported);
              var look := TriggerGate.Look(Count(history, reported), TurnGate(history, c, minTurns, hub));
              && Gate() == TriggerGate.Observe(old(Gate()), look, threshold)
              && (fires.Some? ==> (fires.value <==> TriggerGate.Fires(old(Gate()), look, threshold)))
              && (fires.None? ==> !TriggerGate.Fires(old(Gate()), look, threshold))
      ensures fires == Some(true) ==>
                && (if reported > 0 then reported else Estimate(history)) >= threshold
                && tokensAtTrigger == (if reported > 0 then reported else Estimate(history))
                && (HumanTurns(history, hub) >= minTurns
                    || (reported > 0 && HasOlder(history, KeepConfig(setting, window, threshold, reported))))
      ensures var count := if reported > 0 then reported else Estimate(history);
              var ready := TriggerGate.Open(old(Gate())) && count >= threshold && HumanTurns(history, hub) >= minTurns;
              ready ==> fires == Some(true)
      ensures fires.None? ==> forall k :: IsKeepCount(history, KeepConfig(setting, window, threshold, reported), k)
                                          ==> SplitPoint(history, k).None?
    {
      hide IsKeepCount, Cut, Estimate, HumanTurns, SplitPoint;
      var count, estimated := reported, reported <= 0;
      if estimated {
        count := Estimate(history);
      }
      if count < threshold {
        justApplied, shrinkFloor := false, None;
        return Some(false);
      }
      if justApplied {
        if count != tokensAtTrigger {
          justApplied, shrinkFloor := false, Some(count);
        }
        return Some(false);
      }
      if shrinkFloor.Some? {
        if count < shrinkFloor.value + threshold / 10 {
          return Some(false);
        }
        shrinkFloor := None;
      }
      var humans := CountHumanTurns(history, hub);
      if humans < minTurns {
        if estimated {
          return Some(false);
        }
        var c := KeepConfig(setting, window, threshold, reported);
        var keep := KeepRecentCount(history, c);
        var split := FindSplitPoint(history, keep);
        OneKeepCount(history, c, keep);
        if split.None? {
          return None;
        }
        if split.value < 2 {
          return Some(false);
        }
      }
      tokensAtTrigger := count;
      return Some(true);
    }

    /** A provider overflow that can be compacted, or a switch to another session, forgets the pause. */
    method ForgetPause()
      modifies this`justApplied, this`shrinkFloor
      ensures forall threshold: nat :: Gate() == TriggerGate.Step(old(Gate()), TriggerGate.Cleared, threshold)
    {
      shrinkFloor, justApplied := None, false;
    }

    // -------------------------------------------------------------- the hard cap

    ghost function Now(): Moment
      reads this
    {
      Moment(history, session, job, pending, pendingSession, preLen, round, failures, disabled,
             justApplied, shrinkFloor, tokensAtTrigger, window, reported, stale, scale, turn, guardTurn,
                 guardSignature, pass)
    }

    /** Whatever happened to the conversation and the stage while this task was suspended, */
    method SuspendRun(m: Moment)
      modifies this`history, this`session, this`job, this`pending, this`pendingSession, this`preLen, this`round
      ensures history == m.history && session == m.session && job == m.job
      ensures pending == m.pending && pendingSession == m.pendingSession && preLen == m.preLen && round == m.round
    {
      history, session, job := m.history, m.session, m.job;
      pending, pendingSession, preLen, round := m.pending, m.pendingSession, m.preLen, m.round;
    }

    /** to the failure counters and the trigger, */
    method SuspendTrigger(m: Moment)
      modifies this`failures, this`disabled, this`justApplied, this`shrinkFloor, this`tokensAtTrigger
      ensures failures == m.failures && disabled == m.disabled && justApplied == m.justApplied
      ensures shrinkFloor == m.shrinkFloor && tokensAtTrigger == m.tokensAtTrigger
    {
      failures, disabled := m.failures, m.disabled;
      justApplied, shrinkFloor, tokensAtTrigger := m.justApplied, m.shrinkFloor, m.tokensAtTrigger;
    }

    /** and to the prompt budget. */
    method SuspendBudget(m: Moment)
      modifies this`window, this`reported, this`stale, this`scale, this`turn, this`guardTurn, this`guardSignature,
               this`pass
      ensures window == m.window && reported == m.reported && stale == m.stale && scale == m.scale
      ensures turn == m.turn && guardTurn == m.guardTurn && guardSignature == m.guardSignature && pass == m.pass
    {
      window, reported, stale, scale := m.window, m.reported, m.stale, m.scale;
      turn, guardTurn, guardSignature, pass := m.turn, m.guardTurn, m.guardSignature, m.pass;
    }

    method Suspend(m: Moment)
      modifies this
      ensures Now() == m
    {
      SuspendRun(m);
      SuspendTrigger(m);
      SuspendBudget(m);
    }

    /** Applies the stage; an exception leaves whatever state it happened in. */
    method ApplyGuarded(env: Environment, k: nat)
      requires HonestMoment(Now()) && HonestEnvironment(env)
      modifies this
      ensures HonestMoment(Now())
      ensures match env.faults(k)
              case Some(m) => Now() == m
              case None => pending == None && history == AfterApply(old(Now()))
    {
      hide Stamp, Staging.Step, Replacement, Cut, OperatorWords.AllWords, Honest;
      ApplyUnfolds(View());
      if env.faults(k).Some? {
        Suspend(env.faults(k).value);
      } else {
        ApplyPending();
      }
    }

    /** One forced attempt: wait for a run under way, then apply its stage or start a run and wait for that. */
    method Attempt(env: Environment, k: nat) returns (raised: bool)
      requires HonestMoment(Now()) && HonestEnvironment(env)
      modifies this
      ensures HonestMoment(Now())
      ensures var m := if old(job.Idle?) then old(Now()) else env.wakes(k);
              var starts := m.pending.None? && m.job.Idle?;
              && (raised <==> (!old(job.Idle?) && env.cancelled(k)) || (starts && env.cancelled(k + 1)))
              && (!raised && m.pending.Some? && env.faults(k).None? ==> pending == None && history == AfterApply(m))
              && (!raised && starts && env.wakes(k + 1).pending.Some? && env.faults(k + 1).None? ==>
                    pending == None && history == AfterApply(env.wakes(k + 1)))
              && (!raised && starts && env.wakes(k + 1).pending.None? ==> Now() == env.wakes(k + 1))
              && (!raised && m.pending.None? && !m.job.Idle? ==> Now() == m)
    {
      hide AfterApply, Honest;
      if !job.Idle? {
        if env.cancelled(k) {
          return true;
        }
        Suspend(env.wakes(k));
      }
      if pending.Some? {
        ApplyGuarded(env, k);
      } else if job.Idle? {
        var started := StartCompaction(true);
        if started {
          if env.cancelled(k + 1) {
            return true;
          }
          Suspend(env.wakes(k + 1));
          if pending.Some? {
            ApplyGuarded(env, k + 1);
          }
        }
      }
      return false;
    }

    /** The guard would skip this check. */
    predicate Repeats(boundary: Boundary)
      reads this
    {
      boundary == ToolCall && guardTurn == Some(turn) && guardSignature == Some(Signature(history))
    }

    /** Lets this history pass, and remembers it. */
    method LetPass(cap: nat)
      requires Outgoing(history, Meter()) < cap
      modifies this`guardTurn, this`guardSignature, this`pass
      ensures guardTurn == Some(turn) && guardSignature == Some(Signature(history)) && HonestMoment(Now())
    {
      hide Outgoing, Chars;
      guardTurn, guardSignature := Some(turn), Some(Signature(history));
      pass := Some(Pass(turn, history, Meter(), cap));
    }

    /** An attempt and its measurement: a changed history makes the provider's count stale. */
    method MeasuredAttempt(env: Environment, k: nat, cap: nat) returns (raised: bool, under: bool)
      requires HonestMoment(Now()) && HonestEnvironment(env)
      modifies this
      ensures HonestMoment(Now())
      ensures !raised ==> (under <==> Outgoing(history, Meter()) < cap)
      ensures !raised && Signature(history) != old(Signature(history)) ==> stale
    {
      hide Outgoing, Chars, Honest, AfterApply;
      var before := Signature(history);
      raised := Attempt(env, k);
      if !raised && Signature(history) != before {
        stale := true;
      }
      under := Outgoing(history, Meter()) < cap;
    }

    /** Up to the configured number of attempts, ending at the first that gets under the cap or is cancelled. */
    method ForceAttempts(setting: int, env: Environment, cap: nat) returns (decided: Option<Verdict>, attempts: nat)
      requires HonestMoment(Now()) && HonestEnvironment(env)
      modifies this
      ensures HonestMoment(Now())
      ensures 0 < attempts <= Attempts(setting) && (decided.None? ==> attempts == Attempts(setting))
      ensures decided != Some(Refused) && (decided.None? ==> Outgoing(history, Meter()) >= cap)
      ensures decided == Some(Allowed) ==>
                Outgoing(history, Meter()) < cap && guardTurn == Some(turn)
                    && guardSignature == Some(Signature(history))
    {
      hide Effective, EstimatedPrompt, Outgoing, Chars, Honest, AfterApply;
      attempts := 0;
      while attempts < Attempts(setting)
        invariant attempts <= Attempts(setting) && HonestMoment(Now())
        invariant attempts > 0 ==> Outgoing(history, Meter()) >= cap
      {
        var raised, under := MeasuredAttempt(env, 2 * attempts, cap);
        attempts := attempts + 1;
        if raised {
          return Some(Raised), attempts;
        }
        if under {
          LetPass(cap);
          return Some(Allowed), attempts;
        }
      }
      return None, attempts;
    }

    /** The rollover, unless it raises, judged by the effective count. */
    method LastResort(cap: nat, fault: Option<Moment>, request: Rollover.Request)
        returns (verdict: Verdict, rolled: bool)
      requires HonestMoment(Now()) && (fault.Some? ==> HonestMoment(fault.value))
      modifies this
      ensures HonestMoment(Now())
      ensures verdict != Raised && (verdict == Allowed ==> rolled)
      ensures verdict == Allowed ==>
                Outgoing(history, Meter()) < cap && guardTurn == Some(turn)
                    && guardSignature == Some(Signature(history))
      ensures verdict == Refused ==> if rolled then Effective(history, Meter()) >= cap else |history| < 3 || fault.Some?
    {
      hide Effective, EstimatedPrompt, Outgoing, Chars, Rollover.Rolled, Honest, Staging.Step;
      if fault.Some? {
        Suspend(fault.value);
        return Refused, false;
      }
      rolled := RolloverWithSummary(request);
      if rolled && Effective(history, Meter()) < cap {
        StaleIsEstimated(history, Meter());
        LetPass(cap);
        return Allowed, true;
      }
      return Refused, rolled;
    }

    /**
     * The boundary check, against an environment that may change everything at each await. Letting a
     * boundary pass means the prompt is under the cap at that moment; the one exception is a tool call
     * in a turn that has already let a history of this signature pass. It refuses only after all
     * attempts and a rollover that was not enough, had too little to replace, or raised.
     */
    method EnforceBudget(boundary: Boundary, setting: int, env: Environment, request: Rollover.Request)
      returns (verdict: Verdict, attempts: nat, rolled: bool)
      requires HonestMoment(Now()) && HonestEnvironment(env)
      modifies this
      ensures HonestMoment(Now())
      ensures var skips := old(Repeats(boundary) && Outgoing(history, Meter()) >= HardCap(window));
              && (verdict == Allowed && !skips ==> Outgoing(history, Meter()) < HardCap(old(window)))
              && (verdict == Allowed && !skips && old(window) > 0 ==>
                    Outgoing(history, Meter()) < old(window) && Outgoing(history, Meter()) < 272_000)
              && (verdict == Allowed && !skips && old(window) == 0 ==> Outgoing(history, Meter()) < 100_000)
              && (skips ==> verdict == Allowed)
              && (attempts == 0 <==> skips || old(Outgoing(history, Meter()) < HardCap(window)))
      ensures attempts <= Attempts(setting) <= 3
      ensures attempts == 0 ==>
                && verdict == Allowed && !rolled
                && history == old(history) && Meter() == old(Meter()) && window == old(window)
      ensures rolled || verdict == Refused ==> attempts == Attempts(setting)
      ensures rolled && verdict == Refused ==> Effective(history, Meter()) >= HardCap(old(window))
      ensures !rolled && verdict == Refused ==> |history| < 3 || env.faults(2 * attempts).Some?
      ensures verdict == Allowed && attempts > 0
              ==> guardTurn == Some(turn) && guardSignature == Some(Signature(history))
    {
      hide Effective, Outgoing, Chars, HardCap, Honest, Attempts;
      AttemptsInRange(setting);
      CapIsWindowOrCeiling(window);
      var cap := HardCap(window);
      if Outgoing(history, Meter()) < cap {
        return Allowed, 0, false;
      }
      if boundary == ToolCall && guardTurn == Some(turn) && guardSignature == Some(Signature(history)) {
        return Allowed, 0, false;
      }
      var decided;
      decided, attempts := ForceAttempts(setting, env, cap);
      if decided.Some? {
        return decided.value, attempts, false;
      }
      verdict, rolled := LastResort(cap, env.faults(2 * attempts), request);
    }

    /**
     * Before a request: the stage is applied, or that raises, and the cap is enforced; a request that is
     * not let pass is cancelled, which happens only when nothing was enough.
     */
    method BeforeRequest(enabled: bool, setting: int, first: Option<Moment>, env: Environment,
        request: Rollover.Request)
      returns (outcome: Outcome, cap: nat, attempts: nat, rolled: bool)
      requires HonestMoment(Now()) && HonestEnvironment(env) && (first.Some? ==> HonestMoment(first.value))
      modifies this
      ensures HonestMoment(Now())
      ensures cap == HardCap(if first.Some? then first.value.window else old(window))
      ensures enabled && outcome == Sent ==> Outgoing(history, Meter()) < cap
      ensures var known := if first.Some? then first.value.window else old(window);
              enabled && outcome == Sent ==>
                if known > 0 then Outgoing(history, Meter()) < known && Outgoing(history, Meter()) < 272_000
                else Outgoing(history, Meter()) < 100_000
      ensures outcome == Cancelled ==>
                && enabled && attempts == Attempts(setting)
                && (if rolled then Effective(history, Meter()) >= cap
                    else |history| < 3 || env.faults(2 * attempts).Some?)
      ensures !enabled ==> outcome == Sent && (first.None? ==> View() == Staging.Step(old(View()), Staging.Apply))
    {
      hide Effective, Outgoing, HardCap, Honest, Staging.Step;
      if first.Some? {
        Suspend(first.value);
      } else {
        ApplyPending();
      }
      CapIsWindowOrCeiling(window);
      cap := HardCap(window);
      if !enabled {
        return Sent, cap, 0, false;
      }
      var verdict;
      verdict, attempts, rolled := EnforceBudget(Request, setting, env, request);
      outcome := match verdict case Allowed => Sent case Refused => Cancelled case Raised => Interrupted;
    }

    /** The user switches to a model with another window. */
    method SwitchModel(contextWindow: nat)
      modifies this`window
      ensures window == contextWindow
    {
      window := contextWindow;
    }
  }

  const LONG: Message := Plain(User, "a request of some sixty characters, which is twenty tokens..")
  const SHORT: Message := Plain(User, "twelve chars")

  /**
   * A guarded repeat over the cap: the attempt of one tool check brings the prompt under the cap and the
   * check lets it pass, the user switches to a model with a smaller window, and the next tool call of the
   * turn goes through.
   */
  method RepeatOverCap(request: Rollover.Request) returns (verdict: Verdict, over: bool)
    ensures verdict == Allowed && over
  {
    var c := new Compactor([LONG], None, 10);
    var woken := Moment([SHORT], None, Idle, None, None, 0, 0, 0, false, false, None, 0, 10, 0, true, None, 0, None,
        None, None);
    var env := Environment(_ => woken, _ => false, _ => None);
    EstimateIsThird(LONG, [LONG]);
    EstimateIsThird(SHORT, [SHORT]);
    assert |LONG.content| == 60 && |SHORT.content| == 12;
    assert Outgoing(c.history, c.Meter()) >= HardCap(c.window);
    var raised := c.Attempt(env, 0);
    assert !raised && c.Now() == woken;
    c.LetPass(10);
    c.SwitchModel(2);
    over := Outgoing(c.history, c.Meter()) >= HardCap(c.window);
    var attempts, rolled;
    verdict, attempts, rolled := c.EnforceBudget(ToolCall, 1, env, request);
  }

  lemma CutNeedsSplit(h: seq<Message>)
    ensures forall keep :: SplitPoint(h, keep).None? ==> Cut(h, keep).None?
  {
  }

  lemma SnapshotUnfolds(s: Staging.State)
    requires s.job.Scheduled?
    ensures Staging.Step(s, Staging.Snapshot)
         == s.(job := if s.w.h == [] then Staging.Idle else Staging.Running(Staging.Flight(s.w.h, s.session, [], true)))
    ensures Staging.Step(Staging.Step(s, Staging.Snapshot), Staging.Fail) == Staging.Step(s, Staging.Fail)
  {
  }

  lemma RollUnfolds(s: Staging.State, r: Rollover.Request)
    ensures Staging.Step(s, Staging.Roll(r)) ==
            if |s.w.h| < 3 then s
            else s.(w := Runs.RolledOver(s.w, r), job := Staging.BreakJob(s.job), pending := None)
  {
  }

  lemma ApplyUnfolds(s: Staging.State)
    ensures Staging.Step(s, Staging.Apply) ==
            if s.pending.None? then s
            else if Staging.Discards(s) then s.(pending := None)
            else
              var h := SwapIn(s.w.h, s.pending.value.baseline, s.pending.value.replacement);
              s.(w := Runs.Moved(s.w, h), job := Staging.BreakJob(s.job), pending := None)
  {
  }

  lemma SameFitting(h: seq<Message>, prep: Prepared, a: Input, b: Input)
    requires RoundBuilder.Fitting(h, prep, a) && b == a.(summary := b.summary, round := b.round)
    ensures RoundBuilder.Fitting(h, prep, b)
  {
  }
}
