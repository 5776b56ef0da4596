/**
 * The staged swap. A background run snapshots the history, and some time later stages a
 * replacement; meanwhile messages arrive, histories are reset and sessions switch. The next
 * request applies the stage or discards it.
 */
module Staging {
  import opened Options
  import opened Messages
  import opened ToolGroups
  import opened CompactedHistory
  import opened Routing
  import opened Round
  import opened RoundEffects
  import opened OperatorWords
  import opened OpenState
  import Rollover
  import Runs

  /**
   * A run between its snapshot and its end: what was appended after the snapshot, and whether the
   * history has not been replaced since.
   */
  datatype Flight = Flight(snapshot: seq<Message>, session: Option<string>, since: seq<Message>, intact: bool)

  datatype Job = Idle | Scheduled | Running(flight: Flight)

  /** A staged replacement; its baseline is the length of the snapshot it was made from. */
  datatype Staged = Staged(replacement: seq<Message>, baseline: nat, flight: Flight, input: Input)

  datatype State = State(w: Runs.World, session: Option<string>, job: Job, pending: Option<Staged>)

  datatype Event =
    | Append(ms: seq<Message>)
    | Reset(h: seq<Message>, session: Option<string>)
    | SwitchSession(session: Option<string>)
    | Start
    | Snapshot
    | Stage(input: Input)
    | Fail
    | Apply
    | Roll(request: Rollover.Request)

  /** A missing or empty session id is never compared. */
  predicate Comparable(session: Option<string>) {
    session.Some? && session.value != ""
  }

  predicate SameSession(current: Option<string>, staged: Option<string>) {
    Comparable(staged) ==> current == staged
  }

  /** The stage is dropped: nothing to apply it to, another session, or a shorter history. */
  predicate Discards(s: State)
    requires s.pending.Some?
  {
    || s.w.h == []
    || !SameSession(s.session, s.pending.value.flight.session)
    || |s.w.h| < s.pending.value.baseline
  }

  function Extend(f: Flight, ms: seq<Message>): Flight {
    f.(since := f.since + ms)
  }

  function Broken(f: Flight): Flight {
    f.(intact := false)
  }

  function BreakJob(job: Job): Job {
    if job.Running? then Running(Broken(job.flight)) else job
  }

  function Step(s: State, e: Event): State {
    match e
    case Append(ms) =>
      s.(w := Runs.Appended(s.w, ms),
         job := if s.job.Running? then Running(Extend(s.job.flight, ms)) else s.job,
         pending := if s.pending.Some? then Some(s.pending.value.(flight := Extend(s.pending.value.flight, ms)))
             else None)
    case Reset(h, session) =>
      s.(w := Runs.Loaded(s.w, h), session := session,
         job := BreakJob(s.job),
         pending := if s.pending.Some? then Some(s.pending.value.(flight := Broken(s.pending.value.flight))) else None)
    case SwitchSession(session) => s.(session := session)
    case Start => if s.job.Idle? then s.(job := Scheduled) else s
    case Snapshot =>
      if !s.job.Scheduled? then s
      else if s.w.h == [] then s.(job := Idle)
      else s.(job := Running(Flight(s.w.h, s.session, [], true)))
    case Stage(input) =>
      if !s.job.Running? then s
      else
        var f := s.job.flight;
        if Cut(f.snapshot, input.keep).None? then s.(job := Idle)
        else s.(job := Idle, pending := Some(Staged(Replacement(f.snapshot, input), |f.snapshot|, f, input)))
    case Fail => s.(job := Idle)
    case Apply =>
      if s.pending.None? then s
      else if Discards(s) then s.(pending := None)
      else
        s.(w := Runs.Moved(s.w, SwapIn(s.w.h, s.pending.value.baseline, s.pending.value.replacement)),
           job := BreakJob(s.job),
           pending := None)
    case Roll(r) =>
      if |s.w.h| < 3 then s
      else s.(w := Runs.RolledOver(s.w, r), job := BreakJob(s.job), pending := None)
  }

  // ---------------------------------------------------------------- the invariant

  /** Unless it was replaced, the live history is the snapshot and what was appended since. */
  predicate Tracks(s: State, f: Flight) {
    f.intact ==> s.w.h == f.snapshot + f.since
  }

  ghost predicate Inv(s: State) {
    && Runs.Current(s.w)
    && (s.pending.Some? ==>
          var p := s.pending.value;
          && Tracks(s, p.flight) && p.flight.snapshot in s.w.trail && p.baseline == |p.flight.snapshot|
          && Cut(p.flight.snapshot, p.input.keep).Some?
          && p.replacement == Replacement(p.flight.snapshot, p.input))
    && (s.job.Running? ==> Tracks(s, s.job.flight) && s.job.flight.snapshot in s.w.trail)
  }

  lemma TracksLonger(h: seq<Message>, f: Flight, ms: seq<Message>)
    requires h == f.snapshot + f.since
    ensures h + ms == Extend(f, ms).snapshot + Extend(f, ms).since
  {
  }

  /** Every event keeps it, with no condition on the environment. */
  lemma StepKeepsInv(s: State, e: Event)
    requires Inv(s)
    ensures Inv(Step(s, e))
  {
    hide Replacement, Cut, SwapIn, Rollover.Rolled, AllWords, AllOmitted;
    match e
    case Append(ms) =>
      if s.pending.Some? && s.pending.value.flight.intact {
        TracksLonger(s.w.h, s.pending.value.flight, ms);
      }
      if s.job.Running? && s.job.flight.intact {
        TracksLonger(s.w.h, s.job.flight, ms);
      }
    case Snapshot =>
      assert s.w.h + [] == s.w.h;
      assert s.w.trail[|s.w.trail| - 1] in s.w.trail;
    case _ =>
  }

  // ---------------------------------------------------------------- what an apply does

  /** The live history still starts with the snapshot of the stage. */
  predicate PrefixIntact(s: State)
    requires s.pending.Some?
  {
    s.pending.value.flight.snapshot <= s.w.h
  }

  /** The event applies a stage and does not discard it. */
  predicate Applies(s: State, e: Event) {
    e.Apply? && s.pending.Some? && !Discards(s)
  }

  /**
   * Applying a stage empties the slot and either leaves the history alone, exactly when the stage is
   * discarded, or yields the swap of its snapshot; when the live prefix is still the snapshot, that is
   * its replacement and everything after it, and if the history was never replaced, what was appended.
   */
  lemma ApplyIsSwap(s: State)
    requires Inv(s) && s.pending.Some?
    ensures Step(s, Apply).pending.None?
    ensures Discards(s) ==> Step(s, Apply).w == s.w
    ensures var f := s.pending.value.flight;
            Discards(s) <==>
            || s.w.h == [] || |s.w.h| < |f.snapshot|
            || (f.session.Some? && f.session.value != "" && s.session != f.session)
    ensures !Discards(s) ==>
              var p := s.pending.value;
              && |p.flight.snapshot| <= |s.w.h|
              && Step(s, Apply).w == Runs.Moved(s.w, Swapped(s.w.h, p.flight.snapshot, p.input))
              && Step(s, Apply).w.h
              == Stamp(Replacement(p.flight.snapshot, p.input), |s.w.h|, |Step(s, Apply).w.h|) + s.w.h[p.baseline..]
    ensures var f := s.pending.value.flight; f.intact ==> PrefixIntact(s) && s.w.h[|f.snapshot|..] == f.since
    ensures s.pending.value.flight.intact ==>
              (Discards(s) <==> s.w.h == [] || !SameSession(s.session, s.pending.value.flight.session))
  {
    hide Replacement, Cut;
    var f := s.pending.value.flight;
    if f.intact {
      assert s.w.h[|f.snapshot|..] == f.since && s.w.h[..|f.snapshot|] == f.snapshot;
    }
  }

  /** In terms of runs: every event is a step of a run or changes no history. */
  function AsStep(s: State, e: Event): Option<Runs.Step> {
    match e
    case Append(ms) => Some(Runs.Append(ms))
    case Reset(h, _) => Some(Runs.Load(h))
    case Apply =>
      if Applies(s, e) then Some(Runs.Swap(s.pending.value.flight.snapshot, s.pending.value.input)) else None
    case Roll(r) => if |s.w.h| >= 3 then Some(Runs.Roll(r)) else None
    case _ => None
  }

  /** Messages from outside are well formed, and one recogniser is used throughout. */
  ghost predicate Fitting(e: Event, tokens: string -> set<string>) {
    match e
    case Append(ms) => AllWellFormed(ms)
    case Reset(h, _) => AllWellFormed(h)
    case Stage(input) => input.tokens == tokens
    case Roll(r) => r.tokens == tokens
    case _ => true
  }

  ghost predicate Uses(s: State, tokens: string -> set<string>) {
    s.pending.Some? ==> s.pending.value.input.tokens == tokens
  }

  /** The interleaved engine refines the sequential runs. */
  lemma EventIsStep(s: State, e: Event, tokens: string -> set<string>)
    requires Inv(s) && Fitting(e, tokens) && Uses(s, tokens)
    ensures match AsStep(s, e)
            case Some(step) => Runs.Possible(s.w, step, tokens) && Step(s, e).w == Runs.Next(s.w, step, tokens)
            case None => Step(s, e).w == s.w
    ensures Uses(Step(s, e), tokens)
  {
    hide Replacement, Cut, Rollover.Rolled, AllWords, AllOmitted, Swapped, SwapIn;
    if Applies(s, e) {
      ApplyIsSwap(s);
    }
  }

  // ---------------------------------------------------------------- whole interleavings

  ghost predicate IsTrace(ss: seq<State>, es: seq<Event>) {
    && |ss| == |es| + 1 && Runs.Current(ss[0].w) && ss[0].job.Idle? && ss[0].pending.None?
    && forall i :: 0 <= i < |es| ==> ss[i + 1] == Step(ss[i], es[i])
  }

  lemma {:induction false} TracesKeepInv(ss: seq<State>, es: seq<Event>, n: nat)
    requires IsTrace(ss, es) && n < |ss|
    ensures Inv(ss[n])
  {
    hide Replacement, Cut, Step;
    if n > 0 {
      TracesKeepInv(ss, es, n - 1);
      assert ss[n] == Step(ss[n - 1], es[n - 1]);
      StepKeepsInv(ss[n - 1], es[n - 1]);
    }
  }

  /**
   * Over every interleaving, each apply discards the stage or is a swap with nothing after the baseline
   * lost or reordered; unless the history was replaced, that is exactly what was appended since.
   */
  lemma EveryApplyIsSwap(ss: seq<State>, es: seq<Event>, n: nat)
    requires IsTrace(ss, es) && n < |es| && es[n] == Apply && ss[n].pending.Some?
    ensures var s, p := ss[n], ss[n].pending.value;
            && (Discards(s) ==> ss[n + 1].w == s.w)
            && (!Discards(s) ==>
                  && |p.flight.snapshot| <= |s.w.h|
                  && ss[n + 1].w.h == Stamp(p.replacement, |s.w.h|, |ss[n + 1].w.h|) + s.w.h[|p.flight.snapshot|..])
            && (p.flight.intact ==> s.w.h == p.flight.snapshot + p.flight.since)
  {
    hide Replacement, Cut, Step, Swapped;
    TracesKeepInv(ss, es, n);
    ApplyIsSwap(ss[n]);
    assert ss[n + 1] == Step(ss[n], es[n]);
  }

  /** No run starts while one is staged, and nothing replaces the history under a run or a stage. */
  predicate Undisturbed(s: State, e: Event) {
    && (e.Start? ==> s.pending.None?)
    && (e.Reset? ==> s.pending.None? && !s.job.Running?)
    && (e.Roll? ==> !s.job.Running?)
  }

  predicate AllIntact(s: State) {
    && (s.pending.Some? ==> s.pending.value.flight.intact && s.job.Idle?)
    && (s.job.Running? ==> s.job.flight.intact)
  }

  lemma UndisturbedStep(s: State, e: Event)
    requires AllIntact(s) && Undisturbed(s, e)
    ensures AllIntact(Step(s, e))
  {
    hide Replacement, Cut, SwapIn, Rollover.Rolled, AllWords, AllOmitted;
  }

  /** Then nothing in flight is ever disturbed, and each swap is of the snapshot and what was appended since. */
  lemma {:induction false} UndisturbedStaysIntact(ss: seq<State>, es: seq<Event>, n: nat)
    requires IsTrace(ss, es) && n < |ss| && forall i :: 0 <= i < n ==> Undisturbed(ss[i], es[i])
    ensures AllIntact(ss[n])
  {
    hide Step, Undisturbed;
    if n > 0 {
      UndisturbedStaysIntact(ss, es, n - 1);
      assert ss[n] == Step(ss[n - 1], es[n - 1]) && Undisturbed(ss[n - 1], es[n - 1]);
      UndisturbedStep(ss[n - 1], es[n - 1]);
    }
  }

  /** A run from its start to its stage, and what its session and the history do before it is applied. */
  function WholeRound(s: State, input: Input, during: seq<Message>, t: Option<string>): State {
    var staged := Step(Step(Step(Step(s, Start), Snapshot), Append(during)), Stage(input));
    Step(Step(staged, SwitchSession(t)), Apply)
  }

  /**
   * A run started from rest, with messages arriving while it is under way: applied in its own session it
   * swaps its snapshot and keeps what arrived; applied in another it changes nothing.
   */
  lemma RoundFromRest(s: State, input: Input, during: seq<Message>, t: Option<string>)
    requires Runs.Current(s.w) && s.job.Idle? && s.pending.None? && s.w.h != [] && Cut(s.w.h, input.keep).Some?
    ensures t == s.session ==> WholeRound(s, input, during, t).w.h == Swapped(s.w.h + during, s.w.h, input)
    ensures s.session.Some? && s.session.value != "" && t != s.session
            ==> WholeRound(s, input, during, t).w.h == s.w.h + during
    ensures WholeRound(s, input, during, t).pending == None && WholeRound(s, input, during, t).job == Idle
  {
    hide Replacement, Cut, Stamp, AllWords, AllOmitted;
  }

  // ---------------------------------------------------------------- tool groups

  /** The tool results right after the baseline find their calls open at the end of the replacement. */
  ghost predicate FindsCalls(s: State)
    requires s.pending.Some? && s.pending.value.baseline <= |s.w.h|
  {
    var p, h := s.pending.value, s.w.h;
    var front := Stamp(p.replacement, |h|, |p.replacement| + |h| - p.baseline);
    forall i :: p.baseline <= i < |h| && Leads(h, p.baseline, i) ==> FindsCall(front, h, p.baseline, i)
  }

  /** What the engine holds is well formed and well shaped: the history and the snapshots in flight. */
  ghost predicate Shaped(s: State) {
    && Runs.Formed(s.w) && Paired(s.w.h)
    && (s.pending.Some? ==> Paired(s.pending.value.flight.snapshot) && TasksAreUsers(s.pending.value.input.view))
    && (s.job.Running? ==> Paired(s.job.flight.snapshot))
  }

  /** Applying a stage keeps each tool result with its call exactly when the results after the baseline find theirs. */
  lemma ApplyKeepsPairsIff(s: State)
    requires Inv(s) && Shaped(s) && Applies(s, Apply)
    ensures Paired(Step(s, Apply).w.h) <==> FindsCalls(s)
  {
    hide Replacement, Cut, Paired, Leads, FindsCall, Stamp, WellFormed;
    var p := s.pending.value;
    ApplyIsSwap(s);
    SnapshotFormed(s.w, p.flight.snapshot);
    SwapKeepsPairsIff(s.w.h, p.flight.snapshot, p.input);
  }

  lemma SnapshotFormed(w: Runs.World, snapshot: seq<Message>)
    requires Runs.Formed(w) && snapshot in w.trail
    ensures AllWellFormed(snapshot)
  {
    hide WellFormed;
  }

  /** Safe to see from outside: the message right after the baseline, if any, is no tool result. */
  lemma PlainNextIsSafe(s: State)
    requires s.pending.Some? && s.pending.value.baseline <= |s.w.h|
    requires s.pending.value.baseline == |s.w.h| || !IsToolResult(s.w.h[s.pending.value.baseline])
    ensures FindsCalls(s)
  {
    hide FindsCall, Stamp;
  }

  /** And a history that still starts with the snapshot is safe. */
  lemma PrefixIntactIsSafe(s: State)
    requires Inv(s) && Shaped(s) && Applies(s, Apply) && PrefixIntact(s)
    ensures FindsCalls(s)
  {
    hide Replacement, Cut, Paired, Swapped, FindsCalls, WellFormed, Step;
    var p := s.pending.value;
    ApplyIsSwap(s);
    SnapshotFormed(s.w, p.flight.snapshot);
    SwapKeepsPairs(s.w.h, p.flight.snapshot, p.input);
    ApplyKeepsPairsIff(s);
  }

  /** The environment's part: what it makes is well shaped, hub tasks are user messages, rolled windows whole. */
  ghost predicate ShapesKept(s: State, e: Event) {
    match e
    case Append(ms) => Paired(s.w.h + ms)
    case Reset(h, _) => Paired(h)
    case Stage(input) => TasksAreUsers(input.view)
    case Roll(r) =>
      |s.w.h| >= 3 ==> TasksAreUsers(r.view) && Paired(NoReminders(s.w.h[Rollover.RawSplit(s.w.h, r.keep)..]))
    case _ => true
  }

  /** Every event keeps the shape, except exactly an apply whose results do not find their calls. */
  lemma StepKeepsShapeIff(s: State, e: Event, tokens: string -> set<string>)
    requires Inv(s) && Uses(s, tokens) && Fitting(e, tokens) && Shaped(s) && ShapesKept(s, e)
    ensures Shaped(Step(s, e)) <==> (Applies(s, e) ==> FindsCalls(s))
  {
    hide Replacement, Cut, Paired, Runs.Formed, Inv, TasksAreUsers, SwapIn, AllWellFormed, Runs.Next, Runs.Possible,
         FindsCalls, Rollover.RawSplit, Rollover.Rolled, NoReminders, AllWords, AllOmitted;
    EventIsStep(s, e, tokens);
    if Applies(s, e) {
      ApplyKeepsPairsIff(s);
      Runs.StepFormed(s.w, AsStep(s, e).value, tokens);
    } else if AsStep(s, e).Some? {
      var step := AsStep(s, e).value;
      Runs.StepFormed(s.w, step, tokens);
      Runs.StepKeepsPairs(s.w, step, tokens);
    }
  }

  ghost predicate AllFitting(ss: seq<State>, es: seq<Event>, tokens: string -> set<string>) {
    IsTrace(ss, es) && Runs.Initial(ss[0].w) && forall i :: 0 <= i < |es| ==> Fitting(es[i], tokens)
  }

  lemma {:induction false} TracesUse(ss: seq<State>, es: seq<Event>, tokens: string -> set<string>, n: nat)
    requires AllFitting(ss, es, tokens) && n < |ss|
    ensures Uses(ss[n], tokens)
  {
    hide Step, Inv, Fitting, Runs.Initial;
    if n > 0 {
      TracesUse(ss, es, tokens, n - 1);
      TracesKeepInv(ss, es, n - 1);
      assert ss[n] == Step(ss[n - 1], es[n - 1]) && Fitting(es[n - 1], tokens);
      EventIsStep(ss[n - 1], es[n - 1], tokens);
    }
  }

  /**
   * Over every interleaving, from any well-shaped history: as long as each applied stage finds the calls
   * of the results after its baseline, every tool result stays with its call, also in what is in flight.
   */
  lemma {:induction false} TracesKeepPairs(ss: seq<State>, es: seq<Event>, tokens: string -> set<string>, n: nat)
    requires AllFitting(ss, es, tokens) && n < |ss|
    requires Paired(ss[0].w.h) && forall i :: 0 <= i < n ==> ShapesKept(ss[i], es[i])
    requires forall i :: 0 <= i < n && Applies(ss[i], es[i]) ==> FindsCalls(ss[i])
    ensures Shaped(ss[n])
  {
    hide Paired, WellFormed, Step, FindsCalls, ShapesKept, Runs.Initial, Fitting;
    if n == 0 {
      Runs.InitialIsGood(ss[0].w, tokens);
    } else {
      TracesKeepPairs(ss, es, tokens, n - 1);
      TracesKeepInv(ss, es, n - 1);
      TracesUse(ss, es, tokens, n - 1);
      assert ss[n] == Step(ss[n - 1], es[n - 1]) && Fitting(es[n - 1], tokens) && ShapesKept(ss[n - 1], es[n - 1]);
      StepKeepsShapeIff(ss[n - 1], es[n - 1], tokens);
    }
  }

  /** And the first stage applied without finding them parts a result from its call. */
  lemma FirstUnsafeApplyOrphans(ss: seq<State>, es: seq<Event>, tokens: string -> set<string>, n: nat)
    requires AllFitting(ss, es, tokens) && n < |es|
    requires Paired(ss[0].w.h) && forall i :: 0 <= i < n ==> ShapesKept(ss[i], es[i])
    requires forall i :: 0 <= i < n && Applies(ss[i], es[i]) ==> FindsCalls(ss[i])
    requires Applies(ss[n], es[n]) && !FindsCalls(ss[n])
    ensures !Paired(ss[n + 1].w.h)
  {
    hide Paired, WellFormed, Step, FindsCalls, ShapesKept, Runs.Initial, Fitting;
    TracesKeepPairs(ss, es, tokens, n);
    TracesKeepInv(ss, es, n);
    assert ss[n + 1] == Step(ss[n], es[n]);
    ApplyKeepsPairsIff(ss[n]);
  }

  // ---------------------------------------------------------------- evidence and operator words

  lemma {:induction false} TracesFormed(ss: seq<State>, es: seq<Event>, tokens: string -> set<string>, n: nat)
    requires AllFitting(ss, es, tokens) && n < |ss|
    ensures Runs.Formed(ss[n].w)
  {
    hide Step, Inv, Fitting, Runs.Initial, Runs.Formed, Runs.Grounded, Runs.Possible, Runs.Next;
    if n == 0 {
      Runs.InitialIsGood(ss[0].w, tokens);
    } else {
      TracesFormed(ss, es, tokens, n - 1);
      TracesKeepInv(ss, es, n - 1);
      TracesUse(ss, es, tokens, n - 1);
      var s, e := ss[n - 1], es[n - 1];
      assert ss[n] == Step(s, e) && Fitting(e, tokens);
      EventIsStep(s, e, tokens);
      if AsStep(s, e).Some? {
        Runs.StepFormed(s.w, AsStep(s, e).value, tokens);
      }
    }
  }

  /** Over every interleaving, stale swaps included, each issue and commit of an OPEN STATE has a source. */
  lemma {:induction false} TracesStayGrounded(ss: seq<State>, es: seq<Event>, tokens: string -> set<string>, n: nat)
    requires AllFitting(ss, es, tokens) && n < |ss| && Distributes(tokens)
    ensures Runs.Grounded(ss[n].w, tokens)
  {
    hide Step, Inv, Fitting, Runs.Initial, Runs.Formed, Runs.Grounded, Runs.Possible, Runs.Next, Distributes;
    if n == 0 {
      Runs.InitialIsGood(ss[0].w, tokens);
    } else {
      TracesStayGrounded(ss, es, tokens, n - 1);
      TracesFormed(ss, es, tokens, n - 1);
      TracesKeepInv(ss, es, n - 1);
      TracesUse(ss, es, tokens, n - 1);
      var s, e := ss[n - 1], es[n - 1];
      assert ss[n] == Step(s, e) && Fitting(e, tokens);
      EventIsStep(s, e, tokens);
      if AsStep(s, e).Some? {
        Runs.StepGrounds(s.w, AsStep(s, e).value, tokens);
      }
    }
  }

  /**
   * Applying a stage conserves the number of operator records exactly when the prefix it overwrites has
   * as many as its snapshot and what it keeps verbatim; when it does not, this is the difference.
   */
  lemma ApplyCountsWords(s: State)
    requires Inv(s) && Runs.Formed(s.w) && Applies(s, Apply)
    ensures var p, h := s.pending.value, s.w.h;
            var kept := |Inputs(KeptVerbatim(p.flight.snapshot, p.input))|;
            && WordCount(Step(s, Apply).w.h) + WordCount(h[..p.baseline])
            == WordCount(h) + WordCount(p.flight.snapshot) + kept
            && (WordCount(Step(s, Apply).w.h) == WordCount(h)
                <==> WordCount(p.flight.snapshot) + kept == WordCount(h[..p.baseline]))
  {
    hide Replacement, Cut, Swapped, KeptVerbatim, WordCount, Inputs, WellFormed, Step;
    var p := s.pending.value;
    ApplyIsSwap(s);
    SnapshotFormed(s.w, p.flight.snapshot);
    SwapWordCount(s.w.h, p.flight.snapshot, p.input);
  }

  /** Applied stages find their snapshot, and what they keep verbatim carries no operator records. */
  ghost predicate WordsApart(s: State, e: Event, tokens: string -> set<string>) {
    var step := AsStep(s, e);
    step.Some? ==>
      && Runs.Fresh(s.w, step.value) && Runs.Possible(s.w, step.value, tokens)
      && Runs.KeepsWordsApart(s.w, step.value, tokens)
  }

  /** Over every such interleaving all operator records ever seen are accounted for once. */
  lemma {:induction false} TracesKeepWords(ss: seq<State>, es: seq<Event>, tokens: string -> set<string>, n: nat)
    requires AllFitting(ss, es, tokens) && n < |ss|
    requires forall i :: 0 <= i < n ==> WordsApart(ss[i], es[i], tokens)
    ensures CarriesWords(ss[n].w.h, ss[n].w.log, ss[n].w.lost)
    ensures WordCount(ss[n].w.h) == |ss[n].w.log| + ss[n].w.lost
    ensures n > 0 && AsStep(ss[n - 1], es[n - 1]).Some?
            && (AsStep(ss[n - 1], es[n - 1]).value.Swap? || AsStep(ss[n - 1], es[n - 1]).value.Roll?) ==>
              IsLongestSuffix(Older(ss[n].w.h, ss[n].w.log), SummaryWords(ss[n].w.h))
  {
    hide Step, Inv, Fitting, Runs.Initial, CarriesWords, WordCount, WellFormed, Runs.Possible, Runs.Next,
         Runs.Grounded, IsLongestSuffix;
    if n == 0 {
      Runs.InitialIsGood(ss[0].w, tokens);
    } else {
      TracesKeepWords(ss, es, tokens, n - 1);
      TracesFormed(ss, es, tokens, n - 1);
      TracesKeepInv(ss, es, n - 1);
      TracesUse(ss, es, tokens, n - 1);
      var s, e := ss[n - 1], es[n - 1];
      assert ss[n] == Step(s, e) && Fitting(e, tokens) && WordsApart(s, e, tokens);
      EventIsStep(s, e, tokens);
      if AsStep(s, e).Some? {
        Runs.StepKeepsWords(s.w, AsStep(s, e).value, tokens);
      }
    }
    TracesFormed(ss, es, tokens, n);
    CarriesLongestSuffix(ss[n].w.h, ss[n].w.log, ss[n].w.lost);
  }
}
