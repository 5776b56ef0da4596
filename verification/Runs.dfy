/** Any number of rounds and rollovers: what every reachable conversation satisfies. */
module Runs {
  import opened Options
  import opened Messages
  import opened ToolGroups
  import opened OperatorWords
  import opened OpenState
  import opened Round
  import opened RoundEffects
  import opened Rollover

  /** A rollover that took place: the history it found and what it was asked. */
  datatype Rolling = Rolling(h: seq<Message>, request: Request)

  /**
   * A conversation and its past: the operator records known to it and the number omitted before they
   * could be known, every history it went through (the last is h), every list of messages it was
   * given, and every rollover.
   */
  datatype World = World(
    h: seq<Message>,
    log: seq<Record>,
    lost: nat,
    trail: seq<seq<Message>>,
    given: seq<seq<Message>>,
    rolls: seq<Rolling>)

  datatype Step =
    | Append(ms: seq<Message>)                        // the conversation goes on
    | Load(h: seq<Message>)                           // the history is reset to another one
    | Swap(snapshot: seq<Message>, input: Input)      // a round taken on an earlier history is applied
    | Roll(request: Request)                          // an emergency rollover

  function Moved(w: World, h: seq<Message>): World {
    w.(h := h, trail := w.trail + [h])
  }

  function Appended(w: World, ms: seq<Message>): World {
    Moved(w, w.h + ms).(log := w.log + AllWords(ms), lost := w.lost + AllOmitted(ms), given := w.given + [ms])
  }

  function Loaded(w: World, h: seq<Message>): World {
    Moved(w, h).(log := AllWords(h), lost := AllOmitted(h), given := w.given + [h])
  }

  function RolledOver(w: World, r: Request): World
    requires |w.h| >= 3
  {
    Moved(w, Rolled(w.h, r)).(rolls := w.rolls + [Rolling(w.h, r)])
  }

  /** Messages from outside are well formed, and a round was taken on a history of this conversation. */
  ghost predicate Possible(w: World, step: Step, tokens: string -> set<string>) {
    match step
    case Append(ms) => AllWellFormed(ms)
    case Load(h) => AllWellFormed(h)
    case Swap(snapshot, input) =>
      snapshot in w.trail && |snapshot| <= |w.h| && Cut(snapshot, input.keep).Some? && input.tokens == tokens
    case Roll(r) => |w.h| >= 3 && r.tokens == tokens
  }

  ghost function Next(w: World, step: Step, tokens: string -> set<string>): World
    requires Possible(w, step, tokens)
  {
    match step
    case Append(ms) => Appended(w, ms)
    case Load(h) => Loaded(w, h)
    case Swap(snapshot, input) => Moved(w, Swapped(w.h, snapshot, input))
    case Roll(r) => RolledOver(w, r)
  }

  /** A conversation as it is first loaded, summaries included. */
  ghost predicate Initial(w: World) {
    AllWellFormed(w.h) && w == World(w.h, AllWords(w.h), AllOmitted(w.h), [w.h], [w.h], [])
  }

  predicate Current(w: World) {
    w.trail != [] && w.trail[|w.trail| - 1] == w.h
  }

  ghost predicate Formed(w: World) {
    Current(w) && forall i :: 0 <= i < |w.trail| ==> AllWellFormed(w.trail[i])
  }

  lemma StepFormed(w: World, step: Step, tokens: string -> set<string>)
    requires Formed(w) && Possible(w, step, tokens)
    ensures Formed(Next(w, step, tokens))
  {
    hide Swapped, Cut, Rolled, WellFormed, AllWords, AllOmitted;
    assert AllWellFormed(w.h);
    match step
    case Swap(snapshot, input) => SwapKeepsForm(w.h, snapshot, input);
    case Roll(r) => RollKeepsForm(w.h, r);
    case _ =>
  }

  // ---------------------------------------------------------------- tool groups

  /** A round finds the history it was taken on, and perhaps more. */
  predicate Fresh(w: World, step: Step) {
    step.Swap? ==> step.snapshot <= w.h
  }

  /** The environment's part: histories it makes are well shaped, hub tasks are user messages, rolled windows whole. */
  ghost predicate KeepsShape(w: World, step: Step) {
    match step
    case Append(ms) => Paired(w.h + ms)
    case Load(h) => Paired(h)
    case Swap(_, input) => TasksAreUsers(input.view)
    case Roll(r) => TasksAreUsers(r.view) && |w.h| >= 3 && Paired(NoReminders(w.h[RawSplit(w.h, r.keep)..]))
  }

  lemma StepKeepsPairs(w: World, step: Step, tokens: string -> set<string>)
    requires Formed(w) && Possible(w, step, tokens)
    requires Paired(w.h) && KeepsShape(w, step) && Fresh(w, step)
    ensures Paired(Next(w, step, tokens).h)
  {
    hide Swapped, Rolled, Cut, Paired, WellFormed, RawSplit, NoReminders, AllWords, AllOmitted;
    assert AllWellFormed(w.h);
    match step
    case Swap(snapshot, input) => SwapKeepsPairs(w.h, snapshot, input);
    case Roll(r) => RollKeepsPairsIff(w.h, r);
    case _ =>
  }

  // ---------------------------------------------------------------- operator words

  /** Messages kept verbatim carry no operator records; rollovers have a system prompt and something to replace. */
  ghost predicate KeepsWordsApart(w: World, step: Step, tokens: string -> set<string>)
    requires Possible(w, step, tokens)
  {
    match step
    case Swap(snapshot, input) => NoWordsKept(snapshot, input)
    case Roll(r) => Start(w.h) == 1 < RawSplit(w.h, r.keep) && Inputs(RollParts(w.h, r).tasks) == []
    case _ => true
  }

  lemma StepKeepsWords(w: World, step: Step, tokens: string -> set<string>)
    requires Formed(w) && Possible(w, step, tokens)
    requires CarriesWords(w.h, w.log, w.lost) && KeepsWordsApart(w, step, tokens) && Fresh(w, step)
    ensures var w' := Next(w, step, tokens); CarriesWords(w'.h, w'.log, w'.lost)
    ensures step.Swap? || step.Roll? ==> Within(SummaryWords(Next(w, step, tokens).h))
  {
    hide Swapped, Rolled, Cut, WellFormed, RawSplit, CarriesWords, AllWords, AllOmitted, RollParts, SummaryWords,
         Within;
    assert AllWellFormed(w.h);
    match step
    case Append(ms) => AppendKeepsWords(w.h, ms, w.log, w.lost);
    case Load(h) => LoadedWords(h);
    case Swap(snapshot, input) => SwapKeepsWords(w.h, snapshot, input, w.log, w.lost);
    case Roll(r) => RollKeepsWords(w.h, r, w.log, w.lost);
  }

  /** The same without a word on where a rollover cuts: the message it leaves out carries no records. */
  ghost predicate KeepsWordsOnce(w: World, step: Step, tokens: string -> set<string>)
    requires Possible(w, step, tokens)
  {
    match step
    case Swap(snapshot, input) => NoWordsKept(snapshot, input)
    case Roll(r) => WordCount(w.h[..1]) == 0 && Inputs(RollParts(w.h, r).tasks) == []
    case _ => true
  }

  lemma StepAccounts(w: World, step: Step, tokens: string -> set<string>)
    requires Formed(w) && Possible(w, step, tokens)
    requires Accounts(w.h, w.log, w.lost) && KeepsWordsOnce(w, step, tokens) && Fresh(w, step)
    ensures var w' := Next(w, step, tokens); Accounts(w'.h, w'.log, w'.lost)
  {
    hide Swapped, Rolled, Cut, WellFormed, AllWords, AllOmitted, RollParts, Accounts, WordCount;
    assert AllWellFormed(w.h);
    match step
    case Append(ms) => AppendAccounts(w.h, ms, w.log, w.lost);
    case Load(h) => LoadedAccounts(h);
    case Swap(snapshot, input) => SwapAccounts(w.h, snapshot, input, w.log, w.lost);
    case Roll(r) => RollAccounts(w.h, r, w.log, w.lost);
  }

  lemma LoadedAccounts(h: seq<Message>)
    ensures Accounts(h, AllWords(h), AllOmitted(h))
  {
    hide Bound, AllWords, AllOmitted;
  }

  // ---------------------------------------------------------------- evidence

  /**
   * Where a token may come from: an ordinary message of a history of this conversation, an OPEN STATE
   * the conversation was given, or the cut of a state by a rollover.
   */
  ghost predicate Sourced(w: World, tokens: string -> set<string>, t: string) {
    || (exists i :: 0 <= i < |w.trail| && Mentioned(w.trail[i], tokens, t))
    || (exists i :: 0 <= i < |w.given| && InState(w.given[i], tokens, t))
    || (exists i :: 0 <= i < |w.rolls| && |w.rolls[i].h| >= 3 && Yields(w.rolls[i].h, w.rolls[i].request, t))
  }

  /** Every token of an OPEN STATE, now or earlier, has a source. */
  ghost predicate Grounded(w: World, tokens: string -> set<string>) {
    forall i, t :: 0 <= i < |w.trail| && InState(w.trail[i], tokens, t) ==> Sourced(w, tokens, t)
  }

  ghost predicate Extends(w: World, w': World) {
    w.trail <= w'.trail && w.given <= w'.given && w.rolls <= w'.rolls
  }

  lemma SourcesStay(w: World, w': World, tokens: string -> set<string>, t: string)
    requires Extends(w, w') && Sourced(w, tokens, t)
    ensures Sourced(w', tokens, t)
  {
    hide Mentioned, InState, Yields;
    if i :| 0 <= i < |w.trail| && Mentioned(w.trail[i], tokens, t) {
      assert w'.trail[i] == w.trail[i];
    } else if i :| 0 <= i < |w.given| && InState(w.given[i], tokens, t) {
      assert w'.given[i] == w.given[i];
    } else {
      var i :| 0 <= i < |w.rolls| && |w.rolls[i].h| >= 3 && Yields(w.rolls[i].h, w.rolls[i].request, t);
      assert w'.rolls[i] == w.rolls[i];
    }
  }

  lemma StepExtends(w: World, step: Step, tokens: string -> set<string>)
    requires Possible(w, step, tokens)
    ensures Extends(w, Next(w, step, tokens))
    ensures Next(w, step, tokens).trail == w.trail + [Next(w, step, tokens).h]
  {
    hide Swapped, Rolled, Cut, AllWords, AllOmitted;
  }

  /** A token of the newest state: it was in an earlier one, or it has a source of its own. */
  lemma NewStateSourced(w: World, step: Step, tokens: string -> set<string>, t: string)
    requires Formed(w) && Possible(w, step, tokens) && Distributes(tokens)
    requires InState(Next(w, step, tokens).h, tokens, t)
    ensures Sourced(Next(w, step, tokens), tokens, t)
            || exists i :: 0 <= i < |w.trail| && InState(w.trail[i], tokens, t)
  {
    hide Swapped, Rolled, Cut, Mentioned, InState, Yields, WellFormed, AllWords, AllOmitted, Distributes;
    var w', n := Next(w, step, tokens), |w.trail|;
    StepExtends(w, step, tokens);
    assert w'.trail[n - 1] == w.h == w.trail[n - 1] && AllWellFormed(w.h);
    match step
    case Append(ms) =>
      StateOfEither(w.h, ms, tokens, t);
      assert w'.given[|w.given|] == ms;
    case Load(h) =>
      assert w'.given[|w.given|] == h;
    case Swap(snapshot, input) =>
      var i :| 0 <= i < n && w.trail[i] == snapshot;
      assert w'.trail[i] == snapshot;
      SwapGroundsState(w.h, snapshot, input, t);
    case Roll(r) =>
      RollGroundsState(w.h, r, t);
      assert w'.rolls[|w.rolls|] == Rolling(w.h, r);
  }

  lemma StateOfEither(a: seq<Message>, b: seq<Message>, tokens: string -> set<string>, t: string)
    requires InState(a + b, tokens, t)
    ensures InState(a, tokens, t) || InState(b, tokens, t)
  {
    hide StateOf;
  }

  lemma StepGrounds(w: World, step: Step, tokens: string -> set<string>)
    requires Formed(w) && Possible(w, step, tokens)
    requires Distributes(tokens) && Grounded(w, tokens)
    ensures Grounded(Next(w, step, tokens), tokens)
  {
    hide Next, Possible, InState, Sourced, WellFormed, Distributes;
    var w', n := Next(w, step, tokens), |w.trail|;
    StepExtends(w, step, tokens);
    forall i, t | 0 <= i < |w'.trail| && InState(w'.trail[i], tokens, t)
      ensures Sourced(w', tokens, t)
    {
      if i == n {
        NewStateSourced(w, step, tokens, t);
      } else {
        assert w'.trail[i] == w.trail[i];
      }
      if Sourced(w, tokens, t) {
        SourcesStay(w, w', tokens, t);
      }
    }
  }

  // ---------------------------------------------------------------- whole runs

  /** The worlds a sequence of steps leads through. */
  ghost predicate IsRun(ws: seq<World>, steps: seq<Step>, tokens: string -> set<string>) {
    && |ws| == |steps| + 1 && Initial(ws[0])
    && forall i :: 0 <= i < |steps| ==> Possible(ws[i], steps[i], tokens) && ws[i + 1] == Next(ws[i], steps[i], tokens)
  }

  lemma InitialIsGood(w: World, tokens: string -> set<string>)
    requires Initial(w)
    ensures Formed(w) && CarriesWords(w.h, w.log, w.lost) && Grounded(w, tokens)
  {
    hide CarriesWords, WellFormed, StateOf, Mentioned, AllWords, AllOmitted, InState;
    LoadedWords(w.h);
    forall i, t | 0 <= i < |w.trail| && InState(w.trail[i], tokens, t)
      ensures Sourced(w, tokens, t)
    {
      assert InState(w.given[0], tokens, t);
    }
  }

  lemma {:induction false} RunsAreFormed(ws: seq<World>, steps: seq<Step>, tokens: string -> set<string>, n: nat)
    requires IsRun(ws, steps, tokens) && n < |ws|
    ensures Formed(ws[n])
  {
    hide Possible, Next, Initial, WellFormed;
    if n == 0 {
      InitialIsGood(ws[0], tokens);
    } else {
      RunsAreFormed(ws, steps, tokens, n - 1);
      StepFormed(ws[n - 1], steps[n - 1], tokens);
    }
  }

  /** Over any run every history keeps each tool result with its call. */
  lemma {:induction false} RunsKeepPairs(ws: seq<World>, steps: seq<Step>, tokens: string -> set<string>, n: nat)
    requires IsRun(ws, steps, tokens) && n < |ws| && Paired(ws[0].h)
    requires forall i :: 0 <= i < |steps| ==> KeepsShape(ws[i], steps[i]) && Fresh(ws[i], steps[i])
    ensures Paired(ws[n].h)
  {
    hide Possible, Next, Initial, Paired, Formed;
    if n > 0 {
      RunsAreFormed(ws, steps, tokens, n - 1);
      RunsKeepPairs(ws, steps, tokens, n - 1);
      StepKeepsPairs(ws[n - 1], steps[n - 1], tokens);
    }
  }

  ghost predicate WordsKept(ws: seq<World>, steps: seq<Step>, tokens: string -> set<string>)
    requires IsRun(ws, steps, tokens)
  {
    forall i :: 0 <= i < |steps| ==> KeepsWordsApart(ws[i], steps[i], tokens) && Fresh(ws[i], steps[i])
  }

  /**
   * Over any run, whatever summary the conversation was loaded with, all records ever seen are
   * accounted for once; and after a round the summary carries the longest suffix of the older ones.
   */
  lemma {:induction false} RunsKeepWords(ws: seq<World>, steps: seq<Step>, tokens: string -> set<string>, n: nat)
    requires IsRun(ws, steps, tokens) && n < |ws| && WordsKept(ws, steps, tokens)
    ensures CarriesWords(ws[n].h, ws[n].log, ws[n].lost)
    ensures WordCount(ws[n].h) == |ws[n].log| + ws[n].lost
    ensures n > 0 && (steps[n - 1].Swap? || steps[n - 1].Roll?) ==>
              IsLongestSuffix(Older(ws[n].h, ws[n].log), SummaryWords(ws[n].h))
  {
    hide Possible, Next, Initial, CarriesWords, WellFormed, WordCount, IsLongestSuffix, Within, SummaryWords;
    if n == 0 {
      InitialIsGood(ws[0], tokens);
    } else {
      RunsAreFormed(ws, steps, tokens, n - 1);
      RunsKeepWords(ws, steps, tokens, n - 1);
      StepKeepsWords(ws[n - 1], steps[n - 1], tokens);
    }
    RunsAreFormed(ws, steps, tokens, n);
    CarriesLongestSuffix(ws[n].h, ws[n].log, ws[n].lost);
  }

  /**
   * Over any run, wherever its rollovers cut, the history holds the newest records ever seen within the
   * caps, and with the omission counts all of them are accounted for once.
   */
  lemma {:induction false} RunsAccountWords(ws: seq<World>, steps: seq<Step>, tokens: string -> set<string>, n: nat)
    requires IsRun(ws, steps, tokens) && n < |ws|
    requires forall i :: 0 <= i < n ==> KeepsWordsOnce(ws[i], steps[i], tokens) && Fresh(ws[i], steps[i])
    ensures Accounts(ws[n].h, ws[n].log, ws[n].lost)
  {
    hide Possible, Next, WellFormed, Accounts, KeepsWordsOnce, AllWords, AllOmitted;
    if n == 0 {
      LoadedAccounts(ws[0].h);
    } else {
      RunsAreFormed(ws, steps, tokens, n - 1);
      RunsAccountWords(ws, steps, tokens, n - 1);
      assert KeepsWordsOnce(ws[n - 1], steps[n - 1], tokens) && Fresh(ws[n - 1], steps[n - 1]);
      StepAccounts(ws[n - 1], steps[n - 1], tokens);
    }
  }

  /**
   * Over any run of rounds and rollovers, whatever the summarizer writes, every issue and commit in an
   * OPEN STATE was in an ordinary message, in a state the conversation was given, or is the cut of one.
   */
  lemma {:induction false} RunsStayGrounded(ws: seq<World>, steps: seq<Step>, tokens: string -> set<string>, n: nat)
    requires IsRun(ws, steps, tokens) && n < |ws| && Distributes(tokens)
    ensures Grounded(ws[n], tokens)
  {
    hide Possible, Next, Initial, Grounded, Distributes, Formed;
    if n == 0 {
      InitialIsGood(ws[0], tokens);
    } else {
      RunsAreFormed(ws, steps, tokens, n - 1);
      RunsStayGrounded(ws, steps, tokens, n - 1);
      StepGrounds(ws[n - 1], steps[n - 1], tokens);
    }
  }
}
