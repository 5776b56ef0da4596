/** Why a stage should find its snapshot: three short runs in which a stale one loses a tool call. */
module StagingLimits {
  import opened Options
  import opened Messages
  import opened ToolGroups
  import opened Routing
  import opened CompactedHistory
  import opened Round
  import opened RoundEffects
  import opened Staging
  import OpenState
  import OperatorWords
  import Rollover
  import Runs

  const FIRST: Message := Plain(User, "first")
  const SECOND: Message := Plain(User, "second")
  const THIRD: Message := Plain(User, "third")
  const CALL: Message := Plain(Assistant, "calling").(toolCalls := ["x"])
  const ANSWER: Message := Plain(Tool, "answer").(toolCallId := Some("x"))

  function QuietInput(): Input {
    Input(1, map[], TaskView(m => false, {}), "", 1, 0, t => {})
  }

  function Opening(): State {
    var h := [FIRST, SECOND, THIRD];
    State(Runs.World(h, [], 0, [h], [h], []), Some("session"), Idle, None)
  }

  function Play(s: State, es: seq<Event>): State
    decreases |es|
  {
    if es == [] then s else Play(Step(s, es[0]), es[1..])
  }

  lemma {:induction false} WhereNone(n: nat, p: nat -> bool)
    requires forall k :: 0 <= k < n ==> !p(k)
    ensures Where(n, p) == []
  {
    if n > 0 {
      WhereNone(n - 1, p);
    }
  }

  lemma NothingKept(ms: seq<Message>, input: Input)
    requires forall m :: m in ms ==> m.ctxIds == []
    requires forall m :: !input.view.hubTask(m)
    ensures Handled(ms, input) == [] && Preserved(ms, input) == []
  {
    forall k | 0 <= k < |ms|
      ensures !Tracked(ms, input.ledger)(k)
    {
      assert KnownIds(ms[k].ctxIds, input.ledger) == [];
    }
    WhereNone(|ms|, Tracked(ms, input.ledger));
    var rest := Rest(ms, input);
    WhereNone(|rest|, LatestAt(rest, input.view));
  }

  /** The round on three plain messages that keeps one: a summary and the third message. */
  lemma SmallRound()
    ensures Cut([FIRST, SECOND, THIRD], 1) == Some(2)
    ensures var r := Replacement([FIRST, SECOND, THIRD], QuietInput());
            |r| == 2 && r[0].summary.Some? && r[1] == THIRD
  {
    hide SummaryHead, OpenState.Footer, NewState, NewSummary, Handled, Preserved;
    var h, input := [FIRST, SECOND, THIRD], QuietInput();
    assert WalkBack(h, 2) == 2;
    assert Cut(h, 1) == Some(2);
    var p, d := ReplacementParts(h, input);
    assert h[0..2] == [FIRST, SECOND];
    NothingKept([FIRST, SECOND], input);
    assert h[2..] == [THIRD];
    assert p.keep == [THIRD] && p.ledger == [] && p.tasks == [] && p.system == None;
    assert NoReminders([THIRD]) == [THIRD] && Reminders([THIRD]) == [];
    assert p.ledger + p.tasks + p.keep == [THIRD];
    assert Middle(p, d) == [];
  }

  lemma StampSmall(r: seq<Message>, pre: nat, post: nat)
    requires |r| == 2 && r[0].summary.Some?
    ensures Stamp(r, pre, post)[1] == r[1]
  {
  }

  /** A tool result right after a message that neither calls nor answers is an orphan. */
  lemma Orphan(h: seq<Message>)
    requires |h| >= 2 && h[|h| - 1].role == Tool
    requires !IsToolResult(h[|h| - 2]) && !HasToolCalls(h[|h| - 2])
    ensures !Paired(h)
  {
    var n := |h| - 1;
    forall j
      ensures !Owns(h, j, n)
    {
      assert j < n - 1 < n || j >= n - 1;
    }
  }

  lemma CallIsPaired(h: seq<Message>)
    requires |h| >= 2 && h[|h| - 2] == CALL && h[|h| - 1] == ANSWER
    requires forall i :: 0 <= i < |h| - 1 ==> h[i].role != Tool
    ensures Paired(h) && Paired(h[..|h| - 1])
  {
    assert Owns(h, |h| - 2, |h| - 1);
  }

  const RESET_RUN: seq<Event> :=
    [Start, Snapshot, Stage(QuietInput()), Reset([FIRST, SECOND, CALL], Some("session")), Append([ANSWER]), Apply]

  lemma PlayReset()
    ensures Play(Opening(), RESET_RUN).w.h
         == SwapIn([FIRST, SECOND, CALL, ANSWER], 3, Replacement([FIRST, SECOND, THIRD], QuietInput()))
  {
    hide Replacement, Cut, SwapIn, OperatorWords.AllWords, OperatorWords.AllOmitted;
    SmallRound();
    var s0 := Opening();
    var es := RESET_RUN;
    var s1 := Step(s0, Start);
    var s2 := Step(s1, Snapshot);
    var s3 := Step(s2, Stage(QuietInput()));
    var s4 := Step(s3, Reset([FIRST, SECOND, CALL], Some("session")));
    var s5 := Step(s4, Append([ANSWER]));
    var s6 := Step(s5, Apply);
    assert s5.w.h == [FIRST, SECOND, CALL, ANSWER];
    assert !Discards(s5);
    PlayOne(s0, es);
    PlayOne(s1, es[1..]);
    PlayOne(s2, es[2..]);
    PlayOne(s3, es[3..]);
    PlayOne(s4, es[4..]);
    PlayOne(s5, es[5..]);
    assert Play(s6, es[6..]) == s6;
  }

  lemma PlayOne(s: State, es: seq<Event>)
    requires es != []
    ensures Play(s, es) == Play(Step(s, es[0]), es[1..])
  {
  }

  /**
   * A reset within the session of a staged run, then growth past the baseline: the swap goes
   * through and parts a tool result from its call, though every history given was well shaped.
   */
  lemma ResetInPlaceOrphans()
    ensures !Paired(Play(Opening(), RESET_RUN).w.h)
    ensures Paired([FIRST, SECOND, THIRD]) && Paired([FIRST, SECOND, CALL]) && Paired([FIRST, SECOND, CALL, ANSWER])
  {
    hide Replacement, Play;
    PlayReset();
    SmallRound();
    var r := Replacement([FIRST, SECOND, THIRD], QuietInput());
    StampSmall(r, 4, 3);
    var h := SwapIn([FIRST, SECOND, CALL, ANSWER], 3, r);
    assert |h| == 3 && h[1] == THIRD && h[2] == ANSWER;
    Orphan(h);
    CallIsPaired([FIRST, SECOND, CALL, ANSWER]);
    assert [FIRST, SECOND, CALL, ANSWER][..3] == [FIRST, SECOND, CALL];
  }

  const OVERLAP_START: seq<Event> := [Start, Snapshot, Stage(QuietInput()), Start, Snapshot, Apply]
  const OVERLAP_END: seq<Event> := [Append([CALL]), Append([ANSWER]), Stage(QuietInput()), Apply]

  /** The first run is applied while the second, taken on the same history, is still under way. */
  lemma PlayOverlapStart()
    ensures var s := Play(Opening(), OVERLAP_START);
            && |s.w.h| == 2 && s.w.h[1] == THIRD && s.session == Some("session") && s.pending == None
            && s.job == Running(Flight([FIRST, SECOND, THIRD], Some("session"), [], false))
  {
    hide Replacement, Cut, Stamp, OperatorWords.AllWords, OperatorWords.AllOmitted;
    SmallRound();
    var h, r := [FIRST, SECOND, THIRD], Replacement([FIRST, SECOND, THIRD], QuietInput());
    var s1 := Step(Opening(), Start);
    var s2 := Step(s1, Snapshot);
    var s3 := Step(s2, Stage(QuietInput()));
    var s5 := Step(Step(s3, Start), Snapshot);
    assert s5.w.h == h && h[3..] == [] && !Discards(s5);
    StampSmall(r, 3, 2);
    var s6 := Step(s5, Apply);
    assert s6.w.h == Stamp(r, 3, 2);
    var es := OVERLAP_START;
    PlayOne(Opening(), es);
    PlayOne(s1, es[1..]);
    PlayOne(s2, es[2..]);
    PlayOne(s3, es[3..]);
    PlayOne(Step(s3, Start), es[4..]);
    PlayOne(s5, es[5..]);
    assert Play(s6, es[6..]) == s6;
  }

  lemma PlayOverlapEnd(s: State)
    requires |s.w.h| == 2 && s.w.h[1] == THIRD && s.session == Some("session") && s.pending == None
    requires s.job == Running(Flight([FIRST, SECOND, THIRD], Some("session"), [], false))
    ensures Play(s, OVERLAP_END).w.h
            == SwapIn(s.w.h + [CALL, ANSWER], 3, Replacement([FIRST, SECOND, THIRD], QuietInput()))
  {
    hide Replacement, Cut, SwapIn, OperatorWords.AllWords, OperatorWords.AllOmitted;
    SmallRound();
    var s1 := Step(s, Append([CALL]));
    var s2 := Step(s1, Append([ANSWER]));
    var s3 := Step(s2, Stage(QuietInput()));
    assert s3.w.h == s.w.h + [CALL, ANSWER];
    assert !Discards(s3);
    var s4 := Step(s3, Apply);
    var es := OVERLAP_END;
    PlayOne(s, es);
    PlayOne(s1, es[1..]);
    PlayOne(s2, es[2..]);
    PlayOne(s3, es[3..]);
    assert Play(s4, es[4..]) == s4;
  }

  lemma StaleStageOrphans(s: State)
    requires |s.w.h| == 2 && s.w.h[1] == THIRD && s.session == Some("session") && s.pending == None
    requires s.job == Running(Flight([FIRST, SECOND, THIRD], Some("session"), [], false))
    ensures !Paired(Play(s, OVERLAP_END).w.h)
  {
    hide Replacement, Play;
    PlayOverlapEnd(s);
    SmallRound();
    var r := Replacement([FIRST, SECOND, THIRD], QuietInput());
    StampSmall(r, 4, 3);
    var t := SwapIn(s.w.h + [CALL, ANSWER], 3, r);
    assert |t| == 3 && t[1] == THIRD && t[2] == ANSWER;
    Orphan(t);
  }

  /** A second run started while one is staged does the same: its stale baseline cuts the call off. */
  lemma OverlappingRunsOrphan()
    ensures !Paired(Play(Play(Opening(), OVERLAP_START), OVERLAP_END).w.h)
  {
    hide Replacement, Play;
    PlayOverlapStart();
    StaleStageOrphans(Play(Opening(), OVERLAP_START));
  }

  function QuietRequest(): Rollover.Request {
    Rollover.Request(1, TaskView(m => false, {}), m => false, 1, 0, t => {})
  }

  /** The rollover of three plain messages that keeps one: a summary and the third message. */
  lemma SmallRoll()
    ensures var r := Rollover.Rolled([FIRST, SECOND, THIRD], QuietRequest()); |r| == 2 && r[1] == THIRD
  {
    hide Rollover.Rolled, Rollover.RollParts, SwappedSummary, WellFormed, Chosen, Rollover.ShortenAll, ReminderText;
    var h, r := [FIRST, SECOND, THIRD], QuietRequest();
    PlainIsFormed(h);
    assert WalkBack(h, 2) == 2;
    assert SplitPoint(h, 1) == Some(2) && Rollover.RawSplit(h, 1) == 2;
    var p, d := Rollover.RollLayout(h, r);
    Rollover.RollTasks(h, r);
    Rollover.KeepIsShortened(h, r);
    assert h[2..] == [THIRD];
    ThirdIsShort();
    NoTasks(h, r.view);
    assert NoReminders([THIRD]) == [THIRD] && Reminders([THIRD]) == [];
    assert p.ledger + p.tasks + p.keep == [THIRD];
    assert Middle(p, d) == [];
  }

  lemma ThirdIsShort()
    ensures Rollover.ShortenAll([THIRD]) == [THIRD]
  {
    assert Rollover.Shortened(THIRD) == THIRD;
  }

  lemma PlainIsFormed(h: seq<Message>)
    requires forall m :: m in h ==> m == FIRST || m == SECOND || m == THIRD
    ensures AllWellFormed(h)
  {
  }

  lemma NoTasks(h: seq<Message>, view: TaskView)
    requires forall m :: !view.hubTask(m)
    ensures ExcerptAll(Pick(h, Chosen(h, view))) == []
  {
    WhereNone(|h|, LatestAt(h, view));
  }

  const ROLL_START: seq<Event> := [Start, Snapshot, Roll(QuietRequest())]

  /** A rollover replaces the history while a run taken on it is still under way. */
  lemma PlayRollStart()
    ensures var s := Play(Opening(), ROLL_START);
            && |s.w.h| == 2 && s.w.h[1] == THIRD && s.session == Some("session") && s.pending == None
            && s.job == Running(Flight([FIRST, SECOND, THIRD], Some("session"), [], false))
  {
    hide Replacement, Cut, Rollover.Rolled, OperatorWords.AllWords, OperatorWords.AllOmitted;
    SmallRoll();
    var s1 := Step(Opening(), Start);
    var s2 := Step(s1, Snapshot);
    var s3 := Step(s2, Roll(QuietRequest()));
    var es := ROLL_START;
    PlayOne(Opening(), es);
    PlayOne(s1, es[1..]);
    PlayOne(s2, es[2..]);
    assert Play(s3, es[3..]) == s3;
  }

  /** So does a rollover under a run: the run's stage, applied later, cuts the call off. */
  lemma RollUnderRunOrphans()
    ensures !Paired(Play(Play(Opening(), ROLL_START), OVERLAP_END).w.h)
  {
    hide Replacement, Play;
    PlayRollStart();
    StaleStageOrphans(Play(Opening(), ROLL_START));
  }

  // ---------------------------------------------------------------- operator words

  const SAID: Message := Plain(User, "said").(operatorInputs := [Record("user", "noon", "do it")])

  const FORGET_RUN: seq<Event> :=
    [Start, Snapshot, Stage(QuietInput()), Reset([SAID, SECOND, THIRD], Some("session")), Apply]

  lemma PlayForget()
    ensures Play(Opening(), FORGET_RUN).w.h == Swapped([SAID, SECOND, THIRD], [FIRST, SECOND, THIRD], QuietInput())
  {
    hide Replacement, Cut, Stamp, OperatorWords.AllWords, OperatorWords.AllOmitted;
    SmallRound();
    var es := FORGET_RUN;
    var s1 := Step(Opening(), Start);
    var s2 := Step(s1, Snapshot);
    var s3 := Step(s2, Stage(QuietInput()));
    var s4 := Step(s3, Reset([SAID, SECOND, THIRD], Some("session")));
    assert !Discards(s4);
    var s5 := Step(s4, Apply);
    PlayOne(Opening(), es);
    PlayOne(s1, es[1..]);
    PlayOne(s2, es[2..]);
    PlayOne(s3, es[3..]);
    PlayOne(s4, es[4..]);
    assert Play(s5, es[5..]) == s5;
  }

  lemma OneSaid()
    ensures WordCount([SAID, SECOND, THIRD]) == 1 && WordCount([FIRST, SECOND, THIRD]) == 0 && WordCount([]) == 0
  {
    hide OperatorWords.AllWords, OperatorWords.AllOmitted;
    OperatorWords.NoWords([]);
    OperatorWords.NoWords([FIRST, SECOND, THIRD]);
    OperatorWords.NoWords([SECOND, THIRD]);
    assert [SAID, SECOND, THIRD] == [SAID] + [SECOND, THIRD];
    OperatorWords.CollectConcat([SAID], [SECOND, THIRD]);
    OneWord(SAID);
    assert OperatorWords.TrustedOnly(SAID.operatorInputs) == SAID.operatorInputs;
  }

  lemma NothingVerbatim()
    ensures Cut([FIRST, SECOND, THIRD], 1).Some?
    ensures OperatorWords.Inputs(KeptVerbatim([FIRST, SECOND, THIRD], QuietInput())) == []
  {
    hide RoundParts, Handled, Preserved, Drops, Cut, Tasks, Replacement, QuietInput, OperatorWords.Inputs;
    SmallRound();
    var h, input := [FIRST, SECOND, THIRD], QuietInput();
    QuietKeeps();
    assert Round.Start(h) == 0 && h[0..2] == [FIRST, SECOND];
    PartsWords(h, 2, input);
    NoTasksAtAll(RoundParts(h, 2, input));
    OperatorWords.NoInputs([]);
    assert KeptVerbatim(h, input) == [] + [];
  }

  lemma QuietKeeps()
    ensures QuietInput().keep == 1
    ensures Handled([FIRST, SECOND], QuietInput()) == [] && Preserved([FIRST, SECOND], QuietInput()) == []
  {
    NothingKept([FIRST, SECOND], QuietInput());
  }

  lemma NoTasksAtAll(p: Parts)
    requires p.tasks == []
    ensures Tasks(p) == []
  {
  }

  /** The reset of a staged run's session again: the record the new history opens with is gone for good. */
  lemma ResetInPlaceForgets()
    ensures WordCount([SAID, SECOND, THIRD]) == 1 && WordCount(Play(Opening(), FORGET_RUN).w.h) == 0
  {
    hide Swapped, Play, KeptVerbatim, Cut, WordCount;
    PlayForget();
    OneSaid();
    NothingVerbatim();
    PlainIsFormed([FIRST, SECOND, THIRD]);
    SwapWordCount([SAID, SECOND, THIRD], [FIRST, SECOND, THIRD], QuietInput());
    assert [SAID, SECOND, THIRD][3..] == [];
  }
}
