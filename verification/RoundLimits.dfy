/** Small inputs on which a round or a rollover does what it should not. */
module RoundLimits {
  import opened Options
  import opened Messages
  import opened ToolGroups
  import opened OperatorWords
  import opened OperatorBlocks
  import opened OpenState
  import opened EvidenceTokens
  import opened CompactedHistory
  import opened Routing
  import opened Round
  import opened RoundEffects
  import Rollover
  import RoundBuilder
  import StagingLimits
  import Text

  // ---------------------------------------------------------------- records counted twice

  const SPOKEN: Record := Record("user", "noon", "keep this")
  const TRACKED: Message := Plain(User, "tracked").(ctxIds := ["c"], operatorInputs := [SPOKEN])
  const OTHER: Message := Plain(User, "other")
  const LATEST: Message := Plain(User, "latest")

  /** The ledger keeps the tracked message. */
  function KeepingInput(): Input {
    Input(1, map["c" := Entry(Keep, "")], TaskView(m => false, {}), "", 1, 0, t => {})
  }

  lemma TrackedIsKept()
    ensures TRACKED in Handled([TRACKED, OTHER], KeepingInput())
  {
    hide SummaryLines;
    var prior, ledger := [TRACKED, OTHER], KeepingInput().ledger;
    assert ["c"][1..] == [];
    assert KnownIds(["c"], ledger) == ["c"];
    assert Judge(TRACKED, ledger) == Verbatim;
    WhereMembers(2, Tracked(prior, ledger), 0);
    var at := Where(2, Tracked(prior, ledger));
    var a :| 0 <= a < |at| && at[a] == 0;
    assert Handled(prior, KeepingInput())[a] == Handle(TRACKED, ledger);
  }

  lemma {:induction false} InputsOfMember(h: seq<Message>, m: Message)
    requires m in h
    ensures |Inputs(h)| >= |TrustedOnly(m.operatorInputs)|
  {
    hide TrustedOnly;
    if h[0] != m {
      InputsOfMember(h[1..], m);
    }
  }

  /** A message the ledger keeps carries a record: after the round that record is accounted for twice. */
  lemma KeptRecordCountsTwice()
    ensures var h := [TRACKED, OTHER, LATEST];
            && Cut(h, 1) == Some(2) && AllWellFormed(h)
            && WordCount(Swapped(h, h, KeepingInput())) > WordCount(h)
  {
    hide Swapped, RoundParts, Handled, WordCount, Drops, Tasks, AllWords;
    var h, input := [TRACKED, OTHER, LATEST], KeepingInput();
    assert WalkBack(h, 2) == 2;
    KeptWordsCountTwice(h, h, input);
    assert h[Start(h)..2] == [TRACKED, OTHER];
    TrackedIsKept();
    assert TRACKED in KeptVerbatim(h, input);
    InputsOfMember(KeptVerbatim(h, input), TRACKED);
    assert TrustedOnly([SPOKEN]) == [SPOKEN];
  }

  // ---------------------------------------------------------------- an issue number cut short

  /** ASCII letters, digits and the underscore. */
  function Ascii(): Lexicon {
    Lexicon(c => 'a' <= c <= 'z' || 'A' <= c <= 'Z' || '0' <= c <= '9' || c == '_', c => '0' <= c <= '9')
  }

  function AsciiTokens(): string -> set<string> {
    t => Tokens(Ascii(), t)
  }

  /** Filler that puts the cut between the two digits. */
  function Filler(): string {
    seq(7977, i => 'x')
  }

  function LongSummary(): Message {
    Plain(User, Filler() + "\n\n" + Footer("#12")).(summary := Some(SummaryMeta([], 0, 1, 0, 0)))
  }

  const PROMPT: Message := Plain(System, "prompt")
  const REQUEST: Message := Plain(User, "go on")

  function ShortHistory(): seq<Message> {
    [PROMPT, LongSummary(), REQUEST]
  }

  function CuttingRequest(): Rollover.Request {
    Rollover.Request(4, TaskView(m => false, {}), m => true, 1, 0, AsciiTokens())
  }

  /** A tidy line as a state: it parses back from under any text. */
  lemma LineAsState(head: string, l: string)
    requires Tidy(l) && l != OPEN_STATE_MARKER && l != END_OPEN_STATE_MARKER
    ensures Footer(l) == OPEN_STATE_MARKER + ("\n" + l)
    ensures SplitOpenState(head + "\n\n" + Footer(l)).state == Some(l)
  {
    hide SplitOpenState, Tidy, Text.Strip, OPEN_STATE_MARKER, END_OPEN_STATE_MARKER;
    assert GoodLines([l]) && Text.Join("\n", [l]) == l;
    FooterIsJoin([l], OPEN_STATE_MARKER);
    assert ([OPEN_STATE_MARKER] + [l])[1..] == [l];
    assert Text.Join("\n", [OPEN_STATE_MARKER] + [l]) == OPEN_STATE_MARKER + "\n" + l;
    FooterRoundTrip(head, l);
  }

  lemma CutText(head: string, mark: string, a: string, b: string, tail: string)
    ensures var text := head + "\n\n" + (mark + ("\n" + (a + b)));
            text[..|head| + 3 + |mark| + |a|] + tail == head + "\n\n" + (mark + ("\n" + (a + tail)))
  {
    var text := head + "\n\n" + (mark + ("\n" + (a + b)));
    var front := head + "\n\n" + (mark + ("\n" + a));
    assert text == front + b;
    assert text[..|front|] == front;
  }

  function CutLine(): string {
    "#1" + Rollover.TRUNCATED
  }

  lemma NumberIsTidy()
    ensures Tidy("#12") && "#12" != OPEN_STATE_MARKER && "#12" != END_OPEN_STATE_MARKER
  {
    assert "#12"[0] == '#';
  }

  lemma TruncatedHasNoBreaks()
    ensures forall i :: 0 <= i < |Rollover.TRUNCATED| ==> !Text.IsBreak(Rollover.TRUNCATED[i])
    ensures Rollover.TRUNCATED != "" && !Text.IsSpace(Rollover.TRUNCATED[|Rollover.TRUNCATED| - 1])
  {
  }

  lemma CutLineIsTidy()
    ensures Tidy(CutLine()) && CutLine() != OPEN_STATE_MARKER && CutLine() != END_OPEN_STATE_MARKER
  {
    hide Rollover.TRUNCATED;
    TruncatedHasNoBreaks();
    var l, t := CutLine(), Rollover.TRUNCATED;
    assert l[0] == '#' && l[1] == '1' && l[|l| - 1] == t[|t| - 1];
    forall i | 0 <= i < |l|
      ensures !Text.IsBreak(l[i])
    {
      assert i >= 2 ==> l[i] == t[i - 2];
    }
  }

  /** The rollover cuts the number of the state in two. */
  lemma CutSummary()
    ensures |LongSummary().content| > Rollover.MAX_ROLLOVER_MESSAGE_CHARS
    ensures StateOf(LongSummary()) == Some("#12")
    ensures StateOf(Rollover.Shortened(LongSummary())) == Some(CutLine())
  {
    hide SplitOpenState, CutLine, Footer, Tidy, OPEN_STATE_MARKER, END_OPEN_STATE_MARKER;
    NumberIsTidy();
    CutLineIsTidy();
    LineAsState(Filler(), "#12");
    LineAsState(Filler(), CutLine());
    CutText(Filler(), OPEN_STATE_MARKER, "#1", "2", Rollover.TRUNCATED);
    assert "#1" + "2" == "#12";
    MarkerLength();
    CutLineParts();
  }

  lemma MarkerLength()
    ensures |OPEN_STATE_MARKER| == 18
  {
  }

  lemma CutLineParts()
    ensures CutLine() == "#1" + Rollover.TRUNCATED
  {
  }

  lemma NoMatchWithoutSign(t: string)
    requires '#' !in t
    ensures "#1" !in Tokens(Ascii(), t)
  {
    hide Matches;
    TooShortForCommit(t);
    forall x | x in Matches(IssuePattern(Ascii()), t)
      ensures x != "#1"
    {
      MatchIsSlice(IssuePattern(Ascii()), t, x);
    }
  }

  lemma MatchIsSlice(p: Pattern, t: string, x: string)
    requires x in Matches(p, t)
    ensures exists i, j :: 0 <= i < j <= |t| && MatchAt(p, t, i, j) && t[i..j] == x
    ensures forall c :: c in x ==> c in t
  {
  }

  lemma TooShortForCommit(t: string)
    ensures "#1" !in set x | x in Matches(CommitPattern(), t) :: Lower(x)
  {
    forall x | x in Matches(CommitPattern(), t)
      ensures |Lower(x)| >= 7
    {
    }
  }

  /** #1 is not a token of "#12", and it is one of what the cut leaves. */
  lemma CutMakesToken()
    ensures "#1" !in Tokens(Ascii(), "#12")
    ensures "#1" in Tokens(Ascii(), CutLine())
  {
    var issue, t := IssuePattern(Ascii()), CutLine();
    TooShortForCommit("#12");
    forall i, j | 0 <= i < j <= 3 && MatchAt(issue, "#12", i, j)
      ensures "#12"[i..j] != "#1"
    {
      assert "#12"[i..j][0] == "#12"[i];
    }
    assert t[0..2] == "#1" && t[2] == '\U{2026}';
    assert MatchAt(issue, t, 0, 2);
  }

  /**
   * A short conversation with a long summary: the rollover keeps the summary, cuts its OPEN STATE
   * after #1, and so names an issue that no message and no state ever named.
   */
  lemma CutInventsIssue()
    ensures var h, r := ShortHistory(), CuttingRequest();
            && |h| >= 3 && AllWellFormed(h) && Distributes(r.tokens)
            && !Mentioned(h, r.tokens, "#1") && !InState(h, r.tokens, "#1")
            && InState(Rollover.Rolled(h, r), r.tokens, "#1")
  {
    hide Rollover.Rolled, LongSummary, Tokens, StateOf, CutLine, Rollover.Shortened;
    var h, r := ShortHistory(), CuttingRequest();
    TokensDistribute(Ascii());
    LongSummaryForm();
    CutSummary();
    CutMakesToken();
    NoMatchWithoutSign("go on");
    assert Distributes(r.tokens);
    assert Rollover.RawSplit(h, 4) == 1;
    assert Rollover.CutsAt(h, r, 1);
    assert Rollover.Yields(h, r, "#1");
    Rollover.RollInventsIff(h, r, "#1");
  }

  lemma LongSummaryForm()
    ensures WellFormed(LongSummary()) && LongSummary().summary.Some? && LongSummary().role == User
  {
    hide Footer;
  }

  // ---------------------------------------------------------------- rollovers

  const CALLS: Message := Plain(Assistant, "calling").(toolCalls := ["a", "b", "c", "d"])

  function Answer(id: string): Message {
    Plain(Tool, "answer").(toolCallId := Some(id))
  }

  function OneGroup(): seq<Message> {
    [OTHER, CALLS, Answer("a"), Answer("b"), Answer("c"), Answer("d")]
  }

  /** The raw count cuts one group of a call and four results between the call and its results. */
  lemma RawCountOrphans()
    ensures var h, r := OneGroup(), CuttingRequest();
            && |h| >= 3 && Paired(h) && SplitPoint(h, 4) == Some(1) && Rollover.RawSplit(h, r.keep) == 2
            && !Paired(Rollover.Rolled(h, r))
  {
    hide Rollover.Rolled, Tokens, Paired;
    var h, r := OneGroup(), CuttingRequest();
    GroupIsPaired();
    GroupIsFormed();
    assert WalkBack(h, 2) == 1;
    Rollover.RollOnResultOrphans(h, r);
  }

  lemma GroupIsFormed()
    ensures AllWellFormed(OneGroup())
  {
  }

  lemma GroupIsPaired()
    ensures Paired(OneGroup())
  {
    var h := OneGroup();
    assert Owns(h, 1, 2);
    assert Owns(h, 1, 3);
    assert Owns(h, 1, 4);
    assert Owns(h, 1, 5);
    forall i | 0 <= i < |h| && h[i].role == Tool
      ensures exists j :: Owns(h, j, i)
    {
      assert i == 2 || i == 3 || i == 4 || i == 5;
    }
  }

  /** Without a system prompt, what the operator said first is forgotten. */
  lemma FirstWordsForgotten()
    ensures var h, r := [TRACKED, OTHER, LATEST], CuttingRequest();
            WordCount(Rollover.Rolled(h, r)) < WordCount(h)
  {
    hide Rollover.Rolled, Rollover.RollParts, Tokens, Inputs, WellFormed, Drops, WordCount;
    var h, r := [TRACKED, OTHER, LATEST], CuttingRequest();
    ThreeAreFormed();
    Rollover.RollWordCount(h, r);
    Rollover.RollTasks(h, r);
    StagingLimits.NoTasks(h, r.view);
    NoInputs([]);
    assert h[..1] == [TRACKED];
    TrackedSaysSomething();
  }

  lemma ThreeAreFormed()
    ensures AllWellFormed([TRACKED, OTHER, LATEST])
  {
  }

  lemma TrackedSaysSomething()
    ensures WordCount([TRACKED]) > 0
  {
    hide AllWords, AllOmitted;
    OneWord(TRACKED);
    assert TrustedOnly([SPOKEN]) == [SPOKEN];
  }

  // ---------------------------------------------------------------- a coordination block lost

  predicate NoQuote(s: string) {
    '\'' !in s
  }

  /** The one apostrophe of the opening marker, and what stands ten places before it. */
  lemma MarkerForm()
    ensures |OPERATOR_WORDS_MARKER| > 12 && OPERATOR_WORDS_MARKER[2] == '='
    ensures forall j :: 0 <= j < |OPERATOR_WORDS_MARKER| && OPERATOR_WORDS_MARKER[j] == '\'' ==> j == 12
  {
    var x, y := "=== OPERATOR'S OWN WORDS ", "(verbatim, oldest first) ===";
    assert |x| == 25 && x[2] == '=' && NoQuote(y);
    assert forall j :: 0 <= j < |x| && x[j] == '\'' ==> j == 12;
    forall j | 0 <= j < |OPERATOR_WORDS_MARKER| && j != 12
      ensures OPERATOR_WORDS_MARKER[j] != '\''
    {
      if j >= 25 {
        assert OPERATOR_WORDS_MARKER[j] == y[j - 25];
      }
    }
  }

  lemma ClosingForm()
    ensures |OPERATOR_WORDS_END_MARKER| > 16 && OPERATOR_WORDS_END_MARKER[16] == '\''
            && OPERATOR_WORDS_END_MARKER[6] == 'D'
  {
  }

  /** With one apostrophe in the text, the closing marker has to lie around it. */
  lemma OneQuote(a: string, m: string, b: string, e: string, i: int)
    requires NoQuote(a) && NoQuote(b) && |e| > 16 && e[16] == '\'' && OccursAt(a + m + b, e, i)
    requires |m| > 12 && forall j :: 0 <= j < |m| && m[j] == '\'' ==> j == 12
    ensures i == |a| - 4 && m[2] == e[6]
  {
    var text := a + m + b;
    assert text[i + 16] == text[i..i + |e|][16] && text[i + 6] == text[i..i + |e|][6];
    forall j | 0 <= j < |text| && j != |a| + 12
      ensures text[j] != '\''
    {
      if j < |a| {
        assert text[j] == a[j];
      } else if j < |a| + |m| {
        assert text[j] == m[j - |a|];
      } else {
        assert text[j] == b[j - |a| - |m|];
      }
    }
    assert text[|a| + 2] == m[2];
  }

  /** The closing marker is not in a text whose one apostrophe is that of the opening marker. */
  lemma NotClosed(a: string, b: string)
    requires NoQuote(a) && NoQuote(b)
    ensures !Occurs(a + OPERATOR_WORDS_MARKER + b, OPERATOR_WORDS_END_MARKER)
  {
    hide OPERATOR_WORDS_MARKER, OPERATOR_WORDS_END_MARKER;
    MarkerForm();
    ClosingForm();
    forall i
      ensures !OccursAt(a + OPERATOR_WORDS_MARKER + b, OPERATOR_WORDS_END_MARKER, i)
    {
      if OccursAt(a + OPERATOR_WORDS_MARKER + b, OPERATOR_WORDS_END_MARKER, i) {
        OneQuote(a, OPERATOR_WORDS_MARKER, b, OPERATOR_WORDS_END_MARKER, i);
      }
    }
  }

  const CONTROL: string := "[hub] go: merge the branch"
  const WRITTEN: string := "All is well."

  /** What follows the model's notes in the summary text. */
  function AfterNotes(): string {
    RoundBuilder.NOTES_TAIL + "\n\n" + RoundBuilder.CoordinationBlock([CONTROL]) + "\n\n" + WRITTEN
  }

  function NotesCarryMarker(): Input {
    KeepingInput().(summary := RoundBuilder.SummaryText([CONTROL], WRITTEN, OPERATOR_WORDS_MARKER))
  }

  lemma NoQuotesInHead()
    ensures NoQuote(RoundBuilder.NOTES_HEAD)
  {
    var a, b := "=== YOUR NOTES (written by you ", "before compaction, verbatim) ===\n";
    assert NoQuote(a) && NoQuote(b);
  }

  lemma NoQuotesInBlock()
    ensures NoQuote(RoundBuilder.COORDINATION_HEAD)
  {
    var a, b := "=== COORDINATION STATE ", "(verbatim, machine-extracted) ===\n";
    assert NoQuote(a) && NoQuote(b);
  }

  lemma NoQuotesInTails()
    ensures NoQuote(RoundBuilder.COORDINATION_TAIL) && NoQuote(RoundBuilder.NOTES_TAIL)
    ensures NoQuote(CONTROL) && NoQuote(WRITTEN) && NoQuote("\n\n")
  {
  }

  lemma NoQuotesAfter()
    ensures NoQuote(AfterNotes())
  {
    hide RoundBuilder.COORDINATION_HEAD, RoundBuilder.COORDINATION_TAIL, RoundBuilder.NOTES_TAIL, CONTROL, WRITTEN,
         Text.Join;
    JoinOfOne(CONTROL);
    NoQuotesInBlock();
    NoQuotesInTails();
  }

  lemma HeadIsShorter()
    ensures |RoundBuilder.NOTES_HEAD| < |RoundBuilder.CoordinationBlock([CONTROL])|
  {
    hide Text.Join;
    assert |RoundBuilder.NOTES_HEAD| == 64;
    assert |RoundBuilder.COORDINATION_HEAD| == 57;
    assert |RoundBuilder.COORDINATION_TAIL| == 31;
  }

  lemma JoinOfOne(s: string)
    ensures Text.Join("\n---\n", [s]) == s
  {
  }

  lemma MarkedText()
    ensures NotesCarryMarker().summary == RoundBuilder.NOTES_HEAD + OPERATOR_WORDS_MARKER + AfterNotes()
  {
    hide OPERATOR_WORDS_MARKER, RoundBuilder.CoordinationBlock, RoundBuilder.NOTES_HEAD, RoundBuilder.NOTES_TAIL,
         WRITTEN;
    BlocksAreNotEmpty();
  }

  lemma BlocksAreNotEmpty()
    ensures OPERATOR_WORDS_MARKER != "" && RoundBuilder.CoordinationBlock([CONTROL]) != "" && WRITTEN != ""
    ensures RoundBuilder.NOTES_HEAD != "" && OPERATOR_WORDS_END_MARKER != ""
  {
  }

  /**
   * Notes that quote the operator-words marker and do not close it: the coordination block after them
   * does not reach the summary.
   */
  lemma NotesLoseCoordination()
    ensures !Occurs(NewSummary(NotesCarryMarker()), RoundBuilder.CoordinationBlock([CONTROL]))
  {
    hide OPERATOR_WORDS_MARKER, OPERATOR_WORDS_END_MARKER, RoundBuilder.NOTES_HEAD, AfterNotes, NotesCarryMarker,
         RoundBuilder.CoordinationBlock, SplitOpenState, Text.RStrip;
    var input, head := NotesCarryMarker(), RoundBuilder.NOTES_HEAD;
    MarkedText();
    NoQuotesInHead();
    NoQuotesAfter();
    HeadIsShorter();
    NotClosed(head, AfterNotes());
    BlocksAreNotEmpty();
    var text := input.summary;
    assert text[|head|..|head| + |OPERATOR_WORDS_MARKER|] == OPERATOR_WORDS_MARKER;
    assert OccursAt(text, OPERATOR_WORDS_MARKER, |head|);
    UnclosedCuts(text, OPERATOR_WORDS_MARKER, OPERATOR_WORDS_END_MARKER, |head|);
    TextSurvivesIff(input);
  }
}
