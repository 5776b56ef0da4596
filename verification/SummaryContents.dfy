/** What the messages a round writes say: the summary with its operator words, and the task reminder. */
module SummaryContents {
  import opened Options
  import opened Messages
  import opened Text
  import opened OperatorWords
  import opened OperatorBlocks
  import opened JoinedLines
  import opened OpenState
  import opened CompactedHistory
  import opened Round
  import opened RoundEffects
  import opened RoundState
  import RoundBuilder
  import Rollover

  // ---------------------------------------------------------------- the summary message

  /** The opening of a summary message: the summary, a note on dropped tasks, and the invitation to go on. */
  function Opening(summary: string, d: nat): string {
    SUMMARY_INJECTION_PREFIX + (if d == 0 then RStrip(summary) else summary + DropNote(d)) + SUMMARY_INJECTION_SUFFIX
  }

  lemma NoteEndsText(s: string, d: nat)
    requires d > 0
    ensures RStrip(s + DropNote(d)) == s + DropNote(d)
  {
    hide Decimal, DROPPED;
    var t := s + DropNote(d);
    assert t[|t| - 1] == DROPPED_TASKS[|DROPPED_TASKS| - 1] == ']';
  }

  lemma NoDropNote(s: string)
    ensures s + DropNote(0) == s
  {
  }

  lemma OpeningText(s: string, d: nat)
    ensures SUMMARY_INJECTION_PREFIX + RStrip(s + DropNote(d)) + SUMMARY_INJECTION_SUFFIX == Opening(s, d)
  {
    hide DropNote, RStrip, SUMMARY_INJECTION_PREFIX, SUMMARY_INJECTION_SUFFIX;
    if d == 0 {
      NoDropNote(s);
    } else {
      NoteEndsText(s, d);
    }
  }

  /** Whatever its other parts, a summary message opens with its summary. */
  lemma OpensWithSummary(p: Parts, d: nat, n: nat)
    ensures Opening(p.summary, d) <= SummaryMessage(p, d, n).content
  {
    hide Opening, DropNote, OperatorBlock, Footer, RStrip, SUMMARY_INJECTION_PREFIX, SUMMARY_INJECTION_SUFFIX;
    OpeningText(p.summary, d);
  }

  /** A record as the operator's own words show it: its time, its source and its whole text. */
  function RecordLine(r: Record): string {
    "[" + r.timestamp + " | " + r.source + "] " + r.text
  }

  function RecordTexts(rs: seq<Record>): (ts: seq<string>)
    ensures |ts| == |rs| && forall i :: 0 <= i < |rs| ==> ts[i] == RecordLine(rs[i])
  {
    seq(|rs|, i requires 0 <= i < |rs| => RecordLine(rs[i]))
  }

  lemma {:induction false} RecordLinesAre(rs: seq<Record>)
    ensures RecordLines(rs) == RecordTexts(rs)
  {
    if rs != [] {
      RecordLinesAre(rs[1..]);
      assert RecordTexts(rs) == [RecordLine(rs[0])] + RecordTexts(rs[1..]);
    }
  }

  /** The operator block shows every record, in order. */
  lemma BlockShowsRecords(rs: seq<Record>, omitted: nat) returns (at: seq<nat>)
    ensures InOrder(OperatorBlock(rs, omitted), RecordTexts(rs), 0, at)
    ensures rs != [] ==> OperatorBlock(rs, omitted) != ""
  {
    hide Join, OccursAt, OPERATOR_WORDS_MARKER, OPERATOR_WORDS_END_MARKER, Decimal;
    if rs == [] {
      at := [];
    } else {
      var note := if omitted == 0 then []
                  else ["[" + Decimal(omitted) + " older operator messages omitted by the preservation limit.]"];
      var front := [OPERATOR_WORDS_MARKER] + note;
      var lines := front + RecordLines(rs) + [OPERATOR_WORDS_END_MARKER];
      RecordLinesAre(rs);
      assert lines[|front|..|front| + |rs|] == RecordTexts(rs);
      at := LinesInOrder(lines, |front|, |front| + |rs|);
      assert OccursAt(OperatorBlock(rs, omitted), RecordLine(rs[0]), at[0]);
      NothingInEmpty(RecordLine(rs[0]), at[0]);
    }
  }

  lemma NothingInEmpty(pat: string, i: nat)
    requires pat != ""
    ensures !OccursAt("", pat, i)
  {
  }

  /** And it says how many more there were. */
  lemma BlockShowsOmissions(rs: seq<Record>, omitted: nat)
    requires omitted > 0
    ensures Occurs(OperatorBlock(rs, omitted),
            "[" + Decimal(omitted) + " older operator messages omitted by the preservation limit.]")
  {
    hide Join, OccursAt, OPERATOR_WORDS_MARKER, OPERATOR_WORDS_END_MARKER, Decimal, RecordLines;
    var note := "[" + Decimal(omitted) + " older operator messages omitted by the preservation limit.]";
    var lines := [OPERATOR_WORDS_MARKER] + [note] + RecordLines(rs) + [OPERATOR_WORDS_END_MARKER];
    JoinHolds(lines, 1);
  }

  lemma ContentParts(p: Parts, d: nat, n: nat)
    requires OperatorBlock(p.records, AtLeastZero(p.omitted)) != ""
    ensures SummaryMessage(p, d, n).content
         == Opening(p.summary, d) + "\n\n" + OperatorBlock(p.records, AtLeastZero(p.omitted))
             + ("\n\n" + Footer(p.state))
  {
    hide Opening, DropNote, OperatorBlock, Footer, RStrip, SUMMARY_INJECTION_PREFIX, SUMMARY_INJECTION_SUFFIX;
    OpeningText(p.summary, d);
  }

  /** After its opening a summary message shows every record it carries, in order. */
  lemma ShowsRecords(p: Parts, d: nat, n: nat) returns (at: seq<nat>)
    ensures InOrder(SummaryMessage(p, d, n).content, RecordTexts(p.records), |Opening(p.summary, d)|, at)
  {
    hide SummaryMessage, Opening, OperatorBlock, Footer, OccursAt, RecordTexts;
    if p.records == [] {
      at := [];
      NoTexts();
    } else {
      at := BlockShowsRecords(p.records, AtLeastZero(p.omitted));
      var front, block := Opening(p.summary, d) + "\n\n", OperatorBlock(p.records, AtLeastZero(p.omitted));
      at := ShiftInOrder(front, block, "\n\n" + Footer(p.state), RecordTexts(p.records), at);
      ContentParts(p, d, n);
    }
  }

  lemma NoTexts()
    ensures RecordTexts([]) == []
  {
  }

  // ---------------------------------------------------------------- the task reminder

  /** The start of a task, with a sign that there is more. */
  function Preview(content: string): string {
    if |content| > 200 then content[..200] + "..." else content
  }

  /** One task as the reminder shows it: its number, its sender and its start. */
  function ReminderLine(task: Message, k: nat): string {
    "  " + Decimal(k) + ". From " + task.hubFrom + ": " + Preview(task.content)
  }

  lemma {:induction false} ReminderLinesAre(tasks: seq<Message>, from: nat, i: nat)
    requires i < |tasks|
    ensures |ReminderLines(tasks, from)| == |tasks|
    ensures ReminderLines(tasks, from)[i] == ReminderLine(tasks[i], from + i)
  {
    hide Decimal;
    if |tasks| > 1 {
      ReminderLinesAre(tasks[1..], from + 1, if i == 0 then 0 else i - 1);
    } else {
      assert ReminderLines(tasks[1..], from + 1) == [];
    }
  }

  /** The reminder names every task it stands for: its number, its sender and its first 200 characters. */
  lemma RemindsOfEach(tasks: seq<Message>, i: nat)
    requires i < |tasks|
    ensures Occurs(ReminderText(tasks), ReminderLine(tasks[i], i + 1))
  {
    hide Join, OccursAt, Decimal, ReminderLines, ReminderLine, REMINDER_HEAD, REMINDER_FOOT;
    ReminderLinesAre(tasks, 1, i);
    LineOccurs(REMINDER_HEAD, ReminderLines(tasks, 1), REMINDER_FOOT, i);
  }

  // ---------------------------------------------------------------- after a swap

  /**
   * The leading summary of a swapped history: it opens with what the round made of the summarizer's text,
   * shows the records it carries, and its metadata has them, the omission count, the round and the counts.
   */
  lemma SwapSaysSummary(h: seq<Message>, snapshot: seq<Message>, input: Input) returns (p: Parts, d: nat, at: seq<nat>)
    requires |snapshot| <= |h| && Cut(snapshot, input.keep).Some? && AllWellFormed(snapshot)
    ensures Start(snapshot) < Cut(snapshot, input.keep).value <= |snapshot|
    ensures p == RoundParts(snapshot, Cut(snapshot, input.keep).value, input) && d == Drops(p, input.cap)
            && d <= |Tasks(p)|
    ensures Start(snapshot) < |Swapped(h, snapshot, input)|
    ensures var m := Leading(h, snapshot, input);
            && m.role == User && Opening(NewSummary(input), d) <= m.content
            && InOrder(m.content, RecordTexts(p.records), |Opening(NewSummary(input), d)|, at)
            && m.summary == Some(SummaryMeta(p.records, AtLeastZero(p.omitted), input.round, |h|,
                |Swapped(h, snapshot, input)|))
    ensures Unmarked(input.summary) ==> NewSummary(input) == input.summary
  {
    hide RoundParts, Swapped, SummaryHead, Footer, Drops, Cut, Leading, Opening, NewSummary, InOrder, RecordTexts,
         Unmarked, Tasks;
    p, d := LeadingIsSummary(h, snapshot, input);
    PartsState(snapshot, Cut(snapshot, input.keep).value, input);
    PartsRound(snapshot, Cut(snapshot, input.keep).value, input);
    var n := |Swapped(h, snapshot, input)|;
    OpensWithSummary(p.(preCount := |h|), d, n);
    at := ShowsRecords(p.(preCount := |h|), d, n);
    TextSurvivesIff(input);
  }

  lemma PartsRound(h: seq<Message>, s: nat, input: Input)
    requires Start(h) < s <= |h|
    ensures RoundParts(h, s, input).round == input.round
  {
    hide NewState, NewSummary, Handled, Preserved;
  }

  /** Every task that is not dropped stands in the swapped history, and so does the reminder of them all. */
  lemma SwapShowsTasks(h: seq<Message>, snapshot: seq<Message>, input: Input) returns (p: Parts, d: nat)
    requires |snapshot| <= |h| && Cut(snapshot, input.keep).Some? && AllWellFormed(snapshot)
    ensures Start(snapshot) < Cut(snapshot, input.keep).value <= |snapshot|
    ensures p == RoundParts(snapshot, Cut(snapshot, input.keep).value, input) && d == Drops(p, input.cap)
            && d <= |Tasks(p)|
    ensures forall i :: d <= i < |Tasks(p)| ==> Tasks(p)[i] in Swapped(h, snapshot, input)
    ensures d < |Tasks(p)| ==> ReminderMessage(Tasks(p)[d..]) in Swapped(h, snapshot, input)
    ensures forall m :: m in p.ledger && !m.reminder ==> m in Swapped(h, snapshot, input)
  {
    hide RoundParts, Front, SwappedSummary, Drops, Cut, NoReminders, ReminderMessage, Tasks;
    p, d := SwapLayout(h, snapshot, input);
    MiddleShowsTasks(p, d);
    forall m | m in Middle(p, d)
      ensures m in Swapped(h, snapshot, input)
    {
      assert m in Front(h, snapshot, input);
    }
  }

  lemma MiddleShowsTasks(p: Parts, d: nat)
    requires d <= |Tasks(p)|
    ensures forall i :: d <= i < |Tasks(p)| ==> Tasks(p)[i] in Middle(p, d)
    ensures d < |Tasks(p)| ==> ReminderMessage(Tasks(p)[d..]) in Middle(p, d)
    ensures forall m :: m in p.ledger && !m.reminder ==> m in Middle(p, d)
  {
    hide ReminderMessage, Stale;
    var t := Tasks(p)[d..];
    forall i | d <= i < |Tasks(p)|
      ensures Tasks(p)[i] in Middle(p, d)
    {
      assert t[i - d] == Tasks(p)[i];
    }
    forall m | m in p.ledger && !m.reminder
      ensures m in Middle(p, d)
    {
      FilterMembers(p.ledger, m);
    }
  }

  /** Notes, blocks and text of a run, in this order, are what the leading summary of its swap opens with. */
  lemma WrittenTextStands(h: seq<Message>, snapshot: seq<Message>, input: Input, blocks: seq<string>,
      written: string, notes: string)
    requires |snapshot| <= |h| && Cut(snapshot, input.keep).Some? && AllWellFormed(snapshot)
    requires input.summary == RoundBuilder.SummaryText(blocks, written, notes) && Unmarked(input.summary)
    requires written == "" || !IsSpace(written[|written| - 1])
    ensures Start(snapshot) < |Swapped(h, snapshot, input)|
    ensures var c := Leading(h, snapshot, input).content;
            var n, b := RoundBuilder.NotesBlock(notes), RoundBuilder.CoordinationBlock(blocks);
            exists i, j, k :: OccursAt(c, n, i) && OccursAt(c, b, j) && OccursAt(c, written, k) && i + |n| <= j
                && j + |b| <= k
  {
    hide Swapped, Cut, Leading, Opening, Unmarked, OccursAt, RoundBuilder.NotesBlock, RoundBuilder.CoordinationBlock,
         RoundBuilder.SummaryText;
    var p, d, at := SwapSaysSummary(h, snapshot, input);
    var c, text := Leading(h, snapshot, input).content, input.summary;
    var i, j, k := TextInOrder(blocks, written, notes);
    TextStaysWhole(blocks, written, notes, d);
    OpeningHolds(text, d, c, RoundBuilder.NotesBlock(notes), i);
    OpeningHolds(text, d, c, RoundBuilder.CoordinationBlock(blocks), j);
    OpeningHolds(text, d, c, written, k);
  }

  /** The opening holds the summary whole when that does not end in space. */
  lemma OpeningHolds(text: string, d: nat, c: string, pat: string, i: nat)
    requires Opening(text, d) <= c && OccursAt(text, pat, i) && RStrip(text) == text
    ensures OccursAt(c, pat, |SUMMARY_INJECTION_PREFIX| + i)
  {
    hide SUMMARY_INJECTION_PREFIX, SUMMARY_INJECTION_SUFFIX, RStrip, DropNote;
    var pre := SUMMARY_INJECTION_PREFIX;
    OccursBehind(pre, text, pat, i);
    var rest := if d == 0 then SUMMARY_INJECTION_SUFFIX else DropNote(d) + SUMMARY_INJECTION_SUFFIX;
    OccursBefore(pre + text, rest, pat, |pre| + i);
    assert Opening(text, d) == pre + text + rest;
    OccursBefore(Opening(text, d), c[|Opening(text, d)|..], pat, |pre| + i);
    assert Opening(text, d) + c[|Opening(text, d)|..] == c;
  }

  lemma TextInOrder(blocks: seq<string>, written: string, notes: string) returns (i: nat, j: nat, k: nat)
    ensures var text := RoundBuilder.SummaryText(blocks, written, notes);
            var n, b := RoundBuilder.NotesBlock(notes), RoundBuilder.CoordinationBlock(blocks);
            && OccursAt(text, n, i) && OccursAt(text, b, j) && OccursAt(text, written, k)
            && i + |n| <= j && j + |b| <= k
  {
    hide RoundBuilder.NotesBlock, RoundBuilder.CoordinationBlock, OccursAt;
    var n, b := RoundBuilder.NotesBlock(notes), RoundBuilder.CoordinationBlock(blocks);
    var g := if b == "" || written == "" then "" else "\n\n";
    var below := RoundBuilder.Above(b, written);
    assert below == b + g + written;
    var f := if n == "" || below == "" then "" else "\n\n";
    assert RoundBuilder.SummaryText(blocks, written, notes) == n + f + below;
    i, j, k := ThreeInOrder(n, f, b, g, written);
  }

  lemma ThreeInOrder(n: string, f: string, b: string, g: string, w: string) returns (i: nat, j: nat, k: nat)
    ensures var text := n + f + (b + g + w);
            && OccursAt(text, n, i) && OccursAt(text, b, j) && OccursAt(text, w, k) && i + |n| <= j && j + |b| <= k
  {
    hide OccursAt;
    var text := n + f + (b + g + w);
    i, j, k := 0, |n + f|, |n + f + b + g|;
    OccursWithin("", n, f + (b + g + w));
    assert "" + n + (f + (b + g + w)) == text;
    OccursWithin(n + f, b, g + w);
    assert n + f + b + (g + w) == text;
    OccursWithin(n + f + b + g, w, "");
    assert n + f + b + g + w + "" == text;
  }

  /** Blocks and notes end in their markers, so nothing is stripped from the text. */
  lemma TextStaysWhole(blocks: seq<string>, written: string, notes: string, d: nat)
    requires written == "" || !IsSpace(written[|written| - 1])
    ensures var text := RoundBuilder.SummaryText(blocks, written, notes); RStrip(text) == text
  {
    hide Join;
    var n, b := RoundBuilder.NotesBlock(notes), RoundBuilder.CoordinationBlock(blocks);
    assert n != "" ==> n[|n| - 1] == '=';
    assert b != "" ==> b[|b| - 1] == '=';
    var text := RoundBuilder.SummaryText(blocks, written, notes);
    assert text == "" || !IsSpace(text[|text| - 1]);
    WholeIfNoSpace(text);
  }

  lemma WholeIfNoSpace(s: string)
    requires s == "" || !IsSpace(s[|s| - 1])
    ensures RStrip(s) == s
  {
  }

  // ---------------------------------------------------------------- after a rollover

  /** The leading summary of a rolled history opens with what is left of the note and shows its records. */
  lemma RollSaysNote(h: seq<Message>, r: Rollover.Request) returns (p: Parts, d: nat, at: seq<nat>)
    requires |h| >= 3 && AllWellFormed(h)
    ensures p == Rollover.RollParts(h, r) && d == Drops(p, r.cap) && Start(h) < |Rollover.Rolled(h, r)|
    ensures var m := Rollover.Rolled(h, r)[Start(h)];
            && m.role == User && Opening(p.summary, d) <= m.content
            && InOrder(m.content, RecordTexts(p.records), |Opening(p.summary, d)|, at)
            && m.summary == Some(SummaryMeta(p.records, AtLeastZero(p.omitted), p.round, |h|, |Rollover.Rolled(h, r)|))
    ensures var note := Rollover.Written(h, Rollover.RawSplit(h, r.keep), r); Unmarked(note) ==> p.summary == note
  {
    hide Rollover.RollParts, Rollover.Rolled, SummaryHead, Footer, Drops, Opening, InOrder, RecordTexts, Unmarked,
         Middle, Tasks,
         NoReminders, Rollover.Written;
    p, d := Rollover.RollLayout(h, r);
    var n := |Rollover.Rolled(h, r)|;
    assert Rollover.Rolled(h, r)[Start(h)] == SwappedSummary(p, d, |h|, n);
    OpensWithSummary(p.(preCount := |h|), d, n);
    at := ShowsRecords(p.(preCount := |h|), d, n);
    Rollover.NoteSurvivesIff(h, r);
  }
}
