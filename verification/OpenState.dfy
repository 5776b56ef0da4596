/**
 * The OPEN STATE footer of a compaction summary: printed after the summary, parsed back in the
 * next round, and stripped of every item whose issue numbers or commit ids lack evidence.
 */
module OpenState {
  import opened Options
  import opened Messages
  import opened Text

  const OPEN_STATE_MARKER: string := "=== OPEN STATE ==="
  const END_OPEN_STATE_MARKER: string := "=== END OPEN STATE ==="

  // ---------------------------------------------------------------- parsing

  /** The index of the last line that is the marker up to trailing space, or -1. */
  function LastMarker(lines: seq<string>, marker: string): (i: int)
    ensures -1 <= i < |lines|
  {
    if lines == [] then -1
    else if RStrip(lines[|lines| - 1]) == marker then |lines| - 1
    else LastMarker(lines[..|lines| - 1], marker)
  }

  /** The index of the first such line, or the number of lines. */
  function FirstMarker(lines: seq<string>, marker: string): (i: nat)
    ensures i <= |lines|
  {
    if lines == [] || RStrip(lines[0]) == marker then 0 else 1 + FirstMarker(lines[1..], marker)
  }

  datatype Parsed = Parsed(prefix: string, state: Option<string>)

  function SplitAt(text: string, marker: string, endMarker: string): Parsed {
    var lines := LinesKept(text);
    var m := LastMarker(lines, marker);
    if m < 0 then Parsed(text, None)
    else
      var after := lines[m + 1..];
      var end := FirstMarker(after, endMarker);
      Parsed(RStrip(Concat(lines[..m])), Some(Strip(Concat(after[..end]))))
  }

  /** Separates the final OPEN STATE section; no section and an empty one are different. */
  function SplitOpenState(text: string): Parsed {
    SplitAt(text, OPEN_STATE_MARKER, END_OPEN_STATE_MARKER)
  }

  /** Splitting changes a text exactly when a line of it is the marker, and then shortens it. */
  lemma SplitShortensIff(text: string)
    ensures var m := LastMarker(LinesKept(text), OPEN_STATE_MARKER);
            && (m >= 0 ==> |SplitOpenState(text).prefix| < |text| && SplitOpenState(text).state.Some?)
            && (m < 0 ==> SplitOpenState(text) == Parsed(text, None))
  {
    hide RStrip, Strip, FirstMarker, LinesKept, Concat;
    var lines := LinesKept(text);
    var m := LastMarker(lines, OPEN_STATE_MARKER);
    if m >= 0 {
      LastMarkerIsLast(lines, OPEN_STATE_MARKER);
      LinesKeptConcat(text);
      var before, line, after := lines[..m], lines[m], lines[m + 1..];
      assert lines == before + ([line] + after);
      ConcatConcat(before, [line] + after);
      ConcatOfLine(line, after);
      assert |RStrip(line)| > 0;
    }
  }

  /** The last marker is a marker line with none after it; without one there is none at all. */
  lemma {:induction false} LastMarkerIsLast(lines: seq<string>, marker: string)
    ensures var m := LastMarker(lines, marker);
            && (m >= 0 ==> RStrip(lines[m]) == marker)
            && forall i :: m < i < |lines| ==> RStrip(lines[i]) != marker
  {
    hide RStrip;
    if lines != [] && RStrip(lines[|lines| - 1]) != marker {
      var init := lines[..|lines| - 1];
      LastMarkerIsLast(init, marker);
      forall i | LastMarker(lines, marker) < i < |lines|
        ensures RStrip(lines[i]) != marker
      {
        assert i < |init| ==> lines[i] == init[i];
      }
    }
  }

  lemma {:induction false} FirstMarkerIsFirst(lines: seq<string>, marker: string)
    ensures var m := FirstMarker(lines, marker);
            && (m < |lines| ==> RStrip(lines[m]) == marker)
            && forall i :: 0 <= i < m ==> RStrip(lines[i]) != marker
  {
    hide RStrip;
    if lines != [] && RStrip(lines[0]) != marker {
      FirstMarkerIsFirst(lines[1..], marker);
      forall i | 0 <= i < FirstMarker(lines, marker)
        ensures RStrip(lines[i]) != marker
      {
        assert i > 0 ==> lines[i] == lines[1..][i - 1];
      }
    }
  }

  lemma ConcatOfLine(line: string, after: seq<string>)
    ensures |Concat([line] + after)| >= |line|
    ensures |RStrip(line)| <= |line|
  {
    assert ([line] + after)[1..] == after;
  }

  // ---------------------------------------------------------------- printing

  function FooterAt(state: string, marker: string): string {
    marker + (if Strip(state) != "" then "\n" + Strip(state) else "")
  }

  function Footer(state: string): string {
    FooterAt(state, OPEN_STATE_MARKER)
  }

  /** A non-empty trimmed line. */
  predicate Tidy(l: string) {
    l != "" && Stripped(l) && NoBreaks(l)
  }

  predicate AllTidy(ls: seq<string>) {
    forall i :: 0 <= i < |ls| ==> Tidy(ls[i])
  }

  /** None of the lines is a marker. */
  predicate Free(ls: seq<string>, marker: string, endMarker: string) {
    forall i :: 0 <= i < |ls| ==> ls[i] != marker && ls[i] != endMarker
  }

  /** Item lines as the sanitizer leaves them. */
  predicate GoodLines(ls: seq<string>) {
    AllTidy(ls) && Free(ls, OPEN_STATE_MARKER, END_OPEN_STATE_MARKER)
  }

  /** A state as the sanitizer leaves it. */
  ghost predicate Sanitized(state: string) {
    exists ls :: GoodLines(ls) && state == Join("\n", ls)
  }

  lemma MarkerIsTidy()
    ensures Tidy(OPEN_STATE_MARKER)
  {
  }

  lemma {:induction false} JoinStripped(ls: seq<string>)
    requires AllTidy(ls)
    ensures Stripped(Join("\n", ls))
    ensures Join("\n", ls) == "" <==> ls == []
  {
    if |ls| > 1 {
      JoinStripped(ls[1..]);
      var s, rest := Join("\n", ls), Join("\n", ls[1..]);
      assert s[|s| - 1] == rest[|rest| - 1];
    }
  }

  lemma {:induction false} FooterIsJoin(ls: seq<string>, marker: string)
    requires AllTidy(ls)
    ensures FooterAt(Join("\n", ls), marker) == Join("\n", [marker] + ls)
  {
    JoinStripped(ls);
    StripProperties(Join("\n", ls));
    assert ([marker] + ls)[1..] == ls;
  }

  lemma {:induction false} LastMarkerAfter(a: seq<string>, m: string, b: seq<string>, marker: string)
    requires RStrip(m) == marker
    requires forall i :: 0 <= i < |b| ==> RStrip(b[i]) != marker
    ensures LastMarker(a + [m] + b, marker) == |a|
  {
    var all := a + [m] + b;
    if b == [] {
      assert all == a + [m];
    } else {
      assert all[..|all| - 1] == a + [m] + b[..|b| - 1];
      LastMarkerAfter(a, m, b[..|b| - 1], marker);
    }
  }

  lemma {:induction false} NoFirstMarker(b: seq<string>, marker: string)
    requires forall i :: 0 <= i < |b| ==> RStrip(b[i]) != marker
    ensures FirstMarker(b, marker) == |b|
  {
    if b != [] {
      assert RStrip(b[0]) != marker;
      NoFirstMarker(b[1..], marker);
    }
  }

  lemma RStripOfLine(l: string, ending: string)
    requires Stripped(l) && (ending == "" || ending == "\n")
    ensures RStrip(l + ending) == l
  {
    RStripDropsSpaces(l, ending);
  }

  /** The lines of a printed footer. */
  lemma {:induction false} FooterLines(ls: seq<string>, marker: string)
    requires AllTidy(ls) && Tidy(marker)
    ensures var lines := LinesKept(FooterAt(Join("\n", ls), marker));
            && |lines| == |ls| + 1
            && RStrip(lines[0]) == marker
            && (forall i :: 0 <= i < |ls| ==> RStrip(lines[i + 1]) == ls[i])
  {
    var all := [marker] + ls;
    FooterIsJoin(ls, marker);
    LinesOfJoin(all);
    var lines := LinesKept(Join("\n", all));
    RStripOfLine(marker, if |all| > 1 then "\n" else "");
    forall i | 0 <= i < |ls|
      ensures RStrip(lines[i + 1]) == ls[i]
    {
      assert all[i + 1] == ls[i];
      RStripOfLine(ls[i], if i + 2 < |all| then "\n" else "");
    }
  }

  lemma {:induction false} FooterBody(ls: seq<string>, marker: string)
    requires AllTidy(ls) && Tidy(marker)
    ensures LinesKept(FooterAt(Join("\n", ls), marker)) != []
    ensures Concat(LinesKept(FooterAt(Join("\n", ls), marker))[1..]) == Join("\n", ls)
  {
    var all := [marker] + ls;
    FooterIsJoin(ls, marker);
    LinesOfJoin(all);
    var text := Join("\n", all);
    var lines := LinesKept(text);
    LinesKeptConcat(text);
    assert all[1..] == ls;
    assert text == lines[0] + Concat(lines[1..]);
    assert text == lines[0] + Join("\n", ls);
    assert Concat(lines[1..]) == text[|lines[0]|..];
  }

  lemma {:induction false} SplitOfLines(text: string, a: seq<string>, m: string, items: seq<string>, marker: string,
      endMarker: string)
    requires LinesKept(text) == a + [m] + items && RStrip(m) == marker
    requires forall i :: 0 <= i < |items| ==> RStrip(items[i]) != marker && RStrip(items[i]) != endMarker
    ensures SplitAt(text, marker, endMarker) == Parsed(RStrip(Concat(a)), Some(Strip(Concat(items))))
  {
    LastMarkerAfter(a, m, items, marker);
    NoFirstMarker(items, endMarker);
    var lines := LinesKept(text);
    assert lines[|a| + 1..] == items && lines[..|a|] == a;
    assert items[..|items|] == items;
  }

  /** A text whose first line is the marker is parsed the same after any head. */
  lemma {:induction false} SplitAfterHead(before: string, foot: string, b: seq<string>, marker: string,
      endMarker: string)
    requires before != "" && before[|before| - 1] == '\n'
    requires b == LinesKept(foot) && b != [] && RStrip(b[0]) == marker
    requires forall i :: 1 <= i < |b| ==> RStrip(b[i]) != marker && RStrip(b[i]) != endMarker
    ensures SplitAt(before + foot, marker, endMarker) == Parsed(RStrip(before), Some(Strip(Concat(b[1..]))))
  {
    hide LinesKept, Concat, RStrip, LStrip;
    LinesKeptAppend(before, foot);
    var a := LinesKept(before);
    assert a + b == a + [b[0]] + b[1..];
    SplitOfLines(before + foot, a, b[0], b[1..], marker, endMarker);
    LinesKeptConcat(before);
  }

  lemma {:induction false} FooterRoundTripAt(head: string, ls: seq<string>, marker: string, endMarker: string)
    requires AllTidy(ls) && Tidy(marker) && Free(ls, marker, endMarker)
    ensures SplitAt(head + "\n\n" + FooterAt(Join("\n", ls), marker), marker, endMarker)
         == Parsed(RStrip(head), Some(Join("\n", ls)))
  {
    hide Join, LinesKept, RStrip, Strip, LStrip;
    var foot := FooterAt(Join("\n", ls), marker);
    FooterLines(ls, marker);
    FooterBody(ls, marker);
    forall i | 1 <= i < |LinesKept(foot)|
      ensures RStrip(LinesKept(foot)[i]) != marker && RStrip(LinesKept(foot)[i]) != endMarker
    {
      assert RStrip(LinesKept(foot)[i - 1 + 1]) == ls[i - 1];
    }
    SplitAfterHead(head + "\n\n", foot, LinesKept(foot), marker, endMarker);
    RStripDropsSpaces(head, "\n\n");
    JoinStripped(ls);
    StripProperties(Join("\n", ls));
  }

  /** Whatever precedes the footer, marker lines included, parsing gives back exactly the state. */
  lemma FooterRoundTrip(head: string, state: string)
    requires Sanitized(state)
    ensures SplitOpenState(head + "\n\n" + Footer(state)) == Parsed(RStrip(head), Some(state))
  {
    var ls :| GoodLines(ls) && state == Join("\n", ls);
    MarkerIsTidy();
    FooterRoundTripAt(head, ls, OPEN_STATE_MARKER, END_OPEN_STATE_MARKER);
  }

  // ---------------------------------------------------------------- sanitizing

  /** An item line stays when it names no issue or commit without evidence. */
  predicate Supported(l: string, tokens: string -> set<string>, known: set<string>) {
    l != "" && l != OPEN_STATE_MARKER && l != END_OPEN_STATE_MARKER && tokens(l) <= known
  }

  function SupportedLines(lines: seq<string>, tokens: string -> set<string>, known: set<string>): seq<string> {
    if lines == [] then []
    else
      var l := Strip(lines[0]);
      (if Supported(l, tokens, known) then [l] else []) + SupportedLines(lines[1..], tokens, known)
  }

  function Sanitize(candidate: string, tokens: string -> set<string>, known: set<string>): string {
    Join("\n", SupportedLines(Lines(candidate), tokens, known))
  }

  lemma {:induction false} LinesHaveNoBreaks(s: string)
    ensures forall i :: 0 <= i < |Lines(s)| ==> NoBreaks(Lines(s)[i])
  {
    if s != "" {
      var k := LineEnd(s);
      FirstLineEnds(s);
      LinesHaveNoBreaks(s[k..]);
      forall i | 0 <= i < |Lines(s)|
        ensures NoBreaks(Lines(s)[i])
      {
        if i > 0 {
          assert Lines(s)[i] == Lines(s[k..])[i - 1];
        }
      }
    }
  }

  lemma {:induction false} FirstLineEnds(s: string)
    requires s != ""
    ensures NoBreaks(TrimEnd(s[..LineEnd(s)]))
  {
    if !IsBreak(s[0]) && |s| > 1 {
      hide TrimEnd, IsBreak;
      FirstLineEnds(s[1..]);
      var k := LineEnd(s);
      var l, t := s[..k], s[1..][..k - 1];
      assert l == [s[0]] + t;
      TrimOneMore(s[0], t);
    }
  }

  lemma TrimOneMore(c: char, t: string)
    requires !IsBreak(c)
    ensures TrimEnd([c] + t) == [c] + TrimEnd(t)
  {
    var l := [c] + t;
    assert t != "" ==> l[|l| - 1] == t[|t| - 1];
    assert |t| >= 2 ==> l[|l| - 2] == t[|t| - 2];
  }

  lemma StripKeepsNoBreaks(s: string)
    requires NoBreaks(s)
    ensures NoBreaks(Strip(s))
  {
    forall c | c in Strip(s)
      ensures c in s
    {
    }
  }

  predicate AllSupported(ls: seq<string>, tokens: string -> set<string>, known: set<string>) {
    forall i :: 0 <= i < |ls| ==> Supported(ls[i], tokens, known)
  }

  lemma SupportedIsTidy(raw: string, tokens: string -> set<string>, known: set<string>)
    requires NoBreaks(raw) && Supported(Strip(raw), tokens, known)
    ensures Tidy(Strip(raw))
  {
    StripKeepsNoBreaks(raw);
    StripProperties(raw);
  }

  lemma {:induction false} SupportedLinesAreTidy(lines: seq<string>, tokens: string -> set<string>, known: set<string>)
    requires forall i :: 0 <= i < |lines| ==> NoBreaks(lines[i])
    ensures AllTidy(SupportedLines(lines, tokens, known))
    ensures AllSupported(SupportedLines(lines, tokens, known), tokens, known)
  {
    hide Strip, Supported, Tidy;
    if lines != [] {
      var l, rest := Strip(lines[0]), SupportedLines(lines[1..], tokens, known);
      SupportedLinesAreTidy(lines[1..], tokens, known);
      if Supported(l, tokens, known) {
        SupportedIsTidy(lines[0], tokens, known);
        assert SupportedLines(lines, tokens, known) == [l] + rest;
      } else {
        assert SupportedLines(lines, tokens, known) == rest;
      }
    }
  }

  lemma SupportedLinesAreGood(lines: seq<string>, tokens: string -> set<string>, known: set<string>)
    requires forall i :: 0 <= i < |lines| ==> NoBreaks(lines[i])
    ensures GoodLines(SupportedLines(lines, tokens, known))
    ensures AllSupported(SupportedLines(lines, tokens, known), tokens, known)
  {
    SupportedLinesAreTidy(lines, tokens, known);
  }

  /** A sanitized state satisfies the printer's precondition. */
  lemma SanitizeSanitizes(candidate: string, tokens: string -> set<string>, known: set<string>)
    ensures Sanitized(Sanitize(candidate, tokens, known))
  {
    LinesHaveNoBreaks(candidate);
    SupportedLinesAreGood(Lines(candidate), tokens, known);
  }

  lemma {:induction false} GoodLinesStay(ls: seq<string>, tokens: string -> set<string>, known: set<string>)
    requires AllTidy(ls) && AllSupported(ls, tokens, known)
    ensures SupportedLines(ls, tokens, known) == ls
  {
    if ls != [] {
      StripProperties(ls[0]);
      assert Tidy(ls[0]) && Supported(ls[0], tokens, known);
      GoodLinesStay(ls[1..], tokens, known);
    }
  }

  lemma TrimTidy(l: string)
    requires Tidy(l)
    ensures TrimEnd(l) == l && TrimEnd(l + "\n") == l
  {
    assert l[|l| - 1] in l;
    assert (l + "\n")[|l| - 1] == l[|l| - 1];
  }

  lemma LinesOfTidyJoin(ls: seq<string>)
    requires AllTidy(ls)
    ensures Lines(Join("\n", ls)) == ls
  {
    hide TrimEnd, LinesKept, Join;
    LinesOfJoin(ls);
    forall i | 0 <= i < |ls|
      ensures Lines(Join("\n", ls))[i] == ls[i]
    {
      assert Tidy(ls[i]);
      TrimTidy(ls[i]);
      assert ls[i] + "" == ls[i];
    }
  }

  /** Sanitizing twice is sanitizing once. */
  lemma SanitizeIdempotent(candidate: string, tokens: string -> set<string>, known: set<string>)
    ensures Sanitize(Sanitize(candidate, tokens, known), tokens, known) == Sanitize(candidate, tokens, known)
  {
    LinesHaveNoBreaks(candidate);
    SupportedLinesAreGood(Lines(candidate), tokens, known);
    var ls := SupportedLines(Lines(candidate), tokens, known);
    LinesOfTidyJoin(ls);
    GoodLinesStay(ls, tokens, known);
  }

  /** The supported lines are kept in order and as often as they come. */
  lemma {:induction false} SupportedLinesConcat(a: seq<string>, b: seq<string>, tokens: string -> set<string>,
      known: set<string>)
    ensures SupportedLines(a + b, tokens, known) == SupportedLines(a, tokens, known) + SupportedLines(b, tokens, known)
  {
    hide Strip, Supported;
    if a == [] {
      assert a + b == b;
    } else {
      assert (a + b)[0] == a[0] && (a + b)[1..] == a[1..] + b;
      SupportedLinesConcat(a[1..], b, tokens, known);
    }
  }

  /** A line of the state is exactly a supported line of the candidate. */
  lemma SanitizeKeepsExactlySupported(candidate: string, tokens: string -> set<string>, known: set<string>, l: string)
    ensures l in Lines(Sanitize(candidate, tokens, known)) <==>
            Supported(l, tokens, known) && exists i :: 0 <= i < |Lines(candidate)| && Strip(Lines(candidate)[i]) == l
  {
    LinesHaveNoBreaks(candidate);
    var lines := Lines(candidate);
    SupportedLinesAreGood(lines, tokens, known);
    LinesOfTidyJoin(SupportedLines(lines, tokens, known));
    SupportedLinesMembers(lines, tokens, known, l);
  }

  lemma {:induction false} SupportedLinesMembers(lines: seq<string>, tokens: string -> set<string>,
      known: set<string>, l: string)
    ensures l in SupportedLines(lines, tokens, known) <==>
            Supported(l, tokens, known) && exists i :: 0 <= i < |lines| && Strip(lines[i]) == l
  {
    hide Strip, Supported;
    if lines != [] {
      SupportedLinesMembers(lines[1..], tokens, known, l);
      if i :| 0 <= i < |lines| && Strip(lines[i]) == l {
        assert i > 0 ==> Strip(lines[1..][i - 1]) == l;
      }
      if i :| 0 <= i < |lines[1..]| && Strip(lines[1..][i]) == l {
        assert Strip(lines[i + 1]) == l;
      }
    }
  }

  // ---------------------------------------------------------------- evidence

  /** Token recognisers never match across a line feed. */
  ghost predicate Distributes(tokens: string -> set<string>) {
    && tokens("") == {}
    && forall a, b :: tokens(a + "\n" + b) == tokens(a) + tokens(b)
  }

  ghost function TokensOf(parts: seq<string>, tokens: string -> set<string>): set<string> {
    if parts == [] then {} else tokens(parts[0]) + TokensOf(parts[1..], tokens)
  }

  lemma {:induction false} TokensOfJoin(parts: seq<string>, tokens: string -> set<string>)
    requires Distributes(tokens)
    ensures tokens(Join("\n", parts)) == TokensOf(parts, tokens)
  {
    if |parts| > 1 {
      TokensOfJoin(parts[1..], tokens);
      var rest := Join("\n", parts[1..]);
      assert Join("\n", parts) == parts[0] + "\n" + rest;
    } else if |parts| == 1 {
      assert TokensOf(parts[1..], tokens) == {};
    }
  }

  lemma {:induction false} TokensBelow(parts: seq<string>, tokens: string -> set<string>, known: set<string>)
    requires forall i :: 0 <= i < |parts| ==> tokens(parts[i]) <= known
    ensures TokensOf(parts, tokens) <= known
  {
    if parts != [] {
      assert tokens(parts[0]) <= known;
      TokensBelow(parts[1..], tokens, known);
    }
  }

  /** Nothing without evidence survives sanitizing, over the whole text of the state. */
  lemma SanitizedTokensKnown(candidate: string, tokens: string -> set<string>, known: set<string>)
    requires Distributes(tokens)
    ensures tokens(Sanitize(candidate, tokens, known)) <= known
  {
    LinesHaveNoBreaks(candidate);
    var ls := SupportedLines(Lines(candidate), tokens, known);
    SupportedLinesAreGood(Lines(candidate), tokens, known);
    forall i | 0 <= i < |ls|
      ensures tokens(ls[i]) <= known
    {
      assert Supported(ls[i], tokens, known);
    }
    TokensBelow(ls, tokens, known);
    TokensOfJoin(ls, tokens);
  }

  /** The text a message contributes as evidence: system prompts none, summaries their state. */
  function Evidence(m: Message): Option<string> {
    if m.role == System then None
    else if m.summary.Some? then SplitOpenState(m.content).state
    else Some(m.content)
  }

  function EvidenceParts(h: seq<Message>): seq<string> {
    if h == [] then []
    else
      var e := Evidence(h[0]);
      (if e.Some? then [e.value] else []) + EvidenceParts(h[1..])
  }

  function KnownTokens(h: seq<Message>, tokens: string -> set<string>): set<string> {
    tokens(Join("\n", EvidenceParts(h)))
  }

  /** Known tokens come from single messages. */
  lemma {:induction false} KnownTokensHaveSource(h: seq<Message>, tokens: string -> set<string>, t: string)
    requires Distributes(tokens)
    requires t in KnownTokens(h, tokens)
    ensures exists m :: m in h && Evidence(m).Some? && t in tokens(Evidence(m).value)
  {
    TokensOfJoin(EvidenceParts(h), tokens);
    PartsHaveSource(h, tokens, t);
  }

  lemma {:induction false} PartsHaveSource(h: seq<Message>, tokens: string -> set<string>, t: string)
    requires t in TokensOf(EvidenceParts(h), tokens)
    ensures exists m :: m in h && Evidence(m).Some? && t in tokens(Evidence(m).value)
  {
    var e := Evidence(h[0]);
    if e.Some? && t in tokens(e.value) {
      assert h[0] in h;
    } else {
      if e.Some? {
        assert EvidenceParts(h)[1..] == EvidenceParts(h[1..]);
      } else {
        assert EvidenceParts(h) == EvidenceParts(h[1..]);
      }
      PartsHaveSource(h[1..], tokens, t);
      var m :| m in h[1..] && Evidence(m).Some? && t in tokens(Evidence(m).value);
      assert m in h;
    }
  }

  /** What a message contributes as evidence is known. */
  lemma EvidenceIsKnown(h: seq<Message>, tokens: string -> set<string>, m: Message)
    requires Distributes(tokens) && m in h && Evidence(m).Some?
    ensures tokens(Evidence(m).value) <= KnownTokens(h, tokens)
  {
    hide Evidence, Join;
    TokensOfJoin(EvidenceParts(h), tokens);
    PartOfEvidence(h, m);
    PartIsCounted(EvidenceParts(h), tokens, Evidence(m).value);
  }

  /** So every message that is neither a system prompt nor a summary counts, and no system prompt does. */
  lemma OrdinaryIsKnown(h: seq<Message>, tokens: string -> set<string>, m: Message)
    requires Distributes(tokens) && m in h && m.role != System && m.summary == None
    ensures tokens(m.content) <= KnownTokens(h, tokens)
  {
    hide SplitOpenState, KnownTokens;
    EvidenceIsKnown(h, tokens, m);
  }

  lemma {:induction false} PartOfEvidence(h: seq<Message>, m: Message)
    requires m in h && Evidence(m).Some?
    ensures Evidence(m).value in EvidenceParts(h)
  {
    hide Evidence;
    if h[0] != m {
      PartOfEvidence(h[1..], m);
    }
  }

  lemma {:induction false} PartIsCounted(parts: seq<string>, tokens: string -> set<string>, part: string)
    requires part in parts
    ensures tokens(part) <= TokensOf(parts, tokens)
  {
    if parts[0] != part {
      PartIsCounted(parts[1..], tokens, part);
    }
  }

  /** A state as the sanitizer leaves it stays as it is where all its tokens are known. */
  lemma KnownStateStays(state: string, tokens: string -> set<string>, known: set<string>)
    requires Sanitized(state) && Distributes(tokens) && tokens(state) <= known
    ensures Sanitize(state, tokens, known) == state
  {
    hide Join, Tidy, SupportedLines, TokensOf;
    var ls :| GoodLines(ls) && state == Join("\n", ls);
    LinesOfTidyJoin(ls);
    TokensOfJoin(ls, tokens);
    forall i | 0 <= i < |ls|
      ensures Supported(ls[i], tokens, known)
    {
      PartIsCounted(ls, tokens, ls[i]);
      TidyIsNotEmpty(ls[i]);
    }
    GoodLinesStay(ls, tokens, known);
  }

  lemma TidyIsNotEmpty(l: string)
    requires Tidy(l)
    ensures l != ""
  {
  }
}
