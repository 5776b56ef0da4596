/** The OPEN STATE a round leaves: exactly what the summarizer proposed and the snapshot supports. */
module RoundState {
  import opened Options
  import opened Messages
  import opened Text
  import opened LineItems
  import opened OpenState
  import opened OperatorBlocks
  import opened CompactedHistory
  import opened Round
  import opened RoundEffects

  /** The message right after the system prompt of a swapped history. */
  function Leading(h: seq<Message>, snapshot: seq<Message>, input: Input): Message
    requires |snapshot| <= |h| && Cut(snapshot, input.keep).Some?
    requires Start(snapshot) < |Swapped(h, snapshot, input)|
  {
    Swapped(h, snapshot, input)[Start(snapshot)]
  }

  lemma LeadingIsSummary(h: seq<Message>, snapshot: seq<Message>, input: Input) returns (p: Parts, d: nat)
    requires |snapshot| <= |h| && Cut(snapshot, input.keep).Some? && AllWellFormed(snapshot)
    ensures Start(snapshot) < Cut(snapshot, input.keep).value <= |snapshot|
    ensures p == RoundParts(snapshot, Cut(snapshot, input.keep).value, input) && d == Drops(p, input.cap)
    ensures Start(snapshot) < |Swapped(h, snapshot, input)| && d <= |Tasks(p)|
    ensures Leading(h, snapshot, input) == SwappedSummary(p, d, |h|, |Swapped(h, snapshot, input)|)
  {
    hide RoundParts, Front, Middle, SwappedSummary, Drops, Cut, NoReminders;
    p, d := SwapLayout(h, snapshot, input);
  }

  /** The state read back from the leading summary is the one the round made. */
  lemma StateIsNew(h: seq<Message>, snapshot: seq<Message>, input: Input)
    requires |snapshot| <= |h| && Cut(snapshot, input.keep).Some? && AllWellFormed(snapshot)
             && Distributes(input.tokens)
    ensures Start(snapshot) < |Swapped(h, snapshot, input)|
    ensures StateOf(Leading(h, snapshot, input)) == Some(NewState(snapshot, input))
  {
    hide RoundParts, Swapped, SummaryHead, Footer, Drops, Cut, SplitOpenState, Sanitized, NewState, Leading;
    var p, d := LeadingIsSummary(h, snapshot, input);
    var s := Cut(snapshot, input.keep).value;
    StateOfParts(snapshot, s, input);
    PartsState(snapshot, s, input);
    StateSurvivesLayout(p.(preCount := |h|), d, |Swapped(h, snapshot, input)|);
  }

  lemma PartsState(h: seq<Message>, s: nat, input: Input)
    requires Start(h) < s <= |h|
    ensures RoundParts(h, s, input).state == NewState(h, input) && RoundParts(h, s, input).summary == NewSummary(input)
  {
    hide NewState, NewSummary, Handled, Preserved;
  }

  /**
   * A proposal the snapshot bears out gets in word for word: text without operator-words marker that
   * ends in an OPEN STATE of good lines, each of whose tokens an ordinary message mentions.
   */
  lemma ProposedStateGetsIn(h: seq<Message>, snapshot: seq<Message>, input: Input, text: string, state: string)
    requires |snapshot| <= |h| && Cut(snapshot, input.keep).Some? && AllWellFormed(snapshot)
             && Distributes(input.tokens)
    requires input.summary == text + "\n\n" + Footer(state) && Sanitized(state)
    requires !Occurs(input.summary, OPERATOR_WORDS_MARKER)
    requires forall t :: t in input.tokens(state) ==> Mentioned(snapshot, input.tokens, t)
    ensures Start(snapshot) < |Swapped(h, snapshot, input)|
    ensures StateOf(Leading(h, snapshot, input)) == Some(state) && NewSummary(input) == RStrip(text)
  {
    hide Swapped, SplitOpenState, Footer, Sanitized, Sanitize, KnownTokens, Distributes, Leading, Cut,
         WithoutBlocks, RStrip;
    StateIsNew(h, snapshot, input);
    StripShortensIff(input.summary, OPERATOR_WORDS_MARKER, OPERATOR_WORDS_END_MARKER);
    FooterRoundTrip(text, state);
    forall t | t in input.tokens(state)
      ensures t in KnownTokens(snapshot, input.tokens)
    {
      var m :| m in snapshot && m.role != System && m.summary == None && t in input.tokens(m.content);
      OrdinaryIsKnown(snapshot, input.tokens, m);
    }
    KnownStateStays(state, input.tokens, KnownTokens(snapshot, input.tokens));
  }

  /** The lines between the last OPEN STATE line of a text and the next closing one, or the end. */
  function ProposedLines(text: string): seq<string> {
    var lines := LinesKept(text);
    var m := LastMarker(lines, OPEN_STATE_MARKER);
    if m < 0 then []
    else
      var after := lines[m + 1..];
      after[..FirstMarker(after, END_OPEN_STATE_MARKER)]
  }

  lemma ProposedItems(text: string, l: string)
    requires l != ""
    ensures var state := SplitOpenState(text).state;
            HasItem(ProposedLines(text), l) <==> state.Some? && HasItem(Lines(state.value), l)
  {
    hide LinesKept, Strip, Concat, HasItem, LastMarker, FirstMarker, RStrip;
    var lines := LinesKept(text);
    var m := LastMarker(lines, OPEN_STATE_MARKER);
    if m >= 0 {
      var after := lines[m + 1..];
      var n := FirstMarker(after, END_OPEN_STATE_MARKER);
      assert lines[m + 1..m + 1 + n] == after[..n];
      ItemsOfLines(text, m + 1, m + 1 + n, l);
    } else {
      NoItems(l);
    }
  }

  lemma NoItems(l: string)
    ensures !HasItem([], l)
  {
  }

  /**
   * In general: a line is in the new state if and only if it is a trimmed line of the proposal, taken
   * from the text without operator-word blocks, and is neither blank nor a marker and fully supported.
   */
  lemma RoundStateIff(h: seq<Message>, snapshot: seq<Message>, input: Input, l: string)
    requires |snapshot| <= |h| && Cut(snapshot, input.keep).Some? && AllWellFormed(snapshot)
             && Distributes(input.tokens)
    ensures Start(snapshot) < |Swapped(h, snapshot, input)|
    ensures StateOf(Leading(h, snapshot, input)).Some?
    ensures l in Lines(StateOf(Leading(h, snapshot, input)).value)
            <==> HasItem(ProposedLines(Proposal(input)), l)
                 && Supported(l, input.tokens, KnownTokens(snapshot, input.tokens))
  {
    hide Swapped, SplitOpenState, Sanitize, KnownTokens, Distributes, Leading, Cut, Proposal, Lines, HasItem, Strip,
         ProposedLines, StateOf, OPEN_STATE_MARKER, END_OPEN_STATE_MARKER;
    StateIsNew(h, snapshot, input);
    var known, proposed := KnownTokens(snapshot, input.tokens), SplitOpenState(Proposal(input)).state;
    var candidate := if proposed.Some? then proposed.value else "";
    SanitizeKeepsExactlySupported(candidate, input.tokens, known, l);
    ItemIff(candidate, l);
    if l != "" {
      ProposedItems(Proposal(input), l);
      if proposed.None? {
        NothingInNothing(l);
      }
    }
  }

  lemma ItemIff(s: string, l: string)
    ensures HasItem(Lines(s), l) <==> exists i :: 0 <= i < |Lines(s)| && Strip(Lines(s)[i]) == l
  {
    hide Lines, Strip;
  }

  lemma NothingInNothing(l: string)
    ensures !HasItem(Lines(""), l)
  {
    assert Lines("") == [];
  }
}
