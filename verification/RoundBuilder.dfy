/** How a run builds the replacement: what it works out before the summarizer answers, and after. */
module RoundBuilder {
  import opened Options
  import opened Messages
  import opened ToolGroups
  import opened OperatorWords
  import opened OperatorBlocks
  import opened OpenState
  import opened Routing
  import opened CompactedHistory
  import opened Round
  import Coordination
  import Text

  const COORDINATION_HEAD: string := "=== COORDINATION STATE " + "(verbatim, machine-extracted) ===\n"
  const COORDINATION_TAIL: string := "\n=== END COORDINATION STATE ==="
  const NOTES_HEAD: string := "=== YOUR NOTES (written by you " + "before compaction, verbatim) ===\n"
  const NOTES_TAIL: string := "\n=== END NOTES ==="

  /** What a run holds on to while the summarizer writes. */
  datatype Prepared = Prepared(
    split: nat,
    records: seq<Record>,
    omitted: nat,
    handled: seq<Message>,
    preserved: seq<Message>,
    summarizable: seq<Message>,
    blocks: seq<string>)

  /** The preparation is the one the round's parts call for. */
  ghost predicate Fitting(h: seq<Message>, prep: Prepared, input: Input) {
    && Cut(h, input.keep) == Some(prep.split) && Start(h) < prep.split <= |h|
    && var prior := h[Start(h)..prep.split];
       && prep.records == Bound(AllWords(prior))
       && prep.omitted + |prep.records| == AllOmitted(prior) + |AllWords(prior)|
       && prep.handled == Handled(prior, input)
       && prep.preserved == Preserved(prior, input)
       && prep.summarizable == ForSummarizer(prior, input)
  }

  /** The third route: what is neither the ledger's nor preserved whole. */
  function ForSummarizer(prior: seq<Message>, input: Input): seq<Message> {
    var rest := Rest(prior, input);
    Pick(rest, Where(|rest|, LeftAt(rest, Chosen(rest, input.view))))
  }

  /** The three routes of a round are the routes of its old part, so every message takes one. */
  lemma RoundIsRouted(prior: seq<Message>, input: Input)
    ensures var r := RoutesOf(prior, input.ledger, input.view);
            && Below(r.ledger, |prior|) && Below(r.preserved, |prior|) && Below(r.summarized, |prior|)
            && Handled(prior, input) == HandleAll(Pick(prior, r.ledger), input.ledger)
            && Preserved(prior, input) == ExcerptAll(Pick(prior, r.preserved))
            && ForSummarizer(prior, input) == Pick(prior, r.summarized)
  {
    hide Where, Chosen, Judge;
    RoutesKeepOrder(prior, input.ledger, input.view);
    RoutesAreTheLists(prior, input.ledger, input.view);
  }

  method Route(prior: seq<Message>, input: Input)
    returns (handled: seq<Message>, preserved: seq<Message>, summarizable: seq<Message>)
    ensures handled == Handled(prior, input) && preserved == Preserved(prior, input)
    ensures summarizable == ForSummarizer(prior, input)
  {
    hide HandleAll, ExcerptAll, Pick, Where, Chosen;
    var untracked;
    handled, untracked := PartitionByLedger(prior, input.ledger);
    preserved, summarizable := ExtractPreservable(untracked, input.view);
  }

  /** `extract` finds coordination blocks in the summarizable messages. */
  method Prepare(h: seq<Message>, input: Input, extract: seq<Message> -> seq<string>) returns (prep: Option<Prepared>)
    ensures prep.Some? <==> Cut(h, input.keep).Some?
    ensures prep.Some? ==>
              && Fitting(h, prep.value, input)
              && Coordination.IsSelection(extract(prep.value.summarizable), prep.value.blocks)
  {
    hide Coordination.IsSelection, AllWords, AllOmitted, Bound, Handled, Preserved, ForSummarizer, SplitPoint;
    var split := FindSplitPoint(h, input.keep);
    if split.None? || split.value <= 1 {
      return None;
    }
    CutIsClean(h, input.keep);
    var start := if h != [] && h[0].role == System then 1 else 0;
    var prior := h[start..split.value];
    var found, before := CollectOperatorWordRecords(prior);
    var records, omitted := BoundOperatorWordRecords(found, before);
    var handled, preserved, summarizable := Route(prior, input);
    var blocks := Coordination.SelectBlocks(extract(summarizable));
    return Some(Prepared(split.value, records, omitted, handled, preserved, summarizable, blocks));
  }

  function NotesBlock(notes: string): string {
    if notes == "" then "" else NOTES_HEAD + notes + NOTES_TAIL
  }

  function CoordinationBlock(blocks: seq<string>): string {
    if blocks == [] then "" else COORDINATION_HEAD + Text.Join("\n---\n", blocks) + COORDINATION_TAIL
  }

  /** The model's notes come first, then the coordination blocks, then what the summarizer wrote. */
  function SummaryText(blocks: seq<string>, written: string, notes: string): string {
    Above(NotesBlock(notes), Above(CoordinationBlock(blocks), written))
  }

  function Above(top: string, text: string): string {
    if top == "" then text else if text == "" then top else top + "\n\n" + text
  }

  /** After the summarizer: the replacement of the snapshot. */
  method Assemble(h: seq<Message>, prep: Prepared, input: Input) returns (r: seq<Message>)
    requires Fitting(h, prep, input)
    ensures Cut(h, input.keep).Some? && r == Replacement(h, input)
  {
    hide Cut, Layout, Bound, AllWords, AllOmitted, Handled, Preserved, ForSummarizer, Sanitize, KnownTokens,
         SplitOpenState, MustDrop, FirstNot;
    var text := StripBlocks(input.summary, OPERATOR_WORDS_MARKER, OPERATOR_WORDS_END_MARKER);
    var parsed := SplitOpenState(text);
    var candidate := if parsed.state.Some? then parsed.state.value else "";
    var state := Sanitize(candidate, input.tokens, KnownTokens(h, input.tokens));
    var parts := Parts(if Start(h) == 1 then Some(h[0]) else None, parsed.prefix, h[prep.split..], prep.preserved,
                       prep.handled, input.round, |h|, prep.records, prep.omitted, state);
    assert parts == RoundParts(h, prep.split, input);
    RetryOfNone(parts);
    r := BuildCompactedHistory(parts, 0, input.cap, parts);
  }

  lemma RetryOfNone(p: Parts)
    ensures Retry(p, 0) == p
  {
  }
}
