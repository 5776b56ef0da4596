/** The emergency rollover: when compaction cannot get under the cap, a local note replaces the old part. */
module Rollover {
  import opened Options
  import opened Messages
  import opened ToolGroups
  import opened OperatorWords
  import opened OperatorBlocks
  import opened OpenState
  import opened Routing
  import opened CompactedHistory
  import opened Round
  import opened RoundEffects
  import opened EmergencySummary

  const MAX_ROLLOVER_MESSAGE_CHARS := 8000
  const TRUNCATED: string := "\U{2026} [truncated during context rollover]"

  /** What a rollover takes from outside the history. */
  datatype Request = Request(
    keep: int,                          // the keep-recent count without a history
    view: TaskView,
    direct: Message -> bool,            // messages the note may quote
    round: nat,
    cap: nat,
    tokens: string -> set<string>)

  /** One to four messages are kept. */
  function Kept(keep: int): nat {
    if keep < 1 then 1 else if keep > 4 then 4 else keep
  }

  /** The cut; a cut that would leave nothing to replace falls back to a raw count. */
  function RawSplit(h: seq<Message>, keep: int): (s: nat)
    requires |h| >= 3
    ensures 1 <= s < |h|
  {
    SplitDefined(h, Kept(keep));
    SplitIsTight(h, Kept(keep));
    var s := SplitPoint(h, Kept(keep)).value;
    if s > 1 then s else if |h| - Kept(keep) > 1 then |h| - Kept(keep) else 1
  }

  function Shortened(m: Message): Message {
    if |m.content| > MAX_ROLLOVER_MESSAGE_CHARS
        then m.(content := m.content[..MAX_ROLLOVER_MESSAGE_CHARS] + TRUNCATED) else m
  }

  function ShortenAll(ms: seq<Message>): (r: seq<Message>)
    ensures |r| == |ms| && forall i :: 0 <= i < |ms| ==> r[i] == Shortened(ms[i])
  {
    seq(|ms|, i requires 0 <= i < |ms| => Shortened(ms[i]))
  }

  /** The state of the last summary that has one. */
  function PriorState(h: seq<Message>): Option<string> {
    if h == [] then None
    else
      var m := h[|h| - 1];
      if m.summary.Some? && StateOf(m).Some? then StateOf(m) else PriorState(h[..|h| - 1])
  }

  /** The note as it is first written. */
  function Written(h: seq<Message>, s: nat, r: Request): string
    requires 1 <= s <= |h|
  {
    EmergencyNote(Items(h[1..s], r.direct), BodyLimit(MAX_EMERGENCY_SUMMARY_MESSAGE_CHARS))
  }

  function Note(h: seq<Message>, s: nat, r: Request): string
    requires 1 <= s <= |h|
  {
    WithoutBlocks(Written(h, s, r), OPERATOR_WORDS_MARKER, OPERATOR_WORDS_END_MARKER)
  }

  function Candidate(h: seq<Message>, note: Option<string>): string {
    if note.Some? then note.value else if PriorState(h).Some? then PriorState(h).value else ""
  }

  function RollParts(h: seq<Message>, r: Request): Parts
    requires |h| >= 3
  {
    var s := RawSplit(h, r.keep);
    var parsed := SplitOpenState(Note(h, s, r));
    var words := AllWords(h[1..s]);
    Parts(if h[0].role == System then Some(h[0]) else None,
          parsed.prefix,
          ShortenAll(h[s..]),
          ExcerptAll(Pick(h, Chosen(h, r.view))),
          [],
          r.round,
          |h|,
          Bound(words),
          AllOmitted(h[1..s]) + |words| - |Bound(words)|,
          Sanitize(Candidate(h, parsed.state), r.tokens, KnownTokens(h, r.tokens)))
  }

  /** The history after a rollover: staged and applied in one go. */
  function Rolled(h: seq<Message>, r: Request): seq<Message>
    requires |h| >= 3
  {
    SwapIn(h, |h|, Compacted(RollParts(h, r), r.cap))
  }

  // ---------------------------------------------------------------- building it

  method FindSplit(h: seq<Message>, keep: int) returns (s: nat)
    requires |h| >= 3
    ensures s == RawSplit(h, keep)
  {
    var count := if keep < 1 then 1 else if keep > 4 then 4 else keep;
    var split := FindSplitPoint(h, count);
    SplitDefined(h, count);
    s := split.value;
    if s <= 1 {
      s := if |h| - count > 1 then |h| - count else 1;
    }
  }

  method LastState(h: seq<Message>) returns (state: Option<string>)
    ensures state == PriorState(h)
  {
    hide SplitOpenState;
    state := None;
    for i := 0 to |h|
      invariant state == PriorState(h[..i])
    {
      assert h[..i + 1][..i] == h[..i];
      if h[i].summary.Some? {
        var parsed := SplitOpenState(h[i].content);
        if parsed.state.Some? {
          state := parsed.state;
        }
      }
    }
    assert h[..|h|] == h;
  }

  method BuildRollover(h: seq<Message>, r: Request) returns (compacted: seq<Message>)
    requires |h| >= 3
    ensures compacted == Compacted(RollParts(h, r), r.cap)
  {
    hide RawSplit, Layout, MustDrop, FirstNot, Bound, AllWords, AllOmitted, Sanitize, KnownTokens, SplitOpenState,
         EmergencyNote, Items, BodyLimit, WithoutBlocks, PriorState, Chosen;
    var s := FindSplit(h, r.keep);
    var preserved, _ := ExtractPreservable(h, r.view);
    var note := BuildEmergencySummary(h[1..s], MAX_EMERGENCY_SUMMARY_MESSAGE_CHARS, r.direct);
    var found, before := CollectOperatorWordRecords(h[1..s]);
    var records, omitted := BoundOperatorWordRecords(found, before);
    var prior := LastState(h);
    note := StripBlocks(note, OPERATOR_WORDS_MARKER, OPERATOR_WORDS_END_MARKER);
    var parsed := SplitOpenState(note);
    var candidate := if parsed.state.Some? then parsed.state else prior;
    var state := Sanitize(if candidate.Some? then candidate.value else "", r.tokens, KnownTokens(h, r.tokens));
    var parts := Parts(if h[0].role == System then Some(h[0]) else None,
                       parsed.prefix, ShortenAll(h[s..]), preserved, [],
                       r.round, |h|, records, omitted, state);
    assert parts == RollParts(h, r);
    compacted := BuildCompactedHistory(parts, 0, r.cap, parts);
  }

  // ---------------------------------------------------------------- what it keeps

  lemma TaskMember(h: seq<Message>, view: TaskView, x: Message)
    requires AllWellFormed(h) && x in ExcerptAll(Pick(h, Chosen(h, view)))
    ensures WellFormed(x) && x.summary == None
  {
    hide Chosen;
    var chosen := Chosen(h, view);
    PreservedAreNewestTasks(h, view);
    var i :| 0 <= i < |chosen| && Excerpt(Pick(h, chosen)[i]) == x;
    assert IsLatest(h, view, chosen[i]);
    assert h[chosen[i]] in h;
  }

  lemma RollMembers(h: seq<Message>, r: Request)
    requires |h| >= 3 && AllWellFormed(h)
    ensures var p := RollParts(h, r);
            && (forall x :: x in p.ledger || x in p.tasks ==> WellFormed(x) && x.summary == None)
            && AllWellFormed(p.keep)
  {
    hide RawSplit, Bound, AllWords, AllOmitted, Sanitize, KnownTokens, SplitOpenState, Note, Candidate, Chosen,
         ExcerptAll;
    var p := RollParts(h, r);
    forall x | x in p.tasks
      ensures WellFormed(x) && x.summary == None
    {
      TaskMember(h, r.view, x);
    }
    forall x | x in p.keep
      ensures WellFormed(x)
    {
      var i :| 0 <= i < |p.keep| && p.keep[i] == x;
      assert h[RawSplit(h, r.keep) + i] in h;
    }
  }

  lemma RollState(h: seq<Message>, r: Request)
    requires |h| >= 3 && Distributes(r.tokens)
    ensures var state := RollParts(h, r).state;
            Sanitized(state) && r.tokens(state) <= KnownTokens(h, r.tokens)
  {
    hide RawSplit, Bound, AllWords, AllOmitted, Sanitize, Sanitized, KnownTokens, SplitOpenState, Note, Chosen,
         Candidate;
    var candidate := Candidate(h, SplitOpenState(Note(h, RawSplit(h, r.keep), r)).state);
    SanitizeSanitizes(candidate, r.tokens, KnownTokens(h, r.tokens));
    SanitizedTokensKnown(candidate, r.tokens, KnownTokens(h, r.tokens));
  }

  lemma RollLayout(h: seq<Message>, r: Request) returns (p: Parts, d: nat)
    requires |h| >= 3 && AllWellFormed(h)
    ensures p == RollParts(h, r) && d == Drops(p, r.cap) && d <= |Tasks(p)|
    ensures Rolled(h, r)
         == h[..Start(h)] + [SwappedSummary(p, d, |h|, |Rolled(h, r)|)] + (Middle(p, d) + NoReminders(p.keep))
  {
    hide RollParts, SummaryHead, Footer, Middle, Drops, Stamp, NoReminders, SwappedSummary, Layout;
    p := RollParts(h, r);
    d := Drops(p, r.cap);
    LayoutIsMiddleAndKeep(p, d);
    RollSystem(h, r);
    var sys, rest := h[..Start(h)], Middle(p, d) + NoReminders(p.keep);
    assert sys != [] ==> WellFormed(h[0]);
    var c := Compacted(p, r.cap);
    var sum := SummaryMessage(p, d, |c|);
    SummaryIgnoresCounts(p, d, |h|, |c|, |c|);
    assert c == sys + [sum] + rest;
    StampAt(sys, sum, rest, |h|, |c|);
    assert h[|h|..] == [];
  }

  lemma RollSystem(h: seq<Message>, r: Request)
    requires |h| >= 3
    ensures SystemPart(RollParts(h, r)) == h[..Start(h)]
  {
    hide RawSplit, Bound, AllWords, AllOmitted, Sanitize, KnownTokens, SplitOpenState, Note, Chosen, Candidate;
  }

  /**
   * The note, with the latest user request at its head, reaches the summary message whole if and only if
   * it quotes no operator-words marker and no OPEN STATE line; then the state comes from the last summary.
   */
  lemma NoteSurvivesIff(h: seq<Message>, r: Request)
    requires |h| >= 3
    ensures var note := Written(h, RawSplit(h, r.keep), r);
            && (RollParts(h, r).summary == note <==> Unmarked(note))
            && (Unmarked(note) ==>
                  RollParts(h, r).state == Sanitize(Candidate(h, None), r.tokens, KnownTokens(h, r.tokens)))
  {
    hide RawSplit, Bound, AllWords, AllOmitted, Sanitize, KnownTokens, SplitOpenState, Written, Chosen, Candidate,
         Unmarked, ExcerptAll, ShortenAll;
    UnmarkedIff(Written(h, RawSplit(h, r.keep), r));
  }

  /** The prior state is that of the last summary that has one, and there is none only without such a summary. */
  lemma {:induction false} PriorStateIsLast(h: seq<Message>)
    ensures PriorState(h).Some? ==>
              exists i :: 0 <= i < |h| && h[i].summary.Some? && StateOf(h[i]) == PriorState(h)
                          && forall j :: i < j < |h| && h[j].summary.Some? ==> StateOf(h[j]) == None
    ensures PriorState(h).None? ==> forall j :: 0 <= j < |h| && h[j].summary.Some? ==> StateOf(h[j]) == None
  {
    hide SplitOpenState;
    if h != [] {
      var n := |h| - 1;
      if !(h[n].summary.Some? && StateOf(h[n]).Some?) {
        var init := h[..n];
        PriorStateIsLast(init);
        assert forall j :: 0 <= j < n ==> h[j] == init[j];
        if PriorState(h).Some? {
          var i :| 0 <= i < n && init[i].summary.Some? && StateOf(init[i]) == PriorState(h)
                   && forall j :: i < j < n && init[j].summary.Some? ==> StateOf(init[j]) == None;
          assert h[i] == init[i];
        }
      }
    }
  }

  /** A note with an OPEN STATE of its own takes the place of the prior state. */
  lemma NoteStateWins(h: seq<Message>, r: Request)
    requires |h| >= 3
    ensures var own := SplitOpenState(Note(h, RawSplit(h, r.keep), r)).state;
            RollParts(h, r).state
            == Sanitize(if own.Some? then own.value else if PriorState(h).Some? then PriorState(h).value else "",
                        r.tokens, KnownTokens(h, r.tokens))
    ensures RollParts(h, r).round == r.round
  {
    hide RawSplit, Bound, AllWords, AllOmitted, Sanitize, KnownTokens, SplitOpenState, Note, Chosen, PriorState,
         ExcerptAll,
         ShortenAll;
  }

  /** With such a note, a state the sanitizer left comes through a rollover word for word. */
  lemma StateCarriesOver(h: seq<Message>, r: Request)
    requires |h| >= 3 && AllWellFormed(h) && Distributes(r.tokens)
    requires Unmarked(Written(h, RawSplit(h, r.keep), r)) && PriorState(h).Some? && Sanitized(PriorState(h).value)
    ensures RollParts(h, r).state == PriorState(h).value
  {
    hide RollParts, PriorState, RawSplit, Written, Unmarked, Sanitize, Sanitized, KnownTokens, SplitOpenState,
         Distributes;
    NoteSurvivesIff(h, r);
    PriorStateIsLast(h);
    var i :| 0 <= i < |h| && h[i].summary.Some? && StateOf(h[i]) == PriorState(h);
    var m := h[i];
    assert WellFormed(m);
    EvidenceIsKnown(h, r.tokens, m);
    KnownStateStays(PriorState(h).value, r.tokens, KnownTokens(h, r.tokens));
  }

  /** A summary in the kept window that the rollover shortens. */
  predicate CutsAt(h: seq<Message>, r: Request, i: int)
    requires |h| >= 3
  {
    RawSplit(h, r.keep) <= i < |h| && h[i].summary.Some? && |h[i].content| > MAX_ROLLOVER_MESSAGE_CHARS
  }

  /** t stands in the state of a kept summary once that is shortened. */
  ghost predicate Yields(h: seq<Message>, r: Request, t: string)
    requires |h| >= 3
  {
    exists i :: CutsAt(h, r, i) && StateOf(Shortened(h[i])).Some? && t in r.tokens(StateOf(Shortened(h[i])).value)
  }

  lemma KeptSummary(h: seq<Message>, r: Request, m: Message) returns (i: nat)
    requires |h| >= 3 && m in RollParts(h, r).keep && m.summary.Some?
    ensures RawSplit(h, r.keep) <= i < |h| && m == Shortened(h[i]) && (m == h[i] || CutsAt(h, r, i))
  {
    hide RawSplit, Bound, AllWords, AllOmitted, Sanitize, KnownTokens, SplitOpenState, Note, Candidate, Chosen;
    var s := RawSplit(h, r.keep);
    var j :| 0 <= j < |h[s..]| && Shortened(h[s..][j]) == m;
    i := s + j;
  }

  /** A rolled history, message by message: where its summaries come from. */
  lemma RollForm(h: seq<Message>, r: Request, m: Message) returns (p: Parts, d: nat)
    requires |h| >= 3 && AllWellFormed(h) && m in Rolled(h, r)
    ensures p == RollParts(h, r) && WellFormed(m)
    ensures m.summary.Some? ==> m in h || m in p.keep || m == SwappedSummary(p, d, |h|, |Rolled(h, r)|)
  {
    hide Rolled, Middle, SwappedSummary, Drops, RollParts, NoReminders, WellFormed;
    p, d := RollLayout(h, r);
    RollMembers(h, r);
    SummaryIsUser(p, d, |h|, |Rolled(h, r)|);
    var sys := h[..Start(h)];
    assert AllWellFormed(sys);
    LayoutForm(sys, SwappedSummary(p, d, |h|, |Rolled(h, r)|), p, d, m);
  }

  /** Every token of an OPEN STATE after a rollover was there before, or a cut state yields it. */
  lemma RollGroundsState(h: seq<Message>, r: Request, t: string)
    requires |h| >= 3 && AllWellFormed(h) && Distributes(r.tokens)
    requires InState(Rolled(h, r), r.tokens, t)
    ensures Mentioned(h, r.tokens, t) || InState(h, r.tokens, t) || Yields(h, r, t)
  {
    hide Rolled, SummaryHead, Footer, RollParts, SplitOpenState, WellFormed, CutsAt, RawSplit, KnownTokens;
    var n := |Rolled(h, r)|;
    var m :| m in Rolled(h, r) && m.summary.Some? && StateOf(m).Some? && t in r.tokens(StateOf(m).value);
    var p, d := RollForm(h, r, m);
    if m in h {
    } else if m in p.keep {
      var i := KeptSummary(h, r, m);
      assert h[i] in h;
    } else {
      RollState(h, r);
      StateSurvivesLayout(p.(preCount := |h|), d, n);
      KnownTokensHaveSource(h, r.tokens, t);
    }
  }

  lemma CutShows(h: seq<Message>, r: Request, t: string)
    requires |h| >= 3 && AllWellFormed(h) && Yields(h, r, t)
    ensures InState(Rolled(h, r), r.tokens, t)
  {
    hide Rolled, RollParts, SplitOpenState, RawSplit, Middle, SwappedSummary, Drops, NoReminders;
    var i :| CutsAt(h, r, i) && StateOf(Shortened(h[i])).Some? && t in r.tokens(StateOf(Shortened(h[i])).value);
    var p, d := RollLayout(h, r);
    KeepIsShortened(h, r);
    var m := Shortened(h[i]);
    assert m == p.keep[i - RawSplit(h, r.keep)];
    assert WellFormed(h[i]);
    FilterMembers(p.keep, m);
    assert m in Rolled(h, r);
  }

  lemma KeepIsShortened(h: seq<Message>, r: Request)
    requires |h| >= 3
    ensures RollParts(h, r).keep == ShortenAll(h[RawSplit(h, r.keep)..])
  {
  }

  /**
   * A rollover invents an issue or a commit exactly when shortening a summary it keeps makes one:
   * a token that was nowhere before is in an OPEN STATE after it if and only if a cut state yields it.
   */
  lemma RollInventsIff(h: seq<Message>, r: Request, t: string)
    requires |h| >= 3 && AllWellFormed(h) && Distributes(r.tokens)
    requires !Mentioned(h, r.tokens, t) && !InState(h, r.tokens, t)
    ensures InState(Rolled(h, r), r.tokens, t) <==> Yields(h, r, t)
  {
    hide Rolled, InState, Mentioned, Yields, WellFormed;
    if InState(Rolled(h, r), r.tokens, t) {
      RollGroundsState(h, r, t);
    }
    if Yields(h, r, t) {
      CutShows(h, r, t);
    }
  }

  lemma RollKeepsForm(h: seq<Message>, r: Request)
    requires |h| >= 3 && AllWellFormed(h)
    ensures AllWellFormed(Rolled(h, r))
  {
    hide Rolled, WellFormed;
    forall m | m in Rolled(h, r)
      ensures WellFormed(m)
    {
      var p, d := RollForm(h, r, m);
    }
  }

  // ---------------------------------------------------------------- tool groups

  /**
   * The cut keeps at least the wanted one to four messages or all but the first, and where it falls
   * on a tool result it is the raw count, the cut on a group boundary having left nothing to replace.
   */
  lemma RawSplitIsGroupOrCount(h: seq<Message>, keep: int)
    requires |h| >= 3
    ensures var s, n, group := RawSplit(h, keep), Kept(keep), SplitPoint(h, Kept(keep));
            && 1 <= n <= 4 && (1 <= keep <= 4 ==> n == keep) && (keep > 4 ==> n == 4) && group.Some?
            && (s == 1 || |h| - s >= n)
            && (group.value > 1 ==> s == group.value && !IsToolResult(h[s]))
            && (group.value <= 1 ==> s == 1 || s == |h| - n)
  {
    SplitDefined(h, Kept(keep));
    SplitIsTight(h, Kept(keep));
  }

  lemma QuietMiddle(h: seq<Message>, r: Request, d: nat, m: Message)
    requires |h| >= 3 && AllWellFormed(h) && TasksAreUsers(r.view)
    requires d <= |Tasks(RollParts(h, r))| && m in Middle(RollParts(h, r), d)
    ensures m.role != Tool && !HasToolCalls(m)
  {
    hide RollParts, ReminderText, WellFormed, Chosen;
    var p := RollParts(h, r);
    var t := Tasks(p)[d..];
    RollTasks(h, r);
    if m in t {
      FilterMembers(p.tasks, m);
      TaskIsUser(h, r.view, m);
    } else if t == [] {
      FilterMembers(p.ledger + p.tasks + p.keep, m);
      RollMembers(h, r);
      QuietIfReminder(m);
    }
  }

  lemma QuietIfReminder(m: Message)
    requires WellFormed(m) && m.reminder
    ensures m.role != Tool && !HasToolCalls(m)
  {
  }

  lemma RollTasks(h: seq<Message>, r: Request)
    requires |h| >= 3
    ensures RollParts(h, r).tasks == ExcerptAll(Pick(h, Chosen(h, r.view))) && RollParts(h, r).ledger == []
  {
    hide RawSplit, Bound, AllWords, AllOmitted, Sanitize, KnownTokens, SplitOpenState, Note, Candidate, Chosen,
         ExcerptAll;
  }

  lemma TaskIsUser(h: seq<Message>, view: TaskView, x: Message)
    requires TasksAreUsers(view) && x in ExcerptAll(Pick(h, Chosen(h, view)))
    ensures x.role == User
  {
    hide Chosen;
    var chosen := Chosen(h, view);
    PreservedAreNewestTasks(h, view);
    var i :| 0 <= i < |chosen| && Excerpt(Pick(h, chosen)[i]) == x;
    assert IsLatest(h, view, chosen[i]);
  }

  lemma {:induction false} ShortenKeepsShape(ms: seq<Message>)
    ensures SameShape(NoReminders(ShortenAll(ms)), NoReminders(ms))
  {
    if ms != [] {
      ShortenKeepsShape(ms[1..]);
      assert ShortenAll(ms)[1..] == ShortenAll(ms[1..]);
    }
  }

  /** A rollover keeps the shape exactly when its kept window, reminders aside, is well shaped on its own. */
  lemma RollKeepsPairsIff(h: seq<Message>, r: Request)
    requires |h| >= 3 && AllWellFormed(h) && TasksAreUsers(r.view)
    ensures Paired(Rolled(h, r)) <==> Paired(NoReminders(h[RawSplit(h, r.keep)..]))
  {
    hide Rolled, RollParts, RawSplit, Middle, SwappedSummary, Drops, NoReminders, Paired, WellFormed, ShortenAll, Tasks;
    var p, d := RollLayout(h, r);
    KeepIsShortened(h, r);
    var sum := SwappedSummary(p, d, |h|, |Rolled(h, r)|);
    SummaryIsUser(p, d, |h|, |Rolled(h, r)|);
    var front, window := h[..Start(h)] + [sum] + Middle(p, d), h[RawSplit(h, r.keep)..];
    forall m | m in front
      ensures m.role != Tool && !HasToolCalls(m)
    {
      if m in Middle(p, d) {
        QuietMiddle(h, r, d, m);
      }
    }
    QuietFront(front, NoReminders(p.keep));
    assert Rolled(h, r) == front + NoReminders(p.keep);
    ShortenKeepsShape(window);
    EqualShapes(NoReminders(p.keep), NoReminders(window));
  }

  lemma EqualShapes(a: seq<Message>, b: seq<Message>)
    requires SameShape(a, b)
    ensures Paired(a) <==> Paired(b)
  {
    if Paired(a) {
      SameShapePaired(a, b);
    }
    if Paired(b) {
      SameShapePaired(b, a);
    }
  }

  /** So it does whenever the cut falls on a group boundary. */
  lemma GroupRollKeepsPairs(h: seq<Message>, r: Request)
    requires |h| >= 3 && AllWellFormed(h) && TasksAreUsers(r.view) && Paired(h)
    requires !IsToolResult(h[RawSplit(h, r.keep)])
    ensures Paired(Rolled(h, r))
  {
    hide Rolled, Paired;
    var s := RawSplit(h, r.keep);
    PairedCut(h, s);
    assert h[s..] + [] == h[s..] && NoReminders(h[s..]) + [] == NoReminders(h[s..]);
    forall m | m in h[s..] && m.reminder
      ensures !HasToolCalls(m)
    {
      assert m in h;
    }
    PairedWithoutReminders(h[s..], []);
    RollKeepsPairsIff(h, r);
  }

  // ---------------------------------------------------------------- operator words

  lemma RollPartsWords(h: seq<Message>, r: Request)
    requires |h| >= 3
    ensures var p, prior := RollParts(h, r), h[1..RawSplit(h, r.keep)];
            p.records == Bound(AllWords(prior))
                && p.omitted == AllOmitted(prior) + |AllWords(prior)| - |Bound(AllWords(prior))|
  {
    hide RawSplit, AllWords, AllOmitted, Sanitize, KnownTokens, SplitOpenState, Note, Candidate, Chosen, Bound;
  }

  lemma {:induction false} ShortenKeepsWords(ms: seq<Message>)
    ensures AllWords(ShortenAll(ms)) == AllWords(ms) && AllOmitted(ShortenAll(ms)) == AllOmitted(ms)
  {
    hide TrustedOnly;
    if ms != [] {
      ShortenKeepsWords(ms[1..]);
      assert ShortenAll(ms)[1..] == ShortenAll(ms[1..]);
    }
  }

  /** A rolled history, as far as operator words go. */
  lemma RollWords(h: seq<Message>, r: Request) returns (p: Parts, d: nat)
    requires |h| >= 3 && AllWellFormed(h)
    ensures p == RollParts(h, r) && d == Drops(p, r.cap) && d <= |Tasks(p)| && AllWellFormed(p.tasks)
    ensures var s, after := RawSplit(h, r.keep), Rolled(h, r);
            && AllWords(after) == Bound(AllWords(h[1..s])) + Inputs(Tasks(p)[d..]) + AllWords(h[s..])
            && AllOmitted(after) + |Bound(AllWords(h[1..s]))| == AllOmitted(h[1..s]) + |AllWords(h[1..s])|
                + AllOmitted(h[s..])
            && SummaryWords(after) == Bound(AllWords(h[1..s]))
  {
    hide Rolled, RollParts, RawSplit, Middle, SwappedSummary, Drops, NoReminders, WellFormed, AllWords, AllOmitted,
         Inputs, Bound, Words, Omitted, CarriedBy, Tasks, ShortenAll, Wordless, SummaryWords;
    p, d := RollLayout(h, r);
    var s, n := RawSplit(h, r.keep), |Rolled(h, r)|;
    var sys, sum := h[..Start(h)], SwappedSummary(p, d, |h|, n);
    SummaryIsUser(p, d, |h|, n);
    RollPartsWords(h, r);
    SummaryCarries(p, d, |h|, n, h[1..s]);
    RollMembers(h, r);
    RollTasks(h, r);
    NoInputs([]);
    SystemIsWordless(h);
    LayoutWords(sys, sum, p, d, []);
    KeepIsShortened(h, r);
    ShortenKeepsWords(h[s..]);
    var rest := Middle(p, d) + NoReminders(p.keep);
    assert sys + [sum] + rest + [] == Rolled(h, r) && p.keep + [] == p.keep;
    LeadingSummary(sys, sum, rest);
  }

  /**
   * A rollover forgets exactly the records of a first message that is no system prompt, and counts again
   * exactly those of the live tasks it keeps.
   */
  lemma RollWordCount(h: seq<Message>, r: Request)
    requires |h| >= 3 && AllWellFormed(h)
    ensures var p := RollParts(h, r);
            WordCount(Rolled(h, r)) + WordCount(h[..1]) == WordCount(h) + |Inputs(Tasks(p)[Drops(p, r.cap)..])|
    ensures Start(h) == 1 ==> WordCount(h[..1]) == 0
  {
    hide Rolled, RollParts, RawSplit, AllWords, AllOmitted, Inputs, Bound, Tasks, Drops, WellFormed, Wordless;
    var p, d := RollWords(h, r);
    var s := RawSplit(h, r.keep);
    assert h == h[..1] + h[1..] && h[1..] == h[1..s] + h[s..];
    CollectConcat(h[..1], h[1..]);
    CollectConcat(h[1..s], h[s..]);
    if Start(h) == 1 {
      SystemIsWordless(h);
      NoWords(h[..1]);
    }
  }

  /** With a system prompt, something to replace and no records on live tasks, a rollover keeps the words. */
  lemma RollKeepsWords(h: seq<Message>, r: Request, log: seq<Record>, lost: nat)
    requires |h| >= 3 && AllWellFormed(h) && Start(h) == 1 < RawSplit(h, r.keep)
    requires Inputs(RollParts(h, r).tasks) == [] && CarriesWords(h, log, lost)
    ensures CarriesWords(Rolled(h, r), log, lost) && Within(SummaryWords(Rolled(h, r)))
  {
    hide Rolled, RollParts, RawSplit, Drops, WellFormed, AllWords, AllOmitted, Inputs, Bound, CarriesWords, Within,
         Tasks, SummaryWords;
    var p, d := RollWords(h, r);
    NoTaskWords(p, d);
    RollKeepsForm(h, r);
    MovedWords(h, Rolled(h, r), RawSplit(h, r.keep), log, lost);
  }

  /** Wherever it cuts: unless the first message or a live task carries records, none is lost or counted twice. */
  lemma RollAccounts(h: seq<Message>, r: Request, log: seq<Record>, lost: nat)
    requires |h| >= 3 && AllWellFormed(h) && WordCount(h[..1]) == 0
    requires Inputs(RollParts(h, r).tasks) == [] && Accounts(h, log, lost)
    ensures Accounts(Rolled(h, r), log, lost)
  {
    hide Rolled, RollParts, RawSplit, Drops, WellFormed, AllWords, AllOmitted, Inputs, Bound, Accounts, Tasks,
         SummaryWords;
    var p, d := RollWords(h, r);
    NoTaskWords(p, d);
    var s := RawSplit(h, r.keep);
    assert h == h[..1] + h[1..] && h[1..] == h[1..s] + h[s..];
    CollectConcat(h[..1], h[1..]);
    CollectConcat(h[1..s], h[s..]);
    BoundedFrontAccounts(h, Rolled(h, r), AllWords(h[1..s]), AllWords(h[s..]), log, lost);
  }

  /** A cut on a tool result orphans that result. */
  lemma RollOnResultOrphans(h: seq<Message>, r: Request)
    requires |h| >= 3 && AllWellFormed(h) && TasksAreUsers(r.view)
    requires h[RawSplit(h, r.keep)].role == Tool
    ensures !Paired(Rolled(h, r))
  {
    hide Rolled, Paired, RawSplit;
    var window := h[RawSplit(h, r.keep)..];
    assert window[0] in h && !window[0].reminder;
    LeadingResult(NoReminders(window));
    RollKeepsPairsIff(h, r);
  }

  lemma LeadingResult(h: seq<Message>)
    requires h != [] && h[0].role == Tool
    ensures !Paired(h)
  {
    forall j
      ensures !Owns(h, j, 0)
    {
    }
  }
}
