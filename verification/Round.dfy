/** One compaction round: from a snapshot of the history to its replacement, and the swap. */
module Round {
  import opened Options
  import opened Messages
  import opened ToolGroups
  import opened OperatorWords
  import opened OpenState
  import opened OperatorBlocks
  import opened Routing
  import opened CompactedHistory
  import opened Text

  /** What a round takes from outside the snapshot; the summary is whatever the summarizer wrote. */
  datatype Input = Input(
    keep: int,                          // the keep-recent count for the snapshot
    ledger: Ledger,
    view: TaskView,
    summary: string,
    round: nat,
    cap: nat,
    tokens: string -> set<string>)

  /** Where the summarizable part starts: after a system prompt. */
  function Start(h: seq<Message>): nat {
    if h != [] && h[0].role == System then 1 else 0
  }

  /** The cut of a snapshot that has something to compact. */
  function Cut(h: seq<Message>, keep: int): Option<nat> {
    var s := SplitPoint(h, keep);
    if s.Some? && s.value > 1 then s else None
  }

  lemma CutIsClean(h: seq<Message>, keep: int)
    requires Cut(h, keep).Some?
    ensures var s := Cut(h, keep).value; Start(h) < s < |h| && !IsToolResult(h[s])
  {
    SplitDefined(h, keep);
    SplitIsTight(h, keep);
  }

  function Handled(prior: seq<Message>, input: Input): seq<Message> {
    HandleAll(Pick(prior, Where(|prior|, Tracked(prior, input.ledger))), input.ledger)
  }

  function Rest(prior: seq<Message>, input: Input): seq<Message> {
    Pick(prior, Where(|prior|, NotTracked(prior, input.ledger)))
  }

  function Preserved(prior: seq<Message>, input: Input): seq<Message> {
    ExcerptAll(Pick(Rest(prior, input), Chosen(Rest(prior, input), input.view)))
  }

  /** The summarizer's text without operator-word blocks of its own making. */
  function Proposal(input: Input): string {
    WithoutBlocks(input.summary, OPERATOR_WORDS_MARKER, OPERATOR_WORDS_END_MARKER)
  }

  /** The state the summarizer proposes, sanitized against the whole snapshot. */
  function NewState(h: seq<Message>, input: Input): string {
    var proposed := SplitOpenState(Proposal(input)).state;
    Sanitize(if proposed.Some? then proposed.value else "", input.tokens, KnownTokens(h, input.tokens))
  }

  function NewSummary(input: Input): string {
    SplitOpenState(Proposal(input)).prefix
  }

  /** No operator-words marker anywhere, and no line that is the OPEN STATE marker. */
  ghost predicate Unmarked(text: string) {
    !Occurs(text, OPERATOR_WORDS_MARKER) && LastMarker(LinesKept(text), OPEN_STATE_MARKER) < 0
  }

  /** What is taken out of a text before it becomes a summary. */
  lemma UnmarkedIff(text: string)
    ensures var stripped := WithoutBlocks(text, OPERATOR_WORDS_MARKER, OPERATOR_WORDS_END_MARKER);
            && (SplitOpenState(stripped).prefix == text <==> Unmarked(text))
            && (Unmarked(text) ==> SplitOpenState(stripped).state == None)
            && |SplitOpenState(stripped).prefix| <= |stripped| <= |text|
  {
    hide SplitOpenState, LastMarker, LinesKept;
    StripShortensIff(text, OPERATOR_WORDS_MARKER, OPERATOR_WORDS_END_MARKER);
    SplitShortensIff(WithoutBlocks(text, OPERATOR_WORDS_MARKER, OPERATOR_WORDS_END_MARKER));
  }

  /**
   * Notes, coordination blocks and summary reach the summary message whole if and only if together they
   * hold no operator-words marker and no OPEN STATE line.
   */
  lemma TextSurvivesIff(input: Input)
    ensures NewSummary(input) == input.summary <==> Unmarked(input.summary)
    ensures |NewSummary(input)| <= |Proposal(input)|
  {
    hide SplitOpenState, Unmarked;
    UnmarkedIff(input.summary);
  }

  function RoundParts(h: seq<Message>, s: nat, input: Input): Parts
    requires Start(h) < s <= |h|
  {
    var prior := h[Start(h)..s];
    var words := AllWords(prior);
    Parts(if Start(h) == 1 then Some(h[0]) else None,
          NewSummary(input),
          h[s..],
          Preserved(prior, input),
          Handled(prior, input),
          input.round,
          |h|,
          Bound(words),
          AllOmitted(prior) + |words| - |Bound(words)|,
          NewState(h, input))
  }

  /** The staged replacement of a snapshot. */
  function Replacement(h: seq<Message>, input: Input): seq<Message>
    requires Cut(h, input.keep).Some?
  {
    CutIsClean(h, input.keep);
    Compacted(RoundParts(h, Cut(h, input.keep).value, input), input.cap)
  }

  /** Writes the message counts before and after the swap into the first summary. */
  function Stamp(r: seq<Message>, pre: nat, post: nat): (t: seq<Message>)
    ensures |t| == |r|
  {
    if r == [] then []
    else if r[0].summary.Some?
    then [r[0].(summary := Some(r[0].summary.value.(preCount := pre, postCount := post)))] + r[1..]
    else [r[0]] + Stamp(r[1..], pre, post)
  }

  /** A swap puts a staged replacement before everything that came after its baseline. */
  function SwapIn(h: seq<Message>, k: nat, replacement: seq<Message>): seq<Message>
    requires k <= |h|
  {
    Stamp(replacement, |h|, |replacement| + |h| - k) + h[k..]
  }

  /** The staged replacement as a swap into h stamps it. */
  function Front(h: seq<Message>, snapshot: seq<Message>, input: Input): seq<Message>
    requires |snapshot| <= |h| && Cut(snapshot, input.keep).Some?
  {
    var r := Replacement(snapshot, input);
    Stamp(r, |h|, |r| + |h| - |snapshot|)
  }

  /** The swap of the replacement of a snapshot, whether or not h still starts with it. */
  function Swapped(h: seq<Message>, snapshot: seq<Message>, input: Input): seq<Message>
    requires |snapshot| <= |h| && Cut(snapshot, input.keep).Some?
  {
    Front(h, snapshot, input) + h[|snapshot|..]
  }

  // ---------------------------------------------------------------- members of the replacement

  /** The messages between the system prompt and the kept window, as the builder places them. */
  ghost function Middle(p: Parts, d: nat): seq<Message>
    requires d <= |Tasks(p)|
  {
    NoReminders(p.ledger) + Tasks(p)[d..] + ReminderPart(Tasks(p)[d..], Stale(p))
  }

  lemma LayoutIsMiddleAndKeep(p: Parts, d: nat)
    requires d <= |Tasks(p)|
    ensures Layout(p, d) == SystemPart(p) + [SummaryMessage(p, d, |Layout(p, d)|)] + Middle(p, d) + NoReminders(p.keep)
  {
    hide SummaryMessage, ReminderPart, NoReminders, Tasks, Stale;
    assert Tail(p, d) == Middle(p, d) + NoReminders(p.keep);
    var head := SystemPart(p) + [SummaryMessage(p, d, |Layout(p, d)|)];
    assert head + (Middle(p, d) + NoReminders(p.keep)) == head + Middle(p, d) + NoReminders(p.keep);
  }

  /** Hub tasks are user messages. */
  ghost predicate TasksAreUsers(v: TaskView) {
    forall m :: v.hubTask(m) ==> m.role == User
  }

  /** What synthetic messages look like: reminders and summaries are plain, system prompts carry no words. */
  predicate WellFormed(m: Message) {
    && (m.reminder ==> m.role != Tool && !HasToolCalls(m) && m.operatorInputs == [] && m.summary == None)
    && (m.summary.Some? ==>
          m.role == User && m.ctxIds == [] && m.taskId == None && m.operatorInputs == [] && !m.reminder)
    && (m.role == System ==> m.operatorInputs == [] && m.summary == None)
  }

  ghost predicate AllWellFormed(h: seq<Message>) {
    forall m :: m in h ==> WellFormed(m)
  }

  lemma TrackedHasIds(m: Message, ledger: Ledger)
    requires Judge(m, ledger) != Untracked
    ensures m.ctxIds != []
  {
  }

  lemma HandledMember(prior: seq<Message>, input: Input, m: Message)
    requires AllWellFormed(prior) && m in Handled(prior, input)
    ensures WellFormed(m) && m.role != Tool && m.summary == None
  {
    hide SummaryLines, Where, Judge;
    var picked := Pick(prior, Where(|prior|, Tracked(prior, input.ledger)));
    var i :| 0 <= i < |picked| && Handled(prior, input)[i] == m;
    var at := Where(|prior|, Tracked(prior, input.ledger))[i];
    assert picked[i] in prior;
    WhereMembers(|prior|, Tracked(prior, input.ledger), at);
    assert Judge(prior[at], input.ledger) != Untracked;
    TrackedHasIds(prior[at], input.ledger);
  }

  /** An excerpt of a live task is as well formed as the task, and no summary. */
  lemma ExcerptForm(t: Message)
    requires WellFormed(t) && t.taskId.Some?
    ensures WellFormed(Excerpt(t)) && Excerpt(t).summary == None
  {
    hide ExcerptPrefix, EXCERPT_SUFFIX;
  }

  lemma PreservedMember(prior: seq<Message>, input: Input, m: Message)
    requires AllWellFormed(prior) && m in Preserved(prior, input)
    ensures WellFormed(m) && m.summary == None
    ensures TasksAreUsers(input.view) ==> m.role == User
  {
    hide WellFormed, Excerpt, Chosen, Rest;
    var rest := Rest(prior, input);
    var chosen := Chosen(rest, input.view);
    PreservedAreNewestTasks(rest, input.view);
    var i :| 0 <= i < |chosen| && Excerpt(Pick(rest, chosen)[i]) == m;
    var t := rest[chosen[i]];
    assert IsLatest(rest, input.view, chosen[i]);
    RestMember(prior, input, t);
    ExcerptForm(t);
  }

  lemma RestMember(prior: seq<Message>, input: Input, t: Message)
    requires t in Rest(prior, input)
    ensures t in prior
  {
    hide Where;
  }

  /** Everything but the kept window and the summary: well formed, and never a tool-role message. */
  lemma MiddleMember(p: Parts, d: nat, m: Message)
    requires d <= |Tasks(p)| && m in Middle(p, d)
    requires forall x :: x in p.ledger || x in p.tasks ==> WellFormed(x) && x.summary == None
    requires AllWellFormed(p.keep)
    ensures WellFormed(m) && m.summary == None
    ensures (forall x :: x in p.ledger || x in p.tasks ==> x.role != Tool) ==> m.role != Tool
  {
    hide ReminderText;
    var t := Tasks(p)[d..];
    if m in ReminderPart(t, Stale(p)) {
      if t == [] {
        FilterMembers(p.ledger + p.tasks + p.keep, m);
      }
    } else {
      FilterMembers(p.ledger, m);
      FilterMembers(p.tasks, m);
    }
  }

  /** The parts of a round satisfy what the previous lemma asks. */
  lemma PartsMembers(h: seq<Message>, s: nat, input: Input)
    requires AllWellFormed(h) && Start(h) < s <= |h|
    ensures var p := RoundParts(h, s, input);
            && (forall x :: x in p.ledger || x in p.tasks ==> WellFormed(x) && x.summary == None)
            && (forall x :: x in p.ledger ==> x.role != Tool)
            && AllWellFormed(p.keep)
            && (TasksAreUsers(input.view) ==> forall x :: x in p.tasks ==> x.role == User)
  {
    hide NewState, NewSummary, Bound, Handled, Preserved;
    var p := RoundParts(h, s, input);
    var prior := h[Start(h)..s];
    assert AllWellFormed(prior);
    forall x | x in p.ledger
      ensures WellFormed(x) && x.summary == None && x.role != Tool
    {
      HandledMember(prior, input, x);
    }
    forall x | x in p.tasks
      ensures WellFormed(x) && x.summary == None && (TasksAreUsers(input.view) ==> x.role == User)
    {
      PreservedMember(prior, input, x);
    }
  }
}
