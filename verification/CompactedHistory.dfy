/** Building the replacement history: layout, the single task reminder, and the forced drop of old tasks. */
module CompactedHistory {
  import opened Options
  import opened Messages
  import opened Text
  import opened OpenState

  const SUMMARY_INJECTION_PREFIX: string :=
    "[Previous Context Summary]\nThe following is a summary of our earlier conversation:\n\n"
  const SUMMARY_INJECTION_SUFFIX: string := "\n\nContinue from where we left off."
  const OPERATOR_WORDS_MARKER: string := "=== OPERATOR'S OWN WORDS " + "(verbatim, oldest first) ==="
  const OPERATOR_WORDS_END_MARKER: string := "=== END OPERATOR'S OWN WORDS ==="

  /** What one round hands to the builder. */
  datatype Parts = Parts(
    system: Option<Message>,
    summary: string,
    keep: seq<Message>,
    tasks: seq<Message>,
    ledger: seq<Message>,
    round: nat,
    preCount: nat,
    records: seq<Record>,
    omitted: int,
    state: string)

  // ---------------------------------------------------------------- the summary message

  function RecordLines(rs: seq<Record>): seq<string> {
    if rs == [] then []
    else ["[" + rs[0].timestamp + " | " + rs[0].source + "] " + rs[0].text] + RecordLines(rs[1..])
  }

  function AtLeastZero(n: int): nat {
    if n > 0 then n else 0
  }

  function OperatorBlock(rs: seq<Record>, omitted: nat): string {
    if rs == [] && omitted == 0 then ""
    else Join("\n",
              [OPERATOR_WORDS_MARKER]
              + (if omitted == 0 then []
                 else ["[" + Decimal(omitted) + " older operator messages omitted by the preservation limit.]"])
              + RecordLines(rs)
              + [OPERATOR_WORDS_END_MARKER])
  }

  /** Says how many preserved tasks were dropped; empty when none was. */
  function DropNote(d: nat): string {
    if d == 0 then "" else DROPPED + Decimal(d) + DROPPED_TASKS
  }

  const DROPPED: string := "\n\n[Dropped "
  const DROPPED_TASKS: string :=
    " oldest preserved task message(s) to fit the hard context cap; the full text remains in the session transcript.]"

  /** The note gives the exact count: different counts read differently. */
  lemma DropNoteIsExact(d: nat, e: nat)
    ensures DropNote(d) == DropNote(e) <==> d == e
  {
    hide Decimal, DROPPED_TASKS;
    if DropNote(d) == DropNote(e) {
      if d > 0 && e > 0 {
        InfixInjective(DROPPED, Decimal(d), Decimal(e), DROPPED_TASKS);
        DecimalInjective(d, e);
      } else {
        assert |DROPPED| > 0;
      }
    }
  }

  /** Everything before the OPEN STATE footer. */
  function SummaryHead(p: Parts, d: nat): string {
    var block := OperatorBlock(p.records, AtLeastZero(p.omitted));
    SUMMARY_INJECTION_PREFIX + RStrip(p.summary + DropNote(d)) + SUMMARY_INJECTION_SUFFIX
    + (if block != "" then "\n\n" + block else "")
  }

  function SummaryMessage(p: Parts, d: nat, postCount: nat): Message {
    Plain(User, SummaryHead(p, d) + "\n\n" + Footer(p.state)).(
      summary := Some(SummaryMeta(p.records, AtLeastZero(p.omitted), p.round, p.preCount, postCount)))
  }

  // ---------------------------------------------------------------- the reminder

  function ReminderLines(tasks: seq<Message>, i: nat): seq<string> {
    if tasks == [] then []
    else
      var c := tasks[0].content;
      ["  " + Decimal(i) + ". From " + tasks[0].hubFrom + ": " + (if |c| > 200 then c[..200] + "..." else c)]
      + ReminderLines(tasks[1..], i + 1)
  }

  const REMINDER_HEAD: seq<string> :=
    ["[Task Reminder after context compaction]",
     "The following tasks from hub agents are still active and were preserved verbatim above:",
     ""]
  const REMINDER_FOOT: seq<string> :=
    ["",
     "Complete these tasks and report back as instructed. The full task text is in the messages above."]

  function ReminderText(tasks: seq<Message>): string {
    Join("\n", REMINDER_HEAD + ReminderLines(tasks, 1) + REMINDER_FOOT)
  }

  function ReminderMessage(tasks: seq<Message>): Message {
    Plain(User, ReminderText(tasks)).(reminder := true)
  }

  /** Older reminders riding along in any part. */
  function Stale(p: Parts): seq<Message> {
    Reminders(p.ledger + p.tasks + p.keep)
  }

  /** The tasks themselves, without reminders that look like tasks. */
  function Tasks(p: Parts): seq<Message> {
    NoReminders(p.tasks)
  }

  /** This round's reminder, or the newest old one when no task is live. */
  function ReminderPart(tasks: seq<Message>, stale: seq<Message>): seq<Message> {
    if tasks != [] then [ReminderMessage(tasks)]
    else if stale != [] then [stale[|stale| - 1]]
    else []
  }

  // ---------------------------------------------------------------- the layout

  function SystemPart(p: Parts): seq<Message> {
    if p.system.Some? then [p.system.value] else []
  }

  /** What follows the summary message once d tasks have been dropped. */
  function Tail(p: Parts, d: nat): seq<Message>
    requires d <= |Tasks(p)|
  {
    NoReminders(p.ledger) + Tasks(p)[d..] + ReminderPart(Tasks(p)[d..], Stale(p)) + NoReminders(p.keep)
  }

  function Layout(p: Parts, d: nat): seq<Message>
    requires d <= |Tasks(p)|
  {
    SystemPart(p) + [SummaryMessage(p, d, |SystemPart(p)| + 1 + |Tail(p, d)|)] + Tail(p, d)
  }

  /** More than one task is left and the estimate is still at or above the cap. */
  function MustDrop(p: Parts, cap: nat): nat -> bool {
    (d: nat) => cap > 0 && d + 1 < |Tasks(p)| && Estimate(Layout(p, d)) >= cap
  }

  /** The first number from d on at which `must` stops, at most n. */
  function FirstNot(must: nat -> bool, d: nat, n: nat): (r: nat)
    requires d <= n
    ensures d <= r <= n
    decreases n - d
  {
    if d < n && must(d) then FirstNot(must, d + 1, n) else d
  }

  lemma {:induction false} FirstNotIsLeast(must: nat -> bool, d: nat, n: nat)
    requires d <= n
    ensures var r := FirstNot(must, d, n);
            && (r == n || !must(r))
            && forall e :: d <= e < r ==> must(e)
    decreases n - d
  {
    if d < n && must(d) {
      FirstNotIsLeast(must, d + 1, n);
    }
  }

  function Drops(p: Parts, cap: nat): (r: nat)
    ensures r <= |Tasks(p)|
  {
    FirstNot(MustDrop(p, cap), 0, |Tasks(p)|)
  }

  function Compacted(p: Parts, cap: nat): seq<Message> {
    Layout(p, Drops(p, cap))
  }

  /** Each drop was forced, no further one is, and the newest task always survives. */
  lemma DropsAreForced(p: Parts, cap: nat)
    ensures forall e :: 0 <= e < Drops(p, cap) ==> cap > 0 && |Tasks(p)[e..]| > 1 && Estimate(Layout(p, e)) >= cap
    ensures cap > 0 && |Tasks(p)[Drops(p, cap)..]| > 1 ==> Estimate(Layout(p, Drops(p, cap))) < cap
    ensures cap == 0 ==> Drops(p, cap) == 0
    ensures Tasks(p) != [] ==> Drops(p, cap) < |Tasks(p)|
  {
    hide Layout;
    var must, n := MustDrop(p, cap), |Tasks(p)|;
    FirstNotIsLeast(must, 0, n);
    LastIsFree(p, cap);
    assert n > 0 ==> !must(n - 1);
    forall e | 0 <= e < Drops(p, cap)
      ensures cap > 0 && |Tasks(p)[e..]| > 1 && Estimate(Layout(p, e)) >= cap
    {
      assert must(e);
    }
    assert !must(Drops(p, cap));
  }

  lemma LastIsFree(p: Parts, cap: nat)
    ensures forall d: nat :: d + 1 >= |Tasks(p)| ==> !MustDrop(p, cap)(d)
  {
  }

  // ---------------------------------------------------------------- the builder

  /** The parts a retry works on: reminders gone, the d oldest tasks gone. */
  ghost function Retry(p: Parts, d: nat): Parts
    requires d <= |Tasks(p)|
  {
    if d == 0 then p
    else p.(ledger := NoReminders(p.ledger), tasks := Tasks(p)[d..], keep := NoReminders(p.keep))
  }

  lemma RetryParts(p: Parts, d: nat)
    requires d <= |Tasks(p)|
    ensures var q := Retry(p, d);
            && NoReminders(q.ledger) == NoReminders(p.ledger)
            && Tasks(q) == Tasks(p)[d..]
            && NoReminders(q.keep) == NoReminders(p.keep)
            && (d > 0 ==> Stale(q) == [])
  {
    if d > 0 {
      var q := Retry(p, d);
      forall m | m in q.ledger + q.tasks + q.keep
        ensures !m.reminder
      {
        FilterMembers(p.ledger, m);
        FilterMembers(p.tasks, m);
        FilterMembers(p.keep, m);
      }
      NothingToFilter(q.ledger);
      NothingToFilter(q.tasks);
      NothingToFilter(q.keep);
      NothingToFilter(q.ledger + q.tasks + q.keep);
    }
  }

  method FilterReminders(h: seq<Message>) returns (r: seq<Message>)
    ensures r == NoReminders(h)
  {
    r := [];
    for i := 0 to |h|
      invariant r == NoReminders(h[..i])
    {
      assert h[..i + 1] == h[..i] + [h[i]];
      FilterConcat(h[..i], [h[i]]);
      if !h[i].reminder {
        r := r + [h[i]];
      }
    }
    assert h[..|h|] == h;
  }

  /** Sets old reminders aside, from every part. */
  method SetRemindersAside(p: Parts)
    returns (stale: seq<Message>, ledger: seq<Message>, tasks: seq<Message>, keep: seq<Message>)
    ensures stale == Stale(p)
    ensures ledger == NoReminders(p.ledger) && tasks == Tasks(p) && keep == NoReminders(p.keep)
  {
    stale := Reminders(p.ledger + p.tasks + p.keep);
    ledger, tasks, keep := p.ledger, p.tasks, p.keep;
    if stale != [] {
      ledger := FilterReminders(p.ledger);
      tasks := FilterReminders(p.tasks);
      keep := FilterReminders(p.keep);
    } else {
      NoStaleNothingFiltered(p);
    }
  }

  /** Fills the list part by part. */
  method Fill(head: seq<Message>, ledger: seq<Message>, tasks: seq<Message>, stale: seq<Message>, keep: seq<Message>)
    returns (compacted: seq<Message>)
    ensures compacted == head + (ledger + tasks + ReminderPart(tasks, stale) + keep)
  {
    hide ReminderText;
    compacted := head + ledger;
    if tasks != [] {
      compacted := compacted + tasks;
      compacted := compacted + [ReminderMessage(tasks)];
    } else if stale != [] {
      compacted := compacted + [stale[|stale| - 1]];
    }
    assert compacted == head + (ledger + tasks + ReminderPart(tasks, stale));
    compacted := compacted + keep;
  }

  /** A retry has the same reminder to write: tasks are left, or nothing was dropped. */
  lemma RetryStale(p: Parts, d: nat)
    requires d <= |Tasks(p)| && (d > 0 ==> d < |Tasks(p)|)
    ensures var q := Retry(p, d); ReminderPart(Tasks(q), Stale(q)) == ReminderPart(Tasks(p)[d..], Stale(p))
  {
    hide ReminderMessage, NoReminders, Reminders;
    RetryParts(p, d);
  }

  /** A pass on a retry's parts is the layout of the original parts with that many tasks dropped. */
  lemma PassIsLayout(origin: Parts, d: nat, pass: seq<Message>)
    requires d <= |Tasks(origin)| && (d > 0 ==> d < |Tasks(origin)|)
    requires var q := Retry(origin, d);
             pass == SystemPart(q) + [SummaryMessage(q, d, 0)]
                     + (NoReminders(q.ledger) + Tasks(q) + ReminderPart(Tasks(q), Stale(q)) + NoReminders(q.keep))
    ensures Estimate(pass) == Estimate(Layout(origin, d))
    ensures var at := |SystemPart(origin)|;
            at < |pass| && pass[at := SummaryMessage(origin, d, |pass|)] == Layout(origin, d)
  {
    hide SummaryHead, Footer, ReminderPart, NoReminders, Reminders, Retry;
    RetryParts(origin, d);
    RetryStale(origin, d);
    SummaryIgnoresRetry(origin, d, 0);
    var sys, tail := SystemPart(origin), Tail(origin, d);
    var blank, full := SummaryMessage(origin, d, 0), SummaryMessage(origin, d, |pass|);
    assert pass == sys + [blank] + tail;
    PostCountIsFree(sys, blank, full, tail);
  }

  /** One pass of the builder, with the post-count still blank. */
  method Pass(p: Parts, dropped: nat)
    returns (compacted: seq<Message>, ledger: seq<Message>, tasks: seq<Message>, keep: seq<Message>)
    ensures ledger == NoReminders(p.ledger) && tasks == Tasks(p) && keep == NoReminders(p.keep)
    ensures compacted == SystemPart(p) + [SummaryMessage(p, dropped, 0)]
            + (ledger + tasks + ReminderPart(tasks, Stale(p)) + keep)
  {
    hide SummaryMessage, ReminderPart, Tasks, Stale, NoReminders;
    var stale;
    stale, ledger, tasks, keep := SetRemindersAside(p);
    compacted := [];
    if p.system.Some? {
      compacted := compacted + [p.system.value];
    }
    compacted := compacted + [SummaryMessage(p, dropped, 0)];
    compacted := Fill(compacted, ledger, tasks, stale, keep);
  }

  lemma RetryNext(origin: Parts, d: nat)
    requires d < |Tasks(origin)|
    ensures var q := Retry(origin, d);
            && |Tasks(q)| == |Tasks(origin)| - d
            && q.(ledger := NoReminders(q.ledger), tasks := Tasks(q)[1..], keep := NoReminders(q.keep))
                == Retry(origin, d + 1)
  {
    RetryParts(origin, d);
  }

  lemma FirstNotStep(must: nat -> bool, d: nat, n: nat)
    requires d <= n
    ensures FirstNot(must, d, n) == if d < n && must(d) then FirstNot(must, d + 1, n) else d
  {
  }

  /** The builder calls itself with one task fewer until the result fits; `origin` is the first call's input. */
  method BuildCompactedHistory(p: Parts, dropped: nat, cap: nat, ghost origin: Parts) returns (compacted: seq<Message>)
    requires dropped <= |Tasks(origin)| && (dropped > 0 ==> dropped < |Tasks(origin)|)
    requires p == Retry(origin, dropped)
    ensures compacted == Layout(origin, FirstNot(MustDrop(origin, cap), dropped, |Tasks(origin)|))
    decreases |Tasks(origin)| - dropped
  {
    hide Layout, SummaryMessage, ReminderPart, Retry, FirstNot, Estimate, Tasks, Stale, NoReminders;
    var ledger, tasks, keep;
    compacted, ledger, tasks, keep := Pass(p, dropped);
    RetryParts(origin, dropped);
    PassIsLayout(origin, dropped, compacted);
    SummaryIgnoresRetry(origin, dropped, |compacted|);
    FirstNotStep(MustDrop(origin, cap), dropped, |Tasks(origin)|);
    assert |tasks| == |Tasks(origin)| - dropped;
    if cap > 0 && |tasks| > 1 && Estimate(compacted) >= cap {
      RetryNext(origin, dropped);
      compacted := BuildCompactedHistory(p.(ledger := ledger, tasks := tasks[1..], keep := keep), dropped + 1, cap,
          origin);
    } else {
      compacted := compacted[|SystemPart(p)| := SummaryMessage(p, dropped, |compacted|)];
    }
  }

  lemma NoStaleNothingFiltered(p: Parts)
    requires Stale(p) == []
    ensures NoReminders(p.ledger) == p.ledger && NoReminders(p.tasks) == p.tasks && NoReminders(p.keep) == p.keep
  {
    var all := p.ledger + p.tasks + p.keep;
    forall m | m in all
      ensures !m.reminder
    {
      FilterMembers(all, m);
    }
    NothingToFilter(p.ledger);
    NothingToFilter(p.tasks);
    NothingToFilter(p.keep);
  }

  lemma SummaryIgnoresRetry(origin: Parts, d: nat, n: nat)
    requires d <= |Tasks(origin)|
    ensures SummaryMessage(Retry(origin, d), d, n) == SummaryMessage(origin, d, n)
    ensures SystemPart(Retry(origin, d)) == SystemPart(origin)
  {
    hide OperatorBlock, DropNote, Footer, RStrip;
  }

  /** Only text counts towards the estimate. */
  lemma PostCountIsFree(a: seq<Message>, m: Message, m': Message, b: seq<Message>)
    requires m.content == m'.content
    ensures Estimate(a + [m] + b) == Estimate(a + [m'] + b)
  {
    CharsConcat(a + [m], b);
    CharsConcat(a + [m'], b);
    CharsConcat(a, [m]);
    CharsConcat(a, [m']);
  }

  // ---------------------------------------------------------------- what the build promises

  lemma RemindersOfParts(sys: seq<Message>, sum: Message, l: seq<Message>, t: seq<Message>, r: seq<Message>,
      k: seq<Message>)
    requires !sum.reminder && Reminders(l) == [] && Reminders(t) == [] && Reminders(k) == []
    ensures Reminders(sys + [sum] + (l + t + r + k)) == Reminders(sys) + Reminders(r)
  {
    FilterConcat(sys + [sum], l + t + r + k);
    FilterConcat(sys, [sum]);
    FilterConcat(l + t + r, k);
    FilterConcat(l + t, r);
    FilterConcat(l, t);
  }

  lemma ReminderPartFlagged(p: Parts, t: seq<Message>)
    ensures var r := ReminderPart(t, Stale(p)); Reminders(r) == r
  {
    hide ReminderText;
    if t == [] && Stale(p) != [] {
      FilterMembers(p.ledger + p.tasks + p.keep, ReminderPart(t, Stale(p))[0]);
    }
  }

  /**
   * Exactly one reminder when a task or an old reminder exists, else none (a flagged system prompt aside):
   * a new one of the surviving tasks, or the newest old one.
   */
  lemma OneReminder(p: Parts, d: nat)
    requires d <= |Tasks(p)| && (Tasks(p) == [] || d < |Tasks(p)|)
    ensures |Reminders(Layout(p, d))|
         == |Reminders(SystemPart(p))| + (if Tasks(p) != [] || Stale(p) != [] then 1 else 0)
    ensures Tasks(p) != [] ==> Reminders(Layout(p, d)) == Reminders(SystemPart(p)) + [ReminderMessage(Tasks(p)[d..])]
    ensures Tasks(p) == [] && Stale(p) != [] ==>
              Reminders(Layout(p, d)) == Reminders(SystemPart(p)) + [Stale(p)[|Stale(p)| - 1]]
  {
    hide SummaryHead, Footer, ReminderText;
    var t := Tasks(p)[d..];
    NoneFlagged(p.ledger);
    NoneFlagged(p.keep);
    NoneFlagged(p.tasks);
    assert Tasks(p) == Tasks(p)[..d] + t;
    FilterConcat(Tasks(p)[..d], t);
    ReminderPartFlagged(p, t);
    RemindersOfParts(SystemPart(p), SummaryMessage(p, d, |SystemPart(p)| + 1 + |Tail(p, d)|),
                     NoReminders(p.ledger), t, ReminderPart(t, Stale(p)), NoReminders(p.keep));
  }

  lemma NoneFlagged(h: seq<Message>)
    ensures Reminders(NoReminders(h)) == []
  {
    forall m | m in NoReminders(h)
      ensures !m.reminder
    {
      FilterMembers(h, m);
    }
    NothingToFilter(NoReminders(h));
  }

  /** The next round reads back exactly the state this round wrote, and nothing of the rest. */
  lemma StateSurvivesLayout(p: Parts, d: nat, n: nat)
    requires Sanitized(p.state)
    ensures SplitOpenState(SummaryMessage(p, d, n).content) == Parsed(RStrip(SummaryHead(p, d)), Some(p.state))
  {
    FooterRoundTrip(SummaryHead(p, d), p.state);
  }
}
