/** What a swap keeps: tool groups whole, operator words counted once, and a grounded OPEN STATE. */
module RoundEffects {
  import opened Options
  import opened Messages
  import opened ToolGroups
  import opened OperatorWords
  import opened OpenState
  import opened CompactedHistory
  import opened Routing
  import opened Round

  /** The replacement, taken apart: what precedes the kept window, and the window. */
  lemma ReplacementParts(h: seq<Message>, input: Input) returns (p: Parts, d: nat)
    requires Cut(h, input.keep).Some?
    ensures Start(h) < Cut(h, input.keep).value < |h|
    ensures p == RoundParts(h, Cut(h, input.keep).value, input)
    ensures d == Drops(p, input.cap) && (Tasks(p) != [] ==> d < |Tasks(p)|)
    ensures Replacement(h, input)
         == SystemPart(p) + [SummaryMessage(p, d, |Replacement(h, input)|)] + Middle(p, d) + NoReminders(p.keep)
  {
    hide RoundParts, Layout, SummaryMessage, Middle;
    CutIsClean(h, input.keep);
    p := RoundParts(h, Cut(h, input.keep).value, input);
    d := Drops(p, input.cap);
    DropsAreForced(p, input.cap);
    LayoutIsMiddleAndKeep(p, d);
  }

  lemma StampAt(sys: seq<Message>, sum: Message, rest: seq<Message>, pre: nat, post: nat)
    requires |sys| <= 1 && (sys != [] ==> sys[0].summary == None) && sum.summary.Some?
    ensures Stamp(sys + [sum] + rest, pre, post)
         == sys + [sum.(summary := Some(sum.summary.value.(preCount := pre, postCount := post)))] + rest
  {
    var r := [sum] + rest;
    assert r[1..] == rest;
    if sys == [] {
      assert sys + [sum] + rest == r;
    } else {
      assert sys + [sum] + rest == [sys[0]] + r;
      assert ([sys[0]] + r)[1..] == r;
      assert Stamp([sys[0]] + r, pre, post) == [sys[0]] + Stamp(r, pre, post);
    }
  }

  /** The summary message as it stands after the swap. */
  function SwappedSummary(p: Parts, d: nat, pre: nat, post: nat): Message {
    SummaryMessage(p.(preCount := pre), d, post)
  }

  /** A swapped history: the system prompt, the summary, the middle, the kept window, later messages. */
  lemma SwapLayout(h: seq<Message>, snapshot: seq<Message>, input: Input) returns (p: Parts, d: nat)
    requires |snapshot| <= |h| && Cut(snapshot, input.keep).Some?
    requires AllWellFormed(snapshot)
    ensures Start(snapshot) < Cut(snapshot, input.keep).value < |snapshot|
    ensures p == RoundParts(snapshot, Cut(snapshot, input.keep).value, input)
    ensures d == Drops(p, input.cap) && p.keep == snapshot[Cut(snapshot, input.keep).value..]
    ensures Front(h, snapshot, input)
         == snapshot[..Start(snapshot)] + [SwappedSummary(p, d, |h|, |Swapped(h, snapshot, input)|)]
            + (Middle(p, d) + NoReminders(p.keep))
  {
    hide RoundParts, Replacement, SummaryHead, Footer, Middle, Cut, Drops, Stamp, NoReminders, SwappedSummary;
    p, d := ReplacementParts(snapshot, input);
    KeepIsRest(snapshot, Cut(snapshot, input.keep).value, input);
    var sys, rest := snapshot[..Start(snapshot)], Middle(p, d) + NoReminders(p.keep);
    var r := Replacement(snapshot, input);
    assert sys != [] ==> WellFormed(snapshot[0]);
    var sum := SummaryMessage(p, d, |r|);
    assert r == sys + [sum] + rest;
    var post := |r| + |h| - |snapshot|;
    StampAt(sys, sum, rest, |h|, post);
    SummaryIgnoresCounts(p, d, |h|, |r|, post);
  }

  lemma SummaryIgnoresCounts(p: Parts, d: nat, pre: nat, n: nat, post: nat)
    ensures SwappedSummary(p, d, pre, post)
         == var m := SummaryMessage(p, d, n);
            m.(summary := Some(m.summary.value.(preCount := pre, postCount := post)))
  {
    hide OperatorBlock, DropNote, Footer;
  }

  // ---------------------------------------------------------------- tool groups

  /** A layout is well shaped when its kept window and what follows it are. */
  lemma LayoutPairs(sys: seq<Message>, sum: Message, p: Parts, d: nat, later: seq<Message>)
    requires d <= |Tasks(p)| && sum.role == User && forall m :: m in sys ==> m.role == System
    requires forall x :: x in p.ledger || x in p.tasks ==> WellFormed(x) && x.summary == None && x.role != Tool
    requires AllWellFormed(p.keep) && Paired(p.keep + later)
    ensures Paired(sys + [sum] + (Middle(p, d) + NoReminders(p.keep)) + later)
  {
    hide Middle, Paired;
    var front := sys + [sum] + Middle(p, d);
    forall m | m in front
      ensures m.role != Tool
    {
      if m in Middle(p, d) {
        MiddleMember(p, d, m);
      }
    }
    PairedWithoutTools(front);
    PairedWithoutReminders(p.keep, later);
    PairedConcat(front, NoReminders(p.keep) + later);
    assert sys + [sum] + (Middle(p, d) + NoReminders(p.keep)) + later == front + (NoReminders(p.keep) + later);
  }

  /** The front of a swap, followed by anything the snapshot's kept window may be followed by. */
  lemma FrontPairs(h: seq<Message>, snapshot: seq<Message>, input: Input, later: seq<Message>)
    requires |snapshot| <= |h| && Cut(snapshot, input.keep).Some?
    requires Paired(snapshot + later) && AllWellFormed(snapshot) && TasksAreUsers(input.view)
    ensures Paired(Front(h, snapshot, input) + later)
  {
    hide RoundParts, Front, SwappedSummary, Middle, Cut, Drops, Paired;
    var s := Cut(snapshot, input.keep).value;
    var p, d := SwapLayout(h, snapshot, input);
    PartsMembers(snapshot, s, input);
    CutIsClean(snapshot, input.keep);
    var all := snapshot + later;
    assert all[s] == snapshot[s];
    PairedCut(all, s);
    assert all[s..] == p.keep + later;
    var sum := SwappedSummary(p, d, |h|, |Swapped(h, snapshot, input)|);
    SummaryIsUser(p, d, |h|, |Swapped(h, snapshot, input)|);
    LayoutPairs(snapshot[..Start(snapshot)], sum, p, d, later);
  }

  lemma SummaryIsUser(p: Parts, d: nat, pre: nat, post: nat)
    ensures var m := SwappedSummary(p, d, pre, post);
            m.role == User && m.summary.Some? && WellFormed(m) && !HasToolCalls(m)
  {
    hide SummaryHead, Footer;
  }

  /** A swap keeps every tool result with its call, including results that arrived after the snapshot. */
  lemma SwapKeepsPairs(h: seq<Message>, snapshot: seq<Message>, input: Input)
    requires snapshot <= h && Cut(snapshot, input.keep).Some?
    requires Paired(h) && AllWellFormed(snapshot) && TasksAreUsers(input.view)
    ensures Paired(Swapped(h, snapshot, input))
  {
    hide Front, Paired, Cut;
    assert h == snapshot + h[|snapshot|..];
    FrontPairs(h, snapshot, input, h[|snapshot|..]);
  }

  /**
   * A swap into a history that may not start with the snapshot any more keeps the shape exactly when
   * the tool results right after the baseline find their calls open at the end of the replacement.
   */
  lemma SwapKeepsPairsIff(h: seq<Message>, snapshot: seq<Message>, input: Input)
    requires |snapshot| <= |h| && Cut(snapshot, input.keep).Some?
    requires Paired(h) && Paired(snapshot) && AllWellFormed(snapshot) && TasksAreUsers(input.view)
    ensures Paired(Swapped(h, snapshot, input)) <==>
            forall i :: |snapshot| <= i < |h| && Leads(h, |snapshot|, i) ==>
              FindsCall(Front(h, snapshot, input), h, |snapshot|, i)
  {
    hide Front, Paired, Cut, Leads, FindsCall;
    var front := Front(h, snapshot, input);
    assert snapshot + [] == snapshot && front + [] == front;
    FrontPairs(h, snapshot, input, []);
    SpliceKeepsPairsIff(front, h, |snapshot|);
  }

  lemma KeepIsRest(h: seq<Message>, s: nat, input: Input)
    requires Start(h) < s <= |h|
    ensures RoundParts(h, s, input).keep == h[s..]
    ensures SystemPart(RoundParts(h, s, input)) == h[..Start(h)]
    ensures Start(h) == 1 ==> h[0].role == System
  {
  }

  /** A layout of well-formed parts is well formed. */
  lemma LayoutForm(sys: seq<Message>, sum: Message, p: Parts, d: nat, m: Message)
    requires d <= |Tasks(p)| && WellFormed(sum) && AllWellFormed(sys)
    requires forall x :: x in p.ledger || x in p.tasks ==> WellFormed(x) && x.summary == None
    requires AllWellFormed(p.keep) && m in sys + [sum] + (Middle(p, d) + NoReminders(p.keep))
    ensures WellFormed(m)
    ensures m.summary.Some? ==> m in sys || m == sum || m in p.keep
  {
    hide Middle, WellFormed;
    if m in Middle(p, d) {
      MiddleMember(p, d, m);
    } else {
      FilterMembers(p.keep, m);
    }
  }

  /** The summaries of a front are the new one and kept ones of the snapshot. */
  lemma FrontForm(h: seq<Message>, snapshot: seq<Message>, input: Input, m: Message) returns (p: Parts, d: nat)
    requires |snapshot| <= |h| && Cut(snapshot, input.keep).Some?
    requires AllWellFormed(snapshot) && m in Front(h, snapshot, input)
    ensures Start(snapshot) < Cut(snapshot, input.keep).value <= |snapshot| && d <= |Tasks(p)|
    ensures p == RoundParts(snapshot, Cut(snapshot, input.keep).value, input)
    ensures WellFormed(m)
    ensures m.summary.Some? ==> m in snapshot || m == SwappedSummary(p, d, |h|, |Swapped(h, snapshot, input)|)
  {
    hide RoundParts, Front, SwappedSummary, Middle, Cut, Drops, WellFormed, NoReminders;
    p, d := SwapLayout(h, snapshot, input);
    PartsMembers(snapshot, Cut(snapshot, input.keep).value, input);
    var sys, sum := snapshot[..Start(snapshot)], SwappedSummary(p, d, |h|, |Swapped(h, snapshot, input)|);
    SummaryIsUser(p, d, |h|, |Swapped(h, snapshot, input)|);
    assert AllWellFormed(sys);
    LayoutForm(sys, sum, p, d, m);
  }

  /** A swap leaves only well-formed messages. */
  lemma SwapKeepsForm(h: seq<Message>, snapshot: seq<Message>, input: Input)
    requires |snapshot| <= |h| && Cut(snapshot, input.keep).Some?
    requires AllWellFormed(h) && AllWellFormed(snapshot)
    ensures AllWellFormed(Swapped(h, snapshot, input))
  {
    hide Front, Cut, WellFormed;
    forall m | m in Swapped(h, snapshot, input)
      ensures WellFormed(m)
    {
      if m in Front(h, snapshot, input) {
        var p, d := FrontForm(h, snapshot, input, m);
      }
    }
  }

  // ---------------------------------------------------------------- operator words

  /** The records a message carries over from earlier rounds. */
  function CarriedBy(m: Message): seq<Record> {
    if m.summary.Some? then TrustedOnly(m.summary.value.records) else []
  }

  /** The records carried by the summary that leads a history. */
  function SummaryWords(h: seq<Message>): seq<Record> {
    if Start(h) < |h| then CarriedBy(h[Start(h)]) else []
  }

  /** All records after those. */
  function Recent(h: seq<Message>): seq<Record> {
    var b := Start(h);
    if b < |h| then TrustedOnly(h[b].operatorInputs) + AllWords(h[b + 1..]) else []
  }

  /** All records a history stands for: those it holds and those left out. */
  function WordCount(h: seq<Message>): nat {
    |AllWords(h)| + AllOmitted(h)
  }

  lemma SystemIsWordless(h: seq<Message>)
    requires AllWellFormed(h)
    ensures forall m :: m in h[..Start(h)] ==> Wordless(m)
  {
    forall m | m in h[..Start(h)]
      ensures Wordless(m)
    {
      assert m == h[0] && h[0] in h;
    }
  }

  /** A system prompt says nothing here, so the words of a list of messages are those after it. */
  lemma WordsAfterStart(h: seq<Message>, s: nat)
    requires AllWellFormed(h) && Start(h) <= s <= |h|
    ensures AllWords(h[..s]) == AllWords(h[Start(h)..s]) && AllOmitted(h[..s]) == AllOmitted(h[Start(h)..s])
    ensures AllWords(h) == AllWords(h[Start(h)..s]) + AllWords(h[s..])
    ensures AllOmitted(h) == AllOmitted(h[Start(h)..s]) + AllOmitted(h[s..])
  {
    hide AllWords, AllOmitted, WellFormed, Wordless;
    var sys := h[..Start(h)];
    SystemIsWordless(h);
    NoWords(sys);
    assert h[..s] == sys + h[Start(h)..s] && h == h[..s] + h[s..];
    CollectConcat(sys, h[Start(h)..s]);
    CollectConcat(h[..s], h[s..]);
  }

  /** The words of an old part: the carried ones first. */
  lemma WordsOfOldPart(h: seq<Message>, s: nat)
    requires Start(h) < s <= |h|
    ensures var b := Start(h);
            AllWords(h[b..s]) == SummaryWords(h) + (TrustedOnly(h[b].operatorInputs) + AllWords(h[b + 1..s]))
  {
    hide TrustedOnly;
    var b := Start(h);
    assert h[b..s][0] == h[b] && h[b..s][1..] == h[b + 1..s];
  }

  lemma WordsAreCarriedAndRecent(h: seq<Message>)
    requires AllWellFormed(h)
    ensures AllWords(h) == SummaryWords(h) + Recent(h)
  {
    hide AllWords, AllOmitted, TrustedOnly;
    WordsAfterStart(h, |h|);
    NoWords([]);
    assert h[|h|..] == [] && h[Start(h)..|h|] == h[Start(h)..];
    if Start(h) < |h| {
      WordsOfOldPart(h, |h|);
      assert h[Start(h) + 1..|h|] == h[Start(h) + 1..];
    } else {
      assert h[Start(h)..] == [];
    }
  }

  /** The words of a layout: the summary's, those kept verbatim, those of the window and of later messages. */
  lemma LayoutWords(sys: seq<Message>, sum: Message, p: Parts, d: nat, later: seq<Message>)
    requires d <= |Tasks(p)| && (forall x :: x in sys ==> Wordless(x))
    requires forall x :: x in p.ledger || x in p.tasks ==> WellFormed(x) && x.summary == None
    requires AllWellFormed(p.keep)
    ensures var all := sys + [sum] + (Middle(p, d) + NoReminders(p.keep)) + later;
            && AllWords(all) == Words(sum) + (Inputs(p.ledger) + Inputs(Tasks(p)[d..])) + AllWords(p.keep + later)
            && AllOmitted(all) == Omitted(sum) + AllOmitted(p.keep + later)
  {
    hide AllWords, AllOmitted, Inputs, Words, Omitted, Middle, NoReminders, TrustedOnly, Tasks;
    var k := NoReminders(p.keep);
    MiddleWords(p, d);
    NoWords(sys);
    forall x | x in p.keep && x.reminder
      ensures Wordless(x)
    {
      assert WellFormed(x);
    }
    WordsWithoutReminders(p.keep);
    CollectConcat(p.keep, later);
    CollectConcat(k, later);
    OneWord(sum);
    CollectConcat(sys, [sum]);
    CollectConcat(sys + [sum], Middle(p, d) + (k + later));
    CollectConcat(Middle(p, d), k + later);
    assert sys + [sum] + (Middle(p, d) + k) + later == sys + [sum] + (Middle(p, d) + (k + later));
  }

  lemma OneWord(m: Message)
    ensures AllWords([m]) == Words(m) && AllOmitted([m]) == Omitted(m)
  {
    hide Words, Omitted;
    assert [m][1..] == [];
    NoWords([]);
  }

  /** The middle carries the inputs of ledger and tasks, and no summary. */
  lemma MiddleWords(p: Parts, d: nat)
    requires d <= |Tasks(p)|
    requires forall x :: x in p.ledger || x in p.tasks ==> WellFormed(x) && x.summary == None
    requires AllWellFormed(p.keep)
    ensures AllWords(Middle(p, d)) == Inputs(p.ledger) + Inputs(Tasks(p)[d..]) && AllOmitted(Middle(p, d)) == 0
  {
    hide AllWords, AllOmitted, Inputs, TrustedOnly, WellFormed, ReminderText;
    var t := Tasks(p)[d..];
    var r, l := ReminderPart(t, Stale(p)), NoReminders(p.ledger);
    forall x | x in Middle(p, d)
      ensures x.summary == None
    {
      MiddleMember(p, d, x);
    }
    WordsWithoutSummaries(Middle(p, d));
    forall x | x in r
      ensures x.operatorInputs == []
    {
      ReminderIsQuiet(p, d, x);
    }
    NoInputs(r);
    forall x | x in p.ledger && x.reminder
      ensures x.operatorInputs == []
    {
      QuietReminder(x);
    }
    InputsWithoutReminders(p.ledger);
    InputsConcat(l + t, r);
    InputsConcat(l, t);
  }

  lemma QuietReminder(x: Message)
    requires WellFormed(x) && x.reminder
    ensures x.operatorInputs == []
  {
  }

  lemma ReminderIsQuiet(p: Parts, d: nat, x: Message)
    requires d <= |Tasks(p)| && x in ReminderPart(Tasks(p)[d..], Stale(p))
    requires forall x :: x in p.ledger || x in p.tasks ==> WellFormed(x)
    requires AllWellFormed(p.keep)
    ensures x.operatorInputs == []
  {
    hide ReminderText;
    if Tasks(p)[d..] == [] {
      FilterMembers(p.ledger + p.tasks + p.keep, x);
    }
  }

  /**
   * Of all records that have left the history, `log` has the known ones and `lost` counts those that
   * were omitted before the history was loaded. The newest of the log are still in messages; the
   * leading summary carries the others as far as the caps allow, and the omission counts are exact.
   */
  predicate CarriesWords(h: seq<Message>, log: seq<Record>, lost: nat) {
    var recent := Recent(h);
    && |recent| <= |log| && log[|log| - |recent|..] == recent
    && Bound(SummaryWords(h)) == Bound(Older(h, log))
    && AllOmitted(h) + |SummaryWords(h)| == |Older(h, log)| + lost
  }

  /** The records of the log that are no longer in messages. */
  function Older(h: seq<Message>, log: seq<Record>): seq<Record>
    requires |Recent(h)| <= |log|
  {
    log[..|log| - |Recent(h)|]
  }

  /** A summary within the caps carries exactly the longest suffix of the older records. */
  lemma CarriesLongestSuffix(h: seq<Message>, log: seq<Record>, lost: nat)
    requires AllWellFormed(h) && CarriesWords(h, log, lost)
    ensures WordCount(h) == |log| + lost
    ensures Within(SummaryWords(h)) ==> IsLongestSuffix(Older(h, log), SummaryWords(h))
  {
    hide AllWords, AllOmitted, SummaryWords, Recent, Bound, IsLongestSuffix;
    WordsAreCarriedAndRecent(h);
    WithinIsBound(SummaryWords(h));
    BoundIsLongestSuffix(Older(h, log), SummaryWords(h));
  }

  /** Messages kept verbatim from the old part carry no operator records. */
  predicate NoWordsKept(h: seq<Message>, input: Input)
    requires Cut(h, input.keep).Some?
  {
    CutIsClean(h, input.keep);
    var prior := h[Start(h)..Cut(h, input.keep).value];
    Inputs(Handled(prior, input)) == [] && Inputs(Preserved(prior, input)) == []
  }

  lemma BoundTrusted(h: seq<Message>)
    ensures TrustedOnly(Bound(AllWords(h))) == Bound(AllWords(h))
  {
    AllWordsTrusted(h);
    TrustedStay(Bound(AllWords(h)));
  }

  /** What a summary built from parts carries. */
  lemma SummaryCarries(p: Parts, d: nat, pre: nat, post: nat, prior: seq<Message>)
    requires p.records == Bound(AllWords(prior))
    requires p.omitted == AllOmitted(prior) + |AllWords(prior)| - |Bound(AllWords(prior))|
    ensures var m := SwappedSummary(p, d, pre, post);
            && CarriedBy(m) == Words(m) == Bound(AllWords(prior))
            && Omitted(m) + |Bound(AllWords(prior))| == AllOmitted(prior) + |AllWords(prior)|
  {
    hide SummaryHead, Footer, TrustedOnly, AllWords, AllOmitted;
    BoundTrusted(prior);
    var m := SwappedSummary(p, d, pre, post);
    assert m.operatorInputs == [];
    TrustedStay([]);
    assert |Bound(AllWords(prior))| <= |AllWords(prior)|;
  }

  /** The parts of a round that speak about operator words. */
  lemma PartsWords(h: seq<Message>, s: nat, input: Input)
    requires Start(h) < s <= |h|
    ensures var p, prior := RoundParts(h, s, input), h[Start(h)..s];
            && p.records == Bound(AllWords(prior))
                && p.omitted == AllOmitted(prior) + |AllWords(prior)| - |Bound(AllWords(prior))|
            && p.ledger == Handled(prior, input) && p.tasks == Preserved(prior, input)
  {
    hide NewState, NewSummary, Handled, Preserved, AllWords, AllOmitted;
  }

  /** What a swap leaves of the snapshot's messages after its cut, and of the history after its baseline. */
  function Window(h: seq<Message>, snapshot: seq<Message>, s: nat): seq<Message>
    requires s <= |snapshot| <= |h|
  {
    snapshot[s..] + h[|snapshot|..]
  }

  /** A swapped history, as far as operator words go. */
  lemma SwapWords(h: seq<Message>, snapshot: seq<Message>, input: Input) returns (p: Parts, d: nat)
    requires |snapshot| <= |h| && Cut(snapshot, input.keep).Some?
    requires AllWellFormed(snapshot)
    ensures Start(snapshot) < Cut(snapshot, input.keep).value < |snapshot| && d <= |Tasks(p)|
    ensures p == RoundParts(snapshot, Cut(snapshot, input.keep).value, input) && d == Drops(p, input.cap)
    ensures var s := Cut(snapshot, input.keep).value;
            var prior, after, window := snapshot[Start(snapshot)..s], Swapped(h, snapshot, input),
                Window(h, snapshot, s);
            && p.ledger == Handled(prior, input) && p.tasks == Preserved(prior, input)
            && AllWords(after)
            == Bound(AllWords(prior)) + (Inputs(Handled(prior, input)) + Inputs(Tasks(p)[d..])) + AllWords(window)
            && AllOmitted(after) + |Bound(AllWords(prior))| == AllOmitted(prior) + |AllWords(prior)|
                + AllOmitted(window)
            && SummaryWords(after) == Bound(AllWords(prior))
    ensures AllWellFormed(p.tasks)
  {
    hide Front, Middle, SwappedSummary, Cut, Drops, RoundParts, Bound, AllWords, AllOmitted, Inputs, Handled, Preserved,
         Words, Omitted, CarriedBy, NoReminders, Tasks;
    p, d := SwapLayout(h, snapshot, input);
    var s := Cut(snapshot, input.keep).value;
    var prior := snapshot[Start(snapshot)..s];
    PartsWords(snapshot, s, input);
    PartsMembers(snapshot, s, input);
    var sys, sum := snapshot[..Start(snapshot)], SwappedSummary(p, d, |h|, |Swapped(h, snapshot, input)|);
    SummaryIsUser(p, d, |h|, |Swapped(h, snapshot, input)|);
    SummaryCarries(p, d, |h|, |Swapped(h, snapshot, input)|, prior);
    SystemIsWordless(snapshot);
    var later, rest := h[|snapshot|..], Middle(p, d) + NoReminders(p.keep);
    LayoutWords(sys, sum, p, d, later);
    LeadingSummary(sys, sum, rest + later);
    assert sys + [sum] + rest + later == sys + [sum] + (rest + later);
  }

  lemma LeadingSummary(sys: seq<Message>, sum: Message, rest: seq<Message>)
    requires |sys| <= 1 && (sys != [] ==> sys[0].role == System) && sum.role == User
    ensures SummaryWords(sys + [sum] + rest) == CarriedBy(sum)
    ensures Start(sys + [sum] + rest) == |sys|
  {
    hide CarriedBy;
    var all := sys + [sum] + rest;
    assert all[0] == if sys == [] then sum else sys[0];
    assert all[|sys|] == sum;
  }

  /** Messages of the old part that survive a round verbatim: ledger-kept ones and undropped tasks. */
  function KeptVerbatim(h: seq<Message>, input: Input): seq<Message>
    requires Cut(h, input.keep).Some?
  {
    CutIsClean(h, input.keep);
    var p := RoundParts(h, Cut(h, input.keep).value, input);
    Handled(h[Start(h)..Cut(h, input.keep).value], input) + Tasks(p)[Drops(p, input.cap)..]
  }

  /**
   * The records a swap accounts for: all of the snapshot, once more those of messages it keeps verbatim,
   * and those after the baseline.
   */
  lemma SwapWordCount(h: seq<Message>, snapshot: seq<Message>, input: Input)
    requires |snapshot| <= |h| && Cut(snapshot, input.keep).Some?
    requires AllWellFormed(snapshot)
    ensures WordCount(Swapped(h, snapshot, input))
         == WordCount(snapshot) + |Inputs(KeptVerbatim(snapshot, input))| + WordCount(h[|snapshot|..])
    ensures WordCount(h) == WordCount(h[..|snapshot|]) + WordCount(h[|snapshot|..])
  {
    hide Swapped, Cut, RoundParts, Bound, AllWords, AllOmitted, Inputs, Handled, Preserved, SummaryWords, Drops, Tasks;
    var p, d := SwapWords(h, snapshot, input);
    var s, k := Cut(snapshot, input.keep).value, |snapshot|;
    InputsConcat(Handled(snapshot[Start(snapshot)..s], input), Tasks(p)[d..]);
    WordsAfterStart(snapshot, s);
    CollectConcat(snapshot[s..], h[k..]);
    assert h == h[..k] + h[k..];
    CollectConcat(h[..k], h[k..]);
  }

  /**
   * A round counts again exactly the records of messages it keeps verbatim; a stale one also loses those
   * of the replaced prefix and brings back those of its snapshot. So a round on the live prefix conserves
   * the count if and only if what it keeps verbatim has no records, and any round if and only if the
   * prefix it overwrites has as many as its snapshot and what it keeps verbatim.
   */
  lemma KeptWordsCountTwice(h: seq<Message>, snapshot: seq<Message>, input: Input)
    requires |snapshot| <= |h| && Cut(snapshot, input.keep).Some?
    requires AllWellFormed(snapshot)
    ensures var kept := |Inputs(KeptVerbatim(snapshot, input))|;
            && (snapshot <= h ==> WordCount(Swapped(h, snapshot, input)) == WordCount(h) + kept)
            && (WordCount(Swapped(h, snapshot, input)) == WordCount(h)
                <==> WordCount(snapshot) + kept == WordCount(h[..|snapshot|]))
  {
    hide Swapped, Cut, KeptVerbatim, WordCount, Inputs;
    SwapWordCount(h, snapshot, input);
    if snapshot <= h {
      assert h[..|snapshot|] == snapshot;
    }
  }

  /** The arithmetic of a round: what the summary carried and what joins it, bounded together. */
  lemma RoundAbsorbs(older: seq<Record>, carried: seq<Record>, gone: seq<Record>)
    requires Bound(carried) == Bound(older)
    ensures Bound(Bound(carried + gone)) == Bound(older + gone)
  {
    hide Bound;
    WithinIsBound(carried + gone);
    BoundAbsorbs(carried, gone);
    BoundAbsorbs(older, gone);
  }

  /** Words move from messages into the leading summary, and nothing else changes. */
  lemma MovedWords(h: seq<Message>, h': seq<Message>, s: nat, log: seq<Record>, lost: nat)
    requires AllWellFormed(h) && AllWellFormed(h') && Start(h) < s <= |h| && CarriesWords(h, log, lost)
    requires var prior := h[Start(h)..s];
             && SummaryWords(h') == Bound(AllWords(prior))
             && AllWords(h') == Bound(AllWords(prior)) + AllWords(h[s..])
             && AllOmitted(h') + |Bound(AllWords(prior))| == AllOmitted(prior) + |AllWords(prior)| + AllOmitted(h[s..])
    ensures CarriesWords(h', log, lost) && Within(SummaryWords(h'))
  {
    hide AllWords, AllOmitted, TrustedOnly, SummaryWords, Bound, Recent;
    var b := Start(h);
    var carried, gone := SummaryWords(h), TrustedOnly(h[b].operatorInputs) + AllWords(h[b + 1..s]);
    var still, older := AllWords(h[s..]), Older(h, log);
    WordsOfOldPart(h, s);
    WordsAfterStart(h, s);
    WordsAreCarriedAndRecent(h);
    WordsAreCarriedAndRecent(h');
    assert carried + Recent(h) == carried + (gone + still);
    SamePrefix(carried, Recent(h), gone + still);
    SamePrefix(SummaryWords(h'), Recent(h'), still);
    assert log == older + Recent(h);
    assert log == (older + gone) + still;
    assert Older(h', log) == older + gone;
    RoundAbsorbs(older, carried, gone);
    WithinIsBound(carried + gone);
  }

  lemma SamePrefix(a: seq<Record>, x: seq<Record>, y: seq<Record>)
    requires a + x == a + y
    ensures x == y
  {
    assert (a + x)[|a|..] == x && (a + y)[|a|..] == y;
  }

  /** Bounding round by round loses and duplicates nothing, as long as no kept message carries records. */
  lemma SwapKeepsWords(h: seq<Message>, snapshot: seq<Message>, input: Input, log: seq<Record>, lost: nat)
    requires snapshot <= h && Cut(snapshot, input.keep).Some?
    requires AllWellFormed(h)
    requires CarriesWords(h, log, lost) && NoWordsKept(snapshot, input)
    ensures CarriesWords(Swapped(h, snapshot, input), log, lost) && Within(SummaryWords(Swapped(h, snapshot, input)))
  {
    hide Swapped, Cut, RoundParts, Bound, AllWords, AllOmitted, Inputs, Handled, Preserved, SummaryWords, Drops,
         CarriesWords, Within, Tasks, WellFormed;
    assert AllWellFormed(snapshot);
    var p, d := SwapWords(h, snapshot, input);
    var s := Cut(snapshot, input.keep).value;
    assert snapshot[0] == h[0] && snapshot[Start(h)..s] == h[Start(h)..s];
    assert Window(h, snapshot, s) == h[s..];
    NoTaskWords(p, d);
    SwapKeepsForm(h, snapshot, input);
    MovedWords(h, Swapped(h, snapshot, input), s, log, lost);
  }

  lemma NoTaskWords(p: Parts, d: nat)
    requires AllWellFormed(p.tasks) && Inputs(p.tasks) == [] && d <= |Tasks(p)|
    ensures Inputs(Tasks(p)[d..]) == []
  {
    hide Inputs;
    forall x | x in p.tasks && x.reminder
      ensures x.operatorInputs == []
    {
      QuietReminder(x);
    }
    InputsWithoutReminders(p.tasks);
    assert Tasks(p) == Tasks(p)[..d] + Tasks(p)[d..];
    InputsConcat(Tasks(p)[..d], Tasks(p)[d..]);
  }

  /** The records of a history, as far as the caps allow, are those of the log, and none is counted twice. */
  predicate Accounts(h: seq<Message>, log: seq<Record>, lost: nat) {
    Bound(AllWords(h)) == Bound(log) && WordCount(h) == |log| + lost
  }

  /** Bounding a front of the records changes neither. */
  lemma BoundedFrontAccounts(h: seq<Message>, h': seq<Message>, front: seq<Record>, rest: seq<Record>,
      log: seq<Record>, lost: nat)
    requires Accounts(h, log, lost) && AllWords(h) == front + rest && AllWords(h') == Bound(front) + rest
    requires AllOmitted(h') + |Bound(front)| == AllOmitted(h) + |front|
    ensures Accounts(h', log, lost)
  {
    hide Bound, AllWords, AllOmitted;
    BoundAbsorbs(front, rest);
  }

  lemma SwapAccounts(h: seq<Message>, snapshot: seq<Message>, input: Input, log: seq<Record>, lost: nat)
    requires snapshot <= h && Cut(snapshot, input.keep).Some? && AllWellFormed(h)
    requires Accounts(h, log, lost) && NoWordsKept(snapshot, input)
    ensures Accounts(Swapped(h, snapshot, input), log, lost)
  {
    hide Swapped, Cut, RoundParts, Bound, AllWords, AllOmitted, Inputs, Handled, Preserved, SummaryWords, Drops,
         Accounts, Tasks, WellFormed;
    assert AllWellFormed(snapshot);
    var p, d := SwapWords(h, snapshot, input);
    var s := Cut(snapshot, input.keep).value;
    var prior := h[Start(h)..s];
    assert snapshot[0] == h[0] && snapshot[Start(h)..s] == prior;
    assert Window(h, snapshot, s) == h[s..];
    NoTaskWords(p, d);
    WordsAfterStart(h, s);
    BoundedFrontAccounts(h, Swapped(h, snapshot, input), AllWords(prior), AllWords(h[s..]), log, lost);
  }

  lemma AppendAccounts(h: seq<Message>, ms: seq<Message>, log: seq<Record>, lost: nat)
    requires Accounts(h, log, lost)
    ensures Accounts(h + ms, log + AllWords(ms), lost + AllOmitted(ms))
  {
    hide Bound, AllWords, AllOmitted;
    CollectConcat(h, ms);
    BoundAbsorbs(AllWords(h), AllWords(ms));
    BoundAbsorbs(log, AllWords(ms));
  }

  /** A history as it is loaded: its log is what it holds. */
  lemma LoadedWords(h: seq<Message>)
    requires AllWellFormed(h)
    ensures CarriesWords(h, AllWords(h), AllOmitted(h))
  {
    hide AllWords, AllOmitted, SummaryWords, Recent, Bound;
    WordsAreCarriedAndRecent(h);
    assert Older(h, AllWords(h)) == SummaryWords(h);
  }

  lemma AppendedRecent(h: seq<Message>, ms: seq<Message>)
    requires Start(h) < |h|
    ensures Recent(h + ms) == Recent(h) + AllWords(ms) && SummaryWords(h + ms) == SummaryWords(h)
  {
    hide AllWords, TrustedOnly;
    var b := Start(h);
    assert (h + ms)[b + 1..] == h[b + 1..] + ms && (h + ms)[b] == h[b];
    CollectConcat(h[b + 1..], ms);
  }

  lemma AppendKeepsWords(h: seq<Message>, ms: seq<Message>, log: seq<Record>, lost: nat)
    requires AllWellFormed(h) && AllWellFormed(ms) && CarriesWords(h, log, lost)
    ensures CarriesWords(h + ms, log + AllWords(ms), lost + AllOmitted(ms))
  {
    hide AllWords, AllOmitted, Bound, Recent, SummaryWords;
    CollectConcat(h, ms);
    if Start(h) < |h| {
      AppendedRecent(h, ms);
      var all := log + AllWords(ms);
      assert all == Older(h, log) + (Recent(h) + AllWords(ms));
      assert Older(h + ms, all) == Older(h, log);
    } else {
      NothingSaid(h, log, lost);
      assert log + AllWords(ms) == AllWords(ms);
      LoadedWords(h + ms);
    }
  }

  lemma NothingSaid(h: seq<Message>, log: seq<Record>, lost: nat)
    requires AllWellFormed(h) && CarriesWords(h, log, lost) && Start(h) >= |h|
    ensures log == [] && lost == 0 && AllWords(h) == [] && AllOmitted(h) == 0
  {
    hide Bound, AllWords, AllOmitted, WellFormed, Wordless;
    SystemIsWordless(h);
    assert h[..Start(h)] == h;
    NoWords(h);
    assert Older(h, log) == log;
  }

  // ---------------------------------------------------------------- evidence for the OPEN STATE

  /** The state a summary message carries. */
  function StateOf(m: Message): Option<string> {
    SplitOpenState(m.content).state
  }

  /** t occurs in a message of h that is neither a system prompt nor a summary. */
  ghost predicate Mentioned(h: seq<Message>, tokens: string -> set<string>, t: string) {
    exists m :: m in h && m.role != System && m.summary == None && t in tokens(m.content)
  }

  /** t occurs in the state of a summary in h. */
  ghost predicate InState(h: seq<Message>, tokens: string -> set<string>, t: string) {
    exists m :: m in h && m.summary.Some? && StateOf(m).Some? && t in tokens(StateOf(m).value)
  }

  /** After a swap, whatever the summarizer wrote, the state speaks only of tokens that were there before. */
  lemma SwapGroundsState(h: seq<Message>, snapshot: seq<Message>, input: Input, t: string)
    requires |snapshot| <= |h| && Cut(snapshot, input.keep).Some?
    requires AllWellFormed(snapshot) && Distributes(input.tokens)
    requires InState(Swapped(h, snapshot, input), input.tokens, t)
    ensures Mentioned(snapshot, input.tokens, t) || InState(snapshot, input.tokens, t) || InState(h, input.tokens, t)
  {
    hide Front, SummaryHead, Footer, Cut, Drops, RoundParts, SplitOpenState, WellFormed, NoReminders, KnownTokens;
    var n := |Swapped(h, snapshot, input)|;
    var m :| m in Swapped(h, snapshot, input) && m.summary.Some? && StateOf(m).Some?
        && t in input.tokens(StateOf(m).value);
    if m !in h {
      var p, d := FrontForm(h, snapshot, input, m);
      if m !in snapshot {
        StateOfParts(snapshot, Cut(snapshot, input.keep).value, input);
        StateSurvivesLayout(p.(preCount := |h|), d, n);
        KnownTokensHaveSource(snapshot, input.tokens, t);
      }
    }
  }

  lemma StateOfParts(h: seq<Message>, s: nat, input: Input)
    requires Start(h) < s <= |h| && Distributes(input.tokens)
    ensures var state := RoundParts(h, s, input).state;
            Sanitized(state) && input.tokens(state) <= KnownTokens(h, input.tokens)
  {
    hide Sanitize, KnownTokens, Sanitized, SplitOpenState, Handled, Preserved, Bound;
    var proposed := SplitOpenState(Proposal(input)).state;
    var candidate := if proposed.Some? then proposed.value else "";
    SanitizeSanitizes(candidate, input.tokens, KnownTokens(h, input.tokens));
    SanitizedTokensKnown(candidate, input.tokens, KnownTokens(h, input.tokens));
  }
}
