/** The operator's own words: collected with provenance, bounded, carried from round to round. */
module OperatorWords {
  import opened Options
  import opened Messages

  const MAX_OPERATOR_WORD_MESSAGES := 30
  const MAX_OPERATOR_WORD_CHARS := 8000
  const HUMAN_SOURCES: set<string> :=
    {"user", "state_rpc", "cli_initial", "pipe", "hub_attachment", "hub_message"}

  /** Only a record with a human source, a time and a text is believed. */
  predicate Trusted(r: Record) {
    r.source in HUMAN_SOURCES && r.timestamp != "" && r.text != ""
  }

  function TrustedOnly(rs: seq<Record>): seq<Record> {
    if rs == [] then []
    else (if Trusted(rs[0]) then [rs[0]] else []) + TrustedOnly(rs[1..])
  }

  /** The believed records, in order: exactly those with a human source, a time and a text. */
  lemma {:induction false} TrustedOnlyFilters(a: seq<Record>, b: seq<Record>, r: Record)
    ensures TrustedOnly(a + b) == TrustedOnly(a) + TrustedOnly(b)
    ensures TrustedOnly([r]) == if r.source in HUMAN_SOURCES && r.timestamp != "" && r.text != "" then [r] else []
    ensures TrustedOnly([]) == []
  {
    assert [r][1..] == [];
    if a == [] {
      assert a + b == b;
    } else {
      assert (a + b)[0] == a[0] && (a + b)[1..] == a[1..] + b;
      TrustedOnlyFilters(a[1..], b, r);
    }
  }

  // ---------------------------------------------------------------- collecting

  function Words(m: Message): seq<Record> {
    (if m.summary.Some? then TrustedOnly(m.summary.value.records) else [])
    + TrustedOnly(m.operatorInputs)
  }

  function Omitted(m: Message): nat {
    if m.summary.Some? && m.summary.value.omitted > 0 then m.summary.value.omitted else 0
  }

  function AllWords(h: seq<Message>): seq<Record> {
    if h == [] then [] else Words(h[0]) + AllWords(h[1..])
  }

  function AllOmitted(h: seq<Message>): nat {
    if h == [] then 0 else Omitted(h[0]) + AllOmitted(h[1..])
  }

  method CollectOperatorWordRecords(h: seq<Message>) returns (records: seq<Record>, omitted: nat)
    ensures records == AllWords(h) && omitted == AllOmitted(h)
  {
    hide TrustedOnly;
    records, omitted := [], 0;
    assert h[..0] == [];
    for i := 0 to |h|
      invariant records == AllWords(h[..i]) && omitted == AllOmitted(h[..i])
    {
      assert h[..i + 1] == h[..i] + [h[i]];
      CollectConcat(h[..i], [h[i]]);
      if h[i].summary.Some? {
        records := records + TrustedOnly(h[i].summary.value.records);
        omitted := omitted + (if h[i].summary.value.omitted > 0 then h[i].summary.value.omitted else 0);
      }
      records := records + TrustedOnly(h[i].operatorInputs);
    }
    assert h[..|h|] == h;
  }

  lemma {:induction false} CollectConcat(a: seq<Message>, b: seq<Message>)
    ensures AllWords(a + b) == AllWords(a) + AllWords(b)
    ensures AllOmitted(a + b) == AllOmitted(a) + AllOmitted(b)
  {
    hide Words, Omitted;
    if a == [] {
      assert a + b == b;
    } else {
      assert (a + b)[1..] == a[1..] + b;
      CollectConcat(a[1..], b);
    }
  }

  lemma {:induction false} TrustedOnlyIsTrusted(rs: seq<Record>)
    ensures forall r :: r in TrustedOnly(rs) ==> Trusted(r)
  {
    if rs != [] {
      TrustedOnlyIsTrusted(rs[1..]);
    }
  }

  lemma {:induction false} TrustedStay(rs: seq<Record>)
    requires forall r :: r in rs ==> Trusted(r)
    ensures TrustedOnly(rs) == rs
  {
    if rs != [] {
      TrustedStay(rs[1..]);
    }
  }

  lemma {:induction false} AllWordsTrusted(h: seq<Message>)
    ensures forall r :: r in AllWords(h) ==> Trusted(r)
  {
    if h != [] {
      AllWordsTrusted(h[1..]);
      TrustedOnlyIsTrusted(h[0].operatorInputs);
      if h[0].summary.Some? {
        TrustedOnlyIsTrusted(h[0].summary.value.records);
      }
    }
  }

  /** The operator inputs of a history, in order; unlike AllWords it ignores what summaries carry. */
  function Inputs(h: seq<Message>): seq<Record> {
    if h == [] then [] else TrustedOnly(h[0].operatorInputs) + Inputs(h[1..])
  }

  lemma {:induction false} InputsConcat(a: seq<Message>, b: seq<Message>)
    ensures Inputs(a + b) == Inputs(a) + Inputs(b)
  {
    hide TrustedOnly;
    if a == [] {
      assert a + b == b;
    } else {
      assert (a + b)[1..] == a[1..] + b;
      InputsConcat(a[1..], b);
    }
  }

  lemma {:induction false} WordsWithoutSummaries(h: seq<Message>)
    requires forall m :: m in h ==> m.summary == None
    ensures AllWords(h) == Inputs(h) && AllOmitted(h) == 0
  {
    hide TrustedOnly;
    if h != [] {
      assert h[0] in h;
      WordsWithoutSummaries(h[1..]);
    }
  }

  /** Messages that carry no records and no omission count. */
  predicate Wordless(m: Message) {
    m.summary == None && m.operatorInputs == []
  }

  lemma {:induction false} NoWords(h: seq<Message>)
    requires forall m :: m in h ==> Wordless(m)
    ensures AllWords(h) == [] && AllOmitted(h) == 0
  {
    if h != [] {
      assert h[0] in h;
      NoWords(h[1..]);
    }
  }

  lemma {:induction false} WordsWithoutReminders(h: seq<Message>)
    requires forall m :: m in h && m.reminder ==> Wordless(m)
    ensures AllWords(NoReminders(h)) == AllWords(h) && AllOmitted(NoReminders(h)) == AllOmitted(h)
  {
    hide TrustedOnly;
    if h != [] {
      assert h[0] in h;
      WordsWithoutReminders(h[1..]);
      if h[0].reminder {
        NoWords([h[0]]);
        assert [h[0]] + h[1..] == h;
        CollectConcat([h[0]], h[1..]);
      }
    }
  }

  lemma {:induction false} NoInputs(h: seq<Message>)
    requires forall m :: m in h ==> m.operatorInputs == []
    ensures Inputs(h) == []
  {
    if h != [] {
      assert h[0] in h;
      NoInputs(h[1..]);
    }
  }

  lemma {:induction false} InputsWithoutReminders(h: seq<Message>)
    requires forall m :: m in h && m.reminder ==> m.operatorInputs == []
    ensures Inputs(NoReminders(h)) == Inputs(h)
  {
    hide TrustedOnly;
    if h != [] {
      assert h[0] in h;
      InputsWithoutReminders(h[1..]);
      if h[0].reminder {
        NoInputs([h[0]]);
        assert [h[0]] + h[1..] == h;
        InputsConcat([h[0]], h[1..]);
      }
    }
  }

  // ---------------------------------------------------------------- bounding

  function TextChars(rs: seq<Record>): nat {
    if rs == [] then 0 else |rs[0].text| + TextChars(rs[1..])
  }

  predicate Within(rs: seq<Record>) {
    |rs| <= MAX_OPERATOR_WORD_MESSAGES && TextChars(rs) <= MAX_OPERATOR_WORD_CHARS
  }

  function Last(rs: seq<Record>, k: nat): seq<Record>
    requires k <= |rs|
  {
    rs[|rs| - k..]
  }

  /** t is the longest suffix of rs within both caps. */
  ghost predicate IsLongestSuffix(rs: seq<Record>, t: seq<Record>) {
    && |t| <= |rs| && t == Last(rs, |t|) && Within(t)
    && forall k :: |t| < k <= |rs| ==> !Within(Last(rs, k))
  }

  function BoundCount(rs: seq<Record>, k: nat): (n: nat)
    requires k <= |rs|
    ensures k <= n <= |rs|
    decreases |rs| - k
  {
    if k < |rs| && Within(Last(rs, k + 1)) then BoundCount(rs, k + 1) else k
  }

  /** The newest records that are kept. */
  function Bound(rs: seq<Record>): seq<Record> {
    Last(rs, BoundCount(rs, 0))
  }

  lemma {:induction false} LongerIsHeavier(rs: seq<Record>, j: nat, k: nat)
    requires j <= k <= |rs|
    ensures TextChars(Last(rs, j)) <= TextChars(Last(rs, k))
    decreases k - j
  {
    if j < k {
      LongerIsHeavier(rs, j, k - 1);
      assert Last(rs, k)[1..] == Last(rs, k - 1);
    }
  }

  lemma {:induction false} BoundCountStops(rs: seq<Record>, k: nat)
    requires k <= |rs| && Within(Last(rs, k))
    ensures var n := BoundCount(rs, k); Within(Last(rs, n)) && (n < |rs| ==> !Within(Last(rs, n + 1)))
    decreases |rs| - k
  {
    hide Within;
    if k < |rs| && Within(Last(rs, k + 1)) {
      BoundCountStops(rs, k + 1);
    }
  }

  /** What is kept is the longest suffix within 30 records and 8000 characters, and only that. */
  lemma BoundIsLongestSuffix(rs: seq<Record>, t: seq<Record>)
    ensures IsLongestSuffix(rs, t) <==> t == Bound(rs)
    ensures |Bound(rs)| <= 30 && TextChars(Bound(rs)) <= 8000
    ensures forall k :: |Bound(rs)| < k <= |rs| ==> k > 30 || TextChars(Last(rs, k)) > 8000
  {
    var n := BoundCount(rs, 0);
    BoundCountStops(rs, 0);
    forall k | n < k <= |rs|
      ensures !Within(Last(rs, k))
    {
      LongerIsHeavier(rs, n + 1, k);
    }
    assert IsLongestSuffix(rs, Bound(rs));
    if IsLongestSuffix(rs, t) {
      assert |t| >= n;
      assert |t| <= n;
    }
  }

  method BoundOperatorWordRecords(records: seq<Record>, previouslyOmitted: nat)
    returns (retained: seq<Record>, omitted: nat)
    ensures retained == Bound(records)
    ensures omitted + |retained| == previouslyOmitted + |records|
  {
    var newestFirst: seq<Record> := [];
    var textChars := 0;
    ghost var kept := 0;
    var i := |records|;
    while i > 0
      invariant 0 <= i <= |records| && kept == |records| - i == |newestFirst|
      invariant newestFirst == Reverse(Last(records, kept))
      invariant textChars == TextChars(Last(records, kept))
      invariant BoundCount(records, 0) == BoundCount(records, kept)
      invariant Within(Last(records, kept))
    {
      assert Last(records, kept + 1)[1..] == Last(records, kept);
      if |newestFirst| >= MAX_OPERATOR_WORD_MESSAGES {
        break;
      }
      var chars := |records[i - 1].text|;
      if textChars + chars > MAX_OPERATOR_WORD_CHARS {
        break;
      }
      newestFirst := newestFirst + [records[i - 1]];
      textChars := textChars + chars;
      i := i - 1;
      kept := kept + 1;
    }
    ReverseTwice(Last(records, kept));
    retained := Reverse(newestFirst);
    omitted := previouslyOmitted + |records| - |retained|;
  }

  function Reverse(rs: seq<Record>): (r: seq<Record>)
    ensures |r| == |rs|
  {
    if rs == [] then [] else Reverse(rs[1..]) + [rs[0]]
  }

  lemma {:induction false} ReverseConcat(a: seq<Record>, b: seq<Record>)
    ensures Reverse(a + b) == Reverse(b) + Reverse(a)
  {
    if a == [] {
      assert a + b == b;
    } else {
      assert (a + b)[1..] == a[1..] + b;
      ReverseConcat(a[1..], b);
    }
  }

  lemma {:induction false} ReverseTwice(rs: seq<Record>)
    ensures Reverse(Reverse(rs)) == rs
  {
    if rs != [] {
      ReverseConcat(Reverse(rs[1..]), [rs[0]]);
      ReverseTwice(rs[1..]);
      assert Reverse([rs[0]]) == [rs[0]];
    }
  }

  // ---------------------------------------------------------------- round by round

  lemma LongestAbsorbs(a: seq<Record>, p: seq<Record>, b: seq<Record>, t: seq<Record>)
    requires IsLongestSuffix(a, p) && IsLongestSuffix(p + b, t)
    ensures IsLongestSuffix(a + b, t)
  {
    assert Last(a + b, |t|) == Last(p + b, |t|);
    forall k | |t| < k <= |a + b|
      ensures !Within(Last(a + b, k))
    {
      if k <= |p + b| {
        assert Last(a + b, k) == Last(p + b, k);
      } else {
        var older := Last(a, k - |b|);
        assert Last(a + b, k) == older + b;
        TextCharsConcat(older, b);
        assert !Within(older);
      }
    }
  }

  /** Bounding what an earlier round kept, with newer records added, is bounding everything. */
  lemma BoundAbsorbs(a: seq<Record>, b: seq<Record>)
    ensures Bound(Bound(a) + b) == Bound(a + b)
  {
    var p := Bound(a);
    var t := Bound(p + b);
    BoundIsLongestSuffix(a, p);
    BoundIsLongestSuffix(p + b, t);
    LongestAbsorbs(a, p, b, t);
    BoundIsLongestSuffix(a + b, t);
  }

  /** A list within the caps is its own bound, and so is every bound. */
  lemma WithinIsBound(rs: seq<Record>)
    ensures Within(rs) ==> Bound(rs) == rs
    ensures Within(Bound(rs)) && Bound(Bound(rs)) == Bound(rs)
  {
    BoundIsLongestSuffix(rs, Bound(rs));
    if Within(rs) {
      assert Last(rs, |rs|) == rs;
      BoundIsLongestSuffix(rs, rs);
    }
    assert Last(Bound(rs), |Bound(rs)|) == Bound(rs);
    BoundIsLongestSuffix(Bound(rs), Bound(rs));
  }

  lemma {:induction false} TextCharsConcat(a: seq<Record>, b: seq<Record>)
    ensures TextChars(a + b) == TextChars(a) + TextChars(b)
  {
    if a == [] {
      assert a + b == b;
    } else {
      assert (a + b)[1..] == a[1..] + b;
      TextCharsConcat(a[1..], b);
    }
  }

  /** What a summary carries after the given batches of records, one per round. */
  datatype Carried = Carried(retained: seq<Record>, omitted: nat)

  function AfterRounds(batches: seq<seq<Record>>): Carried {
    if batches == [] then Carried([], 0)
    else
      var n := |batches| - 1;
      var before := AfterRounds(batches[..n]);
      var offered := before.retained + batches[n];
      Carried(Bound(offered), before.omitted + (|offered| - BoundCount(offered, 0)))
  }

  function Flatten(batches: seq<seq<Record>>): seq<Record> {
    if batches == [] then [] else Flatten(batches[..|batches| - 1]) + batches[|batches| - 1]
  }

  /** Any number of rounds equals one: the longest suffix of all words, with an exact omission count. */
  lemma {:induction false} RoundsAreOneBound(batches: seq<seq<Record>>)
    ensures AfterRounds(batches).retained == Bound(Flatten(batches))
    ensures |AfterRounds(batches).retained| + AfterRounds(batches).omitted == |Flatten(batches)|
  {
    if batches != [] {
      var n := |batches| - 1;
      RoundsAreOneBound(batches[..n]);
      BoundAbsorbs(Flatten(batches[..n]), batches[n]);
    }
  }
}
