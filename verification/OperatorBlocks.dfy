/** Removing operator-word blocks a summarizer wrote itself; only message metadata may supply them. */
module OperatorBlocks {
  import opened Text

  predicate OccursAt(s: string, pat: string, i: int) {
    0 <= i && i + |pat| <= |s| && s[i..i + |pat|] == pat
  }

  ghost predicate Occurs(s: string, pat: string) {
    exists i :: OccursAt(s, pat, i)
  }

  /** The first occurrence at or after `from`, or -1. */
  function Find(s: string, pat: string, from: nat): (r: int)
    ensures r == -1 || (from <= r && OccursAt(s, pat, r))
    ensures forall i :: from <= i && (r == -1 || i < r) ==> !OccursAt(s, pat, i)
    decreases |s| - from
  {
    if from + |pat| > |s| then -1
    else if OccursAt(s, pat, from) then from
    else Find(s, pat, from + 1)
  }

  /** Cuts out every block from an opening to the next closing marker; an unclosed one to the end. */
  method StripBlocks(text: string, open: string, close: string) returns (r: string)
    requires open != "" && close != ""
    ensures r == WithoutBlocks(text, open, close)
  {
    r := text;
    while true
      invariant WithoutBlocks(text, open, close) == WithoutBlocks(r, open, close)
      decreases |r|
    {
      var start := Find(r, open, 0);
      if start < 0 {
        return;
      }
      var end := Find(r, close, start);
      if end < 0 {
        return RStrip(r[..start]);
      }
      r := r[..start] + r[end + |close|..];
    }
  }

  function WithoutBlocks(text: string, open: string, close: string): string
    requires open != "" && close != ""
    decreases |text|
  {
    var start := Find(text, open, 0);
    if start < 0 then text
    else
      var end := Find(text, close, start);
      if end < 0 then RStrip(text[..start])
      else WithoutBlocks(text[..start] + text[end + |close|..], open, close)
  }

  /** A text that stops at the first occurrence of the pattern contains none. */
  lemma PrefixHasNone(text: string, r: string, pat: string, start: nat)
    requires pat != "" && r <= text && |r| <= start
    requires forall i :: 0 <= i < start ==> !OccursAt(text, pat, i)
    ensures !Occurs(r, pat)
  {
    forall i
      ensures !OccursAt(r, pat, i)
    {
      if OccursAt(r, pat, i) {
        assert text[i..i + |pat|] == r[i..i + |pat|];
        assert OccursAt(text, pat, i);
      }
    }
  }

  /** No opening marker survives, not even one formed by closing up around a removed block. */
  lemma {:induction false} NoMarkerSurvives(text: string, open: string, close: string)
    requires open != "" && close != ""
    ensures !Occurs(WithoutBlocks(text, open, close), open)
    decreases |text|
  {
    hide RStrip, Find;
    var start := Find(text, open, 0);
    if start >= 0 {
      var end := Find(text, close, start);
      if end < 0 {
        PrefixHasNone(text, RStrip(text[..start]), open, start);
      } else {
        NoMarkerSurvives(text[..start] + text[end + |close|..], open, close);
      }
    } else {
      assert forall i :: OccursAt(text, open, i) ==> 0 <= i;
    }
  }

  /** Stripping changes a text exactly when the opening marker occurs in it, and then shortens it. */
  lemma {:induction false} StripShortensIff(text: string, open: string, close: string)
    requires open != "" && close != ""
    ensures Occurs(text, open) ==> |WithoutBlocks(text, open, close)| < |text|
    ensures !Occurs(text, open) ==> WithoutBlocks(text, open, close) == text
    decreases |text|
  {
    hide RStrip, Find;
    var start := Find(text, open, 0);
    if start >= 0 {
      assert OccursAt(text, open, start);
      var end := Find(text, close, start);
      if end >= 0 {
        StripShortensIff(text[..start] + text[end + |close|..], open, close);
      }
    } else {
      assert forall i :: OccursAt(text, open, i) ==> 0 <= i;
    }
  }

  /** The first marker of a text starts right after `a`. */
  ghost predicate FirstAt(text: string, pat: string, a: nat) {
    OccursAt(text, pat, a) && forall i :: 0 <= i < a ==> !OccursAt(text, pat, i)
  }

  /** A closed block is cut out, markers included, and what surrounds it closes up. */
  lemma ClosedBlockCutOut(a: string, mid: string, b: string, open: string, close: string)
    requires open != "" && close != ""
    requires var text := a + open + mid + close + b;
             && FirstAt(text, open, |a|)
             && forall i :: |a| <= i < |a + open + mid| ==> !OccursAt(text, close, i)
    ensures WithoutBlocks(a + open + mid + close + b, open, close) == WithoutBlocks(a + b, open, close)
    ensures !Occurs(a + b, open) ==> WithoutBlocks(a + open + mid + close + b, open, close) == a + b
  {
    hide RStrip;
    var text := a + open + mid + close + b;
    var start := Find(text, open, 0);
    assert start == |a|;
    var at := |a + open + mid|;
    assert text[at..at + |close|] == close;
    assert OccursAt(text, close, at);
    assert Find(text, close, start) == at;
    assert text[..start] == a && text[at + |close|..] == b;
    StripShortensIff(a + b, open, close);
  }

  /** A marker that is never closed takes everything after it along, and space before it. */
  lemma UnclosedBlockCuts(text: string, open: string, close: string, at: nat)
    requires open != "" && close != "" && FirstAt(text, open, at)
    requires forall i :: at <= i ==> !OccursAt(text, close, i)
    ensures WithoutBlocks(text, open, close) == RStrip(text[..at])
  {
    hide RStrip;
    assert Find(text, open, 0) == at;
    assert Find(text, close, at) == -1;
  }

  lemma UnclosedCuts(text: string, open: string, close: string, at: nat)
    requires open != "" && close != "" && OccursAt(text, open, at) && !Occurs(text, close)
    ensures |WithoutBlocks(text, open, close)| <= at
  {
    hide RStrip;
    var start := Find(text, open, 0);
    UnclosedBlockCuts(text, open, close, start);
  }
}
