/** Where lines stand in the text they are joined into. */
module JoinedLines {
  import opened Text
  import opened OperatorBlocks

  /** Where line i starts in the joined lines. */
  function Offset(lines: seq<string>, i: nat): nat
    requires i < |lines|
  {
    if i == 0 then 0 else |lines[0]| + 1 + Offset(lines[1..], i - 1)
  }

  lemma {:induction false} JoinHolds(lines: seq<string>, i: nat)
    requires i < |lines|
    ensures OccursAt(Join("\n", lines), lines[i], Offset(lines, i))
    ensures i + 1 < |lines| ==> Offset(lines, i) + |lines[i]| < Offset(lines, i + 1)
  {
    var text := Join("\n", lines);
    if i > 0 {
      JoinHolds(lines[1..], i - 1);
      var rest := Join("\n", lines[1..]);
      assert text == (lines[0] + "\n") + rest;
      OccursBehind(lines[0] + "\n", rest, lines[i], Offset(lines[1..], i - 1));
    } else if |lines| > 1 {
      assert text == lines[0] + ("\n" + Join("\n", lines[1..]));
    }
  }

  lemma OccursBehind(front: string, s: string, pat: string, i: nat)
    requires OccursAt(s, pat, i)
    ensures OccursAt(front + s, pat, |front| + i)
  {
    assert (front + s)[|front| + i..|front| + i + |pat|] == s[i..i + |pat|];
  }

  lemma OccursBefore(s: string, back: string, pat: string, i: nat)
    requires OccursAt(s, pat, i)
    ensures OccursAt(s + back, pat, i)
  {
    assert (s + back)[i..i + |pat|] == s[i..i + |pat|];
  }

  lemma OccursWithin(a: string, pat: string, b: string)
    ensures OccursAt(a + pat + b, pat, |a|)
  {
    assert (a + pat + b)[|a|..|a| + |pat|] == pat;
  }

  /** The patterns stand in the text, one after the other, from the given place on. */
  ghost predicate InOrder(text: string, pats: seq<string>, from: nat, at: seq<nat>) {
    && |at| == |pats|
    && (forall i :: 0 <= i < |at| ==> from <= at[i] && OccursAt(text, pats[i], at[i]))
    && (forall i :: 0 <= i < |at| - 1 ==> at[i] + |pats[i]| <= at[i + 1])
  }

  function Offsets(lines: seq<string>, a: nat, b: nat): (at: seq<nat>)
    requires a <= b <= |lines|
    ensures |at| == b - a && forall i :: 0 <= i < b - a ==> at[i] == Offset(lines, a + i)
    decreases b - a
  {
    if a == b then [] else [Offset(lines, a)] + Offsets(lines, a + 1, b)
  }

  lemma LinesInOrder(lines: seq<string>, a: nat, b: nat) returns (at: seq<nat>)
    requires a <= b <= |lines|
    ensures InOrder(Join("\n", lines), lines[a..b], 0, at)
  {
    hide Join, OccursAt, Offset;
    at := Offsets(lines, a, b);
    forall i | 0 <= i < b - a
      ensures OccursAt(Join("\n", lines), lines[a..b][i], at[i])
      ensures i + 1 < b - a ==> at[i] + |lines[a..b][i]| <= at[i + 1]
    {
      JoinHolds(lines, a + i);
    }
  }

  lemma ShiftInOrder(front: string, text: string, back: string, pats: seq<string>, at: seq<nat>) returns (at': seq<nat>)
    requires InOrder(text, pats, 0, at)
    ensures InOrder(front + text + back, pats, |front|, at')
  {
    hide OccursAt;
    at' := seq(|at|, i requires 0 <= i < |at| => |front| + at[i]);
    forall i | 0 <= i < |at|
      ensures OccursAt(front + text + back, pats[i], at'[i])
    {
      OccursBehind(front, text, pats[i], at[i]);
      OccursBefore(front + text, back, pats[i], at'[i]);
    }
  }

  lemma LineOccurs(head: seq<string>, mid: seq<string>, foot: seq<string>, i: nat)
    requires i < |mid|
    ensures Occurs(Join("\n", head + mid + foot), mid[i])
  {
    hide Join, OccursAt;
    JoinHolds(head + mid + foot, |head| + i);
  }
}
