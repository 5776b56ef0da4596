/** The issue-number and commit-id recognisers, shown never to match across a line feed. */
module EvidenceTokens {
  import opened OpenState

  /** A pattern: which texts match, and which neighbouring characters forbid the match. */
  datatype Pattern = Pattern(inner: string -> bool, joined: char -> bool)

  function Matches(p: Pattern, t: string): set<string> {
    set i, j | 0 <= i < j <= |t| && MatchAt(p, t, i, j) :: t[i..j]
  }

  predicate MatchAt(p: Pattern, t: string, i: int, j: int)
    requires 0 <= i < j <= |t|
  {
    p.inner(t[i..j]) && (i == 0 || !p.joined(t[i - 1])) && (j == |t| || !p.joined(t[j]))
  }

  /** Line feeds neither belong to a match nor forbid one. */
  ghost predicate WithinLines(p: Pattern) {
    !p.joined('\n') && forall x :: p.inner(x) ==> '\n' !in x
  }

  /** A slice without the character at k does not cover k. */
  lemma SliceAvoids(t: string, i: nat, j: nat, k: nat)
    requires i <= j <= |t| && k < |t|
    ensures t[k] !in t[i..j] ==> j <= k || k < i
  {
    if i <= k < j {
      assert t[i..j][k - i] == t[k];
    }
  }

  lemma MatchesOfParts(p: Pattern, a: string, b: string, x: string)
    requires WithinLines(p) && x in Matches(p, a + "\n" + b)
    ensures x in Matches(p, a) || x in Matches(p, b)
  {
    var t, n := a + "\n" + b, |a| + 1;
    var i, j :| 0 <= i < j <= |t| && MatchAt(p, t, i, j) && t[i..j] == x;
    SliceAvoids(t, i, j, |a|);
    assert t[|a|] == '\n';
    if j <= |a| {
      assert a[i..j] == x;
      assert MatchAt(p, a, i, j);
    } else {
      assert b[i - n..j - n] == x;
      assert i > n ==> b[i - n - 1] == t[i - 1];
      assert j < |t| ==> b[j - n] == t[j];
      assert MatchAt(p, b, i - n, j - n);
    }
  }

  lemma MatchesOfFirst(p: Pattern, a: string, b: string, x: string)
    requires WithinLines(p) && x in Matches(p, a)
    ensures x in Matches(p, a + "\n" + b)
  {
    var t := a + "\n" + b;
    var i, j :| 0 <= i < j <= |a| && MatchAt(p, a, i, j) && a[i..j] == x;
    assert t[i..j] == x;
    assert MatchAt(p, t, i, j);
  }

  lemma MatchesOfSecond(p: Pattern, a: string, b: string, x: string)
    requires WithinLines(p) && x in Matches(p, b)
    ensures x in Matches(p, a + "\n" + b)
  {
    var t, n := a + "\n" + b, |a| + 1;
    var i, j :| 0 <= i < j <= |b| && MatchAt(p, b, i, j) && b[i..j] == x;
    assert t[i + n..j + n] == x;
    assert t[i + n - 1] == if i == 0 then '\n' else b[i - 1];
    assert j < |b| ==> t[j + n] == b[j];
    assert MatchAt(p, t, i + n, j + n);
  }

  lemma MatchesDistribute(p: Pattern, a: string, b: string)
    requires WithinLines(p)
    ensures Matches(p, a + "\n" + b) == Matches(p, a) + Matches(p, b)
  {
    hide Matches;
    forall x | x in Matches(p, a + "\n" + b)
      ensures x in Matches(p, a) + Matches(p, b)
    {
      MatchesOfParts(p, a, b, x);
    }
    forall x | x in Matches(p, a)
      ensures x in Matches(p, a + "\n" + b)
    {
      MatchesOfFirst(p, a, b, x);
    }
    forall x | x in Matches(p, b)
      ensures x in Matches(p, a + "\n" + b)
    {
      MatchesOfSecond(p, a, b, x);
    }
  }

  /** Python's Unicode word and digit classes, of which only line feeds matter here. */
  datatype Lexicon = Lexicon(word: char -> bool, digit: char -> bool) {
    predicate Valid() {
      !word('\n') && !digit('\n')
    }
  }

  predicate IsHex(c: char) {
    '0' <= c <= '9' || 'a' <= c <= 'f' || 'A' <= c <= 'F'
  }

  /** A number sign and digits, no word character on either side. */
  function IssuePattern(lex: Lexicon): Pattern {
    Pattern(x => |x| >= 2 && x[0] == '#' && forall i :: 1 <= i < |x| ==> lex.digit(x[i]), lex.word)
  }

  /** A whole run of 7 to 40 hexadecimal digits. */
  function CommitPattern(): Pattern {
    Pattern(x => 7 <= |x| <= 40 && forall i :: 0 <= i < |x| ==> IsHex(x[i]), IsHex)
  }

  function Lower(s: string): string {
    seq(|s|, i requires 0 <= i < |s| => if 'A' <= s[i] <= 'Z' then s[i] - 'A' + 'a' else s[i])
  }

  function Tokens(lex: Lexicon, t: string): set<string> {
    Matches(IssuePattern(lex), t) + set x | x in Matches(CommitPattern(), t) :: Lower(x)
  }

  /** A run of hexadecimal digits is a commit exactly when it has 7 to 40 of them; its case does not matter. */
  lemma CommitIff(lex: Lexicon, s: string)
    requires s != "" && forall i :: 0 <= i < |s| ==> IsHex(s[i])
    ensures Lower(s) in Tokens(lex, s) <==> 7 <= |s| <= 40
    ensures |Lower(s)| == |s|
    ensures forall i :: 0 <= i < |s| ==> Lower(s)[i] == if 'A' <= s[i] <= 'F' then s[i] + ' ' else s[i]
  {
    var p := CommitPattern();
    assert s[0..|s|] == s;
    if 7 <= |s| <= 40 {
      assert MatchAt(p, s, 0, |s|);
    } else {
      forall i, j | 0 <= i < j <= |s|
        ensures !MatchAt(p, s, i, j)
      {
        if i == 0 && j == |s| {
          assert s[i..j] == s;
        }
      }
      NotAnIssue(lex, s);
    }
  }

  lemma NotAnIssue(lex: Lexicon, s: string)
    requires s != "" && forall i :: 0 <= i < |s| ==> IsHex(s[i])
    ensures Matches(IssuePattern(lex), s) == {}
  {
    forall i, j | 0 <= i < j <= |s|
      ensures !MatchAt(IssuePattern(lex), s, i, j)
    {
      assert s[i..j][0] == s[i];
    }
  }

  /** A number sign and digits, alone, are an issue. */
  lemma IssueStands(lex: Lexicon, s: string)
    requires |s| >= 2 && s[0] == '#' && forall i :: 1 <= i < |s| ==> lex.digit(s[i])
    ensures s in Tokens(lex, s)
  {
    assert s[0..|s|] == s;
    assert MatchAt(IssuePattern(lex), s, 0, |s|);
  }

  /** The recognisers the sanitizer uses meet its hypothesis. */
  lemma TokensDistribute(lex: Lexicon)
    requires lex.Valid()
    ensures Distributes(t => Tokens(lex, t))
  {
    var issue, commit := IssuePattern(lex), CommitPattern();
    assert WithinLines(issue) by {
      forall x | issue.inner(x)
        ensures '\n' !in x
      {
        forall i | 0 <= i < |x|
          ensures x[i] != '\n'
        {
          assert i == 0 || lex.digit(x[i]);
        }
      }
    }
    assert WithinLines(commit);
    assert Tokens(lex, "") == {};
    forall a, b
      ensures Tokens(lex, a + "\n" + b) == Tokens(lex, a) + Tokens(lex, b)
    {
      MatchesDistribute(issue, a, b);
      MatchesDistribute(commit, a, b);
    }
  }
}
