/** The string operations the engine uses, with Python's notion of white space and line ends. */
module Text {

  /** Characters removed by strip. */
  predicate IsSpace(c: char) {
    || '\t' <= c <= '\r' || '\U{1C}' <= c <= ' '
    || c == '\U{85}' || c == '\U{A0}' || c == '\U{1680}' || '\U{2000}' <= c <= '\U{200A}'
    || c == '\U{2028}' || c == '\U{2029}' || c == '\U{202F}' || c == '\U{205F}' || c == '\U{3000}'
  }

  /** Characters that end a line. */
  predicate IsBreak(c: char) {
    || '\n' <= c <= '\r' || '\U{1C}' <= c <= '\U{1E}'
    || c == '\U{85}' || c == '\U{2028}' || c == '\U{2029}'
  }

  function RStrip(s: string): (r: string)
    ensures r <= s && forall i :: |r| <= i < |s| ==> IsSpace(s[i])
    ensures r == "" || !IsSpace(r[|r| - 1])
  {
    if s != "" && IsSpace(s[|s| - 1]) then RStrip(s[..|s| - 1]) else s
  }

  function LStrip(s: string): (r: string)
    ensures |r| <= |s| && r == s[|s| - |r|..] && forall i :: 0 <= i < |s| - |r| ==> IsSpace(s[i])
    ensures r == "" || !IsSpace(r[0])
  {
    if s != "" && IsSpace(s[0]) then LStrip(s[1..]) else s
  }

  function Strip(s: string): string {
    LStrip(RStrip(s))
  }

  predicate Stripped(s: string) {
    s == "" || (!IsSpace(s[0]) && !IsSpace(s[|s| - 1]))
  }

  lemma {:induction false} StripProperties(s: string)
    ensures Stripped(Strip(s))
    ensures Stripped(s) ==> Strip(s) == s
  {
    var r := RStrip(s);
    var t := LStrip(r);
    if t != "" {
      assert t[|t| - 1] == r[|r| - 1];
    }
  }

  lemma {:induction false} RStripDropsSpaces(a: string, b: string)
    requires forall c :: c in b ==> IsSpace(c)
    ensures RStrip(a + b) == RStrip(a)
  {
    if b == "" {
      assert a + b == a;
    } else {
      assert (a + b)[..|a + b| - 1] == a + b[..|b| - 1];
      RStripDropsSpaces(a, b[..|b| - 1]);
    }
  }

  // ---------------------------------------------------------------- joining

  function Concat(parts: seq<string>): string {
    if parts == [] then "" else parts[0] + Concat(parts[1..])
  }

  function Join(sep: string, parts: seq<string>): string {
    if parts == [] then ""
    else if |parts| == 1 then parts[0]
    else parts[0] + sep + Join(sep, parts[1..])
  }

  lemma {:induction false} ConcatConcat(a: seq<string>, b: seq<string>)
    ensures Concat(a + b) == Concat(a) + Concat(b)
  {
    if a == [] {
      assert a + b == b;
    } else {
      assert (a + b)[1..] == a[1..] + b;
      ConcatConcat(a[1..], b);
    }
  }

  // ---------------------------------------------------------------- lines

  /** The length of the first line with its ending; a carriage return takes a line feed along. */
  function LineEnd(s: string): (k: nat)
    requires s != ""
    ensures 0 < k <= |s|
  {
    if IsBreak(s[0]) then (if s[0] == '\r' && |s| > 1 && s[1] == '\n' then 2 else 1)
    else if |s| == 1 then 1
    else 1 + LineEnd(s[1..])
  }

  /** splitlines with the line endings kept. */
  function LinesKept(s: string): seq<string> {
    if s == "" then [] else [s[..LineEnd(s)]] + LinesKept(s[LineEnd(s)..])
  }

  /** A line without its ending. */
  function TrimEnd(l: string): (r: string)
    ensures r <= l
    ensures forall c :: c in l[|r|..] ==> IsBreak(c)
  {
    if |l| >= 2 && l[|l| - 2] == '\r' && l[|l| - 1] == '\n' then l[..|l| - 2]
    else if l != "" && IsBreak(l[|l| - 1]) then l[..|l| - 1]
    else l
  }

  function Lines(s: string): (r: seq<string>)
    ensures |r| == |LinesKept(s)|
    ensures forall i :: 0 <= i < |r| ==> r[i] == TrimEnd(LinesKept(s)[i])
  {
    var kept := LinesKept(s);
    seq(|kept|, i requires 0 <= i < |kept| => TrimEnd(kept[i]))
  }

  predicate NoBreaks(s: string) {
    forall c :: c in s ==> !IsBreak(c)
  }

  lemma {:induction false} LinesKeptConcat(s: string)
    ensures Concat(LinesKept(s)) == s
  {
    if s != "" {
      var k := LineEnd(s);
      LinesKeptConcat(s[k..]);
      assert s == s[..k] + s[k..];
    }
  }

  lemma {:induction false} LineEndIsLocal(x: string, y: string)
    requires x != "" && x[|x| - 1] == '\n'
    ensures LineEnd(x + y) == LineEnd(x)
  {
    if !IsBreak(x[0]) {
      assert (x + y)[1..] == x[1..] + y;
      LineEndIsLocal(x[1..], y);
    }
  }

  /** After a line feed the lines of the rest are independent. */
  lemma {:induction false} LinesKeptAppend(x: string, y: string)
    requires x == "" || x[|x| - 1] == '\n'
    ensures LinesKept(x + y) == LinesKept(x) + LinesKept(y)
  {
    if x == "" {
      assert x + y == y;
    } else {
      LineEndIsLocal(x, y);
      var k := LineEnd(x);
      assert (x + y)[..k] == x[..k];
      assert (x + y)[k..] == x[k..] + y;
      LinesKeptAppend(x[k..], y);
    }
  }

  lemma {:induction false} LineEndSpans(l: string, rest: string)
    requires NoBreaks(l) && (rest == "" || rest[0] == '\n')
    requires l + rest != ""
    ensures LineEnd(l + rest) == if rest == "" then |l| else |l| + 1
  {
    if l == "" {
      assert l + rest == rest;
    } else {
      assert (l + rest)[0] == l[0] && l[0] in l;
      assert (l + rest)[1..] == l[1..] + rest;
      if l[1..] + rest != "" {
        forall c | c in l[1..]
          ensures !IsBreak(c)
        {
          assert c in l;
        }
        LineEndSpans(l[1..], rest);
      }
    }
  }

  /** Joining break-free, non-empty lines with line feeds and splitting again gives them back. */
  lemma {:induction false} LinesOfJoin(ls: seq<string>)
    requires forall i :: 0 <= i < |ls| ==> NoBreaks(ls[i]) && ls[i] != ""
    ensures |LinesKept(Join("\n", ls))| == |ls|
    ensures forall i :: 0 <= i < |ls| ==> LinesKept(Join("\n", ls))[i] == ls[i] + (if i + 1 < |ls| then "\n" else "")
  {
    if |ls| == 1 {
      assert ls[0] + "" == ls[0];
      LineEndSpans(ls[0], "");
    } else if |ls| > 1 {
      var s, rest := Join("\n", ls), Join("\n", ls[1..]);
      assert s == ls[0] + ("\n" + rest);
      LineEndSpans(ls[0], "\n" + rest);
      assert s[..|ls[0]| + 1] == ls[0] + "\n";
      assert s[|ls[0]| + 1..] == rest;
      LinesOfJoin(ls[1..]);
    }
  }

  // ---------------------------------------------------------------- numbers

  function Decimal(n: nat): (s: string)
    ensures s != ""
  {
    if n < 10 then [(n as char) + '0'] else Decimal(n / 10) + [((n % 10) as char) + '0']
  }

  /** The number a string of digits stands for. */
  function Value(s: string): int {
    if s == "" then 0 else Value(s[..|s| - 1]) * 10 + (s[|s| - 1] as int - '0' as int)
  }

  lemma {:induction false} DecimalReadsBack(n: nat)
    ensures Value(Decimal(n)) == n
  {
    if n >= 10 {
      var s := Decimal(n);
      assert s[..|s| - 1] == Decimal(n / 10);
      DecimalReadsBack(n / 10);
    } else {
      assert Decimal(n)[..0] == "";
    }
  }

  lemma DecimalInjective(m: nat, n: nat)
    requires Decimal(m) == Decimal(n)
    ensures m == n
  {
    DecimalReadsBack(m);
    DecimalReadsBack(n);
  }

  lemma InfixInjective(before: string, a: string, b: string, after: string)
    requires before + a + after == before + b + after
    ensures a == b
  {
    var s, t := before + a + after, before + b + after;
    assert |a| == |b|;
    assert s[|before|..|before| + |a|] == a && t[|before|..|before| + |b|] == b;
  }
}
