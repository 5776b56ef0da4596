/** The item lines of a text: what is left of each line once it is trimmed, blank lines aside. */
module LineItems {
  import opened Text

  ghost predicate HasItem(lines: seq<string>, l: string) {
    exists i :: 0 <= i < |lines| && Strip(lines[i]) == l
  }

  lemma HasItemConcat(a: seq<string>, b: seq<string>, l: string)
    ensures HasItem(a + b, l) <==> HasItem(a, l) || HasItem(b, l)
  {
    hide Strip;
    if i :| 0 <= i < |a| && Strip(a[i]) == l {
      assert (a + b)[i] == a[i];
    }
    if i :| 0 <= i < |b| && Strip(b[i]) == l {
      assert (a + b)[|a| + i] == b[i];
    }
  }

  lemma BreaksAreSpace(c: char)
    requires IsBreak(c)
    ensures IsSpace(c)
  {
  }

  // ---------------------------------------------------------------- trimming

  lemma {:induction false} RStripAll(s: string)
    requires forall c :: c in s ==> IsSpace(c)
    ensures RStrip(s) == ""
  {
    RStripDropsSpaces("", s);
    assert "" + s == s;
  }

  lemma {:induction false} RStripFront(c: char, x: string)
    ensures RStrip([c] + x) == if RStrip(x) == "" then RStrip([c]) else [c] + RStrip(x)
  {
    var r := RStrip(x);
    var ws := x[|r|..];
    assert [c] + x == ([c] + r) + ws;
    forall d | d in ws
      ensures IsSpace(d)
    {
      var i :| 0 <= i < |ws| && ws[i] == d;
      assert x[|r| + i] == d;
    }
    RStripDropsSpaces([c] + r, ws);
    if r == "" {
      assert [c] + r == [c];
    } else {
      assert ([c] + r)[|r|] == r[|r| - 1];
    }
  }

  lemma StripFront(c: char, x: string)
    requires IsSpace(c)
    ensures Strip([c] + x) == Strip(x)
  {
    RStripFront(c, x);
    RStripAll([c]);
    assert RStrip(x) != "" ==> ([c] + RStrip(x))[1..] == RStrip(x);
  }

  lemma StripBack(x: string, ws: string)
    requires forall c :: c in ws ==> IsSpace(c)
    ensures Strip(x + ws) == Strip(x)
  {
    RStripDropsSpaces(x, ws);
  }

  lemma StripBlank(s: string)
    requires forall c :: c in s ==> IsSpace(c)
    ensures Strip(s) == ""
  {
    RStripAll(s);
  }

  lemma StripTrimmed(l: string)
    ensures Strip(TrimEnd(l)) == Strip(l)
  {
    hide Strip, IsBreak, IsSpace;
    var t := TrimEnd(l);
    assert forall c :: c in l[|t|..] ==> IsBreak(c);
    hide TrimEnd;
    forall c | c in l[|t|..]
      ensures IsSpace(c)
    {
      BreaksAreSpace(c);
    }
    StripBack(t, l[|t|..]);
    assert t + l[|t|..] == l;
  }

  // ---------------------------------------------------------------- space around a text

  lemma BlankLine(s: string, rest: seq<string>, l: string)
    requires l != "" && forall c :: c in s ==> IsSpace(c)
    ensures HasItem([s] + rest, l) <==> HasItem(rest, l)
  {
    StripBlank(s);
    HasItemConcat([s], rest, l);
  }

  lemma SameFirstLine(a: string, b: string, rest: seq<string>, l: string)
    requires Strip(a) == Strip(b)
    ensures HasItem([a] + rest, l) <==> HasItem([b] + rest, l)
  {
    hide Strip, HasItem;
    HasItemConcat([a], rest, l);
    HasItemConcat([b], rest, l);
    OneItem(a, l);
    OneItem(b, l);
  }

  lemma OneItem(a: string, l: string)
    ensures HasItem([a], l) <==> Strip(a) == l
  {
    hide Strip;
    assert [a][0] == a;
  }

  lemma OneCharLines(c: char)
    ensures LinesKept([c]) == [[c]] + LinesKept("")
  {
    assert LineEnd([c]) == 1 && [c][..1] == [c] && [c][1..] == "";
  }

  lemma SpaceInFront(c: char, s: string, l: string)
    requires IsSpace(c) && l != ""
    ensures HasItem(LinesKept([c] + s), l) <==> HasItem(LinesKept(s), l)
  {
    hide Strip, HasItem;
    var t := [c] + s;
    var k := LineEnd(t);
    assert LinesKept(t) == [t[..k]] + LinesKept(t[k..]);
    if s == "" {
      BlankLine(t, LinesKept(""), l);
      assert t[..k] == t && t[k..] == "";
    } else if !IsBreak(c) {
      assert t[1..] == s;
      StripFront(c, s[..k - 1]);
      assert t[..k] == [c] + s[..k - 1] && t[k..] == s[k - 1..];
      SameFirstLine(t[..k], s[..k - 1], LinesKept(s[k - 1..]), l);
    } else {
      BlankLine(t[..k], LinesKept(t[k..]), l);
      if k == 2 {
        assert t[2..] == s[1..] && LineEnd(s) == 1;
        assert LinesKept(s) == [s[..1]] + LinesKept(s[1..]);
        BlankLine(s[..1], LinesKept(s[1..]), l);
      } else {
        assert t[1..] == s;
      }
    }
  }

  /** A line that ends within a text ends there whatever follows the text. */
  lemma {:induction false} LineEndStays(s: string, more: string)
    requires s != "" && LineEnd(s) < |s|
    ensures LineEnd(s + more) == LineEnd(s)
  {
    if !IsBreak(s[0]) && |s| > 1 {
      assert (s + more)[1..] == s[1..] + more;
      LineEndStays(s[1..], more);
    }
  }

  /** One line and one more character: still one line, or a line and a new one. */
  lemma {:induction false} LineEndGrows(s: string, c: char)
    requires s != "" && LineEnd(s) == |s|
    ensures LineEnd(s + [c]) == |s| + 1 || (LineEnd(s + [c]) == |s|)
  {
    if !IsBreak(s[0]) && |s| > 1 {
      assert (s + [c])[1..] == s[1..] + [c];
      LineEndGrows(s[1..], c);
    }
  }

  lemma {:induction false} SpaceBehind(s: string, c: char, l: string)
    requires IsSpace(c) && l != ""
    ensures HasItem(LinesKept(s + [c]), l) <==> HasItem(LinesKept(s), l)
    decreases |s|
  {
    hide Strip, HasItem;
    var t := s + [c];
    if s == "" {
      assert t == [c];
      OneCharLines(c);
      BlankLine([c], LinesKept(""), l);
    } else {
      var k := LineEnd(s);
      var first := s[..k];
      assert LinesKept(s) == [first] + LinesKept(s[k..]);
      if k < |s| {
        LineEndStays(s, [c]);
        assert t[..k] == first && t[k..] == s[k..] + [c];
        SpaceBehind(s[k..], c, l);
        HasItemConcat([first], LinesKept(s[k..]), l);
        HasItemConcat([first], LinesKept(t[k..]), l);
      } else {
        LineEndGrows(s, c);
        assert first == s && s[k..] == "";
        if LineEnd(t) == |s| + 1 {
          assert t[..|t|] == t && t[|t|..] == "";
          StripBack(s, [c]);
          SameFirstLine(t, s, LinesKept(""), l);
        } else {
          assert t[..k] == s && t[k..] == [c];
          OneCharLines(c);
          BlankLine([c], LinesKept(""), l);
          HasItemConcat([s], LinesKept([c]), l);
          HasItemConcat([s], LinesKept(""), l);
        }
      }
    }
  }

  /** Trimming a text as a whole changes none of its items. */
  lemma TrimKeepsItems(s: string, l: string)
    requires l != ""
    ensures HasItem(LinesKept(Strip(s)), l) <==> HasItem(LinesKept(s), l)
  {
    hide HasItem, LinesKept;
    RStripKeepsItems(s, l);
    LStripKeepsItems(RStrip(s), l);
  }

  lemma {:induction false} RStripKeepsItems(s: string, l: string)
    requires l != ""
    ensures HasItem(LinesKept(RStrip(s)), l) <==> HasItem(LinesKept(s), l)
  {
    hide HasItem, LinesKept, IsSpace;
    if s != "" && IsSpace(s[|s| - 1]) {
      var n := |s| - 1;
      RStripKeepsItems(s[..n], l);
      SpaceBehind(s[..n], s[n], l);
      assert s[..n] + [s[n]] == s;
    }
  }

  lemma LStripStep(s: string)
    ensures s != "" && IsSpace(s[0]) ==> LStrip(s) == LStrip(s[1..])
    ensures s == "" || !IsSpace(s[0]) ==> LStrip(s) == s
  {
    hide IsSpace;
  }

  lemma {:induction false} LStripKeepsItems(s: string, l: string)
    requires l != ""
    ensures HasItem(LinesKept(LStrip(s)), l) <==> HasItem(LinesKept(s), l)
  {
    hide HasItem, LinesKept, IsSpace, LStrip;
    LStripStep(s);
    if s != "" && IsSpace(s[0]) {
      LStripKeepsItems(s[1..], l);
      SpaceInFront(s[0], s[1..], l);
      assert [s[0]] + s[1..] == s;
    }
  }

  // ---------------------------------------------------------------- lines taken out of a text

  lemma {:induction false} LineEndOfPrefix(s: string, m: nat)
    requires s != "" && LineEnd(s) <= m <= |s|
    ensures LineEnd(s[..m]) == LineEnd(s)
  {
    if !IsBreak(s[0]) && |s| > 1 && m > 1 {
      assert s[..m][1..] == s[1..][..m - 1];
      LineEndOfPrefix(s[1..], m - 1);
    }
  }

  lemma ConcatCons(x: string, rest: seq<string>)
    ensures Concat([x] + rest) == x + Concat(rest)
  {
    assert ([x] + rest)[1..] == rest;
  }

  lemma FirstLineThen(s: string, t: string)
    requires s != "" && t <= s && LineEnd(s) <= |t|
    ensures var k := LineEnd(s); LinesKept(t) == [s[..k]] + LinesKept(t[k..])
  {
    hide LineEnd;
    assert t == s[..|t|];
    LineEndOfPrefix(s, |t|);
    assert t[..LineEnd(s)] == s[..LineEnd(s)];
  }

  /** The first lines of a text, put together, are these lines again. */
  lemma {:induction false} FirstLines(s: string, b: nat)
    requires b <= |LinesKept(s)|
    ensures Concat(LinesKept(s)[..b]) <= s
    ensures LinesKept(Concat(LinesKept(s)[..b])) == LinesKept(s)[..b]
    decreases b
  {
    hide LineEnd, Concat;
    if b > 0 {
      var k := LineEnd(s);
      var lines, rest := LinesKept(s), LinesKept(s[k..]);
      FirstLines(s[k..], b - 1);
      var tail := Concat(rest[..b - 1]);
      assert lines[..b] == [s[..k]] + rest[..b - 1];
      ConcatCons(s[..k], rest[..b - 1]);
      var t := s[..k] + tail;
      assert s == s[..k] + s[k..];
      assert t <= s && t[k..] == tail;
      FirstLineThen(s, t);
    } else {
      NoLines();
      assert LinesKept(s)[..0] == [];
    }
  }

  lemma NoLines()
    ensures Concat([]) == "" && LinesKept("") == []
  {
  }

  lemma {:induction false} LaterLines(s: string, a: nat)
    requires a <= |LinesKept(s)|
    ensures LinesKept(Concat(LinesKept(s)[a..])) == LinesKept(s)[a..]
    decreases a
  {
    var lines := LinesKept(s);
    if a == 0 {
      LinesKeptConcat(s);
      assert lines[0..] == lines;
    } else {
      var k := LineEnd(s);
      LaterLines(s[k..], a - 1);
      assert lines[a..] == LinesKept(s[k..])[a - 1..];
    }
  }

  /** So are those from a to b; trimmed as a whole and split again, they have the same items. */
  lemma ItemsOfLines(s: string, a: nat, b: nat, l: string)
    requires a <= b <= |LinesKept(s)| && l != ""
    ensures HasItem(Lines(Strip(Concat(LinesKept(s)[a..b]))), l) <==> HasItem(LinesKept(s)[a..b], l)
  {
    hide LinesKept, Concat, Strip, HasItem;
    var later := LinesKept(s)[a..];
    LaterLines(s, a);
    var text := Concat(later);
    FirstLines(text, b - a);
    assert later[..b - a] == LinesKept(s)[a..b];
    var block := Concat(later[..b - a]);
    TrimKeepsItems(block, l);
    TrimmedItems(Strip(block), l);
  }

  lemma TrimmedItems(s: string, l: string)
    ensures HasItem(Lines(s), l) <==> HasItem(LinesKept(s), l)
  {
    hide LinesKept, Strip, TrimEnd;
    forall i | 0 <= i < |Lines(s)|
      ensures Strip(Lines(s)[i]) == Strip(LinesKept(s)[i])
    {
      StripTrimmed(LinesKept(s)[i]);
    }
  }
}
