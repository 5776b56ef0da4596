/**
 * Words of a systemd unit file: the printer used for ExecStart and Environment lines, and the reader
 * of "Quoting" in systemd.syntax(7) and "Specifiers" in systemd.unit(5).
 */
module SystemdWords {
  import opened Options

  // ---------------------------------------------------------------- the printer

  /** Global replacement of one character. */
  function Replace(s: string, c: char, to: string): string {
    if s == "" then "" else (if s[0] == c then to else [s[0]]) + Replace(s[1..], c, to)
  }

  /** Three replacements in sequence: backslashes, quotes, percent signs. */
  function Quoted(text: string): string {
    "\"" + Replace(Replace(Replace(text, '\\', "\\\\"), '"', "\\\""), '%', "%%") + "\""
  }

  function QuotedAll(args: seq<string>): seq<string> {
    if args == [] then [] else [Quoted(args[0])] + QuotedAll(args[1..])
  }

  function JoinWords(words: seq<string>): string {
    if words == [] then ""
    else if |words| == 1 then words[0]
    else words[0] + " " + JoinWords(words[1..])
  }

  /** The value of an ExecStart line. */
  function Encode(args: seq<string>): string {
    JoinWords(QuotedAll(args))
  }

  /** The same escape done one character at a time. */
  function EscapeChar(c: char): string {
    if c == '\\' then "\\\\" else if c == '"' then "\\\"" else if c == '%' then "%%" else [c]
  }

  function Escape(s: string): string {
    if s == "" then "" else EscapeChar(s[0]) + Escape(s[1..])
  }

  lemma {:induction false} ReplaceConcat(a: string, b: string, c: char, to: string)
    ensures Replace(a + b, c, to) == Replace(a, c, to) + Replace(b, c, to)
  {
    if a == "" {
      assert a + b == b;
    } else {
      assert (a + b)[1..] == a[1..] + b;
      ReplaceConcat(a[1..], b, c, to);
    }
  }

  lemma {:induction false} ReplaceOne(c: char, d: char, to: string)
    ensures Replace([c], d, to) == if c == d then to else [c]
  {
    assert [c][1..] == "";
  }

  lemma EscapeOneChar(c: char)
    ensures Replace(Replace(Replace([c], '\\', "\\\\"), '"', "\\\""), '%', "%%") == EscapeChar(c)
  {
    ReplaceOne(c, '\\', "\\\\");
    if c == '\\' {
      assert "\\\\" == ['\\'] + ['\\'];
      ReplaceConcat(['\\'], ['\\'], '"', "\\\"");
      ReplaceOne('\\', '"', "\\\"");
      ReplaceConcat(['\\'], ['\\'], '%', "%%");
      ReplaceOne('\\', '%', "%%");
    } else {
      ReplaceOne(c, '"', "\\\"");
      if c == '"' {
        assert "\\\"" == ['\\'] + ['"'];
        ReplaceConcat(['\\'], ['"'], '%', "%%");
        ReplaceOne('\\', '%', "%%");
        ReplaceOne('"', '%', "%%");
      } else {
        ReplaceOne(c, '%', "%%");
      }
    }
  }

  /** The order of the replacements does no harm: they amount to one pass. */
  lemma {:induction false} ReplacementsAreOneEscape(text: string)
    ensures Replace(Replace(Replace(text, '\\', "\\\\"), '"', "\\\""), '%', "%%") == Escape(text)
  {
    if text != "" {
      var c, rest := [text[0]], text[1..];
      assert text == c + rest;
      ReplaceConcat(c, rest, '\\', "\\\\");
      var c1, r1 := Replace(c, '\\', "\\\\"), Replace(rest, '\\', "\\\\");
      ReplaceConcat(c1, r1, '"', "\\\"");
      var c2, r2 := Replace(c1, '"', "\\\""), Replace(r1, '"', "\\\"");
      ReplaceConcat(c2, r2, '%', "%%");
      EscapeOneChar(text[0]);
      ReplacementsAreOneEscape(rest);
    }
  }

  // ---------------------------------------------------------------- the reader

  predicate IsBlank(c: char) {
    c == ' ' || c == '\t'
  }

  /** Single-letter escapes; numeric ones are not read. */
  function Unescape(c: char): Option<char> {
    match c
    case '\\' => Some('\\')
    case '"' => Some('"')
    case '\'' => Some('\'')
    case 'a' => Some('\U{7}')
    case 'b' => Some('\U{8}')
    case 'f' => Some('\U{C}')
    case 'n' => Some('\n')
    case 'r' => Some('\r')
    case 's' => Some(' ')
    case 't' => Some('\t')
    case 'v' => Some('\U{B}')
    case _ => None
  }

  datatype Piece = Piece(word: string, rest: string)

  /** Reads up to the closing quote. */
  function ReadQuoted(s: string, word: string): Option<Piece>
    decreases |s|
  {
    if s == "" then None
    else if s[0] == '"' then Some(Piece(word, s[1..]))
    else if s[0] == '\\' then
      if |s| == 1 || Unescape(s[1]).None? then None else ReadQuoted(s[2..], word + [Unescape(s[1]).value])
    else ReadQuoted(s[1..], word + [s[0]])
  }

  /** Reads up to the next blank. */
  function ReadBare(s: string, word: string): Option<Piece>
    decreases |s|
  {
    if s == "" || IsBlank(s[0]) then Some(Piece(word, s))
    else if s[0] == '\\' then
      if |s| == 1 || Unescape(s[1]).None? then None else ReadBare(s[2..], word + [Unescape(s[1]).value])
    else ReadBare(s[1..], word + [s[0]])
  }

  lemma {:induction false} QuotedShrinks(s: string, word: string)
    ensures ReadQuoted(s, word).Some? ==> |ReadQuoted(s, word).value.rest| < |s|
    decreases |s|
  {
    if s != "" && s[0] != '"' {
      if s[0] == '\\' {
        if |s| > 1 && Unescape(s[1]).Some? {
          QuotedShrinks(s[2..], word + [Unescape(s[1]).value]);
        }
      } else {
        QuotedShrinks(s[1..], word + [s[0]]);
      }
    }
  }

  lemma {:induction false} BareShrinks(s: string, word: string)
    ensures ReadBare(s, word).Some? ==> |ReadBare(s, word).value.rest| <= |s|
    ensures ReadBare(s, word).Some? && s != "" && !IsBlank(s[0]) ==> |ReadBare(s, word).value.rest| < |s|
    decreases |s|
  {
    if s != "" && !IsBlank(s[0]) {
      if s[0] == '\\' {
        if |s| > 1 && Unescape(s[1]).Some? {
          BareShrinks(s[2..], word + [Unescape(s[1]).value]);
        }
      } else {
        BareShrinks(s[1..], word + [s[0]]);
      }
    }
  }

  /** Splits a line into words, with quotes and escapes resolved; a quoted word must end at a blank. */
  function ReadWords(s: string): Option<seq<string>>
    decreases |s|
  {
    if s == "" then Some([])
    else if IsBlank(s[0]) then ReadWords(s[1..])
    else
      QuotedShrinks(s[1..], "");
      BareShrinks(s, "");
      var piece := if s[0] == '"' then ReadQuoted(s[1..], "") else ReadBare(s, "");
      if piece.None? || (piece.value.rest != "" && !IsBlank(piece.value.rest[0])) then None
      else
        var more := ReadWords(piece.value.rest);
        if more.None? then None else Some([piece.value.word] + more.value)
  }

  /** Resolves specifiers: only the doubled percent sign is known here. */
  function Specifiers(s: string): Option<string>
    decreases |s|
  {
    if s == "" then Some("")
    else if s[0] != '%' then
      var more := Specifiers(s[1..]);
      if more.None? then None else Some([s[0]] + more.value)
    else if |s| >= 2 && s[1] == '%' then
      var more := Specifiers(s[2..]);
      if more.None? then None else Some("%" + more.value)
    else None
  }

  function SpecifiersAll(words: seq<string>): Option<seq<string>> {
    if words == [] then Some([])
    else
      var w, more := Specifiers(words[0]), SpecifiersAll(words[1..]);
      if w.None? || more.None? then None else Some([w.value] + more.value)
  }

  /** A unit file is read line by line; no printed line goes on in the next (`NeverContinues`). */
  function FirstLine(s: string): string {
    if s == "" || s[0] == '\n' then "" else [s[0]] + FirstLine(s[1..])
  }

  function Decode(text: string): Option<seq<string>> {
    var words := ReadWords(FirstLine(text));
    if words.None? then None else SpecifiersAll(words.value)
  }

  // ---------------------------------------------------------------- the round trip

  function Percent(s: string): string {
    Replace(s, '%', "%%")
  }

  lemma {:induction false} SpecifiersUndoPercent(s: string)
    ensures Specifiers(Percent(s)) == Some(s)
  {
    if s != "" {
      SpecifiersUndoPercent(s[1..]);
      if s[0] == '%' {
        assert Percent(s)[2..] == Percent(s[1..]);
        assert s == "%" + s[1..];
      } else {
        assert Percent(s)[1..] == Percent(s[1..]);
        assert s == [s[0]] + s[1..];
      }
    }
  }

  /** Reading inside quotes undoes the escape of one character but for the doubled percent sign. */
  lemma ReadEscapedChar(c: char, rest: string, word: string)
    ensures ReadQuoted(EscapeChar(c) + rest, word) == ReadQuoted(rest, word + Percent([c]))
  {
    var s := EscapeChar(c) + rest;
    ReplaceOne(c, '%', "%%");
    if c == '\\' || c == '"' {
      assert s[2..] == rest;
    } else if c == '%' {
      assert s[1..] == "%" + rest;
      assert s[1..][1..] == rest;
      assert (word + ['%']) + ['%'] == word + "%%";
    } else {
      assert s[1..] == rest;
    }
  }

  lemma {:induction false} ReadEscaped(text: string, rest: string, word: string)
    ensures ReadQuoted(Escape(text) + rest, word) == ReadQuoted(rest, word + Percent(text))
    decreases |text|
  {
    if text == "" {
      assert Escape(text) + rest == rest && word + Percent(text) == word;
    } else {
      var c, more := text[0], text[1..];
      assert Escape(text) + rest == EscapeChar(c) + (Escape(more) + rest);
      ReadEscapedChar(c, Escape(more) + rest, word);
      ReadEscaped(more, rest, word + Percent([c]));
      assert text == [c] + more;
      ReplaceConcat([c], more, '%', "%%");
      assert (word + Percent([c])) + Percent(more) == word + Percent(text);
    }
  }

  /** A printed word at the front of a line is read back as one word. */
  lemma ReadQuotedWord(text: string, rest: string)
    requires rest == "" || IsBlank(rest[0])
    ensures var more := ReadWords(rest);
            ReadWords(Quoted(text) + rest) == if more.None? then None else Some([Percent(text)] + more.value)
  {
    hide Replace, Escape, Percent;
    ReplacementsAreOneEscape(text);
    var s := Quoted(text) + rest;
    assert s[1..] == Escape(text) + ("\"" + rest);
    ReadEscaped(text, "\"" + rest, "");
    assert ("\"" + rest)[1..] == rest;
    assert "" + Percent(text) == Percent(text);
  }

  function PercentAll(args: seq<string>): seq<string> {
    if args == [] then [] else [Percent(args[0])] + PercentAll(args[1..])
  }

  lemma {:induction false} ReadEncoded(args: seq<string>)
    ensures ReadWords(Encode(args)) == Some(PercentAll(args))
  {
    if |args| == 1 {
      assert QuotedAll(args[1..]) == [] && PercentAll(args[1..]) == [];
      assert Encode(args) == Quoted(args[0]) + "";
      ReadQuotedWord(args[0], "");
    } else if |args| > 1 {
      ReadEncoded(args[1..]);
      var rest := " " + Encode(args[1..]);
      assert QuotedAll(args)[1..] == QuotedAll(args[1..]);
      assert Encode(args) == Quoted(args[0]) + rest;
      assert rest[1..] == Encode(args[1..]);
      ReadQuotedWord(args[0], rest);
    }
  }

  lemma {:induction false} SpecifiersUndoAll(args: seq<string>)
    ensures SpecifiersAll(PercentAll(args)) == Some(args)
  {
    if args != [] {
      SpecifiersUndoPercent(args[0]);
      SpecifiersUndoAll(args[1..]);
      assert PercentAll(args)[1..] == PercentAll(args[1..]);
      assert args == [args[0]] + args[1..];
    }
  }

  // ---------------------------------------------------------------- line feeds

  /** A line with an unescaped backslash at its end goes on in the next one. */
  predicate Continues(line: string, escaped: bool) {
    if line == "" then escaped else Continues(line[1..], line[0] == '\\' && !escaped)
  }

  lemma {:induction false} EscapeEndsLines(text: string, rest: string)
    ensures Continues(FirstLine(Escape(text) + rest), false) <==> '\n' !in text && Continues(FirstLine(rest), false)
    decreases |text|
  {
    if text == "" {
      assert Escape(text) + rest == rest;
    } else {
      var c, more := text[0], text[1..];
      var tail := Escape(more) + rest;
      assert Escape(text) + rest == EscapeChar(c) + tail && text == [c] + more;
      EscapeEndsLines(more, rest);
      if c == '\n' {
        assert (EscapeChar(c) + tail)[0] == '\n';
      } else {
        FirstLineConcat(EscapeChar(c), tail);
        EscapedCharEnds(c, FirstLine(tail));
      }
    }
  }

  lemma EscapedCharEnds(c: char, tail: string)
    ensures Continues(EscapeChar(c) + tail, false) == Continues(tail, false)
  {
    var s := EscapeChar(c) + tail;
    if |EscapeChar(c)| == 2 {
      assert s[1..][1..] == tail;
    } else {
      assert s[1..] == tail;
    }
  }

  /** No printed line goes on in the next: the escape never leaves a backslash open before a line feed. */
  lemma {:induction false} NeverContinues(args: seq<string>)
    ensures !Continues(FirstLine(Encode(args)), false)
  {
    hide Replace, Escape, FirstLine, Continues;
    if args == [] {
      EmptyEnds();
    } else {
      var first, more := args[0], args[1..];
      var rest := if |args| > 1 then " " + Encode(more) else "";
      EmptyEnds();
      assert QuotedAll(args)[1..] == QuotedAll(more);
      NeverContinues(more);
      ReplacementsAreOneEscape(first);
      var tail := "\"" + rest;
      assert Encode(args) == "\"" + (Escape(first) + tail);
      FirstLineConcat("\"", Escape(first) + tail);
      PlainCharEnds('"', FirstLine(Escape(first) + tail));
      EscapeEndsLines(first, tail);
      FirstLineConcat("\"", rest);
      PlainCharEnds('"', FirstLine(rest));
      if |args| > 1 {
        FirstLineConcat(" ", Encode(more));
        PlainCharEnds(' ', FirstLine(Encode(more)));
      }
    }
  }

  lemma EmptyEnds()
    ensures !Continues(FirstLine(""), false)
  {
  }

  lemma PlainCharEnds(c: char, s: string)
    requires c != '\\'
    ensures Continues([c] + s, false) == Continues(s, false)
  {
    assert ([c] + s)[1..] == s;
  }

  predicate OneLine(args: seq<string>) {
    forall i :: 0 <= i < |args| ==> '\n' !in args[i]
  }

  lemma {:induction false} FirstLineWhole(s: string)
    requires '\n' !in s
    ensures FirstLine(s) == s
  {
    if s != "" {
      assert s[0] in s;
      FirstLineWhole(s[1..]);
    }
  }

  lemma {:induction false} FirstLineConcat(a: string, b: string)
    requires '\n' !in a
    ensures FirstLine(a + b) == a + FirstLine(b)
  {
    if a == "" {
      assert a + b == b;
    } else {
      assert a[0] in a;
      assert (a + b)[1..] == a[1..] + b;
      FirstLineConcat(a[1..], b);
    }
  }

  lemma {:induction false} EscapeKeepsLines(s: string)
    ensures '\n' in Escape(s) <==> '\n' in s
  {
    if s != "" {
      EscapeKeepsLines(s[1..]);
      assert s == [s[0]] + s[1..];
    }
  }

  /** A word cut at a line feed never finds its closing quote. */
  lemma {:induction false} CutWordUnread(text: string, rest: string, word: string)
    requires '\n' in text
    ensures ReadQuoted(FirstLine(Escape(text) + rest), word).None?
    decreases |text|
  {
    var c, more := text[0], text[1..];
    var tail := Escape(more) + rest;
    assert Escape(text) + rest == EscapeChar(c) + tail;
    if c == '\n' {
      assert (EscapeChar(c) + tail)[0] == '\n';
    } else {
      assert text == [c] + more;
      FirstLineConcat(EscapeChar(c), tail);
      ReadEscapedChar(c, FirstLine(tail), word);
      CutWordUnread(more, rest, word + Percent([c]));
    }
  }

  lemma QuotedLines(text: string)
    ensures '\n' in Quoted(text) <==> '\n' in text
  {
    ReplacementsAreOneEscape(text);
    EscapeKeepsLines(text);
  }

  lemma {:induction false} EncodeLines(args: seq<string>)
    requires OneLine(args)
    ensures '\n' !in Encode(args)
  {
    if args != [] {
      QuotedLines(args[0]);
      EncodeLines(args[1..]);
      if |args| > 1 {
        assert QuotedAll(args)[1..] == QuotedAll(args[1..]);
      } else {
        assert QuotedAll(args[1..]) == [];
      }
    }
  }

  lemma BrokenWordUnread(first: string, rest: string)
    requires '\n' in first
    ensures ReadWords(FirstLine(Quoted(first) + rest)).None?
  {
    hide Escape, Replace;
    ReplacementsAreOneEscape(first);
    var tail := Escape(first) + ("\"" + rest);
    assert Quoted(first) + rest == "\"" + tail;
    FirstLineConcat("\"", tail);
    var s := FirstLine(Quoted(first) + rest);
    assert s[0] == '"' && s[1..] == FirstLine(tail);
    CutWordUnread(first, "\"" + rest, "");
  }

  lemma {:induction false} BrokenUnread(args: seq<string>)
    requires !OneLine(args)
    ensures ReadWords(FirstLine(Encode(args))).None?
  {
    hide Quoted, ReadWords;
    var first, more := args[0], args[1..];
    var rest := if |args| > 1 then " " + Encode(more) else "";
    assert QuotedAll(args)[1..] == QuotedAll(more);
    assert Encode(args) == Quoted(first) + rest;
    QuotedLines(first);
    if '\n' in first {
      BrokenWordUnread(first, rest);
    } else {
      assert !OneLine(more) by {
        var i :| 0 <= i < |args| && '\n' in args[i];
        assert more[i - 1] == args[i];
      }
      BrokenUnread(more);
      FirstLineConcat(Quoted(first), rest);
      FirstLineConcat(" ", Encode(more));
      SkipBlank(FirstLine(Encode(more)));
      ReadQuotedWord(first, FirstLine(rest));
    }
  }

  lemma SkipBlank(s: string)
    ensures ReadWords(" " + s) == ReadWords(s)
  {
    assert (" " + s)[1..] == s;
  }

  /** Reading a printed argument list gives it back exactly when no argument holds a line feed. */
  lemma RoundTripIff(args: seq<string>)
    ensures Decode(Encode(args)) == Some(args) <==> OneLine(args)
    ensures !OneLine(args) ==> Decode(Encode(args)).None?
  {
    if OneLine(args) {
      EncodeLines(args);
      FirstLineWhole(Encode(args));
      ReadEncoded(args);
      SpecifiersUndoAll(args);
    } else {
      BrokenUnread(args);
    }
  }

  /** Different argument lists are printed differently. */
  lemma EncodeInjective(a: seq<string>, b: seq<string>)
    requires OneLine(a) && OneLine(b) && Encode(a) == Encode(b)
    ensures a == b
  {
    RoundTripIff(a);
    RoundTripIff(b);
  }

  /** One character as a word: quotes and backslashes get a backslash, percent signs double, the rest stays. */
  lemma PrintedChar(c: char)
    ensures Encode([[c]])
         == if c == '"' || c == '\\' then ['"', '\\', c, '"'] else if c == '%' then ['"', c, c, '"'] else ['"', c, '"']
  {
    EscapeOneChar(c);
    var args: seq<string> := [[c]];
    assert args[1..] == [] && QuotedAll(args) == [Quoted([c])];
    assert Encode(args) == "\"" + EscapeChar(c) + "\"";
  }
}
