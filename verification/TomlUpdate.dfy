/** The table block that the configuration code writes, and the rewrite of a file with it. */
module TomlUpdate {
  import opened Basics
  import opened TomlLines
  import opened TomlTable
  import opened TomlHeader

  // ---------------------------------------------------------------- the block

  /** A setting: a truth value, or a text in double quotes. */
  datatype Setting = Flag(key: string, on: bool) | Text(key: string, value: string)

  /** Quotes, backslashes and line ends are escaped, as `%q` does. */
  function Escape(c: char): string { if c == '\n' then "\\n" else if c == '"' || c == '\\' then ['\\', c] else [c] }

  function Quoted(v: string): string { if v == "" then "" else Escape(v[0]) + Quoted(v[1..]) }

  function Render(s: Setting): string {
    s.key + " = " + (match s case Flag(_, on) => (if on then "true" else "false") case Text(_, v) => "\"" + Quoted(v) + "\"") + "\n"
  }

  function Rows(settings: seq<Setting>): seq<string> { seq(|settings|, i requires 0 <= i < |settings| => Render(settings[i])) }

  /** `[name]` and one line per setting. */
  function TableBlock(name: string, settings: seq<Setting>): seq<string> { [PlainHeader(name)] + Rows(settings) }

  predicate Keys(settings: seq<Setting>) { forall i | 0 <= i < |settings| :: Bare(settings[i].key) }

  // ---------------------------------------------------------------- the block is read back

  /** A double-quoted text up to its end and the end of the line, as TOML v1.0.0 (section "String") reads it. */
  function ReadText(s: string): Option<string> {
    if s == "" then None
    else if s[0] == '"' then if s == "\"\n" then Some("") else None
    else if s[0] == '\\' then
      if |s| < 2 || s[1] !in "n\"\\" then None
      else
        var rest := ReadText(s[2..]);
        if rest.None? then None else Some([if s[1] == 'n' then '\n' else s[1]] + rest.value)
    else
      var rest := ReadText(s[1..]);
      if rest.None? then None else Some([s[0]] + rest.value)
  }

  function ReadValue(key: string, value: string): Option<Setting> {
    if value == "true\n" then Some(Flag(key, true))
    else if value == "false\n" then Some(Flag(key, false))
    else if value == "" || value[0] != '"' then None
    else
      var text := ReadText(value[1..]);
      if text.None? then None else Some(Text(key, text.value))
  }

  /** One line of a table: a bare key, and a truth value or a text. */
  function ReadRow(line: string): Option<Setting> {
    var n := BareEnd(line, 0);
    if n == 0 || n + 3 > |line| || line[n..n + 3] != " = " then None else ReadValue(line[..n], line[n + 3..])
  }

  lemma {:induction false} TextReadsBack(v: string)
    ensures ReadText(Quoted(v) + "\"\n") == Some(v)
  {
    if v != "" {
      TextReadsBack(v[1..]);
      var rest := Quoted(v[1..]) + "\"\n";
      assert Quoted(v) + "\"\n" == Escape(v[0]) + rest;
      EscapeReadsBack(v[0], rest);
      assert v == [v[0]] + v[1..];
    } else {
      assert Quoted(v) + "\"\n" == "\"\n";
    }
  }

  lemma EscapeReadsBack(c: char, rest: string)
    requires ReadText(rest).Some?
    ensures ReadText(Escape(c) + rest) == Some([c] + ReadText(rest).value)
  {
    var e := Escape(c);
    assert (e + rest)[|e|..] == rest;
  }

  lemma KeyReadsBack(key: string, value: string)
    requires Bare(key)
    ensures ReadRow(key + (" = " + value)) == ReadValue(key, value)
  {
    var line, n := key + (" = " + value), |key|;
    BareStops(key, " = " + value, 0);
    assert line[..n] == key && line[n..] == " = " + value;
    assert line[n..n + 3] == line[n..][..3] == " = " && line[n + 3..] == line[n..][3..] == value;
  }

  /** A written row is read back as the setting it was written for. */
  lemma RowReadsBack(s: Setting)
    requires Bare(s.key)
    ensures ReadRow(Render(s)) == Some(s)
  {
    var value := match s case Flag(_, on) => (if on then "true\n" else "false\n") case Text(_, v) => "\"" + (Quoted(v) + "\"\n");
    RenderIs(s, value);
    KeyReadsBack(s.key, value);
    if s.Text? { TextReadsBack(s.value); }
  }

  lemma RenderIs(s: Setting, value: string)
    requires value == match s case Flag(_, on) => (if on then "true\n" else "false\n") case Text(_, v) => "\"" + (Quoted(v) + "\"\n")
    ensures Render(s) == s.key + (" = " + value)
  {
    assert "true" + "\n" == "true\n" && "false" + "\n" == "false\n";
    if s.Text? { assert "\"" + Quoted(s.value) + "\"" + "\n" == "\"" + (Quoted(s.value) + "\"\n"); }
  }

  /** The block heads the table and holds every setting, in order and nothing else. */
  lemma BlockReadsBack(name: string, settings: seq<Setting>, unquote: string -> Option<string>)
    requires Bare(name) && Keys(settings)
    ensures var block := TableBlock(name, settings);
            && |block| == |settings| + 1 && Header(block[0], [name], unquote)
            && forall i | 0 <= i < |settings| :: ReadRow(block[i + 1]) == Some(settings[i])
  {
    PlainHeaderIsHeader(name, unquote);
    forall i | 0 <= i < |settings| ensures ReadRow(TableBlock(name, settings)[i + 1]) == Some(settings[i]) { RowOfBlock(name, settings, i); }
  }

  lemma RowOfBlock(name: string, settings: seq<Setting>, i: nat)
    requires Keys(settings) && i < |settings|
    ensures ReadRow(TableBlock(name, settings)[i + 1]) == Some(settings[i])
  {
    RowReadsBack(settings[i]);
    RowAfterHeader(name, settings, i);
  }

  lemma RowAfterHeader(name: string, settings: seq<Setting>, i: nat)
    requires i < |settings|
    ensures TableBlock(name, settings)[i + 1] == Render(settings[i])
  {
    assert TableBlock(name, settings)[i + 1] == Rows(settings)[i];
  }

  // ---------------------------------------------------------------- how the scanner reads a setting

  function LexAll(x: Lexer, s: string): Lexer
    decreases |s|
  {
    if s == "" then x else LexAll(Lex(x, s[0]), s[1..])
  }

  lemma {:induction false} LexFromIsAll(line: string, i: nat, x: Lexer)
    requires i <= |line|
    ensures LexFrom(line, i, x) == LexAll(x, line[i..])
    decreases |line| - i
  {
    if i < |line| {
      LexFromIsAll(line, i + 1, Lex(x, line[i]));
      assert line[i..][1..] == line[i + 1..];
    }
  }

  lemma {:induction false} LexJoin(x: Lexer, a: string, b: string)
    ensures LexAll(x, a + b) == LexAll(LexAll(x, a), b)
    decreases |a|
  {
    if a == "" {
      assert a + b == b;
    } else {
      assert (a + b)[1..] == a[1..] + b;
      LexJoin(Lex(x, a[0]), a[1..], b);
    }
  }

  /** Text without quotes and comments stays outside strings. */
  lemma {:induction false} LexPlain(s: string)
    requires forall i | 0 <= i < |s| :: s[i] != '#' && !IsQuote(s[i])
    ensures LexAll(Outside, s) == Outside
  {
    if s != "" { LexPlain(s[1..]); }
  }

  /** Escaped text stays within its one-line string. */
  lemma {:induction false} LexEscaped(v: string)
    ensures LexAll(Line('"', false), Quoted(v)) == Line('"', false)
  {
    if v != "" {
      LexJoin(Line('"', false), Escape(v[0]), Quoted(v[1..]));
      EscapeLexed(v[0]);
      LexEscaped(v[1..]);
    }
  }

  lemma EscapeLexed(c: char)
    ensures LexAll(Line('"', false), Escape(c)) == Line('"', false)
  {
    var e := Escape(c);
    var next := Lex(Line('"', false), e[0]);
    assert LexAll(Line('"', false), e) == LexAll(next, e[1..]);
    if |e| == 2 {
      assert e[1..] == [e[1]] && [e[1]][1..] == "";
      assert LexAll(next, [e[1]]) == Lex(next, e[1]);
    } else {
      assert e[1..] == "";
    }
  }

  /** A quoted text, however empty, ends where it began: outside strings. */
  lemma LexQuoted(v: string)
    ensures LexAll(Outside, "\"" + Quoted(v) + "\"" + "\n") == Outside
  {
    var q, body, rest := "\"", Quoted(v), "\"" + "\n";
    assert q + body + "\"" + "\n" == q + (body + rest);
    LexJoin(Outside, q, body + rest);
    assert q[1..] == "";
    assert LexAll(Outside, q) == Opening('"', 1);
    if v == "" {
      assert body + rest == rest && rest[1..] == "\n" && "\n"[1..] == "";
    } else {
      OpeningIsLine(body + rest);
      LexJoin(Line('"', false), body, rest);
      LexEscaped(v);
      assert rest[1..] == "\n" && "\n"[1..] == "";
    }
  }

  /** A quote not followed by another opens a one-line string. */
  lemma OpeningIsLine(s: string)
    requires s != "" && s[0] != '"'
    ensures LexAll(Opening('"', 1), s) == LexAll(Line('"', false), s)
  {
  }

  lemma {:induction false} EscapedOneLine(v: string)
    ensures '\n' !in Quoted(v)
  {
    if v != "" { EscapedOneLine(v[1..]); }
  }

  /** A setting leaves the scanner outside strings. */
  lemma SettingIsPlain(s: Setting)
    requires Bare(s.key)
    ensures Advance(Render(s), Plain) == Plain
  {
    var line := Render(s);
    AdvanceIsLexer(line, Plain);
    LexFromIsAll(line, 0, Outside);
    assert line[0..] == line;
    var head := s.key + " = ";
    LexPlain(head);
    if s.Text? {
      assert line == head + ("\"" + Quoted(s.value) + "\"" + "\n");
      LexJoin(Outside, head, "\"" + Quoted(s.value) + "\"" + "\n");
      LexQuoted(s.value);
    } else {
      LexPlain(line);
    }
  }

  /** A setting is one whole line that opens no table. */
  lemma SettingIsRow(s: Setting)
    requires Bare(s.key)
    ensures Whole(Render(s)) && !Bracket(Render(s))
  {
    var line := Render(s);
    if s.Text? { EscapedOneLine(s.value); }
    assert line[0] == s.key[0] && BareByte(s.key[0]);
    BeginsKept(line);
  }

  lemma {:induction false} BeginsKept(s: string)
    requires s != "" && !IsSpace(s[0])
    ensures TrimRight(s) != "" && TrimRight(s)[0] == s[0]
    decreases |s|
  {
    if IsSpace(s[|s| - 1]) { BeginsKept(s[..|s| - 1]); }
  }

  lemma HeaderIsPlain(name: string)
    requires Bare(name)
    ensures Advance(PlainHeader(name), Plain) == Plain
  {
    var line := PlainHeader(name);
    AdvanceIsLexer(line, Plain);
    LexFromIsAll(line, 0, Outside);
    assert line[0..] == line;
    LexPlain(line);
  }

  lemma {:induction false} BlockModes(name: string, settings: seq<Setting>, i: nat)
    requires Bare(name) && Keys(settings) && i <= |TableBlock(name, settings)|
    ensures ModeAt(TableBlock(name, settings), i) == Plain
  {
    if i > 0 {
      BlockModes(name, settings, i - 1);
      if i == 1 { HeaderIsPlain(name); } else { SettingIsPlain(settings[i - 2]); }
    }
  }

  /** MAIN: the block that is written is well formed: its first line is recognized as the header, no other line opens a table,
      and it leaves no string open. */
  lemma BlockIsWellFormed(name: string, settings: seq<Setting>, unquote: string -> Option<string>)
    requires Bare(name) && Keys(settings)
    ensures Block(TableReader([name], unquote), TableBlock(name, settings))
  {
    var block := TableBlock(name, settings);
    PlainHeaderIsHeader(name, unquote);
    BlockModes(name, settings, |block|);
    forall i | 0 <= i < |block| ensures Whole(block[i]) && (i > 0 ==> !Bracket(block[i])) { RowAt(name, settings, unquote, i); }
  }

  lemma RowAt(name: string, settings: seq<Setting>, unquote: string -> Option<string>, i: nat)
    requires Bare(name) && Keys(settings) && i <= |settings|
    ensures Whole(TableBlock(name, settings)[i]) && (i > 0 ==> !Bracket(TableBlock(name, settings)[i]))
  {
    if i == 0 {
      PlainHeaderIsHeader(name, unquote);
    } else {
      SettingIsRow(settings[i - 1]);
      assert TableBlock(name, settings)[i] == Render(settings[i - 1]);
    }
  }

  // ---------------------------------------------------------------- the rewrite

  /** MAIN: writing the block into a file that declares the table, wherever it is and however its header is spelled, gives a
      text that declares it, and writing it again gives the same text. */
  lemma UpdateIsIdempotent(
    name: string, settings: seq<Setting>, unquote: string -> Option<string>, contents: string, start: nat, end: nat, start': nat, end': nat)
    requires Bare(name) && Keys(settings)
    requires TableAt(TableReader([name], unquote), Split(contents), start, end)
    requires TableAt(TableReader([name], unquote), Split(Rewritten(Split(contents), start, end, Join(TableBlock(name, settings)))), start', end')
    ensures var text := Rewritten(Split(contents), start, end, Join(TableBlock(name, settings)));
            Declares(TableReader([name], unquote), Split(text)) && Rewritten(Split(text), start', end', Join(TableBlock(name, settings))) == text
  {
    ReaderIsSound([name], unquote);
    BlockIsWellFormed(name, settings, unquote);
    RewriteIsIdempotent(TableReader([name], unquote), contents, start, end, TableBlock(name, settings), start', end');
  }

  /** `replaceTopLevelTable` for a table name, with the recognizer and block of the configuration code. */
  method WriteTable(name: string, settings: seq<Setting>, unquote: string -> Option<string>, contents: string)
    returns (text: string, replaced: bool, ghost start: nat, ghost end: nat)
    requires Bare(name) && Keys(settings)
    ensures replaced <==> exists i :: 0 <= i < |Split(contents)| && Structural(Split(contents), i) && Header(Split(contents)[i], [name], unquote)
    ensures replaced ==> Declares(TableReader([name], unquote), Split(text))
    ensures !replaced ==> text == contents
    ensures replaced ==> TableRange(Split(contents), [name], unquote, start, end)
                         && text == Join(Split(contents)[..start]) + Join(TableBlock(name, settings)) + Join(Split(contents)[end..])
  {
    ReaderIsSound([name], unquote);
    ghost var r, lines := TableReader([name], unquote), Split(contents);
    assert forall i: nat | i < |lines| :: HeaderAt(r, lines, i) <==> Structural(lines, i) && Header(lines[i], [name], unquote);
    text, replaced, start, end := ReplaceTopLevelTable(TableReader([name], unquote), contents, Join(TableBlock(name, settings)));
    if replaced {
      BlockIsWellFormed(name, settings, unquote);
      StillDeclared(TableReader([name], unquote), contents, start, end, TableBlock(name, settings));
      RangeIsTable([name], unquote, lines, start, end);
    }
  }

  /** The lines replaced: a header of the table and what follows it up to the next line that opens anything else; no line that
      heads another path or an array of tables is among them. */
  ghost predicate TableRange(lines: seq<string>, name: seq<string>, unquote: string -> Option<string>, start: nat, end: nat) {
    && start < end <= |lines| && Structural(lines, start) && Header(lines[start], name, unquote)
    && (forall i | start < i < end && Structural(lines, i) :: !OpensBracket(lines[i]))
    && (end < |lines| ==> Structural(lines, end) && OpensBracket(lines[end]) && !Header(lines[end], name, unquote))
    && (forall i, other | 0 <= i < |lines| && Structural(lines, i) && other != name && Header(lines[i], other, unquote) :: i < start || i >= end)
  }

  lemma RangeIsTable(name: seq<string>, unquote: string -> Option<string>, lines: seq<string>, start: nat, end: nat)
    requires TableAt(TableReader(name, unquote), lines, start, end)
    ensures TableRange(lines, name, unquote, start, end)
  {
    var r := TableReader(name, unquote);
    assert HeaderAt(r, lines, start);
    forall i | start < i < end && Structural(lines, i) ensures !OpensBracket(lines[i]) {
      assert !BracketAt(r, lines, i);
      BracketExactly(lines[i]);
    }
    if end < |lines| {
      assert BracketAt(r, lines, end) && !HeaderAt(r, lines, end);
      BracketExactly(lines[end]);
    }
    forall i, other | 0 <= i < |lines| && Structural(lines, i) && other != name && Header(lines[i], other, unquote) ensures i < start || i >= end {
      if i == start { OnePath(lines[i], name, other, unquote); }
      ReaderIsSound(other, unquote);
      BracketExactly(lines[i]);
    }
  }

  lemma StillDeclared(r: Reader, contents: string, start: nat, end: nat, block: seq<string>)
    requires TableAt(r, Split(contents), start, end) && Block(r, block) && !r.bracket("")
    ensures Declares(r, Split(Rewritten(Split(contents), start, end, Join(block))))
  {
    SplitPieces(contents);
    RewriteLines(r, Split(contents), start, end, block);
    RewriteTable(r, Split(contents), start, end, block);
  }
}
