/** Replacing one top-level table of a TOML file: the rest is kept, the table is still declared, and doing it
    again changes nothing. */
module TomlTable {
  import opened TomlLines

  // ---------------------------------------------------------------- lines

  /** Splits after every newline; the last piece has none and may be empty. */
  function Split(s: string): seq<string> {
    var n := NewLine(s, 0);
    if n == |s| then [s] else [s[..n + 1]] + Split(s[n + 1..])
  }

  function NewLine(s: string, i: nat): (n: nat)
    requires i <= |s|
    ensures i <= n <= |s| && (n < |s| ==> s[n] == '\n') && forall k | i <= k < n :: s[k] != '\n'
    decreases |s| - i
  {
    if i == |s| || s[i] == '\n' then i else NewLine(s, i + 1)
  }

  function Join(lines: seq<string>): string { if lines == [] then "" else lines[0] + Join(lines[1..]) }

  /** One newline, at the end. */
  predicate Whole(line: string) { line != "" && line[|line| - 1] == '\n' && forall k | 0 <= k < |line| - 1 :: line[k] != '\n' }

  predicate Partial(line: string) { '\n' !in line }

  /** Pieces that a split can produce. */
  ghost predicate Pieces(lines: seq<string>) {
    lines != [] && Partial(lines[|lines| - 1]) && forall i | 0 <= i < |lines| - 1 :: Whole(lines[i])
  }

  lemma {:induction false} SplitPieces(s: string)
    ensures Pieces(Split(s))
    decreases |s|
  {
    var n := NewLine(s, 0);
    if n < |s| {
      SplitPieces(s[n + 1..]);
      PiecesAfter([s[..n + 1]], Split(s[n + 1..]));
    }
  }

  /** Nothing is lost in splitting. */
  lemma {:induction false} JoinSplit(s: string)
    ensures Join(Split(s)) == s
    decreases |s|
  {
    var n := NewLine(s, 0);
    if n < |s| {
      JoinSplit(s[n + 1..]);
      assert Split(s)[1..] == Split(s[n + 1..]);
      assert s[..n + 1] + s[n + 1..] == s;
    } else {
      assert [s][1..] == [] && s + "" == s;
    }
  }

  lemma {:induction false} SplitJoin(lines: seq<string>)
    requires Pieces(lines)
    ensures Split(Join(lines)) == lines
  {
    if |lines| == 1 {
      assert Join(lines) == lines[0] + "" == lines[0];
    } else {
      SplitJoin(lines[1..]);
      var line, rest := lines[0], Join(lines[1..]);
      assert Whole(line);
      var s := line + rest;
      assert s[|line| - 1] == '\n';
      assert NewLine(s, 0) == |line| - 1;
      assert s[..|line|] == line && s[|line|..] == rest;
      assert [line] + lines[1..] == lines;
    }
  }

  lemma {:induction false} JoinAppend(a: seq<string>, b: seq<string>)
    ensures Join(a + b) == Join(a) + Join(b)
  {
    if a == [] {
      assert a + b == b && "" + Join(b) == Join(b);
    } else {
      JoinAppend(a[1..], b);
      assert (a + b)[1..] == a[1..] + b;
      assert a[0] + (Join(a[1..]) + Join(b)) == a[0] + Join(a[1..]) + Join(b);
    }
  }

  // ---------------------------------------------------------------- structural lines of a text

  /** The automaton over a text of several lines: a line end closes one-line strings and comments. */
  function LexText(s: string, i: nat, x: Lexer): Lexer
    requires i <= |s|
    decreases |s| - i
  {
    if i == |s| then x
    else
      var y := Lex(x, s[i]);
      LexText(s, i + 1, if s[i] == '\n' then Begin(Ends(y)) else y)
  }

  /** MAIN: a line of a text is structural if and only if the automaton, run over everything before it, is outside multi-line
      strings. */
  lemma {:induction false} StructuralIsTextual(lines: seq<string>, i: nat)
    requires i < |lines| && forall k | 0 <= k < i :: Whole(lines[k])
    ensures Structural(lines, i) <==> Ends(LexText(Join(lines[..i]), 0, Outside)) == Plain
  {
    ModeIsTextual(lines, i);
  }

  lemma {:induction false} ModeIsTextual(lines: seq<string>, i: nat)
    requires i <= |lines| && forall k | 0 <= k < i :: Whole(lines[k])
    ensures LexText(Join(lines[..i]), 0, Outside) == Begin(ModeAt(lines, i)) && ModeOk(ModeAt(lines, i))
  {
    if i > 0 {
      ModeIsTextual(lines, i - 1);
      var before, line := Join(lines[..i - 1]), lines[i - 1];
      assert lines[..i] == lines[..i - 1] + [line];
      JoinAppend(lines[..i - 1], [line]);
      assert Join([line]) == line + "" == line;
      TextConcat(before, line, 0, Outside);
      LineOfText(line, 0, Begin(ModeAt(lines, i - 1)));
      AdvanceIsLexer(line, ModeAt(lines, i - 1));
      ModeStaysOk(line, 0, Begin(ModeAt(lines, i - 1)));
    } else {
      assert Join(lines[..0]) == "";
    }
  }

  lemma {:induction false} TextConcat(a: string, b: string, i: nat, x: Lexer)
    requires i <= |a|
    ensures LexText(a + b, i, x) == LexText(b, 0, LexText(a, i, x))
    decreases |a| - i
  {
    if i < |a| {
      var y := Lex(x, a[i]);
      TextConcat(a, b, i + 1, if a[i] == '\n' then Begin(Ends(y)) else y);
    } else {
      TextShift(a, b, 0, x);
    }
  }

  lemma {:induction false} TextShift(a: string, b: string, i: nat, x: Lexer)
    requires i <= |b|
    ensures LexText(a + b, |a| + i, x) == LexText(b, i, x)
    decreases |b| - i
  {
    if i < |b| {
      var y := Lex(x, b[i]);
      TextShift(a, b, i + 1, if b[i] == '\n' then Begin(Ends(y)) else y);
    }
  }

  lemma {:induction false} LineOfText(line: string, i: nat, x: Lexer)
    requires Whole(line) && i < |line|
    ensures LexText(line, i, x) == Begin(Ends(LexFrom(line, i, x)))
    decreases |line| - i
  {
    if i + 1 < |line| {
      LineOfText(line, i + 1, Lex(x, line[i]));
    } else {
      assert LexFrom(line, i, x) == Lex(x, line[i]);
    }
  }

  lemma {:induction false} ModeStaysOk(line: string, i: nat, x: Lexer)
    requires i <= |line| && (x.Within? || x.Opening? ==> IsQuote(x.quote))
    ensures ModeOk(Ends(LexFrom(line, i, x)))
    decreases |line| - i
  {
    if i < |line| { ModeStaysOk(line, i + 1, Lex(x, line[i])); }
  }

  // ---------------------------------------------------------------- the table's range

  /** How a line reads on its own: whether it opens the wanted table, and whether its first visible character is a bracket. */
  datatype Reader = Reader(header: string -> bool, bracket: string -> bool)

  ghost predicate Reads(r: Reader) { forall line :: r.header(line) ==> r.bracket(line) }

  ghost predicate HeaderAt(r: Reader, lines: seq<string>, i: nat) { i < |lines| && Structural(lines, i) && r.header(lines[i]) }

  ghost predicate BracketAt(r: Reader, lines: seq<string>, i: nat) { i < |lines| && Structural(lines, i) && r.bracket(lines[i]) }

  /** The rewritten range: from a header to the next line that opens anything else, or to the end. Earlier headers,
      if any, are followed only by headers. */
  ghost predicate TableAt(r: Reader, lines: seq<string>, start: nat, end: nat) {
    && start < end <= |lines| && HeaderAt(r, lines, start)
    && (forall i | start < i < end :: !BracketAt(r, lines, i))
    && (end < |lines| ==> BracketAt(r, lines, end) && !HeaderAt(r, lines, end))
    && (forall i, j | 0 <= i < j < start && HeaderAt(r, lines, i) && BracketAt(r, lines, j) :: HeaderAt(r, lines, j))
  }

  lemma TableUnique(r: Reader, lines: seq<string>, s: nat, e: nat, s': nat, e': nat)
    requires Reads(r) && TableAt(r, lines, s, e) && TableAt(r, lines, s', e')
    ensures s == s' && e == e'
  {
    Before(r, lines, s, e, s', e');
    Before(r, lines, s', e', s, e);
    assert BracketAt(r, lines, s) && BracketAt(r, lines, s');
  }

  lemma Before(r: Reader, lines: seq<string>, s: nat, e: nat, s': nat, e': nat)
    requires Reads(r) && TableAt(r, lines, s, e) && TableAt(r, lines, s', e')
    ensures s' <= s
  {
    assert BracketAt(r, lines, s');
  }

  // ---------------------------------------------------------------- scanning joined parts

  lemma {:induction false} ModePrefix(a: seq<string>, b: seq<string>, i: nat)
    requires i <= |a|
    ensures ModeAt(a + b, i) == ModeAt(a, i)
  {
    if i > 0 { ModePrefix(a, b, i - 1); }
  }

  /** After a part that ends outside strings, the next part is scanned as if it stood alone. */
  lemma {:induction false} ModeSuffix(a: seq<string>, b: seq<string>, i: nat)
    requires i <= |b| && ModeAt(a, |a|) == Plain
    ensures ModeAt(a + b, |a| + i) == ModeAt(b, i)
  {
    if i == 0 { ModePrefix(a, b, |a|); } else { ModeSuffix(a, b, i - 1); }
  }

  // ---------------------------------------------------------------- the rewrite

  /** A replacement block: whole lines, the first opens the table, no other opens anything, and no string is left open. */
  ghost predicate Block(r: Reader, block: seq<string>) {
    && block != [] && (forall i | 0 <= i < |block| :: Whole(block[i]))
    && r.header(block[0]) && ModeAt(block, |block|) == Plain
    && forall i | 0 < i < |block| && Structural(block, i) :: !r.bracket(block[i])
  }

  function Rewritten(lines: seq<string>, start: nat, end: nat, replacement: string): string
    requires start <= end <= |lines|
  {
    Join(lines[..start]) + replacement + Join(lines[end..])
  }

  /** What follows the table; a split always ends with a piece without newline. */
  function Tail(lines: seq<string>, end: nat): seq<string>
    requires end <= |lines|
  {
    if end < |lines| then lines[end..] else [""]
  }

  function NewLines(lines: seq<string>, start: nat, end: nat, block: seq<string>): seq<string>
    requires start <= end <= |lines|
  {
    lines[..start] + (block + Tail(lines, end))
  }

  /** The rewritten text, its lines put together again. */
  lemma RewriteJoin(lines: seq<string>, start: nat, end: nat, block: seq<string>)
    requires start <= end <= |lines|
    ensures Rewritten(lines, start, end, Join(block)) == Join(NewLines(lines, start, end, block))
  {
    var tail := Tail(lines, end);
    JoinAppend(lines[..start], block + tail);
    JoinAppend(block, tail);
    TailJoin(lines, end);
    Associative(Join(lines[..start]), Join(block), Join(tail));
  }

  lemma Associative(a: string, b: string, c: string)
    ensures a + (b + c) == a + b + c
  {
  }

  lemma TailJoin(lines: seq<string>, end: nat)
    requires end <= |lines|
    ensures Join(Tail(lines, end)) == Join(lines[end..])
  {
    if end == |lines| { assert lines[end..] == [] && Join([""]) == "" + Join([""][1..]); }
  }

  lemma RewritePieces(r: Reader, lines: seq<string>, start: nat, end: nat, block: seq<string>)
    requires Pieces(lines) && start < end <= |lines| && Block(r, block)
    ensures Pieces(NewLines(lines, start, end, block))
  {
    var tail := Tail(lines, end);
    assert Pieces(tail) by {
      if end < |lines| { forall i | 0 <= i < |tail| - 1 ensures Whole(tail[i]) { assert Whole(lines[end + i]); } }
    }
    PiecesAfter(block, tail);
    PiecesAfter(lines[..start], block + tail);
  }

  lemma PiecesAfter(a: seq<string>, b: seq<string>)
    requires Pieces(b) && forall i | 0 <= i < |a| :: Whole(a[i])
    ensures Pieces(a + b)
  {
    var out := a + b;
    assert out[|out| - 1] == b[|b| - 1];
    forall i | 0 <= i < |out| - 1 ensures Whole(out[i]) {
      if i >= |a| { assert Whole(b[i - |a|]); }
    }
  }

  /** The rewritten text splits into the lines before the table, the block's lines and the lines after the table. */
  lemma RewriteLines(r: Reader, lines: seq<string>, start: nat, end: nat, block: seq<string>)
    requires Pieces(lines) && start < end <= |lines| && Block(r, block)
    ensures Split(Rewritten(lines, start, end, Join(block))) == NewLines(lines, start, end, block)
  {
    RewriteJoin(lines, start, end, block);
    RewritePieces(r, lines, start, end, block);
    SplitJoin(NewLines(lines, start, end, block));
  }

  lemma ModeBefore(lines: seq<string>, start: nat, rest: seq<string>, i: nat)
    requires i <= start <= |lines|
    ensures ModeAt(lines[..start] + rest, i) == ModeAt(lines, i)
  {
    ModePrefix(lines[..start], lines[start..], i);
    assert lines == lines[..start] + lines[start..];
    ModePrefix(lines[..start], rest, i);
  }

  lemma ModeAfter(lines: seq<string>, end: nat, a: seq<string>, i: nat)
    requires end <= i <= |lines| && ModeAt(lines, end) == Plain && ModeAt(a, |a|) == Plain
    ensures ModeAt(a + lines[end..], |a| + (i - end)) == ModeAt(lines, i)
  {
    ModeSuffix(a, lines[end..], i - end);
    assert lines == lines[..end] + lines[end..];
    ModePrefix(lines[..end], lines[end..], end);
    ModeSuffix(lines[..end], lines[end..], i - end);
  }

  lemma ModeStart(lines: seq<string>, start: nat)
    requires start <= |lines|
    ensures ModeAt(lines[..start], start) == ModeAt(lines, start)
  {
    ModeBefore(lines, start, [], start);
    assert lines[..start] + [] == lines[..start];
  }

  lemma ModeWithin(lines: seq<string>, start: nat, end: nat, block: seq<string>, i: nat)
    requires start <= end <= |lines| && ModeAt(lines, start) == Plain && i <= |block|
    ensures ModeAt(NewLines(lines, start, end, block), start + i) == ModeAt(block, i)
  {
    ModeStart(lines, start);
    ModeSuffix(lines[..start], block + Tail(lines, end), i);
    ModePrefix(block, Tail(lines, end), i);
  }

  lemma ModeBeyond(lines: seq<string>, start: nat, end: nat, block: seq<string>, i: nat)
    requires start <= end <= i < |lines| && ModeAt(lines, start) == ModeAt(lines, end) == Plain && ModeAt(block, |block|) == Plain
    ensures ModeAt(NewLines(lines, start, end, block), start + |block| + (i - end)) == ModeAt(lines, i)
  {
    var a := lines[..start] + block;
    ModeStart(lines, start);
    ModeSuffix(lines[..start], block, |block|);
    ModeAfter(lines, end, a, i);
    Grouped(lines[..start], block, lines[end..]);
  }

  lemma Grouped(a: seq<string>, b: seq<string>, c: seq<string>)
    ensures a + (b + c) == a + b + c
  {
  }

  /** The lines of the rewritten text, one by one. */
  lemma LineAt(lines: seq<string>, start: nat, end: nat, block: seq<string>, i: nat)
    requires start <= end <= |lines| && i < |NewLines(lines, start, end, block)|
    ensures NewLines(lines, start, end, block)[i] ==
            if i < start then lines[i] else if i < start + |block| then block[i - start] else Tail(lines, end)[i - start - |block|]
  {
  }

  /** MAIN: the lines outside the table are kept byte for byte, in place and in order, and begin inside or outside a
      multi-line string exactly as before. */
  lemma OutsideIsKept(r: Reader, contents: string, start: nat, end: nat, block: seq<string>, i: nat)
    requires TableAt(r, Split(contents), start, end) && Block(r, block)
    ensures var lines := Split(contents);
            var out := Split(Rewritten(lines, start, end, Join(block)));
            && (i < start ==> i < |out| && out[i] == lines[i] && Structural(out, i) == Structural(lines, i))
            && (end <= i < |lines| ==> var j := start + |block| + (i - end);
                  j < |out| && out[j] == lines[i] && Structural(out, j) == Structural(lines, i))
            && |out| == start + |block| + if end < |lines| then |lines| - end else 1
  {
    var lines := Split(contents);
    SplitPieces(contents);
    RewriteLines(r, lines, start, end, block);
    KeptAt(lines, start, end, block, i);
  }

  lemma KeptAt(lines: seq<string>, start: nat, end: nat, block: seq<string>, i: nat)
    requires start < end <= |lines| && ModeAt(lines, start) == Plain && ModeAt(block, |block|) == Plain
    requires end < |lines| ==> ModeAt(lines, end) == Plain
    ensures var out := NewLines(lines, start, end, block);
            && (i < start ==> i < |out| && out[i] == lines[i] && Structural(out, i) == Structural(lines, i))
            && (end <= i < |lines| ==> var j := start + |block| + (i - end);
                  j < |out| && out[j] == lines[i] && Structural(out, j) == Structural(lines, i))
            && |out| == start + |block| + if end < |lines| then |lines| - end else 1
  {
    if i < start {
      ModeBefore(lines, start, block + Tail(lines, end), i);
      LineAt(lines, start, end, block, i);
    }
    if end <= i < |lines| {
      ModeBeyond(lines, start, end, block, i);
      LineAt(lines, start, end, block, start + |block| + (i - end));
    }
  }

  /** Where the block ends in the rewritten text. */
  function NewEnd(lines: seq<string>, start: nat, end: nat, block: seq<string>): nat
    requires start <= end <= |lines|
  {
    start + |block| + if end < |lines| then 0 else 1
  }

  lemma SameBefore(r: Reader, lines: seq<string>, start: nat, end: nat, block: seq<string>, i: nat)
    requires i < start < end <= |lines|
    ensures var out := NewLines(lines, start, end, block);
            (HeaderAt(r, out, i) <==> HeaderAt(r, lines, i)) && (BracketAt(r, out, i) <==> BracketAt(r, lines, i))
  {
    ModeBefore(lines, start, block + Tail(lines, end), i);
  }

  lemma NoneWithin(r: Reader, lines: seq<string>, start: nat, end: nat, block: seq<string>, i: nat)
    requires start < end <= |lines| && ModeAt(lines, start) == Plain && start < i < start + |block|
    requires !(Structural(block, i - start) && r.bracket(block[i - start]))
    ensures !BracketAt(r, NewLines(lines, start, end, block), i)
  {
    LineAt(lines, start, end, block, i);
    ModeWithin(lines, start, end, block, i - start);
  }

  lemma StopsAt(r: Reader, lines: seq<string>, start: nat, end: nat, block: seq<string>)
    requires start < end < |lines| && ModeAt(lines, start) == ModeAt(lines, end) == Plain && ModeAt(block, |block|) == Plain
    ensures var out := NewLines(lines, start, end, block);
            && (BracketAt(r, out, start + |block|) <==> BracketAt(r, lines, end))
            && (HeaderAt(r, out, start + |block|) <==> HeaderAt(r, lines, end))
  {
    LineAt(lines, start, end, block, start + |block|);
    ModeBeyond(lines, start, end, block, end);
  }

  lemma StartsAt(r: Reader, lines: seq<string>, start: nat, end: nat, block: seq<string>)
    requires start < end <= |lines| && ModeAt(lines, start) == Plain && block != [] && r.header(block[0])
    ensures HeaderAt(r, NewLines(lines, start, end, block), start)
  {
    LineAt(lines, start, end, block, start);
    ModeWithin(lines, start, end, block, 0);
  }

  /** The block is the table of the rewritten text. */
  lemma RewriteTable(r: Reader, lines: seq<string>, start: nat, end: nat, block: seq<string>)
    requires TableAt(r, lines, start, end) && Block(r, block) && !r.bracket("")
    ensures TableAt(r, NewLines(lines, start, end, block), start, NewEnd(lines, start, end, block))
  {
    var out, stop := NewLines(lines, start, end, block), NewEnd(lines, start, end, block);
    StartsAt(r, lines, start, end, block);
    BlockOpensNothing(r, lines, start, end, block);
    if end < |lines| { StopsAt(r, lines, start, end, block); }
    HeadersBefore(r, lines, start, end, block);
  }

  lemma BlockOpensNothing(r: Reader, lines: seq<string>, start: nat, end: nat, block: seq<string>)
    requires start < end <= |lines| && ModeAt(lines, start) == Plain && !r.bracket("") && block != []
    requires forall i | 0 < i < |block| && Structural(block, i) :: !r.bracket(block[i])
    ensures forall i | start < i < NewEnd(lines, start, end, block) :: !BracketAt(r, NewLines(lines, start, end, block), i)
  {
    var out := NewLines(lines, start, end, block);
    forall i | start < i < NewEnd(lines, start, end, block) ensures !BracketAt(r, out, i) {
      if i < start + |block| { NoneWithin(r, lines, start, end, block, i); } else { LineAt(lines, start, end, block, i); }
    }
  }

  lemma HeadersBefore(r: Reader, lines: seq<string>, start: nat, end: nat, block: seq<string>)
    requires start < end <= |lines|
    requires forall i, j | 0 <= i < j < start && HeaderAt(r, lines, i) && BracketAt(r, lines, j) :: HeaderAt(r, lines, j)
    ensures var out := NewLines(lines, start, end, block);
            forall i, j | 0 <= i < j < start && HeaderAt(r, out, i) && BracketAt(r, out, j) :: HeaderAt(r, out, j)
  {
    var out := NewLines(lines, start, end, block);
    forall i, j | 0 <= i < j < start && HeaderAt(r, out, i) && BracketAt(r, out, j) ensures HeaderAt(r, out, j) {
      SameBefore(r, lines, start, end, block, i);
      SameBefore(r, lines, start, end, block, j);
    }
  }

  ghost predicate Declares(r: Reader, lines: seq<string>) { exists i :: HeaderAt(r, lines, i) }

  /** MAIN: the rewritten text declares the table, and whatever table a second rewrite finds in it, replacing that gives
      the same text again. */
  lemma RewriteIsIdempotent(r: Reader, contents: string, start: nat, end: nat, block: seq<string>, start': nat, end': nat)
    requires Reads(r) && TableAt(r, Split(contents), start, end) && Block(r, block) && !r.bracket("")
    requires TableAt(r, Split(Rewritten(Split(contents), start, end, Join(block))), start', end')
    ensures var text := Rewritten(Split(contents), start, end, Join(block));
            Declares(r, Split(text)) && Rewritten(Split(text), start', end', Join(block)) == text
  {
    var lines := Split(contents);
    var out := NewLines(lines, start, end, block);
    SplitPieces(contents);
    RewriteLines(r, lines, start, end, block);
    RewriteTable(r, lines, start, end, block);
    TableUnique(r, out, start', end', start, NewEnd(lines, start, end, block));
    assert HeaderAt(r, out, start);
    assert out[..start] == lines[..start];
    SameTail(lines, start, end, block);
  }

  lemma SameTail(lines: seq<string>, start: nat, end: nat, block: seq<string>)
    requires start <= end <= |lines|
    ensures Join(NewLines(lines, start, end, block)[NewEnd(lines, start, end, block)..]) == Join(lines[end..])
  {
    var out := NewLines(lines, start, end, block);
    assert out[NewEnd(lines, start, end, block)..] == lines[end..];
  }

  // ---------------------------------------------------------------- the loops

  /** `replaceTopLevelTable`: finds the table in one pass over the lines and puts the text back together around the
      replacement. Nothing is changed when no line declares the table. */
  method ReplaceTopLevelTable(r: Reader, contents: string, replacement: string) returns (text: string, replaced: bool, ghost start: nat, ghost end: nat)
    requires Reads(r)
    ensures replaced <==> Declares(r, Split(contents))
    ensures !replaced ==> text == contents
    ensures replaced ==> TableAt(r, Split(contents), start, end) && text == Rewritten(Split(contents), start, end, replacement)
  {
    var lines := Split(contents);
    var first, last := FindTable(r, lines);
    if first < 0 { return contents, false, 0, 0; }
    SplitPieces(contents);
    start, end := first, last;
    text := Join(lines[..first]);
    EndsWithNewline(lines[..first]);
    if |text| > 0 && text[|text| - 1] != '\n' { text := text + "\n"; }
    text := text + replacement + Join(lines[last..]);
    replaced := true;
  }

  lemma {:induction false} EndsWithNewline(lines: seq<string>)
    requires forall i | 0 <= i < |lines| :: Whole(lines[i])
    ensures Join(lines) == "" || Join(lines)[|Join(lines)| - 1] == '\n'
  {
    if lines != [] {
      EndsWithNewline(lines[1..]);
      assert Whole(lines[0]);
    }
  }

  /** The search loop; a start below zero means that the table is not declared. */
  method FindTable(r: Reader, lines: seq<string>) returns (start: int, end: nat)
    requires Reads(r)
    ensures start < 0 <==> !Declares(r, lines)
    ensures start >= 0 ==> TableAt(r, lines, start, end)
  {
    var structural := StructuralLines(lines);
    start, end := -1, |lines|;
    var i := 0;
    while i < |lines|
      invariant i <= |lines| && end == |lines| && start < i
      invariant start < 0 ==> forall k | 0 <= k < i :: !HeaderAt(r, lines, k)
      invariant start >= 0 ==> HeaderAt(r, lines, start) && forall k | start < k < i :: !BracketAt(r, lines, k)
      invariant forall k, j | 0 <= k < j < start && HeaderAt(r, lines, k) && BracketAt(r, lines, j) :: HeaderAt(r, lines, j)
    {
      if structural[i] {
        if r.header(lines[i]) {
          start := i;
        } else if start >= 0 && r.bracket(lines[i]) {
          end := i;
          break;
        }
      }
      i := i + 1;
    }
  }
}
