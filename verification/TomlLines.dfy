/** Which lines of a TOML text begin outside a multi-line string: the scanner agrees with an automaton that reads
    one byte at a time. */
module TomlLines {

  datatype Mode = Plain | Multi(quote: char)

  predicate IsQuote(c: char) { c == '"' || c == '\'' }

  predicate ModeOk(m: Mode) { m.Multi? ==> IsQuote(m.quote) }

  predicate TripleAt(line: string, i: nat, q: char) { i + 2 < |line| && line[i] == q && line[i + 1] == q && line[i + 2] == q }

  /** Position of the first delimiter at or after `i`, or the length of the line. */
  function Find(line: string, i: nat, q: char): (j: nat)
    requires i <= |line|
    ensures i <= j <= |line| && (j < |line| ==> TripleAt(line, j, q)) && forall k | i <= k < j :: !TripleAt(line, k, q)
    decreases |line| - i
  {
    if i == |line| then i else if TripleAt(line, i, q) then i else Find(line, i + 1, q)
  }

  /** Length of the run of backslashes that ends just before `i`. */
  function Backslashes(line: string, i: nat): nat
    requires i <= |line|
  {
    if i > 0 && line[i - 1] == '\\' then 1 + Backslashes(line, i - 1) else 0
  }

  predicate Escaped(line: string, i: nat)
    requires i <= |line|
  {
    Backslashes(line, i) % 2 == 1
  }

  /** The scanner's loop from position `i`: `quote` is the open single-line quote, if any. */
  function Scan(line: string, i: nat, mode: Mode, quote: Mode, escaped: bool): Mode
    requires i <= |line|
    decreases |line| - i
  {
    if i == |line| then mode
    else if mode.Multi? then
      var closing := Find(line, i, mode.quote);
      if closing == |line| then mode
      else if mode.quote == '"' && Escaped(line, closing) then Scan(line, closing + 1, mode, quote, escaped)
      else Scan(line, closing + 3, Plain, quote, escaped)
    else
      var c := line[i];
      if quote.Multi? then
        if quote.quote == '"' && c == '\\' && !escaped then Scan(line, i + 1, Plain, quote, true)
        else if c == quote.quote && !escaped then Scan(line, i + 1, Plain, Plain, false)
        else Scan(line, i + 1, Plain, quote, false)
      else if c == '#' then Plain
      else if !IsQuote(c) then Scan(line, i + 1, Plain, Plain, escaped)
      else if TripleAt(line, i, c) then Scan(line, i + 3, Multi(c), Plain, escaped)
      else Scan(line, i + 1, Plain, Multi(c), escaped)
  }

  function Advance(line: string, mode: Mode): Mode { Scan(line, 0, mode, Plain, false) }

  // ---------------------------------------------------------------- the automaton

  /** Outside strings after `run` equal quotes; in a one-line string; in a multi-line string with its escape parity and the
      number of closing quotes just read; or in a comment. */
  datatype Lexer =
    | Outside
    | Opening(quote: char, run: nat)
    | Line(quote: char, escaped: bool)
    | Within(quote: char, odd: bool, run: nat)
    | Comment

  function Plainly(c: char): Lexer { if c == '#' then Comment else if IsQuote(c) then Opening(c, 1) else Outside }

  function InLine(q: char, escaped: bool, c: char): Lexer {
    if q == '"' && c == '\\' && !escaped then Line(q, true)
    else if c == q && !escaped then Outside
    else Line(q, false)
  }

  function Lex(x: Lexer, c: char): Lexer {
    match x
    case Outside => Plainly(c)
    case Comment => Comment
    case Line(q, escaped) => InLine(q, escaped, c)
    case Opening(q, run) =>
      if run == 1 then (if c == q then Opening(q, 2) else InLine(q, false, c))
      else if c == q then Within(q, false, 0) else Plainly(c)
    case Within(q, odd, run) =>
      if c == q then
        if q == '"' && odd then Within(q, false, 0) else if run == 2 then Outside else Within(q, false, run + 1)
      else Within(q, q == '"' && c == '\\' && !odd, 0)
  }

  function LexFrom(line: string, i: nat, x: Lexer): Lexer
    requires i <= |line|
    decreases |line| - i
  {
    if i == |line| then x else LexFrom(line, i + 1, Lex(x, line[i]))
  }

  function Begin(mode: Mode): Lexer { if mode.Multi? then Within(mode.quote, false, 0) else Outside }

  /** A line ends any one-line string or comment; only a multi-line string carries over. */
  function Ends(x: Lexer): Mode { if x.Within? then Multi(x.quote) else Plain }

  // ---------------------------------------------------------------- the scanner is the automaton

  predicate Odd(line: string, i: nat, q: char)
    requires i <= |line|
  {
    q == '"' && Escaped(line, i)
  }

  /** The automaton within a multi-line string at position `k`, having come from `i` without meeting a delimiter. */
  predicate Walking(line: string, i: nat, k: nat, q: char, x: Lexer)
    requires i <= k <= |line|
  {
    && x.Within? && x.quote == q && x.odd == Odd(line, k, q) && x.run <= 2 && x.run <= k - i
    && (x.run >= 1 ==> line[k - 1] == q) && (x.run >= 2 ==> line[k - 2] == q)
  }

  lemma WalkStep(line: string, i: nat, k: nat, q: char, x: Lexer)
    requires IsQuote(q) && i <= |line| && i <= k < Find(line, i, q) && Walking(line, i, k, q, x)
    ensures Walking(line, i, k + 1, q, Lex(x, line[k]))
  {
    var c := line[k];
    assert Backslashes(line, k + 1) == if c == '\\' then 1 + Backslashes(line, k) else 0;
    if c == q && !x.odd && x.run == 2 {
      assert TripleAt(line, k - 2, q);
    }
  }

  /** Up to the next delimiter the automaton stays within the string. */
  lemma {:induction false} Walk(line: string, i: nat, k: nat, q: char, x: Lexer) returns (y: Lexer)
    requires IsQuote(q) && i <= |line| && i <= k <= Find(line, i, q) && Walking(line, i, k, q, x)
    ensures Walking(line, i, Find(line, i, q), q, y) && LexFrom(line, k, x) == LexFrom(line, Find(line, i, q), y)
    decreases |line| - k
  {
    if k == Find(line, i, q) { return x; }
    WalkStep(line, i, k, q, x);
    y := Walk(line, i, k + 1, q, Lex(x, line[k]));
  }

  /** At the delimiter no closing quote has been counted yet. */
  lemma FreshAtDelimiter(line: string, i: nat, j: nat, q: char, y: Lexer)
    requires i <= |line| && j == Find(line, i, q) < |line| && Walking(line, i, j, q, y)
    ensures y.run == 0
  {
    if y.run > 0 {
      assert TripleAt(line, j - 1, q);
    }
  }

  lemma Three(line: string, j: nat, x: Lexer)
    requires j + 3 <= |line|
    ensures LexFrom(line, j, x) == LexFrom(line, j + 3, Lex(Lex(Lex(x, line[j]), line[j + 1]), line[j + 2]))
  {
    assert LexFrom(line, j, x) == LexFrom(line, j + 1, Lex(x, line[j]));
    assert LexFrom(line, j + 1, Lex(x, line[j])) == LexFrom(line, j + 2, Lex(Lex(x, line[j]), line[j + 1]));
  }

  lemma {:induction false} ScanMulti(line: string, i: nat, q: char)
    requires i <= |line| && IsQuote(q)
    ensures Scan(line, i, Multi(q), Plain, false) == Ends(LexFrom(line, i, Within(q, Odd(line, i, q), 0)))
    decreases |line| - i, 2
  {
    if i < |line| {
      var j, x := Find(line, i, q), Within(q, Odd(line, i, q), 0);
      var y := Walk(line, i, i, q, x);
      if j < |line| {
        FreshAtDelimiter(line, i, j, q, y);
        if q == '"' && Escaped(line, j) {
          assert Backslashes(line, j + 1) == 0;
          ScanMulti(line, j + 1, q);
          assert LexFrom(line, j, y) == LexFrom(line, j + 1, Within(q, false, 0));
        } else {
          Three(line, j, y);
          ScanOutside(line, j + 3);
        }
      }
    }
  }

  lemma {:induction false} ScanLine(line: string, i: nat, q: char, escaped: bool)
    requires i <= |line| && IsQuote(q)
    ensures Scan(line, i, Plain, Multi(q), escaped) == Ends(LexFrom(line, i, Line(q, escaped)))
    decreases |line| - i, 1
  {
    if i < |line| {
      var next := InLine(q, escaped, line[i]);
      assert LexFrom(line, i, Line(q, escaped)) == LexFrom(line, i + 1, next);
      if next.Outside? { ScanOutside(line, i + 1); } else { ScanLine(line, i + 1, q, next.escaped); }
    }
  }

  lemma {:induction false} CommentStays(line: string, i: nat)
    requires i <= |line|
    ensures LexFrom(line, i, Comment) == Comment
    decreases |line| - i
  {
    if i < |line| { CommentStays(line, i + 1); }
  }

  lemma {:induction false} ScanOutside(line: string, i: nat)
    requires i <= |line|
    ensures Scan(line, i, Plain, Plain, false) == Ends(LexFrom(line, i, Outside))
    decreases |line| - i, 0
  {
    if i < |line| {
      var c := line[i];
      assert LexFrom(line, i, Outside) == LexFrom(line, i + 1, Plainly(c));
      if c == '#' {
        CommentStays(line, i + 1);
      } else if !IsQuote(c) {
        ScanOutside(line, i + 1);
      } else {
        ScanQuote(line, i, c);
      }
    }
  }

  /** A quote outside strings opens a multi-line string, an empty string or a one-line string. */
  lemma {:induction false} ScanQuote(line: string, i: nat, c: char)
    requires i < |line| && IsQuote(c) && line[i] == c
    ensures Scan(line, i, Plain, Plain, false) == Ends(LexFrom(line, i + 1, Opening(c, 1)))
    decreases |line| - i - 1, 3
  {
    if TripleAt(line, i, c) {
      Three(line, i, Outside);
      assert LexFrom(line, i, Outside) == LexFrom(line, i + 1, Opening(c, 1));
      assert Backslashes(line, i + 3) == 0;
      ScanMulti(line, i + 3, c);
    } else if i + 1 < |line| && line[i + 1] == c {
      assert LexFrom(line, i + 1, Opening(c, 1)) == LexFrom(line, i + 2, Opening(c, 2));
      assert Scan(line, i, Plain, Plain, false) == Scan(line, i + 1, Plain, Multi(c), false) == Scan(line, i + 2, Plain, Plain, false);
      ScanOutside(line, i + 2);
      assert i + 2 < |line| ==> Lex(Opening(c, 2), line[i + 2]) == Lex(Outside, line[i + 2]);
    } else {
      ScanLine(line, i + 1, c, false);
      assert i + 1 < |line| ==> Lex(Opening(c, 1), line[i + 1]) == Lex(Line(c, false), line[i + 1]);
    }
  }

  /** MAIN: on every line and from every state the scanner ends as the automaton does. */
  lemma AdvanceIsLexer(line: string, mode: Mode)
    requires ModeOk(mode)
    ensures Advance(line, mode) == Ends(LexFrom(line, 0, Begin(mode)))
  {
    if mode.Multi? { ScanMulti(line, 0, mode.quote); } else { ScanOutside(line, 0); }
  }

  // ---------------------------------------------------------------- the loops

  method CountBackslashes(line: string, index: nat) returns (n: nat)
    requires index <= |line|
    ensures n == Backslashes(line, index)
  {
    n := 0;
    var i := index;
    while i > 0 && line[i - 1] == '\\'
      invariant 0 <= i <= index && n + Backslashes(line, i) == Backslashes(line, index)
    {
      n, i := n + 1, i - 1;
    }
  }

  /** One line of the scanner: the state after it is the automaton's. */
  method AdvanceState(line: string, start: Mode) returns (mode: Mode)
    requires ModeOk(start)
    ensures mode == Advance(line, start) && mode == Ends(LexFrom(line, 0, Begin(start))) && ModeOk(mode)
  {
    mode := start;
    var quote, escaped, i := Plain, false, 0;
    AdvanceIsLexer(line, start);
    while i < |line|
      invariant i <= |line| && ModeOk(mode) && Scan(line, i, mode, quote, escaped) == Advance(line, start)
      decreases |line| - i
    {
      if mode.Multi? {
        var closing := Find(line, i, mode.quote);
        if closing == |line| { return; }
        var backslashes := CountBackslashes(line, closing);
        if mode.quote == '"' && backslashes % 2 == 1 {
          i := closing + 1;
        } else {
          mode, i := Plain, closing + 3;
        }
      } else {
        var c := line[i];
        if quote.Multi? {
          if quote.quote == '"' && c == '\\' && !escaped {
            escaped := true;
          } else {
            if c == quote.quote && !escaped { quote := Plain; }
            escaped := false;
          }
        } else if c == '#' {
          return;
        } else if IsQuote(c) {
          if TripleAt(line, i, c) { mode, i := Multi(c), i + 2; } else { quote := Multi(c); }
        }
        i := i + 1;
      }
    }
  }

  /** The state before each line. */
  function ModeAt(lines: seq<string>, i: nat): Mode
    requires i <= |lines|
  {
    if i == 0 then Plain else Advance(lines[i - 1], ModeAt(lines, i - 1))
  }

  predicate Structural(lines: seq<string>, i: nat)
    requires i < |lines|
  {
    ModeAt(lines, i) == Plain
  }

  method StructuralLines(lines: seq<string>) returns (structural: seq<bool>)
    ensures |structural| == |lines| && forall i | 0 <= i < |lines| :: structural[i] == Structural(lines, i)
  {
    structural := [];
    var mode := Plain;
    for i := 0 to |lines|
      invariant |structural| == i && ModeOk(mode) && mode == ModeAt(lines, i)
      invariant forall k | 0 <= k < i :: structural[k] == Structural(lines, k)
    {
      structural := structural + [mode == Plain];
      mode := AdvanceState(lines[i], mode);
    }
  }
}
