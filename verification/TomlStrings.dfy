/** How the line scanner differs from TOML v1.0.0 (section "String"): a run of three to five quotes closes a multi-line string
    with its last three, while the scanner closes with the first three. */
module TomlStrings {
  import opened TomlLines

  /** The states of `Lexer`, and a closing run of `run` quotes that may still grow to five. */
  datatype Toml = At(x: Lexer) | Closed(quote: char, run: nat)

  function Standard(y: Toml, c: char): Toml {
    match y
    case Closed(q, run) => if c == q && run < 5 then Closed(q, run + 1) else At(Plainly(c))
    case At(x) =>
      if x.Within? && x.run == 2 && c == x.quote && !(x.quote == '"' && x.odd) then Closed(x.quote, 3) else At(Lex(x, c))
  }

  function StandardFrom(line: string, i: nat, y: Toml): Toml
    requires i <= |line|
    decreases |line| - i
  {
    if i == |line| then y else StandardFrom(line, i + 1, Standard(y, line[i]))
  }

  function StandardEnd(y: Toml): Mode { if y.At? then Ends(y.x) else Plain }

  /** The scanner has read what the standard has, but counts the run's further quotes as the start of another string. */
  predicate Related(x: Lexer, y: Toml) {
    match y
    case At(z) => x == z
    case Closed(q, run) => x == if run <= 3 then Outside else Opening(q, run - 3)
  }

  predicate Sensible(y: Toml) {
    if y.Closed? then 3 <= y.run <= 5 && IsQuote(y.quote) else y.x.Within? || y.x.Opening? ==> IsQuote(y.x.quote)
  }

  /** The next character follows a run of exactly four quotes, or is a sixth quote. */
  predicate Parts(y: Toml, c: char) { y.Closed? && ((y.run == 4 && c != y.quote) || (y.run == 5 && c == y.quote)) }

  /** MAIN: from states that read the text alike, the scanner and the standard read one more character alike if and only if it
      does not end a run of exactly four closing quotes and is not a sixth quote. */
  lemma AlikeExactly(x: Lexer, y: Toml, c: char)
    requires Related(x, y) && Sensible(y)
    ensures Related(Lex(x, c), Standard(y, c)) <==> !Parts(y, c)
    ensures Sensible(Standard(y, c))
  {
  }

  // ---------------------------------------------------------------- whole lines

  predicate NoQuote(line: string, i: nat) { forall k | i <= k < |line| :: !IsQuote(line[k]) }

  /** No character of the rest of the line parts the two. */
  ghost predicate Together(line: string, i: nat, y: Toml)
    requires i <= |line|
    decreases |line| - i
  {
    i < |line| ==> !Parts(y, line[i]) && Together(line, i + 1, Standard(y, line[i]))
  }

  /** Once the two part, no quote follows on the line. */
  ghost predicate QuietAfter(line: string, i: nat, y: Toml)
    requires i <= |line|
    decreases |line| - i
  {
    i < |line| ==>
      if Parts(y, line[i]) then NoQuote(line, if y.run == 4 then i else i + 1) else QuietAfter(line, i + 1, Standard(y, line[i]))
  }

  /** The two never part, or first part after a run of exactly four quotes. */
  ghost predicate NoSixth(line: string, i: nat, y: Toml)
    requires i <= |line|
    decreases |line| - i
  {
    i < |line| ==> if Parts(y, line[i]) then y.run == 4 else NoSixth(line, i + 1, Standard(y, line[i]))
  }

  lemma {:induction false} TogetherIsQuiet(line: string, i: nat, y: Toml)
    requires i <= |line| && Together(line, i, y)
    ensures QuietAfter(line, i, y) && NoSixth(line, i, y)
    decreases |line| - i
  {
    if i < |line| { TogetherIsQuiet(line, i + 1, Standard(y, line[i])); }
  }

  /** Without quotes no string opens or closes. */
  lemma {:induction false} QuoteFreeScan(line: string, i: nat, x: Lexer)
    requires i <= |line| && NoQuote(line, i) && (x.Within? || x.Opening? ==> IsQuote(x.quote))
    ensures Ends(LexFrom(line, i, x)) == Ends(x)
    decreases |line| - i
  {
    if i < |line| { QuoteFreeScan(line, i + 1, Lex(x, line[i])); }
  }

  lemma {:induction false} QuoteFreeStandard(line: string, i: nat, y: Toml)
    requires i <= |line| && NoQuote(line, i) && Sensible(y)
    ensures StandardEnd(StandardFrom(line, i, y)) == StandardEnd(y)
    decreases |line| - i
  {
    if i < |line| { QuoteFreeStandard(line, i + 1, Standard(y, line[i])); }
  }

  /** A run of exactly four quotes and no quote after it: both end outside strings. */
  lemma FourAlone(line: string, i: nat, x: Lexer, y: Toml)
    requires i < |line| && Related(x, y) && Sensible(y) && Parts(y, line[i]) && y.run == 4 && NoQuote(line, i)
    ensures Ends(LexFrom(line, i, x)) == StandardEnd(StandardFrom(line, i, y)) == Plain
  {
    QuoteFreeScan(line, i, x);
    QuoteFreeStandard(line, i, y);
  }

  /** A sixth quote and none after it: the scanner ends inside a multi-line string, the standard outside. */
  lemma SixthAlone(line: string, i: nat, x: Lexer, y: Toml)
    requires i < |line| && Related(x, y) && Sensible(y) && Parts(y, line[i]) && y.run == 5 && NoQuote(line, i + 1)
    ensures Ends(LexFrom(line, i, x)) == Multi(y.quote) && StandardEnd(StandardFrom(line, i, y)) == Plain
  {
    QuoteFreeScan(line, i + 1, Lex(x, line[i]));
    QuoteFreeStandard(line, i + 1, Standard(y, line[i]));
  }

  lemma {:induction false} EndAlikeExactly(line: string, i: nat, x: Lexer, y: Toml)
    requires i <= |line| && Related(x, y) && Sensible(y) && QuietAfter(line, i, y)
    ensures Ends(LexFrom(line, i, x)) == StandardEnd(StandardFrom(line, i, y)) <==> NoSixth(line, i, y)
    decreases |line| - i
  {
    if i < |line| {
      AlikeExactly(x, y, line[i]);
      if !Parts(y, line[i]) { EndAlikeExactly(line, i + 1, Lex(x, line[i]), Standard(y, line[i])); }
      else if y.run == 4 { FourAlone(line, i, x, y); }
      else { SixthAlone(line, i, x, y); }
    }
  }

  /** MAIN: on every line with no quote after the place where the two first part, the scanner ends as the standard does if and
      only if that place is not a sixth quote; lines on which they never part are among them. */
  lemma ScannerMeetsStandard(line: string, mode: Mode)
    requires ModeOk(mode) && QuietAfter(line, 0, At(Begin(mode)))
    ensures Advance(line, mode) == StandardEnd(StandardFrom(line, 0, At(Begin(mode)))) <==> NoSixth(line, 0, At(Begin(mode)))
  {
    AdvanceIsLexer(line, mode);
    EndAlikeExactly(line, 0, Begin(mode), At(Begin(mode)));
  }

  /** FINDING: after a closing run of four quotes the scanner reads the rest of the line as a string, and misses that a later
      run lies in a comment; it then takes the following lines for text inside a string. */
  lemma FourQuotesMislead()
    ensures var line := "'''a'''' # ''''";
            Advance(line, Plain) == Multi('\'') && StandardEnd(StandardFrom(line, 0, At(Outside))) == Plain
  {
    var line := "'''a'''' # ''''";
    assert |line| == 15;
    AdvanceIsLexer(line, Plain);
    FirstHalf(line);
    SecondHalf(line);
  }

  lemma FirstHalf(line: string)
    requires line == "'''a'''' # ''''"
    ensures LexFrom(line, 0, Outside) == LexFrom(line, 8, Opening('\'', 1))
    ensures StandardFrom(line, 0, At(Outside)) == StandardFrom(line, 8, Closed('\'', 4))
  {
    var w := Within('\'', false, 0);
    assert LexFrom(line, 3, w) == LexFrom(line, 4, w) == LexFrom(line, 5, Within('\'', false, 1)) == LexFrom(line, 6, Within('\'', false, 2));
    assert LexFrom(line, 6, Within('\'', false, 2)) == LexFrom(line, 7, Outside) == LexFrom(line, 8, Opening('\'', 1));
    assert LexFrom(line, 0, Outside) == LexFrom(line, 1, Opening('\'', 1)) == LexFrom(line, 2, Opening('\'', 2)) == LexFrom(line, 3, w);
    assert StandardFrom(line, 3, At(w)) == StandardFrom(line, 4, At(w)) == StandardFrom(line, 5, At(Within('\'', false, 1))) == StandardFrom(line, 6, At(Within('\'', false, 2)));
    assert StandardFrom(line, 6, At(Within('\'', false, 2))) == StandardFrom(line, 7, Closed('\'', 3)) == StandardFrom(line, 8, Closed('\'', 4));
    assert StandardFrom(line, 0, At(Outside)) == StandardFrom(line, 1, At(Opening('\'', 1))) == StandardFrom(line, 2, At(Opening('\'', 2))) == StandardFrom(line, 3, At(w));
  }

  lemma SecondHalf(line: string)
    requires line == "'''a'''' # ''''"
    ensures Ends(LexFrom(line, 8, Opening('\'', 1))) == Multi('\'')
    ensures StandardEnd(StandardFrom(line, 8, Closed('\'', 4))) == Plain
  {
    var l := Line('\'', false);
    assert LexFrom(line, 8, Opening('\'', 1)) == LexFrom(line, 9, l) == LexFrom(line, 10, l) == LexFrom(line, 11, l) == LexFrom(line, 12, Outside);
    assert LexFrom(line, 12, Outside) == LexFrom(line, 13, Opening('\'', 1)) == LexFrom(line, 14, Opening('\'', 2)) == LexFrom(line, 15, Within('\'', false, 0));
    assert StandardFrom(line, 8, Closed('\'', 4)) == StandardFrom(line, 9, At(Outside)) == StandardFrom(line, 10, At(Comment));
    assert StandardFrom(line, 10, At(Comment)) == StandardFrom(line, 11, At(Comment)) == StandardFrom(line, 12, At(Comment)) == StandardFrom(line, 13, At(Comment));
    assert StandardFrom(line, 13, At(Comment)) == StandardFrom(line, 14, At(Comment)) == StandardFrom(line, 15, At(Comment));
  }
}
