/** Recognizing the header line of a table: surrounding space, quoted keys, dotted paths and a trailing comment. */
module TomlHeader {
  import opened Basics
  import opened TomlLines
  import opened TomlTable

  // ---------------------------------------------------------------- space

  predicate IsSpace(c: char) {
    || '\t' <= c <= '\r' || c == ' ' || c == '\U{0085}' || c == '\U{00a0}' || c == '\U{1680}' || '\U{2000}' <= c <= '\U{200a}'
    || c == '\U{2028}' || c == '\U{2029}' || c == '\U{202f}' || c == '\U{205f}' || c == '\U{3000}'
  }

  function TrimLeft(s: string): string { if s != "" && IsSpace(s[0]) then TrimLeft(s[1..]) else s }

  function TrimRight(s: string): string { if s != "" && IsSpace(s[|s| - 1]) then TrimRight(s[..|s| - 1]) else s }

  function Trim(s: string): string { TrimRight(TrimLeft(s)) }

  predicate Blank(s: string) { forall i | 0 <= i < |s| :: IsSpace(s[i]) }

  predicate Solid(s: string) { s != "" && !IsSpace(s[0]) && !IsSpace(s[|s| - 1]) }

  /** The space that is trimmed, and the bytes of bare keys. */
  lemma CharactersExactly(c: char)
    ensures IsSpace(c) <==> c in "\t\n\U{000b}\U{000c}\r \U{0085}\U{00a0}\U{1680}\U{2000}\U{2001}\U{2002}\U{2003}\U{2004}\U{2005}\U{2006}\U{2007}\U{2008}\U{2009}\U{200a}\U{2028}\U{2029}\U{202f}\U{205f}\U{3000}"
    ensures BareByte(c) <==> var n := c as int; n == 45 || 48 <= n <= 57 || 65 <= n <= 90 || n == 95 || 97 <= n <= 122
  {
  }

  // ---------------------------------------------------------------- keys

  /** Position of the first `target` outside quotes, or the length of the text. */
  function Unquoted(s: string, target: char, i: nat, quote: Mode, escaped: bool): (j: nat)
    requires i <= |s|
    ensures i <= j <= |s| && (j < |s| ==> s[j] == target)
    decreases |s| - i
  {
    if i == |s| then i
    else
      var c := s[i];
      if quote.Multi? then
        if quote.quote == '"' && c == '\\' && !escaped then Unquoted(s, target, i + 1, quote, true)
        else if c == quote.quote && !escaped then Unquoted(s, target, i + 1, Plain, false)
        else Unquoted(s, target, i + 1, quote, false)
      else if IsQuote(c) then Unquoted(s, target, i + 1, Multi(c), escaped)
      else if c == target then i
      else Unquoted(s, target, i + 1, Plain, escaped)
  }

  predicate BareByte(c: char) { c == '_' || c == '-' || 'A' <= c <= 'Z' || 'a' <= c <= 'z' || '0' <= c <= '9' }

  function BareEnd(s: string, i: nat): (j: nat)
    requires i <= |s|
    ensures i <= j <= |s| && (forall k | i <= k < j :: BareByte(s[k])) && (j < |s| ==> !BareByte(s[j]))
    decreases |s| - i
  {
    if i < |s| && BareByte(s[i]) then BareEnd(s, i + 1) else i
  }

  /** Position of the quote that closes the one at the start, or the length of the text. */
  function Closing(s: string, i: nat, escaped: bool): (j: nat)
    requires 0 < i <= |s|
    ensures i <= j <= |s|
    decreases |s| - i
  {
    if i == |s| then i
    else if s[0] == '"' && s[i] == '\\' && !escaped then Closing(s, i + 1, true)
    else if s[i] == s[0] && !escaped then i
    else Closing(s, i + 1, false)
  }

  /** One key and what follows it; `unquote` is the language's reading of a double-quoted text. */
  function KeyPart(s: string, unquote: string -> Option<string>): (r: Option<(string, string)>)
    requires s != ""
    ensures r.Some? ==> |r.value.1| < |s|
  {
    if IsQuote(s[0]) then
      var i := Closing(s, 1, false);
      if i == |s| then None
      else if s[0] == '\'' then Some((s[1..i], s[i + 1..]))
      else
        var key := unquote(s[..i + 1]);
        if key.None? then None else Some((key.value, s[i + 1..]))
    else
      var end := BareEnd(s, 0);
      if end == 0 then None else Some((s[..end], s[end..]))
  }

  lemma {:induction false} TrimShorter(s: string)
    ensures |TrimLeft(s)| <= |s| && |TrimRight(s)| <= |s|
    decreases |s|
  {
    if s != "" && IsSpace(s[0]) { TrimShorter(s[1..]); }
    if s != "" && IsSpace(s[|s| - 1]) { TrimShorter(s[..|s| - 1]); }
  }

  /** The keys of a dotted path; `remaining` has no surrounding space. */
  function KeyParts(remaining: string, unquote: string -> Option<string>): Option<seq<string>>
    requires remaining != ""
    decreases |remaining|
  {
    var part := KeyPart(remaining, unquote);
    if part.None? then None
    else
      TrimShorter(part.value.1);
      TrimShorter(TrimLeft(part.value.1));
      var rest := Trim(part.value.1);
      if rest == "" then Some([part.value.0])
      else if rest[0] != '.' then None
      else
        TrimShorter(rest[1..]);
        TrimShorter(TrimLeft(rest[1..]));
        var next := Trim(rest[1..]);
        if next == "" then None
        else
          var more := KeyParts(next, unquote);
          if more.None? then None else Some([part.value.0] + more.value)
  }

  function KeyPath(s: string, unquote: string -> Option<string>): Option<seq<string>> {
    var remaining := Trim(s);
    if remaining == "" then None else KeyParts(remaining, unquote)
  }

  // ---------------------------------------------------------------- header lines

  predicate Bracket(line: string) { var t := Trim(line); t != "" && t[0] == '[' }

  /** The path of a table header and whether it opens an array of tables. */
  function ContextPath(line: string, unquote: string -> Option<string>): Option<(seq<string>, bool)> {
    var t := Trim(line);
    if t == "" || t[0] != '[' then None
    else
      var double := |t| > 1 && t[1] == '[';
      var opening := if double then 2 else 1;
      var closing := Unquoted(t, ']', 0, Plain, false);
      if closing == |t| then None
      else if double && !(closing + 1 < |t| && t[closing + 1] == ']') then None
      else
        var rest := Trim(t[closing + (if double then 2 else 1)..]);
        if rest != "" && rest[0] != '#' then None
        else
          var path := KeyPath(t[opening..closing], unquote);
          if path.None? then None else Some((path.value, double))
  }

  predicate Header(line: string, name: seq<string>, unquote: string -> Option<string>) {
    var c := ContextPath(line, unquote);
    c.Some? && !c.value.1 && c.value.0 == name
  }

  /** The reader that the configuration code uses for a table name. */
  function TableReader(name: seq<string>, unquote: string -> Option<string>): Reader {
    Reader((line: string) => Header(line, name, unquote), (line: string) => Bracket(line))
  }

  /** A header opens with a bracket, and the empty last piece of a text does not. */
  lemma ReaderIsSound(name: seq<string>, unquote: string -> Option<string>)
    ensures Reads(TableReader(name, unquote)) && !TableReader(name, unquote).bracket("")
  {
  }

  // ---------------------------------------------------------------- the forms a header may take

  lemma {:induction false} TrimLeftBlank(a: string, s: string)
    requires Blank(a)
    ensures TrimLeft(a + s) == TrimLeft(s)
  {
    if a == "" {
      assert a + s == s;
    } else {
      assert (a + s)[1..] == a[1..] + s;
      TrimLeftBlank(a[1..], s);
    }
  }

  lemma {:induction false} TrimRightBlank(s: string, b: string)
    requires Blank(b)
    ensures TrimRight(s + b) == TrimRight(s)
    decreases |b|
  {
    if b == "" {
      assert s + b == s;
    } else {
      assert (s + b)[..|s + b| - 1] == s + b[..|b| - 1];
      TrimRightBlank(s, b[..|b| - 1]);
    }
  }

  /** Trimming removes surrounding space and nothing else. */
  lemma TrimSolid(a: string, s: string, b: string)
    requires Blank(a) && Solid(s) && Blank(b)
    ensures Trim(a + s + b) == s
  {
    assert a + s + b == a + (s + b);
    TrimLeftBlank(a, s + b);
    assert (s + b)[0] == s[0];
    TrimRightBlank(s, b);
  }

  predicate Bare(name: string) { name != "" && forall i | 0 <= i < |name| :: BareByte(name[i]) }

  /** A quoted text that is closed by its last character and not before. */
  predicate Quoted(key: string) { |key| > 1 && IsQuote(key[0]) && Closing(key, 1, false) == |key| - 1 }

  /** The key reads as the name: bare, in single quotes, or in double quotes with the language's escapes. */
  predicate Spells(key: string, name: string, unquote: string -> Option<string>) {
    || (Bare(key) && name == key)
    || (Quoted(key) && if key[0] == '\'' then name == key[1..|key| - 1] else unquote(key) == Some(name))
  }

  /** Any name without a single quote can be spelled in single quotes. */
  lemma LiteralSpells(name: string, unquote: string -> Option<string>)
    requires '\'' !in name
    ensures Spells("'" + name + "'", name, unquote)
  {
    LiteralCloses("'" + name + "'", 1);
  }

  lemma {:induction false} LiteralCloses(key: string, i: nat)
    requires 0 < i < |key| && key[0] == key[|key| - 1] == '\'' && forall k | i <= k < |key| - 1 :: key[k] != '\''
    ensures Closing(key, i, false) == |key| - 1
    decreases |key| - i
  {
    if i < |key| - 1 { LiteralCloses(key, i + 1); }
  }

  /** What follows a closed text does not matter. */
  lemma {:induction false} ClosingPrefix(key: string, rest: string, i: nat, escaped: bool)
    requires 0 < i <= |key| && Closing(key, i, escaped) < |key|
    ensures Closing(key + rest, i, escaped) == Closing(key, i, escaped)
    decreases |key| - i
  {
    assert i < |key| ==> (key + rest)[i] == key[i] && (key + rest)[0] == key[0];
    if i < |key| {
      if key[0] == '"' && key[i] == '\\' && !escaped { ClosingPrefix(key, rest, i + 1, true); }
      else if !(key[i] == key[0] && !escaped) { ClosingPrefix(key, rest, i + 1, false); }
    }
  }

  /** A spelled key is read as its name, up to what cannot belong to it. */
  lemma SpelledIsKey(key: string, name: string, rest: string, unquote: string -> Option<string>)
    requires Spells(key, name, unquote) && (rest == "" || !BareByte(rest[0]))
    ensures key + rest != "" && KeyPart(key + rest, unquote) == Some((name, rest))
  {
    var s := key + rest;
    if Bare(key) {
      assert BareByte(key[0]) && s[0] == key[0];
      BareStops(key, rest, 0);
      assert s[..|key|] == key && s[|key|..] == rest;
    } else {
      ClosingPrefix(key, rest, 1, false);
      assert s[1..|key| - 1] == key[1..|key| - 1] && s[..|key|] == key && s[|key|..] == rest;
    }
  }

  lemma {:induction false} BareStops(key: string, rest: string, i: nat)
    requires i <= |key| && Bare(key) && (rest == "" || !BareByte(rest[0]))
    ensures BareEnd(key + rest, i) == |key|
    decreases |key| - i
  {
    if i < |key| {
      assert (key + rest)[i] == key[i];
      BareStops(key, rest, i + 1);
    } else {
      assert rest != "" ==> (key + rest)[i] == rest[0];
    }
  }

  lemma SpelledIsSolid(key: string, name: string, unquote: string -> Option<string>)
    requires Spells(key, name, unquote)
    ensures Solid(key) && key[0] != '['
  {
    if Bare(key) {
      assert BareByte(key[0]) && BareByte(key[|key| - 1]);
    } else {
      ClosedByQuote(key, 1, false);
    }
  }

  lemma {:induction false} ClosedByQuote(key: string, i: nat, escaped: bool)
    requires 0 < i <= |key| && Closing(key, i, escaped) < |key|
    ensures key[Closing(key, i, escaped)] == key[0]
    decreases |key| - i
  {
    if i < |key| {
      if key[0] == '"' && key[i] == '\\' && !escaped { ClosedByQuote(key, i + 1, true); }
      else if !(key[i] == key[0] && !escaped) { ClosedByQuote(key, i + 1, false); }
    }
  }

  // ---------------------------------------------------------------- dotted paths

  /** A key of a path with the space around it. */
  datatype Part = Part(before: string, key: string, after: string)

  function PartText(p: Part): string { p.before + p.key + p.after }

  function PathText(parts: seq<Part>): string
    requires parts != []
  {
    if |parts| == 1 then PartText(parts[0]) else PartText(parts[0]) + "." + PathText(parts[1..])
  }

  predicate SpellsPart(p: Part, name: string, unquote: string -> Option<string>) {
    Blank(p.before) && Blank(p.after) && Spells(p.key, name, unquote)
  }

  predicate SpellsPath(parts: seq<Part>, names: seq<string>, unquote: string -> Option<string>) {
    |parts| == |names| > 0 && forall i | 0 <= i < |parts| :: SpellsPart(parts[i], names[i], unquote)
  }

  lemma {:induction false} TrailKept(core: string, d: string)
    requires core != "" && !IsSpace(core[|core| - 1])
    ensures TrimRight(core + d) == core + TrimRight(d)
    decreases |d|
  {
    if d != "" && IsSpace(d[|d| - 1]) {
      assert (core + d)[..|core + d| - 1] == core + d[..|d| - 1];
      TrailKept(core, d[..|d| - 1]);
    } else {
      assert (core + d)[|core + d| - 1] == if d == "" then core[|core| - 1] else d[|d| - 1];
    }
  }

  lemma {:induction false} TrimRightTwice(s: string)
    ensures TrimRight(TrimRight(s)) == TrimRight(s)
    decreases |s|
  {
    if s != "" && IsSpace(s[|s| - 1]) { TrimRightTwice(s[..|s| - 1]); }
  }

  /** Trimming the end keeps a solid beginning. */
  lemma TrimEnd(a: string, s: string)
    requires s != "" && !IsSpace(s[0])
    ensures TrimRight(a + s) == a + TrimRight(s) && TrimRight(s) != "" && TrimRight(s)[0] == s[0]
  {
    var head, tail := [s[0]], s[1..];
    assert s == head + tail;
    ConcatAssociative(a, head, tail);
    ConcatAssociative(a, head, TrimRight(tail));
    TrailKept(head, tail);
    TrailKept(a + head, tail);
  }

  /** Space before a solid beginning goes, and trimming the end first makes no difference. */
  lemma TrimText(a: string, s: string)
    requires Blank(a) && s != "" && !IsSpace(s[0])
    ensures Trim(a + s) == TrimRight(s) && Trim(TrimRight(a + s)) == TrimRight(s) && TrimRight(s) != "" && TrimRight(s)[0] == s[0]
  {
    TrimEnd(a, s);
    TrimLeftBlank(a, s);
    TrimLeftBlank(a, TrimRight(s));
    TrimRightTwice(s);
  }

  /** The text of a path without the space before its first key. */
  function Tail(parts: seq<Part>): string
    requires parts != []
  {
    parts[0].key + (if |parts| == 1 then parts[0].after else parts[0].after + ("." + PathText(parts[1..])))
  }

  lemma PathIsTail(parts: seq<Part>)
    requires parts != []
    ensures PathText(parts) == parts[0].before + Tail(parts)
  {
  }

  lemma TailBegins(parts: seq<Part>, names: seq<string>, unquote: string -> Option<string>)
    requires SpellsPath(parts, names, unquote)
    ensures Tail(parts) != "" && !IsSpace(Tail(parts)[0]) && Tail(parts)[0] == parts[0].key[0] != '['
  {
    assert SpellsPart(parts[0], names[0], unquote);
    SpelledIsSolid(parts[0].key, names[0], unquote);
  }

  /** After the first key comes the end, or a dot and the trimmed rest of the path. */
  lemma AfterKey(p: Part, name: string, more: string, unquote: string -> Option<string>)
    requires SpellsPart(p, name, unquote)
    ensures TrimRight(p.key + (p.after + ("." + more))) == p.key + (p.after + ("." + TrimRight(more)))
  {
    var core := p.key + p.after + ".";
    assert p.key + (p.after + ("." + more)) == core + more;
    TrailKept(core, more);
    assert p.key + (p.after + ("." + TrimRight(more))) == core + TrimRight(more);
  }

  lemma AfterLast(p: Part, name: string, unquote: string -> Option<string>)
    requires SpellsPart(p, name, unquote)
    ensures TrimRight(p.key + p.after) == p.key
  {
    SpelledIsSolid(p.key, name, unquote);
    TrimRightBlank(p.key, p.after);
  }

  lemma BeforeDot(after: string, more: string)
    requires Blank(after)
    ensures Trim(after + ("." + TrimRight(more))) == "." + TrimRight(more)
  {
    TrimLeftBlank(after, "." + TrimRight(more));
    TrailKept(".", TrimRight(more));
    TrimRightTwice(more);
  }

  lemma {:induction false} TailIsPath(parts: seq<Part>, names: seq<string>, unquote: string -> Option<string>)
    requires SpellsPath(parts, names, unquote)
    ensures TrimRight(Tail(parts)) != "" && KeyParts(TrimRight(Tail(parts)), unquote) == Some(names)
    decreases |parts|
  {
    var p := parts[0];
    assert SpellsPart(p, names[0], unquote);
    if |parts| == 1 {
      AfterLast(p, names[0], unquote);
      SpelledIsKey(p.key, names[0], "", unquote);
      assert p.key + "" == p.key && names == [names[0]];
    } else {
      var rest, ns := parts[1..], names[1..];
      forall i | 0 <= i < |rest| ensures SpellsPart(rest[i], ns[i], unquote) { assert SpellsPart(parts[i + 1], names[i + 1], unquote); }
      TailIsPath(rest, ns, unquote);
      MorePath(p, names[0], rest, ns, unquote);
      assert names == [names[0]] + ns;
    }
  }

  /** One key, a dot and a path that is read make a longer path. */
  lemma MorePath(p: Part, name: string, rest: seq<Part>, names: seq<string>, unquote: string -> Option<string>)
    requires SpellsPart(p, name, unquote) && SpellsPath(rest, names, unquote)
    requires TrimRight(Tail(rest)) != "" && KeyParts(TrimRight(Tail(rest)), unquote) == Some(names)
    ensures var t := TrimRight(p.key + (p.after + ("." + PathText(rest))));
            t != "" && KeyParts(t, unquote) == Some([name] + names)
  {
    var more := PathText(rest);
    AfterKey(p, name, more, unquote);
    BeforeDot(p.after, more);
    var follow := p.after + ("." + TrimRight(more));
    assert follow[0] == '.' || (p.after != "" && follow[0] == p.after[0] && IsSpace(p.after[0]));
    SpelledIsKey(p.key, name, follow, unquote);
    assert ("." + TrimRight(more))[1..] == TrimRight(more);
    PathIsTail(rest);
    TailBegins(rest, names, unquote);
    assert SpellsPart(rest[0], names[0], unquote);
    TrimText(rest[0].before, Tail(rest));
  }

  lemma PathIsRead(parts: seq<Part>, names: seq<string>, unquote: string -> Option<string>)
    requires SpellsPath(parts, names, unquote)
    ensures KeyPath(PathText(parts), unquote) == Some(names)
  {
    assert SpellsPart(parts[0], names[0], unquote);
    PathIsTail(parts);
    TailBegins(parts, names, unquote);
    TrimText(parts[0].before, Tail(parts));
    TailIsPath(parts, names, unquote);
  }

  // ---------------------------------------------------------------- the closing bracket

  /** `text` stands in `s` at `i`. */
  predicate At(s: string, i: nat, text: string) { i + |text| <= |s| && s[i..i + |text|] == text }

  /** The search for the closing bracket passes over the text and is outside quotes after it. */
  ghost predicate Passes(text: string) {
    forall s: string, i: nat | At(s, i, text) :: Unquoted(s, ']', i, Plain, false) == Unquoted(s, ']', i + |text|, Plain, false)
  }

  lemma {:induction false} PlainPasses(text: string)
    requires forall k | 0 <= k < |text| :: text[k] != ']' && !IsQuote(text[k])
    ensures Passes(text)
  {
    forall s: string, i: nat | At(s, i, text)
      ensures Unquoted(s, ']', i, Plain, false) == Unquoted(s, ']', i + |text|, Plain, false)
    {
      if text != "" {
        PlainPasses(text[1..]);
        assert s[i] == text[0] && At(s, i + 1, text[1..]) by { assert s[i..i + |text|][1..] == s[i + 1..i + 1 + |text[1..]|]; }
      }
    }
  }

  lemma {:induction false} InsideQuotes(s: string, i: nat, key: string, k: nat, escaped: bool)
    requires At(s, i, key) && key != "" && IsQuote(key[0]) && 0 < k <= |key| && Closing(key, k, escaped) == |key| - 1
    ensures Unquoted(s, ']', i + k, Multi(key[0]), escaped) == Unquoted(s, ']', i + |key|, Plain, false)
    decreases |key| - k
  {
    if k < |key| {
      assert s[i + k] == s[i..i + |key|][k] == key[k];
      if key[0] == '"' && key[k] == '\\' && !escaped { InsideQuotes(s, i, key, k + 1, true); }
      else if !(key[k] == key[0] && !escaped) { InsideQuotes(s, i, key, k + 1, false); }
    }
  }

  lemma QuotedPasses(key: string)
    requires Quoted(key)
    ensures Passes(key)
  {
    forall s: string, i: nat | At(s, i, key)
      ensures Unquoted(s, ']', i, Plain, false) == Unquoted(s, ']', i + |key|, Plain, false)
    {
      assert s[i] == s[i..i + |key|][0] == key[0];
      InsideQuotes(s, i, key, 1, false);
    }
  }

  lemma BothPass(a: string, b: string)
    requires Passes(a) && Passes(b)
    ensures Passes(a + b)
  {
    forall s: string, i: nat | At(s, i, a + b)
      ensures Unquoted(s, ']', i, Plain, false) == Unquoted(s, ']', i + |a + b|, Plain, false)
    {
      var t := s[i..i + |a + b|];
      assert t[..|a|] == a && t[|a|..] == b && s[i..i + |a|] == t[..|a|] && s[i + |a|..i + |a| + |b|] == t[|a|..];
      assert At(s, i, a) && At(s, i + |a|, b);
    }
  }

  lemma KeyPasses(key: string, name: string, unquote: string -> Option<string>)
    requires Spells(key, name, unquote)
    ensures Passes(key)
  {
    if Bare(key) {
      assert forall k | 0 <= k < |key| :: BareByte(key[k]);
      PlainPasses(key);
    } else {
      QuotedPasses(key);
    }
  }

  lemma BlankPasses(a: string)
    requires Blank(a)
    ensures Passes(a)
  {
    assert forall k | 0 <= k < |a| :: IsSpace(a[k]);
    PlainPasses(a);
  }

  lemma PartPasses(p: Part, name: string, unquote: string -> Option<string>)
    requires SpellsPart(p, name, unquote)
    ensures Passes(PartText(p))
  {
    BlankPasses(p.before);
    KeyPasses(p.key, name, unquote);
    BlankPasses(p.after);
    BothPass(p.before, p.key);
    BothPass(p.before + p.key, p.after);
  }

  lemma {:induction false} PathPasses(parts: seq<Part>, names: seq<string>, unquote: string -> Option<string>)
    requires SpellsPath(parts, names, unquote)
    ensures Passes(PathText(parts))
    decreases |parts|
  {
    PartPasses(parts[0], names[0], unquote);
    if |parts| > 1 {
      var rest, ns := parts[1..], names[1..];
      forall i | 0 <= i < |rest| ensures SpellsPart(rest[i], ns[i], unquote) { assert SpellsPart(parts[i + 1], names[i + 1], unquote); }
      PathPasses(rest, ns, unquote);
      PlainPasses(".");
      BothPass(PartText(parts[0]), ".");
      BothPass(PartText(parts[0]) + ".", PathText(rest));
    }
  }

  // ---------------------------------------------------------------- header lines of every spelling

  /** A header: optional space, the bracketed path, then a trailer. */
  function HeaderLine(a: string, parts: seq<Part>, d: string): string
    requires parts != []
  {
    a + (Core(PathText(parts)) + d)
  }

  function Core(inner: string): string { "[" + inner + "]" }

  /** What may follow the closing bracket. */
  ghost predicate Trailer(d: string) { Blank(d) || exists x, y :: Blank(x) && d == x + "#" + y }

  /** Trimming a header line leaves the bracketed path and the trimmed trailer. */
  lemma HeaderTrimmed(a: string, inner: string, d: string)
    requires Blank(a)
    ensures Trim(a + (Core(inner) + d)) == Core(inner) + TrimRight(d)
  {
    TrimLeftBlank(a, Core(inner) + d);
    assert (Core(inner) + d)[0] == '[';
    TrailKept(Core(inner), d);
  }

  /** What is left of a trailer is nothing or a comment. */
  lemma TrailerTrimmed(d: string)
    requires Trailer(d)
    ensures Trim(TrimRight(d)) == "" || Trim(TrimRight(d))[0] == '#'
  {
    if Blank(d) {
      TrimRightBlank("", d);
      assert "" + d == d;
    } else {
      var x, y :| Blank(x) && d == x + "#" + y;
      CommentTrimmed(x, y);
    }
  }

  lemma CommentTrimmed(x: string, y: string)
    requires Blank(x)
    ensures Trim(TrimRight(x + "#" + y)) != "" && Trim(TrimRight(x + "#" + y))[0] == '#'
  {
    var comment := "#" + y;
    assert x + "#" + y == x + comment;
    TrimText(x, comment);
  }

  /** The closing bracket is the first one outside quotes. */
  lemma CoreCloses(inner: string, e: string)
    requires Passes(inner)
    ensures Unquoted(Core(inner) + e, ']', 0, Plain, false) == 1 + |inner|
  {
    var t := Core(inner) + e;
    assert t[1..1 + |inner|] == inner;
    assert At(t, 1, inner) && t[1 + |inner|] == ']';
    assert t[0] == '[' && Unquoted(t, ']', 0, Plain, false) == Unquoted(t, ']', 1, Plain, false);
    assert Unquoted(t, ']', 1, Plain, false) == Unquoted(t, ']', 1 + |inner|, Plain, false);
  }

  /** MAIN: a table header is recognized for every dotted path, whatever spelling its keys have (bare, single-quoted, or
      double-quoted with any escapes that the language reads as the name), with any space around brackets, dots and keys, and
      with or without a comment. */
  lemma HeaderIsRecognized(a: string, parts: seq<Part>, names: seq<string>, d: string, unquote: string -> Option<string>)
    requires Blank(a) && SpellsPath(parts, names, unquote) && Trailer(d)
    ensures Header(HeaderLine(a, parts, d), names, unquote)
  {
    var inner, e := PathText(parts), TrimRight(d);
    var t := Core(inner) + e;
    HeaderTrimmed(a, inner, d);
    PathPasses(parts, names, unquote);
    CoreCloses(inner, e);
    FirstPlain(parts, names, unquote);
    assert t[1] == inner[0] && t[1 + |inner| + 1..] == e && t[1..1 + |inner|] == inner;
    TrailerTrimmed(d);
    PathIsRead(parts, names, unquote);
  }

  /** The path does not begin with a bracket, so the header is not taken for an array of tables. */
  lemma FirstPlain(parts: seq<Part>, names: seq<string>, unquote: string -> Option<string>)
    requires SpellsPath(parts, names, unquote)
    ensures PathText(parts) != "" && PathText(parts)[0] != '['
  {
    PathIsTail(parts);
    TailBegins(parts, names, unquote);
    assert SpellsPart(parts[0], names[0], unquote);
    if parts[0].before != "" { assert IsSpace(parts[0].before[0]); }
  }

  /** A header of one key. */
  lemma OneKeyHeader(key: string, name: string, unquote: string -> Option<string>)
    requires Spells(key, name, unquote)
    ensures Header("[" + key + "]\n", [name], unquote)
  {
    var parts := [Part("", key, "")];
    assert SpellsPart(parts[0], name, unquote);
    HeaderIsRecognized("", parts, [name], "\n", unquote);
    OneKeyLine(key);
  }

  lemma OneKeyLine(key: string)
    ensures HeaderLine("", [Part("", key, "")], "\n") == "[" + key + "]\n"
  {
    var p := Part("", key, "");
    assert PathText([p]) == PartText(p) == key;
  }

  /** Every name without a single quote has a single-quoted header. */
  lemma LiteralHeaderIsHeader(name: string, unquote: string -> Option<string>)
    requires '\'' !in name
    ensures Header("[" + ("'" + name + "'") + "]\n", [name], unquote)
  {
    LiteralSpells(name, unquote);
    OneKeyHeader("'" + name + "'", name, unquote);
  }

  /** A name without escapes has a double-quoted header as far as the language reads the quoted text as the name. */
  lemma BasicHeaderIsHeader(name: string, unquote: string -> Option<string>)
    requires '"' !in name && '\\' !in name && unquote("\"" + name + "\"") == Some(name)
    ensures Header("[" + ("\"" + name + "\"") + "]\n", [name], unquote)
  {
    PlainCloses("\"" + name + "\"", 1);
    OneKeyHeader("\"" + name + "\"", name, unquote);
  }

  lemma {:induction false} PlainCloses(key: string, i: nat)
    requires 0 < i < |key| && key[0] == key[|key| - 1] == '"' && forall k | i <= k < |key| - 1 :: key[k] != '"' && key[k] != '\\'
    ensures Closing(key, i, false) == |key| - 1
    decreases |key| - i
  {
    if i < |key| - 1 { PlainCloses(key, i + 1); }
  }

  /** The line that the rewrite itself writes. */
  function PlainHeader(name: string): string { "[" + name + "]\n" }

  lemma PlainHeaderIsHeader(name: string, unquote: string -> Option<string>)
    requires Bare(name)
    ensures TableReader([name], unquote).header(PlainHeader(name)) && Whole(PlainHeader(name))
  {
    OneKeyHeader(name, name, unquote);
    forall k | 0 <= k < |PlainHeader(name)| - 1 ensures PlainHeader(name)[k] != '\n' {
      if 0 < k <= |name| { assert PlainHeader(name)[k] == name[k - 1] && BareByte(name[k - 1]); }
    }
  }

  // ---------------------------------------------------------------- every recognized header has such a form

  /** What trimming removes. */
  lemma TrimSplit(s: string) returns (a: string, b: string)
    ensures s == a + Trim(s) + b && Blank(a) && Blank(b)
  {
    a := LeadingSpace(s);
    b := TrailingSpace(TrimLeft(s));
    assert s == a + (Trim(s) + b);
  }

  lemma {:induction false} LeadingSpace(s: string) returns (a: string)
    ensures s == a + TrimLeft(s) && Blank(a)
  {
    a := "";
    if s != "" && IsSpace(s[0]) {
      var rest := LeadingSpace(s[1..]);
      a := [s[0]] + rest;
    }
  }

  lemma {:induction false} TrailingSpace(s: string) returns (b: string)
    ensures s == TrimRight(s) + b && Blank(b)
    decreases |s|
  {
    b := "";
    if s != "" && IsSpace(s[|s| - 1]) {
      var rest := TrailingSpace(s[..|s| - 1]);
      b := rest + [s[|s| - 1]];
      assert s == s[..|s| - 1] + [s[|s| - 1]];
    }
  }

  lemma {:induction false} BlankTrims(s: string)
    requires Blank(s)
    ensures Trim(s) == ""
  {
    TrimLeftBlank(s, "");
    assert s + "" == s;
  }

  /** Trailing space does not matter to trimming. */
  lemma TrimPadded(s: string, b: string)
    requires Blank(b)
    ensures Trim(s + b) == Trim(s)
  {
    var a := LeadingSpace(s);
    var t := TrimLeft(s);
    if t == "" {
      BlankTrims(s);
      BlankTrims(s + b);
    } else {
      FirstSolid(s);
      assert s + b == a + (t + b);
      TrimLeftBlank(a, t + b);
      assert (t + b)[0] == t[0];
      TrimRightBlank(t, b);
    }
  }

  lemma {:induction false} FirstSolid(s: string)
    ensures TrimLeft(s) != "" ==> !IsSpace(TrimLeft(s)[0])
  {
    if s != "" && IsSpace(s[0]) { FirstSolid(s[1..]); }
  }

  /** The closing quote is where it was without what follows. */
  lemma {:induction false} ClosingCut(s: string, n: nat, i: nat, escaped: bool)
    requires 0 < i <= n < |s| && Closing(s, i, escaped) == n
    ensures Closing(s[..n + 1], i, escaped) == n
    decreases n - i
  {
    var key := s[..n + 1];
    assert key[0] == s[0] && key[i] == s[i];
    if s[0] == '"' && s[i] == '\\' && !escaped { ClosingCut(s, n, i + 1, true); }
    else if !(s[i] == s[0] && !escaped) { ClosingCut(s, n, i + 1, false); }
  }

  /** A key that is read is spelled in the text. */
  lemma KeySplit(s: string, unquote: string -> Option<string>) returns (key: string)
    requires s != "" && KeyPart(s, unquote).Some?
    ensures s == key + KeyPart(s, unquote).value.1 && Spells(key, KeyPart(s, unquote).value.0, unquote)
  {
    if IsQuote(s[0]) {
      var i := Closing(s, 1, false);
      key := s[..i + 1];
      ClosingCut(s, i, 1, false);
      assert key[1..|key| - 1] == s[1..i];
    } else {
      key := s[..BareEnd(s, 0)];
    }
  }

  lemma KeyPathSplit(s: string, names: seq<string>, unquote: string -> Option<string>) returns (parts: seq<Part>)
    requires KeyPath(s, unquote) == Some(names)
    ensures SpellsPath(parts, names, unquote) && PathText(parts) == s
    decreases |s|
  {
    var a, b := TrimSplit(s);
    var remaining := Trim(s);
    var key := KeySplit(remaining, unquote);
    var name, rest := KeyPart(remaining, unquote).value.0, KeyPart(remaining, unquote).value.1;
    var c, d := TrimSplit(rest);
    if Trim(rest) == "" {
      parts := LastPart(s, a, b, key, rest, c, d, name, names, unquote);
    } else {
      var more := Trim(rest)[1..] + (d + b);
      MoreKeys(remaining, names, unquote);
      TrimPadded(Trim(rest)[1..], d + b);
      SplitText(a, key, c, Trim(rest), d, b);
      assert s == (a + key + c + ".") + more;
      var tail := KeyPathSplit(more, names[1..], unquote);
      parts := [Part(a, key, c)] + tail;
      Prepended(Part(a, key, c), name, tail, names, unquote);
    }
  }

  /** Nothing but space after the key. */
  lemma LastPart(s: string, a: string, b: string, key: string, rest: string, c: string, d: string, name: string, names: seq<string>, unquote: string -> Option<string>)
    returns (parts: seq<Part>)
    requires Blank(a) && Blank(b) && Blank(c) && Blank(d) && rest == c + "" + d && s == a + (key + rest) + b && Spells(key, name, unquote) && names == [name]
    ensures SpellsPath(parts, names, unquote) && PathText(parts) == s
  {
    assert rest == c + d && Blank(rest + b);
    assert s == a + key + (rest + b);
    parts := [Part(a, key, rest + b)];
    assert SpellsPart(parts[0], names[0], unquote);
  }

  /** What follows a key that is not the last: a dot and the rest of the path. */
  lemma MoreKeys(remaining: string, names: seq<string>, unquote: string -> Option<string>)
    requires remaining != "" && KeyParts(remaining, unquote) == Some(names) && Trim(KeyPart(remaining, unquote).value.1) != ""
    ensures var rest := Trim(KeyPart(remaining, unquote).value.1);
            && rest[0] == '.' && names != [] && names[0] == KeyPart(remaining, unquote).value.0
            && KeyPath(rest[1..], unquote) == Some(names[1..])
  {
  }

  lemma SplitText(a: string, key: string, c: string, t: string, d: string, b: string)
    requires t != "" && t[0] == '.'
    ensures a + (key + (c + t + d)) + b == (a + key + c + ".") + (t[1..] + (d + b))
  {
    assert t == "." + t[1..];
  }

  lemma Prepended(p: Part, name: string, tail: seq<Part>, names: seq<string>, unquote: string -> Option<string>)
    requires SpellsPart(p, name, unquote) && names != [] && names[0] == name && SpellsPath(tail, names[1..], unquote)
    ensures SpellsPath([p] + tail, names, unquote) && PathText([p] + tail) == PartText(p) + "." + PathText(tail)
  {
    var parts := [p] + tail;
    assert parts[1..] == tail;
    forall i | 0 <= i < |parts| ensures SpellsPart(parts[i], names[i], unquote) {
      if i > 0 { assert SpellsPart(tail[i - 1], names[1..][i - 1], unquote); }
    }
  }

  /** Where the closing bracket of a header stands. */
  function BracketEnd(line: string): nat { Unquoted(Trim(line), ']', 0, Plain, false) }

  lemma HeaderInside(line: string, names: seq<string>, unquote: string -> Option<string>)
    requires Header(line, names, unquote)
    ensures var t, n := Trim(line), BracketEnd(line);
            && 0 < n < |t| && KeyPath(t[1..n], unquote) == Some(names)
            && (Trim(t[n + 1..]) == "" || Trim(t[n + 1..])[0] == '#')
            && t == Core(t[1..n]) + t[n + 1..]
  {
    var t, n := Trim(line), BracketEnd(line);
    assert t[0] == '[' && n < |t| && t[n] == ']';
    assert t == [t[0]] + t[1..n] + [t[n]] + t[n + 1..];
  }

  lemma HeaderSplit(line: string, names: seq<string>, unquote: string -> Option<string>) returns (a: string, parts: seq<Part>, d: string)
    requires Header(line, names, unquote)
    ensures Blank(a) && SpellsPath(parts, names, unquote) && Trailer(d) && line == HeaderLine(a, parts, d)
  {
    HeaderInside(line, names, unquote);
    var b;
    a, b := TrimSplit(line);
    var t, n := Trim(line), BracketEnd(line);
    var inner, rest := t[1..n], t[n + 1..];
    parts := KeyPathSplit(inner, names, unquote);
    TrailerSplit(rest, b);
    d := rest + b;
    Bracketed(a, inner, rest, b);
  }

  lemma Bracketed(a: string, inner: string, rest: string, b: string)
    ensures a + (Core(inner) + rest) + b == a + (Core(inner) + (rest + b))
  {
  }

  lemma TrailerSplit(rest: string, b: string)
    requires Blank(b) && (Trim(rest) == "" || Trim(rest)[0] == '#')
    ensures Trailer(rest + b)
  {
    var x, y := TrimSplit(rest);
    if Trim(rest) == "" {
      assert rest == x + y;
    } else {
      var z := Trim(rest)[1..] + y + b;
      assert Trim(rest) == "#" + Trim(rest)[1..];
      assert rest + b == x + "#" + z;
    }
  }

  /** MAIN: a line is recognized as the header of a path if and only if it is that path in brackets, each key spelled in some way,
      with optional space and an optional comment. */
  lemma HeaderExactly(line: string, names: seq<string>, unquote: string -> Option<string>)
    ensures Header(line, names, unquote) <==>
            exists a, parts, d :: Blank(a) && SpellsPath(parts, names, unquote) && Trailer(d) && line == HeaderLine(a, parts, d)
  {
    if Header(line, names, unquote) {
      var a, parts, d := HeaderSplit(line, names, unquote);
    }
    if a, parts, d :| Blank(a) && SpellsPath(parts, names, unquote) && Trailer(d) && line == HeaderLine(a, parts, d) {
      HeaderIsRecognized(a, parts, names, d, unquote);
    }
  }

  /** A line heads one path at most. */
  lemma OnePath(line: string, names: seq<string>, names': seq<string>, unquote: string -> Option<string>)
    requires Header(line, names, unquote) && Header(line, names', unquote)
    ensures names == names'
  {
  }

  /** A spelled header is the header of no other path. */
  lemma SpelledHeadsOnly(a: string, parts: seq<Part>, names: seq<string>, d: string, other: seq<string>, unquote: string -> Option<string>)
    requires Blank(a) && SpellsPath(parts, names, unquote) && Trailer(d)
    ensures Header(HeaderLine(a, parts, d), other, unquote) <==> other == names
  {
    HeaderIsRecognized(a, parts, names, d, unquote);
  }

  /** A line that opens an array of tables is the header of no table. */
  lemma ArrayIsNoHeader(a: string, rest: string, names: seq<string>, unquote: string -> Option<string>)
    requires Blank(a)
    ensures !Header(a + ("[[" + rest), names, unquote)
  {
    var line := a + ("[[" + rest);
    TrimLeftBlank(a, "[[" + rest);
    TrailKept("[[", rest);
    assert Trim(line) == "[[" + TrimRight(rest);
  }

  /** The line's first visible character is an opening bracket. */
  ghost predicate OpensBracket(line: string) { exists a, rest :: Blank(a) && line == a + ("[" + rest) }

  lemma BracketExactly(line: string)
    ensures Bracket(line) <==> OpensBracket(line)
  {
    if Bracket(line) {
      var a, b := TrimSplit(line);
      assert line == a + ("[" + (Trim(line)[1..] + b));
    }
    if a, rest :| Blank(a) && line == a + ("[" + rest) {
      TrimLeftBlank(a, "[" + rest);
      TrailKept("[", rest);
    }
  }
}
