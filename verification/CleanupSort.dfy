/** The external merge sort of blocked cleanup paths: framed runs in an anonymous temporary file,
    pairwise merge passes, and the proof that what is emitted is the sorted input. */
module CleanupSort {
  import opened Basics
  import opened Sorting
  import TextOrder

  /** A path or a file's bytes; a byte is a character below 256. */
  type Bytes = string

  // ---------------------------------------------------------------- lines

  /** Escapes that keep an encoded path on one line and between its quotes. */
  function EscapeChar(c: char): Bytes {
    if c == '\n' then ['\\', 'n'] else if c == '\\' || c == '"' then ['\\', c] else [c]
  }

  function Escape(p: Bytes): Bytes { if p == "" then "" else EscapeChar(p[0]) + Escape(p[1..]) }

  function Line(p: Bytes): Bytes { ['"'] + Escape(p) + ['"', '\n'] }

  function Unescape(s: Bytes): Option<Bytes> {
    if s == "" then Some("")
    else if s[0] == '\\' then
      if |s| < 2 then None
      else
        var rest := Unescape(s[2..]);
        if rest.None? then None
        else if s[1] == 'n' then Some(['\n'] + rest.value)
        else if s[1] == '\\' || s[1] == '"' then Some([s[1]] + rest.value)
        else None
    else
      var rest := Unescape(s[1..]);
      if rest.None? then None else Some([s[0]] + rest.value)
  }

  lemma {:induction false} UnescapeEscape(p: Bytes)
    ensures Unescape(Escape(p)) == Some(p) && '\n' !in Escape(p)
  {
    if p != "" {
      UnescapeEscape(p[1..]);
      UnescapeOne(p[0], Escape(p[1..]));
      assert [p[0]] + p[1..] == p;
    }
  }

  lemma UnescapeOne(c: char, t: Bytes)
    requires Unescape(t).Some?
    ensures Unescape(EscapeChar(c) + t) == Some([c] + Unescape(t).value)
  {
    var e := EscapeChar(c);
    assert (e + t)[|e|..] == t;
  }

  /** The position of the first newline, or the length when there is none. */
  function NewLine(s: Bytes): nat { if s == "" || s[0] == '\n' then 0 else 1 + NewLine(s[1..]) }

  lemma {:induction false} NewLineAfter(a: Bytes, b: Bytes)
    requires '\n' !in a
    ensures NewLine(a + ['\n'] + b) == |a|
  {
    if a != "" {
      assert (a + ['\n'] + b)[1..] == a[1..] + ['\n'] + b;
      NewLineAfter(a[1..], b);
    }
  }

  datatype Read = End | Path(path: Bytes, rest: Bytes) | Corrupt

  /** One step of a run's reader. */
  function ReadLine(s: Bytes): Read {
    if s == "" then End
    else
      var n := NewLine(s);
      if n >= |s| || n < 2 || s[0] != '"' || s[n - 1] != '"' then Corrupt
      else
        var p := Unescape(s[1..n - 1]);
        if p.None? then Corrupt else Path(p.value, s[n + 1..])
  }

  function Body(paths: seq<Bytes>): Bytes { if paths == [] then "" else Line(paths[0]) + Body(paths[1..]) }

  /** Reading a run's body yields its paths one by one. */
  lemma ReadBody(paths: seq<Bytes>)
    ensures ReadLine(Body(paths)) == if paths == [] then End else Path(paths[0], Body(paths[1..]))
  {
    if paths != [] {
      var e, rest := Escape(paths[0]), Body(paths[1..]);
      UnescapeEscape(paths[0]);
      LineShape(e, rest);
      ReadQuoted(e, rest);
    }
  }

  lemma LineShape(e: Bytes, rest: Bytes)
    ensures ['"'] + e + ['"', '\n'] + rest == ['"'] + e + ['"'] + ['\n'] + rest
  {
  }

  lemma ReadQuoted(e: Bytes, rest: Bytes)
    requires '\n' !in e && Unescape(e).Some?
    ensures ReadLine(['"'] + e + ['"'] + ['\n'] + rest) == Path(Unescape(e).value, rest)
  {
    var q := ['"'] + e + ['"'];
    NewLineAfter(q, rest);
    assert (q + ['\n'] + rest)[1..|q| - 1] == e;
    assert (q + ['\n'] + rest)[|q| + 1..] == rest;
  }

  // ---------------------------------------------------------------- framed runs

  const HEADER: nat := 8

  function Power256(n: nat): nat { if n == 0 then 1 else 256 * Power256(n - 1) }

  /** Little-endian encoding in `width` bytes. */
  function Encode(n: nat, width: nat): (r: Bytes)
    ensures |r| == width
  {
    if width == 0 then "" else [(n % 256) as char] + Encode(n / 256, width - 1)
  }

  function Decode(s: Bytes): nat { if s == "" then 0 else s[0] as nat + 256 * Decode(s[1..]) }

  lemma {:induction false} DecodeEncode(n: nat, width: nat)
    requires n < Power256(width)
    ensures Decode(Encode(n, width)) == n
  {
    if width > 0 {
      DecodeEncode(n / 256, width - 1);
      assert Encode(n, width)[1..] == Encode(n / 256, width - 1);
    }
  }

  /** A run as `writeSortRun` leaves it: its length, then its lines. */
  function Run(paths: seq<Bytes>): Bytes { Encode(|Body(paths)|, HEADER) + Body(paths) }

  ghost function FileOf(runs: seq<seq<Bytes>>): Bytes {
    if runs == [] then "" else Run(runs[0]) + FileOf(runs[1..])
  }

  /** The largest length a run may have: Go's maximum file offset. */
  const MAX_LENGTH: nat := 0x7fff_ffff_ffff_ffff

  lemma HeaderFits()
    ensures MAX_LENGTH < Power256(HEADER)
  {
    assert Power256(2) == 65536;
    assert Power256(4) == 65536 * 65536 by { assert Power256(4) == 256 * Power256(3) == 256 * 256 * Power256(2); }
    assert Power256(6) == 256 * Power256(5) == 256 * 256 * Power256(4);
    assert Power256(8) == 256 * Power256(7) == 256 * 256 * Power256(6);
  }

  /** Opens the run at `offset`; fails on a short header or a length beyond the file's offsets. */
  function OpenRun(file: Bytes, offset: nat): Option<(Bytes, nat)> {
    if offset + HEADER > |file| then None
    else
      var size := Decode(file[offset..offset + HEADER]);
      if size > MAX_LENGTH || offset > MAX_LENGTH - HEADER || size > MAX_LENGTH - offset - HEADER then None
      else
        var start := offset + HEADER;
        var end := if start + size <= |file| then start + size else |file|;
        Some((file[start..end], start + size))
  }

  /** Framed runs are read back exactly. */
  lemma OpenWritten(before: Bytes, paths: seq<Bytes>, after: Bytes)
    requires |before| + |Run(paths)| <= MAX_LENGTH
    ensures OpenRun(before + Run(paths) + after, |before|) == Some((Body(paths), |before| + |Run(paths)|))
  {
    var file, body := before + Run(paths) + after, Body(paths);
    HeaderFits();
    DecodeEncode(|body|, HEADER);
    var header := Encode(|body|, HEADER);
    assert file == before + header + (body + after);
    Middle(before, header, body + after);
    assert file == (before + header) + body + after;
    Middle(before + header, body, after);
  }

  /** A run is eight bytes of its length, least significant first, and then its lines. */
  lemma RunLayout(paths: seq<Bytes>)
    requires |Body(paths)| <= MAX_LENGTH
    ensures |Run(paths)| == 8 + |Body(paths)| && Run(paths)[8..] == Body(paths) && Decode(Run(paths)[..8]) == |Body(paths)|
  {
    HeaderFits();
    DecodeEncode(|Body(paths)|, HEADER);
    assert Run(paths)[..8] == Encode(|Body(paths)|, HEADER);
  }

  /** Opening fails exactly on a header cut short or on a length beyond the largest file offset; a run cut short by the end of the
      file is read as far as it goes, and the offset of the next run does not depend on that. */
  lemma OpenExactly(file: Bytes, offset: nat)
    ensures OpenRun(file, offset).None? <==>
              |file| < offset + 8 || offset + 8 + Decode(file[offset..offset + 8]) > 0x7fff_ffff_ffff_ffff
    ensures OpenRun(file, offset).Some? ==>
              var start := offset + 8;
              var next := start + Decode(file[offset..start]);
              OpenRun(file, offset).value.1 == next && OpenRun(file, offset).value.0 == file[start..if next < |file| then next else |file|]
  {
  }

  lemma Middle(a: Bytes, b: Bytes, c: Bytes)
    ensures (a + b + c)[|a|..|a| + |b|] == b
  {
  }

  method WriteSortRun(file: Bytes, paths: seq<Bytes>) returns (written: Bytes)
    ensures written == file + Run(paths)
  {
    var start := |file|;
    var header := seq(HEADER, _ => 0 as char);
    written := file + header;
    var size := 0;
    for n := 0 to |paths|
      invariant written == file + header + Body(paths[..n]) && size == |Body(paths[..n])|
    {
      var data := Line(paths[n]);
      BodyAppend(paths[..n], paths[n]);
      assert paths[..n + 1] == paths[..n] + [paths[n]];
      written := written + data;
      size := size + |data|;
    }
    assert paths[..|paths|] == paths;
    written := written[..start] + Encode(size, HEADER) + written[start + HEADER..];
  }

  lemma {:induction false} BodyAppend(paths: seq<Bytes>, p: Bytes)
    ensures Body(paths + [p]) == Body(paths) + Line(p)
  {
    if paths == [] {
      assert Body([p]) == Line(p) + Body([p][1..]);
    } else {
      BodyAppend(paths[1..], p);
      assert (paths + [p])[1..] == paths[1..] + [p];
      ConcatAssociative(Line(paths[0]), Body(paths[1..]), Line(p));
    }
  }

  // ---------------------------------------------------------------- merging two runs

  function Merged(before: (Bytes, Bytes) -> bool, left: seq<Bytes>, right: seq<Bytes>): seq<Bytes>
    decreases |left| + |right|
  {
    if left == [] then right
    else if right == [] then left
    else if !before(right[0], left[0]) then [left[0]] + Merged(before, left[1..], right)
    else [right[0]] + Merged(before, left, right[1..])
  }

  lemma {:induction false} MergedPermutes(before: (Bytes, Bytes) -> bool, left: seq<Bytes>, right: seq<Bytes>)
    ensures multiset(Merged(before, left, right)) == multiset(left) + multiset(right)
    decreases |left| + |right|
  {
    if left != [] && right != [] {
      if !before(right[0], left[0]) {
        MergedPermutes(before, left[1..], right);
        HeadCounts(left);
      } else {
        MergedPermutes(before, left, right[1..]);
        HeadCounts(right);
      }
    }
  }

  lemma HeadCounts(s: seq<Bytes>)
    requires s != []
    ensures multiset(s) == multiset{s[0]} + multiset(s[1..])
  {
    assert s == [s[0]] + s[1..];
  }

  lemma {:induction false} MergedSorted(before: (Bytes, Bytes) -> bool, left: seq<Bytes>, right: seq<Bytes>)
    requires StrictTotal(before) && Sorted(before, left) && Sorted(before, right)
    ensures Sorted(before, Merged(before, left, right))
    decreases |left| + |right|
  {
    if left != [] && right != [] {
      if !before(right[0], left[0]) {
        MergedSorted(before, left[1..], right);
        PrependSorted(before, left[0], left[1..], right);
      } else {
        MergedSorted(before, left, right[1..]);
        PrependSorted(before, right[0], left, right[1..]);
      }
    }
  }

  lemma PrependSorted(before: (Bytes, Bytes) -> bool, x: Bytes, left: seq<Bytes>, right: seq<Bytes>)
    requires StrictTotal(before) && Sorted(before, Merged(before, left, right))
    requires forall y | y in left || y in right :: !before(y, x)
    ensures Sorted(before, [x] + Merged(before, left, right))
  {
    var m := Merged(before, left, right);
    MergedPermutes(before, left, right);
    forall y | y in m ensures !before(y, x) {
      assert y in multiset(m);
      assert y in multiset(left) || y in multiset(right);
    }
  }

  lemma MergedUnfold(before: (Bytes, Bytes) -> bool, left: seq<Bytes>, right: seq<Bytes>)
    requires left != [] || right != []
    ensures if left != [] && (right == [] || !before(right[0], left[0]))
            then Merged(before, left, right) == [left[0]] + Merged(before, left[1..], right)
            else right != [] && Merged(before, left, right) == [right[0]] + Merged(before, left, right[1..])
  {
    if right == [] { assert left == [left[0]] + left[1..]; }
    if left == [] { assert right == [right[0]] + right[1..]; }
  }

  /** Reads ahead in a run: the next path, whether there is one, and the unread bytes. */
  method NextPath(rest: Bytes, ghost paths: seq<Bytes>) returns (path: Bytes, ok: bool, rest': Bytes)
    requires rest == Body(paths)
    ensures ok <==> paths != []
    ensures ok ==> path == paths[0] && rest' == Body(paths[1..])
  {
    ReadBody(paths);
    match ReadLine(rest) {
      case End => return "", false, "";
      case Path(p, tail) => return p, true, tail;
      case Corrupt => assert false;
    }
  }

  /** Emitting the smaller head keeps what is emitted followed by what is left. */
  lemma EmitHead(before: (Bytes, Bytes) -> bool, out: seq<Bytes>, l: seq<Bytes>, r: seq<Bytes>, all: seq<Bytes>)
    requires (l != [] || r != []) && out + Merged(before, l, r) == all
    ensures if l != [] && (r == [] || !before(r[0], l[0]))
            then out + [l[0]] + Merged(before, l[1..], r) == all
            else r != [] && out + [r[0]] + Merged(before, l, r[1..]) == all
  {
    MergedUnfold(before, l, r);
    if l != [] && (r == [] || !before(r[0], l[0])) {
      ConcatAssociative(out, [l[0]], Merged(before, l[1..], r));
    } else {
      ConcatAssociative(out, [r[0]], Merged(before, l, r[1..]));
    }
  }

  /** Streams the merge of two open runs into `file` as one framed run, a path at a time. */
  method MergeSortRuns(before: (Bytes, Bytes) -> bool, file: Bytes, left: Bytes, right: Bytes, ghost ls: seq<Bytes>, ghost rs: seq<Bytes>)
    returns (written: Bytes)
    requires left == Body(ls) && right == Body(rs)
    ensures written == file + Run(Merged(before, ls, rs))
  {
    ghost var merged: seq<Bytes> := [];
    ghost var l, r := ls, rs;
    var lines := "";
    var leftPath, leftOk, leftRest := NextPath(left, l);
    var rightPath, rightOk, rightRest := NextPath(right, r);
    while leftOk || rightOk
      invariant (leftOk <==> l != []) && (rightOk <==> r != [])
      invariant leftOk ==> leftPath == l[0] && leftRest == Body(l[1..])
      invariant rightOk ==> rightPath == r[0] && rightRest == Body(r[1..])
      invariant lines == Body(merged) && merged + Merged(before, l, r) == Merged(before, ls, rs)
      decreases |l| + |r|
    {
      EmitHead(before, merged, l, r, Merged(before, ls, rs));
      if leftOk && (!rightOk || !before(rightPath, leftPath)) {
        BodyAppend(merged, leftPath);
        lines, merged, l := lines + Line(leftPath), merged + [leftPath], l[1..];
        leftPath, leftOk, leftRest := NextPath(leftRest, l);
      } else {
        BodyAppend(merged, rightPath);
        lines, merged, r := lines + Line(rightPath), merged + [rightPath], r[1..];
        rightPath, rightOk, rightRest := NextPath(rightRest, r);
      }
    }
    assert merged + Merged(before, [], []) == merged;
    written := file + (Encode(|lines|, HEADER) + lines);
  }

  // ---------------------------------------------------------------- merge passes

  ghost function PairUp(before: (Bytes, Bytes) -> bool, runs: seq<seq<Bytes>>): (r: seq<seq<Bytes>>)
    ensures |r| == (|runs| + 1) / 2
  {
    if runs == [] then []
    else if |runs| == 1 then [Merged(before, runs[0], [])]
    else [Merged(before, runs[0], runs[1])] + PairUp(before, runs[2..])
  }

  ghost function Bag(runs: seq<seq<Bytes>>): multiset<Bytes> {
    if runs == [] then multiset{} else multiset(runs[0]) + Bag(runs[1..])
  }

  /** Bytes that paths can occupy on disk, each counted with a header of its own. */
  ghost function Weight(paths: seq<Bytes>): nat {
    if paths == [] then 0 else HEADER + |Line(paths[0])| + Weight(paths[1..])
  }

  ghost function WeightOf(runs: seq<seq<Bytes>>): nat {
    if runs == [] then 0 else Weight(runs[0]) + WeightOf(runs[1..])
  }

  lemma {:induction false} WeightMerged(before: (Bytes, Bytes) -> bool, left: seq<Bytes>, right: seq<Bytes>)
    ensures Weight(Merged(before, left, right)) == Weight(left) + Weight(right)
    decreases |left| + |right|
  {
    if left != [] && right != [] {
      if !before(right[0], left[0]) { WeightMerged(before, left[1..], right); } else { WeightMerged(before, left, right[1..]); }
    }
  }

  lemma {:induction false} PairUpKeeps(before: (Bytes, Bytes) -> bool, runs: seq<seq<Bytes>>)
    ensures Bag(PairUp(before, runs)) == Bag(runs) && WeightOf(PairUp(before, runs)) == WeightOf(runs)
    decreases |runs|
  {
    if |runs| == 1 {
      MergedPermutes(before, runs[0], []);
      WeightMerged(before, runs[0], []);
      assert runs[1..] == [];
    } else if |runs| > 1 {
      PairUpKeeps(before, runs[2..]);
      MergedPermutes(before, runs[0], runs[1]);
      WeightMerged(before, runs[0], runs[1]);
      assert runs[1..][1..] == runs[2..];
    }
  }

  ghost predicate GoodRuns(before: (Bytes, Bytes) -> bool, runs: seq<seq<Bytes>>) {
    forall i | 0 <= i < |runs| :: Sorted(before, runs[i]) && runs[i] != []
  }

  lemma {:induction false} PairUpSorted(before: (Bytes, Bytes) -> bool, runs: seq<seq<Bytes>>)
    requires StrictTotal(before) && GoodRuns(before, runs)
    ensures GoodRuns(before, PairUp(before, runs))
    decreases |runs|
  {
    if |runs| == 1 {
      MergedSorted(before, runs[0], []);
      MergedUnfold(before, runs[0], []);
    } else if |runs| > 1 {
      PairUpSorted(before, runs[2..]);
      MergedSorted(before, runs[0], runs[1]);
      MergedUnfold(before, runs[0], runs[1]);
    }
  }

  lemma {:induction false} BodyLength(paths: seq<Bytes>)
    ensures |Body(paths)| + HEADER * |paths| == Weight(paths)
  {
    if paths != [] { BodyLength(paths[1..]); }
  }

  lemma {:induction false} FileLength(runs: seq<seq<Bytes>>)
    requires forall i | 0 <= i < |runs| :: runs[i] != []
    ensures |FileOf(runs)| <= WeightOf(runs)
  {
    if runs != [] {
      FileLength(runs[1..]);
      BodyLength(runs[0]);
    }
  }

  lemma {:induction false} FileAppend(runs: seq<seq<Bytes>>, run: seq<Bytes>)
    ensures FileOf(runs + [run]) == FileOf(runs) + Run(run)
  {
    if runs == [] {
      assert ([run])[1..] == [] && [] + [run] == [run];
    } else {
      FileAppend(runs[1..], run);
      assert (runs + [run])[1..] == runs[1..] + [run];
      FileUnfold(runs + [run]);
      FileUnfold(runs);
      ConcatAssociative(Run(runs[0]), FileOf(runs[1..]), Run(run));
    }
  }

  lemma {:induction false} FileSplit(a: seq<seq<Bytes>>, b: seq<seq<Bytes>>)
    ensures FileOf(a + b) == FileOf(a) + FileOf(b)
  {
    if a == [] {
      assert a + b == b;
    } else {
      FileSplit(a[1..], b);
      assert (a + b)[1..] == a[1..] + b;
      FileUnfold(a + b);
      FileUnfold(a);
      ConcatAssociative(Run(a[0]), FileOf(a[1..]), FileOf(b));
    }
  }

  lemma FileUnfold(runs: seq<seq<Bytes>>)
    requires runs != []
    ensures FileOf(runs) == Run(runs[0]) + FileOf(runs[1..])
  {
  }

  /** The run at position `i` opens to its body, and the next offset is where run `i + 1` starts. */
  lemma OpenNth(runs: seq<seq<Bytes>>, i: nat)
    requires i < |runs| && |FileOf(runs)| <= MAX_LENGTH
    ensures OpenRun(FileOf(runs), |FileOf(runs[..i])|) == Some((Body(runs[i]), |FileOf(runs[..i + 1])|))
  {
    FileAround(runs, i);
    FilePrefix(runs, i);
    OpenWritten(FileOf(runs[..i]), runs[i], FileOf(runs[i..][1..]));
  }

  lemma FileAround(runs: seq<seq<Bytes>>, i: nat)
    requires i < |runs|
    ensures FileOf(runs) == FileOf(runs[..i]) + Run(runs[i]) + FileOf(runs[i..][1..])
  {
    assert runs == runs[..i] + runs[i..];
    FileSplit(runs[..i], runs[i..]);
    FileUnfold(runs[i..]);
    ConcatAssociative(FileOf(runs[..i]), Run(runs[i]), FileOf(runs[i..][1..]));
  }

  lemma FilePrefix(runs: seq<seq<Bytes>>, i: nat)
    requires i < |runs|
    ensures FileOf(runs[..i + 1]) == FileOf(runs[..i]) + Run(runs[i])
  {
    assert runs[..i + 1] == runs[..i] + [runs[i]];
    FileAppend(runs[..i], runs[i]);
  }

  lemma {:induction false} PairUpPrefix(before: (Bytes, Bytes) -> bool, runs: seq<seq<Bytes>>, i: nat)
    requires i <= |runs| && i % 2 == 0
    ensures PairUp(before, runs) == PairUp(before, runs[..i]) + PairUp(before, runs[i..])
    decreases i
  {
    if i > 0 {
      PairUpPrefix(before, runs[2..], i - 2);
      assert runs[..i][2..] == runs[2..][..i - 2] && runs[i..] == runs[2..][i - 2..];
      assert runs[..i][0] == runs[0] && runs[..i][1] == runs[1];
    } else {
      assert runs[..0] == [] && runs[0..] == runs;
    }
  }

  method MergeSortPass(before: (Bytes, Bytes) -> bool, input: Bytes, runs: nat, ghost list: seq<seq<Bytes>>) returns (output: Bytes)
    requires runs == |list| && input == FileOf(list) && |FileOf(list)| <= MAX_LENGTH
    ensures output == FileOf(PairUp(before, list))
  {
    output := "";
    var offset, index := 0, 0;
    while index < runs
      invariant index % 2 == 0 && index <= runs + 1
      invariant offset == |FileOf(list[..if index < runs then index else runs])|
      invariant output == FileOf(PairUp(before, list[..if index < runs then index else runs]))
    {
      OpenNth(list, index);
      var run := OpenRun(input, offset).value;
      var left, right := run.0, "";
      offset := run.1;
      ghost var r: seq<Bytes> := [];
      if index + 1 < runs {
        OpenNth(list, index + 1);
        run := OpenRun(input, offset).value;
        right, offset := run.0, run.1;
        r := list[index + 1];
      }
      PairStep(before, list, index, r);
      output := MergeSortRuns(before, output, left, right, list[index], r);
      index := index + 2;
    }
    assert list[..runs] == list;
  }

  /** One more pair appends one merged run. */
  lemma PairStep(before: (Bytes, Bytes) -> bool, list: seq<seq<Bytes>>, index: nat, r: seq<Bytes>)
    requires index < |list| && index % 2 == 0 && r == if index + 1 < |list| then list[index + 1] else []
    ensures var next := if index + 2 < |list| then index + 2 else |list|;
            FileOf(PairUp(before, list[..next])) == FileOf(PairUp(before, list[..index])) + Run(Merged(before, list[index], r))
  {
    var next := if index + 2 < |list| then index + 2 else |list|;
    var prefix := list[..next];
    PairUpPrefix(before, prefix, index);
    assert prefix[..index] == list[..index];
    var pair := prefix[index..];
    assert pair == if index + 1 < |list| then [list[index], list[index + 1]] else [list[index]];
    assert |pair| == 2 ==> pair[2..] == [];
    assert PairUp(before, pair) == [Merged(before, list[index], r)];
    FileAppend(PairUp(before, list[..index]), Merged(before, list[index], r));
  }

  // ---------------------------------------------------------------- the sorter

  /** `compareStorageFiles` on paths, for any reading of bucket identities from paths. */
  function PathOrder(id: Bytes -> string): (Bytes, Bytes) -> bool {
    (a: Bytes, b: Bytes) => TextOrder.Less(id(a), id(b)) || (id(a) == id(b) && TextOrder.Less(a, b))
  }

  lemma PathOrderTransitive(id: Bytes -> string, a: Bytes, b: Bytes, c: Bytes)
    requires PathOrder(id)(a, b) && PathOrder(id)(b, c)
    ensures PathOrder(id)(a, c)
  {
    TextOrder.LessIrreflexive(id(b));
    if id(a) == id(b) == id(c) {
      TextOrder.LessTransitive(a, b, c);
    } else if id(a) != id(b) && id(b) != id(c) {
      TextOrder.LessTransitive(id(a), id(b), id(c));
    }
  }

  lemma PathOrderTotal(id: Bytes -> string, a: Bytes, b: Bytes)
    ensures !PathOrder(id)(a, a) && (a != b ==> PathOrder(id)(a, b) || PathOrder(id)(b, a))
  {
    TextOrder.LessIrreflexive(a);
    TextOrder.LessIrreflexive(id(a));
    if a != b { TextOrder.LessTotal(a, b); }
    if id(a) != id(b) { TextOrder.LessTotal(id(a), id(b)); }
  }

  lemma PathOrderIsStrictTotal(id: Bytes -> string)
    ensures StrictTotal(PathOrder(id))
  {
    var before := PathOrder(id);
    forall a, b ensures !before(a, a) && (a != b ==> before(a, b) || before(b, a)) { PathOrderTotal(id, a, b); }
    forall a, b, c | before(a, b) && before(b, c) ensures before(a, c) { PathOrderTransitive(id, a, b, c); }
  }

  lemma {:induction false} WeightAppend(paths: seq<Bytes>, p: Bytes)
    ensures Weight(paths + [p]) == Weight(paths) + HEADER + |Line(p)|
  {
    if paths == [] {
      assert [] + [p] == [p] && [p][1..] == [];
    } else {
      WeightAppend(paths[1..], p);
      assert (paths + [p])[1..] == paths[1..] + [p];
    }
  }

  lemma {:induction false} WeightInsert(before: (Bytes, Bytes) -> bool, p: Bytes, paths: seq<Bytes>)
    ensures Weight(Insert(before, p, paths)) == Weight(paths) + HEADER + |Line(p)|
  {
    if paths != [] && before(paths[0], p) { WeightInsert(before, p, paths[1..]); }
  }

  lemma {:induction false} WeightSort(before: (Bytes, Bytes) -> bool, paths: seq<Bytes>)
    ensures Weight(Sort(before, paths)) == Weight(paths)
  {
    if paths != [] {
      WeightSort(before, paths[1..]);
      WeightInsert(before, paths[0], Sort(before, paths[1..]));
    }
  }

  lemma {:induction false} RunsAppend(runs: seq<seq<Bytes>>, run: seq<Bytes>)
    ensures Bag(runs + [run]) == Bag(runs) + multiset(run) && WeightOf(runs + [run]) == WeightOf(runs) + Weight(run)
  {
    if runs == [] {
      assert [] + [run] == [run] && [run][1..] == [];
    } else {
      RunsAppend(runs[1..], run);
      assert (runs + [run])[1..] == runs[1..] + [run];
    }
  }

  const BUFFER_LIMIT: nat := 100

  /** Sorted runs and a buffer together hold the added paths, each as often as it was added. */
  ghost predicate Holds(before: (Bytes, Bytes) -> bool, list: seq<seq<Bytes>>, files: seq<Bytes>, added: seq<Bytes>) {
    && StrictTotal(before) && GoodRuns(before, list)
    && Bag(list) + multiset(files) == multiset(added)
    && WeightOf(list) + Weight(files) == Weight(added) && Weight(added) <= MAX_LENGTH
  }

  lemma HoldsMore(before: (Bytes, Bytes) -> bool, list: seq<seq<Bytes>>, files: seq<Bytes>, added: seq<Bytes>, path: Bytes)
    requires Holds(before, list, files, added) && Weight(added) + HEADER + |Line(path)| <= MAX_LENGTH
    ensures Holds(before, list, files + [path], added + [path])
  {
    WeightAppend(files, path);
    WeightAppend(added, path);
  }

  lemma HoldsPaired(before: (Bytes, Bytes) -> bool, list: seq<seq<Bytes>>, added: seq<Bytes>)
    requires Holds(before, list, [], added)
    ensures Holds(before, PairUp(before, list), [], added) && |FileOf(list)| <= MAX_LENGTH
  {
    FileLength(list);
    PairUpKeeps(before, list);
    PairUpSorted(before, list);
  }

  /** A sorted buffer as one more run. */
  lemma RunAdded(before: (Bytes, Bytes) -> bool, list: seq<seq<Bytes>>, files: seq<Bytes>, added: seq<Bytes>)
    requires Holds(before, list, files, added) && files != []
    ensures FileOf(list + [Sort(before, files)]) == FileOf(list) + Run(Sort(before, files))
    ensures Holds(before, list + [Sort(before, files)], [], added)
  {
    var run := Sort(before, files);
    SortSorted(before, files);
    SortPermutes(before, files);
    assert |multiset(run)| == |run| && |multiset(files)| == |files|;
    WeightSort(before, files);
    RunsAppend(list, run);
    FileAppend(list, run);
  }

  ghost predicate Kept(
    before: (Bytes, Bytes) -> bool, files: seq<Bytes>, input: Option<Bytes>, runs: nat, list: seq<seq<Bytes>>, added: seq<Bytes>)
  {
    && |files| <= 100 && runs == |list|
    && (input.None? ==> list == []) && (input.Some? ==> input.value == FileOf(list) && list != [])
    && Holds(before, list, files, added)
  }

  /** Merging the runs in pairs keeps everything. */
  lemma PairedKeeps(before: (Bytes, Bytes) -> bool, input: Option<Bytes>, runs: nat, list: seq<seq<Bytes>>, added: seq<Bytes>)
    requires Kept(before, [], input, runs, list, added) && input.Some?
    ensures |FileOf(list)| <= MAX_LENGTH
    ensures Kept(before, [], Some(FileOf(PairUp(before, list))), (runs + 1) / 2, PairUp(before, list), added)
  {
    HoldsPaired(before, list, added);
  }

  class CleanupSorter {
    const before: (Bytes, Bytes) -> bool
    var files: seq<Bytes>
    var input: Option<Bytes>
    var runs: nat
    ghost var list: seq<seq<Bytes>>
    ghost var added: seq<Bytes>

    /** At most 100 paths are in memory; the rest are sorted framed runs; nothing is lost. */
    ghost predicate Valid()
      reads this
    {
      Kept(before, files, input, runs, list, added)
    }

    constructor (before: (Bytes, Bytes) -> bool)
      requires StrictTotal(before)
      ensures Valid() && added == [] && this.before == before
    {
      this.before, files, input, runs, list, added := before, [], None, 0, [], [];
    }

    method Add(path: Bytes)
      requires Valid() && Weight(added) + HEADER + |Line(path)| <= MAX_LENGTH
      modifies this
      ensures Valid() && added == old(added) + [path]
    {
      if |files| == BUFFER_LIMIT { Spill(); }
      HoldsMore(before, list, files, added, path);
      files, added := files + [path], added + [path];
    }

    method Spill()
      requires Valid() && files != []
      modifies this
      ensures Valid() && added == old(added) && files == [] && input.Some? && |list| == old(|list|) + 1
    {
      Flush();
    }

    /** Sorts the buffer and writes it as one more run. */
    method Flush()
      requires Valid() && (input.Some? || files != [])
      modifies this
      ensures Valid() && added == old(added) && files == [] && input.Some?
      ensures |list| == old(|list|) + if old(files) == [] then 0 else 1
    {
      if files == [] { return; }
      var run := Sort(before, files);
      RunAdded(before, list, files, added);
      var data := WriteSortRun(if input.Some? then input.value else "", run);
      input, runs, list, files := Some(data), runs + 1, list + [run], [];
    }

    /** One pass halves the number of runs, rounding up. */
    method MergeOnce()
      requires Valid() && input.Some? && files == []
      modifies this
      ensures Valid() && added == old(added) && files == [] && input.Some? && runs == (old(runs) + 1) / 2
    {
      PairedKeeps(before, input, runs, list, added);
      var output := MergeSortPass(before, input.value, runs, list);
      input, runs, list := Some(output), (runs + 1) / 2, PairUp(before, list);
    }

    method MergeAll()
      requires Valid() && input.Some? && files == []
      modifies this
      ensures Valid() && added == old(added) && files == [] && input.Some? && runs == 1
    {
      while runs > 1
        invariant Valid() && added == old(added) && files == [] && input.Some?
        decreases runs
      {
        MergeOnce();
      }
    }

    /** MAIN: what is emitted is the sorted arrangement of everything added. */
    method Finish() returns (emitted: seq<Bytes>)
      requires Valid()
      modifies this
      ensures emitted == Sort(before, added) && added == old(added)
    {
      if input.None? {
        emitted := Sort(before, files);
        SortSorted(before, files);
        SortPermutes(before, files);
        SortIsUnique(before, added, emitted);
        return;
      }
      Flush();
      MergeAll();
      OneRun(before, list, added);
      FileLength(list);
      OpenNth(list, 0);
      assert list[..0] == [];
      emitted := Emit(OpenRun(input.value, 0).value.0, list[0]);
    }
  }

  lemma OneRun(before: (Bytes, Bytes) -> bool, list: seq<seq<Bytes>>, added: seq<Bytes>)
    requires StrictTotal(before) && |list| == 1 && GoodRuns(before, list) && Bag(list) == multiset(added)
    ensures list[0] == Sort(before, added)
  {
    assert Bag(list) == multiset(list[0]) + Bag(list[1..]);
    SortIsUnique(before, added, list[0]);
  }

  /** Reads the path at position `n`. */
  method NextAt(rest: Bytes, ghost paths: seq<Bytes>, ghost n: nat) returns (path: Bytes, ok: bool, rest': Bytes)
    requires n <= |paths| && rest == Body(paths[n..])
    ensures ok <==> n < |paths|
    ensures ok ==> path == paths[n] && rest' == Body(paths[n + 1..])
  {
    path, ok, rest' := NextPath(rest, paths[n..]);
    if ok { assert paths[n..][1..] == paths[n + 1..]; }
  }

  method Emit(body: Bytes, ghost paths: seq<Bytes>) returns (emitted: seq<Bytes>)
    requires body == Body(paths)
    ensures emitted == paths
  {
    emitted := [];
    ghost var n := 0;
    assert paths[0..] == paths;
    var path, exists', rest := NextAt(body, paths, 0);
    while exists'
      invariant n <= |paths| && (exists' <==> n < |paths|) && emitted == paths[..n]
      invariant exists' ==> path == paths[n] && rest == Body(paths[n + 1..])
      decreases |paths| - n
    {
      emitted, n := emitted + [path], n + 1;
      path, exists', rest := NextAt(rest, paths, n);
    }
  }

  /** What a sorter with the path order emits: every added path as often as it was added, bucket identities in ascending order, and
      paths of one identity in ascending order. */
  lemma EmittedInOrder(id: Bytes -> string, added: seq<Bytes>)
    ensures var r := Sort(PathOrder(id), added);
            && multiset(r) == multiset(added)
            && forall i, j | 0 <= i < j < |r| ::
                 !TextOrder.Less(id(r[j]), id(r[i])) && (id(r[i]) == id(r[j]) ==> !TextOrder.Less(r[j], r[i]))
  {
    var r := Sort(PathOrder(id), added);
    PathOrderIsStrictTotal(id);
    SortSorted(PathOrder(id), added);
    SortPermutes(PathOrder(id), added);
    forall i, j | 0 <= i < j < |r| ensures !PathOrder(id)(r[j], r[i]) {}
  }
}
