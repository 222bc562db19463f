/** Bucket identities as text: a window, and for numbered segments the number padded to twenty digits. Their text
    order within a window is the numeric order. */
module SegmentNames {
  import opened TextOrder

  /** A 64-bit segment number. */
  const MAX_NUMBER: nat := 0xffff_ffff_ffff_ffff
  type Number = n: nat | n <= MAX_NUMBER

  const DIGITS: nat := 20

  // ---------------------------------------------------------------- zero padding

  function Power10(n: nat): nat { if n == 0 then 1 else 10 * Power10(n - 1) }

  function Digit(d: nat): char
    requires d < 10
  {
    "0123456789"[d]
  }

  lemma TimesAtLeast(q: nat, p: nat)
    requires q >= 10
    ensures q * p >= 10 * p
  {
  }

  lemma LeadingDigit(n: nat, p: nat)
    requires p > 0 && n < 10 * p
    ensures n / p < 10
  {
    var q := n / p;
    assert n == q * p + n % p;
    if q >= 10 { TimesAtLeast(q, p); }
  }

  lemma {:induction false} PowerPositive(n: nat)
    ensures Power10(n) > 0
  {
    if n > 0 { PowerPositive(n - 1); }
  }

  /** `%0*d` for a number that fits the width. */
  function Padded(n: nat, width: nat): string
    requires n < Power10(width)
  {
    if width == 0 then ""
    else
      PowerPositive(width - 1);
      LeadingDigit(n, Power10(width - 1));
      [Digit(n / Power10(width - 1))] + Padded(n % Power10(width - 1), width - 1)
  }

  lemma DivideOrder(a: nat, b: nat, p: nat)
    requires p > 0
    ensures a < b <==> a / p < b / p || (a / p == b / p && a % p < b % p)
  {
    assert a == (a / p) * p + a % p && b == (b / p) * p + b % p;
    if a / p < b / p { assert (a / p + 1) * p <= (b / p) * p; }
    if b / p < a / p { assert (b / p + 1) * p <= (a / p) * p; }
  }

  lemma DigitOrder(a: nat, b: nat)
    requires a < 10 && b < 10
    ensures Digit(a) < Digit(b) <==> a < b
    ensures Digit(a) == Digit(b) <==> a == b
  {
  }

  /** Zero padding makes the text order of segment numbers their numeric order. */
  lemma {:induction false} PaddedOrder(a: nat, b: nat, width: nat)
    requires a < Power10(width) && b < Power10(width)
    ensures Less(Padded(a, width), Padded(b, width)) <==> a < b
  {
    if width > 0 {
      PowerPositive(width - 1);
      var x, s := Divide(a, Power10(width - 1));
      var y, t := Divide(b, Power10(width - 1));
      DivideOrder(a, b, Power10(width - 1));
      PaddedStep(a, b, x, s, y, t, width);
      PaddedOrder(s, t, width - 1);
    }
  }

  lemma Divide(a: nat, p: nat) returns (quotient: nat, remainder: nat)
    requires p > 0
    ensures quotient == a / p && remainder == a % p && remainder < p
  {
    quotient, remainder := a / p, a % p;
  }

  lemma PaddedStep(a: nat, b: nat, x: nat, s: nat, y: nat, t: nat, width: nat)
    requires width > 0 && Power10(width - 1) > 0 && a < Power10(width) && b < Power10(width)
    requires x == a / Power10(width - 1) && s == a % Power10(width - 1)
    requires y == b / Power10(width - 1) && t == b % Power10(width - 1)
    ensures Less(Padded(a, width), Padded(b, width))
        <==> x < y || (x == y && Less(Padded(s, width - 1), Padded(t, width - 1)))
  {
    LeadingDigit(a, Power10(width - 1));
    LeadingDigit(b, Power10(width - 1));
    DigitOrder(x, y);
    LessCons(Digit(x), Padded(s, width - 1), Digit(y), Padded(t, width - 1));
  }

  lemma NumbersFit()
    ensures MAX_NUMBER < Power10(DIGITS)
  {
    assert Power10(4) == 10000 by { assert Power10(2) == 100; }
    assert Power10(8) == 10000 * 10000 by { assert Power10(6) == 100 * Power10(4); }
    assert Power10(12) == 10000 * Power10(8) by { assert Power10(10) == 100 * Power10(8); }
    assert Power10(16) == 10000 * Power10(12) by { assert Power10(14) == 100 * Power10(12); }
    assert Power10(20) == 10000 * Power10(16) by { assert Power10(18) == 100 * Power10(16); }
  }

  // ---------------------------------------------------------------- identities

  /** The first file of a window has no suffix. */
  function Id(window: string, n: Number): string {
    if n == 0 then window else window + Suffix(n)
  }

  function Suffix(n: Number): string {
    NumbersFit();
    if n == 0 then "" else "-" + Padded(n, DIGITS)
  }

  lemma {:induction false} CommonPrefix(p: string, a: string, b: string)
    ensures Less(p + a, p + b) <==> Less(a, b)
  {
    if p == "" {
      assert p + a == a && p + b == b;
    } else {
      assert p + a == [p[0]] + (p[1..] + a) && p + b == [p[0]] + (p[1..] + b);
      LessCons(p[0], p[1..] + a, p[0], p[1..] + b);
      CommonPrefix(p[1..], a, b);
    }
  }

  /** Within a window the larger identity, as text, is the larger number. */
  lemma IdOrder(window: string, a: Number, b: Number)
    ensures Less(Id(window, a), Id(window, b)) <==> a < b
  {
    NumbersFit();
    IdSplit(window, a);
    IdSplit(window, b);
    CommonPrefix(window, Suffix(a), Suffix(b));
    if a != 0 && b != 0 {
      LessCons('-', Padded(a, DIGITS), '-', Padded(b, DIGITS));
      PaddedOrder(a, b, DIGITS);
    }
  }

  lemma IdSplit(window: string, n: Number)
    ensures Id(window, n) == window + Suffix(n)
  {
    if n == 0 { assert window + "" == window; }
  }

  /** What decimal digits say, read from the left after `before`. */
  function Value(before: int, s: string): int
    decreases |s|
  {
    if s == "" then before else Value(10 * before + (s[0] as int - '0' as int), s[1..])
  }

  lemma {:induction false} PaddedValue(before: int, n: nat, width: nat)
    requires n < Power10(width)
    ensures Value(before, Padded(n, width)) == Times(before, Power10(width)) + n
    decreases width
  {
    if width > 0 {
      var p := Power10(width - 1);
      PowerPositive(width - 1);
      var d, rest := Divide(n, p);
      Unpadded(n, width, d, rest);
      PaddedValue(10 * before + d, rest, width - 1);
      ValueStep(before, d, Padded(rest, width - 1));
      Shifted(before, n, p, d, rest);
    }
  }

  function Times(a: int, b: int): int { a * b }

  lemma Unpadded(n: nat, width: nat, d: nat, rest: nat)
    requires width > 0 && n < Power10(width) && Power10(width - 1) > 0 && d == n / Power10(width - 1) && rest == n % Power10(width - 1)
    ensures d < 10 && rest < Power10(width - 1) && Padded(n, width) == [Digit(d)] + Padded(rest, width - 1)
  {
    LeadingDigit(n, Power10(width - 1));
  }

  lemma ValueStep(before: int, d: nat, t: string)
    requires d < 10
    ensures Value(before, [Digit(d)] + t) == Value(10 * before + d, t)
  {
    DigitIs(d);
    assert ([Digit(d)] + t)[1..] == t;
  }

  lemma Shifted(before: int, n: nat, p: nat, d: nat, rest: nat)
    requires p > 0 && d == n / p && rest == n % p
    ensures Times(10 * before + d, p) + rest == Times(before, 10 * p) + n
  {
    assert n == d * p + rest;
    assert (10 * before + d) * p == before * (10 * p) + d * p;
  }

  lemma {:induction false} PaddedWidth(n: nat, width: nat)
    requires n < Power10(width)
    ensures |Padded(n, width)| == width
    decreases width
  {
    if width > 0 {
      PowerPositive(width - 1);
      PaddedWidth(n % Power10(width - 1), width - 1);
    }
  }

  lemma DigitIs(d: nat)
    requires d < 10
    ensures Digit(d) as int - '0' as int == d && '0' <= Digit(d) <= '9'
  {
  }

  /** An identity beyond the first of its window: the window, a dash and the number in twenty digits. */
  lemma IdExactly(window: string, n: Number)
    ensures Id(window, 0) == window
    ensures n > 0 ==> IsId(Id(window, n), window, n)
  {
    if n > 0 {
      NumbersFit();
      PaddedValue(0, n, DIGITS);
      PaddedWidth(n, DIGITS);
      WrittenId(window, Padded(n, DIGITS), n);
    }
  }

  ghost predicate IsId(id: string, window: string, n: int) {
    |id| == |window| + 21 && id[..|window|] == window && id[|window|] == '-' && Value(0, id[|window| + 1..]) == n
  }

  lemma WrittenId(window: string, digits: string, n: int)
    requires |digits| == 20 && Value(0, digits) == n
    ensures IsId(window + ("-" + digits), window, n)
  {
    assert (window + ("-" + digits))[|window| + 1..] == digits;
  }
}
