/** Byte-wise lexicographic order on strings, as `strings.Compare` computes it. */
module TextOrder {

  predicate Less(a: string, b: string) {
    if a == "" then b != ""
    else if b == "" then false
    else a[0] < b[0] || (a[0] == b[0] && Less(a[1..], b[1..]))
  }

  /** The first place where the texts differ decides; a text comes after its own beginnings. */
  ghost predicate FirstDifference(a: string, b: string, k: nat) {
    && k <= |a| && k <= |b| && a[..k] == b[..k]
    && if k < |a| && k < |b| then a[k] < b[k] else k == |a| < |b|
  }

  lemma SameHead(a: string, b: string, k: nat)
    requires FirstDifference(a, b, k)
    ensures k > 0 ==> a != "" && b != "" && a[0] == b[0]
  {
    if k > 0 { assert a[..k][0] == b[..k][0]; }
  }

  lemma {:induction false} LessIsFirstDifference(a: string, b: string)
    ensures Less(a, b) <==> exists k: nat :: FirstDifference(a, b, k)
  {
    if a == "" || b == "" || a[0] != b[0] {
      assert Less(a, b) ==> FirstDifference(a, b, 0);
      if k: nat :| FirstDifference(a, b, k) { SameHead(a, b, k); }
    } else {
      LessIsFirstDifference(a[1..], b[1..]);
      if k: nat :| FirstDifference(a[1..], b[1..], k) {
        assert a[..k + 1] == [a[0]] + a[1..][..k] && b[..k + 1] == [b[0]] + b[1..][..k];
        assert FirstDifference(a, b, k + 1);
      }
      if k: nat :| FirstDifference(a, b, k) {
        assert k > 0;
        assert a[1..][..k - 1] == a[..k][1..] && b[1..][..k - 1] == b[..k][1..];
        assert FirstDifference(a[1..], b[1..], k - 1);
      }
    }
  }

  lemma {:induction false} LessIrreflexive(a: string)
    ensures !Less(a, a)
  {
    if a != "" { LessIrreflexive(a[1..]); }
  }

  lemma {:induction false} LessTotal(a: string, b: string)
    requires a != b
    ensures Less(a, b) || Less(b, a)
  {
    if a != "" && b != "" && a[0] == b[0] {
      assert a == [a[0]] + a[1..] && b == [b[0]] + b[1..];
      LessTotal(a[1..], b[1..]);
    }
  }

  lemma {:induction false} LessTransitive(a: string, b: string, c: string)
    requires Less(a, b) && Less(b, c)
    ensures Less(a, c)
  {
    if a != "" && a[0] == b[0] && b[0] == c[0] {
      LessTransitive(a[1..], b[1..], c[1..]);
    }
  }

  lemma LessIsStrictTotal()
    ensures forall a: string :: !Less(a, a)
    ensures forall a: string, b: string :: a != b ==> Less(a, b) || Less(b, a)
    ensures forall a: string, b: string, c: string :: Less(a, b) && Less(b, c) ==> Less(a, c)
  {
    forall a: string { LessIrreflexive(a); }
    forall a: string, b: string | a != b { LessTotal(a, b); }
    forall a: string, b: string, c: string | Less(a, b) && Less(b, c) { LessTransitive(a, b, c); }
  }

  lemma LessCons(x: char, s: string, y: char, t: string)
    ensures Less([x] + s, [y] + t) <==> x < y || (x == y && Less(s, t))
  {
    assert ([x] + s)[1..] == s && ([y] + t)[1..] == t;
  }
}
