/**
 * Text helpers shared by the model: decimal rendering of integers (Rust's
 * `Display` for `usize`/`i32`), joining with a separator, the lexicographic
 * order Rust uses for `str`, and substring containment.
 */
module Text {
  import opened Wrappers

  predicate IsDigit(c: char) {
    '0' <= c <= '9'
  }

  predicate AllDigits(s: string) {
    forall i :: 0 <= i < |s| ==> IsDigit(s[i])
  }

  function DigitChar(d: nat): (c: char)
    requires d < 10
    ensures IsDigit(c) && DigitValue(c) == d
  {
    ['0', '1', '2', '3', '4', '5', '6', '7', '8', '9'][d]
  }

  function DigitValue(c: char): (d: nat)
    requires IsDigit(c)
    ensures d < 10
  {
    (c as int - '0' as int) as nat
  }

  /** Decimal text of a natural number, without leading zeros. */
  function NatToString(n: nat): (s: string)
    ensures |s| > 0 && AllDigits(s)
    ensures |s| > 1 ==> s[0] != '0'
  {
    if n < 10 then [DigitChar(n)] else NatToString(n / 10) + [DigitChar(n % 10)]
  }

  /** Value of a run of decimal digits (the parsing partner of NatToString). */
  function ParseDigits(s: string): nat
    requires AllDigits(s)
  {
    if s == [] then 0 else ParseDigits(s[..|s| - 1]) * 10 + DigitValue(s[|s| - 1])
  }

  lemma {:induction false} ParseNatToString(n: nat)
    ensures ParseDigits(NatToString(n)) == n
  {
    if n >= 10 {
      var s := NatToString(n / 10);
      assert (s + [DigitChar(n % 10)])[..|s|] == s;
      ParseNatToString(n / 10);
    }
  }

  lemma NatToStringInjective(m: nat, n: nat)
    ensures NatToString(m) == NatToString(n) ==> m == n
  {
    ParseNatToString(m);
    ParseNatToString(n);
  }

  /** Rust's `Display` for a signed integer: a `-` sign, then the digits of the magnitude. */
  function IntToString(i: int): (s: string)
    ensures |s| > 0
    ensures i >= 0 ==> s == NatToString(i)
    ensures i < 0 ==> s == "-" + NatToString(-i)
  {
    if i >= 0 then NatToString(i) else "-" + NatToString(-i)
  }

  /** Distinct integers render as distinct text. */
  lemma IntToStringInjective(a: int, b: int)
    requires IntToString(a) == IntToString(b)
    ensures a == b
  {
    var s := IntToString(a);
    if a >= 0 && b >= 0 {
      NatToStringInjective(a, b);
    } else if a < 0 && b < 0 {
      assert NatToString(-a) == s[1..] == NatToString(-b);
      NatToStringInjective(-a, -b);
    } else if a >= 0 {
      SignDiffers(a, b);
    } else {
      SignDiffers(b, a);
    }
  }

  /** A non-negative number's text starts with a digit, a negative one's with `-`. */
  lemma SignDiffers(a: int, b: int)
    requires a >= 0 && b < 0
    ensures IntToString(a) != IntToString(b)
  {
    assert IsDigit(IntToString(a)[0]);
    assert IntToString(b)[0] == '-';
  }

  /** `s` begins with `p`. */
  predicate StartsWith(s: string, p: string) {
    |p| <= |s| && s[..|p|] == p
  }

  /** `xs` joined with `sep`, built from the back the way a loop appends. */
  function Join(sep: string, xs: seq<string>): string
  {
    if |xs| == 0 then ""
    else if |xs| == 1 then xs[0]
    else Join(sep, xs[..|xs| - 1]) + sep + xs[|xs| - 1]
  }

  lemma JoinSnoc(sep: string, xs: seq<string>, x: string)
    ensures Join(sep, xs + [x]) == if xs == [] then x else Join(sep, xs) + sep + x
  {
    assert (xs + [x])[..|xs|] == xs;
  }

  /** Appending one item to a joined list: the separator goes in only after a first item. */
  lemma JoinStep(sep: string, xs: seq<string>, x: string, acc: string)
    requires acc == Join(sep, xs)
    ensures Join(sep, xs + [x]) == (if |xs| > 0 then acc + sep else acc) + x
  {
    JoinSnoc(sep, xs, x);
    if xs == [] {
      assert acc + x == x;
    }
  }

  lemma AppendAssoc(a: string, b: string, c: string)
    ensures a + b + c == a + (b + c)
  {
  }

  /** `sub` occurs in `s` starting at position `i`. */
  predicate OccursAt(s: string, sub: string, i: int) {
    0 <= i <= |s| - |sub| && s[i..i + |sub|] == sub
  }

  /** `sub` occurs in `s` at some position. */
  ghost predicate Contains(s: string, sub: string) {
    exists i :: OccursAt(s, sub, i)
  }

  lemma ContainsMiddle(a: string, sub: string, b: string)
    ensures Contains(a + sub + b, sub)
  {
    var s := a + sub + b;
    assert OccursAt(s, sub, |a|);
  }

  /** Strict lexicographic order on strings: code-point order, a proper prefix first. */
  predicate LexLess(a: string, b: string)
    decreases |a|
  {
    if |b| == 0 then false
    else if |a| == 0 then true
    else if a[0] < b[0] then true
    else a[0] == b[0] && LexLess(a[1..], b[1..])
  }

  lemma {:induction false} LexIrreflexive(a: string)
    ensures !LexLess(a, a)
    decreases |a|
  {
    if |a| > 0 {
      LexIrreflexive(a[1..]);
    }
  }

  lemma {:induction false} LexAsymmetric(a: string, b: string)
    ensures !(LexLess(a, b) && LexLess(b, a))
    decreases |a|
  {
    if |a| > 0 && |b| > 0 && a[0] == b[0] {
      LexAsymmetric(a[1..], b[1..]);
    }
  }

  lemma {:induction false} LexTransitive(a: string, b: string, c: string)
    requires LexLess(a, b) && LexLess(b, c)
    ensures LexLess(a, c)
    decreases |a|
  {
    if |a| > 0 && a[0] == b[0] && b[0] == c[0] {
      LexTransitive(a[1..], b[1..], c[1..]);
    }
  }

  lemma {:induction false} LexTotal(a: string, b: string)
    ensures a == b || LexLess(a, b) || LexLess(b, a)
    decreases |a|
  {
    if |a| > 0 && |b| > 0 && a[0] == b[0] {
      LexTotal(a[1..], b[1..]);
      if a[1..] == b[1..] {
        assert a == [a[0]] + a[1..] && b == [b[0]] + b[1..];
      }
    }
  }

  /** Three-way comparison of strings under LexLess, as Rust's `Ord for String`. */
  function CompareStrings(a: string, b: string): (r: Ordering)
    ensures r == Equal <==> a == b
    ensures r == Less <==> LexLess(a, b)
    ensures r == Greater <==> LexLess(b, a)
  {
    LexTotal(a, b);
    LexAsymmetric(a, b);
    LexIrreflexive(a);
    if a == b then Equal else if LexLess(a, b) then Less else Greater
  }

  /** Rust's `i32`. */
  type Int32 = x: int | -0x8000_0000 <= x < 0x8000_0000

  /** Three-way comparison of integers, as Rust's `Ord for i32`. */
  function CompareInts(a: int, b: int): (r: Ordering)
    ensures r == Less <==> a < b
    ensures r == Equal <==> a == b
    ensures r == Greater <==> a > b
  {
    if a < b then Less else if a == b then Equal else Greater
  }

  /** The verdict of the comparison taken the other way round. */
  function Flip(o: Ordering): Ordering {
    match o
    case Less => Greater
    case Equal => Equal
    case Greater => Less
  }
}
