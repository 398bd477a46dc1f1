/**
 * Reading back the positional parameters of a Postgres statement: the
 * numbers `n` of every `$n` in the text, in order of appearance. The
 * statement builder's positional-consistency theorems are stated with it.
 */
module Placeholders {
  import opened Text

  /** The end of the run of decimal digits that starts at `i`. */
  function DigitEnd(s: string, i: nat): (e: nat)
    requires i <= |s|
    ensures i <= e <= |s|
    decreases |s| - i
  {
    if i < |s| && IsDigit(s[i]) then DigitEnd(s, i + 1) else i
  }

  lemma {:induction false} DigitEndDigits(s: string, i: nat)
    requires i <= |s|
    ensures AllDigits(s[i..DigitEnd(s, i)])
    decreases |s| - i
  {
    if i < |s| && IsDigit(s[i]) {
      DigitEndDigits(s, i + 1);
      assert s[i..DigitEnd(s, i)] == [s[i]] + s[i + 1..DigitEnd(s, i + 1)];
    }
  }

  /** The placeholder numbers of `s[i..]`: a `$` followed by at least one digit reads all of those digits. */
  function ScanFrom(s: string, i: nat): seq<nat>
    requires i <= |s|
    decreases |s| - i
  {
    if i == |s| then []
    else
      var e := DigitEnd(s, i + 1);
      if s[i] == '$' && e > i + 1 then
        DigitEndDigits(s, i + 1);
        [ParseDigits(s[i + 1..e])] + ScanFrom(s, e)
      else ScanFrom(s, i + 1)
  }

  /** The indices of the `$n` placeholders of `s`, left to right. */
  function Scan(s: string): seq<nat> {
    ScanFrom(s, 0)
  }

  predicate NoDollar(s: string) {
    '$' !in s
  }

  /** `[from, from + 1, …, from + n - 1]`. */
  function Numbers(from: nat, n: nat): (r: seq<nat>)
    ensures |r| == n
    ensures forall k :: 0 <= k < n ==> r[k] == from + k
  {
    seq(n, k requires 0 <= k < n => from + k)
  }

  lemma NumbersSplit(from: nat, m: nat, n: nat)
    ensures Numbers(from, m) + Numbers(from + m, n) == Numbers(from, m + n)
  {
  }

  lemma {:induction false} DigitEndShift(a: string, b: string, i: nat)
    requires i <= |b|
    ensures DigitEnd(a + b, |a| + i) == |a| + DigitEnd(b, i)
    decreases |b| - i
  {
    if i < |b| {
      assert (a + b)[|a| + i] == b[i];
      if IsDigit(b[i]) {
        DigitEndShift(a, b, i + 1);
      }
    }
  }

  lemma ScanFromShiftDollar(a: string, b: string, i: nat, e: nat)
    requires i < |b| && b[i] == '$' && e == DigitEnd(b, i + 1) && e > i + 1
    requires DigitEnd(a + b, |a| + i + 1) == |a| + e
    requires ScanFrom(a + b, |a| + e) == ScanFrom(b, e)
    ensures ScanFrom(a + b, |a| + i) == ScanFrom(b, i)
  {
    var ab := a + b;
    assert ab[|a| + i] == b[i];
    assert ab[|a| + i + 1..|a| + e] == b[i + 1..e];
    DigitEndDigits(b, i + 1);
    var n := ParseDigits(b[i + 1..e]);
    assert ScanFrom(ab, |a| + i) == [n] + ScanFrom(ab, |a| + e);
    assert ScanFrom(b, i) == [n] + ScanFrom(b, e);
  }

  lemma ScanFromShiftPlain(a: string, b: string, i: nat)
    requires i < |b| && !(b[i] == '$' && DigitEnd(b, i + 1) > i + 1)
    requires DigitEnd(a + b, |a| + i + 1) == |a| + DigitEnd(b, i + 1)
    requires ScanFrom(a + b, |a| + i + 1) == ScanFrom(b, i + 1)
    ensures ScanFrom(a + b, |a| + i) == ScanFrom(b, i)
  {
    assert (a + b)[|a| + i] == b[i];
  }

  /** Positions inside `b` scan the same whether or not `a` precedes it. */
  lemma {:induction false} ScanFromShift(a: string, b: string, i: nat)
    requires i <= |b|
    ensures ScanFrom(a + b, |a| + i) == ScanFrom(b, i)
    decreases |b| - i
  {
    if i < |b| {
      var e := DigitEnd(b, i + 1);
      DigitEndShift(a, b, i + 1);
      if b[i] == '$' && e > i + 1 {
        ScanFromShift(a, b, e);
        ScanFromShiftDollar(a, b, i, e);
      } else {
        ScanFromShift(a, b, i + 1);
        ScanFromShiftPlain(a, b, i);
      }
    }
  }

  lemma {:induction false} DigitEndConcat(a: string, b: string, i: nat)
    requires i <= |a|
    requires b == [] || !IsDigit(b[0])
    ensures DigitEnd(a + b, i) == DigitEnd(a, i)
    decreases |a| - i
  {
    if i < |a| {
      assert (a + b)[i] == a[i];
      if IsDigit(a[i]) {
        DigitEndConcat(a, b, i + 1);
      }
    } else if b != [] {
      assert (a + b)[i] == b[0];
    }
  }

  /** The step of `ScanFromConcat` at a placeholder of `a` ending at `e`. */
  lemma ScanFromConcatDollar(a: string, b: string, i: nat, e: nat)
    requires i < |a| && a[i] == '$' && e == DigitEnd(a, i + 1) && e > i + 1
    requires DigitEnd(a + b, i + 1) == e
    requires ScanFrom(a + b, e) == ScanFrom(a, e) + Scan(b)
    ensures ScanFrom(a + b, i) == ScanFrom(a, i) + Scan(b)
  {
    var ab := a + b;
    assert ab[i] == a[i];
    assert ab[i + 1..e] == a[i + 1..e];
    DigitEndDigits(a, i + 1);
    var n := ParseDigits(a[i + 1..e]);
    assert ScanFrom(ab, i) == [n] + ScanFrom(ab, e);
    assert ScanFrom(a, i) == [n] + ScanFrom(a, e);
  }

  /** The step of `ScanFromConcat` at a character of `a` that opens no placeholder. */
  lemma ScanFromConcatPlain(a: string, b: string, i: nat)
    requires i < |a| && !(a[i] == '$' && DigitEnd(a, i + 1) > i + 1)
    requires DigitEnd(a + b, i + 1) == DigitEnd(a, i + 1)
    requires ScanFrom(a + b, i + 1) == ScanFrom(a, i + 1) + Scan(b)
    ensures ScanFrom(a + b, i) == ScanFrom(a, i) + Scan(b)
  {
    assert (a + b)[i] == a[i];
  }

  lemma {:induction false} ScanFromConcat(a: string, b: string, i: nat)
    requires i <= |a|
    requires b == [] || !IsDigit(b[0])
    ensures ScanFrom(a + b, i) == ScanFrom(a, i) + Scan(b)
    decreases |a| - i
  {
    if i == |a| {
      ScanFromShift(a, b, 0);
    } else {
      var e := DigitEnd(a, i + 1);
      DigitEndConcat(a, b, i + 1);
      if a[i] == '$' && e > i + 1 {
        ScanFromConcat(a, b, e);
        ScanFromConcatDollar(a, b, i, e);
      } else {
        ScanFromConcat(a, b, i + 1);
        ScanFromConcatPlain(a, b, i);
      }
    }
  }

  /** Scanning distributes over `+` as long as the right part does not start with a digit. */
  lemma ScanConcat(a: string, b: string)
    requires b == [] || !IsDigit(b[0])
    ensures Scan(a + b) == Scan(a) + Scan(b)
  {
    ScanFromConcat(a, b, 0);
  }

  lemma {:induction false} ScanFromNoDollar(a: string, b: string, i: nat)
    requires i <= |a| && NoDollar(a)
    ensures ScanFrom(a + b, i) == Scan(b)
    decreases |a| - i
  {
    if i == |a| {
      ScanFromShift(a, b, 0);
    } else {
      assert (a + b)[i] == a[i] != '$';
      ScanFromNoDollar(a, b, i + 1);
    }
  }

  /** Text without any `$` contributes no placeholder and cannot merge with what follows. */
  lemma ScanNoDollarPrefix(a: string, b: string)
    requires NoDollar(a)
    ensures Scan(a + b) == Scan(b)
  {
    ScanFromNoDollar(a, b, 0);
  }

  lemma ScanNoDollar(a: string)
    requires NoDollar(a)
    ensures Scan(a) == []
  {
    ScanNoDollarPrefix(a, []);
    assert a + [] == a;
  }

  /** `$` followed by the decimal text of `n` reads back as exactly `[n]`. */
  lemma ScanPlaceholder(n: nat)
    ensures Scan("$" + NatToString(n)) == [n]
  {
    var t := NatToString(n);
    var s := "$" + t;
    assert forall k :: 1 <= k < |s| ==> s[k] == t[k - 1];
    DigitEndAll(s, 1);
    assert s[1..|s|] == t;
    ParseNatToString(n);
    DigitEndDigits(s, 1);
    assert ScanFrom(s, 0) == [ParseDigits(s[1..|s|])] + ScanFrom(s, |s|);
  }

  lemma {:induction false} DigitEndAll(s: string, i: nat)
    requires 0 < i <= |s|
    requires forall k :: i <= k < |s| ==> IsDigit(s[k])
    ensures DigitEnd(s, i) == |s|
    decreases |s| - i
  {
    if i < |s| {
      DigitEndAll(s, i + 1);
    }
  }

  lemma NoDollarConcat(a: string, b: string)
    requires NoDollar(a) && NoDollar(b)
    ensures NoDollar(a + b)
  {
  }
}
