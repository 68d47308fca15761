/** Decimal printing, as fmt's %d does it. */
module Decimal {

  function Digits(n: nat): (ds: seq<nat>)
    ensures ds != [] && forall i :: 0 <= i < |ds| ==> ds[i] < 10
  {
    if n < 10 then [n] else Digits(n / 10) + [n % 10]
  }

  function Value(ds: seq<nat>): nat {
    if ds == [] then 0 else 10 * Value(ds[..|ds| - 1]) + ds[|ds| - 1]
  }

  lemma {:induction false} ValueOfDigits(n: nat)
    ensures Value(Digits(n)) == n
  {
    if n >= 10 {
      ValueOfDigits(n / 10);
      assert Digits(n)[..|Digits(n)| - 1] == Digits(n / 10);
    } else {
      assert Value([n]) == 10 * Value([]) + n;
    }
  }

  const DIGITS: string := "0123456789"

  function Nat(n: nat): (s: string)
    ensures s != [] && forall i :: 0 <= i < |s| ==> '0' <= s[i] <= '9'
  {
    seq(|Digits(n)|, i requires 0 <= i < |Digits(n)| => DIGITS[Digits(n)[i]])
  }

  /** Different numbers print differently. */
  lemma NatInjective(a: nat, b: nat)
    requires Nat(a) == Nat(b)
    ensures a == b
  {
    var x, y := Digits(a), Digits(b);
    assert |x| == |Nat(a)| == |y|;
    forall i | 0 <= i < |x| ensures x[i] == y[i] {
      assert DIGITS[x[i]] == Nat(a)[i] == Nat(b)[i] == DIGITS[y[i]];
      DigitsDiffer(x[i], y[i]);
    }
    assert x == y;
    ValueOfDigits(a);
    ValueOfDigits(b);
  }

  lemma DigitsDiffer(i: nat, j: nat)
    requires i < 10 && j < 10 && DIGITS[i] == DIGITS[j]
    ensures i == j
  {
  }

  function Int(n: int): (s: string)
    ensures s != [] && forall i :: 0 <= i < |s| ==> s[i] == '-' || '0' <= s[i] <= '9'
  {
    if n < 0 then "-" + Nat(-n) else Nat(n)
  }

  lemma IntSign(n: int)
    ensures Int(n)[0] == '-' <==> n < 0
  {
  }

  lemma IntInjective(a: int, b: int)
    requires Int(a) == Int(b)
    ensures a == b
  {
    IntSign(a);
    IntSign(b);
    if a < 0 {
      assert Nat(-a) == Int(a)[1..] == Int(b)[1..] == Nat(-b);
      NatInjective(-a, -b);
    } else {
      NatInjective(a, b);
    }
  }

  // The position of the first `sep`.
  function FirstAt<T(==)>(s: seq<T>, sep: T): nat {
    if s == [] || s[0] == sep then 0 else 1 + FirstAt(s[1..], sep)
  }

  lemma {:induction false} FirstAtSplit<T>(a: seq<T>, sep: T, x: seq<T>)
    requires sep !in a
    ensures FirstAt(a + [sep] + x, sep) == |a|
  {
    if a != [] {
      assert (a + [sep] + x)[1..] == a[1..] + [sep] + x;
      FirstAtSplit(a[1..], sep, x);
    }
  }

  /** A separator that occurs in neither prefix splits a text in one way only. */
  lemma SplitUnique<T>(a: seq<T>, b: seq<T>, sep: T, x: seq<T>, y: seq<T>)
    requires a + [sep] + x == b + [sep] + y && sep !in a && sep !in b
    ensures a == b && x == y
  {
    FirstAtSplit(a, sep, x);
    FirstAtSplit(b, sep, y);
    var s := a + [sep] + x;
    assert a == s[..|a|] && b == s[..|a|];
    assert x == s[|a| + 1..] && y == s[|a| + 1..];
  }
}
