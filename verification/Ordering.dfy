/** The order Go gives strings, and sorting by a strict order. */
module Ordering {

  // Go's `<` on strings: lexicographic on the elements.
  predicate Less(a: string, b: string) {
    b != [] && (a == [] || a[0] < b[0] || (a[0] == b[0] && Less(a[1..], b[1..])))
  }

  /** What it means, with no recursion: the texts first differ at k, where a has the smaller
      element, or a is a proper prefix of b. */
  ghost predicate DiffersAt(a: string, b: string, k: nat) {
    k < |b| && k <= |a| && a[..k] == b[..k] && (k == |a| || a[k] < b[k])
  }

  lemma {:induction false} LessDiffers(a: string, b: string) returns (k: nat)
    requires Less(a, b)
    ensures DiffersAt(a, b, k)
  {
    if a == [] || a[0] < b[0] {
      k := 0;
    } else {
      var j := LessDiffers(a[1..], b[1..]);
      k := j + 1;
      assert a[..k] == [a[0]] + a[1..][..j] && b[..k] == [b[0]] + b[1..][..j];
    }
  }

  lemma {:induction false} DiffersLess(a: string, b: string, k: nat)
    requires DiffersAt(a, b, k)
    ensures Less(a, b)
    decreases k
  {
    if k > 0 {
      assert a[0] == a[..k][0] == b[..k][0] == b[0];
      assert a[1..][..k - 1] == a[..k][1..] && b[1..][..k - 1] == b[..k][1..];
      DiffersLess(a[1..], b[1..], k - 1);
    }
  }

  lemma LessMeans(a: string, b: string)
    ensures Less(a, b) <==> exists k: nat :: DiffersAt(a, b, k)
  {
    if Less(a, b) { var k := LessDiffers(a, b); }
    if k: nat :| DiffersAt(a, b, k) { DiffersLess(a, b, k); }
  }

  lemma {:induction false} LessIrreflexive(a: string)
    ensures !Less(a, a)
  {
    if a != [] { LessIrreflexive(a[1..]); }
  }

  lemma {:induction false} LessTransitive(a: string, b: string, c: string)
    requires Less(a, b) && Less(b, c)
    ensures Less(a, c)
  {
    if a != [] && a[0] == b[0] == c[0] {
      LessTransitive(a[1..], b[1..], c[1..]);
    }
  }

  lemma {:induction false} LessConnected(a: string, b: string)
    ensures a == b || Less(a, b) || Less(b, a)
  {
    if a != [] && b != [] && a[0] == b[0] {
      LessConnected(a[1..], b[1..]);
      assert a == [a[0]] + a[1..] && b == [b[0]] + b[1..];
    }
  }

  ghost predicate StrictTotal<T(!new)>(lt: (T, T) -> bool) {
    && (forall x :: !lt(x, x))
    && (forall x, y, z :: lt(x, y) && lt(y, z) ==> lt(x, z))
    && (forall x, y :: x == y || lt(x, y) || lt(y, x))
  }

  lemma LessIsStrictTotal()
    ensures StrictTotal(Less)
  {
    forall a: string ensures !Less(a, a) { LessIrreflexive(a); }
    forall a: string, b: string, c: string | Less(a, b) && Less(b, c) ensures Less(a, c) { LessTransitive(a, b, c); }
    forall a: string, b: string ensures a == b || Less(a, b) || Less(b, a) { LessConnected(a, b); }
  }

  ghost predicate Ascending<T(!new)>(lt: (T, T) -> bool, s: seq<T>) {
    forall i, j :: 0 <= i < j < |s| ==> lt(s[i], s[j])
  }

  /** A strictly ascending sequence is determined by its elements. */
  lemma {:induction false} AscendingUnique<T(!new)>(lt: (T, T) -> bool, a: seq<T>, b: seq<T>)
    requires StrictTotal(lt) && Ascending(lt, a) && Ascending(lt, b)
    requires forall x :: x in a <==> x in b
    ensures a == b
  {
    assert b != [] ==> b[0] in b;
    if a != [] {
      assert a[0] in b;
      assert b[0] in a;
      assert a[0] == b[0];
      var a', b' := a[1..], b[1..];
      forall x ensures x in a' <==> x in b' {
        if x in a' { assert x in b && x != a[0]; }
        if x in b' { assert x in a && x != b[0]; }
      }
      AscendingUnique(lt, a', b');
    }
  }

  predicate Distinct<T(==)>(s: seq<T>) {
    forall i, j :: 0 <= i < j < |s| ==> s[i] != s[j]
  }

  /** Insertion into an ascending sequence. */
  function Insert<T(!new, ==)>(lt: (T, T) -> bool, x: T, s: seq<T>): seq<T> {
    if s == [] then [x] else if lt(x, s[0]) then [x] + s else [s[0]] + Insert(lt, x, s[1..])
  }

  lemma {:induction false} InsertPermutes<T(!new)>(lt: (T, T) -> bool, x: T, s: seq<T>)
    ensures multiset(Insert(lt, x, s)) == multiset(s) + multiset{x}
  {
    if s != [] {
      assert s == [s[0]] + s[1..];
      InsertPermutes(lt, x, s[1..]);
    }
  }

  lemma {:induction false} InsertAscends<T(!new)>(lt: (T, T) -> bool, x: T, s: seq<T>)
    requires StrictTotal(lt) && Ascending(lt, s) && x !in s
    ensures Ascending(lt, Insert(lt, x, s))
  {
    if s != [] && !lt(x, s[0]) {
      InsertAscends(lt, x, s[1..]);
      InsertPermutes(lt, x, s[1..]);
      var r := Insert(lt, x, s[1..]);
      forall y | y in r ensures lt(s[0], y) {
        assert y in multiset(r);
        assert y in s[1..] || y == x;
      }
    }
  }

  /** Stand-in for sort.Sort on entries with distinct keys: sorts, and permutes. */
  method Sort<T(!new, ==)>(lt: (T, T) -> bool, s: seq<T>) returns (r: seq<T>)
    requires StrictTotal(lt) && Distinct(s)
    ensures Ascending(lt, r) && multiset(r) == multiset(s)
    ensures forall x :: x in r <==> x in s
  {
    r := [];
    for i := 0 to |s|
      invariant Ascending(lt, r) && multiset(r) == multiset(s[..i])
    {
      assert s[i] !in s[..i];
      assert s[i] !in multiset(r);
      InsertPermutes(lt, s[i], r);
      InsertAscends(lt, s[i], r);
      assert s[..i + 1] == s[..i] + [s[i]];
      r := Insert(lt, s[i], r);
    }
    assert s[..|s|] == s;
    forall x ensures x in r <==> x in s {
      assert x in r <==> x in multiset(r);
      assert x in s <==> x in multiset(s);
    }
  }
}
