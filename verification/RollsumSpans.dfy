/** The span tree of `pk debug splits` (cmd/pk/splits.go, showSplits): rolling-checksum split
    points, each taking the preceding spans of fewer bits as its children. */
module RollsumSpans {
  import opened Wrappers

  datatype Span = Span(from: nat, to: nat, bits: nat, children: seq<Span>)

  // What the rolling checksum says after each byte: no split, or a split with some bits.
  type Rolls = seq<Option<nat>>

  // A stretch of the file cut off by one split, with the bits of that split.
  datatype Cut = Cut(from: nat, to: nat, bits: nat)

  /** Children first, then the span itself. */
  function PostOrder(s: Span): seq<Cut>
    decreases s
  {
    Listing(s.children) + [Cut(s.from, s.to, s.bits)]
  }

  // The listing of a whole stack of spans.
  function Listing(ss: seq<Span>): seq<Cut>
    decreases ss
  {
    if ss == [] then [] else PostOrder(ss[0]) + Listing(ss[1..])
  }

  lemma Single(s: Span)
    ensures Listing([s]) == Listing(s.children) + [Cut(s.from, s.to, s.bits)]
  {
    assert [s][1..] == [];
    assert Listing([s]) == PostOrder(s) + Listing([]);
  }

  lemma {:induction false} ListingConcat(a: seq<Span>, b: seq<Span>)
    ensures Listing(a + b) == Listing(a) + Listing(b)
  {
    if a == [] {
      assert [] + b == b;
    } else {
      assert (a + b)[1..] == a[1..] + b;
      ListingConcat(a[1..], b);
    }
  }

  /** Reference: the stretches between consecutive split points, in file order. */
  function Cuts(rolls: Rolls, n: nat): (r: (seq<Cut>, nat))
    requires n <= |rolls|
    ensures r.1 <= n
  {
    if n == 0 then ([], 0)
    else
      var (cuts, last) := Cuts(rolls, n - 1);
      match rolls[n - 1]
      case None => (cuts, last)
      case Some(bits) => (cuts + [Cut(last, n, bits)], n)
  }

  // With the tail after the last split, which has no bits.
  function AllCuts(rolls: Rolls): seq<Cut> {
    var (cuts, last) := Cuts(rolls, |rolls|);
    if last == |rolls| then cuts else cuts + [Cut(last, |rolls|, 0)]
  }

  // Non-empty stretches that cover [lo, hi) without gap or overlap.
  predicate Tiles(cuts: seq<Cut>, lo: nat, hi: nat) {
    if cuts == [] then lo == hi
    else cuts[0].from == lo && lo < cuts[0].to && Tiles(cuts[1..], cuts[0].to, hi)
  }

  lemma {:induction false} TilesAppend(cuts: seq<Cut>, lo: nat, mid: nat, c: Cut)
    requires Tiles(cuts, lo, mid) && c.from == mid < c.to
    ensures Tiles(cuts + [c], lo, c.to)
  {
    if cuts == [] {
      assert ([] + [c])[1..] == [];
    } else {
      assert (cuts + [c])[1..] == cuts[1..] + [c];
      TilesAppend(cuts[1..], cuts[0].to, mid, c);
    }
  }

  lemma {:induction false} CutsTile(rolls: Rolls, n: nat)
    requires n <= |rolls|
    ensures Tiles(Cuts(rolls, n).0, 0, Cuts(rolls, n).1)
  {
    if n > 0 {
      CutsTile(rolls, n - 1);
      var (cuts, last) := Cuts(rolls, n - 1);
      if rolls[n - 1].Some? {
        TilesAppend(cuts, 0, last, Cut(last, n, rolls[n - 1].value));
      }
    }
  }

  // A split after byte n with these bits.
  predicate SplitAt(rolls: Rolls, n: nat, bits: nat) {
    0 < n <= |rolls| && rolls[n - 1] == Some(bits)
  }

  lemma {:induction false} CutsAreSplits(rolls: Rolls, n: nat)
    requires n <= |rolls|
    ensures var (cuts, last) := Cuts(rolls, n);
            && (forall i :: 0 <= i < |cuts| ==> cuts[i].to <= n && SplitAt(rolls, cuts[i].to, cuts[i].bits))
            && (forall k: nat, bits: nat :: k <= n && SplitAt(rolls, k, bits) ==> Ends(cuts, k, bits))
            && (last == 0 || exists bits: nat :: SplitAt(rolls, last, bits))
  {
    if n > 0 {
      CutsAreSplits(rolls, n - 1);
      var (before, last) := Cuts(rolls, n - 1);
      var cuts := Cuts(rolls, n).0;
      assert before <= cuts;
      forall k: nat, bits: nat | k <= n && SplitAt(rolls, k, bits) ensures Ends(cuts, k, bits) {
        if k == n {
          assert cuts[|cuts| - 1] == Cut(last, n, bits);
        } else {
          assert Ends(before, k, bits);
        }
      }
      if rolls[n - 1].Some? { assert SplitAt(rolls, n, rolls[n - 1].value); }
    }
  }

  predicate Ends(cuts: seq<Cut>, k: nat, bits: nat) {
    exists i :: 0 <= i < |cuts| && cuts[i].to == k && cuts[i].bits == bits
  }

  /** The stretches end exactly at the splits, with their bits, and at the end of the file. */
  lemma AllCutsEnd(rolls: Rolls)
    ensures forall i :: 0 <= i < |AllCuts(rolls)| ==>
              var c := AllCuts(rolls)[i]; SplitAt(rolls, c.to, c.bits) || (c.to == |rolls| && c.bits == 0 && rolls[c.to - 1].None?)
    ensures forall k: nat, bits: nat :: SplitAt(rolls, k, bits) ==> Ends(AllCuts(rolls), k, bits)
  {
    CutsAreSplits(rolls, |rolls|);
    var (cuts, last) := Cuts(rolls, |rolls|);
    LastSplit(rolls, |rolls|);
    forall k: nat, bits: nat | SplitAt(rolls, k, bits) ensures Ends(AllCuts(rolls), k, bits) {
      var i :| 0 <= i < |cuts| && cuts[i].to == k && cuts[i].bits == bits;
      assert AllCuts(rolls)[i] == cuts[i];
    }
  }

  // After the last split there is none.
  lemma {:induction false} LastSplit(rolls: Rolls, n: nat)
    requires n <= |rolls|
    ensures forall k :: Cuts(rolls, n).1 <= k < n ==> rolls[k].None?
  {
    if n > 0 { LastSplit(rolls, n - 1); }
  }

  lemma AllCutsTile(rolls: Rolls)
    ensures Tiles(AllCuts(rolls), 0, |rolls|)
  {
    CutsTile(rolls, |rolls|);
    var (cuts, last) := Cuts(rolls, |rolls|);
    if last != |rolls| {
      TilesAppend(cuts, 0, last, Cut(last, |rolls|, 0));
    }
  }

  // Bits never increase from one sibling to the next.
  predicate Falls(ss: seq<Span>) {
    forall i, j :: 0 <= i < j < |ss| ==> ss[i].bits >= ss[j].bits
  }

  // Every child has strictly fewer bits than its parent.
  predicate Heap(s: Span)
    decreases s
  {
    && Heaps(s.children) && Falls(s.children)
    && (forall i :: 0 <= i < |s.children| ==> s.children[i].bits < s.bits)
  }

  predicate Heaps(ss: seq<Span>)
    decreases ss
  {
    forall i :: 0 <= i < |ss| ==> Heap(ss[i])
  }

  /** Bits never increase from one sibling to the next, and shrink from parent to child. */
  predicate Stacked(ss: seq<Span>) {
    Heaps(ss) && Falls(ss)
  }

  // A split point: pop the spans of fewer bits and push them as the children of a new one.
  method Split(spans: seq<Span>, from: nat, to: nat, bits: nat) returns (r: seq<Span>)
    requires Stacked(spans)
    ensures Stacked(r) && Listing(r) == Listing(spans) + [Cut(from, to, bits)]
  {
    var sliceFrom := |spans|;
    while sliceFrom > 0 && spans[sliceFrom - 1].bits < bits
      invariant 0 <= sliceFrom <= |spans|
      invariant forall i :: sliceFrom <= i < |spans| ==> spans[i].bits < bits
    {
      sliceFrom := sliceFrom - 1;
    }
    var children := spans[sliceFrom..];
    var span := Span(from, to, bits, children);
    r := spans[..sliceFrom] + [span];
    Pushed(spans, sliceFrom, span);
    StaysStacked(spans, sliceFrom, span);
  }

  lemma SliceHeaps(spans: seq<Span>, lo: nat, hi: nat)
    requires Heaps(spans) && lo <= hi <= |spans|
    ensures Heaps(spans[lo..hi])
  {
    var r := spans[lo..hi];
    forall i | 0 <= i < |r| ensures Heap(r[i]) { assert r[i] == spans[lo + i]; }
  }

  lemma ConcatHeaps(a: seq<Span>, b: seq<Span>)
    requires Heaps(a) && Heaps(b)
    ensures Heaps(a + b)
  {
    forall i | 0 <= i < |a + b| ensures Heap((a + b)[i]) {
      assert (a + b)[i] == if i < |a| then a[i] else b[i - |a|];
    }
  }

  lemma ConcatFalls(a: seq<Span>, b: seq<Span>)
    requires Falls(a) && Falls(b)
    requires a != [] && b != [] ==> a[|a| - 1].bits >= b[0].bits
    ensures Falls(a + b)
  {}

  lemma StaysStacked(spans: seq<Span>, k: nat, span: Span)
    requires Stacked(spans) && k <= |spans| && span.children == spans[k..]
    requires forall i :: k <= i < |spans| ==> spans[i].bits < span.bits
    requires k > 0 ==> spans[k - 1].bits >= span.bits
    ensures Stacked(spans[..k] + [span])
  {
    SliceHeaps(spans, k, |spans|);
    SliceHeaps(spans, 0, k);
    assert spans[k..|spans|] == spans[k..];
    assert spans[0..k] == spans[..k];
    assert Heap(span);
    ConcatHeaps(spans[..k], [span]);
    ConcatFalls(spans[..k], [span]);
  }

  lemma Pushed(spans: seq<Span>, k: nat, span: Span)
    requires k <= |spans| && span.children == spans[k..]
    ensures Listing(spans[..k] + [span]) == Listing(spans) + [Cut(span.from, span.to, span.bits)]
  {
    assert spans == spans[..k] + spans[k..];
    Closed(spans[..k], span);
  }

  // A span lists its children and then itself, whatever comes before it.
  lemma Closed(before: seq<Span>, span: Span)
    ensures Listing(before + [span]) == Listing(before + span.children) + [Cut(span.from, span.to, span.bits)]
  {
    ListingConcat(before, [span]);
    ListingConcat(before, span.children);
    Single(span);
  }

  // The spans after n bytes, the last split having been at `last`.
  ghost predicate Built(rolls: Rolls, n: nat, spans: seq<Span>, last: nat)
    requires n <= |rolls|
  {
    Cuts(rolls, n) == (Listing(spans), last) && Stacked(spans)
  }

  /** showSplits: the post-order listing of the tree is exactly the file's cuts in file order,
      and tiles the file; the tree is ordered by bits. */
  method BuildSpans(rolls: Rolls) returns (spans: seq<Span>)
    ensures Listing(spans) == AllCuts(rolls) && Tiles(Listing(spans), 0, |rolls|)
    ensures Stacked(spans)
  {
    spans := [];
    var n, last := 0, 0;
    while n < |rolls|
      invariant n <= |rolls| && Built(rolls, n, spans, last)
    {
      n := n + 1;
      if rolls[n - 1].Some? {
        spans := Split(spans, last, n, rolls[n - 1].value);
        last := n;
      }
    }
    AllCutsTile(rolls);
    if n != last {
      var tail := Span(last, n, 0, []);
      TailPushed(spans, tail);
      spans := spans + [tail];
    }
  }

  lemma TailPushed(spans: seq<Span>, tail: Span)
    requires Stacked(spans) && tail.bits == 0 && tail.children == []
    ensures Stacked(spans + [tail]) && Listing(spans + [tail]) == Listing(spans) + [Cut(tail.from, tail.to, 0)]
  {
    assert spans[..|spans|] == spans && spans[|spans|..] == [];
    Pushed(spans, |spans|, tail);
    StaysStacked(spans, |spans|, tail);
  }

  // A stack without its last span: the span's children take its place.
  function Opened(ss: seq<Span>): (r: seq<Span>)
    requires ss != []
  {
    ss[..|ss| - 1] + ss[|ss| - 1].children
  }

  lemma LastApart(ss: seq<Span>)
    requires ss != []
    ensures ss == ss[..|ss| - 1] + [ss[|ss| - 1]]
  {
  }

  lemma OpenedListing(ss: seq<Span>)
    requires ss != []
    ensures var s := ss[|ss| - 1]; Listing(ss) == Listing(Opened(ss)) + [Cut(s.from, s.to, s.bits)]
  {
    LastApart(ss);
    Closed(ss[..|ss| - 1], ss[|ss| - 1]);
  }

  lemma OpenedStacked(ss: seq<Span>)
    requires ss != [] && Stacked(ss)
    ensures Stacked(Opened(ss))
  {
    var k := |ss| - 1;
    assert Heap(ss[k]);
    SliceHeaps(ss, 0, k);
    assert ss[0..k] == ss[..k];
    ConcatHeaps(ss[..k], ss[k].children);
    ConcatFalls(ss[..k], ss[k].children);
  }

  // In an opened stack the bits tell former siblings of the last span from its children.
  lemma Threshold(ss: seq<Span>, i: nat)
    requires ss != [] && Stacked(ss) && i < |Opened(ss)|
    ensures i < |ss| - 1 <==> Opened(ss)[i].bits >= ss[|ss| - 1].bits
  {
    assert Heap(ss[|ss| - 1]);
  }

  // So how many spans the last one took is settled by its bits.
  lemma SameCut(a: seq<Span>, b: seq<Span>)
    requires a != [] && b != [] && Stacked(a) && Stacked(b)
    requires Opened(a) == Opened(b) && a[|a| - 1].bits == b[|b| - 1].bits
    ensures |a| <= |b|
  {
    if |b| - 1 < |Opened(a)| {
      Threshold(a, |b| - 1);
      Threshold(b, |b| - 1);
    }
  }

  /** The ordering by bits leaves no choice: a file's cuts admit one tree only, so the spans
      printed are determined by where the splits fall and by their bits. */
  lemma {:induction false} OnlyOneTree(a: seq<Span>, b: seq<Span>)
    requires Stacked(a) && Stacked(b) && Listing(a) == Listing(b)
    ensures a == b
    decreases |Listing(a)|
  {
    if a == [] || b == [] {
      if a != [] { OpenedListing(a); }
      if b != [] { OpenedListing(b); }
    } else {
      OpenedListing(a);
      OpenedListing(b);
      var s, t := a[|a| - 1], b[|b| - 1];
      assert Listing(a)[|Listing(a)| - 1] == Cut(s.from, s.to, s.bits);
      assert Listing(b)[|Listing(b)| - 1] == Cut(t.from, t.to, t.bits);
      assert Listing(Opened(a)) == Listing(a)[..|Listing(a)| - 1];
      assert Listing(Opened(b)) == Listing(b)[..|Listing(b)| - 1];
      OpenedStacked(a);
      OpenedStacked(b);
      OnlyOneTree(Opened(a), Opened(b));
      SameCut(a, b);
      SameCut(b, a);
      Rejoin(a, b);
    }
  }

  lemma Rejoin(a: seq<Span>, b: seq<Span>)
    requires a != [] && |a| == |b| && Opened(a) == Opened(b)
    requires var (s, t) := (a[|a| - 1], b[|b| - 1]); s.from == t.from && s.to == t.to && s.bits == t.bits
    ensures a == b
  {
    var k := |a| - 1;
    assert a[..k] == Opened(a)[..k] == Opened(b)[..k] == b[..k];
    assert a[k].children == Opened(a)[k..] == Opened(b)[k..] == b[k].children;
    assert a == a[..k] + [a[k]];
    assert b == b[..k] + [b[k]];
  }
}
