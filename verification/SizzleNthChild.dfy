/** The positional filters of Sizzle (app/publisher/jquery.js, Expr.filter.CHILD): counting a
    node's index among its siblings, with a resume point cached on the parent
    (:nth-child) or an index cached on each sibling (:nth-last-child).  The second cache is
    filled wrongly for siblings before the first one asked about; the law below says how. */
module SizzleNthChild {
  import opened Wrappers

  // A child node: an element, or something else such as text.
  datatype Kid = Kid(isElement: bool, name: string)

  // What a filter counts: elements, or for "of-type" nodes of the same name.
  predicate Eligible(k: Kid, ofType: bool, name: string) {
    if ofType then k.name == name else k.isElement
  }

  ghost function Count(line: seq<Kid>, ofType: bool, name: string): nat {
    if line == [] then 0
    else Count(line[..|line| - 1], ofType, name) + if Eligible(line[|line| - 1], ofType, name) then 1 else 0
  }

  /** The index the selectors speak of: eligible nodes up to and including position `i`. */
  ghost function Index(line: seq<Kid>, i: nat, ofType: bool, name: string): nat
    requires i < |line|
  {
    Count(line[..i + 1], ofType, name)
  }

  lemma CountNext(line: seq<Kid>, n: nat, ofType: bool, name: string)
    requires n < |line|
    ensures Count(line[..n + 1], ofType, name) ==
            Count(line[..n], ofType, name) + if Eligible(line[n], ofType, name) then 1 else 0
  {
    assert line[..n + 1][..n] == line[..n];
  }

  // The positions below n that hold an element, or for "of-type" a node of the given name.
  ghost function Positions(line: seq<Kid>, n: nat, ofType: bool, name: string): set<nat>
    requires n <= |line|
  {
    if ofType then set k: nat | k < n && line[k].name == name else set k: nat | k < n && line[k].isElement
  }

  lemma PositionsNext(line: seq<Kid>, n: nat, ofType: bool, name: string)
    requires n < |line|
    ensures Positions(line, n + 1, ofType, name) ==
            Positions(line, n, ofType, name) + if (if ofType then line[n].name == name else line[n].isElement) then {n} else {}
  {
  }

  lemma {:induction false} CountPositions(line: seq<Kid>, n: nat, ofType: bool, name: string)
    requires n <= |line|
    ensures Count(line[..n], ofType, name) == |Positions(line, n, ofType, name)|
  {
    if n > 0 {
      CountPositions(line, n - 1, ofType, name);
      CountNext(line, n - 1, ofType, name);
      PositionsNext(line, n - 1, ofType, name);
    }
  }

  /** The index in plain terms: how many positions up to i are of the kind counted. */
  lemma IndexCounts(line: seq<Kid>, i: nat, ofType: bool, name: string)
    requires i < |line|
    ensures Index(line, i, ofType, name) == |Positions(line, i + 1, ofType, name)|
  {
    CountPositions(line, i + 1, ofType, name);
  }

  function Reverse<T>(s: seq<T>): (r: seq<T>)
    ensures |r| == |s| && forall i :: 0 <= i < |s| ==> r[i] == s[|s| - 1 - i]
  {
    if s == [] then [] else Reverse(s[1..]) + [s[0]]
  }

  // ------------------------------------------------------------------------ final test

  // JavaScript's x % a for a != 0: the remainder takes the sign of x.
  function Rem(x: int, a: int): int
    requires a != 0
  {
    var m := if a > 0 then a else -a;
    if x >= 0 then x % m else -((-x) % m)
  }

  // diff -= last; diff === first || ( diff % first === 0 && diff / first >= 0 ); x % 0 is NaN.
  predicate Accepts(first: int, last: int, index: int) {
    var diff := index - last;
    diff == first || (first != 0 && Rem(diff, first) == 0 && diff as real / first as real >= 0.0)
  }

  lemma RemZero(x: int, a: int)
    requires a != 0 && Rem(x, a) == 0
    ensures exists n: int :: x == a * n
  {
    var m := if a > 0 then a else -a;
    var y := if x >= 0 then x else -x;
    assert y == m * (y / m);
    var q := y / m;
    var n := if (x >= 0) == (a > 0) then q else -q;
    assert x == a * n;
  }

  lemma ProductGrows(m: int, k: int)
    requires m > 0
    ensures k >= 1 ==> m * k >= m
    ensures k <= -1 ==> m * k <= -m
  {
  }

  lemma MultipleMod(m: int, n: nat)
    requires m > 0
    ensures (m * n) % m == 0
  {
    var q, r := (m * n) / m, (m * n) % m;
    assert m * (n - q) == r;
    ProductGrows(m, n - q);
  }

  lemma RealQuotient(a: int, n: int)
    requires a != 0
    ensures (a * n) as real / a as real == n as real
  {
    assert (a * n) as real == a as real * n as real;
  }

  lemma RemOfMultiple(a: int, n: nat)
    requires a != 0
    ensures Rem(a * n, a) == 0
  {
    if a > 0 {
      MultipleMod(a, n);
      assert a * n >= 0;
    } else {
      MultipleMod(-a, n);
      assert a * n == -((-a) * n) && (-a) * n >= 0;
    }
  }

  lemma QuotientSign(a: int, n: int)
    requires a != 0 && (a * n) as real / a as real >= 0.0
    ensures n >= 0
  {
    RealQuotient(a, n);
  }

  /** The final test accepts exactly the indices a*n + b with n >= 0, as section 6.6.5.2 of
      Selectors Level 3 defines :nth-child(an+b). */
  lemma AcceptsAnB(a: int, b: int, index: int)
    ensures Accepts(a, b, index) <==> exists n: nat :: index == a * n + b
  {
    if Accepts(a, b, index) {
      if index - b == a {
        assert index == a * 1 + b;
      } else {
        RemZero(index - b, a);
        var n: int :| index - b == a * n;
        QuotientSign(a, n);
        var k: nat := n;
        assert index == a * k + b;
      }
    }
    if n: nat :| index == a * n + b {
      if a != 0 {
        RemOfMultiple(a, n);
        RealQuotient(a, n);
      }
    }
  }

  // :nth-child(n) is compiled to "has a parent"; every index passes the general test.
  lemma ShortcutAgrees(index: nat)
    ensures Accepts(1, 0, index)
  {
    AcceptsAnB(1, 0, index);
    assert index == 1 * index + 0;
  }

  // --------------------------------------------------------------------------- counting

  // [ dirruns, nodeIndex, diff ] on the parent.
  datatype Resume = Resume(run: int, nodeIndex: nat, diff: nat)

  // [ dirruns, diff ] on a child.
  datatype Known = Known(run: int, diff: int)

  /** A parent node with the data the filters store: `resume` for :nth-child on itself and
      `known` for :nth-last-child on each of its children (by position from the end). */
  class Parent {
    const kids: seq<Kid>
    var resume: Option<Resume>
    var known: map<nat, Known>

    constructor (kids: seq<Kid>)
      ensures this.kids == kids && resume.None? && known == map[]
    {
      this.kids, resume, known := kids, None, map[];
    }

    // A resume point stored under this run is right; one of another run may be anything.
    ghost predicate Coherent(run: int)
      reads this
    {
      resume.Some? && resume.value.run == run ==>
        resume.value.nodeIndex < |kids| && resume.value.diff == Index(kids, resume.value.nodeIndex, false, "")
    }

    /** :nth-child with caching.  Counting resumes after the node found last time; running off
        the end restarts it, once, from the first child. */
    method NthChild(run: int, elem: nat) returns (diff: nat)
      requires Coherent(run) && elem < |kids| && kids[elem].isElement
      modifies this`resume
      ensures Coherent(run)
      ensures diff == Index(kids, elem, false, "")
      ensures resume == Some(Resume(run, elem, diff))
    {
      var nodeIndex: nat := 0;
      var node: Option<nat> := None;
      diff := 0;
      if resume.Some? && resume.value.run == run && resume.value.nodeIndex != 0 {
        nodeIndex, diff := resume.value.nodeIndex, resume.value.diff;
        node := Some(nodeIndex);
      }
      var start := true;    // start still holds firstChild
      while true
        invariant resume == old(resume) && known == old(known)
        invariant node.Some? ==> node.value == nodeIndex < |kids| && diff == Index(kids, nodeIndex, false, "")
        invariant !start ==> node.Some? && node.value < elem
        decreases start, |kids| - nodeIndex
      {
        nodeIndex := nodeIndex + 1;
        if node.Some? && node.value + 1 < |kids| {
          node := Some(node.value + 1);
        } else {
          diff, nodeIndex := 0, 0;
          if start {
            node, start := Some(0), false;
          } else {
            assert false;    // start.pop() finds nothing only if elem is not a child
          }
        }
        CountNext(kids, nodeIndex, false, "");
        if kids[nodeIndex].isElement {
          diff := diff + 1;
          if nodeIndex == elem {
            resume := Some(Resume(run, nodeIndex, diff));
            return;
          }
        }
      }
    }

    /** The count that is not cached, in XML or by type, in either direction: it starts at the
        end.  Positions are counted from there. */
    method Seek(elem: nat, forward: bool, ofType: bool) returns (diff: nat)
      requires elem < |kids|
      requires var line := if forward then kids else Reverse(kids); ofType || line[elem].isElement
      ensures var line := if forward then kids else Reverse(kids); diff == Index(line, elem, ofType, line[elem].name)
    {
      var line := if forward then kids else Reverse(kids);
      var name := line[elem].name;
      diff := 0;
      var n := 0;
      while true
        invariant n <= elem && diff == Count(line[..n], ofType, name)
        decreases elem - n
      {
        CountNext(line, n, ofType, name);
        if Eligible(line[n], ofType, name) {
          diff := diff + 1;
          if n == elem {
            return;
          }
        }
        n := n + 1;
      }
    }

    /** :nth-last-child with caching, positions counted from the end.  On a miss `node` is
        already `elem`, so the walk first goes on from there to the first child, numbering the
        elements it meets from one, and only then starts at the last child. */
    method NthLastChild(run: int, elem: nat) returns (diff: int)
      requires elem < |kids| && Reverse(kids)[elem].isElement
      modifies this`known
      ensures old(Hit(run, elem)) ==> diff == old(known)[elem].diff && known == old(known)
      ensures !old(Hit(run, elem)) ==> diff == Index(Reverse(kids), elem, false, "") && Filled(run, elem)
    {
      var line := Reverse(kids);
      if Hit(run, elem) {
        return known[elem].diff;
      }
      var node: nat, start := elem, true;    // start still holds lastChild
      diff := 0;
      while true
        invariant node < |line| && (if start then elem <= node else node < elem)
        invariant diff == Reached(line, elem, start, node)
        invariant Numbered(known, line, run, elem, start, node)
        decreases start, |line| - node
      {
        ghost var was := (start, node);
        if node + 1 < |line| {
          node := node + 1;
        } else {
          diff := 0;
          if start {
            node, start := 0, false;
          } else {
            assert false;    // start.pop() finds nothing only if elem is not a child
          }
        }
        NumberOne(known, line, run, elem, was.0, was.1, start, node);
        if line[node].isElement {
          diff := diff + 1;
          known := known[node := Known(run, diff)];
          if node == elem {
            return;
          }
        }
      }
    }

    // A query of a run whose first one was, or is, for the child at position `first`.
    method Query(run: int, ghost first: nat, elem: nat) returns (diff: int)
      requires first < |kids| && elem < |kids| && Reverse(kids)[elem].isElement
      requires Filled(run, first) || (Unused(run) && first == elem)
      modifies this`known
      ensures Filled(run, first) && diff == Given(Reverse(kids), first, elem)
    {
      assert Filled(run, first) ==> Hit(run, elem);
      diff := NthLastChild(run, elem);
    }

    // The same in document order, and the filter's verdict.
    method Answer(run: int, ghost first: nat, e: nat, a: int, b: int) returns (diff: int, r: bool)
      requires first < |kids| && e < |kids| && kids[first].isElement && kids[e].isElement
      requires Filled(run, FromEnd(kids, first)) || (Unused(run) && first == e)
      modifies this`known
      ensures Filled(run, FromEnd(kids, first)) && Answered(kids, first, e, a, b, diff, r)
    {
      diff := Query(run, FromEnd(kids, first), FromEnd(kids, e));
      Answers(kids, first, e, a, b, diff);
      r := Accepts(a, b, diff);
    }

    predicate Unused(run: int)
      reads this
    {
      forall i :: i in known ==> known[i].run != run
    }

    predicate Hit(run: int, i: nat)
      reads this
    {
      i in known && known[i].run == run
    }

    // Every element carries what a walk for `first` gives it.
    ghost predicate Filled(run: int, first: nat)
      requires first < |kids|
      reads this
    {
      forall i: nat :: i < |kids| && Reverse(kids)[i].isElement ==>
        i in known && known[i] == Known(run, Given(Reverse(kids), first, i))
    }
  }

  // The positions the walk for `elem` has met when it stands at `node`.
  predicate Met(elem: nat, start: bool, node: nat, i: nat) {
    if start then elem < i <= node else elem < i || i <= node
  }

  ghost function Reached(line: seq<Kid>, elem: nat, start: bool, node: nat): int
    requires elem < |line| && node < |line|
  {
    Index(line, node, false, "") - if start then Index(line, elem, false, "") else 0
  }

  ghost predicate Numbered(known: map<nat, Known>, line: seq<Kid>, run: int, elem: nat, start: bool, node: nat)
    requires elem < |line|
  {
    forall i: nat :: i < |line| && line[i].isElement && Met(elem, start, node, i) ==>
      i in known && known[i] == Known(run, Given(line, elem, i))
  }

  // One move of the walk, and the number given to the element it comes to.
  lemma NumberOne(known: map<nat, Known>, line: seq<Kid>, run: int, elem: nat, start: bool, node: nat, start': bool, node': nat)
    requires elem < |line| && node < |line| && (if start then elem <= node else node < elem)
    requires Numbered(known, line, run, elem, start, node)
    requires if node + 1 < |line| then start' == start && node' == node + 1 else start && !start' && node' == 0
    ensures Reached(line, elem, start', node') ==
            (if node + 1 < |line| then Reached(line, elem, start, node) else 0) + if line[node'].isElement then 1 else 0
    ensures Numbered(if line[node'].isElement then known[node' := Known(run, Reached(line, elem, start', node'))] else known,
                     line, run, elem, start', node')
  {
    CountNext(line, node', false, "");
    assert line[..0] == [];
    var now := if line[node'].isElement then known[node' := Known(run, Reached(line, elem, start', node'))] else known;
    forall i: nat | i < |line| && line[i].isElement && Met(elem, start', node', i)
      ensures i in now && now[i] == Known(run, Given(line, elem, i))
    {
      assert i != node' ==> Met(elem, start, node, i);
    }
  }

  /** What the walk for `first` leaves on the element at position `i`, counted from the end:
      its index, or for an element met before the restart its distance from `first`. */
  ghost function Given(line: seq<Kid>, first: nat, i: nat): int
    requires first < |line| && i < |line|
  {
    Index(line, i, false, "") - if i <= first then 0 else Index(line, first, false, "")
  }

  /** So an index left behind is right exactly on the elements that do not precede `first`. */
  lemma GivenIsRight(line: seq<Kid>, first: nat, i: nat)
    requires first < |line| && i < |line| && line[first].isElement
    ensures Given(line, first, i) == Index(line, i, false, "") <==> i <= first
  {
    CountNext(line, first, false, "");
  }

  /** The smallest case: of three elements, ask for the second and then for the first.  The
      first is third from the end, and is told it is last. */
  lemma FirstOfThreeIsMiscounted()
    ensures var line := Reverse([Kid(true, "i"), Kid(true, "i"), Kid(true, "i")]);
            Given(line, 1, 1) == 2 && Given(line, 1, 2) == 1 && Index(line, 2, false, "") == 3
  {
    var line := Reverse([Kid(true, "i"), Kid(true, "i"), Kid(true, "i")]);
    assert line[..0] == [];
    CountNext(line, 0, false, "");
    CountNext(line, 1, false, "");
    CountNext(line, 2, false, "");
  }

  /** Queries of one run for :nth-last-child, children numbered in document order, from any
      cache left by other runs: the first is answered rightly, and a later one exactly if its
      child does not precede the first one's.  The answer is given in every case. */
  method NthLastChildQueries(p: Parent, run: int, a: int, b: int, elems: seq<nat>)
    returns (diffs: seq<int>, rs: seq<bool>)
    requires p.Unused(run)
    requires forall k :: 0 <= k < |elems| ==> elems[k] < |p.kids| && p.kids[elems[k]].isElement
    modifies p`known
    ensures |diffs| == |rs| == |elems|
    ensures forall k :: 0 <= k < |elems| ==> Answered(p.kids, elems[0], elems[k], a, b, diffs[k], rs[k])
  {
    diffs, rs := [], [];
    for k := 0 to |elems|
      invariant |diffs| == |rs| == k
      invariant k == 0 ==> p.Unused(run)
      invariant k > 0 ==> p.Filled(run, FromEnd(p.kids, elems[0]))
      invariant forall j :: 0 <= j < k ==> Answered(p.kids, elems[0], elems[j], a, b, diffs[j], rs[j])
    {
      var diff, r := p.Answer(run, elems[0], elems[k], a, b);
      diffs, rs := diffs + [diff], rs + [r];
    }
  }

  /** The count used for child `e` after a first query for child `first`, and the verdict. */
  ghost predicate Answered(kids: seq<Kid>, first: nat, e: nat, a: int, b: int, diff: int, r: bool)
    requires first < |kids| && e < |kids|
  {
    var line, i := Reverse(kids), FromEnd(kids, e);
    && diff == Given(line, FromEnd(kids, first), i)
    && (diff == Index(line, i, false, "") <==> e >= first)
    && (r <==> exists n: nat :: diff == a * n + b)
  }

  lemma Answers(kids: seq<Kid>, first: nat, e: nat, a: int, b: int, diff: int)
    requires first < |kids| && e < |kids| && kids[first].isElement
    requires diff == Given(Reverse(kids), FromEnd(kids, first), FromEnd(kids, e))
    ensures Answered(kids, first, e, a, b, diff, Accepts(a, b, diff))
  {
    GivenIsRight(Reverse(kids), FromEnd(kids, first), FromEnd(kids, e));
    AcceptsAnB(a, b, diff);
  }

  function FromEnd(kids: seq<Kid>, i: nat): nat
    requires i < |kids|
  {
    |kids| - 1 - i
  }

  /** Queries of one run, in any order, from any cache left by other runs: the filter accepts
      exactly the children at index a*n + b. */
  method NthChildQueries(p: Parent, run: int, a: int, b: int, elems: seq<nat>) returns (rs: seq<bool>)
    requires p.resume.Some? ==> p.resume.value.run != run
    requires forall k :: 0 <= k < |elems| ==> elems[k] < |p.kids| && p.kids[elems[k]].isElement
    modifies p`resume
    ensures |rs| == |elems|
    ensures forall k :: 0 <= k < |elems| ==>
              (rs[k] <==> exists n: nat :: Index(p.kids, elems[k], false, "") == a * n + b)
  {
    rs := [];
    for k := 0 to |elems|
      invariant |rs| == k && p.Coherent(run)
      invariant forall j :: 0 <= j < k ==>
                  (rs[j] <==> exists n: nat :: Index(p.kids, elems[j], false, "") == a * n + b)
    {
      var diff := p.NthChild(run, elems[k]);
      AcceptsAnB(a, b, diff);
      rs := rs + [Accepts(a, b, diff)];
    }
  }

  // ------------------------------------------------------- :first-, :last-, :only-child

  /** The simple filters look for any eligible sibling in a direction. */
  method NoneInDirection(kids: seq<Kid>, elem: nat, next: bool, ofType: bool) returns (r: bool)
    requires elem < |kids|
    ensures r <==> forall i :: 0 <= i < |kids| && (if next then i > elem else i < elem) ==>
                     !Eligible(kids[i], ofType, kids[elem].name)
  {
    var node: int := elem;
    while true
      invariant if next then elem <= node < |kids| else 0 <= node <= elem
      invariant forall i :: (if next then elem < i <= node else node <= i < elem) ==>
                  !Eligible(kids[i], ofType, kids[elem].name)
      decreases if next then |kids| - node else node
    {
      node := if next then node + 1 else node - 1;
      if node < 0 || node >= |kids| {
        return true;
      }
      if Eligible(kids[node], ofType, kids[elem].name) {
        return false;
      }
    }
  }

  lemma {:induction false} CountZero(line: seq<Kid>, ofType: bool, name: string)
    ensures Count(line, ofType, name) == 0 <==> forall i :: 0 <= i < |line| ==> !Eligible(line[i], ofType, name)
  {
    if line != [] {
      CountZero(line[..|line| - 1], ofType, name);
      assert forall i :: 0 <= i < |line| - 1 ==> line[..|line| - 1][i] == line[i];
    }
  }

  /** :first-child is :nth-child(1), and so for first-of-type. */
  lemma FirstIsIndexOne(kids: seq<Kid>, elem: nat, ofType: bool)
    requires elem < |kids| && Eligible(kids[elem], ofType, kids[elem].name)
    ensures Index(kids, elem, ofType, kids[elem].name) == 1 <==>
            forall i :: 0 <= i < elem ==> !Eligible(kids[i], ofType, kids[elem].name)
  {
    CountNext(kids, elem, ofType, kids[elem].name);
    CountZero(kids[..elem], ofType, kids[elem].name);
    assert forall i :: 0 <= i < elem ==> kids[..elem][i] == kids[i];
  }
}
