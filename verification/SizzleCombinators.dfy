/** The cached ancestor/sibling combinators of Sizzle (app/publisher/jquery.js, addCombinator).

    A combinator walks up `parentNode` or `previousSibling`.  Every element it passes gets, in
    its one slot for that direction, the very same cache cell; when the walk ends, the cell's
    final value becomes the answer for all of them at once.  Compiled selectors nest, so the
    matcher run on each element may itself walk, and overwrite slots, on behalf of other
    combinators. */
module SizzleCombinators {
  import opened Wrappers

  // DOM nodes, numbered in document order.
  type Elem = nat

  datatype Dir = ParentNode | PreviousSibling

  datatype Dom = Dom(parent: map<Elem, Elem>, previous: map<Elem, Elem>, elements: set<Elem>)

  ghost predicate DocumentOrder(dom: Dom) {
    && (forall e :: e in dom.parent ==> dom.parent[e] < e)
    && (forall e :: e in dom.previous ==> dom.previous[e] < e)
  }

  // elem[ dir ]
  function Up(dom: Dom, dir: Dir, e: Elem): Option<Elem> {
    match dir
    case ParentNode => if e in dom.parent then Some(dom.parent[e]) else None
    case PreviousSibling => if e in dom.previous then Some(dom.previous[e]) else None
  }

  /** A compiled matcher.  `name` is the combinator's doneName. */
  datatype Matcher =
    | Test(p: Elem -> bool)
    | All(ms: seq<Matcher>)
    | Comb(name: nat, dir: Dir, first: bool, base: bool, inner: Matcher)

  // elem.nodeType === 1 || checkNonElements
  predicate Counts(dom: Dom, c: Matcher, e: Elem)
    requires c.Comb?
  {
    e in dom.elements || (c.base && c.dir == ParentNode)
  }

  // ------------------------------------------------------------------ uncached meaning

  /** What a matcher means, with no caching. */
  ghost predicate Sat(dom: Dom, m: Matcher, e: Elem)
    requires DocumentOrder(dom)
    decreases m, 1, e
  {
    match m
    case Test(p) => p(e)
    case All(ms) => forall i :: 0 <= i < |ms| ==> Sat(dom, ms[i], e)
    case Comb(_, _, first, _, _) => if first then Nearest(dom, m, e) else Walk(dom, m, e)
  }

  // The closest counted element in the direction satisfies the inner matcher.
  ghost predicate Nearest(dom: Dom, c: Matcher, e: Elem)
    requires DocumentOrder(dom) && c.Comb?
    decreases c, 0, e
  {
    match Up(dom, c.dir, e)
    case None => false
    case Some(a) => if Counts(dom, c, a) then Sat(dom, c.inner, a) else Nearest(dom, c, a)
  }

  // Some counted element in the direction satisfies the inner matcher.
  ghost predicate Walk(dom: Dom, c: Matcher, e: Elem)
    requires DocumentOrder(dom) && c.Comb?
    decreases c, 0, e
  {
    match Up(dom, c.dir, e)
    case None => false
    case Some(a) => (Counts(dom, c, a) && Sat(dom, c.inner, a)) || Walk(dom, c, a)
  }

  /** The ancestors of a node, nearest first, and its previous siblings, nearest first. */
  ghost function Ancestors(dom: Dom, e: Elem): seq<Elem>
    requires DocumentOrder(dom)
    decreases e
  {
    if e in dom.parent then [dom.parent[e]] + Ancestors(dom, dom.parent[e]) else []
  }

  ghost function Siblings(dom: Dom, e: Elem): seq<Elem>
    requires DocumentOrder(dom)
    decreases e
  {
    if e in dom.previous then [dom.previous[e]] + Siblings(dom, dom.previous[e]) else []
  }

  function Among(s: seq<Elem>, elements: set<Elem>): seq<Elem> {
    if s == [] then [] else (if s[0] in elements then [s[0]] else []) + Among(s[1..], elements)
  }

  lemma {:induction false} AmongIsFilter(s: seq<Elem>, elements: set<Elem>)
    ensures forall x :: x in Among(s, elements) <==> x in s && x in elements
  {
    if s != [] {
      AmongIsFilter(s[1..], elements);
      assert s == [s[0]] + s[1..];
    }
  }

  /** The nodes a combinator is about: previous siblings that are elements; ancestors that are
      elements, or all ancestors for a matcher made for the base of a selector. */
  ghost function Candidates(dom: Dom, dir: Dir, base: bool, e: Elem): seq<Elem>
    requires DocumentOrder(dom)
  {
    match dir
    case PreviousSibling => Among(Siblings(dom, e), dom.elements)
    case ParentNode => if base then Ancestors(dom, e) else Among(Ancestors(dom, e), dom.elements)
  }

  // One move up, in terms of the candidates.
  lemma CandidatesStep(dom: Dom, c: Matcher, e: Elem)
    requires DocumentOrder(dom) && c.Comb?
    ensures match Up(dom, c.dir, e)
            case None => Candidates(dom, c.dir, c.base, e) == []
            case Some(a) =>
              a < e && Candidates(dom, c.dir, c.base, e) ==
                (if Counts(dom, c, a) then [a] else []) + Candidates(dom, c.dir, c.base, a)
  {
    var up := Up(dom, c.dir, e);
    if up.Some? {
      var a := up.value;
      assert c.dir == ParentNode ==> ([a] + Ancestors(dom, a))[1..] == Ancestors(dom, a);
      assert c.dir == PreviousSibling ==> ([a] + Siblings(dom, a))[1..] == Siblings(dom, a);
    }
  }

  /** What a combinator means, in terms of the document alone: a `first` one is decided by the
      nearest candidate, another by whether any candidate satisfies the inner matcher. */
  lemma CombinatorMeans(dom: Dom, c: Matcher, e: Elem)
    requires DocumentOrder(dom) && c.Comb?
    ensures var nodes := Candidates(dom, c.dir, c.base, e);
            Sat(dom, c, e) <==>
              if c.first then nodes != [] && Sat(dom, c.inner, nodes[0])
              else exists i :: 0 <= i < |nodes| && Sat(dom, c.inner, nodes[i])
  {
    if c.first {
      NearestIsFirst(dom, c, e);
    } else {
      WalkIsExists(dom, c, e);
    }
  }

  /** A `first` combinator looks only at the nearest candidate. */
  lemma {:induction false} NearestIsFirst(dom: Dom, c: Matcher, e: Elem)
    requires DocumentOrder(dom) && c.Comb?
    ensures var nodes := Candidates(dom, c.dir, c.base, e);
            Nearest(dom, c, e) <==> nodes != [] && Sat(dom, c.inner, nodes[0])
    decreases e
  {
    CandidatesStep(dom, c, e);
    var up := Up(dom, c.dir, e);
    if up.Some? && !Counts(dom, c, up.value) {
      NearestIsFirst(dom, c, up.value);
    }
  }

  /** Another holds when some candidate matches. */
  lemma {:induction false} WalkIsExists(dom: Dom, c: Matcher, e: Elem)
    requires DocumentOrder(dom) && c.Comb?
    ensures var nodes := Candidates(dom, c.dir, c.base, e);
            Walk(dom, c, e) <==> exists i :: 0 <= i < |nodes| && Sat(dom, c.inner, nodes[i])
    decreases e
  {
    CandidatesStep(dom, c, e);
    var up := Up(dom, c.dir, e);
    if up.Some? {
      WalkIsExists(dom, c, up.value);
      var nodes, rest := Candidates(dom, c.dir, c.base, e), Candidates(dom, c.dir, c.base, up.value);
      if Counts(dom, c, up.value) {
        assert nodes[0] == up.value;
        assert forall i :: 0 <= i < |rest| ==> nodes[i + 1] == rest[i];
      } else {
        assert nodes == rest;
      }
    }
  }

  // ------------------------------------------------------------------------- doneNames

  ghost function Names(m: Matcher): set<nat> {
    match m
    case Test(_) => {}
    case All(ms) => set i, n | 0 <= i < |ms| && n in Names(ms[i]) :: n
    case Comb(name, _, _, _, inner) => {name} + Names(inner)
  }

  /** doneName = done++ : a name belongs to one combinator, made after those inside it. */
  ghost predicate Compiled(reg: map<nat, Matcher>, m: Matcher) {
    match m
    case Test(_) => true
    case All(ms) => forall i :: 0 <= i < |ms| ==> Compiled(reg, ms[i])
    case Comb(name, _, _, _, inner) =>
      && name in reg && reg[name] == m && Compiled(reg, inner)
      && forall n :: n in Names(inner) ==> n < name
  }

  // [ dirruns, doneName, result ]
  class Cell {
    const run: int
    const name: nat
    var value: bool

    constructor (run: int, name: nat)
      ensures this.run == run && this.name == name && !value
    {
      this.run, this.name, value := run, name, false;
    }
  }

  type Slots = map<(Dir, Elem), Cell>

  class Sizzle {
    const dom: Dom
    const dirruns: int
    ghost const reg: map<nat, Matcher>
    var slots: Slots    // uniqueCache[ dir ] of each element

    constructor (dom: Dom, dirruns: int, ghost reg: map<nat, Matcher>, slots: Slots)
      ensures this.dom == dom && this.dirruns == dirruns && this.reg == reg && this.slots == slots
    {
      this.dom, this.dirruns, this.reg, this.slots := dom, dirruns, reg, slots;
    }

    // A cell of this run answers for the element whose slot it is in.
    ghost predicate Truthful(key: (Dir, Elem), c: Cell)
      requires DocumentOrder(dom)
      reads c
    {
      c.run == dirruns ==>
        && c.name in reg && reg[c.name].Comb? && reg[c.name].dir == key.0
        && c.value == (Sat(dom, reg[c.name].inner, key.1) || Walk(dom, reg[c.name], key.1))
    }

    // Every slot that a combinator of `names` would trust is truthful.
    ghost predicate Coherent(names: set<nat>)
      requires DocumentOrder(dom)
      reads this, set k | k in slots :: slots[k]
    {
      forall k :: k in slots && slots[k].name in names ==> Truthful(k, slots[k])
    }

    // Slots differ from `before` only by new truthful cells of combinators in `names`.
    ghost predicate Extends(before: Slots, names: set<nat>)
      requires DocumentOrder(dom)
      reads this, set k | k in slots :: slots[k]
    {
      forall k :: k in slots ==>
        (k in before && slots[k] == before[k]) || (slots[k].name in names && Truthful(k, slots[k]))
    }

    /** Runs a compiled matcher as Sizzle does, caches and all: the answer is the uncached
        one, and every slot written holds a cell that will give uncached answers. */
    method Run(m: Matcher, e: Elem, xml: bool) returns (r: bool)
      requires DocumentOrder(dom) && Compiled(reg, m) && Coherent(Names(m))
      modifies this
      ensures r == Sat(dom, m, e)
      ensures Extends(old(slots), Names(m))
      ensures forall k :: k in slots ==> (k in old(slots) && slots[k] == old(slots[k])) || fresh(slots[k])
      decreases m, 1
    {
      match m
      case Test(p) =>
        r := p(e);
      case All(ms) =>
        r := RunAll(m, e, xml);
      case Comb(_, _, first, _, _) =>
        if first {
          r := RunNearest(m, e, xml);
        } else if xml {
          r := RunUncached(m, e);
        } else {
          r := RunCached(m, e);
        }
    }

    // elementMatcher: the conjunction, tried from the last matcher back.
    method RunAll(m: Matcher, e: Elem, xml: bool) returns (r: bool)
      requires DocumentOrder(dom) && m.All? && Compiled(reg, m) && Coherent(Names(m))
      modifies this
      ensures r == Sat(dom, m, e)
      ensures Extends(old(slots), Names(m))
      ensures forall k :: k in slots ==> (k in old(slots) && slots[k] == old(slots[k])) || fresh(slots[k])
      decreases m, 0
    {
      var i := |m.ms|;
      while i > 0
        invariant 0 <= i <= |m.ms|
        invariant forall j :: i <= j < |m.ms| ==> Sat(dom, m.ms[j], e)
        invariant Extends(old(slots), Names(m))
        invariant forall k :: k in slots ==> (k in old(slots) && slots[k] == old(slots[k])) || fresh(slots[k])
      {
        i := i - 1;
        assert Names(m.ms[i]) <= Names(m);
        var ok := Run(m.ms[i], e, xml);
        if !ok {
          return false;
        }
      }
      r := true;
    }

    // Check against closest ancestor/preceding element.
    method RunNearest(c: Matcher, e: Elem, xml: bool) returns (r: bool)
      requires DocumentOrder(dom) && c.Comb? && c.first && Compiled(reg, c) && Coherent(Names(c))
      modifies this
      ensures r == Sat(dom, c, e)
      ensures Extends(old(slots), Names(c))
      ensures forall k :: k in slots ==> (k in old(slots) && slots[k] == old(slots[k])) || fresh(slots[k])
      decreases c, 0
    {
      var x := e;
      while Up(dom, c.dir, x).Some?
        invariant Nearest(dom, c, e) == Nearest(dom, c, x)
        invariant slots == old(slots)
        decreases x
      {
        x := Up(dom, c.dir, x).value;
        if Counts(dom, c, x) {
          r := Run(c.inner, x, xml);
          return;
        }
      }
      r := false;
    }

    // XML nodes carry no data, so nothing is cached.
    method RunUncached(c: Matcher, e: Elem) returns (r: bool)
      requires DocumentOrder(dom) && c.Comb? && !c.first && Compiled(reg, c) && Coherent(Names(c))
      modifies this
      ensures r == Sat(dom, c, e)
      ensures Extends(old(slots), Names(c))
      ensures forall k :: k in slots ==> (k in old(slots) && slots[k] == old(slots[k])) || fresh(slots[k])
      decreases c, 0
    {
      var x := e;
      while Up(dom, c.dir, x).Some?
        invariant Walk(dom, c, e) == Walk(dom, c, x)
        invariant Extends(old(slots), Names(c))
        invariant forall k :: k in slots ==> (k in old(slots) && slots[k] == old(slots[k])) || fresh(slots[k])
        decreases x
      {
        x := Up(dom, c.dir, x).value;
        if Counts(dom, c, x) {
          var ok := Run(c.inner, x, true);
          if ok {
            return true;
          }
        }
      }
      r := false;
    }

    // Check against all ancestor/preceding elements, with the shared cell.
    method RunCached(c: Matcher, e: Elem) returns (r: bool)
      requires DocumentOrder(dom) && c.Comb? && !c.first && Compiled(reg, c) && Coherent(Names(c))
      modifies this
      ensures r == Sat(dom, c, e)
      ensures Extends(old(slots), Names(c))
      ensures forall k :: k in slots ==> (k in old(slots) && slots[k] == old(slots[k])) || fresh(slots[k])
      decreases c, 0
    {
      var newCache := new Cell(dirruns, c.name);
      var x := e;
      while Up(dom, c.dir, x).Some?
        invariant Walk(dom, c, e) == Walk(dom, c, x)
        invariant !newCache.value
        // a slot is as it was, or holds the shared cell, whose element now hangs on the
        // rest of the walk, or was written by a combinator inside this one
        invariant forall k :: k in slots ==>
                    || (k in old(slots) && slots[k] == old(slots[k]))
                    || (slots[k] == newCache && k.0 == c.dir && x <= k.1 && !Sat(dom, c.inner, k.1) && Walk(dom, c, k.1) == Walk(dom, c, x))
                    || (fresh(slots[k]) && slots[k].name in Names(c.inner) && slots[k] != newCache && Truthful(k, slots[k]))
        decreases x
      {
        x := Up(dom, c.dir, x).value;
        if Counts(dom, c, x) {
          var key := (c.dir, x);
          if key in slots && slots[key].run == dirruns && slots[key].name == c.name {
            newCache.value := slots[key].value;
            return newCache.value;
          }
          slots := slots[key := newCache];
          var ok := Run(c.inner, x, false);
          newCache.value := ok;
          if ok {
            return true;
          }
        }
      }
      r := false;
    }
  }

  // One use of a compiled matcher on an element.
  datatype Query = Query(m: Matcher, e: Elem, xml: bool)

  /** Any sequence of queries within one run, by any of the matchers compiled, in any order,
      from slots left by other runs. */
  method Queries(s: Sizzle, qs: seq<Query>) returns (rs: seq<bool>)
    requires DocumentOrder(s.dom) && forall i :: 0 <= i < |qs| ==> Compiled(s.reg, qs[i].m)
    requires forall k :: k in s.slots ==> s.slots[k].run != s.dirruns
    modifies s
    ensures |rs| == |qs| && forall i :: 0 <= i < |rs| ==> rs[i] == Sat(s.dom, qs[i].m, qs[i].e)
  {
    rs := [];
    for i := 0 to |qs|
      invariant |rs| == i && forall k :: k in s.slots ==> s.Truthful(k, s.slots[k])
      invariant forall j :: 0 <= j < i ==> rs[j] == Sat(s.dom, qs[j].m, qs[j].e)
    {
      var r := s.Run(qs[i].m, qs[i].e, qs[i].xml);
      rs := rs + [r];
    }
  }
}
