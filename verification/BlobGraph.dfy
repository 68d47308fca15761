/** The concurrent blob-graph loader of pk-get (cmd/pk-get/graph.go): every node is loaded by
    its own goroutine, which starts loads for the blobs its byte parts refer to; a wait group
    tells printGraph when the graph is complete. */
module BlobGraph {

  type Ref = nat    // zero is the invalid blobref

  /** The blob store: the refs of a blob's byte parts, two per part in order (BlobRef then
      BytesRef, either may be invalid); none if it is not a schema blob. */
  type Store = Ref -> seq<Ref>

  // The refs addEdge keeps.
  function Edges(refs: seq<Ref>): seq<Ref> {
    if refs == [] then [] else (if refs[0] == 0 then [] else [refs[0]]) + Edges(refs[1..])
  }

  /** They are all the valid refs: each as often as it occurs, in order, and no other. */
  lemma {:induction false} EdgesExactly(refs: seq<Ref>, r: Ref)
    ensures multiset(Edges(refs))[r] == if r == 0 then 0 else multiset(refs)[r]
  {
    if refs != [] {
      EdgesExactly(refs[1..], r);
      assert refs == [refs[0]] + refs[1..];
    }
  }

  lemma {:induction false} EdgesInOrder(a: seq<Ref>, b: seq<Ref>)
    ensures Edges(a + b) == Edges(a) + Edges(b)
  {
    if a == [] {
      assert a + b == b;
    } else {
      assert (a + b)[1..] == a[1..] + b;
      EdgesInOrder(a[1..], b);
    }
  }

  // ------------------------------------------------------------------------ transitions

  // How far n.load has got.  Linking: startLoadNode has returned, the edge is not yet appended.
  datatype Phase =
    | Fetching
    | Adding(todo: seq<Ref>)
    | Linking(dst: Ref, todo: seq<Ref>)
    | Loaded

  datatype Node = Node(phase: Phase, edges: seq<Ref>)

  datatype State = State(nodes: map<Ref, Node>, wg: nat, fetches: seq<Ref>)

  // startLoadNode, under the graph's mutex.
  function StartLoad(s: State, r: Ref): State {
    if r in s.nodes then s else s.(nodes := s.nodes[r := Node(Fetching, [])], wg := s.wg + 1)
  }

  function Init(root: Ref): State {
    StartLoad(State(map[], 0, []), root)
  }

  // One step of the goroutine loading `n`.
  predicate Enabled(s: State, n: Ref) {
    n in s.nodes && !s.nodes[n].phase.Loaded?
  }

  // Node n has moved on; a load that is done leaves the wait group.
  function Moved(s: State, n: Ref, node: Node): State {
    State(s.nodes[n := node], if node.phase.Loaded? && s.wg > 0 then s.wg - 1 else s.wg, s.fetches)
  }

  function Next(st: Store, s: State, n: Ref): State
    requires Enabled(s, n)
  {
    var node := s.nodes[n];
    match node.phase
    case Fetching => s.(nodes := s.nodes[n := node.(phase := Adding(st(n)))], fetches := s.fetches + [n])
    case Adding(todo) =>
      if todo == [] then Moved(s, n, node.(phase := Loaded))
      else if todo[0] == 0 then Moved(s, n, node.(phase := Adding(todo[1..])))
      else Moved(StartLoad(s, todo[0]), n, node.(phase := Linking(todo[0], todo[1..])))
    case Linking(dst, todo) => Moved(s, n, Node(Adding(todo), node.edges + [dst]))
  }

  ghost predicate Run(st: Store, s: State, steps: seq<Ref>, t: State)
    decreases |steps|
  {
    if steps == [] then s == t else Enabled(s, steps[0]) && Run(st, Next(st, s, steps[0]), steps[1..], t)
  }

  // g.wg.Wait() may return.
  predicate WaitReturns(s: State) {
    s.wg == 0
  }

  // ------------------------------------------------------------------------- reachability

  ghost predicate IsPath(st: Store, path: seq<Ref>) {
    forall i :: 0 <= i < |path| - 1 ==> path[i + 1] in Edges(st(path[i]))
  }

  ghost predicate PathTo(st: Store, root: Ref, r: Ref, path: seq<Ref>) {
    path != [] && path[0] == root && path[|path| - 1] == r && IsPath(st, path)
  }

  /** `r` can be reached from `root` by byte-part references. */
  ghost predicate Reachable(st: Store, root: Ref, r: Ref) {
    exists path :: PathTo(st, root, r, path)
  }

  lemma ReachStep(st: Store, root: Ref, r: Ref, d: Ref)
    requires Reachable(st, root, r) && d in Edges(st(r))
    ensures Reachable(st, root, d)
  {
    var path :| PathTo(st, root, r, path);
    var p := path + [d];
    forall i | 0 <= i < |p| - 1 ensures p[i + 1] in Edges(st(p[i])) {
      if i < |path| - 1 { assert path[i + 1] in Edges(st(path[i])); }
    }
    assert PathTo(st, root, d, p);
  }

  // --------------------------------------------------------------------------- invariant

  ghost function Unfinished(s: State): set<Ref> {
    set r | r in s.nodes && !s.nodes[r].phase.Loaded?
  }

  // The edges this node will have: those recorded, the one in hand, those to come.
  ghost function Planned(st: Store, n: Ref, node: Node): seq<Ref> {
    match node.phase
    case Fetching => node.edges + Edges(st(n))
    case Adding(todo) => node.edges + Edges(todo)
    case Linking(dst, todo) => node.edges + ([dst] + Edges(todo))
    case Loaded => node.edges
  }

  ghost predicate NodeOk(st: Store, root: Ref, s: State, n: Ref)
    requires n in s.nodes
  {
    var node := s.nodes[n];
    && Planned(st, n, node) == Edges(st(n))
    && Reachable(st, root, n)
    && (forall i :: 0 <= i < |node.edges| ==> node.edges[i] in s.nodes)
    && (node.phase.Linking? ==> node.phase.dst in s.nodes)
  }

  ghost predicate Inv(st: Store, root: Ref, s: State) {
    && root in s.nodes
    && s.wg == |Unfinished(s)|
    && (forall n :: n in s.nodes ==> NodeOk(st, root, s, n))
    // each node is fetched once, when its load begins
    && (forall n :: n in s.fetches <==> n in s.nodes && !s.nodes[n].phase.Fetching?)
    && (forall i, j :: 0 <= i < j < |s.fetches| ==> s.fetches[i] != s.fetches[j])
  }

  lemma InitInv(st: Store, root: Ref)
    ensures Inv(st, root, Init(root))
  {
    var s := Init(root);
    assert PathTo(st, root, root, [root]);
    assert Unfinished(s) == {root};
    assert [] + Edges(st(root)) == Edges(st(root));
  }

  // Starting a load never invalidates a node.
  lemma StartKeeps(st: Store, root: Ref, s: State, d: Ref, n: Ref)
    requires n in s.nodes && NodeOk(st, root, s, n)
    ensures NodeOk(st, root, StartLoad(s, d), n)
  {
  }

  lemma StartInv(st: Store, root: Ref, s: State, d: Ref)
    requires Inv(st, root, s) && Reachable(st, root, d)
    ensures Inv(st, root, StartLoad(s, d)) && d in StartLoad(s, d).nodes
  {
    var t := StartLoad(s, d);
    if d !in s.nodes {
      assert Unfinished(t) == Unfinished(s) + {d};
      assert [] + Edges(st(d)) == Edges(st(d));
      forall n | n in t.nodes ensures NodeOk(st, root, t, n) {
        if n != d { StartKeeps(st, root, s, d, n); }
      }
    }
  }

  // Nodes are never taken out of the map, so a node's obligations survive a change elsewhere.
  lemma ElsewhereOk(st: Store, root: Ref, s: State, t: State, m: Ref)
    requires m in s.nodes && m in t.nodes && t.nodes[m] == s.nodes[m] && s.nodes.Keys <= t.nodes.Keys
    requires NodeOk(st, root, s, m)
    ensures NodeOk(st, root, t, m)
  {
  }

  lemma MoveCount(s: State, n: Ref, node: Node)
    requires Enabled(s, n) && s.wg == |Unfinished(s)|
    ensures Moved(s, n, node).wg == |Unfinished(Moved(s, n, node))|
  {
    assert n in Unfinished(s);
    assert Unfinished(Moved(s, n, node)) == if node.phase.Loaded? then Unfinished(s) - {n} else Unfinished(s);
  }

  lemma MoveInv(st: Store, root: Ref, s: State, n: Ref, node: Node)
    requires Inv(st, root, s) && Enabled(s, n) && !node.phase.Fetching? && !s.nodes[n].phase.Fetching?
    requires Planned(st, n, node) == Edges(st(n))
    requires forall i :: 0 <= i < |node.edges| ==> node.edges[i] in s.nodes
    requires node.phase.Linking? ==> node.phase.dst in s.nodes
    ensures Inv(st, root, Moved(s, n, node))
  {
    var t := Moved(s, n, node);
    MoveCount(s, n, node);
    assert t.nodes.Keys == s.nodes.Keys;
    assert NodeOk(st, root, s, n);
    forall m | m in t.nodes ensures NodeOk(st, root, t, m) {
      if m != n { ElsewhereOk(st, root, s, t, m); }
    }
  }

  lemma FetchInv(st: Store, root: Ref, s: State, n: Ref)
    requires Inv(st, root, s) && Enabled(s, n) && s.nodes[n].phase.Fetching?
    ensures Inv(st, root, Next(st, s, n))
  {
    var t := Next(st, s, n);
    assert Unfinished(t) == Unfinished(s);
    assert NodeOk(st, root, s, n);
    forall m | m in t.nodes ensures NodeOk(st, root, t, m) {
      if m != n { assert NodeOk(st, root, s, m); }
    }
  }

  // The next part reference of n is one of its edges, and n stays loading.
  lemma LinkTarget(st: Store, root: Ref, s: State, n: Ref)
    requires n in s.nodes && NodeOk(st, root, s, n) && s.nodes[n].phase.Adding?
    requires s.nodes[n].phase.todo != [] && s.nodes[n].phase.todo[0] != 0
    ensures var d, rest := s.nodes[n].phase.todo[0], s.nodes[n].phase.todo[1..];
            Reachable(st, root, d) && s.nodes[n].edges + ([d] + Edges(rest)) == Edges(st(n))
  {
    var node := s.nodes[n];
    var d := node.phase.todo[0];
    assert Edges(st(n))[|node.edges|] == d;
    ReachStep(st, root, n, d);
  }

  lemma LinkInv(st: Store, root: Ref, s: State, n: Ref)
    requires Inv(st, root, s) && Enabled(s, n) && s.nodes[n].phase.Adding?
    requires s.nodes[n].phase.todo != [] && s.nodes[n].phase.todo[0] != 0
    ensures Inv(st, root, Next(st, s, n))
  {
    var node := s.nodes[n];
    var d, rest := node.phase.todo[0], node.phase.todo[1..];
    assert NodeOk(st, root, s, n);
    LinkTarget(st, root, s, n);
    StartInv(st, root, s, d);
    MoveInv(st, root, StartLoad(s, d), n, node.(phase := Linking(d, rest)));
  }

  lemma AddInv(st: Store, root: Ref, s: State, n: Ref)
    requires Inv(st, root, s) && Enabled(s, n) && s.nodes[n].phase.Adding?
    requires s.nodes[n].phase.todo == [] || s.nodes[n].phase.todo[0] == 0
    ensures Inv(st, root, Next(st, s, n))
  {
    var node := s.nodes[n];
    var todo := node.phase.todo;
    assert NodeOk(st, root, s, n);
    if todo == [] {
      assert node.edges + [] == node.edges;
      MoveInv(st, root, s, n, node.(phase := Loaded));
    } else {
      assert [] + Edges(todo[1..]) == Edges(todo[1..]);
      MoveInv(st, root, s, n, node.(phase := Adding(todo[1..])));
    }
  }

  lemma AppendInv(st: Store, root: Ref, s: State, n: Ref)
    requires Inv(st, root, s) && Enabled(s, n) && s.nodes[n].phase.Linking?
    ensures Inv(st, root, Next(st, s, n))
  {
    var node := s.nodes[n];
    var dst, todo := node.phase.dst, node.phase.todo;
    assert NodeOk(st, root, s, n);
    assert node.edges + ([dst] + Edges(todo)) == (node.edges + [dst]) + Edges(todo);
    MoveInv(st, root, s, n, Node(Adding(todo), node.edges + [dst]));
  }

  lemma StepInv(st: Store, root: Ref, s: State, n: Ref)
    requires Inv(st, root, s) && Enabled(s, n)
    ensures Inv(st, root, Next(st, s, n))
  {
    var phase := s.nodes[n].phase;
    if phase.Fetching? {
      FetchInv(st, root, s, n);
    } else if phase.Linking? {
      AppendInv(st, root, s, n);
    } else if phase.todo == [] || phase.todo[0] == 0 {
      AddInv(st, root, s, n);
    } else {
      LinkInv(st, root, s, n);
    }
  }

  lemma {:induction false} RunInv(st: Store, root: Ref, s: State, steps: seq<Ref>, t: State)
    requires Inv(st, root, s) && Run(st, s, steps, t)
    ensures Inv(st, root, t)
    decreases |steps|
  {
    if steps != [] {
      StepInv(st, root, s, steps[0]);
      RunInv(st, root, Next(st, s, steps[0]), steps[1..], t);
    }
  }

  // ---------------------------------------------------------------------------- theorems

  /** The wait group always counts nodes created minus loads finished, so it is zero only when
      no load is running. */
  lemma WaitCount(st: Store, root: Ref, steps: seq<Ref>, t: State)
    requires Run(st, Init(root), steps, t)
    ensures t.wg == |Unfinished(t)|
    ensures WaitReturns(t) <==> forall n :: n in t.nodes ==> t.nodes[n].phase.Loaded?
  {
    InitInv(st, root);
    RunInv(st, root, Init(root), steps, t);
    if WaitReturns(t) {
      forall n | n in t.nodes ensures t.nodes[n].phase.Loaded? {
        assert n !in Unfinished(t);
      }
    } else {
      assert Unfinished(t) != {};
      var n :| n in Unfinished(t);
    }
  }

  lemma {:induction false} PathLoaded(st: Store, root: Ref, s: State, path: seq<Ref>, k: nat)
    requires Inv(st, root, s) && (forall n :: n in s.nodes ==> s.nodes[n].phase.Loaded?)
    requires path != [] && path[0] == root && IsPath(st, path) && k < |path|
    ensures path[k] in s.nodes
  {
    if k > 0 {
      PathLoaded(st, root, s, path, k - 1);
      assert NodeOk(st, root, s, path[k - 1]);
      assert path[(k - 1) + 1] in Edges(st(path[k - 1]));
    }
  }

  /** When Wait returns, the nodes are exactly the blobs reachable from the root, each fetched
      exactly once; each node's edges are its valid part references in order; and every edge
      target is a node. */
  lemma GraphComplete(st: Store, root: Ref, steps: seq<Ref>, t: State)
    requires Run(st, Init(root), steps, t) && WaitReturns(t)
    ensures forall r :: r in t.nodes <==> Reachable(st, root, r)
    ensures forall r :: r in t.nodes <==> r in t.fetches
    ensures forall i, j :: 0 <= i < j < |t.fetches| ==> t.fetches[i] != t.fetches[j]
    ensures forall n :: n in t.nodes ==> t.nodes[n].edges == Edges(st(n))
    ensures forall n, i :: n in t.nodes && 0 <= i < |t.nodes[n].edges| ==> t.nodes[n].edges[i] in t.nodes
  {
    InitInv(st, root);
    RunInv(st, root, Init(root), steps, t);
    WaitCount(st, root, steps, t);
    forall r ensures r in t.nodes <==> Reachable(st, root, r) {
      if r in t.nodes {
        assert NodeOk(st, root, t, r);
      }
      if Reachable(st, root, r) {
        var path :| PathTo(st, root, r, path);
        PathLoaded(st, root, t, path, |path| - 1);
      }
    }
    forall n | n in t.nodes ensures t.nodes[n].edges == Edges(st(n)) {
      assert NodeOk(st, root, t, n);
    }
    forall n, i | n in t.nodes && 0 <= i < |t.nodes[n].edges| ensures t.nodes[n].edges[i] in t.nodes {
      assert NodeOk(st, root, t, n);
    }
  }

  // ------------------------------------------------------------------------- termination

  // Steps still to be taken for a ref.
  ghost function Work(st: Store, s: State, r: Ref): nat {
    if r !in s.nodes then 2 * |st(r)| + 3
    else match s.nodes[r].phase
      case Fetching => 2 * |st(r)| + 2
      case Adding(todo) => 2 * |todo| + 1
      case Linking(_, todo) => 2 * |todo| + 2
      case Loaded => 0
  }

  ghost function WorkLeft(st: Store, s: State, blobs: seq<Ref>): nat {
    if blobs == [] then 0 else Work(st, s, blobs[0]) + WorkLeft(st, s, blobs[1..])
  }

  lemma {:induction false} WorkLess(st: Store, s: State, t: State, blobs: seq<Ref>, k: nat)
    requires forall r :: Work(st, t, r) <= Work(st, s, r)
    requires k <= |blobs| && (k < |blobs| ==> Work(st, t, blobs[k]) < Work(st, s, blobs[k]))
    ensures if k < |blobs| then WorkLeft(st, t, blobs) < WorkLeft(st, s, blobs) else WorkLeft(st, t, blobs) <= WorkLeft(st, s, blobs)
  {
    if blobs != [] {
      if k == 0 {
        WorkLess(st, s, t, blobs[1..], |blobs| - 1);
      } else {
        WorkLess(st, s, t, blobs[1..], k - 1);
      }
    }
  }

  // A finite store: `blobs` holds the root and whatever its blobs refer to.
  ghost predicate Closed(st: Store, root: Ref, blobs: seq<Ref>) {
    root in blobs && forall r, d :: r in blobs && d in Edges(st(r)) ==> d in blobs
  }

  lemma {:induction false} ReachableWithin(st: Store, root: Ref, blobs: seq<Ref>, path: seq<Ref>, k: nat)
    requires Closed(st, root, blobs) && path != [] && path[0] == root && IsPath(st, path) && k < |path|
    ensures path[k] in blobs
  {
    if k > 0 {
      ReachableWithin(st, root, blobs, path, k - 1);
      assert path[(k - 1) + 1] in Edges(st(path[k - 1]));
    }
  }

  lemma ReachableInBlobs(st: Store, root: Ref, n: Ref, blobs: seq<Ref>)
    requires Closed(st, root, blobs) && Reachable(st, root, n)
    ensures n in blobs
  {
    var path :| PathTo(st, root, n, path);
    ReachableWithin(st, root, blobs, path, |path| - 1);
  }

  lemma StepWork(st: Store, s: State, n: Ref, r: Ref)
    requires Enabled(s, n)
    ensures if r == n then Work(st, Next(st, s, n), r) < Work(st, s, r) else Work(st, Next(st, s, n), r) <= Work(st, s, r)
  {
  }

  lemma StepWorks(st: Store, s: State, n: Ref, blobs: seq<Ref>)
    requires Enabled(s, n) && n in blobs
    ensures WorkLeft(st, Next(st, s, n), blobs) < WorkLeft(st, s, blobs)
  {
    var t := Next(st, s, n);
    forall r ensures Work(st, t, r) <= Work(st, s, r) { StepWork(st, s, n, r); }
    StepWork(st, s, n, n);
    var k :| 0 <= k < |blobs| && blobs[k] == n;
    WorkLess(st, s, t, blobs, k);
  }

  /** Over a finite store every run is bounded, and it goes on until Wait returns. */
  lemma {:induction false} LoadingEnds(st: Store, root: Ref, s: State, steps: seq<Ref>, t: State, blobs: seq<Ref>)
    requires Inv(st, root, s) && Run(st, s, steps, t) && Closed(st, root, blobs)
    ensures |steps| + WorkLeft(st, t, blobs) <= WorkLeft(st, s, blobs)
    ensures WaitReturns(t) || exists n :: Enabled(t, n)
    decreases |steps|
  {
    if steps == [] {
      if !WaitReturns(t) {
        assert Unfinished(t) != {};
        var n :| n in Unfinished(t);
        assert Enabled(t, n);
      }
    } else {
      StepInv(st, root, s, steps[0]);
      assert NodeOk(st, root, s, steps[0]);
      ReachableInBlobs(st, root, steps[0], blobs);
      StepWorks(st, s, steps[0], blobs);
      LoadingEnds(st, root, Next(st, s, steps[0]), steps[1..], t, blobs);
    }
  }
}
