/** The scanner of pk-put (cmd/pk-put/files.go, statPath): a depth-first walk that sends every
    node after its children, and the theorem that ties a finished upload to a plain recursion
    over the file system. */
module TreeScan {
  import opened Ordering
  import opened TreeUpload
  import opened TreeUploadSafety
  import opened TreeUploadTermination

  /** A file system tree.  Names within a directory are unique, hence a map. */
  datatype Fs =
    | File(size: nat, sys: string)
    | Dir(size: nat, sys: string, kids: map<string, Fs>)

  // An entry as Readdir returns it, reduced to what byTypeAndName looks at.
  datatype Entry = Entry(name: string, isDir: bool)

  // Files go before directories; within each, by name.
  predicate ByTypeAndName(a: Entry, b: Entry) {
    if a.isDir != b.isDir then b.isDir else Less(a.name, b.name)
  }

  lemma ByTypeAndNameIsStrictTotal()
    ensures StrictTotal(ByTypeAndName)
  {
    LessIsStrictTotal();
    assert forall a: Entry, b: Entry :: a == b <==> a.name == b.name && a.isDir == b.isDir;
  }

  // The entries of a directory, in no particular order.
  ghost predicate Lists(kids: map<string, Fs>, es: seq<Entry>) {
    && (forall e :: e in es ==> e.name in kids && e.isDir == kids[e.name].Dir?)
    && (forall name :: name in kids ==> Entry(name, kids[name].Dir?) in es)
  }

  /** `es` is one order in which Readdir may return the entries of a directory. */
  ghost predicate ReaddirOrder(kids: map<string, Fs>, es: seq<Entry>) {
    Lists(kids, es) && Distinct(es)
  }

  // What Readdir returns for the directory at a path.
  type Readdir = (string, map<string, Fs>) -> seq<Entry>

  ghost predicate ValidReaddir(rd: Readdir) {
    forall path, kids :: ReaddirOrder(kids, rd(path, kids))
  }

  ghost predicate SortedListing(kids: map<string, Fs>, es: seq<Entry>) {
    Lists(kids, es) && Ascending(ByTypeAndName, es)
  }

  // Sorting leaves no trace of the order Readdir chose.
  lemma SortedListingUnique(kids: map<string, Fs>, a: seq<Entry>, b: seq<Entry>)
    requires SortedListing(kids, a) && SortedListing(kids, b)
    ensures a == b
  {
    ByTypeAndNameIsStrictTotal();
    forall e ensures e in a <==> e in b {
      assert e in a ==> e == Entry(e.name, kids[e.name].Dir?);
      assert e in b ==> e == Entry(e.name, kids[e.name].Dir?);
    }
    AscendingUnique(ByTypeAndName, a, b);
  }

  lemma ListingInsert(kids: map<string, Fs>, name: string, rest: seq<Entry>)
    requires name in kids && SortedListing(kids - {name}, rest)
    ensures SortedListing(kids, Insert(ByTypeAndName, Entry(name, kids[name].Dir?), rest))
  {
    var x := Entry(name, kids[name].Dir?);
    var es := Insert(ByTypeAndName, x, rest);
    assert x !in rest;
    ByTypeAndNameIsStrictTotal();
    InsertAscends(ByTypeAndName, x, rest);
    InsertPermutes(ByTypeAndName, x, rest);
    forall e ensures e in es <==> e == x || e in rest {
      assert e in es <==> e in multiset(es);
      assert e in rest <==> e in multiset(rest);
    }
    forall n | n in kids ensures Entry(n, kids[n].Dir?) in es {
      assert n == name || n in kids - {name};
    }
  }

  lemma {:induction false} ListingExists(kids: map<string, Fs>) returns (es: seq<Entry>)
    ensures SortedListing(kids, es)
    decreases kids.Keys
  {
    if kids.Keys == {} {
      es := [];
    } else {
      var name :| name in kids;
      assert (kids - {name}).Keys == kids.Keys - {name};
      var rest := ListingExists(kids - {name});
      ListingInsert(kids, name, rest);
      es := Insert(ByTypeAndName, Entry(name, kids[name].Dir?), rest);
    }
  }

  /** The members of a directory in the order they appear in its static set. */
  ghost function Listing(kids: map<string, Fs>): (es: seq<Entry>)
    ensures SortedListing(kids, es)
  {
    assert exists es :: SortedListing(kids, es) by {
      var es := ListingExists(kids);
    }
    var es :| SortedListing(kids, es);
    es
  }

  /** The order in plain terms: no directory stands before a file, and within each kind the
      names first differ in a smaller character or the first is a proper prefix of the second. */
  lemma ListingOrder(kids: map<string, Fs>, i: nat, j: nat)
    requires i < j < |Listing(kids)|
    ensures var (a, b) := (Listing(kids)[i], Listing(kids)[j]);
            && a.name in kids && b.name in kids
            && !(kids[a.name].Dir? && kids[b.name].File?)
            && (kids[a.name].Dir? == kids[b.name].Dir? ==> exists k: nat :: DiffersAt(a.name, b.name, k))
  {
    var (a, b) := (Listing(kids)[i], Listing(kids)[j]);
    assert ByTypeAndName(a, b);
    LessMeans(a.name, b.name);
  }

  function Join(dir: string, name: string): string {
    if dir != [] && dir[|dir| - 1] == '/' then dir + name else dir + "/" + name
  }

  function InfoOf(fs: Fs, path: string): Info {
    Info(path, fs.Dir?, fs.size, fs.sys)
  }

  datatype Found = Nothing | At(n: nat)

  // -------------------------------------------------------------- the reference recursion

  /** What the upload of a tree should return: bottom-up, with directory members in sorted
      order and ignored paths left out. */
  ghost function TreeRef(env: Env, ignored: string -> bool, fs: Fs, path: string): BlobRef
    decreases fs, 1, 0
  {
    match fs
    case File(_, _) => env.fileRef(InfoOf(fs, path))
    case Dir(_, _, kids) => env.dirRef(InfoOf(fs, path), MemberRefs(env, ignored, fs, path, Listing(kids)))
  }

  ghost function MemberRefs(env: Env, ignored: string -> bool, fs: Fs, path: string, es: seq<Entry>): seq<BlobRef>
    requires fs.Dir? && forall e :: e in es ==> e.name in fs.kids
    decreases fs, 0, |es|
  {
    if es == [] then []
    else
      var rest := MemberRefs(env, ignored, fs, path, es[1..]);
      var kid := Join(path, es[0].name);
      if ignored(kid) then rest else [TreeRef(env, ignored, fs.kids[es[0].name], kid)] + rest
  }

  // -------------------------------------------------------------- the walk as a function

  ghost function Scan(ignored: string -> bool, fs: Fs, path: string, sent: seq<Node>): (Found, seq<Node>)
    decreases fs, 1, 0
  {
    if ignored(path) then (Nothing, sent)
    else match fs
      case File(_, _) => (At(|sent|), sent + [Node(InfoOf(fs, path), [])])
      case Dir(_, _, kids) =>
        var (children, out) := ScanKids(ignored, fs, path, Listing(kids), sent);
        (At(|out|), out + [Node(InfoOf(fs, path), children)])
  }

  ghost function ScanKids(ignored: string -> bool, fs: Fs, path: string, es: seq<Entry>, sent: seq<Node>)
    : (seq<nat>, seq<Node>)
    requires fs.Dir? && forall e :: e in es ==> e.name in fs.kids
    decreases fs, 0, |es|
  {
    if es == [] then ([], sent)
    else
      var (nod, mid) := Scan(ignored, fs.kids[es[0].name], Join(path, es[0].name), sent);
      var (rest, out) := ScanKids(ignored, fs, path, es[1..], mid);
      ((if nod.At? then [nod.n] else []) + rest, out)
  }

  // One turn of the loop over the entries.
  lemma ScanKidsAt(ignored: string -> bool, fs: Fs, path: string, es: seq<Entry>, i: nat, sent: seq<Node>)
    requires fs.Dir? && (forall e :: e in es ==> e.name in fs.kids) && i < |es|
    ensures var (nod, mid) := Scan(ignored, fs.kids[es[i].name], Join(path, es[i].name), sent);
            var (rest, out) := ScanKids(ignored, fs, path, es[i + 1..], mid);
            ScanKids(ignored, fs, path, es[i..], sent) == ((if nod.At? then [nod.n] else []) + rest, out)
  {
    assert es[i..][0] == es[i] && es[i..][1..] == es[i + 1..];
  }

  /** statPath: reads the directory, sorts the entries, walks them in a loop and sends itself
      last.  Whatever order Readdir uses, it sends the same nodes. */
  method StatPath(ignored: string -> bool, rd: Readdir, fs: Fs, path: string, sent: seq<Node>)
    returns (nod: Found, out: seq<Node>)
    requires ValidReaddir(rd)
    ensures (nod, out) == Scan(ignored, fs, path, sent)
    decreases fs, 1
  {
    if ignored(path) {
      return Nothing, sent;
    }
    match fs
    case File(_, _) =>
      nod, out := At(|sent|), sent + [Node(InfoOf(fs, path), [])];
    case Dir(_, _, kids) =>
      var es := ReadSorted(rd, path, kids);
      var children;
      children, out := StatKids(ignored, rd, fs, path, es, sent);
      nod, out := At(|out|), out + [Node(InfoOf(fs, path), children)];
  }

  method ReadSorted(rd: Readdir, path: string, kids: map<string, Fs>) returns (es: seq<Entry>)
    requires ValidReaddir(rd)
    ensures es == Listing(kids)
  {
    var fis := rd(path, kids);
    assert ReaddirOrder(kids, fis);
    ByTypeAndNameIsStrictTotal();
    es := Sort(ByTypeAndName, fis);
    SortedListingUnique(kids, es, Listing(kids));
  }

  // The loop of statPath over the sorted entries of a directory.
  method StatKids(ignored: string -> bool, rd: Readdir, fs: Fs, path: string, es: seq<Entry>, sent: seq<Node>)
    returns (children: seq<nat>, out: seq<Node>)
    requires ValidReaddir(rd) && fs.Dir? && forall e :: e in es ==> e.name in fs.kids
    ensures (children, out) == ScanKids(ignored, fs, path, es, sent)
    decreases fs, 0
  {
    children, out := [], sent;
    ghost var want := ScanKids(ignored, fs, path, es, sent);
    assert es[0..] == es && [] + want.0 == want.0;
    for i := 0 to |es|
      invariant want == (children + ScanKids(ignored, fs, path, es[i..], out).0, ScanKids(ignored, fs, path, es[i..], out).1)
    {
      ScanKidsAt(ignored, fs, path, es, i, out);
      var depn, mid := StatPath(ignored, rd, fs.kids[es[i].name], Join(path, es[i].name), out);
      ghost var rest := ScanKids(ignored, fs, path, es[i + 1..], mid).0;
      if depn.At? {
        assert children + ([depn.n] + rest) == (children + [depn.n]) + rest;
        children := children + [depn.n];
      } else {
        assert [] + rest == rest;
      }
      out := mid;
    }
    assert es[|es|..] == [] && children + [] == children;
  }

  // ------------------------------------------------------------------ what the walk sends

  // Every node sent has its children before it.
  ghost predicate ChildrenFirst(nodes: seq<Node>) {
    forall n :: 0 <= n < |nodes| ==> forall k :: 0 <= k < |nodes[n].children| ==> nodes[n].children[k] < n
  }

  lemma {:induction false} ScanChildrenFirst(ignored: string -> bool, fs: Fs, path: string, sent: seq<Node>)
    requires ChildrenFirst(sent)
    ensures var (nod, out) := Scan(ignored, fs, path, sent);
            && sent <= out && ChildrenFirst(out)
            && (nod.At? <==> !ignored(path))
            && (nod.At? ==> |out| == nod.n + 1 && |sent| <= nod.n)
    decreases fs, 1, 0
  {
    if !ignored(path) && fs.Dir? {
      KidsChildrenFirst(ignored, fs, path, Listing(fs.kids), sent);
    }
  }

  lemma {:induction false} KidsChildrenFirst(ignored: string -> bool, fs: Fs, path: string, es: seq<Entry>, sent: seq<Node>)
    requires fs.Dir? && (forall e :: e in es ==> e.name in fs.kids) && ChildrenFirst(sent)
    ensures var (children, out) := ScanKids(ignored, fs, path, es, sent);
            && sent <= out && ChildrenFirst(out)
            && forall k :: 0 <= k < |children| ==> children[k] < |out|
    decreases fs, 0, |es|
  {
    if es != [] {
      var kid := Join(path, es[0].name);
      ScanChildrenFirst(ignored, fs.kids[es[0].name], kid, sent);
      var (_, mid) := Scan(ignored, fs.kids[es[0].name], kid, sent);
      KidsChildrenFirst(ignored, fs, path, es[1..], mid);
    }
  }

  lemma {:induction false} SpecKidsAt(env: Env, n: nat, k: nat, j: nat)
    requires WellFormed(env) && n < |env.nodes| && j < k <= |env.nodes[n].children|
    ensures SpecKids(env, n, k)[j] == Spec(env, env.nodes[n].children[j])
  {
    if j < k - 1 { SpecKidsAt(env, n, k - 1, j); }
  }

  /** The recursion over the nodes sent is the recursion over the file system. */
  lemma {:induction false} ScanMatches(env: Env, ignored: string -> bool, fs: Fs, path: string, sent: seq<Node>)
    requires WellFormed(env) && ChildrenFirst(sent) && !ignored(path)
    requires Scan(ignored, fs, path, sent).1 <= env.nodes
    ensures var nod := Scan(ignored, fs, path, sent).0;
            nod.At? && nod.n < |env.nodes| && Spec(env, nod.n) == TreeRef(env, ignored, fs, path)
    decreases fs, 1, 0
  {
    var (nod, out) := Scan(ignored, fs, path, sent);
    ScanChildrenFirst(ignored, fs, path, sent);
    assert env.nodes[nod.n] == out[nod.n];
    if fs.Dir? {
      var es := Listing(fs.kids);
      KidsMatch(env, ignored, fs, path, es, sent);
      var (children, _) := ScanKids(ignored, fs, path, es, sent);
      var members, refs := SpecKids(env, nod.n, |children|), MemberRefs(env, ignored, fs, path, es);
      forall j | 0 <= j < |children| ensures members[j] == refs[j] {
        SpecKidsAt(env, nod.n, |children|, j);
      }
      assert members == refs;
    }
  }

  lemma {:induction false} KidsMatch(
      env: Env, ignored: string -> bool, fs: Fs, path: string, es: seq<Entry>, sent: seq<Node>)
    requires WellFormed(env) && ChildrenFirst(sent) && fs.Dir? && forall e :: e in es ==> e.name in fs.kids
    requires ScanKids(ignored, fs, path, es, sent).1 <= env.nodes
    ensures RefsOf(env, ScanKids(ignored, fs, path, es, sent).0, MemberRefs(env, ignored, fs, path, es))
    decreases fs, 0, |es|
  {
    if es != [] {
      var kid, kidFs := Join(path, es[0].name), fs.kids[es[0].name];
      var (nod, mid) := Scan(ignored, kidFs, kid, sent);
      ScanChildrenFirst(ignored, kidFs, kid, sent);
      KidsChildrenFirst(ignored, fs, path, es[1..], mid);
      KidsMatch(env, ignored, fs, path, es[1..], mid);
      if !ignored(kid) {
        ScanMatches(env, ignored, kidFs, kid, sent);
        RefsOfCons(env, nod.n, TreeRef(env, ignored, kidFs, kid),
                   ScanKids(ignored, fs, path, es[1..], mid).0, MemberRefs(env, ignored, fs, path, es[1..]));
      }
    }
  }

  // These are the bottom-up results of these nodes.
  ghost predicate RefsOf(env: Env, children: seq<nat>, refs: seq<BlobRef>)
    requires WellFormed(env)
  {
    |refs| == |children| && forall j :: 0 <= j < |refs| ==> children[j] < |env.nodes| && refs[j] == Spec(env, children[j])
  }

  lemma RefsOfCons(env: Env, n: nat, ref: BlobRef, children: seq<nat>, refs: seq<BlobRef>)
    requires WellFormed(env) && RefsOf(env, children, refs) && n < |env.nodes| && ref == Spec(env, n)
    ensures RefsOf(env, [n] + children, [ref] + refs)
  {
  }

  // ------------------------------------------------------------------------- the theorem

  /** The end-to-end law.  Scan a tree with any Readdir order, upload what was scanned under
      any interleaving with any coherent stat cache.  When the loop has left, the outcome is
      the bottom-up recursion over the file system if the loop received the root and the path
      is not one to ignore; else it is the panic. */
  lemma UploadIsTreeRef(
      env: Env, ignored: string -> bool, fs: Fs, base: string, cache: map<Info, BlobRef>, steps: seq<Step>, t: State)
    requires env.nodes == Scan(ignored, fs, base, []).1
    requires env.statWorkers > 0 && env.uploadWorkers > 0 && Coherent(env, cache)
    requires RunOf(env, Init(env, cache), steps, t) && t.main == Left
    ensures Outcomes(env, t) ==
            if t.rootc == Taken && !ignored(base) then Finished(TreeRef(env, ignored, fs, base)) else NilRootPanic
  {
    ScanChildrenFirst(ignored, fs, base, []);
    if !ignored(base) { ScanMatches(env, ignored, fs, base, []); }
    UploadCorrect(env, cache, steps, t);
  }
}
