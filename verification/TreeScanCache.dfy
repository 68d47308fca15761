/** Scanned trees and the stat cache: every node of a scan has a path of its own, so an upload
    skips exactly the files it finds in the cache. */
module TreeScanCache {
  import opened Ordering
  import opened Decimal
  import opened TreeUpload
  import opened TreeUploadSafety
  import opened TreeUploadCache
  import opened TreeScan

  // Names as file systems have them.
  predicate ValidName(name: string) { name != "" && '/' !in name }

  ghost predicate ValidNames(fs: Fs) {
    fs.Dir? ==> forall name :: name in fs.kids ==> ValidName(name) && ValidNames(fs.kids[name])
  }

  function Slash(path: string): string {
    if path != [] && path[|path| - 1] == '/' then path else path + "/"
  }

  // q is the path or below it.
  predicate Below(path: string, q: string) { q == path || Slash(path) <= q }

  lemma JoinIsSlash(path: string, name: string)
    ensures Join(path, name) == Slash(path) + name
  {
  }

  // The rest of a path below the member `name` starts with that name.
  predicate Starts(name: string, rest: string) { rest == name || name + "/" <= rest }

  lemma BelowKid(path: string, name: string, q: string)
    requires ValidName(name) && Below(Join(path, name), q)
    ensures Slash(path) <= q && Starts(name, q[|Slash(path)|..]) && Below(path, q) && |q| > |path|
  {
    JoinIsSlash(path, name);
    var kid := Slash(path) + name;
    assert kid[|kid| - 1] == name[|name| - 1];
    assert kid + "/" == Slash(path) + (name + "/");
    if q != kid {
      assert Slash(kid) == kid + "/";
      assert q == (kid + "/") + q[|kid| + 1..];
      assert q[|Slash(path)|..] == (name + "/") + q[|kid| + 1..];
    } else {
      assert q[|Slash(path)|..] == name;
    }
  }

  lemma StartsOnce(a: string, b: string, rest: string)
    requires ValidName(a) && ValidName(b) && Starts(a, rest) && Starts(b, rest)
    ensures a == b
  {
    if rest == a {
      NotInside(a, b);
    } else if rest == b {
      NotInside(b, a);
    } else {
      var x, y := rest[|a| + 1..], rest[|b| + 1..];
      assert rest == a + ['/'] + x && rest == b + ['/'] + y;
      SplitUnique(a, b, '/', x, y);
    }
  }

  lemma NotInside(a: string, b: string)
    requires ValidName(a) && Starts(b, a)
    ensures a == b
  {
    if b + "/" <= a { HasSlash(a, b); }
  }

  lemma HasSlash(a: string, b: string)
    requires b + "/" <= a
    ensures '/' in a
  {
    assert a[|b|] == '/';
  }

  // ------------------------------------------------------------------ paths of scanned nodes

  function PathOf(nodes: seq<Node>, i: nat): string
    requires i < |nodes|
  {
    nodes[i].info.path
  }

  // From position k on, nodes have different paths.
  ghost predicate Different(nodes: seq<Node>, k: nat) {
    forall i: nat, j: nat :: k <= i < j < |nodes| ==> PathOf(nodes, i) != PathOf(nodes, j)
  }

  ghost predicate AllBelow(nodes: seq<Node>, k: nat, path: string) {
    forall i: nat :: k <= i < |nodes| ==> Below(path, PathOf(nodes, i))
  }

  // Each from position k on is below one of these members.
  ghost predicate BelowSome(nodes: seq<Node>, k: nat, path: string, es: seq<Entry>) {
    forall i: nat :: k <= i < |nodes| ==> exists j :: 0 <= j < |es| && Below(Join(path, es[j].name), PathOf(nodes, i))
  }

  ghost predicate Names(fs: Fs, es: seq<Entry>) {
    && fs.Dir? && (forall e :: e in es ==> e.name in fs.kids)
    && forall i, j :: 0 <= i < j < |es| ==> es[i].name != es[j].name
  }

  lemma ListingNames(fs: Fs)
    requires fs.Dir?
    ensures Names(fs, Listing(fs.kids))
  {
    var es := Listing(fs.kids);
    forall i, j | 0 <= i < j < |es| ensures es[i].name != es[j].name {
      assert es[i] in es && es[j] in es;
      assert ByTypeAndName(es[i], es[j]);
      LessIrreflexive(es[i].name);
    }
  }

  lemma {:induction false} ScanPaths(ignored: string -> bool, fs: Fs, path: string, sent: seq<Node>)
    requires ValidNames(fs)
    ensures var out := Scan(ignored, fs, path, sent).1;
            sent <= out && AllBelow(out, |sent|, path) && Different(out, |sent|)
    decreases fs, 1, 0
  {
    if !ignored(path) && fs.Dir? {
      var es := Listing(fs.kids);
      ListingNames(fs);
      KidsPaths(ignored, fs, path, es, sent);
      var (children, out) := ScanKids(ignored, fs, path, es, sent);
      SelfLast(fs, path, es, out, |sent|, Node(InfoOf(fs, path), children));
    }
  }

  // The directory itself comes after what is in it.
  lemma SelfLast(fs: Fs, path: string, es: seq<Entry>, out: seq<Node>, k: nat, self: Node)
    requires ValidNames(fs) && Names(fs, es) && BelowSome(out, k, path, es) && Different(out, k) && k <= |out|
    requires self.info.path == path
    ensures AllBelow(out + [self], k, path) && Different(out + [self], k)
  {
    forall i: nat | k <= i < |out| ensures Below(path, PathOf(out, i)) && PathOf(out, i) != path {
      var j :| 0 <= j < |es| && Below(Join(path, es[j].name), PathOf(out, i));
      assert es[j] in es;
      BelowKid(path, es[j].name, PathOf(out, i));
    }
    var all := out + [self];
    forall i: nat | k <= i < |all| ensures Below(path, PathOf(all, i)) {
      if i < |out| { assert PathOf(all, i) == PathOf(out, i); }
    }
    forall i: nat, j: nat | k <= i < j < |all| ensures PathOf(all, i) != PathOf(all, j) {
      assert PathOf(all, i) == PathOf(out, i);
      if j < |out| { assert PathOf(all, j) == PathOf(out, j); }
    }
  }

  lemma {:induction false} KidsPaths(ignored: string -> bool, fs: Fs, path: string, es: seq<Entry>, sent: seq<Node>)
    requires ValidNames(fs) && Names(fs, es)
    ensures var out := ScanKids(ignored, fs, path, es, sent).1;
            sent <= out && BelowSome(out, |sent|, path, es) && Different(out, |sent|)
    decreases fs, 0, |es|
  {
    if es != [] {
      var kid := Join(path, es[0].name);
      assert es[0] in es;
      ScanPaths(ignored, fs.kids[es[0].name], kid, sent);
      var mid := Scan(ignored, fs.kids[es[0].name], kid, sent).1;
      KidsPaths(ignored, fs, path, es[1..], mid);
      FirstThenRest(fs, path, es, |sent|, mid, ScanKids(ignored, fs, path, es[1..], mid).1);
    }
  }

  lemma FirstThenRest(fs: Fs, path: string, es: seq<Entry>, k: nat, mid: seq<Node>, out: seq<Node>)
    requires ValidNames(fs) && Names(fs, es) && es != [] && k <= |mid| && mid <= out
    requires AllBelow(mid, k, Join(path, es[0].name)) && Different(mid, k)
    requires BelowSome(out, |mid|, path, es[1..]) && Different(out, |mid|)
    ensures BelowSome(out, k, path, es) && Different(out, k)
  {
    forall i: nat | k <= i < |out| ensures exists j :: 0 <= j < |es| && Below(Join(path, es[j].name), PathOf(out, i)) {
      if i < |mid| {
        assert PathOf(mid, i) == PathOf(out, i);
        assert Below(Join(path, es[0].name), PathOf(out, i));
      } else {
        var j :| 0 <= j < |es[1..]| && Below(Join(path, es[1..][j].name), PathOf(out, i));
        assert es[j + 1] == es[1..][j];
      }
    }
    forall i: nat, j: nat | k <= i < j < |out| ensures PathOf(out, i) != PathOf(out, j) {
      if j < |mid| {
        assert PathOf(mid, i) == PathOf(out, i) && PathOf(mid, j) == PathOf(out, j);
      } else if i < |mid| {
        assert PathOf(mid, i) == PathOf(out, i);
        Apart(fs, path, es, PathOf(out, i), out, |mid|, j);
      }
    }
  }

  // What is below the first member is not below another.
  lemma Apart(fs: Fs, path: string, es: seq<Entry>, q: string, out: seq<Node>, k: nat, j: nat)
    requires ValidNames(fs) && Names(fs, es) && es != [] && Below(Join(path, es[0].name), q)
    requires k <= j < |out| && BelowSome(out, k, path, es[1..])
    ensures q != PathOf(out, j)
  {
    var m :| 0 <= m < |es[1..]| && Below(Join(path, es[1..][m].name), PathOf(out, j));
    assert es[m + 1] == es[1..][m];
    assert es[0] in es && es[m + 1] in es;
    if q == PathOf(out, j) {
      BelowKid(path, es[0].name, q);
      BelowKid(path, es[m + 1].name, q);
      StartsOnce(es[0].name, es[m + 1].name, q[|Slash(path)|..]);
    }
  }

  lemma Differ(nodes: seq<Node>, n: nat, m: nat)
    requires Different(nodes, 0) && n < |nodes| && m < |nodes| && n != m
    ensures nodes[n].info.path != nodes[m].info.path
  {
    assert PathOf(nodes, n) != PathOf(nodes, m);
  }

  /** Every node of a scan has a path of its own. */
  lemma ScanNoTwins(env: Env, ignored: string -> bool, fs: Fs, base: string)
    requires ValidNames(fs) && env.nodes == Scan(ignored, fs, base, []).1
    ensures NoTwins(env)
  {
    ScanPaths(ignored, fs, base, []);
    forall n: nat, m: nat ensures !Twin(env, n, m) {
      if n < |env.nodes| && m < |env.nodes| && n != m { Differ(env.nodes, n, m); }
    }
  }

  /** So, for every tree scanned and every interleaving, a node is skipped if and only if it is
      a file the stat cache in use held at the start, and uploaded if and only if it is not. */
  lemma ScanSkipsExactly(
      env: Env, ignored: string -> bool, fs: Fs, base: string, cache: map<Info, BlobRef>, steps: seq<Step>, t: State, n: nat)
    requires ValidNames(fs) && env.nodes == Scan(ignored, fs, base, []).1 && n < |env.nodes|
    requires env.statWorkers > 0 && env.uploadWorkers > 0 && Coherent(env, cache)
    requires RunOf(env, Init(env, cache), steps, t) && t.main == Left
    ensures n in t.skippedLog <==> env.statCache && !env.nodes[n].info.isDir && env.nodes[n].info in cache
    ensures n in t.uploadedLog <==> n !in t.skippedLog
  {
    ScanChildrenFirst(ignored, fs, base, []);
    ScanNoTwins(env, ignored, fs, base);
    SkippedExactly(env, cache, steps, t, n);
    assert n in t.skippedLog <==> multiset(t.skippedLog)[n] > 0;
    assert n in t.uploadedLog <==> multiset(t.uploadedLog)[n] > 0;
  }
}
