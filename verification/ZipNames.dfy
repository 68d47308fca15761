/** renameDuplicates (app/publisher/zip.go): file paths in a zip made unique by numbering. */
module ZipNames {
  import opened Ordering
  import opened Decimal

  datatype BlobFile = BlobFile(ref: string, path: string)

  // path.Ext: from the last dot of the last path element.
  function ExtFrom(p: string, i: nat): (ext: string)
    requires i <= |p|
    ensures |ext| <= |p| && ext == p[|p| - |ext|..]
  {
    if i == 0 || p[i - 1] == '/' then [] else if p[i - 1] == '.' then p[i - 1..] else ExtFrom(p, i - 1)
  }

  function Ext(p: string): (ext: string)
    ensures |ext| <= |p| && ext == p[|p| - |ext|..]
  {
    ExtFrom(p, |p|)
  }

  /** The extension in plain terms: empty or from a dot on, with no further dot or slash; and
      empty only if the last path element has no dot. */
  lemma {:induction false} ExtMeans(p: string, i: nat)
    requires i <= |p| && forall k :: i <= k < |p| ==> p[k] != '.' && p[k] != '/'
    ensures var ext := ExtFrom(p, i);
            && (ext != [] ==> ext[0] == '.' && forall k :: 0 < k < |ext| ==> ext[k] != '.' && ext[k] != '/')
            && (ext == [] ==> forall k :: 0 <= k < |p| && p[k] == '.' ==> exists j :: k < j < |p| && p[j] == '/')
  {
    if i > 0 && p[i - 1] != '/' && p[i - 1] != '.' {
      ExtMeans(p, i - 1);
    }
  }

  /** The k-th candidate for a taken path: the number goes before the extension. */
  function Renamed(p: string, k: nat): string {
    p[..|p| - |Ext(p)|] + ("(" + Nat(k) + ")") + Ext(p)
  }

  // What ends a path in an extension of this form has that extension.
  lemma {:induction false} ExtOf(p: string, i: nat, at: nat)
    requires at < i <= |p| && p[at] == '.' && forall k :: at < k < |p| ==> p[k] != '.' && p[k] != '/'
    ensures ExtFrom(p, i) == p[at..]
  {
    if i > at + 1 { ExtOf(p, i - 1, at); }
  }

  lemma {:induction false} NoExt(p: string, i: nat)
    requires i <= |p| && forall k :: 0 <= k < i && p[k] == '.' ==> exists j :: k < j < i && p[j] == '/'
    ensures ExtFrom(p, i) == []
  {
    if i > 0 && p[i - 1] != '/' {
      forall k | 0 <= k < i - 1 && p[k] == '.' ensures exists j :: k < j < i - 1 && p[j] == '/' {
        var j :| k < j < i && p[j] == '/';
      }
      NoExt(p, i - 1);
    }
  }

  // The last path element has no dot.
  ghost predicate Dotless(p: string) {
    forall k :: 0 <= k < |p| && p[k] == '.' ==> exists j :: k < j < |p| && p[j] == '/'
  }

  lemma DotlessAppend(p: string, number: string)
    requires Dotless(p) && '.' !in number
    ensures Dotless(p + number)
  {
    var q := p + number;
    assert forall i :: |p| <= i < |q| ==> q[i] == number[i - |p|];
    forall i | 0 <= i < |q| && q[i] == '.' ensures exists j :: i < j < |q| && q[j] == '/' {
      assert p[i] == '.';
      var j :| i < j < |p| && p[j] == '/';
      assert q[j] == '/';
    }
  }

  lemma ExtAppend(stem: string, ext: string)
    requires ext != [] && ext[0] == '.' && forall k :: 0 < k < |ext| ==> ext[k] != '.' && ext[k] != '/'
    ensures Ext(stem + ext) == ext
  {
    var q := stem + ext;
    assert forall i :: |stem| <= i < |q| ==> q[i] == ext[i - |stem|];
    ExtOf(q, |q|, |stem|);
    assert q[|stem|..] == ext;
  }

  function Number(k: nat): string { "(" + Nat(k) + ")" }

  lemma NumberHasNoDot(k: nat)
    ensures '.' !in Number(k)
  {
    assert forall i :: 0 < i <= |Nat(k)| ==> Number(k)[i] == Nat(k)[i - 1];
  }

  /** A renamed file keeps its extension and everything before it. */
  lemma RenamedKeeps(p: string, k: nat)
    ensures Ext(Renamed(p, k)) == Ext(p) && p[..|p| - |Ext(p)|] <= Renamed(p, k)
  {
    var stem, ext := p[..|p| - |Ext(p)|], Ext(p);
    ExtMeans(p, |p|);
    NumberHasNoDot(k);
    if ext == [] {
      assert stem == p && Renamed(p, k) == p + Number(k);
      DotlessAppend(p, Number(k));
      NoExt(Renamed(p, k), |Renamed(p, k)|);
    } else {
      assert Renamed(p, k) == (stem + Number(k)) + ext;
      ExtAppend(stem + Number(k), ext);
    }
  }

  lemma RenamedInjective(p: string, j: nat, k: nat)
    requires Renamed(p, j) == Renamed(p, k)
    ensures j == k
  {
    var stem, ext := p[..|p| - |Ext(p)|], Ext(p);
    var a, b := "(" + Nat(j) + ")", "(" + Nat(k) + ")";
    assert |a| == |b|;
    assert a == Renamed(p, j)[|stem|..|stem| + |a|] == b;
    assert Nat(j) == a[1..|a| - 1] && Nat(k) == b[1..|b| - 1];
    NatInjective(j, k);
  }

  // Candidates 1..n that are all taken cannot outnumber the names in use.
  lemma {:induction false} TakenBound(p: string, n: nat, names: set<string>)
    requires forall k :: 1 <= k <= n ==> Renamed(p, k) in names
    ensures n <= |names|
  {
    if n > 0 {
      var fewer := names - {Renamed(p, n)};
      forall k | 1 <= k <= n - 1 ensures Renamed(p, k) in fewer {
        if Renamed(p, k) == Renamed(p, n) { RenamedInjective(p, k, n); }
      }
      TakenBound(p, n - 1, fewer);
    }
  }

  /** The name given to a file when `taken` are in use: its path, or the first free candidate. */
  ghost predicate Names(taken: set<string>, path: string, name: string) {
    if path !in taken then name == path
    else exists k: nat :: 1 <= k && name == Renamed(path, k) && name !in taken
                          && forall j :: 1 <= j < k ==> Renamed(path, j) in taken
  }

  // The renaming loop: suffixes are tried until one is free, which must happen.
  method FreshName(noDup: map<string, string>, path: string) returns (newname: string)
    requires path in noDup
    ensures Names(noDup.Keys, path, newname)
  {
    var suffix := 0;
    while true
      invariant forall k :: 1 <= k <= suffix ==> Renamed(path, k) in noDup
      decreases |noDup| - suffix
    {
      TakenBound(path, suffix, noDup.Keys);
      suffix := suffix + 1;
      newname := Renamed(path, suffix);
      if newname !in noDup {
        return;
      }
      TakenBound(path, suffix, noDup.Keys);
    }
  }

  // The files with the names they were given.
  function Renaming(bf: seq<BlobFile>, names: seq<string>): (r: seq<BlobFile>)
    requires |names| == |bf|
    ensures |r| == |bf| && forall i :: 0 <= i < |r| ==> r[i] == BlobFile(bf[i].ref, names[i])
  {
    seq(|bf|, i requires 0 <= i < |bf| => BlobFile(bf[i].ref, names[i]))
  }

  function Elems(s: seq<string>): set<string> { set n | n in s }

  /** Each file in turn is given its name among those given before. */
  ghost predicate Assigned(bf: seq<BlobFile>, names: seq<string>) {
    && |names| == |bf| && Distinct(names)
    && forall i :: 0 <= i < |bf| ==> Names(Elems(names[..i]), bf[i].path, names[i])
  }

  // sortedFiles.Less; paths are distinct where it is used, refs only complete the order.
  predicate ByPath(a: BlobFile, b: BlobFile) {
    Less(a.path, b.path) || (a.path == b.path && Less(a.ref, b.ref))
  }

  lemma ByPathIsStrictTotal()
    ensures StrictTotal(ByPath)
  {
    LessIsStrictTotal();
  }

  // noDup holds exactly the files named so far.
  ghost predicate Holds(noDup: map<string, string>, bf: seq<BlobFile>, names: seq<string>) {
    && |names| == |bf|
    && (forall i :: 0 <= i < |bf| ==> names[i] in noDup && noDup[names[i]] == bf[i].ref)
    && (forall n :: n in noDup ==> n in names)
  }

  method AssignNames(bf: seq<BlobFile>) returns (noDup: map<string, string>, ghost names: seq<string>)
    ensures Assigned(bf, names) && Holds(noDup, bf, names)
  {
    noDup, names := map[], [];
    for i := 0 to |bf|
      invariant |names| == i && Assigned(bf[..i], names) && Holds(noDup, bf[..i], names)
    {
      var file := bf[i];
      var name := file.path;
      if file.path in noDup {
        name := FreshName(noDup, file.path);
      }
      Extend(bf, i, names, noDup, name);
      noDup := noDup[name := file.ref];
      names := names + [name];
    }
    assert bf[..|bf|] == bf;
  }

  lemma Extend(bf: seq<BlobFile>, i: nat, names: seq<string>, noDup: map<string, string>, name: string)
    requires i < |bf| && Assigned(bf[..i], names) && Holds(noDup, bf[..i], names) && Names(noDup.Keys, bf[i].path, name)
    ensures Assigned(bf[..i + 1], names + [name]) && Holds(noDup[name := bf[i].ref], bf[..i + 1], names + [name])
  {
    var more := names + [name];
    assert noDup.Keys == Elems(names);
    assert name !in names;
    forall j | 0 <= j < i + 1 ensures Names(Elems(more[..j]), bf[..i + 1][j].path, more[j]) {
      if j < i {
        assert more[..j] == names[..j] && bf[..i + 1][j] == bf[..i][j];
      } else {
        assert more[..i] == names;
      }
    }
  }

  // Ranging over the map, in whatever order.
  method Entries(noDup: map<string, string>) returns (list: seq<BlobFile>)
    ensures Distinct(list)
    ensures forall f :: f in list <==> f.path in noDup && noDup[f.path] == f.ref
  {
    list := [];
    var left := noDup;
    while left.Keys != {}
      invariant left.Keys <= noDup.Keys && forall p :: p in left ==> left[p] == noDup[p]
      invariant Distinct(list)
      invariant forall f :: f in list <==> f.path in noDup && f.path !in left && noDup[f.path] == f.ref
      decreases left.Keys
    {
      var p :| p in left;
      list := list + [BlobFile(left[p], p)];
      left := left - {p};
    }
  }

  lemma {:induction false} DistinctCount<T>(s: seq<T>, x: T)
    requires Distinct(s)
    ensures multiset(s)[x] == if x in s then 1 else 0
  {
    if s != [] {
      assert s == [s[0]] + s[1..];
      DistinctCount(s[1..], x);
    }
  }

  lemma SameFiles(bf: seq<BlobFile>, names: seq<string>, noDup: map<string, string>, list: seq<BlobFile>)
    requires Assigned(bf, names) && Holds(noDup, bf, names) && Distinct(list)
    requires forall f :: f in list <==> f.path in noDup && noDup[f.path] == f.ref
    ensures multiset(list) == multiset(Renaming(bf, names))
  {
    var files := Renaming(bf, names);
    forall f ensures f in list <==> f in files {
      if f in list {
        var i :| 0 <= i < |names| && names[i] == f.path;
        assert files[i] == f;
      }
    }
    assert Distinct(files) by {
      forall i, j | 0 <= i < j < |files| ensures files[i] != files[j] { assert names[i] != names[j]; }
    }
    forall f ensures multiset(list)[f] == multiset(files)[f] {
      DistinctCount(list, f);
      DistinctCount(files, f);
    }
  }

  lemma StrictPaths(sorted: seq<BlobFile>, noDup: map<string, string>)
    requires Ascending(ByPath, sorted) && forall f :: f in sorted ==> f.path in noDup && noDup[f.path] == f.ref
    ensures forall i, j :: 0 <= i < j < |sorted| ==> Less(sorted[i].path, sorted[j].path)
  {
    forall i, j | 0 <= i < j < |sorted| ensures Less(sorted[i].path, sorted[j].path) {
      assert sorted[i] in sorted && sorted[j] in sorted;
      LessIrreflexive(sorted[i].ref);
    }
  }

  lemma PathKept(bf: seq<BlobFile>, names: seq<string>, i: nat)
    requires Assigned(bf, names) && i < |bf|
    ensures bf[i].path in names
  {
    assert Names(Elems(names[..i]), bf[i].path, names[i]);
  }

  predicate HasPath(files: seq<BlobFile>, path: string) {
    exists j :: 0 <= j < |files| && files[j].path == path
  }

  /** Renaming ends on every input.  The result is strictly sorted by path, so no path occurs
      twice; it is a permutation of the input files under their new names; and every path of
      the input is still the path of some file. */
  method RenameDuplicates(bf: seq<BlobFile>) returns (sorted: seq<BlobFile>, ghost names: seq<string>)
    ensures Assigned(bf, names)
    ensures multiset(sorted) == multiset(Renaming(bf, names))
    ensures forall i, j :: 0 <= i < j < |sorted| ==> Less(sorted[i].path, sorted[j].path)
    ensures forall i :: 0 <= i < |bf| ==> HasPath(sorted, bf[i].path)
  {
    var noDup;
    noDup, names := AssignNames(bf);
    var list := Entries(noDup);
    ByPathIsStrictTotal();
    sorted := Sort(ByPath, list);
    SameFiles(bf, names, noDup, list);
    StrictPaths(sorted, noDup);
    forall i | 0 <= i < |bf| ensures HasPath(sorted, bf[i].path) {
      PathKept(bf, names, i);
      var f := BlobFile(noDup[bf[i].path], bf[i].path);
      assert f in list;
      var j :| 0 <= j < |sorted| && sorted[j] == f;
      assert sorted[j].path == bf[i].path;
    }
  }
}
