/** A request of the publisher app (app/publisher/main.go): its path split, the hop chase that
    finds its subject, and the URLs printed for that subject's members. */
module PublishRequest {
  import opened HopPaths
  import Decimal

  // A blob reference: its digest is a non-empty string of hex digits.
  datatype BlobRef = BlobRef(hash: string, digest: string)
  type Ref = r: BlobRef | IsHop(r.digest) witness BlobRef("sha1", "0")

  function DigestPrefix(r: Ref, digits: nat): (s: string)
    requires digits > 0
    ensures IsHop(s) && s <= r.digest && (|s| == digits || s == r.digest)
    ensures |s| <= digits
  {
    if |r.digest| < digits then r.digest else r.digest[..digits]
  }

  datatype Result<T> = Ok(value: T) | Err(error: string)

  // The two index lookups: the target of a published path, and the member of a subject that a
  // digest prefix names.
  type Lookup = string -> Result<Ref>
  type Resolve = (Ref, string) -> Result<Ref>

  /** All subjects from `subject` along `hops`, or the first failure. */
  function Follow(resolve: Resolve, subject: Ref, hops: seq<string>): (r: Result<seq<Ref>>)
    ensures r.Ok? ==> |r.value| == |hops| + 1 && r.value[0] == subject
    decreases |hops|
  {
    if hops == [] then Ok([subject])
    else
      match resolve(subject, hops[0])
      case Err(e) => Err(e)
      case Ok(next) => Join([subject, next], Follow(resolve, next, hops[1..]))
  }

  // The subjects so far, then those after the last of them.
  function Join(chain: seq<Ref>, rest: Result<seq<Ref>>): Result<seq<Ref>>
    requires rest.Ok? ==> rest.value != []
  {
    match rest
    case Err(e) => Err(e)
    case Ok(more) => Ok(chain + more[1..])
  }

  lemma JoinStep(chain: seq<Ref>, subject: Ref, next: Ref, rest: Result<seq<Ref>>)
    requires rest.Ok? ==> rest.value != []
    ensures Join(chain, Join([subject, next], rest)) == Join(chain + [next], rest)
  {
    if rest.Ok? {
      assert ([subject, next] + rest.value[1..])[1..] == [next] + rest.value[1..];
      assert chain + ([next] + rest.value[1..]) == chain + [next] + rest.value[1..];
    }
  }

  lemma FollowStep(resolve: Resolve, subject: Ref, hop: string, later: seq<string>)
    requires resolve(subject, hop).Ok?
    ensures var next := resolve(subject, hop).value;
      Follow(resolve, subject, [hop] + later) == Join([subject, next], Follow(resolve, next, later))
  {
    assert ([hop] + later)[0] == hop && ([hop] + later)[1..] == later;
  }

  lemma Regroups(a: seq<string>, h: string, b: seq<string>)
    ensures a + ([h] + b) == a + [h] + b
  {
  }

  lemma JoinSelf(resolve: Resolve, subject: Ref, hops: seq<string>)
    ensures Join([subject], Follow(resolve, subject, hops)) == Follow(resolve, subject, hops)
  {
    var r := Follow(resolve, subject, hops);
    if r.Ok? { assert [subject] + r.value[1..] == r.value; }
  }

  function Elems(s: seq<Ref>): set<Ref> { set r | r in s }

  // The elements of `path` not yet in the subject chain, as hops.
  function NewHops(path: seq<Ref>, chain: set<Ref>): (hops: seq<string>)
    ensures AreHops(hops)
  {
    if path == [] then []
    else (if path[0] in chain then [] else [DigestPrefix(path[0], 10)]) + NewHops(path[1..], chain)
  }

  // The members themselves.
  function Newcomers(path: seq<Ref>, chain: set<Ref>): seq<Ref> {
    if path == [] then [] else (if path[0] in chain then [] else [path[0]]) + Newcomers(path[1..], chain)
  }

  lemma {:induction false} NewcomersExactly(path: seq<Ref>, chain: set<Ref>, r: Ref)
    ensures multiset(Newcomers(path, chain))[r] == if r in chain then 0 else multiset(path)[r]
  {
    if path != [] {
      NewcomersExactly(path[1..], chain, r);
      assert path == [path[0]] + path[1..];
    }
  }

  // A hop names a member by the first ten digits of its digest, or all if there are fewer.
  predicate Names(hop: string, r: Ref) {
    hop <= r.digest && |hop| == if |r.digest| < 10 then |r.digest| else 10
  }

  /** New hops name exactly the members of the path that are not in the chain, in order. */
  lemma {:induction false} NewHopsName(path: seq<Ref>, chain: set<Ref>)
    ensures var hops, refs := NewHops(path, chain), Newcomers(path, chain);
            |hops| == |refs| && forall i :: 0 <= i < |hops| ==> Names(hops[i], refs[i])
  {
    if path != [] {
      NewHopsName(path[1..], chain);
      var hops, refs := NewHops(path, chain), Newcomers(path, chain);
      var k := if path[0] in chain then 0 else 1;
      forall i | 0 <= i < |hops| ensures Names(hops[i], refs[i]) {
        if i >= k {
          assert hops[i] == NewHops(path[1..], chain)[i - k] && refs[i] == Newcomers(path[1..], chain)[i - k];
        }
      }
    }
  }

  lemma {:induction false} NewHopsSnoc(path: seq<Ref>, r: Ref, chain: set<Ref>)
    ensures NewHops(path + [r], chain) == NewHops(path, chain) + if r in chain then [] else [DigestPrefix(r, 10)]
  {
    if path == [] {
      assert path + [r] == [r] && [r][1..] == [];
    } else {
      assert (path + [r])[1..] == path[1..] + [r];
      NewHopsSnoc(path[1..], r, chain);
    }
  }

  function SubresourceType(subres: string): string {
    if |subres| >= 3 && subres[0] == '/' && subres[1] == '=' then subres[2..3] else ""
  }

  function ResType(maxDimen: int): string { if maxDimen == -1 then "f" else "i" }

  // The end of a thumbnail or download path.
  function Tail(t: string, name: string): string { "/=" + t + "/" + name }

  // A path printed below `root` after `hops`: unlike a subject's own path it has the mark
  // even when there is no hop.
  function Printed(root: string, hops: seq<string>, tail: string): string {
    root + (Mark(root) + PrintHops(hops)) + tail
  }

  lemma TailEndsHops(t: string, name: string)
    requires |t| == 1
    ensures EndsHops(Tail(t, name)) && SubresourceType(Tail(t, name)) == t
    ensures SubresourceType(Tail(t, name)[1..]) == ""
  {
    assert Tail(t, name)[2..3] == t;
  }

  // The hops done and those still to come are all of them.
  predicate ToCome(all: (seq<string>, string), done: seq<string>, subres: string) {
    all == (done + ParseHops(subres).0, ParseHops(subres).1)
  }

  lemma AllToCome(subres: string)
    ensures ToCome(ParseHops(subres), [], subres)
  {
    assert [] + ParseHops(subres).0 == ParseHops(subres).0;
  }

  lemma NoneToCome(all: (seq<string>, string), done: seq<string>, subres: string)
    requires ToCome(all, done, subres) && !Matches(subres)
    ensures all == (done, subres)
  {
    assert done + [] == done;
  }

  lemma ToComeStep(all: (seq<string>, string), done: seq<string>, subres: string)
    requires ToCome(all, done, subres) && Matches(subres)
    ensures ToCome(all, done + [subres[Lead(subres)..MatchEnd(subres)]], subres[MatchEnd(subres)..])
  {
    var hop, rest := subres[Lead(subres)..MatchEnd(subres)], subres[MatchEnd(subres)..];
    ParseFirst(subres, hop, rest);
    Regroups(done, hop, ParseHops(rest).0);
  }

  // The hops to come lead from `at`, where the chain has got to, to where all of them lead.
  ghost predicate Leads(resolve: Resolve, root: Ref, all: seq<string>, chain: seq<Ref>, at: Ref, subres: string) {
    && chain != [] && chain[|chain| - 1] == at
    && Follow(resolve, root, all) == Join(chain, Follow(resolve, at, ParseHops(subres).0))
  }

  lemma LeadsFromRoot(resolve: Resolve, root: Ref, subres: string)
    ensures Leads(resolve, root, ParseHops(subres).0, [root], root, subres)
  {
    JoinSelf(resolve, root, ParseHops(subres).0);
  }

  lemma LeadsHere(resolve: Resolve, root: Ref, all: seq<string>, chain: seq<Ref>, at: Ref, subres: string)
    requires Leads(resolve, root, all, chain, at, subres) && !Matches(subres)
    ensures Follow(resolve, root, all) == Ok(chain)
  {
    assert chain + [at][1..] == chain;
  }

  lemma LeadsNowhere(resolve: Resolve, root: Ref, all: seq<string>, chain: seq<Ref>, at: Ref, subres: string)
    requires Leads(resolve, root, all, chain, at, subres) && Matches(subres)
    requires resolve(at, subres[Lead(subres)..MatchEnd(subres)]).Err?
    ensures Follow(resolve, root, all) == Err(resolve(at, subres[Lead(subres)..MatchEnd(subres)]).error)
  {
    ParseFirst(subres, subres[Lead(subres)..MatchEnd(subres)], subres[MatchEnd(subres)..]);
  }

  lemma LeadsStep(resolve: Resolve, root: Ref, all: seq<string>, chain: seq<Ref>, at: Ref, subres: string)
    requires Leads(resolve, root, all, chain, at, subres) && Matches(subres)
    requires resolve(at, subres[Lead(subres)..MatchEnd(subres)]).Ok?
    ensures var next := resolve(at, subres[Lead(subres)..MatchEnd(subres)]).value;
      Leads(resolve, root, all, chain + [next], next, subres[MatchEnd(subres)..])
  {
    var hop, rest := subres[Lead(subres)..MatchEnd(subres)], subres[MatchEnd(subres)..];
    ParseFirst(subres, hop, rest);
    var next, later := resolve(at, hop).value, ParseHops(rest).0;
    FollowStep(resolve, at, hop, later);
    JoinStep(chain, at, next, Follow(resolve, next, later));
  }

  // The text matched is a hop with or without its slash.
  lemma TextStep(root: string, done: seq<string>, subres: string)
    requires Matches(subres) && AreHops(done)
    ensures AreHops(done + [subres[Lead(subres)..MatchEnd(subres)]])
    ensures var end := MatchEnd(subres);
      AddPathComponent(SubjectPath(root, done), subres[..end]) == SubjectPath(root, done + [subres[Lead(subres)..end]])
  {
    var end, lead := MatchEnd(subres), Lead(subres);
    assert subres[..lead] == if lead == 2 then "/h" else "h";
    assert subres[..end] == subres[..lead] + subres[lead..end];
    SubjectPathStep(root, done, subres[lead..end], subres[..lead]);
  }

  class Request {
    const base: string
    const suffix: string
    var subres: string
    var subject: Ref
    var inSubjectChain: set<Ref>
    var subjectBasePath: string
    ghost var hops: seq<string>

    // The subject has been found by its hops.
    ghost predicate Found()
      reads this
    {
      AreHops(hops) && subjectBasePath == SubjectPath(base + suffix, hops)
    }

    /** NewRequest, for a path that need not start with the base. */
    constructor (base: string, path: string, nobody: Ref)
      ensures this.base == base
      ensures (suffix, subres) == SplitPath(if base <= path then path[|base|..] else path)
      ensures inSubjectChain == {} && subjectBasePath == "" && subject == nobody && hops == []
    {
      var rest := if base <= path then path[|base|..] else path;
      var split, res := rest, "";
      if HasPrefix(rest, "-/") {
        split, res := "", rest[2..];
      } else if HasMark(rest) {
        split, res := rest[..FindMark(rest)], rest[FindMark(rest) + 3..];
      }
      this.base := base;
      suffix := TrimSlash(split);
      subres := res;
      inSubjectChain := {};
      subjectBasePath := "";
      subject := nobody;
      hops := [];
    }

    // The hops of `all` were followed from `root` to the subject, or the first failing one
    // is reported; the rest of `all` is left as the subresource.
    ghost predicate Arrived(err: Result<()>, resolve: Resolve, root: Ref, all: (seq<string>, string))
      reads this
    {
      match Follow(resolve, root, all.0)
      case Err(e) => err == Err(e)
      case Ok(chain) =>
        && err.Ok? && Found() && (hops, subres) == all
        && inSubjectChain == Elems(chain) && subject == chain[|chain| - 1]
    }

    /** findSubject. Static files and a zip of the published root are served without a chase. */
    method FindSubject(lookup: Lookup, resolve: Resolve) returns (err: Result<()>)
      requires inSubjectChain == {}
      modifies this
      ensures HasPrefix(suffix, "=s/") ==> err.Ok? && subres == "/" + suffix && subject == old(subject)
      ensures !HasPrefix(suffix, "=s/") && lookup(suffix).Err? ==> err == Err(lookup(suffix).error)
      ensures !HasPrefix(suffix, "=s/") && lookup(suffix).Ok? && HasPrefix(old(subres), "=z/") ==>
        err.Ok? && subres == "/" + old(subres) && subject == lookup(suffix).value
      ensures !HasPrefix(suffix, "=s/") && lookup(suffix).Ok? && !HasPrefix(old(subres), "=z/") ==>
        Arrived(err, resolve, lookup(suffix).value, ParseHops(old(subres)))
    {
      if HasPrefix(suffix, "=s/") {
        subres := "/" + suffix;
        return Ok(());
      }
      var target := lookup(suffix);
      if target.Err? {
        return Err(target.error);
      }
      if HasPrefix(subres, "=z/") {
        subres := "/" + subres;
        subject := target.value;
        return Ok(());
      }
      err := Chase(target.value, resolve);
    }

    // What every turn of the chase keeps.
    ghost predicate Chasing(resolve: Resolve, root: Ref, all: (seq<string>, string), chain: seq<Ref>, at: Ref)
      reads this
    {
      && Found() && inSubjectChain == Elems(chain)
      && ToCome(all, hops, subres) && Leads(resolve, root, all.0, chain, at, subres)
    }

    method Chase(root: Ref, resolve: Resolve) returns (err: Result<()>)
      requires inSubjectChain == {}
      modifies this
      ensures Arrived(err, resolve, root, ParseHops(old(subres)))
    {
      var at := root;
      ghost var all, chain := ParseHops(subres), [root];
      inSubjectChain := inSubjectChain + {root};
      subjectBasePath := base + suffix;
      hops := [];
      AllToCome(subres);
      LeadsFromRoot(resolve, root, subres);
      while Matches(subres)
        invariant Chasing(resolve, root, all, chain, at)
        decreases |subres|
      {
        var child := resolve(at, subres[Lead(subres)..MatchEnd(subres)]);
        if child.Err? {
          LeadsNowhere(resolve, root, all.0, chain, at, subres);
          return Err(child.error);
        }
        TakeHop(child.value, resolve, root, all, chain, at);
        at := child.value;
        chain := chain + [at];
      }
      subject := at;
      Arrives(resolve, root, all, chain, at);
      err := Ok(());
    }

    lemma Arrives(resolve: Resolve, root: Ref, all: (seq<string>, string), chain: seq<Ref>, at: Ref)
      requires Chasing(resolve, root, all, chain, at) && !Matches(subres) && subject == at
      ensures Arrived(Ok(()), resolve, root, all)
    {
      NoneToCome(all, hops, subres);
      LeadsHere(resolve, root, all.0, chain, at, subres);
    }

    // The end of a turn, when the hop has been resolved to `next`.
    method TakeHop(next: Ref, ghost resolve: Resolve, ghost root: Ref, ghost all: (seq<string>, string),
                   ghost chain: seq<Ref>, ghost at: Ref)
      requires Chasing(resolve, root, all, chain, at) && Matches(subres)
      requires resolve(at, subres[Lead(subres)..MatchEnd(subres)]) == Ok(next)
      modifies this`inSubjectChain, this`subres, this`subjectBasePath, this`hops
      ensures Chasing(resolve, root, all, chain + [next], next)
      ensures subres == old(subres[MatchEnd(subres)..]) && |subres| < old(|subres|)
    {
      TextStep(base + suffix, hops, subres);
      ToComeStep(all, hops, subres);
      LeadsStep(resolve, root, all.0, chain, at, subres);
      var found := subres[..MatchEnd(subres)];
      hops := hops + [subres[Lead(subres)..MatchEnd(subres)]];
      inSubjectChain := inSubjectChain + {next};
      subres := subres[MatchEnd(subres)..];
      subjectBasePath := AddPathComponent(subjectBasePath, found);
    }

    /** SubresThumbnailURL (and SubresFileURL for -1): the path and the query of the URL. */
    method SubresThumbnailURL(path: seq<Ref>, name: string, maxDimen: int) returns (url: string, query: string)
      requires Found()
      ensures url == Printed(base + suffix, hops + NewHops(path, inSubjectChain), Tail(ResType(maxDimen), name))
      ensures query == if maxDimen == -1 then "" else "?mw=" + Decimal.Int(maxDimen) + "&mh=" + Decimal.Int(maxDimen)
    {
      var buf := subjectBasePath;
      if !HasMark(subjectBasePath) {
        buf := buf + "/-";
      }
      ghost var start := buf;
      var i := 0;
      assert start + PrintHops([]) == start;
      while i < |path|
        invariant 0 <= i <= |path| && buf == start + PrintHops(NewHops(path[..i], inSubjectChain))
      {
        assert path[..i + 1] == path[..i] + [path[i]];
        NewHopsSnoc(path[..i], path[i], inSubjectChain);
        if path[i] !in inSubjectChain {
          PrintHopsConcat(NewHops(path[..i], inSubjectChain), [DigestPrefix(path[i], 10)]);
          PrintOne(DigestPrefix(path[i], 10));
          Regroup(start, PrintHops(NewHops(path[..i], inSubjectChain)), "/h" + DigestPrefix(path[i], 10));
          buf := buf + ("/h" + DigestPrefix(path[i], 10));
        } else {
          assert NewHops(path[..i], inSubjectChain) + [] == NewHops(path[..i], inSubjectChain);
        }
        i := i + 1;
      }
      assert path[..i] == path;
      PrintedOn(base + suffix, hops, NewHops(path, inSubjectChain));
      url := buf + Tail(ResType(maxDimen), name);
      query := "";
      if maxDimen != -1 {
        query := "?mw=" + Decimal.Int(maxDimen) + "&mh=" + Decimal.Int(maxDimen);
      }
    }

    /** memberPath: the member's own path is the subject's with one more hop. */
    function MemberPath(member: Ref): (path: string)
      requires Found()
      reads this
      ensures path == SubjectPath(base + suffix, hops + [DigestPrefix(member, 10)])
    {
      SubjectPathStep(base + suffix, hops, DigestPrefix(member, 10), "/h");
      AddPathComponent(subjectBasePath, "/h" + DigestPrefix(member, 10))
    }
  }

  lemma PrintOne(hop: string)
    ensures PrintHops([hop]) == "/h" + hop
  {
  }

  // Going on from a subject's path, marked if it is not yet.
  lemma PrintedOn(root: string, hops: seq<string>, more: seq<string>)
    ensures var path := SubjectPath(root, hops);
      (if HasMark(path) then path else path + "/-") + PrintHops(more) == root + (Mark(root) + PrintHops(hops + more))
  {
    var path := SubjectPath(root, hops);
    if more != [] {
      SubjectPathMore(root, hops, more);
      assert "" + PrintHops(more) == PrintHops(more);
      Regroup(path, "/-", PrintHops(more));
    } else {
      assert hops + more == hops;
      if hops != [] { SubjectPathMarked(root, hops); }
      assert root + ("" + "") == root && root + ("/-" + "") == root + "/-" && root + "/-" + "" == root + "/-";
      assert path + "" == path;
    }
  }

  /** The exact condition under which a printed thumbnail or download path is read back as the
      same suffix, hops and resource: some hop, and nothing in base and suffix like the mark. */
  lemma ThumbnailReadBack(base: string, suffix: string, hops: seq<string>, t: string, name: string)
    requires AreHops(hops) && |t| == 1
    ensures var path := Printed(base + suffix, hops, Tail(t, name));
      && base <= path
      && var (suffix', res) := SplitPath(path[|base|..]);
         (suffix' == suffix && ParseHops(res) == (hops, Tail(t, name)))
         <==> hops != [] && CleanSuffix(suffix) && !HasMark(base + suffix)
  {
    TailEndsHops(t, name);
    if hops == [] {
      NoHopsLost(base, suffix, t, name);
    } else {
      ReadBack(base, suffix, hops, Tail(t, name));
    }
  }

  /** Without a hop the resource type is lost, however clean the path: the mark takes the slash
      the type needs. */
  lemma NoHopsLost(base: string, suffix: string, t: string, name: string)
    requires |t| == 1
    ensures var path := Printed(base + suffix, [], Tail(t, name));
      && base <= path
      && var (suffix', res) := SplitPath(path[|base|..]);
         suffix' != suffix || (ParseHops(res) == ([], res) && SubresourceType(res) == "")
  {
    var tail := Tail(t, name);
    var path := Printed(base + suffix, [], tail);
    TailEndsHops(t, name);
    var mark := Mark(base + suffix);
    assert PrintHops([]) == "" && mark + "" == mark;
    Regroup(base + suffix, mark, tail);
    Regroup(base, suffix, mark + tail);
    assert path == base + (suffix + (mark + tail));
    assert path[|base|..] == suffix + (mark + tail);
    if HasMark(base + suffix) {
      assert mark + tail == tail;
      SplitUnmarked(suffix, tail);
    } else {
      assert "/-" + tail == "/-/" + tail[1..];
      Regroup(suffix, "/-/", tail[1..]);
      if CleanSuffix(suffix) {
        SplitMarked(suffix, tail[1..]);
      } else {
        SplitUnclean(suffix, tail[1..]);
      }
    }
  }

  lemma HopsNotZip(subres: string)
    requires ParseHops(subres).0 != []
    ensures !HasPrefix(subres, "=z/")
  {
    assert Matches(subres);
  }

  /** Printing a thumbnail URL for a found subject and requesting it: the new request finds the
      end of the longer chain and the resource type printed. */
  method Revisit(pr: Request, path: seq<Ref>, name: string, maxDimen: int, lookup: Lookup, resolve: Resolve)
    returns (again: Request, err: Result<()>)
    requires pr.Found()
    requires !HasPrefix(pr.suffix, "=s/") && lookup(pr.suffix).Ok?
    requires CleanSuffix(pr.suffix) && !HasMark(pr.base + pr.suffix)
    requires pr.hops + NewHops(path, pr.inSubjectChain) != []
    ensures fresh(again) && again.suffix == pr.suffix
    ensures again.Arrived(err, resolve, lookup(pr.suffix).value,
                          (pr.hops + NewHops(path, pr.inSubjectChain), Tail(ResType(maxDimen), name)))
    ensures err.Ok? ==> SubresourceType(again.subres) == if maxDimen == -1 then "f" else "i"
  {
    var url, query := pr.SubresThumbnailURL(path, name, maxDimen);
    ghost var all := pr.hops + NewHops(path, pr.inSubjectChain);
    ThumbnailReadBack(pr.base, pr.suffix, all, ResType(maxDimen), name);
    TailEndsHops(ResType(maxDimen), name);
    again := new Request(pr.base, url, pr.subject);
    HopsNotZip(again.subres);
    err := again.FindSubject(lookup, resolve);
  }
}
