/** The publisher's hop URLs as strings (app/publisher/main.go): `base suffix /-/h<hex>/h<hex>/=t/name`,
    where each h-element names a member of the subject before it by a digest prefix. */
module HopPaths {

  // The "/-/" that ends the suffix of a published path, at position k.
  predicate MarkAt(s: string, k: int) {
    0 <= k && k + 3 <= |s| && s[k] == '/' && s[k + 1] == '-' && s[k + 2] == '/'
  }

  predicate HasMark(s: string) { FindMark(s) >= 0 }

  // Position of the first mark, or -1.
  function FindMark(s: string): (r: int)
    ensures r < 0 ==> r == -1 && forall k :: !MarkAt(s, k)
    ensures r >= 0 ==> MarkAt(s, r) && forall k :: k < r ==> !MarkAt(s, k)
  {
    if MarkAt(s, 0) then 0
    else if s == "" then -1
    else
      var r := FindMark(s[1..]);
      assert forall k :: MarkAt(s, k) ==> MarkAt(s[1..], k - 1);
      if r < 0 then -1 else r + 1
  }

  predicate HasPrefix(s: string, p: string) { p <= s }

  function TrimSlash(s: string): string {
    if s != "" && s[|s| - 1] == '/' then s[..|s| - 1] else s
  }

  /** The split of a path below the base into suffix and subresource. */
  function SplitPath(s: string): (string, string) {
    if HasPrefix(s, "-/") then ("", s[2..])
    else if HasMark(s) then (TrimSlash(s[..FindMark(s)]), s[FindMark(s) + 3..])
    else (TrimSlash(s), "")
  }

  /** What a suffix must not hold for the mark printed after it to be found again, and for the
      trimming of one slash to leave it alone. */
  predicate CleanSuffix(s: string) {
    && !HasPrefix(s, "-/") && s != "-"
    && !HasMark(s) && !(|s| >= 2 && s[|s| - 2] == '/' && s[|s| - 1] == '-')
    && TrimSlash(s) == s
  }

  lemma SplitMarked(suffix: string, res: string)
    requires CleanSuffix(suffix)
    ensures SplitPath(suffix + "/-/" + res) == (suffix, res)
  {
    var s := suffix + "/-/" + res;
    assert MarkAt(s, |suffix|);
    forall k | k < |suffix| ensures !MarkAt(s, k) {
      assert MarkAt(s, k) && k + 3 <= |suffix| ==> MarkAt(suffix, k);
    }
    assert FindMark(s) == |suffix|;
    assert s[..|suffix|] == suffix && s[|suffix| + 3..] == res;
  }

  // A suffix that is not clean never comes back.
  lemma SplitUnclean(suffix: string, res: string)
    requires !CleanSuffix(suffix)
    ensures SplitPath(suffix + "/-/" + res).0 != suffix
  {
    var s := suffix + "/-/" + res;
    assert MarkAt(s, |suffix|);
    if HasPrefix(suffix, "-/") || suffix == "-" {
      assert HasPrefix(s, "-/");
    } else if HasMark(suffix) {
      assert MarkAt(s, FindMark(suffix));
    } else if TrimSlash(suffix) == suffix {
      assert MarkAt(s, |suffix| - 2);
    } else {
      assert FindMark(s) <= |suffix|;
    }
  }

  // Without a mark of its own, what follows the suffix is taken for more suffix.
  lemma SplitUnmarked(suffix: string, more: string)
    requires |more| >= 2 && more[0] == '/' && more[1] !in {'/', '-'}
    ensures SplitPath(suffix + more).0 != suffix
  {
    var s := suffix + more;
    assert s[|suffix|] == more[0] && s[|suffix| + 1] == more[1];
    if HasPrefix(s, "-/") {
      assert suffix == "" ==> s == more;
    } else if HasMark(s) {
      var k := FindMark(s);
      assert k < |suffix| ==> |SplitPath(s).0| < |suffix|;
    }
  }

  // Hops. memberRE: an optional slash, an h, and as many hex digits as there are, at least one.

  predicate Hex(c: char) { '0' <= c <= '9' || 'a' <= c <= 'f' }

  predicate IsHop(h: string) { h != "" && forall i :: 0 <= i < |h| ==> Hex(h[i]) }

  function HexRun(s: string): (n: nat)
    ensures n <= |s| && (forall i :: 0 <= i < n ==> Hex(s[i])) && (n < |s| ==> !Hex(s[n]))
  {
    if s != "" && Hex(s[0]) then 1 + HexRun(s[1..]) else 0
  }

  lemma {:induction false} HexRunOf(h: string, tail: string)
    requires forall i :: 0 <= i < |h| ==> Hex(h[i])
    requires tail != "" ==> !Hex(tail[0])
    ensures HexRun(h + tail) == |h|
  {
    if h == "" {
      assert h + tail == tail;
    } else {
      assert (h + tail)[1..] == h[1..] + tail;
      HexRunOf(h[1..], tail);
    }
  }

  // Where the digits would start.
  function Lead(s: string): nat { if s != "" && s[0] == '/' then 2 else 1 }

  predicate Matches(s: string) {
    |s| > Lead(s) && s[Lead(s) - 1] == 'h' && Hex(s[Lead(s)])
  }

  function MatchEnd(s: string): (n: nat)
    requires Matches(s)
    ensures Lead(s) < n <= |s| && IsHop(s[Lead(s)..n])
  {
    var digits := s[Lead(s)..];
    var n := HexRun(digits);
    assert digits[0] == s[Lead(s)];
    assert s[Lead(s)..Lead(s) + n] == digits[..n];
    Lead(s) + n
  }

  /** The hops at the front of a subresource, and what is left. */
  function ParseHops(s: string): (r: (seq<string>, string))
    ensures AreHops(r.0)
    ensures |r.1| <= |s| && !Matches(r.1)
    decreases |s|
  {
    if Matches(s) then
      var (hops, rest) := ParseHops(s[MatchEnd(s)..]);
      ([s[Lead(s)..MatchEnd(s)]] + hops, rest)
    else ([], s)
  }

  function PrintHops(hops: seq<string>): string {
    if hops == [] then "" else "/h" + (hops[0] + PrintHops(hops[1..]))
  }

  lemma {:induction false} PrintHopsConcat(a: seq<string>, b: seq<string>)
    ensures PrintHops(a + b) == PrintHops(a) + PrintHops(b)
  {
    if a == [] {
      assert a + b == b;
    } else {
      assert (a + b)[1..] == a[1..] + b;
      PrintHopsConcat(a[1..], b);
      PrintFirst(a, PrintHops(b));
    }
  }

  // What may follow printed hops without being read as part of them.
  predicate EndsHops(tail: string) {
    !Matches(tail) && (tail != "" ==> !Hex(tail[0]))
  }

  lemma MatchFirst(lead: string, h: string, more: string)
    requires lead in {"h", "/h"} && IsHop(h) && (more != "" ==> !Hex(more[0]))
    ensures var s := lead + (h + more);
      Matches(s) && Lead(s) == |lead| && MatchEnd(s) == |lead| + |h|
  {
    var s := lead + (h + more);
    assert s[0] == lead[0] && s[|lead| - 1] == 'h' && s[|lead|] == (h + more)[0] == h[0];
    assert s[|lead|..] == h + more;
    HexRunOf(h, more);
  }

  lemma ParseFirst(s: string, h: string, more: string)
    requires Matches(s) && s[Lead(s)..MatchEnd(s)] == h && s[MatchEnd(s)..] == more
    ensures ParseHops(s) == ([h] + ParseHops(more).0, ParseHops(more).1)
  {
  }

  lemma ParseStep(lead: string, h: string, more: string, hops: seq<string>, tail: string)
    requires lead in {"h", "/h"} && IsHop(h) && (more != "" ==> !Hex(more[0]))
    requires ParseHops(more) == (hops, tail)
    ensures ParseHops(lead + (h + more)) == ([h] + hops, tail)
  {
    var s := lead + (h + more);
    MatchFirst(lead, h, more);
    var end := |lead| + |h|;
    assert s[|lead|..end] == h;
    assert s[end..] == more;
    ParseFirst(s, h, more);
  }

  lemma Regroup(a: string, b: string, c: string)
    ensures (a + b) + c == a + (b + c)
  {
  }

  lemma DropSlash(s: string)
    ensures ("/h" + s)[1..] == "h" + s
  {
  }

  lemma PrintFirst(hops: seq<string>, tail: string)
    requires hops != []
    ensures PrintHops(hops) + tail == "/h" + Bare(hops, tail)
  {
    Regroup("/h", hops[0] + PrintHops(hops[1..]), tail);
    Regroup(hops[0], PrintHops(hops[1..]), tail);
  }

  lemma NextIsSlash(hops: seq<string>, tail: string)
    requires EndsHops(tail)
    ensures var more := PrintHops(hops) + tail; more != "" ==> !Hex(more[0])
  {
  }

  predicate AreHops(hops: seq<string>) { forall i :: 0 <= i < |hops| ==> IsHop(hops[i]) }

  // The printed text of hops, from the first h on.
  function Bare(hops: seq<string>, tail: string): string
    requires hops != []
  {
    hops[0] + (PrintHops(hops[1..]) + tail)
  }

  /** Printed hops are parsed back exactly. */
  lemma {:induction false} ParsePrinted(hops: seq<string>, tail: string)
    requires AreHops(hops) && EndsHops(tail)
    ensures ParseHops(PrintHops(hops) + tail) == (hops, tail)
    decreases |hops|
  {
    if hops == [] {
      assert PrintHops(hops) + tail == tail;
    } else {
      ParsePrinted(hops[1..], tail);
      ParseBare("/h", hops, tail);
      PrintFirst(hops, tail);
    }
  }

  lemma ParseBare(lead: string, hops: seq<string>, tail: string)
    requires lead in {"h", "/h"} && hops != [] && AreHops(hops) && EndsHops(tail)
    requires ParseHops(PrintHops(hops[1..]) + tail) == (hops[1..], tail)
    ensures ParseHops(lead + Bare(hops, tail)) == (hops, tail)
  {
    NextIsSlash(hops[1..], tail);
    ParseStep(lead, hops[0], PrintHops(hops[1..]) + tail, hops[1..], tail);
    FirstApart(hops);
  }

  lemma FirstApart(hops: seq<string>)
    requires hops != []
    ensures [hops[0]] + hops[1..] == hops
  {
  }

  /** Also when the mark has taken their first slash. */
  lemma ParseAfterMark(hops: seq<string>, tail: string)
    requires hops != [] && AreHops(hops) && EndsHops(tail)
    ensures PrintHops(hops) + tail != ""
    ensures ParseHops((PrintHops(hops) + tail)[1..]) == (hops, tail)
  {
    ParsePrinted(hops[1..], tail);
    ParseBare("h", hops, tail);
    PrintFirst(hops, tail);
    DropSlash(Bare(hops, tail));
  }

  // Paths.

  /** addPathComponent. */
  function AddPathComponent(base: string, addition: string): string {
    var slashed := if HasPrefix(addition, "/") then addition else "/" + addition;
    if HasMark(base) then base + slashed else base + "/-" + slashed
  }

  // What a path needs before its first hop.
  function Mark(path: string): string { if HasMark(path) then "" else "/-" }

  // The path of a subject reached from the published path `root` by `hops`.
  function SubjectPath(root: string, hops: seq<string>): string {
    if hops == [] then root
    else root + (Mark(root) + PrintHops(hops))
  }

  lemma MarkKept(a: string, b: string)
    ensures HasMark(a) ==> HasMark(a + b)
  {
    if HasMark(a) { assert MarkAt(a + b, FindMark(a)); }
  }

  lemma SubjectPathMarked(root: string, hops: seq<string>)
    requires hops != [] || HasMark(root)
    ensures HasMark(SubjectPath(root, hops))
  {
    if HasMark(root) {
      if hops != [] { MarkKept(root, Mark(root) + PrintHops(hops)); }
    } else {
      assert PrintHops(hops)[0] == '/';
      assert MarkAt(SubjectPath(root, hops), |root|);
    }
  }

  /** The mark is printed once: before the first hop, or else before the new ones. */
  lemma SubjectPathMore(root: string, hops: seq<string>, more: seq<string>)
    requires more != []
    ensures SubjectPath(root, hops) + (Mark(SubjectPath(root, hops)) + PrintHops(more)) == SubjectPath(root, hops + more)
  {
    if hops == [] {
      assert hops + more == more;
    } else {
      SubjectPathMarked(root, hops);
      assert "" + PrintHops(more) == PrintHops(more);
      PrintHopsConcat(hops, more);
      Regroup(root, Mark(root) + PrintHops(hops), PrintHops(more));
      Regroup(Mark(root), PrintHops(hops), PrintHops(more));
    }
  }

  /** Adding one hop as the loop does, from the text it matched. */
  lemma SubjectPathStep(root: string, hops: seq<string>, hop: string, lead: string)
    requires lead in {"h", "/h"}
    ensures AddPathComponent(SubjectPath(root, hops), lead + hop) == SubjectPath(root, hops + [hop])
  {
    var path := SubjectPath(root, hops);
    assert PrintHops([hop]) == "/h" + hop;
    assert "/" + ("h" + hop) == "/h" + hop;
    SubjectPathMore(root, hops, [hop]);
    assert "" + PrintHops([hop]) == PrintHops([hop]);
    Regroup(path, "/-", PrintHops([hop]));
  }

  /** A URL path leads back where it came from if and only if nothing in the base and suffix
      can be taken for the mark, and the suffix does not end in a slash. */
  lemma ReadBack(base: string, suffix: string, hops: seq<string>, tail: string)
    requires hops != [] && AreHops(hops) && EndsHops(tail)
    ensures var path := SubjectPath(base + suffix, hops) + tail;
      && base <= path
      && var (suffix', res) := SplitPath(path[|base|..]);
         && (CleanSuffix(suffix) && !HasMark(base + suffix) ==> suffix' == suffix && ParseHops(res) == (hops, tail))
         && (suffix' == suffix ==> CleanSuffix(suffix) && !HasMark(base + suffix))
  {
    var path := SubjectPath(base + suffix, hops) + tail;
    var all := PrintHops(hops) + tail;
    Below(base, suffix, hops, tail);
    PrintFirst(hops, tail);
    if HasMark(base + suffix) {
      SplitUnmarked(suffix, all);
    } else if CleanSuffix(suffix) {
      SplitMarked(suffix, all[1..]);
      ParseAfterMark(hops, tail);
    } else {
      SplitUnclean(suffix, all[1..]);
    }
  }

  // What a request's path holds below the base.
  lemma Below(base: string, suffix: string, hops: seq<string>, tail: string)
    requires hops != []
    ensures var path := SubjectPath(base + suffix, hops) + tail;
      var all := PrintHops(hops) + tail;
      && base <= path && all[0] == '/' && all[1] == 'h'
      && path[|base|..] == if HasMark(base + suffix) then suffix + all else suffix + "/-/" + all[1..]
  {
    var all := PrintHops(hops) + tail;
    var mark := Mark(base + suffix);
    PrintFirst(hops, tail);
    Regroup(base + suffix, mark + PrintHops(hops), tail);
    Regroup(mark, PrintHops(hops), tail);
    Regroup(base, suffix, mark + all);
    DropBase(base, suffix + (mark + all));
    Marked(suffix, mark, all);
  }

  lemma DropBase(base: string, rest: string)
    ensures base <= base + rest && (base + rest)[|base|..] == rest
  {
  }

  lemma Marked(suffix: string, mark: string, all: string)
    requires all != "" && all[0] == '/'
    ensures mark == "" ==> suffix + (mark + all) == suffix + all
    ensures mark == "/-" ==> suffix + (mark + all) == suffix + "/-/" + all[1..]
  {
    if mark == "/-" {
      assert "/-" + all == "/-/" + all[1..];
      Regroup(suffix, "/-/", all[1..]);
    } else if mark == "" {
      assert mark + all == all;
    }
  }
}
