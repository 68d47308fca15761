/** ListMissingDestinationBlobs (pkg/blobserver/sync.go): a merge of two sorted enumerations
    that reports what the source has and the destination lacks, and sizes that differ. */
module BlobDiff {

  type Ref = nat    // blobrefs in the order of Ref.Less; zero is the invalid one

  datatype Sized = Sized(ref: Ref, size: nat)

  predicate Valid(s: seq<Sized>) {
    forall i :: 0 <= i < |s| ==> s[i].ref != 0
  }

  // What an enumeration promises: each blob once, in order.
  predicate Sorted(s: seq<Sized>) {
    forall i, j :: 0 <= i < j < |s| ==> s[i].ref < s[j].ref
  }

  predicate Lists(s: seq<Sized>, ref: Ref) {
    exists i :: 0 <= i < |s| && s[i].ref == ref
  }

  // The size a sorted listing gives for a blob.
  predicate ListsAs(s: seq<Sized>, b: Sized) {
    exists i :: 0 <= i < |s| && s[i] == b
  }

  /** Reference: the source blobs whose ref the destination does not list, in order. */
  function NotListed(src: seq<Sized>, dst: seq<Sized>): seq<Sized> {
    if src == [] then []
    else NotListed(src[..|src| - 1], dst) + if Lists(dst, src[|src| - 1].ref) then [] else [src[|src| - 1]]
  }

  /** Reference: the refs both list, with different sizes. */
  function Differing(src: seq<Sized>, dst: seq<Sized>): seq<Ref> {
    if src == [] then []
    else
      var b := src[|src| - 1];
      Differing(src[..|src| - 1], dst) + if Lists(dst, b.ref) && !ListsAs(dst, b) then [b.ref] else []
  }

  lemma NotListedNext(src: seq<Sized>, i: nat, dst: seq<Sized>)
    requires i < |src|
    ensures NotListed(src[..i + 1], dst) == NotListed(src[..i], dst) + if Lists(dst, src[i].ref) then [] else [src[i]]
    ensures Differing(src[..i + 1], dst) ==
            Differing(src[..i], dst) + if Lists(dst, src[i].ref) && !ListsAs(dst, src[i]) then [src[i].ref] else []
  {
    assert src[..i + 1][..i] == src[..i];
  }

  // The destination's channel has been read up to and including the first blob that does not
  // sort before the last source blob.
  ghost predicate ReadUpTo(src: seq<Sized>, dst: seq<Sized>, taken: nat) {
    && taken <= |dst|
    && (taken > 0 <==> src != [] && dst != [])
    && (src != [] ==> forall k :: 0 <= k < |dst| - 1 ==> (k + 1 < taken <==> dst[k].ref < src[|src| - 1].ref))
  }

  // The merge stands at src[i] and dst[j].
  ghost predicate Between(src: seq<Sized>, dst: seq<Sized>, i: nat, j: nat) {
    && i <= |src| && j <= |dst| && Sorted(src) && Sorted(dst)
    && (i < |src| && j > 0 ==> dst[j - 1].ref < src[i].ref)
    && (i > 0 && j < |dst| ==> src[i - 1].ref < dst[j].ref)
  }

  lemma SourceOnly(src: seq<Sized>, dst: seq<Sized>, i: nat, j: nat)
    requires Between(src, dst, i, j) && i < |src| && (j < |dst| ==> src[i].ref < dst[j].ref)
    ensures Between(src, dst, i + 1, j)
    ensures NotListed(src[..i + 1], dst) == NotListed(src[..i], dst) + [src[i]]
    ensures Differing(src[..i + 1], dst) == Differing(src[..i], dst)
  {
    NotListedNext(src, i, dst);
    forall k | 0 <= k < |dst| ensures dst[k].ref != src[i].ref {
      if k < j { assert dst[k].ref <= dst[j - 1].ref; } else { assert dst[j].ref <= dst[k].ref; }
    }
  }

  lemma BothList(src: seq<Sized>, dst: seq<Sized>, i: nat, j: nat)
    requires Between(src, dst, i, j) && i < |src| && j < |dst| && src[i].ref == dst[j].ref
    ensures Between(src, dst, i + 1, j + 1)
    ensures NotListed(src[..i + 1], dst) == NotListed(src[..i], dst)
    ensures Differing(src[..i + 1], dst) ==
            Differing(src[..i], dst) + if dst[j].size == src[i].size then [] else [src[i].ref]
  {
    NotListedNext(src, i, dst);
    if ListsAs(dst, src[i]) {
      var k :| 0 <= k < |dst| && dst[k] == src[i];
      assert k == j;
    }
    if dst[j].size == src[i].size { assert dst[j] == src[i]; }
  }

  // Where the merge stands in the destination when the source's last blob has been handled.
  ghost predicate Ended(dst: seq<Sized>, j: nat, taken: nat, last: Ref) {
    && j <= |dst| && (j > 0 ==> dst[j - 1].ref <= last) && (j < |dst| ==> last < dst[j].ref)
    && taken == (if j == |dst| || (j > 0 && dst[j - 1].ref == last) then j else j + 1)
  }

  lemma EndedReads(src: seq<Sized>, dst: seq<Sized>, j: nat, taken: nat)
    requires src != [] && Sorted(dst) && Ended(dst, j, taken, src[|src| - 1].ref)
    ensures ReadUpTo(src, dst, taken)
  {
  }

  // Everything the loop keeps true.
  ghost predicate Merging(
    src: seq<Sized>, dst: seq<Sized>, i: nat, j: nat, missing: seq<Sized>, mismatches: seq<Ref>, taken: nat) {
    && Between(src, dst, i, j) && j <= taken <= |dst|
    && missing == NotListed(src[..i], dst) && mismatches == Differing(src[..i], dst)
    && (i == |src| > 0 ==> Ended(dst, j, taken, src[i - 1].ref))
    && (src == [] ==> taken == 0)
  }

  lemma OnSourceOnly(src: seq<Sized>, dst: seq<Sized>, i: nat, j: nat, missing: seq<Sized>, mismatches: seq<Ref>, taken: nat)
    requires Merging(src, dst, i, j, missing, mismatches, taken) && i < |src| && (j < |dst| ==> src[i].ref < dst[j].ref)
    ensures Merging(src, dst, i + 1, j, missing + [src[i]], mismatches, if j < |dst| then j + 1 else taken)
  {
    SourceOnly(src, dst, i, j);
  }

  lemma OnBoth(src: seq<Sized>, dst: seq<Sized>, i: nat, j: nat, missing: seq<Sized>, mismatches: seq<Ref>, taken: nat)
    requires Merging(src, dst, i, j, missing, mismatches, taken) && i < |src| && j < |dst| && src[i].ref == dst[j].ref
    ensures Merging(src, dst, i + 1, j + 1, missing,
                    mismatches + if src[i].size != dst[j].size then [src[i].ref] else [], j + 1)
  {
    BothList(src, dst, i, j);
  }

  lemma OnSkip(src: seq<Sized>, dst: seq<Sized>, i: nat, j: nat, missing: seq<Sized>, mismatches: seq<Ref>, taken: nat)
    requires Merging(src, dst, i, j, missing, mismatches, taken) && i < |src| && j < |dst| && dst[j].ref < src[i].ref
    ensures Merging(src, dst, i, j + 1, missing, mismatches, j + 1)
  {
  }

  lemma OnStop(src: seq<Sized>, dst: seq<Sized>, i: nat, j: nat, missing: seq<Sized>, mismatches: seq<Ref>, taken: nat)
    requires Merging(src, dst, i, j, missing, mismatches, taken)
    ensures missing <= NotListed(src, dst)
    ensures i == |src| ==> missing == NotListed(src, dst) && mismatches == Differing(src, dst) && ReadUpTo(src, dst, taken)
  {
    PrefixLeft(src, i, dst);
    if i == |src| {
      assert src[..i] == src;
      if src != [] { EndedReads(src, dst, j, taken); }
    }
  }

  /** The merge.  `taken` is how many blobs were received from the destination's channel, the
      one peeked at included; the loop ends with the source, so it may leave some unread. */
  method ListMissing(src: seq<Sized>, dst: seq<Sized>) returns (missing: seq<Sized>, mismatches: seq<Ref>, taken: nat)
    requires Sorted(src) && Sorted(dst)
    ensures missing <= NotListed(src, dst)
    ensures Valid(src) && Valid(dst) ==>
              missing == NotListed(src, dst) && mismatches == Differing(src, dst) && ReadUpTo(src, dst, taken)
  {
    missing, mismatches, taken := [], [], 0;
    var i, j := 0, 0;
    while i < |src|
      invariant i <= |src| && j <= |dst| && Merging(src, dst, i, j, missing, mismatches, taken)
      decreases |src| - i, |dst| - j
    {
      if src[i].ref == 0 {
        OnStop(src, dst, i, j, missing, mismatches, taken);
        return;
      }
      if j == |dst| {
        OnSourceOnly(src, dst, i, j, missing, mismatches, taken);
        missing := missing + [src[i]];
        i := i + 1;
        continue;
      }
      if dst[j].ref == 0 {
        OnStop(src, dst, i, j, missing, mismatches, taken);
        taken := j + 1;
        return;
      }
      if src[i].ref == dst[j].ref {
        OnBoth(src, dst, i, j, missing, mismatches, taken);
        if src[i].size != dst[j].size {
          mismatches := mismatches + [src[i].ref];
        }
        i, j := i + 1, j + 1;
        taken := j;
      } else if src[i].ref < dst[j].ref {
        OnSourceOnly(src, dst, i, j, missing, mismatches, taken);
        missing := missing + [src[i]];
        i := i + 1;
        taken := j + 1;
      } else {
        OnSkip(src, dst, i, j, missing, mismatches, taken);
        j := j + 1;
        taken := j;
      }
    }
    OnStop(src, dst, i, j, missing, mismatches, taken);
  }

  lemma {:induction false} PrefixLeft(src: seq<Sized>, i: nat, dst: seq<Sized>)
    requires i <= |src|
    ensures NotListed(src[..i], dst) <= NotListed(src, dst)
  {
    if i < |src| {
      PrefixLeft(src[..|src| - 1], i, dst);
      assert src[..|src| - 1][..i] == src[..i];
    } else {
      assert src[..i] == src;
    }
  }

  /** What the references contain: the source blobs of refs the destination does not list, and
      the refs of source blobs it lists with another size. */
  lemma {:induction false} DiffMembers(src: seq<Sized>, dst: seq<Sized>)
    ensures forall b :: b in NotListed(src, dst) <==> b in src && !Lists(dst, b.ref)
    ensures forall r :: r in Differing(src, dst) <==>
              exists i :: 0 <= i < |src| && src[i].ref == r && Lists(dst, r) && !ListsAs(dst, src[i])
  {
    if src != [] {
      var init, last := src[..|src| - 1], src[|src| - 1];
      DiffMembers(init, dst);
      assert src == init + [last];
      forall r ensures r in Differing(src, dst) <==>
                         exists i :: 0 <= i < |src| && src[i].ref == r && Lists(dst, r) && !ListsAs(dst, src[i])
      {
        DiffersNext(src, dst, r);
      }
    }
  }

  lemma DiffersNext(src: seq<Sized>, dst: seq<Sized>, r: Ref)
    requires src != []
    requires var init := src[..|src| - 1];
             r in Differing(init, dst) <==>
               exists i :: 0 <= i < |init| && init[i].ref == r && Lists(dst, r) && !ListsAs(dst, init[i])
    ensures r in Differing(src, dst) <==>
            exists i :: 0 <= i < |src| && src[i].ref == r && Lists(dst, r) && !ListsAs(dst, src[i])
  {
    var init, n := src[..|src| - 1], |src| - 1;
    if r in Differing(init, dst) {
      var i :| 0 <= i < |init| && init[i].ref == r && Lists(dst, r) && !ListsAs(dst, init[i]);
      assert src[i] == init[i];
    }
    if i :| 0 <= i < |src| && src[i].ref == r && Lists(dst, r) && !ListsAs(dst, src[i]) {
      if i < n { assert init[i] == src[i]; }
    }
  }
}
