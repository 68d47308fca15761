/** One pass of `pk sync` (cmd/pk/sync.go, doPass): blobs the destination (or third leg) lacks
    are copied concurrently, and with removeSrc deleted from the source afterwards.  Any
    enumeration, fetch, upload or removal may fail. */
module SyncPass {
  import opened BlobDiff
  import opened SyncListing
  import SyncEnumerate

  // A pass: the stores at its start and what the enumerations yield.
  datatype Plan = Plan(
    removeSrc: bool, threeLegs: bool, concurrency: nat,
    src: Store, dest: Store, third: Store,
    srcList: Listing, destList: Listing, thirdList: Listing)

  ghost predicate WellFormed(p: Plan) {
    && Enumerates(p.src, p.srcList) && Enumerates(p.dest, p.destList)
    && (p.threeLegs ==> Enumerates(p.third, p.thirdList))
  }

  // What is copied, and to where: the third leg takes what neither it nor the destination has.
  function Needed(p: Plan): seq<Sized> {
    var need := NotListed(p.srcList.blobs, p.destList.blobs);
    if p.threeLegs then NotListed(need, p.thirdList.blobs) else need
  }

  function Mismatches(p: Plan): nat {
    |Differing(p.srcList.blobs, p.destList.blobs)|
    + if p.threeLegs then |Differing(NotListed(p.srcList.blobs, p.destList.blobs), p.thirdList.blobs)| else 0
  }

  function HopStore(p: Plan): Store {
    if p.threeLegs then p.third else p.dest
  }

  // ------------------------------------------------------------------------ transitions

  datatype Job =
    | Waiting
    | Fetching
    | Fetched(size: nat)    // what the source gave
    | Stored
    | Ended(copied: bool, failed: bool)

  datatype State = State(
    src: Store, hop: Store, jobs: seq<Job>,
    unreported: nat,    // size mismatches not yet passed to onMismatch
    blobsCopied: nat, bytesCopied: nat, errors: nat)

  function Init(p: Plan): State {
    State(p.src, HopStore(p), seq(|Needed(p)|, _ => Waiting), Mismatches(p), 0, 0, 0)
  }

  /** What may happen next.  Failures come with what they may have done all the same: a failed
      upload may have stored the blob, a failed removal may have removed it. */
  datatype Step =
    | ReportMismatch
    | Start(i: nat)
    | FetchError(i: nat)
    | FetchDone(i: nat, size: nat)
    | UploadError(i: nat, stored: bool)
    | UploadDone(i: nat)
    | KeepSource(i: nat)
    | RemoveError(i: nat, gone: bool)
    | RemoveDone(i: nat)

  function Running(jobs: seq<Job>): nat {
    if jobs == [] then 0
    else Running(jobs[1..]) + if jobs[0].Fetching? || jobs[0].Fetched? || jobs[0].Stored? then 1 else 0
  }

  predicate Enabled(p: Plan, s: State, a: Step) {
    if a.ReportMismatch? then s.unreported > 0
    else
      && |s.jobs| == |Needed(p)| && a.i < |s.jobs|
      && match a
         case Start(i) => s.jobs[i].Waiting? && Running(s.jobs) < p.concurrency
         case FetchError(i) => s.jobs[i].Fetching?
         case FetchDone(i, _) => s.jobs[i].Fetching? && Needed(p)[i].ref in s.src
         case UploadError(i, _) => s.jobs[i].Fetched?
         case UploadDone(i) => s.jobs[i].Fetched?
         case KeepSource(i) => s.jobs[i].Stored? && !p.removeSrc
         case RemoveError(i, _) => s.jobs[i].Stored? && p.removeSrc
         case RemoveDone(i) => s.jobs[i].Stored? && p.removeSrc
         case ReportMismatch => false
  }

  function Next(p: Plan, s: State, a: Step): State
    requires Enabled(p, s, a)
  {
    match a
    case ReportMismatch => s.(unreported := s.unreported - 1, errors := s.errors + 1)
    case Start(i) => s.(jobs := s.jobs[i := Fetching])
    case FetchError(i) => s.(jobs := s.jobs[i := Ended(false, true)], errors := s.errors + 1)
    case FetchDone(i, size) =>
      if size != Needed(p)[i].size then s.(jobs := s.jobs[i := Ended(false, true)], errors := s.errors + 1)
      else s.(jobs := s.jobs[i := Fetched(size)])
    case UploadError(i, stored) =>
      s.(jobs := s.jobs[i := Ended(false, true)], errors := s.errors + 1,
         hop := if stored then s.hop[Needed(p)[i].ref := s.jobs[i].size] else s.hop)
    case UploadDone(i) =>
      s.(jobs := s.jobs[i := Stored], hop := s.hop[Needed(p)[i].ref := s.jobs[i].size],
         blobsCopied := s.blobsCopied + 1, bytesCopied := s.bytesCopied + s.jobs[i].size)
    case KeepSource(i) => s.(jobs := s.jobs[i := Ended(true, false)])
    case RemoveError(i, gone) =>
      s.(jobs := s.jobs[i := Ended(true, true)], errors := s.errors + 1,
         src := if gone then s.src - {Needed(p)[i].ref} else s.src)
    case RemoveDone(i) => s.(jobs := s.jobs[i := Ended(true, false)], src := s.src - {Needed(p)[i].ref})
  }

  ghost predicate Run(p: Plan, s: State, steps: seq<Step>, t: State)
    decreases |steps|
  {
    if steps == [] then s == t else Enabled(p, s, steps[0]) && Run(p, Next(p, s, steps[0]), steps[1..], t)
  }

  // wg.Wait() has returned and both merges have ended.
  predicate Finished(s: State) {
    s.unreported == 0 && forall i :: 0 <= i < |s.jobs| ==> s.jobs[i].Ended?
  }

  datatype RetErr = NoError | FromSource | FromDestination | FromThirdLeg | CopyErrors(n: nat)

  /** The checks at the end, each overwriting the error of the one before it; an enumeration
      error counts unless it is context.Canceled. */
  function Returned(p: Plan, s: State): RetErr {
    var e1 := if p.srcList.err != Nil && p.srcList.err != Canceled then FromSource else NoError;
    var e2 := if p.destList.err != Nil && p.destList.err != Canceled then FromDestination else e1;
    var e3 := if p.threeLegs && p.thirdList.err != Nil && p.thirdList.err != Canceled then FromThirdLeg else e2;
    if e3 == NoError && s.errors > 0 then CopyErrors(s.errors) else e3
  }

  // ------------------------------------------------------------------------- invariants

  lemma {:induction false} NotListedMember(src: seq<Sized>, dst: seq<Sized>)
    requires Sorted(src)
    ensures Sorted(NotListed(src, dst))
    ensures forall b :: b in NotListed(src, dst) <==> b in src && !Lists(dst, b.ref)
  {
    if src != [] {
      var init, last := src[..|src| - 1], src[|src| - 1];
      NotListedMember(init, dst);
      assert src == init + [last];
      forall b | b in NotListed(init, dst) ensures b.ref < last.ref {
        assert b in init;
      }
    }
  }

  lemma NeededMember(p: Plan)
    requires WellFormed(p)
    ensures Sorted(Needed(p))
    ensures forall i :: 0 <= i < |Needed(p)| ==> Needed(p)[i].ref in p.src && p.src[Needed(p)[i].ref] == Needed(p)[i].size
  {
    var need := NotListed(p.srcList.blobs, p.destList.blobs);
    NotListedMember(p.srcList.blobs, p.destList.blobs);
    NotListedMember(need, p.thirdList.blobs);
    forall i | 0 <= i < |Needed(p)| ensures Needed(p)[i] in p.srcList.blobs {
      assert Needed(p)[i] in Needed(p);
    }
  }

  // The copy of blob b is safely in the store it was sent to.
  ghost predicate Safe(s: State, b: Sized) {
    b.ref in s.hop && s.hop[b.ref] == b.size
  }

  // What is about to be stored has the size the source listed.
  ghost predicate FetchedWell(p: Plan, s: State)
    requires |s.jobs| == |Needed(p)|
  {
    forall i :: 0 <= i < |s.jobs| && s.jobs[i].Fetched? ==> s.jobs[i].size == Needed(p)[i].size
  }

  ghost predicate Inv(p: Plan, s: State) {
    && |s.jobs| == |Needed(p)| && FetchedWell(p, s)
    // nothing appears in the source; what leaves it is safe elsewhere, and only by removeSrc
    && (forall r :: r in s.src ==> r in p.src && s.src[r] == p.src[r])
    && (forall r :: r in p.src && r !in s.src ==> p.removeSrc && Safe(s, Sized(r, p.src[r])))
    // the destination of the copies only gains
    && (forall r :: r in HopStore(p) ==>
          r in s.hop && (s.hop[r] == HopStore(p)[r] || (r in p.src && s.hop[r] == p.src[r])))
    && (forall i :: 0 <= i < |s.jobs| && (s.jobs[i].Stored? || (s.jobs[i].Ended? && s.jobs[i].copied)) ==> Safe(s, Needed(p)[i]))
    && (forall i :: 0 <= i < |s.jobs| && s.jobs[i].Ended? && !s.jobs[i].copied ==> s.jobs[i].failed)
    // no error means nothing has gone wrong
    && (s.errors == 0 ==> s.unreported == Mismatches(p) && forall i :: 0 <= i < |s.jobs| && s.jobs[i].Ended? ==> !s.jobs[i].failed)
  }

  // Storing a copy under a needed ref keeps every safe source blob safe.
  lemma StoreKeepsSafe(p: Plan, s: State, t: State, b: Sized, x: Sized)
    requires b.ref in p.src && p.src[b.ref] == b.size && x.ref in p.src && p.src[x.ref] == x.size
    requires Safe(s, x) && t.hop == s.hop[b.ref := b.size]
    ensures Safe(t, x)
  {
  }

  lemma UploadInv(p: Plan, s: State, a: Step)
    requires WellFormed(p) && Inv(p, s) && Enabled(p, s, a) && (a.UploadDone? || (a.UploadError? && a.stored))
    ensures Inv(p, Next(p, s, a))
  {
    NeededMember(p);
    var t, b := Next(p, s, a), Needed(p)[a.i];
    forall r | r in p.src && r !in t.src ensures p.removeSrc && Safe(t, Sized(r, p.src[r])) {
      StoreKeepsSafe(p, s, t, b, Sized(r, p.src[r]));
    }
    forall j | 0 <= j < |t.jobs| && (t.jobs[j].Stored? || (t.jobs[j].Ended? && t.jobs[j].copied))
      ensures Safe(t, Needed(p)[j])
    {
      if j != a.i { StoreKeepsSafe(p, s, t, b, Needed(p)[j]); }
    }
  }

  lemma RemoveInv(p: Plan, s: State, a: Step)
    requires WellFormed(p) && Inv(p, s) && Enabled(p, s, a) && (a.RemoveDone? || a.RemoveError?)
    ensures Inv(p, Next(p, s, a))
  {
    NeededMember(p);
    var t := Next(p, s, a);
    assert Safe(s, Needed(p)[a.i]);
    assert t.hop == s.hop;
    assert forall x: Sized :: Safe(t, x) <==> Safe(s, x);
  }

  // Steps that touch neither store.
  lemma QuietInv(p: Plan, s: State, a: Step)
    requires Inv(p, s) && Enabled(p, s, a) && !a.UploadDone? && !a.RemoveDone? && !a.RemoveError?
    requires !(a.UploadError? && a.stored)
    ensures Inv(p, Next(p, s, a))
  {
    var t := Next(p, s, a);
    assert t.src == s.src && t.hop == s.hop;
    assert forall x: Sized :: Safe(t, x) <==> Safe(s, x);
  }

  lemma StepInv(p: Plan, s: State, a: Step)
    requires WellFormed(p) && Inv(p, s) && Enabled(p, s, a)
    ensures Inv(p, Next(p, s, a))
  {
    if a.UploadDone? || (a.UploadError? && a.stored) {
      UploadInv(p, s, a);
    } else if a.RemoveDone? || a.RemoveError? {
      RemoveInv(p, s, a);
    } else {
      QuietInv(p, s, a);
    }
  }

  lemma {:induction false} RunInv(p: Plan, s: State, steps: seq<Step>, t: State)
    requires WellFormed(p) && Inv(p, s) && Run(p, s, steps, t)
    ensures Inv(p, t)
    decreases |steps|
  {
    if steps != [] {
      StepInv(p, s, steps[0]);
      RunInv(p, Next(p, s, steps[0]), steps[1..], t);
    }
  }

  /** Whatever fails and however the copies interleave, no blob of any store is ever lost: it
      stays where it was, or it was in the source and its copy, of the same size, is held by
      the store the pass copies to. */
  lemma NeverLost(p: Plan, steps: seq<Step>, t: State)
    requires WellFormed(p) && Run(p, Init(p), steps, t)
    ensures forall r :: r in p.src ==> (r in t.src && t.src[r] == p.src[r]) || (p.removeSrc && r in t.hop && t.hop[r] == p.src[r])
    ensures forall r :: r in HopStore(p) ==>
              r in t.hop && (t.hop[r] == HopStore(p)[r] || (r in p.src && t.hop[r] == p.src[r]))
  {
    RunInv(p, Init(p), steps, t);
  }

  // Where the destination ends up: a two-leg pass copies into it.
  function DestAfter(p: Plan, s: State): Store { if p.threeLegs then p.dest else s.hop }
  function ThirdAfter(p: Plan, s: State): Store { if p.threeLegs then s.hop else p.third }

  lemma {:induction false} DifferingMember(src: seq<Sized>, dst: seq<Sized>, b: Sized)
    requires b in src && Lists(dst, b.ref) && !ListsAs(dst, b)
    ensures Differing(src, dst) != []
  {
    if b != src[|src| - 1] {
      assert b in src[..|src| - 1];
      DifferingMember(src[..|src| - 1], dst, b);
    }
  }

  lemma SameSize(src: seq<Sized>, dst: seq<Sized>, b: Sized)
    requires b in src && Lists(dst, b.ref) && Differing(src, dst) == []
    ensures ListsAs(dst, b)
  {
    if !ListsAs(dst, b) { DifferingMember(src, dst, b); }
  }

  lemma NoMismatch(p: Plan, t: State)
    requires Inv(p, t) && Finished(t) && t.errors == 0
    ensures Differing(p.srcList.blobs, p.destList.blobs) == []
    ensures p.threeLegs ==> Differing(NotListed(p.srcList.blobs, p.destList.blobs), p.thirdList.blobs) == []
  {
  }

  lemma CopiedBlob(p: Plan, t: State, b: Sized)
    requires Inv(p, t) && Finished(t) && t.errors == 0 && b in Needed(p)
    ensures Safe(t, b)
  {
    var i :| 0 <= i < |Needed(p)| && Needed(p)[i] == b;
    assert t.jobs[i].Ended?;
  }

  // A blob a store was listed with is still there, at the size listed or the source's.
  lemma ListedBlob(p: Plan, t: State, l: Listing, b: Sized)
    requires Inv(p, t) && Enumerates(HopStore(p), l) && ListsAs(l.blobs, b) && b.ref in p.src && p.src[b.ref] == b.size
    ensures Safe(t, b)
  {
  }

  lemma SyncedDirect(p: Plan, t: State, b: Sized)
    requires WellFormed(p) && Inv(p, t) && Finished(t) && t.errors == 0 && !p.threeLegs
    requires b in p.srcList.blobs && b.ref in p.src && p.src[b.ref] == b.size
    ensures Safe(t, b)
  {
    var src, dst := p.srcList.blobs, p.destList.blobs;
    NotListedMember(src, dst);
    if Lists(dst, b.ref) {
      NoMismatch(p, t);
      SameSize(src, dst, b);
      ListedBlob(p, t, p.destList, b);
    } else {
      CopiedBlob(p, t, b);
    }
  }

  lemma SyncedByThird(p: Plan, t: State, b: Sized)
    requires WellFormed(p) && Inv(p, t) && Finished(t) && t.errors == 0 && p.threeLegs
    requires b in NotListed(p.srcList.blobs, p.destList.blobs) && b.ref in p.src && p.src[b.ref] == b.size
    ensures Safe(t, b)
  {
    var need, third := NotListed(p.srcList.blobs, p.destList.blobs), p.thirdList.blobs;
    NotListedMember(p.srcList.blobs, p.destList.blobs);
    NotListedMember(need, third);
    if Lists(third, b.ref) {
      NoMismatch(p, t);
      SameSize(need, third, b);
      ListedBlob(p, t, p.thirdList, b);
    } else {
      CopiedBlob(p, t, b);
    }
  }

  lemma SyncedBlob(p: Plan, t: State, b: Sized)
    requires WellFormed(p) && Inv(p, t) && Finished(t) && t.errors == 0
    requires b in p.srcList.blobs && b.ref in p.src && p.src[b.ref] == b.size
    ensures || (b.ref in DestAfter(p, t) && DestAfter(p, t)[b.ref] == b.size)
            || (p.threeLegs && b.ref in ThirdAfter(p, t) && ThirdAfter(p, t)[b.ref] == b.size)
  {
    if !p.threeLegs {
      SyncedDirect(p, t, b);
    } else {
      NotListedMember(p.srcList.blobs, p.destList.blobs);
      if Lists(p.destList.blobs, b.ref) {
        NoMismatch(p, t);
        SameSize(p.srcList.blobs, p.destList.blobs, b);
      } else {
        SyncedByThird(p, t, b);
      }
    }
  }

  // Blob r of the source is, at its size, where a pass is to bring it: in the destination, or
  // in three-leg mode in the destination or the third leg.
  predicate Synced(p: Plan, dest: Store, third: Store, r: Ref)
    requires r in p.src
  {
    (r in dest && dest[r] == p.src[r]) || (p.threeLegs && r in third && third[r] == p.src[r])
  }

  // The store copied to changes only at refs that were needed.
  ghost predicate HopOnly(p: Plan, s: State) {
    forall r :: r in s.hop ==> (r in HopStore(p) && s.hop[r] == HopStore(p)[r]) || Lists(Needed(p), r)
  }

  lemma {:induction false} RunHopOnly(p: Plan, s: State, steps: seq<Step>, t: State)
    requires HopOnly(p, s) && Run(p, s, steps, t)
    ensures HopOnly(p, t)
    decreases |steps|
  {
    if steps != [] {
      StepHopOnly(p, s, steps[0]);
      RunHopOnly(p, Next(p, s, steps[0]), steps[1..], t);
    }
  }

  lemma StepHopOnly(p: Plan, s: State, a: Step)
    requires HopOnly(p, s) && Enabled(p, s, a)
    ensures HopOnly(p, Next(p, s, a))
  {
    if a.UploadDone? || a.UploadError? {
      assert Lists(Needed(p), Needed(p)[a.i].ref);
    }
  }

  // Only listed source blobs are needed.
  lemma NeededIsListed(p: Plan, r: Ref)
    requires WellFormed(p) && r in p.src && Lists(Needed(p), r)
    ensures ListsAs(p.srcList.blobs, Sized(r, p.src[r]))
  {
    var need := NotListed(p.srcList.blobs, p.destList.blobs);
    NotListedMember(p.srcList.blobs, p.destList.blobs);
    NotListedMember(need, p.thirdList.blobs);
    var i :| 0 <= i < |Needed(p)| && Needed(p)[i].ref == r;
    assert Needed(p)[i] in Needed(p);
    assert Needed(p)[i] in p.srcList.blobs;
  }

  /** The exact law of a pass that returns nil: a source blob ends up synced if and only if the
      source's enumeration listed it or it was synced before. */
  lemma SyncedExactly(p: Plan, steps: seq<Step>, t: State, r: Ref)
    requires WellFormed(p) && Run(p, Init(p), steps, t) && Finished(t) && Returned(p, t) == NoError && r in p.src
    ensures Synced(p, DestAfter(p, t), ThirdAfter(p, t), r) <==>
            ListsAs(p.srcList.blobs, Sized(r, p.src[r])) || Synced(p, p.dest, p.third, r)
  {
    RunInv(p, Init(p), steps, t);
    RunHopOnly(p, Init(p), steps, t);
    if ListsAs(p.srcList.blobs, Sized(r, p.src[r])) {
      SyncedBlob(p, t, Sized(r, p.src[r]));
    } else if Lists(Needed(p), r) {
      NeededIsListed(p, r);
    }
  }

  // The enumerations of pass p ran, interleaved somehow, over the stores' contents in order.
  ghost predicate Enumerated(p: Plan, orders: seq<seq<Sized>>, steps: seq<SyncEnumerate.Step>, f: SyncEnumerate.Enumerations) {
    && |orders| == (if p.threeLegs then 3 else 2)
    && Enumerates(p.src, Listing(orders[0], Nil)) && Enumerates(p.dest, Listing(orders[1], Nil))
    && (p.threeLegs ==> Enumerates(p.third, Listing(orders[2], Nil)))
    && SyncEnumerate.Run(SyncEnumerate.Start(orders), steps, f) && SyncEnumerate.AllReported(f)
    && |f.legs| == |orders| && (forall i :: 0 <= i < |f.legs| ==> f.legs[i].sent <= |f.legs[i].all|)
    && p.srcList == SyncEnumerate.ListingOf(f.legs[0]) && p.destList == SyncEnumerate.ListingOf(f.legs[1])
    && (p.threeLegs ==> p.thirdList == SyncEnumerate.ListingOf(f.legs[2]))
  }

  lemma EnumeratedWellFormed(p: Plan, orders: seq<seq<Sized>>, steps: seq<SyncEnumerate.Step>, f: SyncEnumerate.Enumerations)
    requires Enumerated(p, orders, steps, f)
    ensures WellFormed(p)
  {
    SyncEnumerate.LegEnumerates(orders, steps, f, 0, p.src);
    SyncEnumerate.LegEnumerates(orders, steps, f, 1, p.dest);
    if p.threeLegs { SyncEnumerate.LegEnumerates(orders, steps, f, 2, p.third); }
  }

  /** However the enumerations interleave and cancel one another, if any leg in use was not
      enumerated to the end without error, the pass returns an enumeration error, and it is
      one of a leg that failed itself. */
  lemma EnumerationFailureReported(
      p: Plan, orders: seq<seq<Sized>>, steps: seq<SyncEnumerate.Step>, f: SyncEnumerate.Enumerations, s: State)
    requires Enumerated(p, orders, steps, f)
    requires p.srcList.err != Nil || p.destList.err != Nil || (p.threeLegs && p.thirdList.err != Nil)
    ensures match Returned(p, s)
            case FromSource => p.srcList.err == Failed
            case FromDestination => p.destList.err == Failed
            case FromThirdLeg => p.threeLegs && p.thirdList.err == Failed
            case _ => false
  {
    SyncEnumerate.ErrorMeansFailure(orders, steps, f);
    assert f.legs[0].phase.err == p.srcList.err && f.legs[1].phase.err == p.destList.err;
    assert p.threeLegs ==> f.legs[2].phase.err == p.thirdList.err;
  }

  /** A pass that returns nil leaves every source blob, at its size, in the destination; or, in
      three-leg mode, in the destination or the third leg. */
  lemma NilMeansSynced(
      p: Plan, orders: seq<seq<Sized>>, es: seq<SyncEnumerate.Step>, f: SyncEnumerate.Enumerations, steps: seq<Step>, t: State)
    requires Enumerated(p, orders, es, f)
    requires Run(p, Init(p), steps, t) && Finished(t) && Returned(p, t) == NoError
    ensures forall r :: r in p.src ==> Synced(p, DestAfter(p, t), ThirdAfter(p, t), r)
  {
    EnumeratedWellFormed(p, orders, es, f);
    if p.srcList.err != Nil {
      EnumerationFailureReported(p, orders, es, f, t);
    }
    forall r | r in p.src ensures Synced(p, DestAfter(p, t), ThirdAfter(p, t), r) {
      SyncedExactly(p, steps, t, r);
    }
  }

  // -------------------------------------------------------------------------- statistics

  function Copied(need: seq<Sized>, jobs: seq<Job>, size: bool): nat
    requires |need| == |jobs|
  {
    if jobs == [] then 0
    else Copied(need[1..], jobs[1..], size)
         + if jobs[0].Stored? || (jobs[0].Ended? && jobs[0].copied) then (if size then need[0].size else 1) else 0
  }

  lemma {:induction false} CopiedUpdate(need: seq<Sized>, jobs: seq<Job>, size: bool, i: nat, j: Job)
    requires |need| == |jobs| && i < |jobs|
    ensures var one := if size then need[i].size else 1;
            var was := if jobs[i].Stored? || (jobs[i].Ended? && jobs[i].copied) then one else 0;
            var now := if j.Stored? || (j.Ended? && j.copied) then one else 0;
            Copied(need, jobs[i := j], size) + was == Copied(need, jobs, size) + now
  {
    if i == 0 {
      assert jobs[0 := j][1..] == jobs[1..];
    } else {
      assert jobs[i := j][1..] == jobs[1..][i - 1 := j];
      CopiedUpdate(need[1..], jobs[1..], size, i - 1, j);
    }
  }

  function Failures(jobs: seq<Job>): nat {
    if jobs == [] then 0 else Failures(jobs[1..]) + if jobs[0].Ended? && jobs[0].failed then 1 else 0
  }

  lemma {:induction false} FailuresUpdate(jobs: seq<Job>, i: nat, j: Job)
    requires i < |jobs|
    ensures Failures(jobs[i := j]) + (if jobs[i].Ended? && jobs[i].failed then 1 else 0) ==
            Failures(jobs) + if j.Ended? && j.failed then 1 else 0
  {
    if i == 0 {
      assert jobs[0 := j][1..] == jobs[1..];
    } else {
      assert jobs[i := j][1..] == jobs[1..][i - 1 := j];
      FailuresUpdate(jobs[1..], i - 1, j);
    }
  }

  lemma {:induction false} NoFailures(n: nat)
    ensures Failures(seq(n, _ => Waiting)) == 0
  {
    if n > 0 {
      assert seq(n, _ => Waiting)[1..] == seq(n - 1, _ => Waiting);
      NoFailures(n - 1);
    }
  }

  // Blobs and bytes copied, and errors: mismatches reported and jobs in which something failed.
  ghost predicate Counted(p: Plan, s: State) {
    && |s.jobs| == |Needed(p)| && FetchedWell(p, s) && s.unreported <= Mismatches(p)
    && s.errors == Mismatches(p) - s.unreported + Failures(s.jobs)
    && s.blobsCopied == Copied(Needed(p), s.jobs, false) && s.bytesCopied == Copied(Needed(p), s.jobs, true)
  }

  lemma StepCounted(p: Plan, s: State, a: Step)
    requires Counted(p, s) && Enabled(p, s, a)
    ensures Counted(p, Next(p, s, a))
  {
    if !a.ReportMismatch? {
      CopiedUpdate(Needed(p), s.jobs, false, a.i, Next(p, s, a).jobs[a.i]);
      CopiedUpdate(Needed(p), s.jobs, true, a.i, Next(p, s, a).jobs[a.i]);
      FailuresUpdate(s.jobs, a.i, Next(p, s, a).jobs[a.i]);
    }
  }

  lemma {:induction false} NoneCopied(need: seq<Sized>, size: bool)
    ensures Copied(need, seq(|need|, _ => Waiting), size) == 0
  {
    if need != [] {
      assert seq(|need|, _ => Waiting)[1..] == seq(|need[1..]|, _ => Waiting);
      NoneCopied(need[1..], size);
    }
  }

  lemma {:induction false} RunCounted(p: Plan, s: State, steps: seq<Step>, t: State)
    requires Counted(p, s) && Run(p, s, steps, t)
    ensures Counted(p, t)
    decreases |steps|
  {
    if steps != [] {
      StepCounted(p, s, steps[0]);
      RunCounted(p, Next(p, s, steps[0]), steps[1..], t);
    }
  }

  /** The statistics count exactly the blobs whose upload succeeded, their sizes, and the errors:
      one for each mismatch reported and each blob that failed. */
  lemma StatsAreExact(p: Plan, steps: seq<Step>, t: State)
    requires Run(p, Init(p), steps, t)
    ensures Counted(p, t)
  {
    NoneCopied(Needed(p), false);
    NoneCopied(Needed(p), true);
    NoFailures(|Needed(p)|);
    RunCounted(p, Init(p), steps, t);
  }

  /** So a finished pass returns the number of mismatches and failed blobs if the enumerations
      went well, and nil only if there were none. */
  lemma ReturnsErrorCount(p: Plan, steps: seq<Step>, t: State)
    requires Run(p, Init(p), steps, t) && Finished(t)
    requires p.srcList.err == Nil && p.destList.err == Nil && (p.threeLegs ==> p.thirdList.err == Nil)
    ensures var n := Mismatches(p) + Failures(t.jobs);
            Returned(p, t) == if n == 0 then NoError else CopyErrors(n)
  {
    StatsAreExact(p, steps, t);
  }

  // ------------------------------------------------------------------- what removeSrc removes

  // The blobs to be moved: the source lists them, and no leg in use does.
  ghost predicate OnlyInSource(p: Plan, r: Ref) {
    && Lists(p.srcList.blobs, r) && !Lists(p.destList.blobs, r)
    && (p.threeLegs ==> !Lists(p.thirdList.blobs, r))
  }

  lemma NeededExactly(p: Plan, r: Ref)
    requires WellFormed(p)
    ensures Lists(Needed(p), r) <==> OnlyInSource(p, r)
  {
    var src, dst, third := p.srcList.blobs, p.destList.blobs, p.thirdList.blobs;
    NotListedRefs(src, dst, r);
    NotListedMember(src, dst);
    NotListedRefs(NotListed(src, dst), third, r);
  }

  lemma NotListedRefs(src: seq<Sized>, dst: seq<Sized>, r: Ref)
    requires Sorted(src)
    ensures Lists(NotListed(src, dst), r) <==> Lists(src, r) && !Lists(dst, r)
  {
    NotListedMember(src, dst);
    var need := NotListed(src, dst);
    if i :| 0 <= i < |need| && need[i].ref == r {
      assert need[i] in need;
      assert need[i] in src;
    }
    if i :| 0 <= i < |src| && src[i].ref == r && !Lists(dst, r) {
      assert src[i] in src;
      assert src[i] in need;
    }
  }

  predicate Removed(j: Job) { j.Ended? && j.copied && !j.failed }

  // What has left the source was needed; and a job that ended well has removed its blob.
  ghost predicate Removals(p: Plan, s: State) {
    && |s.jobs| == |Needed(p)|
    && (forall r :: r in p.src && r !in s.src ==> p.removeSrc && Lists(Needed(p), r))
    && (p.removeSrc ==> forall i :: 0 <= i < |s.jobs| && Removed(s.jobs[i]) ==> Needed(p)[i].ref !in s.src)
  }

  lemma StepRemovals(p: Plan, s: State, a: Step)
    requires Removals(p, s) && Enabled(p, s, a)
    ensures Removals(p, Next(p, s, a))
  {
    if a.RemoveDone? || a.RemoveError? {
      assert Lists(Needed(p), Needed(p)[a.i].ref);
    }
  }

  lemma {:induction false} RunRemovals(p: Plan, s: State, steps: seq<Step>, t: State)
    requires Removals(p, s) && Run(p, s, steps, t)
    ensures Removals(p, t)
    decreases |steps|
  {
    if steps != [] {
      StepRemovals(p, s, steps[0]);
      RunRemovals(p, Next(p, s, steps[0]), steps[1..], t);
    }
  }

  /** Only blobs to be moved ever leave the source, and only with removeSrc; a finished pass
      that returns no error has removed every one of them and changed nothing else. */
  lemma SourceAfter(p: Plan, steps: seq<Step>, t: State)
    requires WellFormed(p) && Run(p, Init(p), steps, t)
    ensures forall r :: r in t.src ==> r in p.src && t.src[r] == p.src[r]
    ensures forall r :: r in p.src && r !in t.src ==> p.removeSrc && OnlyInSource(p, r)
    ensures Finished(t) && Returned(p, t) == NoError ==>
              forall r :: r in p.src ==> (r in t.src <==> !(p.removeSrc && OnlyInSource(p, r)))
  {
    RunInv(p, Init(p), steps, t);
    RunRemovals(p, Init(p), steps, t);
    forall r | r in p.src && r !in t.src ensures p.removeSrc && OnlyInSource(p, r) {
      NeededExactly(p, r);
    }
    if Finished(t) && Returned(p, t) == NoError && p.removeSrc {
      forall r | r in p.src && OnlyInSource(p, r) ensures r !in t.src {
        NeededExactly(p, r);
        var i :| 0 <= i < |Needed(p)| && Needed(p)[i].ref == r;
        assert t.jobs[i].Ended?;
        assert Removed(t.jobs[i]);
      }
    }
  }

  // ----------------------------------------------------------------------- gate and progress

  lemma {:induction false} RunningUpdate(jobs: seq<Job>, i: nat, j: Job)
    requires i < |jobs|
    ensures Running(jobs[i := j]) + (if InGate(jobs[i]) then 1 else 0) == Running(jobs) + if InGate(j) then 1 else 0
  {
    if i == 0 {
      assert jobs[0 := j][1..] == jobs[1..];
    } else {
      assert jobs[i := j][1..] == jobs[1..][i - 1 := j];
      RunningUpdate(jobs[1..], i - 1, j);
    }
  }

  predicate InGate(j: Job) { j.Fetching? || j.Fetched? || j.Stored? }

  lemma {:induction false} NoneRunning(jobs: seq<Job>)
    requires forall i :: 0 <= i < |jobs| ==> !InGate(jobs[i])
    ensures Running(jobs) == 0
  {
    if jobs != [] { NoneRunning(jobs[1..]); }
  }

  /** At no time are more copies under way than the gate allows. */
  lemma {:induction false} GateHolds(p: Plan, s: State, steps: seq<Step>, t: State)
    requires Running(s.jobs) <= p.concurrency && Run(p, s, steps, t)
    ensures Running(t.jobs) <= p.concurrency
    decreases |steps|
  {
    if steps != [] {
      var a := steps[0];
      if !a.ReportMismatch? { RunningUpdate(s.jobs, a.i, Next(p, s, a).jobs[a.i]); }
      GateHolds(p, Next(p, s, a), steps[1..], t);
    }
  }

  function StepsOf(j: Job): nat {
    match j case Waiting => 4 case Fetching => 3 case Fetched(_) => 2 case Stored => 1 case Ended(_, _) => 0
  }

  function StepsLeft(jobs: seq<Job>): nat {
    if jobs == [] then 0 else StepsOf(jobs[0]) + StepsLeft(jobs[1..])
  }

  lemma {:induction false} StepsLeftUpdate(jobs: seq<Job>, i: nat, j: Job)
    requires i < |jobs|
    ensures StepsLeft(jobs[i := j]) + StepsOf(jobs[i]) == StepsLeft(jobs) + StepsOf(j)
  {
    if i == 0 {
      assert jobs[0 := j][1..] == jobs[1..];
    } else {
      assert jobs[i := j][1..] == jobs[1..][i - 1 := j];
      StepsLeftUpdate(jobs[1..], i - 1, j);
    }
  }

  lemma CanGoOn(p: Plan, s: State) returns (a: Step)
    requires |s.jobs| == |Needed(p)| && !Finished(s) && p.concurrency > 0
    ensures Enabled(p, s, a)
  {
    if s.unreported > 0 {
      a := ReportMismatch;
    } else if i :| 0 <= i < |s.jobs| && InGate(s.jobs[i]) {
      if s.jobs[i].Fetching? {
        a := FetchError(i);
      } else if s.jobs[i].Fetched? {
        a := UploadDone(i);
      } else {
        a := if p.removeSrc then RemoveDone(i) else KeepSource(i);
      }
    } else {
      var i :| 0 <= i < |s.jobs| && !s.jobs[i].Ended?;
      NoneRunning(s.jobs);
      a := Start(i);
    }
  }

  /** A pass ends: every run of copies is bounded, and one that is not finished can go on if
      the gate admits anything at all. */
  lemma {:induction false} CopiesEnd(p: Plan, s: State, steps: seq<Step>, t: State)
    requires |s.jobs| == |Needed(p)| && Run(p, s, steps, t)
    ensures |steps| + StepsLeft(t.jobs) + t.unreported <= StepsLeft(s.jobs) + s.unreported
    ensures p.concurrency > 0 ==> Finished(t) || exists a :: Enabled(p, t, a)
    decreases |steps|
  {
    if steps == [] {
      if !Finished(t) && p.concurrency > 0 { var a := CanGoOn(p, t); }
    } else {
      var a := steps[0];
      if !a.ReportMismatch? { StepsLeftUpdate(s.jobs, a.i, Next(p, s, a).jobs[a.i]); }
      CopiesEnd(p, Next(p, s, a), steps[1..], t);
    }
  }

  // ---------------------------------------------------------- where the code falls short

  /** The law needs the context to be canceled by the pass alone: a source enumeration that
      reports Canceled of its own accord is taken for success, and what it did not list and
      the destination does not hold is not copied. */
  lemma CanceledAloneIsSilent() returns (p: Plan)
    ensures WellFormed(p) && p.srcList.err == Canceled && p.destList.err == Nil && !p.threeLegs
    ensures Finished(Init(p)) && Returned(p, Init(p)) == NoError
    ensures 1 in p.src && !Synced(p, DestAfter(p, Init(p)), ThirdAfter(p, Init(p)), 1)
  {
    p := Plan(false, false, 1, map[1 := 1], map[], map[], Listing([], Canceled), Listing([], Nil), Listing([], Nil));
    assert p.srcList.blobs == [];
  }

  // The capacity of the channels the enumerations send on.
  const CHANNEL: nat := 100

  // An enumeration ends only if what nobody reads fits into its channel.
  predicate EnumerationEnds(listed: nat, taken: nat) {
    listed <= taken + CHANNEL
  }

  // Destination blobs sorting before a ref.
  function Before(dst: seq<Sized>, ref: Ref): nat {
    if dst == [] then 0 else Before(dst[..|dst| - 1], ref) + if dst[|dst| - 1].ref < ref then 1 else 0
  }

  lemma {:induction false} BeforeIsPrefix(dst: seq<Sized>, ref: Ref, n: nat)
    requires Sorted(dst) && n <= |dst|
    requires forall k :: 0 <= k < |dst| ==> (k < n <==> dst[k].ref < ref)
    ensures Before(dst, ref) == n
  {
    if dst != [] {
      var init := dst[..|dst| - 1];
      assert forall k :: 0 <= k < |init| ==> init[k] == dst[k];
      BeforeIsPrefix(init, ref, if n == |dst| then n - 1 else n);
    }
  }

  lemma {:induction false} BeforeAtMost(dst: seq<Sized>, ref: Ref)
    ensures Before(dst, ref) <= |dst|
  {
    if dst != [] { BeforeAtMost(dst[..|dst| - 1], ref); }
  }

  /** The merge stops reading the destination when the source ends, and doPass then waits for
      the destination's enumeration.  It waits for ever unless the destination blobs sorting
      from the last source blob on, less the one peeked at, fit into the channel. */
  lemma DestinationEnumerationEnds(src: seq<Sized>, dst: seq<Sized>, taken: nat)
    requires Sorted(src) && Sorted(dst) && ReadUpTo(src, dst, taken)
    ensures EnumerationEnds(|dst|, taken) <==>
            |dst| <= CHANNEL + if src == [] then 0 else Before(dst, src[|src| - 1].ref) + 1
  {
    if src != [] && dst != [] {
      var last, n := src[|src| - 1].ref, |dst|;
      BeforeAtMost(dst, last);
      if dst[n - 1].ref < last {
        BeforeIsPrefix(dst, last, n);
        assert n == 1 || dst[n - 2].ref < dst[n - 1].ref < last;
      } else if taken == n && n > 1 && dst[n - 2].ref < last {
        BeforeIsPrefix(dst, last, n - 1);
      } else {
        BeforeIsPrefix(dst, last, taken - 1);
      }
    }
  }
}
