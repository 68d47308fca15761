/** The enumerations of a sync pass (cmd/pk/sync.go, doPass): two or three goroutines that list
    a store each and share one context, which the first to fail cancels for all. */
module SyncEnumerate {
  import opened BlobDiff
  import opened SyncListing

  // enumerateAllBlobs is sending; it has returned; cancel has been called if need be and the
  // error sent.
  datatype Phase = Sending | Returned(err: Err) | Reported(err: Err)

  datatype Leg = Leg(all: seq<Sized>, sent: nat, phase: Phase)

  datatype Enumerations = Enumerations(legs: seq<Leg>, canceled: bool)

  datatype Step = Send(i: nat) | Return(i: nat, err: Err) | Report(i: nat)

  function Start(stores: seq<seq<Sized>>): Enumerations {
    Enumerations(seq(|stores|, i requires 0 <= i < |stores| => Leg(stores[i], 0, Sending)), false)
  }

  /** An enumeration returns nil only when it has sent everything, and Canceled only when the
      shared context has been canceled; it may fail at any time. */
  predicate Enabled(e: Enumerations, a: Step) {
    && a.i < |e.legs|
    && var leg := e.legs[a.i];
       match a
       case Send(_) => leg.phase.Sending? && leg.sent < |leg.all|
       case Return(_, err) =>
         leg.phase.Sending? && (err == Nil ==> leg.sent >= |leg.all|) && (err == Canceled ==> e.canceled)
       case Report(_) => leg.phase.Returned?
  }

  function Next(e: Enumerations, a: Step): Enumerations
    requires Enabled(e, a)
  {
    var leg := e.legs[a.i];
    match a
    case Send(i) => e.(legs := e.legs[i := leg.(sent := leg.sent + 1)])
    case Return(i, err) => e.(legs := e.legs[i := leg.(phase := Returned(err))])
    case Report(i) =>
      Enumerations(e.legs[i := leg.(phase := Reported(leg.phase.err))], e.canceled || leg.phase.err != Nil)
  }

  ghost predicate Run(e: Enumerations, steps: seq<Step>, f: Enumerations)
    decreases |steps|
  {
    if steps == [] then e == f else Enabled(e, steps[0]) && Run(Next(e, steps[0]), steps[1..], f)
  }

  predicate AllReported(e: Enumerations) {
    forall i :: 0 <= i < |e.legs| ==> e.legs[i].phase.Reported?
  }

  function ListingOf(leg: Leg): Listing
    requires leg.phase.Reported? && leg.sent <= |leg.all|
  {
    Listing(leg.all[..leg.sent], leg.phase.err)
  }

  // Some enumeration has failed on its own account, and said so.
  ghost predicate SomeFailed(e: Enumerations) {
    exists i :: 0 <= i < |e.legs| && e.legs[i].phase == Reported(Failed)
  }

  predicate Ended(leg: Leg, err: Err) {
    leg.phase == Returned(err) || leg.phase == Reported(err)
  }

  // Kept by every step: the context is canceled, and Canceled returned, only after a failure,
  // and any error reported has canceled it; nil is returned only by a complete enumeration.
  ghost predicate Inv(e: Enumerations, stores: seq<seq<Sized>>) {
    && |e.legs| == |stores|
    && (e.canceled ==> SomeFailed(e))
    && (forall i :: 0 <= i < |e.legs| ==>
          && e.legs[i].all == stores[i] && e.legs[i].sent <= |stores[i]|
          && (Ended(e.legs[i], Nil) ==> e.legs[i].sent == |stores[i]|)
          && (Ended(e.legs[i], Canceled) ==> e.canceled)
          && (e.legs[i].phase.Reported? && e.legs[i].phase.err != Nil ==> e.canceled))
  }

  lemma StepInv(e: Enumerations, stores: seq<seq<Sized>>, a: Step)
    requires Inv(e, stores) && Enabled(e, a)
    ensures Inv(Next(e, a), stores)
  {
    var f := Next(e, a);
    if SomeFailed(e) {
      var i :| 0 <= i < |e.legs| && e.legs[i].phase == Reported(Failed);
      assert f.legs[i].phase == Reported(Failed);
    } else if f.canceled {
      assert f.legs[a.i].phase == Reported(Failed);
    }
  }

  lemma {:induction false} RunInv(e: Enumerations, stores: seq<seq<Sized>>, steps: seq<Step>, f: Enumerations)
    requires Inv(e, stores) && Run(e, steps, f)
    ensures Inv(f, stores)
    decreases |steps|
  {
    if steps != [] {
      StepInv(e, stores, steps[0]);
      RunInv(Next(e, steps[0]), stores, steps[1..], f);
    }
  }

  /** However the enumerations interleave: an enumeration that did not return nil means that
      some enumeration failed on its own account, for Canceled never comes first. */
  lemma ErrorMeansFailure(stores: seq<seq<Sized>>, steps: seq<Step>, f: Enumerations)
    requires Run(Start(stores), steps, f) && AllReported(f)
    ensures (exists i :: 0 <= i < |f.legs| && f.legs[i].phase.err != Nil) <==> SomeFailed(f)
    ensures f.canceled <==> SomeFailed(f)
  {
    RunInv(Start(stores), stores, steps, f);
    if i :| 0 <= i < |f.legs| && f.legs[i].phase.err != Nil {
      assert f.legs[i].phase.err == Canceled ==> Ended(f.legs[i], Canceled);
    }
  }

  /** And each yields a prefix of its store's order, the whole of it if it returned nil. */
  lemma LegEnumerates(stores: seq<seq<Sized>>, steps: seq<Step>, f: Enumerations, i: nat, s: Store)
    requires Run(Start(stores), steps, f) && i < |stores| && Enumerates(s, Listing(stores[i], Nil))
    ensures |f.legs| == |stores| && f.legs[i].sent <= |f.legs[i].all|
    ensures f.legs[i].phase.Reported? ==> Enumerates(s, ListingOf(f.legs[i]))
  {
    RunInv(Start(stores), stores, steps, f);
    if f.legs[i].phase.Reported? {
      var l := ListingOf(f.legs[i]);
      assert forall k :: 0 <= k < |l.blobs| ==> l.blobs[k] == stores[i][k];
      if l.err == Nil {
        assert Ended(f.legs[i], Nil);
        assert l.blobs == stores[i];
      }
    }
  }
}
