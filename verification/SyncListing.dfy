/** What the enumerations of a sync pass yield. */
module SyncListing {
  import opened BlobDiff

  type Store = map<Ref, nat>    // the blobs a server holds, with their sizes

  // The error an enumeration returns.
  datatype Err = Nil | Canceled | Failed

  datatype Listing = Listing(blobs: seq<Sized>, err: Err)

  /** What an enumeration yields: blobs the store holds, in order; all of them if it returns no
      error. */
  ghost predicate Enumerates(s: Store, l: Listing) {
    && Sorted(l.blobs) && Valid(l.blobs)
    && (forall i :: 0 <= i < |l.blobs| ==> l.blobs[i].ref in s && s[l.blobs[i].ref] == l.blobs[i].size)
    && (l.err == Nil ==> forall r :: r in s ==> ListsAs(l.blobs, Sized(r, s[r])))
  }
}
