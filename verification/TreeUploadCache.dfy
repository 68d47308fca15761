/** The stat cache of the tree upload: what an upload finds in it, and what it leaves in it. */
module TreeUploadCache {
  import opened ChanWorker
  import opened TreeUpload
  import opened TreeUploadSafety
  import opened TreeUploadProgress
  import opened TreeUploadTermination

  predicate IsFile(e: Env, n: nat) {
    n < |e.nodes| && !e.nodes[n].info.isDir
  }

  // -------------------------------------------------------------------- how steps write it

  lemma CacheStep(e: Env, s: State, a: Step)
    requires WellFormed(e) && CallsOk(e, s) && StepEnabled(e, s, a)
    ensures After(e, s, a).cache ==
            if a.NoteCached? then
              var info := e.nodes[s.upload.workers[a.i].item].info; s.cache[info := e.fileRef(info)]
            else s.cache
  {
    if a.NoteCached? {
      assert UploadCall(e, s.upload.workers[a.i]);
    } else if a.Lookup? || a.PutFile? || a.PutDir? {
      FileStepCache(e, s, a);
    } else {
      QuietValues(e, s, a);
    }
  }

  lemma FileStepCache(e: Env, s: State, a: Step)
    requires StepEnabled(e, s, a) && (a.Lookup? || a.PutFile? || a.PutDir?)
    ensures After(e, s, a).cache == s.cache
  {
  }

  // Between SetPutResult and AddCachedPutResult.
  ghost predicate Recording(w: Worker<Phase>, n: nat) {
    w.Busy? && w.item == n && w.phase.Record?
  }

  lemma RecordingStays(e: Env, s: State, a: Step, i: nat)
    requires StepEnabled(e, s, a) && a != NoteCached(i)
    requires i < |s.upload.workers| && s.upload.workers[i].Busy? && s.upload.workers[i].phase.Record?
    ensures i < |After(e, s, a).upload.workers| && After(e, s, a).upload.workers[i] == s.upload.workers[i]
  {
    UploadStep(e, s, a);
    ActsElsewhere(e, s, a, i);
  }

  lemma ActsElsewhere(e: Env, s: State, a: Step, i: nat)
    requires StepEnabled(e, s, a) && a != NoteCached(i)
    requires i < |s.upload.workers| && s.upload.workers[i].Busy? && s.upload.workers[i].phase.Record?
    ensures var o := UploadAct(e, s, a); o.Some? && (o.value.Work? || o.value.Return?) ==> o.value.i != i
  {
  }

  // ------------------------------------------------------------------------- the invariant

  ghost predicate InCacheOrRecording(e: Env, s: State, n: nat)
    requires n < |e.nodes|
  {
    e.nodes[n].info in s.cache || exists i :: 0 <= i < |s.upload.workers| && Recording(s.upload.workers[i], n)
  }

  // With a stat cache in use, a file with a result is in it or about to be.
  ghost predicate Noted(e: Env, s: State) {
    e.statCache ==> forall n: nat :: n in s.res && IsFile(e, n) ==> InCacheOrRecording(e, s, n)
  }

  ghost predicate FromNode(e: Env, s: State, info: Info, n: nat) {
    IsFile(e, n) && n in s.res && e.nodes[n].info == info
  }

  // What is in the cache was there or is the information of a file of this upload.
  ghost predicate Known(e: Env, cache: map<Info, BlobRef>, s: State) {
    && (forall info :: info in cache ==> info in s.cache)
    && (forall info :: info in s.cache ==> info in cache || (e.statCache && exists n: nat :: FromNode(e, s, info, n)))
  }

  lemma ResGrows(e: Env, s: State, a: Step)
    requires StepEnabled(e, s, a)
    ensures forall n :: n in s.res ==> n in After(e, s, a).res
  {
    StepRes(e, s, a);
    assert s.res.Keys <= After(e, s, a).res.Keys;
  }

  lemma StepKnown(e: Env, cache: map<Info, BlobRef>, s: State, a: Step)
    requires WellFormed(e) && CallsOk(e, s) && Cells(s) && Known(e, cache, s) && StepEnabled(e, s, a)
    ensures Known(e, cache, After(e, s, a))
  {
    ResGrows(e, s, a);
    if a.NoteCached? {
      RecordedIsSet(e, s, a.i);
      NoteKeys(e, s, a.i);
      NotedKnown(e, cache, s, After(e, s, a), s.upload.workers[a.i].item);
    } else {
      CacheStep(e, s, a);
      SameKnown(e, cache, s, After(e, s, a));
    }
  }

  lemma NoteKeys(e: Env, s: State, i: nat)
    requires StepEnabled(e, s, NoteCached(i))
    ensures var n := s.upload.workers[i].item;
            forall info :: info in After(e, s, NoteCached(i)).cache <==> info in s.cache || info == e.nodes[n].info
  {
  }

  lemma SameKnown(e: Env, cache: map<Info, BlobRef>, s: State, t: State)
    requires Known(e, cache, s) && t.cache == s.cache && forall n :: n in s.res ==> n in t.res
    ensures Known(e, cache, t)
  {
    forall info | info in t.cache ensures info in cache || (e.statCache && exists n: nat :: FromNode(e, t, info, n)) {
      if info !in cache {
        var n: nat :| FromNode(e, s, info, n);
        assert FromNode(e, t, info, n);
      }
    }
  }

  // The cache has grown by the information of a file that has its result.
  lemma NotedKnown(e: Env, cache: map<Info, BlobRef>, s: State, t: State, noted: nat)
    requires Known(e, cache, s) && forall n :: n in s.res ==> n in t.res
    requires e.statCache && IsFile(e, noted) && noted in t.res
    requires forall info :: info in t.cache <==> info in s.cache || info == e.nodes[noted].info
    ensures Known(e, cache, t)
  {
    forall info | info in t.cache ensures info in cache || exists n: nat :: FromNode(e, t, info, n) {
      if info == e.nodes[noted].info {
        assert FromNode(e, t, info, noted);
      } else if info !in cache {
        var n: nat :| FromNode(e, s, info, n);
        assert FromNode(e, t, info, n);
      }
    }
  }

  lemma RecordedIsSet(e: Env, s: State, i: nat)
    requires WellFormed(e) && CallsOk(e, s) && Cells(s)
    requires i < |s.upload.workers| && s.upload.workers[i].Busy? && s.upload.workers[i].phase.Record?
    ensures var n := s.upload.workers[i].item; e.statCache && IsFile(e, n) && n in s.res
  {
    var n := s.upload.workers[i].item;
    assert UploadCall(e, s.upload.workers[i]);
    SumWitness(s.upload.workers, SettledHeld(OnlyOne(n)));
    assert SettledPhase(s.upload.workers[i].phase);
    assert OnlyOne(n)(n) == 1;
    assert SettledHeld(OnlyOne(n))(s.upload.workers[i]) == OnlyOne(n)(n);
    assert Settled(s, OnlyOne(n)) >= Sum(s.upload.workers, SettledHeld(OnlyOne(n)));
  }

  lemma StepNoted(e: Env, s: State, a: Step)
    requires WellFormed(e) && CallsOk(e, s) && Noted(e, s) && StepEnabled(e, s, a)
    ensures Noted(e, After(e, s, a))
  {
    var t := After(e, s, a);
    if e.statCache {
      forall n: nat | n in t.res && IsFile(e, n) ensures InCacheOrRecording(e, t, n) {
        NotedOne(e, s, a, n);
      }
    }
  }

  lemma NotedOne(e: Env, s: State, a: Step, n: nat)
    requires WellFormed(e) && CallsOk(e, s) && Noted(e, s) && StepEnabled(e, s, a) && e.statCache
    requires n in After(e, s, a).res && IsFile(e, n)
    ensures InCacheOrRecording(e, After(e, s, a), n)
  {
    if n in s.res {
      NotedStays(e, s, a, n);
    } else {
      StepRes(e, s, a);
      assert n in After(e, s, a).res.Keys;
      NotedNew(e, s, a, n);
    }
  }

  lemma NotedStays(e: Env, s: State, a: Step, n: nat)
    requires WellFormed(e) && CallsOk(e, s) && StepEnabled(e, s, a) && IsFile(e, n) && InCacheOrRecording(e, s, n)
    ensures InCacheOrRecording(e, After(e, s, a), n)
  {
    CacheStep(e, s, a);
    if e.nodes[n].info !in s.cache {
      var i :| 0 <= i < |s.upload.workers| && Recording(s.upload.workers[i], n);
      if a != NoteCached(i) {
        RecordingStays(e, s, a, i);
        assert Recording(After(e, s, a).upload.workers[i], n);
      }
    }
  }

  // A file gets its result from the cache, or by an upload that goes on to note it.
  lemma NotedNew(e: Env, s: State, a: Step, n: nat)
    requires WellFormed(e) && CallsOk(e, s) && StepEnabled(e, s, a) && e.statCache && IsFile(e, n)
    requires SetsResult(e, s, a) == [n]
    ensures InCacheOrRecording(e, After(e, s, a), n)
  {
    DirResult(e, s, a);
    if a.PutFile? {
      UploadStep(e, s, a);
      assert Recording(After(e, s, a).upload.workers[a.i], n);
    } else {
      CacheStep(e, s, a);
    }
  }

  lemma DirResult(e: Env, s: State, a: Step)
    requires WellFormed(e) && CallsOk(e, s) && StepEnabled(e, s, a)
    ensures a.PutDir? ==> IsDir(e, s.dir.jobs[a.i].item)
  {
    assert a.PutDir? ==> DirCall(e, s.dir.jobs[a.i]);
  }

  // ----------------------------------------------------------- files that were in the cache

  // The node never reaches the upload pool.
  ghost predicate Away(s: State, n: nat) {
    && n !in s.upload.sent && n !in s.dir.sent && n !in s.uploadedLog
    && forall i :: 0 <= i < |s.check.workers| ==> !Passing(s.check.workers[i], n)
  }

  ghost predicate Passing(w: Worker<Phase>, n: nat) {
    w.Busy? && w.item == n && w.phase == Forward
  }

  lemma CallIsSent(p: Pool<Phase>, i: nat)
    requires Valid(p) && i < |p.workers| && p.workers[i].Busy?
    ensures p.workers[i].item in p.sent
  {
    var n := p.workers[i].item;
    SumWitness(p.workers, Held(OnlyOne(n)));
    assert Held<Phase>(OnlyOne(n))(p.workers[i]) == 1;
    assert CallsOf(p, OnlyOne(n));
    TotalOccurs(p.handed, n);
    assert n in p.handed;
  }

  lemma JobIsSent(d: Spawner<Phase>, i: nat)
    requires SpawnValid(d) && i < |d.jobs| && d.jobs[i].Busy?
    ensures d.jobs[i].item in d.sent
  {
    var n := d.jobs[i].item;
    SumWitness(d.jobs, Held(OnlyOne(n)));
    assert Held<Phase>(OnlyOne(n))(d.jobs[i]) == 1;
    assert Total(d.handed, OnlyOne(n)) == Total(d.returned, OnlyOne(n)) + Sum(d.jobs, Held(OnlyOne(n)));
    TotalOccurs(d.handed, n);
    assert n in d.handed;
  }

  lemma StepAway(e: Env, s: State, a: Step, n: nat)
    requires WellFormed(e) && Inv(e, s) && StepEnabled(e, s, a) && Away(s, n)
    requires e.statCache && IsFile(e, n) && e.nodes[n].info in s.cache
    ensures Away(After(e, s, a), n)
  {
    UploadSentAway(e, s, a, n);
    DirSentAway(e, s, a, n);
    LogAway(e, s, a, n);
    CheckAway(e, s, a, n);
  }

  lemma UploadSentAway(e: Env, s: State, a: Step, n: nat)
    requires StepEnabled(e, s, a) && Away(s, n)
    ensures n !in After(e, s, a).upload.sent
  {
    UploadStep(e, s, a);
    UploadSends(e, s, a);
    if a.ToUpload? {
      assert !Passing(s.check.workers[a.i], n);
    }
  }

  lemma UploadSends(e: Env, s: State, a: Step)
    requires StepEnabled(e, s, a)
    ensures var o := UploadAct(e, s, a);
            o.Some? && o.value.Send? ==> a.ToUpload? && o.value.x == s.check.workers[a.i].item
  {
  }

  lemma DirSentAway(e: Env, s: State, a: Step, n: nat)
    requires Pools(e, s) && StepEnabled(e, s, a) && Away(s, n)
    ensures n !in After(e, s, a).dir.sent
  {
    DirStep(e, s, a);
    DirSends(e, s, a);
    if a.ToDir? {
      CallIsSent(s.upload, a.i);
    }
  }

  lemma DirSends(e: Env, s: State, a: Step)
    requires StepEnabled(e, s, a)
    ensures var o := DirAct(e, s, a);
            o.Some? && o.value.SpawnSend? ==> a.ToDir? && o.value.x == s.upload.workers[a.i].item
  {
  }

  lemma LogAway(e: Env, s: State, a: Step, n: nat)
    requires Pools(e, s) && StepEnabled(e, s, a) && Away(s, n)
    ensures n !in After(e, s, a).uploadedLog
  {
    LogStep(e, s, a);
    if a.RecvUploaded? {
      CallIsSent(s.upload, a.i);
    } else if a.RecvDirUploaded? {
      JobIsSent(s.dir, a.i);
    }
  }

  lemma LogStep(e: Env, s: State, a: Step)
    requires StepEnabled(e, s, a)
    ensures After(e, s, a).uploadedLog == s.uploadedLog +
            (if a.RecvUploaded? then [s.upload.workers[a.i].item]
             else if a.RecvDirUploaded? then [s.dir.jobs[a.i].item] else [])
  {
    if !a.RecvUploaded? && !a.RecvDirUploaded? { NoneUploaded(e, s, a); }
  }

  lemma NoneUploaded(e: Env, s: State, a: Step)
    requires StepEnabled(e, s, a) && !a.RecvUploaded? && !a.RecvDirUploaded?
    ensures After(e, s, a).uploadedLog == s.uploadedLog
  {
  }

  lemma SkipStep(e: Env, s: State, a: Step)
    requires StepEnabled(e, s, a)
    ensures After(e, s, a).skippedLog == s.skippedLog + if a.RecvSkipped? then [s.check.workers[a.i].item] else []
  {
    if !a.RecvSkipped? { NoneSkipped(e, s, a); }
  }

  lemma NoneSkipped(e: Env, s: State, a: Step)
    requires StepEnabled(e, s, a) && !a.RecvSkipped?
    ensures After(e, s, a).skippedLog == s.skippedLog
  {
  }

  lemma CheckAway(e: Env, s: State, a: Step, n: nat)
    requires StepEnabled(e, s, a) && Away(s, n) && e.statCache && IsFile(e, n) && e.nodes[n].info in s.cache
    ensures var t := After(e, s, a); forall i :: 0 <= i < |t.check.workers| ==> !Passing(t.check.workers[i], n)
  {
    CheckStep(e, s, a);
    CheckForwards(e, s, a);
    if CheckAct(e, s, a).Some? {
      NextAway(s.check, CheckAct(e, s, a).value, n);
    }
  }

  lemma CheckForwards(e: Env, s: State, a: Step)
    requires StepEnabled(e, s, a)
    ensures var o := CheckAct(e, s, a);
            o.Some? ==>
              && (o.value.Take? ==> o.value.start == Start)
              && (o.value.Work? && o.value.phase == Forward ==> a.Lookup? && a.i == o.value.i && !Hit(e, s, s.check.workers[a.i].item))
  {
  }

  lemma NextAway(p: Pool<Phase>, a: Action<Phase>, n: nat)
    requires Enabled(p, a) && (a.Take? ==> a.start == Start)
    requires a.Work? && a.phase == Forward ==> p.workers[a.i].item != n
    requires forall i :: 0 <= i < |p.workers| ==> !Passing(p.workers[i], n)
    ensures var q := Next(p, a); forall i :: 0 <= i < |q.workers| ==> !Passing(q.workers[i], n)
  {
  }

  // ---------------------------------------------------------------------- files not in it

  // A reason to skip node n: its file was in the cache, or another node has the same
  // information.
  ghost predicate MaySkip(e: Env, cache: map<Info, BlobRef>, n: nat) {
    && e.statCache && IsFile(e, n)
    && (e.nodes[n].info in cache || exists m: nat :: Twin(e, n, m))
  }

  ghost predicate Twin(e: Env, n: nat, m: nat) {
    n < |e.nodes| && m != n && IsFile(e, m) && e.nodes[m].info == e.nodes[n].info
  }

  ghost predicate Skipping(w: Worker<Phase>) {
    w.Busy? && w.phase == Report
  }

  ghost predicate SkipsHaveReason(e: Env, cache: map<Info, BlobRef>, s: State) {
    && (forall n: nat :: n in s.skippedLog ==> MaySkip(e, cache, n))
    && SkippingOk(e, cache, s.check.workers)
  }

  lemma HitHasReason(e: Env, cache: map<Info, BlobRef>, s: State, i: nat)
    requires WellFormed(e) && Inv(e, s) && Known(e, cache, s)
    requires StepEnabled(e, s, Lookup(i)) && Hit(e, s, s.check.workers[i].item)
    ensures MaySkip(e, cache, s.check.workers[i].item)
  {
    var n := s.check.workers[i].item;
    NeverSetTwice(e, s, Lookup(i));
    if e.nodes[n].info !in cache {
      var m: nat :| FromNode(e, s, e.nodes[n].info, m);
      assert Twin(e, n, m);
    }
  }

  lemma StepSkips(e: Env, cache: map<Info, BlobRef>, s: State, a: Step)
    requires WellFormed(e) && Inv(e, s) && Known(e, cache, s) && SkipsHaveReason(e, cache, s) && StepEnabled(e, s, a)
    ensures SkipsHaveReason(e, cache, After(e, s, a))
  {
    LoggedHaveReason(e, cache, s, a);
    StepSkipping(e, cache, s, a);
  }

  lemma LoggedHaveReason(e: Env, cache: map<Info, BlobRef>, s: State, a: Step)
    requires SkipsHaveReason(e, cache, s) && StepEnabled(e, s, a)
    ensures forall n: nat :: n in After(e, s, a).skippedLog ==> MaySkip(e, cache, n)
  {
    SkipStep(e, s, a);
    if a.RecvSkipped? {
      assert Skipping(s.check.workers[a.i]);
    }
  }

  ghost predicate SkippingOk(e: Env, cache: map<Info, BlobRef>, ws: seq<Worker<Phase>>) {
    forall i :: 0 <= i < |ws| && Skipping(ws[i]) ==> MaySkip(e, cache, ws[i].item)
  }

  lemma StepSkipping(e: Env, cache: map<Info, BlobRef>, s: State, a: Step)
    requires WellFormed(e) && Inv(e, s) && Known(e, cache, s) && StepEnabled(e, s, a)
    requires SkippingOk(e, cache, s.check.workers)
    ensures SkippingOk(e, cache, After(e, s, a).check.workers)
  {
    CheckStep(e, s, a);
    if CheckAct(e, s, a).Some? {
      ActHasReason(e, cache, s, a);
      NextSkips(e, cache, s.check, CheckAct(e, s, a).value);
    }
  }

  lemma ActHasReason(e: Env, cache: map<Info, BlobRef>, s: State, a: Step)
    requires WellFormed(e) && Inv(e, s) && Known(e, cache, s) && StepEnabled(e, s, a) && CheckAct(e, s, a).Some?
    ensures var o := CheckAct(e, s, a).value;
            && (o.Take? ==> o.start == Start)
            && (o.Work? && o.phase == Report ==> o.i < |s.check.workers| && s.check.workers[o.i].Busy?)
            && (o.Work? && o.phase == Report ==> MaySkip(e, cache, s.check.workers[o.i].item))
  {
    CheckReports(e, s, a);
    var o := CheckAct(e, s, a).value;
    if o.Work? && o.phase == Report {
      HitHasReason(e, cache, s, a.i);
    }
  }

  lemma CheckReports(e: Env, s: State, a: Step)
    requires StepEnabled(e, s, a)
    ensures var o := CheckAct(e, s, a);
            o.Some? ==>
              && (o.value.Take? ==> o.value.start == Start)
              && (o.value.Work? && o.value.phase == Report ==> a.Lookup? && a.i == o.value.i && Hit(e, s, s.check.workers[a.i].item))
  {
  }

  lemma NextSkips(e: Env, cache: map<Info, BlobRef>, p: Pool<Phase>, a: Action<Phase>)
    requires Enabled(p, a) && (a.Take? ==> a.start == Start)
    requires a.Work? && a.phase == Report ==> MaySkip(e, cache, p.workers[a.i].item)
    requires SkippingOk(e, cache, p.workers)
    ensures SkippingOk(e, cache, Next(p, a).workers)
  {
  }

  // --------------------------------------------------------------------------- whole runs

  ghost predicate AllAway(e: Env, cache: map<Info, BlobRef>, s: State) {
    e.statCache ==> forall n: nat :: IsFile(e, n) && e.nodes[n].info in cache ==> Away(s, n)
  }

  ghost predicate CacheInv(e: Env, cache: map<Info, BlobRef>, s: State) {
    Noted(e, s) && Known(e, cache, s) && AllAway(e, cache, s) && SkipsHaveReason(e, cache, s)
  }

  lemma StepCacheInv(e: Env, cache: map<Info, BlobRef>, s: State, a: Step)
    requires WellFormed(e) && Inv(e, s) && CacheInv(e, cache, s) && StepEnabled(e, s, a)
    ensures CacheInv(e, cache, After(e, s, a))
  {
    StepNoted(e, s, a);
    StepKnown(e, cache, s, a);
    StepSkips(e, cache, s, a);
    if e.statCache {
      forall n: nat | IsFile(e, n) && e.nodes[n].info in cache ensures Away(After(e, s, a), n) {
        StepAway(e, s, a, n);
      }
    }
  }

  lemma InitCacheInv(e: Env, cache: map<Info, BlobRef>)
    ensures CacheInv(e, cache, Init(e, cache))
  {
  }

  lemma {:induction false} RunCacheInv(e: Env, cache: map<Info, BlobRef>, s: State, steps: seq<Step>, t: State)
    requires WellFormed(e) && Inv(e, s) && CacheInv(e, cache, s) && RunOf(e, s, steps, t)
    ensures Inv(e, t) && CacheInv(e, cache, t)
    decreases |steps|
  {
    if steps != [] {
      StepInv(e, s, steps[0]);
      StepCacheInv(e, cache, s, steps[0]);
      RunCacheInv(e, cache, After(e, s, steps[0]), steps[1..], t);
    }
  }

  lemma ReachedCacheInv(e: Env, cache: map<Info, BlobRef>, s: State, steps: seq<Step>, t: State)
    requires WellFormed(e) && Coherent(e, cache) && s == Init(e, cache) && RunOf(e, s, steps, t)
    ensures Inv(e, t) && CacheInv(e, cache, t)
  {
    InitInv(e, cache);
    InitCacheInv(e, cache);
    RunCacheInv(e, cache, s, steps, t);
  }

  // -------------------------------------------------------------------------- the theorems

  ghost predicate HasFile(e: Env, info: Info) {
    exists n: nat :: IsFile(e, n) && e.nodes[n].info == info
  }

  lemma NotedWhenDone(e: Env, t: State, n: nat)
    requires WellFormed(e) && Inv(e, t) && Noted(e, t) && t.main == Left && e.statCache && IsFile(e, n)
    ensures e.nodes[n].info in t.cache
  {
    LeftMeansDone(e, t);
    DirDrained(t.dir, One());
    ExitCountBound(t.upload.workers);
    assert InCacheOrRecording(e, t, n);
  }

  /** What an upload leaves in the stat cache: exactly what was there and, if it is in use, the
      files of the tree, each with the blobref that uploading it gives. */
  lemma CacheAfterUpload(e: Env, cache: map<Info, BlobRef>, steps: seq<Step>, t: State)
    requires WellFormed(e) && Coherent(e, cache) && RunOf(e, Init(e, cache), steps, t) && t.main == Left
    ensures forall info :: info in t.cache <==> info in cache || (e.statCache && HasFile(e, info))
    ensures forall info :: info in t.cache ==> t.cache[info] == e.fileRef(info)
  {
    ReachedCacheInv(e, cache, Init(e, cache), steps, t);
    forall info ensures info in t.cache <==> info in cache || (e.statCache && HasFile(e, info)) {
      if e.statCache && HasFile(e, info) {
        var n: nat :| IsFile(e, n) && e.nodes[n].info == info;
        NotedWhenDone(e, t, n);
      }
      if info in t.cache && info !in cache {
        var n: nat :| FromNode(e, t, info, n);
      }
    }
  }

  lemma ReportedOnce(e: Env, t: State, n: nat)
    requires WellFormed(e) && Inv(e, t) && t.main == Left && n < |e.nodes|
    ensures multiset(t.skippedLog)[n] + multiset(t.uploadedLog)[n] == 1
  {
    AllDrained(e, t, OnlyOne(n));
    ScannedOnce(t.todo, n);
    assert UpTo(t.todo, OnlyOne(n)) == Fresh(t, OnlyOne(n)) + Settled(t, OnlyOne(n));
    TotalOccurs(t.skippedLog, n);
    TotalOccurs(t.uploadedLog, n);
  }

  // No two files of the tree have the same information; their paths differ in every scan.
  ghost predicate NoTwins(e: Env) {
    forall n: nat, m: nat :: !Twin(e, n, m)
  }

  /** Every node is reported once, as skipped or as uploaded; a file that was in the stat cache
      is skipped; and unless two nodes have the same information, nothing else is. */
  lemma SkippedExactly(e: Env, cache: map<Info, BlobRef>, steps: seq<Step>, t: State, n: nat)
    requires WellFormed(e) && Coherent(e, cache) && RunOf(e, Init(e, cache), steps, t) && t.main == Left && n < |e.nodes|
    ensures multiset(t.skippedLog)[n] + multiset(t.uploadedLog)[n] == 1
    ensures e.statCache && IsFile(e, n) && e.nodes[n].info in cache ==> n in t.skippedLog && n !in t.uploadedLog
    ensures NoTwins(e) ==> (n in t.skippedLog <==> e.statCache && IsFile(e, n) && e.nodes[n].info in cache)
  {
    ReachedCacheInv(e, cache, Init(e, cache), steps, t);
    ReportedOnce(e, t, n);
    if e.statCache && IsFile(e, n) && e.nodes[n].info in cache {
      assert Away(t, n);
      assert n in multiset(t.skippedLog);
    }
    if n in t.skippedLog {
      assert MaySkip(e, cache, n);
    }
  }

  /** So a second upload of the same tree with the cache the first one left uploads no file. */
  lemma SecondUploadSkipsFiles(
      e: Env, cache: map<Info, BlobRef>, steps: seq<Step>, t: State, again: seq<Step>, u: State, n: nat)
    requires WellFormed(e) && e.statCache && Coherent(e, cache)
    requires RunOf(e, Init(e, cache), steps, t) && t.main == Left
    requires RunOf(e, Init(e, t.cache), again, u) && u.main == Left && IsFile(e, n)
    ensures n in u.skippedLog && n !in u.uploadedLog
  {
    CacheAfterUpload(e, cache, steps, t);
    assert HasFile(e, e.nodes[n].info);
    SkippedExactly(e, t.cache, again, u, n);
  }
}
