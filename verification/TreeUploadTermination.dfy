/** Every run of the tree upload is finite, and the theorems about whole uploads. */
module TreeUploadTermination {
  import opened ChanWorker
  import opened TreeUpload
  import opened TreeUploadSafety
  import opened TreeUploadProgress

  ghost function MaxKids(nodes: seq<Node>): nat {
    if nodes == [] then 0
    else var rest := MaxKids(nodes[1..]); if |nodes[0].children| > rest then |nodes[0].children| else rest
  }

  lemma {:induction false} MaxKidsBounds(nodes: seq<Node>, n: nat)
    requires n < |nodes|
    ensures |nodes[n].children| <= MaxKids(nodes)
  {
    if n > 0 { MaxKidsBounds(nodes[1..], n - 1); }
  }

  // Steps a call of a pool's fn still takes; `top` is what handing the node on costs.
  ghost function CallLeft(top: nat): Worker<Phase> -> nat {
    (w: Worker<Phase>) =>
      if !w.Busy? then 0
      else if w.phase == Start then top + 1
      else if w.phase == Forward then top
      else if w.phase.Record? then 2
      else 1
  }

  ghost function Flag(b: bool): nat { if b then 0 else 1 }

  ghost function PoolLeft(p: Pool<Phase>, top: nat): int {
    Times(|p.input|, top + 4) + Times(|p.buf|, top + 3) + Times(|p.workc|, top + 2)
    + Sum(p.workers, CallLeft(top))
    + Flag(p.inputClosed) + Flag(p.incNil) + Flag(p.pumpDone) + Flag(p.finalCalled) + |p.workers| - p.doneSignals
  }

  lemma PlumbingShrinks(p: Pool<Phase>, a: Action<Phase>, top: nat)
    requires Plumbing(a) && Enabled(p, a)
    ensures PoolLeft(Next(p, a), top) < PoolLeft(p, top)
  {
    var q := Next(p, a);
    if a.Take? || a.WorkerExit? {
      SumUpdate(p.workers, CallLeft(top), a.i, q.workers[a.i]);
    }
  }

  lemma SendGrows(p: Pool<Phase>, x: Item, top: nat)
    requires Enabled(p, Send(x))
    ensures PoolLeft(Next(p, Send(x)), top) == PoolLeft(p, top) + top + 4
  {
  }

  lemma CallShrinks(p: Pool<Phase>, a: Action<Phase>, top: nat)
    requires Enabled(p, a) && (a.Work? || a.Return?)
    ensures var f := CallLeft(top); var q := Next(p, a);
            PoolLeft(q, top) + f(p.workers[a.i]) == PoolLeft(p, top) + f(q.workers[a.i])
  {
    SumUpdate(p.workers, CallLeft(top), a.i, Next(p, a).workers[a.i]);
  }

  // Steps a directory goroutine still takes: a child to wait for each, the upload, the report.
  ghost function DirCallLeft(e: Env): Worker<Phase> -> nat {
    (w: Worker<Phase>) =>
      if !w.Busy? then 0
      else if w.phase.Collect? && w.item < |e.nodes| && |w.phase.refs| <= |e.nodes[w.item].children| then
        2 + |e.nodes[w.item].children| - |w.phase.refs|
      else 1
  }

  ghost function DirLeft(e: Env, k: nat, d: Spawner<Phase>): nat {
    Times(|d.input|, k + 3) + Sum(d.jobs, DirCallLeft(e))
    + Flag(d.inputClosed) + Flag(d.ranged) + Flag(d.finalCalled)
  }

  lemma SpawnShrinks(e: Env, k: nat, d: Spawner<Phase>)
    requires SpawnEnabled(d, Spawn(Collect([]))) && d.input[0] < |e.nodes| && KidBound(e, k)
    ensures DirLeft(e, k, SpawnNext(d, Spawn(Collect([])))) < DirLeft(e, k, d)
  {
    SumAppend(d.jobs, DirCallLeft(e), Busy(d.input[0], Collect([])));
  }

  lemma DirSendGrows(e: Env, k: nat, d: Spawner<Phase>, x: Item)
    requires SpawnEnabled(d, SpawnSend(x))
    ensures DirLeft(e, k, SpawnNext(d, SpawnSend(x))) == DirLeft(e, k, d) + k + 3
  {
  }

  lemma JobShrinks(e: Env, k: nat, d: Spawner<Phase>, a: SpawnAction<Phase>)
    requires SpawnEnabled(d, a) && (a.JobWork? || a.JobReturn?)
    ensures var f := DirCallLeft(e); var q := SpawnNext(d, a);
            DirLeft(e, k, q) + f(d.jobs[a.i]) == DirLeft(e, k, d) + f(q.jobs[a.i])
  {
    SumUpdate(d.jobs, DirCallLeft(e), a.i, SpawnNext(d, a).jobs[a.i]);
  }

  ghost function Times(k: nat, w: nat): nat { if k == 0 then 0 else w + Times(k - 1, w) }

  // With at most k children to a directory: what handing a node on costs from the upload
  // pool, and from the stat-cache pool.
  ghost function UploadTop(k: nat): nat { k + 4 }
  ghost function CheckTop(k: nat): nat { k + 9 }

  ghost predicate KidBound(e: Env, k: nat) {
    forall n :: 0 <= n < |e.nodes| ==> |e.nodes[n].children| <= k
  }

  lemma MaxKidsIsBound(e: Env)
    ensures KidBound(e, MaxKids(e.nodes))
  {
    forall n | 0 <= n < |e.nodes| ensures |e.nodes[n].children| <= MaxKids(e.nodes) {
      MaxKidsBounds(e.nodes, n);
    }
  }

  ghost function ScanLeft(k: nat, unscanned: nat, stattedc: seq<nat>): nat {
    Times(unscanned, CheckTop(k) + 7) + Times(|stattedc|, CheckTop(k) + 6)
  }

  ghost function LoopLeft(k: nat, main: MainLoop, stattedClosed: bool, rootc: Rootc): nat {
    (if main.Deliver? then CheckTop(k) + 5 else 0)
    + Flag(stattedClosed) + (match rootc case Unsent => 2 case Buffered => 1 case Taken => 0)
  }

  /** An upper bound on the number of steps left in any run. */
  ghost function StepsLeft(e: Env, k: nat, s: State): int
    requires s.todo <= |e.nodes|
  {
    ScanLeft(k, |e.nodes| - s.todo, s.stattedc) + LoopLeft(k, s.main, s.stattedClosed, s.rootc)
    + PoolLeft(s.check, CheckTop(k)) + PoolLeft(s.upload, UploadTop(k)) + DirLeft(e, k, s.dir)
  }

  ghost predicate Shrinks(e: Env, k: nat, s: State, a: Step)
    requires StepEnabled(e, s, a) && s.todo <= |e.nodes|
  {
    var t := After(e, s, a);
    t.todo <= |e.nodes| && StepsLeft(e, k, t) < StepsLeft(e, k, s)
  }

  lemma ScanShrinks(e: Env, k: nat, s: State, a: Step)
    requires s.todo <= |e.nodes| && StepEnabled(e, s, a)
    requires a.Emit? || a.CloseStatted? || a.SendRoot? || a.RecvStatted? || a.RecvRoot?
    ensures Shrinks(e, k, s, a)
  {
  }

  lemma PassOnShrinks(e: Env, k: nat, s: State)
    requires s.todo <= |e.nodes| && StepEnabled(e, s, PassOn)
    ensures Shrinks(e, k, s, PassOn)
  {
    SendGrows(s.check, s.main.n, CheckTop(k));
  }

  lemma ReportShrinks(e: Env, k: nat, s: State, a: Step)
    requires s.todo <= |e.nodes| && StepEnabled(e, s, a) && (a.RecvSkipped? || a.RecvUploaded?)
    ensures Shrinks(e, k, s, a)
  {
    if a.RecvSkipped? {
      SkippedShrinks(e, k, s, a.i);
    } else {
      UploadedShrinks(e, k, s, a.i);
    }
  }

  lemma SkippedShrinks(e: Env, k: nat, s: State, i: nat)
    requires s.todo <= |e.nodes| && StepEnabled(e, s, RecvSkipped(i))
    ensures Shrinks(e, k, s, RecvSkipped(i))
  {
    var t := After(e, s, RecvSkipped(i));
    assert t.check == Next(s.check, Return(i));
    CallShrinks(s.check, Return(i), CheckTop(k));
    LessCheck(e, k, s, t);
  }

  lemma UploadedShrinks(e: Env, k: nat, s: State, i: nat)
    requires s.todo <= |e.nodes| && StepEnabled(e, s, RecvUploaded(i))
    ensures Shrinks(e, k, s, RecvUploaded(i))
  {
    var t := After(e, s, RecvUploaded(i));
    assert t.upload == Next(s.upload, Return(i));
    CallShrinks(s.upload, Return(i), UploadTop(k));
    LessUpload(e, k, s, t);
  }

  lemma PlumbingStepShrinks(e: Env, k: nat, s: State, a: Step)
    requires s.todo <= |e.nodes| && StepEnabled(e, s, a) && (a.InCheck? || a.InUpload?)
    ensures Shrinks(e, k, s, a)
  {
    if a.InCheck? {
      PlumbingShrinks(s.check, a.a, CheckTop(k));
    } else {
      PlumbingShrinks(s.upload, a.a, UploadTop(k));
    }
  }

  lemma DirPlumbingShrinks(e: Env, k: nat, s: State, d: SpawnAction<Phase>)
    requires KidBound(e, k) && s.todo <= |e.nodes| && StepEnabled(e, s, InDir(d))
    requires d.Spawn? ==> s.dir.input[0] < |e.nodes|
    ensures Shrinks(e, k, s, InDir(d))
  {
    if d.Spawn? {
      SpawnShrinks(e, k, s.dir);
    } else {
      assert DirLeft(e, k, SpawnNext(s.dir, d)) < DirLeft(e, k, s.dir);
    }
  }

  // A call that moves from Start to any other phase is nearer its end.
  lemma StartShrinks(p: Pool<Phase>, i: nat, phase: Phase, top: nat)
    requires Enabled(p, Work(i, phase)) && p.workers[i].phase == Start && phase != Start && top >= 2
    ensures PoolLeft(Next(p, Work(i, phase)), top) < PoolLeft(p, top)
  {
    CallShrinks(p, Work(i, phase), top);
  }

  lemma LookupShrinks(e: Env, k: nat, s: State, i: nat)
    requires s.todo <= |e.nodes| && StepEnabled(e, s, Lookup(i))
    ensures Shrinks(e, k, s, Lookup(i))
  {
    LookupStarts(e, k, s, i);
    LookupElsewhere(e, s, i);
    LessCheck(e, k, s, After(e, s, Lookup(i)));
  }

  lemma LookupStarts(e: Env, k: nat, s: State, i: nat)
    requires StepEnabled(e, s, Lookup(i))
    ensures PoolLeft(After(e, s, Lookup(i)).check, CheckTop(k)) < PoolLeft(s.check, CheckTop(k))
  {
    CheckStep(e, s, Lookup(i));
    StartShrinks(s.check, i, CheckAct(e, s, Lookup(i)).value.phase, CheckTop(k));
  }

  lemma LookupElsewhere(e: Env, s: State, i: nat)
    requires StepEnabled(e, s, Lookup(i))
    ensures var t := After(e, s, Lookup(i)); SameScan(s, t) && t.upload == s.upload && t.dir == s.dir
  {
  }

  // Scanner and main loop are where they were.
  ghost predicate SameScan(s: State, t: State) {
    && s.todo == t.todo && s.stattedc == t.stattedc
    && s.main == t.main && s.stattedClosed == t.stattedClosed && s.rootc == t.rootc
  }

  lemma LessCheck(e: Env, k: nat, s: State, t: State)
    requires s.todo <= |e.nodes| && SameScan(s, t) && s.upload == t.upload && s.dir == t.dir
    requires PoolLeft(t.check, CheckTop(k)) < PoolLeft(s.check, CheckTop(k))
    ensures StepsLeft(e, k, t) < StepsLeft(e, k, s)
  {
  }

  lemma LessDir(e: Env, k: nat, s: State, t: State)
    requires s.todo <= |e.nodes| && SameScan(s, t) && s.check == t.check && s.upload == t.upload
    requires DirLeft(e, k, t.dir) < DirLeft(e, k, s.dir)
    ensures StepsLeft(e, k, t) < StepsLeft(e, k, s)
  {
  }

  lemma PutFileShrinks(e: Env, k: nat, s: State, i: nat)
    requires s.todo <= |e.nodes| && StepEnabled(e, s, PutFile(i))
    ensures Shrinks(e, k, s, PutFile(i))
  {
    PutFileStarts(e, k, s, i);
    PutFileElsewhere(e, s, i);
    LessUpload(e, k, s, After(e, s, PutFile(i)));
  }

  lemma PutFileStarts(e: Env, k: nat, s: State, i: nat)
    requires StepEnabled(e, s, PutFile(i))
    ensures PoolLeft(After(e, s, PutFile(i)).upload, UploadTop(k)) < PoolLeft(s.upload, UploadTop(k))
  {
    UploadStep(e, s, PutFile(i));
    StartShrinks(s.upload, i, UploadAct(e, s, PutFile(i)).value.phase, UploadTop(k));
  }

  lemma PutFileElsewhere(e: Env, s: State, i: nat)
    requires StepEnabled(e, s, PutFile(i))
    ensures var t := After(e, s, PutFile(i)); SameScan(s, t) && t.check == s.check && t.dir == s.dir
  {
  }

  lemma LessUpload(e: Env, k: nat, s: State, t: State)
    requires s.todo <= |e.nodes| && SameScan(s, t) && s.check == t.check && s.dir == t.dir
    requires PoolLeft(t.upload, UploadTop(k)) < PoolLeft(s.upload, UploadTop(k))
    ensures StepsLeft(e, k, t) < StepsLeft(e, k, s)
  {
  }

  lemma NoteShrinks(e: Env, k: nat, s: State, i: nat)
    requires s.todo <= |e.nodes| && StepEnabled(e, s, NoteCached(i))
    ensures Shrinks(e, k, s, NoteCached(i))
  {
    var t := After(e, s, NoteCached(i));
    assert t.upload == Next(s.upload, Work(i, Report));
    CallShrinks(s.upload, Work(i, Report), UploadTop(k));
    assert PoolLeft(t.upload, UploadTop(k)) < PoolLeft(s.upload, UploadTop(k));
  }

  lemma ToUploadShrinks(e: Env, k: nat, s: State, i: nat)
    requires s.todo <= |e.nodes| && StepEnabled(e, s, ToUpload(i))
    ensures Shrinks(e, k, s, ToUpload(i))
  {
    CallShrinks(s.check, Return(i), CheckTop(k));
    SendGrows(s.upload, s.check.workers[i].item, UploadTop(k));
  }

  lemma ToDirShrinks(e: Env, k: nat, s: State, i: nat)
    requires s.todo <= |e.nodes| && StepEnabled(e, s, ToDir(i))
    ensures Shrinks(e, k, s, ToDir(i))
  {
    CallShrinks(s.upload, Return(i), UploadTop(k));
    DirSendGrows(e, k, s.dir, s.upload.workers[i].item);
  }

  lemma DirWorkShrinks(e: Env, k: nat, s: State, a: Step)
    requires s.todo <= |e.nodes| && StepEnabled(e, s, a) && (a.Await? || a.PutDir? || a.RecvDirUploaded?)
    ensures Shrinks(e, k, s, a)
  {
    DirWorkDone(e, k, s, a);
    DirWorkElsewhere(e, s, a);
    LessDir(e, k, s, After(e, s, a));
  }

  lemma DirWorkDone(e: Env, k: nat, s: State, a: Step)
    requires StepEnabled(e, s, a) && (a.Await? || a.PutDir? || a.RecvDirUploaded?)
    ensures DirLeft(e, k, After(e, s, a).dir) < DirLeft(e, k, s.dir)
  {
    DirStep(e, s, a);
    JobShrinks(e, k, s.dir, DirAct(e, s, a).value);
  }

  lemma DirWorkElsewhere(e: Env, s: State, a: Step)
    requires StepEnabled(e, s, a) && (a.Await? || a.PutDir? || a.RecvDirUploaded?)
    ensures var t := After(e, s, a); SameScan(s, t) && t.check == s.check && t.upload == s.upload
  {
  }

  lemma ClosingShrinks(e: Env, k: nat, s: State, a: Step)
    requires s.todo <= |e.nodes| && StepEnabled(e, s, a) && (a.RecvStattedClosed? || a.Leave?)
    ensures Shrinks(e, k, s, a)
  {
    var t := After(e, s, a);
    if a.Leave? {
      assert t.dir == SpawnNext(s.dir, SpawnFinal);
      assert DirLeft(e, k, t.dir) < DirLeft(e, k, s.dir);
    } else {
      assert t.check == Next(s.check, CloseInput);
      assert PoolLeft(t.check, CheckTop(k)) < PoolLeft(s.check, CheckTop(k));
    }
  }

  lemma CheckDoneShrinks(e: Env, k: nat, s: State)
    requires s.todo <= |e.nodes| && StepEnabled(e, s, CheckDone)
    ensures Shrinks(e, k, s, CheckDone)
  {
    var t := After(e, s, CheckDone);
    assert t.check == Next(s.check, Final) && t.upload == Next(s.upload, CloseInput);
    assert PoolLeft(t.check, CheckTop(k)) < PoolLeft(s.check, CheckTop(k));
    assert PoolLeft(t.upload, UploadTop(k)) < PoolLeft(s.upload, UploadTop(k));
  }

  lemma UploadDoneShrinks(e: Env, k: nat, s: State)
    requires s.todo <= |e.nodes| && StepEnabled(e, s, UploadDone)
    ensures Shrinks(e, k, s, UploadDone)
  {
    var t := After(e, s, UploadDone);
    assert t.upload == Next(s.upload, Final) && t.dir == SpawnNext(s.dir, SpawnClose);
    assert PoolLeft(t.upload, UploadTop(k)) < PoolLeft(s.upload, UploadTop(k));
    assert DirLeft(e, k, t.dir) < DirLeft(e, k, s.dir);
  }

  ghost predicate InCall(a: Step) {
    a.Lookup? || a.PutFile? || a.NoteCached? || a.ToUpload? || a.ToDir? || a.Await? || a.PutDir?
  }

  lemma InCallShrinks(e: Env, k: nat, s: State, a: Step)
    requires s.todo <= |e.nodes| && StepEnabled(e, s, a) && InCall(a)
    ensures Shrinks(e, k, s, a)
  {
    if a.Lookup? {
      LookupShrinks(e, k, s, a.i);
    } else if a.PutFile? {
      PutFileShrinks(e, k, s, a.i);
    } else if a.NoteCached? {
      NoteShrinks(e, k, s, a.i);
    } else if a.ToUpload? {
      ToUploadShrinks(e, k, s, a.i);
    } else if a.ToDir? {
      ToDirShrinks(e, k, s, a.i);
    } else {
      DirWorkShrinks(e, k, s, a);
    }
  }

  lemma PoolShrinks(e: Env, k: nat, s: State, a: Step)
    requires WellFormed(e) && KidBound(e, k) && s.todo <= |e.nodes| && CallsOk(e, s) && StepEnabled(e, s, a)
    requires a.InCheck? || a.InUpload? || a.InDir? || a.CheckDone? || a.UploadDone?
    ensures Shrinks(e, k, s, a)
  {
    if a.InDir? {
      assert a.d.Spawn? ==> IsDir(e, s.dir.input[0]);
      DirPlumbingShrinks(e, k, s, a.d);
    } else if a.CheckDone? {
      CheckDoneShrinks(e, k, s);
    } else if a.UploadDone? {
      UploadDoneShrinks(e, k, s);
    } else {
      PlumbingStepShrinks(e, k, s, a);
    }
  }

  /** Each step uses up at least one of the steps left. */
  lemma StepShrinks(e: Env, k: nat, s: State, a: Step)
    requires WellFormed(e) && KidBound(e, k) && s.todo <= |e.nodes| && CallsOk(e, s) && StepEnabled(e, s, a)
    ensures Shrinks(e, k, s, a)
  {
    if InCall(a) {
      InCallShrinks(e, k, s, a);
    } else if a.InCheck? || a.InUpload? || a.InDir? || a.CheckDone? || a.UploadDone? {
      PoolShrinks(e, k, s, a);
    } else if a.PassOn? {
      PassOnShrinks(e, k, s);
    } else if a.RecvSkipped? || a.RecvUploaded? {
      ReportShrinks(e, k, s, a);
    } else if a.RecvDirUploaded? {
      DirWorkShrinks(e, k, s, a);
    } else if a.RecvStattedClosed? || a.Leave? {
      ClosingShrinks(e, k, s, a);
    } else {
      ScanShrinks(e, k, s, a);
    }
  }

  lemma StepsLeftNat(e: Env, k: nat, s: State)
    requires WellFormed(e) && Inv(e, s)
    ensures StepsLeft(e, k, s) >= 0
  {
    ExitCountBound(s.check.workers);
    ExitCountBound(s.upload.workers);
  }

  /** No run is longer than StepsLeft of its first state. */
  lemma {:induction false} RunsAreFinite(e: Env, k: nat, s: State, steps: seq<Step>, t: State)
    requires WellFormed(e) && KidBound(e, k) && Inv(e, s) && RunOf(e, s, steps, t)
    ensures Inv(e, t) && |steps| + StepsLeft(e, k, t) <= StepsLeft(e, k, s)
    decreases |steps|
  {
    if steps != [] {
      StepInv(e, s, steps[0]);
      StepShrinks(e, k, s, steps[0]);
      RunsAreFinite(e, k, After(e, s, steps[0]), steps[1..], t);
    }
  }

  // ---------------------------------------------------------------- the whole upload

  // What run() does after its loop.
  datatype Outcome = NilRootPanic | Finished(put: BlobRef) | Blocked

  // If nothing was scanned, what the scanner sends as the root is nil.
  function Outcomes(e: Env, s: State): Outcome {
    if s.rootc != Taken || e.nodes == [] then NilRootPanic
    else if |e.nodes| - 1 in s.res then Finished(s.res[|e.nodes| - 1])
    else Blocked
  }

  lemma ReachDone(e: Env, cache: map<Info, BlobRef>, s: State, steps: seq<Step>, t: State)
    requires WellFormed(e) && Coherent(e, cache) && s == Init(e, cache) && RunOf(e, s, steps, t) && t.main == Left
    ensures forall n :: 0 <= n < |e.nodes| ==> n in t.res && t.res[n] == Spec(e, n)
    ensures Coherent(e, t.cache)
  {
    ReachedInv(e, cache, s, steps, t);
    ResultsWhenDone(e, t);
  }

  lemma ReachedInv(e: Env, cache: map<Info, BlobRef>, s: State, steps: seq<Step>, t: State)
    requires WellFormed(e) && Coherent(e, cache) && s == Init(e, cache) && RunOf(e, s, steps, t)
    ensures Inv(e, t)
  {
    InitInv(e, cache);
    RunInv(e, s, steps, t);
  }

  lemma ResultsWhenDone(e: Env, t: State)
    requires WellFormed(e) && Inv(e, t) && t.main == Left
    ensures forall n :: 0 <= n < |e.nodes| ==> n in t.res && t.res[n] == Spec(e, n)
    ensures Coherent(e, t.cache)
  {
    LeftMeansDone(e, t);
  }

  lemma BoundedRun(e: Env, cache: map<Info, BlobRef>, s: State, steps: seq<Step>, t: State)
    requires WellFormed(e) && Coherent(e, cache) && s == Init(e, cache) && RunOf(e, s, steps, t)
    ensures |steps| <= StepsLeft(e, MaxKids(e.nodes), s)
  {
    InitInv(e, cache);
    MaxKidsIsBound(e);
    RunsAreFinite(e, MaxKids(e.nodes), s, steps, t);
    StepsLeftNat(e, MaxKids(e.nodes), t);
  }

  /** For every interleaving and every coherent cache: the run is bounded, and it cannot stop
      before the loop exits. */
  lemma UploadTerminates(e: Env, cache: map<Info, BlobRef>, steps: seq<Step>, t: State)
    requires WellFormed(e) && Coherent(e, cache) && RunOf(e, Init(e, cache), steps, t)
    ensures Inv(e, t)
    ensures |steps| <= StepsLeft(e, MaxKids(e.nodes), Init(e, cache))
    ensures t.main == Left || CanStep(e, t)
  {
    ReachedInv(e, cache, Init(e, cache), steps, t);
    BoundedRun(e, cache, Init(e, cache), steps, t);
    SomeStep(e, t);
  }

  lemma SomeStep(e: Env, t: State)
    requires WellFormed(e) && Inv(e, t)
    ensures t.main == Left || CanStep(e, t)
  {
    if t.main != Left {
      var a := NeverStuck(e, t);
    }
  }

  ghost predicate CanStep(e: Env, t: State) { exists a :: StepEnabled(e, t, a) }

  /** Once the loop has exited, every node has the result of the bottom-up recursion, and the
      upload's outcome is the root's blobref exactly when there is a root and the main loop
      received it in time. */
  lemma UploadCorrect(e: Env, cache: map<Info, BlobRef>, steps: seq<Step>, t: State)
    requires WellFormed(e) && Coherent(e, cache) && RunOf(e, Init(e, cache), steps, t) && t.main == Left
    ensures forall n :: 0 <= n < |e.nodes| ==> n in t.res && t.res[n] == Spec(e, n)
    ensures Outcomes(e, t) ==
            if t.rootc == Taken && e.nodes != [] then Finished(Spec(e, |e.nodes| - 1)) else NilRootPanic
    ensures Coherent(e, t.cache)
  {
    ReachDone(e, cache, Init(e, cache), steps, t);
  }

  // From every reachable state some schedule finishes without the root being received.
  lemma {:induction false} CanFinishWithoutRoot(e: Env, k: nat, s: State) returns (steps: seq<Step>, t: State)
    requires WellFormed(e) && KidBound(e, k) && Inv(e, s)
    ensures RunOf(e, s, steps, t) && t.main == Left && t.rootc == s.rootc
    decreases StepsLeft(e, k, s)
  {
    if s.main == Left {
      steps, t := [], s;
    } else {
      var a := NeverStuck(e, s);
      StepInv(e, s, a);
      StepShrinks(e, k, s, a);
      StepsLeftNat(e, k, s);
      RootKept(e, s, a);
      var rest;
      rest, t := CanFinishWithoutRoot(e, k, After(e, s, a));
      steps := [a] + rest;
      assert steps[1..] == rest;
    }
  }

  lemma RootKept(e: Env, s: State, a: Step)
    requires StepEnabled(e, s, a) && !a.SendRoot? && !a.RecvRoot?
    ensures After(e, s, a).rootc == s.rootc
  {
  }

  /** "The root is known when the loop exits" is false of the code, whatever the tree: the
      scanner closes stattedc before it sends the root, so the loop can finish first and
      run() then panics. */
  lemma NilRootReachable(e: Env, cache: map<Info, BlobRef>) returns (steps: seq<Step>, t: State)
    requires WellFormed(e) && Coherent(e, cache)
    ensures RunOf(e, Init(e, cache), steps, t) && t.main == Left && Outcomes(e, t) == NilRootPanic
  {
    InitInv(e, cache);
    MaxKidsIsBound(e);
    steps, t := CanFinishWithoutRoot(e, MaxKids(e.nodes), Init(e, cache));
  }

  lemma OnlyLeaveLeaves(e: Env, s: State, a: Step)
    requires s.main != Left && StepEnabled(e, s, a) && a != Leave
    ensures After(e, s, a).main != Left
  {
  }

  // The loop cannot leave before the scanner has closed its channel.
  lemma NoLeaveYet(e: Env, s: State)
    requires e.statWorkers > 0 && e.uploadWorkers > 0 && Pools(e, s) && Wiring(e, s) && !s.stattedClosed
    ensures !StepEnabled(e, s, Leave)
  {
    FinalMeansClosed(s.check);
    FinalMeansClosed(s.upload);
    assert !s.dir.inputClosed;
  }

  lemma FinalMeansClosed(p: Pool<Phase>)
    requires Valid(p) && p.workers != []
    ensures p.finalCalled ==> p.inputClosed
  {
    ExitCountBound(p.workers);
    assert p.finalCalled ==> p.workers[0].Exited?;
  }

  // From every reachable state inside the loop some schedule receives the root in time.
  lemma {:induction false} CanFinishWithRoot(e: Env, k: nat, s: State) returns (steps: seq<Step>, t: State)
    requires WellFormed(e) && KidBound(e, k) && Inv(e, s) && s.main != Left
    ensures RunOf(e, s, steps, t) && t.main == Left && t.rootc == Taken
    decreases StepsLeft(e, k, s)
  {
    if s.rootc == Taken {
      steps, t := CanFinishWithoutRoot(e, k, s);
    } else {
      var a := TowardsRoot(e, s);
      OnlyLeaveLeaves(e, s, a);
      StepInv(e, s, a);
      StepShrinks(e, k, s, a);
      StepsLeftNat(e, k, s);
      var rest;
      rest, t := CanFinishWithRoot(e, k, After(e, s, a));
      steps := [a] + rest;
      assert steps[1..] == rest;
    }
  }

  lemma TowardsRoot(e: Env, s: State) returns (a: Step)
    requires WellFormed(e) && Inv(e, s) && s.main != Left && s.rootc != Taken
    ensures StepEnabled(e, s, a) && a != Leave
  {
    if s.stattedClosed && s.rootc == Unsent {
      a := SendRoot;
    } else if s.main == Select && s.rootc == Buffered {
      a := RecvRoot;
    } else {
      a := NeverStuck(e, s);
      if s.main == Select { NoLeaveYet(e, s); }
    }
  }

  /** Nor is the panic certain, unless nothing was scanned: for every tree some schedule
      returns the root's blobref. */
  lemma RootReachable(e: Env, cache: map<Info, BlobRef>) returns (steps: seq<Step>, t: State)
    requires WellFormed(e) && Coherent(e, cache) && e.nodes != []
    ensures RunOf(e, Init(e, cache), steps, t) && t.main == Left
    ensures Outcomes(e, t) == Finished(Spec(e, |e.nodes| - 1))
  {
    InitInv(e, cache);
    MaxKidsIsBound(e);
    steps, t := CanFinishWithRoot(e, MaxKids(e.nodes), Init(e, cache));
    UploadCorrect(e, cache, steps, t);
  }
}
