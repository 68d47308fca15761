/** Safety of the tree upload: what every step keeps, and what that says at the end. */
module TreeUploadSafety {
  import opened Wrappers
  import opened ChanWorker
  import opened TreeUpload

  // -------------------------------------------------------------------- where nodes are

  predicate SettledPhase(p: Phase) {
    p.Record? || p.Report?
  }

  ghost function FreshHeld(g: Item -> nat): Worker<Phase> -> nat {
    (w: Worker<Phase>) => if w.Busy? && !SettledPhase(w.phase) then g(w.item) else 0
  }

  ghost function SettledHeld(g: Item -> nat): Worker<Phase> -> nat {
    (w: Worker<Phase>) => if w.Busy? && SettledPhase(w.phase) then g(w.item) else 0
  }

  // Weight of the nodes in a pool whose result is not set yet, and of those whose result is.
  ghost function PoolFresh(p: Pool<Phase>, g: Item -> nat): nat {
    Total(p.input, g) + Total(p.buf, g) + Total(p.workc, g) + Sum(p.workers, FreshHeld(g))
  }

  ghost function PoolSettled(p: Pool<Phase>, g: Item -> nat): nat {
    Sum(p.workers, SettledHeld(g))
  }

  ghost function DirFresh(d: Spawner<Phase>, g: Item -> nat): nat {
    Total(d.input, g) + Sum(d.jobs, FreshHeld(g))
  }

  ghost function DirSettled(d: Spawner<Phase>, g: Item -> nat): nat {
    Sum(d.jobs, SettledHeld(g))
  }

  ghost function InHand(m: MainLoop, g: Item -> nat): nat {
    if m.Deliver? then g(m.n) else 0
  }

  /** Weight of the nodes scanned but without a result. */
  ghost function Fresh(s: State, g: Item -> nat): nat {
    Total(s.stattedc, g) + InHand(s.main, g) + PoolFresh(s.check, g) + PoolFresh(s.upload, g) + DirFresh(s.dir, g)
  }

  /** Weight of the nodes with a result that the main loop has not been told about. */
  ghost function Unreported(s: State, g: Item -> nat): nat {
    PoolSettled(s.check, g) + PoolSettled(s.upload, g) + DirSettled(s.dir, g)
  }

  ghost function Settled(s: State, g: Item -> nat): nat {
    Unreported(s, g) + Total(s.skippedLog, g) + Total(s.uploadedLog, g)
  }

  /** Weight of the nodes the main loop has received and not yet seen the end of. */
  ghost function InFlight(s: State, g: Item -> nat): nat {
    InHand(s.main, g) + PoolFresh(s.check, g) + PoolFresh(s.upload, g) + DirFresh(s.dir, g) + Unreported(s, g)
  }

  ghost function UpTo(k: nat, g: Item -> nat): nat {
    if k == 0 then 0 else UpTo(k - 1, g) + g(k - 1)
  }

  // ------------------------------------------------------------- how a step moves them

  lemma PlumbingKeeps(p: Pool<Phase>, a: Action<Phase>, g: Item -> nat)
    requires Plumbing(a) && Enabled(p, a)
    ensures PoolFresh(Next(p, a), g) == PoolFresh(p, g)
    ensures PoolSettled(Next(p, a), g) == PoolSettled(p, g)
  {
    var q := Next(p, a);
    if a.PumpRecv? {
      TotalAppend(p.buf, p.input[0], g);
    } else if a.PumpSend? {
      TotalAppend(p.workc, p.buf[0], g);
    } else if a.Take? || a.WorkerExit? {
      SumUpdate(p.workers, FreshHeld(g), a.i, q.workers[a.i]);
      SumUpdate(p.workers, SettledHeld(g), a.i, q.workers[a.i]);
    }
  }

  lemma SendAdds(p: Pool<Phase>, x: Item, g: Item -> nat)
    requires Enabled(p, Send(x))
    ensures PoolFresh(Next(p, Send(x)), g) == PoolFresh(p, g) + g(x)
    ensures PoolSettled(Next(p, Send(x)), g) == PoolSettled(p, g)
  {
    TotalAppend(p.input, x, g);
  }

  lemma WorkMoves(p: Pool<Phase>, i: nat, phase: Phase, g: Item -> nat)
    requires Enabled(p, Work(i, phase)) && !SettledPhase(p.workers[i].phase)
    ensures var q := Next(p, Work(i, phase)); var moved := if SettledPhase(phase) then g(p.workers[i].item) else 0;
            PoolFresh(q, g) + moved == PoolFresh(p, g) && PoolSettled(q, g) == PoolSettled(p, g) + moved
  {
    SumUpdate(p.workers, FreshHeld(g), i, Busy(p.workers[i].item, phase));
    SumUpdate(p.workers, SettledHeld(g), i, Busy(p.workers[i].item, phase));
  }

  lemma NoteKeeps(p: Pool<Phase>, i: nat, g: Item -> nat)
    requires Enabled(p, Work(i, Report)) && SettledPhase(p.workers[i].phase)
    ensures var q := Next(p, Work(i, Report));
            PoolFresh(q, g) == PoolFresh(p, g) && PoolSettled(q, g) == PoolSettled(p, g)
  {
    var q := Next(p, Work(i, Report));
    assert q.workers == p.workers[i := Busy(p.workers[i].item, Report)];
    assert SettledPhase(q.workers[i].phase) && q.workers[i].item == p.workers[i].item;
    SumUpdate(p.workers, FreshHeld(g), i, Busy(p.workers[i].item, Report));
    SumUpdate(p.workers, SettledHeld(g), i, Busy(p.workers[i].item, Report));
  }

  lemma ReturnDrops(p: Pool<Phase>, i: nat, g: Item -> nat)
    requires Enabled(p, Return(i))
    ensures var q := Next(p, Return(i)); var n, settled := p.workers[i].item, SettledPhase(p.workers[i].phase);
            && PoolFresh(p, g) == PoolFresh(q, g) + (if settled then 0 else g(n))
            && PoolSettled(p, g) == PoolSettled(q, g) + (if settled then g(n) else 0)
  {
    SumUpdate(p.workers, FreshHeld(g), i, Idle);
    SumUpdate(p.workers, SettledHeld(g), i, Idle);
  }

  lemma DirMoves(d: Spawner<Phase>, a: SpawnAction<Phase>, g: Item -> nat)
    requires SpawnEnabled(d, a) && (a.Spawn? ==> !SettledPhase(a.start))
    requires a.JobWork? ==> !SettledPhase(d.jobs[a.i].phase)
    requires a.JobReturn? ==> SettledPhase(d.jobs[a.i].phase)
    ensures var q := SpawnNext(d, a);
            var moved := if a.JobWork? && SettledPhase(a.phase) then g(d.jobs[a.i].item) else 0;
            var added := if a.SpawnSend? then g(a.x) else 0;
            var dropped := if a.JobReturn? then g(d.jobs[a.i].item) else 0;
            && DirFresh(q, g) + moved == DirFresh(d, g) + added
            && DirSettled(q, g) + dropped == DirSettled(d, g) + moved
  {
    var q := SpawnNext(d, a);
    match a
    case SpawnSend(x) =>
      TotalAppend(d.input, x, g);
    case Spawn(start) =>
      SumAppend(d.jobs, FreshHeld(g), Busy(d.input[0], start));
      SumAppend(d.jobs, SettledHeld(g), Busy(d.input[0], start));
    case JobWork(i, phase) =>
      SumUpdate(d.jobs, FreshHeld(g), i, q.jobs[i]);
      SumUpdate(d.jobs, SettledHeld(g), i, q.jobs[i]);
    case JobReturn(i) =>
      SumUpdate(d.jobs, FreshHeld(g), i, q.jobs[i]);
      SumUpdate(d.jobs, SettledHeld(g), i, q.jobs[i]);
    case _ =>
  }

  // The weight of the node a step sets the result of, if any.
  ghost function SetWeight(ns: seq<nat>, g: Item -> nat): nat {
    if ns == [] then 0 else g(ns[0])
  }

  // The two equations of a step that moves nodes about.
  ghost predicate Moved(e: Env, s: State, a: Step, g: Item -> nat)
    requires StepEnabled(e, s, a)
  {
    var t := After(e, s, a);
    var settled := SetWeight(SetsResult(e, s, a), g);
    && Fresh(t, g) + settled == Fresh(s, g) + (if a.Emit? then g(s.todo) else 0)
    && Settled(t, g) == Settled(s, g) + settled
  }

  lemma ScanMoves(e: Env, s: State, a: Step, g: Item -> nat)
    requires StepEnabled(e, s, a) && (a.Emit? || a.RecvStatted? || a.PassOn?)
    ensures Moved(e, s, a, g)
  {
    var t := After(e, s, a);
    match a
    case Emit => TotalAppend(s.stattedc, s.todo, g);
    case RecvStatted => assert Total(s.stattedc, g) == g(s.stattedc[0]) + Total(t.stattedc, g);
    case PassOn => SendAdds(s.check, s.main.n, g);
  }

  lemma ReportMoves(e: Env, s: State, a: Step, g: Item -> nat)
    requires StepEnabled(e, s, a) && (a.RecvSkipped? || a.RecvUploaded? || a.RecvDirUploaded?)
    ensures Moved(e, s, a, g)
  {
    match a
    case RecvSkipped(i) => SkippedMoves(e, s, i, g);
    case RecvUploaded(i) => UploadedMoves(e, s, i, g);
    case RecvDirUploaded(i) => DirUploadedMoves(e, s, i, g);
  }

  lemma SkippedMoves(e: Env, s: State, i: nat, g: Item -> nat)
    requires StepEnabled(e, s, RecvSkipped(i))
    ensures Moved(e, s, RecvSkipped(i), g)
  {
    ReturnDrops(s.check, i, g);
    TotalAppend(s.skippedLog, s.check.workers[i].item, g);
    assert After(e, s, RecvSkipped(i)).check == Next(s.check, Return(i));
  }

  lemma UploadedMoves(e: Env, s: State, i: nat, g: Item -> nat)
    requires StepEnabled(e, s, RecvUploaded(i))
    ensures Moved(e, s, RecvUploaded(i), g)
  {
    ReturnDrops(s.upload, i, g);
    TotalAppend(s.uploadedLog, s.upload.workers[i].item, g);
    assert After(e, s, RecvUploaded(i)).upload == Next(s.upload, Return(i));
  }

  lemma DirUploadedMoves(e: Env, s: State, i: nat, g: Item -> nat)
    requires StepEnabled(e, s, RecvDirUploaded(i))
    ensures Moved(e, s, RecvDirUploaded(i), g)
  {
    DirMoves(s.dir, JobReturn(i), g);
    TotalAppend(s.uploadedLog, s.dir.jobs[i].item, g);
    assert After(e, s, RecvDirUploaded(i)).dir == SpawnNext(s.dir, JobReturn(i));
  }

  lemma PlumbingMoves(e: Env, s: State, a: Step, g: Item -> nat)
    requires StepEnabled(e, s, a) && (a.InCheck? || a.InUpload? || a.InDir?)
    ensures Moved(e, s, a, g)
  {
    match a
    case InCheck(p) => PlumbingKeeps(s.check, p, g);
    case InUpload(p) => PlumbingKeeps(s.upload, p, g);
    case InDir(d) => DirMoves(s.dir, d, g);
  }

  lemma LookupMoves(e: Env, s: State, i: nat, g: Item -> nat)
    requires StepEnabled(e, s, Lookup(i))
    ensures Moved(e, s, Lookup(i), g)
  {
    WorkMoves(s.check, i, if Hit(e, s, s.check.workers[i].item) then Report else Forward, g);
  }

  lemma PutFileMoves(e: Env, s: State, i: nat, g: Item -> nat)
    requires StepEnabled(e, s, PutFile(i))
    ensures Moved(e, s, PutFile(i), g)
  {
    var n := s.upload.workers[i].item;
    var put := e.fileRef(e.nodes[n].info);
    WorkMoves(s.upload, i, if e.nodes[n].info.isDir then Forward else if e.statCache then Record(put) else Report, g);
  }

  lemma NoteMoves(e: Env, s: State, i: nat, g: Item -> nat)
    requires StepEnabled(e, s, NoteCached(i))
    ensures Moved(e, s, NoteCached(i), g)
  {
    NoteKeeps(s.upload, i, g);
  }

  lemma DirCallMoves(e: Env, s: State, a: Step, g: Item -> nat)
    requires StepEnabled(e, s, a) && (a.Await? || a.PutDir?)
    ensures Moved(e, s, a, g)
  {
    DirMoves(s.dir, JobWork(a.i, After(e, s, a).dir.jobs[a.i].phase), g);
  }

  lemma HandoverMoves(e: Env, s: State, a: Step, g: Item -> nat)
    requires StepEnabled(e, s, a) && (a.ToUpload? || a.ToDir?)
    ensures Moved(e, s, a, g)
  {
    match a
    case ToUpload(i) =>
      ReturnDrops(s.check, i, g);
      SendAdds(s.upload, s.check.workers[i].item, g);
    case ToDir(i) =>
      ReturnDrops(s.upload, i, g);
      DirMoves(s.dir, SpawnSend(s.upload.workers[i].item), g);
  }

  // Closing a channel and the final call of a pool move nothing.
  lemma FlagsKeep(p: Pool<Phase>, a: Action<Phase>, g: Item -> nat)
    requires Enabled(p, a) && (a.CloseInput? || a.Final?)
    ensures PoolFresh(Next(p, a), g) == PoolFresh(p, g) && PoolSettled(Next(p, a), g) == PoolSettled(p, g)
  {
  }

  lemma ClosingMoves(e: Env, s: State, a: Step, g: Item -> nat)
    requires StepEnabled(e, s, a) && (a.RecvStattedClosed? || a.CheckDone? || a.UploadDone? || a.Leave?)
    ensures Moved(e, s, a, g)
  {
    match a
    case RecvStattedClosed => FlagsKeep(s.check, CloseInput, g);
    case CheckDone => FlagsKeep(s.check, Final, g); FlagsKeep(s.upload, CloseInput, g);
    case UploadDone => FlagsKeep(s.upload, Final, g); DirMoves(s.dir, SpawnClose, g);
    case Leave => DirMoves(s.dir, SpawnFinal, g);
  }

  /** Every step conserves nodes: scanning adds one without a result, SetPutResult moves one
      to those with a result, and nothing else changes either side. */
  lemma StepMoves(e: Env, s: State, a: Step, g: Item -> nat)
    requires StepEnabled(e, s, a)
    ensures Moved(e, s, a, g)
  {
    if a.Emit? || a.RecvStatted? || a.PassOn? {
      ScanMoves(e, s, a, g);
    } else if a.RecvSkipped? || a.RecvUploaded? || a.RecvDirUploaded? {
      ReportMoves(e, s, a, g);
    } else if a.InCheck? || a.InUpload? || a.InDir? {
      PlumbingMoves(e, s, a, g);
    } else if a.Lookup? {
      LookupMoves(e, s, a.i, g);
    } else if a.PutFile? {
      PutFileMoves(e, s, a.i, g);
    } else if a.NoteCached? {
      NoteMoves(e, s, a.i, g);
    } else if a.Await? || a.PutDir? {
      DirCallMoves(e, s, a, g);
    } else if a.ToUpload? || a.ToDir? {
      HandoverMoves(e, s, a, g);
    } else if a.RecvStattedClosed? || a.CheckDone? || a.UploadDone? || a.Leave? {
      ClosingMoves(e, s, a, g);
    } else {
      RootMoves(e, s, a, g);
    }
  }

  lemma RootMoves(e: Env, s: State, a: Step, g: Item -> nat)
    requires StepEnabled(e, s, a) && (a.CloseStatted? || a.SendRoot? || a.RecvRoot?)
    ensures Moved(e, s, a, g)
  {
  }

  // ----------------------------------------------------------------------- invariants

  ghost predicate Pools(e: Env, s: State) {
    && Valid(s.check) && Valid(s.upload) && SpawnValid(s.dir)
    && |s.check.workers| == e.statWorkers && |s.upload.workers| == e.uploadWorkers
  }

  // Each scanned node is in exactly one place.
  ghost predicate Conserved(s: State) {
    forall g: Item -> nat :: UpTo(s.todo, g) == Fresh(s, g) + Settled(s, g)
  }

  // A result cell is set exactly while its node is past SetPutResult.
  ghost predicate Cells(s: State) {
    forall n: nat :: n in s.res <==> Settled(s, OnlyOne(n)) > 0
  }

  // The stat cache holds only what an upload of the same file would give.
  ghost predicate Coherent(e: Env, cache: map<Info, BlobRef>) {
    forall i :: i in cache ==> cache[i] == e.fileRef(i)
  }

  ghost predicate CheckCall(w: Worker<Phase>) {
    w.Busy? ==> w.phase == Start || w.phase == Forward || w.phase == Report
  }

  ghost predicate UploadCall(e: Env, w: Worker<Phase>) {
    w.Busy? ==>
      || w.phase == Start || w.phase == Report
      || (w.phase == Forward && w.item < |e.nodes| && e.nodes[w.item].info.isDir)
      || (&& w.phase.Record? && e.statCache && w.item < |e.nodes|
          && !e.nodes[w.item].info.isDir && w.phase.put == e.fileRef(e.nodes[w.item].info))
  }

  ghost predicate IsDir(e: Env, n: nat) {
    n < |e.nodes| && e.nodes[n].info.isDir
  }

  ghost predicate DirCall(e: Env, w: Worker<Phase>)
    requires WellFormed(e)
  {
    w.Busy? ==>
      && IsDir(e, w.item)
      && (|| w.phase == Report
          || (&& w.phase.Collect? && |w.phase.refs| <= |e.nodes[w.item].children|
              && w.phase.refs == SpecKids(e, w.item, |w.phase.refs|)))
  }

  ghost predicate CallsOk(e: Env, s: State)
    requires WellFormed(e)
  {
    && (forall i :: 0 <= i < |s.check.workers| ==> CheckCall(s.check.workers[i]))
    && (forall i :: 0 <= i < |s.upload.workers| ==> UploadCall(e, s.upload.workers[i]))
    && (forall i :: 0 <= i < |s.dir.jobs| ==> DirCall(e, s.dir.jobs[i]))
    && (forall k :: 0 <= k < |s.dir.input| ==> IsDir(e, s.dir.input[k]))
  }

  /** Every result set so far is the one the bottom-up recursion gives. */
  ghost predicate Values(e: Env, s: State)
    requires WellFormed(e)
  {
    && (forall n :: n in s.res ==> n < |e.nodes| && s.res[n] == Spec(e, n))
    && Coherent(e, s.cache)
  }

  // Channels are closed in order, each by the goroutine that has sent its last item on it.
  ghost predicate Wiring(e: Env, s: State) {
    && s.todo <= |e.nodes| && |s.stattedc| <= BUFFERED
    && (s.stattedClosed ==> s.todo == |e.nodes|)
    && (s.rootc != Unsent ==> s.stattedClosed)
    && (s.stattedNil ==> s.stattedClosed && s.stattedc == [])
    && (s.stattedNil <==> s.check.inputClosed)
    && (s.main.Deliver? ==> !s.stattedNil)
    && (s.upload.inputClosed <==> s.check.finalCalled)
    && (s.dir.inputClosed <==> s.upload.finalCalled)
    && (s.main == Left <==> s.dir.finalCalled)
  }

  ghost function One(): Item -> nat { _ => 1 }

  ghost function SizeOf(e: Env): Item -> nat {
    (n: Item) => if n < |e.nodes| && !e.nodes[n].info.isDir then e.nodes[n].info.size else 0
  }

  ghost predicate Tally(e: Env, st: Stats, log: seq<nat>) {
    st.files == Total(log, One()) && st.bytes == Total(log, SizeOf(e))
  }

  ghost predicate Counted(e: Env, s: State) {
    && Tally(e, s.skipped, s.skippedLog) && Tally(e, s.uploaded, s.uploadedLog)
    && s.total.files + Total(s.stattedc, One()) == UpTo(s.todo, One())
    && s.total.bytes + Total(s.stattedc, SizeOf(e)) == UpTo(s.todo, SizeOf(e))
  }

  ghost predicate Inv(e: Env, s: State)
    requires WellFormed(e)
  {
    Pools(e, s) && Conserved(s) && Cells(s) && CallsOk(e, s) && Values(e, s) && Wiring(e, s) && Counted(e, s)
  }

  lemma InitInv(e: Env, cache: map<Info, BlobRef>)
    requires WellFormed(e) && Coherent(e, cache)
    ensures Inv(e, Init(e, cache))
  {
    InitPools(e, cache);
    InitNowhere(e, cache);
    InitCalls(e, cache);
  }

  lemma InitPools(e: Env, cache: map<Info, BlobRef>)
    requires WellFormed(e)
    ensures Pools(e, Init(e, cache))
  {
    NewPoolValid<Phase>(e.statWorkers);
    NewPoolValid<Phase>(e.uploadWorkers);
  }

  lemma InitNowhere(e: Env, cache: map<Info, BlobRef>)
    ensures Conserved(Init(e, cache)) && Cells(Init(e, cache))
  {
    var s := Init(e, cache);
    forall g: Item -> nat ensures Fresh(s, g) == 0 && Settled(s, g) == 0 {
      SumWitness(s.check.workers, FreshHeld(g));
      SumWitness(s.check.workers, SettledHeld(g));
      SumWitness(s.upload.workers, FreshHeld(g));
      SumWitness(s.upload.workers, SettledHeld(g));
    }
  }

  lemma InitCalls(e: Env, cache: map<Info, BlobRef>)
    requires WellFormed(e) && Coherent(e, cache)
    ensures var s := Init(e, cache); CallsOk(e, s) && Values(e, s) && Wiring(e, s) && Counted(e, s)
  {
  }

  // ------------------------------------------------- what a step does to each pool

  ghost function CheckAct(e: Env, s: State, a: Step): Option<Action<Phase>>
    requires StepEnabled(e, s, a)
  {
    match a
    case PassOn => Some(Send(s.main.n))
    case RecvStattedClosed => Some(CloseInput)
    case RecvSkipped(i) => Some(Return(i))
    case InCheck(p) => Some(p)
    case Lookup(i) => Some(Work(i, if Hit(e, s, s.check.workers[i].item) then Report else Forward))
    case ToUpload(i) => Some(Return(i))
    case CheckDone => Some(Final)
    case _ => None
  }

  ghost function UploadAct(e: Env, s: State, a: Step): Option<Action<Phase>>
    requires StepEnabled(e, s, a)
  {
    match a
    case RecvUploaded(i) => Some(Return(i))
    case InUpload(p) => Some(p)
    case ToUpload(i) => Some(Send(s.check.workers[i].item))
    case CheckDone => Some(CloseInput)
    case PutFile(i) =>
      var info := e.nodes[s.upload.workers[i].item].info;
      Some(Work(i, if info.isDir then Forward else if e.statCache then Record(e.fileRef(info)) else Report))
    case NoteCached(i) => Some(Work(i, Report))
    case ToDir(i) => Some(Return(i))
    case UploadDone => Some(Final)
    case _ => None
  }

  ghost function DirAct(e: Env, s: State, a: Step): Option<SpawnAction<Phase>>
    requires StepEnabled(e, s, a)
  {
    match a
    case RecvDirUploaded(i) => Some(JobReturn(i))
    case Leave => Some(SpawnFinal)
    case InDir(d) => Some(d)
    case ToDir(i) => Some(SpawnSend(s.upload.workers[i].item))
    case UploadDone => Some(SpawnClose)
    case Await(i) =>
      var job := s.dir.jobs[i];
      Some(JobWork(i, Collect(job.phase.refs + [s.res[e.nodes[job.item].children[|job.phase.refs|]]])))
    case PutDir(i) => Some(JobWork(i, Report))
    case _ => None
  }

  lemma CheckStep(e: Env, s: State, a: Step)
    requires StepEnabled(e, s, a)
    ensures var o := CheckAct(e, s, a);
            if o.None? then After(e, s, a).check == s.check
            else Enabled(s.check, o.value) && After(e, s, a).check == Next(s.check, o.value)
  {
  }

  lemma UploadStep(e: Env, s: State, a: Step)
    requires StepEnabled(e, s, a)
    ensures var o := UploadAct(e, s, a);
            if o.None? then After(e, s, a).upload == s.upload
            else Enabled(s.upload, o.value) && After(e, s, a).upload == Next(s.upload, o.value)
  {
  }

  lemma DirStep(e: Env, s: State, a: Step)
    requires StepEnabled(e, s, a)
    ensures var o := DirAct(e, s, a);
            if o.None? then After(e, s, a).dir == s.dir
            else SpawnEnabled(s.dir, o.value) && After(e, s, a).dir == SpawnNext(s.dir, o.value)
  {
  }

  lemma StepPools(e: Env, s: State, a: Step)
    requires Pools(e, s) && StepEnabled(e, s, a)
    ensures Pools(e, After(e, s, a))
  {
    CheckStep(e, s, a);
    UploadStep(e, s, a);
    DirStep(e, s, a);
    PoolStep(s.check, CheckAct(e, s, a), After(e, s, a).check);
    PoolStep(s.upload, UploadAct(e, s, a), After(e, s, a).upload);
    SpawnerStep(s.dir, DirAct(e, s, a), After(e, s, a).dir);
  }

  lemma PoolStep(p: Pool<Phase>, o: Option<Action<Phase>>, q: Pool<Phase>)
    requires Valid(p)
    requires if o.None? then q == p else Enabled(p, o.value) && q == Next(p, o.value)
    ensures Valid(q) && |q.workers| == |p.workers|
  {
    if o.Some? { StepValid(p, o.value); }
  }

  lemma SpawnerStep(p: Spawner<Phase>, o: Option<SpawnAction<Phase>>, q: Spawner<Phase>)
    requires SpawnValid(p)
    requires if o.None? then q == p else SpawnEnabled(p, o.value) && q == SpawnNext(p, o.value)
    ensures SpawnValid(q)
  {
    if o.Some? { SpawnStepValid(p, o.value); }
  }

  lemma StepConserved(e: Env, s: State, a: Step)
    requires Conserved(s) && StepEnabled(e, s, a)
    ensures Conserved(After(e, s, a))
  {
    var t := After(e, s, a);
    forall g: Item -> nat ensures UpTo(t.todo, g) == Fresh(t, g) + Settled(t, g) {
      StepConserves(e, s, a, g);
    }
  }

  lemma StepConserves(e: Env, s: State, a: Step, g: Item -> nat)
    requires UpTo(s.todo, g) == Fresh(s, g) + Settled(s, g) && StepEnabled(e, s, a)
    ensures var t := After(e, s, a); UpTo(t.todo, g) == Fresh(t, g) + Settled(t, g)
  {
    StepMoves(e, s, a, g);
    TodoGrows(e, s, a, g);
  }

  lemma TodoGrows(e: Env, s: State, a: Step, g: Item -> nat)
    requires StepEnabled(e, s, a)
    ensures UpTo(After(e, s, a).todo, g) == UpTo(s.todo, g) + if a.Emit? then g(s.todo) else 0
  {
    if !a.Emit? { TodoUntouched(e, s, a); }
  }

  lemma TodoUntouched(e: Env, s: State, a: Step)
    requires StepEnabled(e, s, a) && !a.Emit?
    ensures After(e, s, a).todo == s.todo
  {
  }

  // What a step does to the result cells, in one equation.
  lemma StepRes(e: Env, s: State, a: Step)
    requires StepEnabled(e, s, a)
    ensures var ns := SetsResult(e, s, a);
            |ns| <= 1 && After(e, s, a).res.Keys == s.res.Keys + if ns == [] then {} else {ns[0]}
  {
  }

  lemma StepCells(e: Env, s: State, a: Step)
    requires Cells(s) && StepEnabled(e, s, a)
    ensures Cells(After(e, s, a))
  {
    var t := After(e, s, a);
    forall n: nat ensures n in t.res <==> Settled(t, OnlyOne(n)) > 0 {
      StepCell(e, s, a, n);
    }
  }

  lemma StepCell(e: Env, s: State, a: Step, n: nat)
    requires Cells(s) && StepEnabled(e, s, a)
    ensures n in After(e, s, a).res <==> Settled(After(e, s, a), OnlyOne(n)) > 0
  {
    StepRes(e, s, a);
    StepMoves(e, s, a, OnlyOne(n));
  }

  lemma StepCheckCalls(e: Env, s: State, a: Step)
    requires WellFormed(e) && CallsOk(e, s) && StepEnabled(e, s, a)
    ensures var t := After(e, s, a); forall i :: 0 <= i < |t.check.workers| ==> CheckCall(t.check.workers[i])
  {
    CheckStep(e, s, a);
    CheckActCalls(e, s, a);
    if CheckAct(e, s, a).Some? {
      NextCheckCalls(s.check, CheckAct(e, s, a).value);
    }
  }

  lemma CheckActCalls(e: Env, s: State, a: Step)
    requires StepEnabled(e, s, a)
    ensures CheckAct(e, s, a).Some? ==> CheckPhases(CheckAct(e, s, a).value)
  {
  }

  predicate CheckPhases(p: Action<Phase>) {
    (p.Work? ==> p.phase == Forward || p.phase == Report) && (p.Take? ==> p.start == Start)
  }

  lemma NextCheckCalls(p: Pool<Phase>, a: Action<Phase>)
    requires Enabled(p, a) && CheckPhases(a) && forall i :: 0 <= i < |p.workers| ==> CheckCall(p.workers[i])
    ensures var q := Next(p, a); forall i :: 0 <= i < |q.workers| ==> CheckCall(q.workers[i])
  {
  }

  lemma StepUploadCalls(e: Env, s: State, a: Step)
    requires WellFormed(e) && CallsOk(e, s) && StepEnabled(e, s, a)
    ensures var t := After(e, s, a); forall i :: 0 <= i < |t.upload.workers| ==> UploadCall(e, t.upload.workers[i])
  {
    UploadStep(e, s, a);
    UploadActCalls(e, s, a);
    if UploadAct(e, s, a).Some? {
      NextUploadCalls(e, s.upload, UploadAct(e, s, a).value);
    }
  }

  lemma UploadActCalls(e: Env, s: State, a: Step)
    requires StepEnabled(e, s, a)
    ensures UploadAct(e, s, a).Some? ==> UploadPhases(e, s.upload, UploadAct(e, s, a).value)
  {
  }

  ghost predicate UploadPhases(e: Env, p: Pool<Phase>, a: Action<Phase>) {
    && (a.Work? && a.i < |p.workers| && p.workers[a.i].Busy? ==> UploadCall(e, Busy(p.workers[a.i].item, a.phase)))
    && (a.Take? ==> a.start == Start)
  }

  lemma NextUploadCalls(e: Env, p: Pool<Phase>, a: Action<Phase>)
    requires Enabled(p, a) && UploadPhases(e, p, a) && forall i :: 0 <= i < |p.workers| ==> UploadCall(e, p.workers[i])
    ensures var q := Next(p, a); forall i :: 0 <= i < |q.workers| ==> UploadCall(e, q.workers[i])
  {
  }

  lemma StepDirCalls(e: Env, s: State, a: Step)
    requires WellFormed(e) && CallsOk(e, s) && Values(e, s) && StepEnabled(e, s, a)
    ensures var t := After(e, s, a); forall i :: 0 <= i < |t.dir.jobs| ==> DirCall(e, t.dir.jobs[i])
  {
    DirStep(e, s, a);
    if a.InDir? && a.d.Spawn? {
      assert IsDir(e, s.dir.input[0]);
      assert SpecKids(e, s.dir.input[0], 0) == [];
    } else if a.Await? || a.PutDir? {
      JobDirCall(e, s, a);
    }
  }

  lemma JobDirCall(e: Env, s: State, a: Step)
    requires WellFormed(e) && CallsOk(e, s) && Values(e, s) && StepEnabled(e, s, a) && (a.Await? || a.PutDir?)
    ensures DirAct(e, s, a).Some? && DirAct(e, s, a).value.JobWork? && DirAct(e, s, a).value.i == a.i
    ensures DirCall(e, Busy(s.dir.jobs[a.i].item, DirAct(e, s, a).value.phase))
  {
    assert DirCall(e, s.dir.jobs[a.i]);
  }

  lemma StepDirInput(e: Env, s: State, a: Step)
    requires WellFormed(e) && CallsOk(e, s) && StepEnabled(e, s, a)
    ensures var t := After(e, s, a); forall k :: 0 <= k < |t.dir.input| ==> IsDir(e, t.dir.input[k])
  {
    DirStep(e, s, a);
    if a.ToDir? {
      assert UploadCall(e, s.upload.workers[a.i]);
    }
  }

  lemma StepValues(e: Env, s: State, a: Step)
    requires WellFormed(e) && CallsOk(e, s) && Values(e, s) && StepEnabled(e, s, a)
    ensures Values(e, After(e, s, a))
  {
    if a.PutDir? {
      PutDirValues(e, s, a.i);
    } else if a.NoteCached? {
      assert UploadCall(e, s.upload.workers[a.i]);
      NoteValues(e, s, a.i);
    } else if a.Lookup? || a.PutFile? {
      FileValues(e, s, a);
    } else {
      QuietValues(e, s, a);
    }
  }

  lemma PutDirValues(e: Env, s: State, i: nat)
    requires WellFormed(e) && CallsOk(e, s) && Values(e, s) && StepEnabled(e, s, PutDir(i))
    ensures Values(e, After(e, s, PutDir(i)))
  {
    assert DirCall(e, s.dir.jobs[i]);
  }

  lemma NoteValues(e: Env, s: State, i: nat)
    requires WellFormed(e) && Values(e, s) && StepEnabled(e, s, NoteCached(i)) && UploadCall(e, s.upload.workers[i])
    ensures Values(e, After(e, s, NoteCached(i)))
  {
  }

  lemma FileValues(e: Env, s: State, a: Step)
    requires WellFormed(e) && Values(e, s) && StepEnabled(e, s, a) && (a.Lookup? || a.PutFile?)
    ensures Values(e, After(e, s, a))
  {
  }

  lemma QuietValues(e: Env, s: State, a: Step)
    requires StepEnabled(e, s, a) && !a.PutDir? && !a.NoteCached? && !a.Lookup? && !a.PutFile?
    ensures After(e, s, a).res == s.res && After(e, s, a).cache == s.cache
  {
    if ScanStep(a) || a.InCheck? || a.InUpload? || a.InDir? {
      QuietScan(e, s, a);
    } else {
      QuietCall(e, s, a);
    }
  }

  lemma QuietScan(e: Env, s: State, a: Step)
    requires StepEnabled(e, s, a) && (ScanStep(a) || a.InCheck? || a.InUpload? || a.InDir?)
    ensures After(e, s, a).res == s.res && After(e, s, a).cache == s.cache
  {
  }

  lemma QuietCall(e: Env, s: State, a: Step)
    requires StepEnabled(e, s, a) && !a.PutDir? && !a.NoteCached? && !a.Lookup? && !a.PutFile?
    requires !(ScanStep(a) || a.InCheck? || a.InUpload? || a.InDir?)
    ensures After(e, s, a).res == s.res && After(e, s, a).cache == s.cache
  {
  }

  // What the scanner's and the main loop's own variables keep to.
  ghost predicate ScanWiring(e: Env, s: State) {
    && s.todo <= |e.nodes| && |s.stattedc| <= BUFFERED
    && (s.stattedClosed ==> s.todo == |e.nodes|)
    && (s.rootc != Unsent ==> s.stattedClosed)
    && (s.stattedNil ==> s.stattedClosed && s.stattedc == [])
    && (s.main.Deliver? ==> !s.stattedNil)
  }

  predicate ScanStep(a: Step) {
    a.Emit? || a.CloseStatted? || a.SendRoot? || a.RecvStatted? || a.PassOn? || a.RecvStattedClosed? || a.RecvRoot? || a.Leave?
  }

  lemma StepScanWiring(e: Env, s: State, a: Step)
    requires ScanWiring(e, s) && StepEnabled(e, s, a)
    ensures ScanWiring(e, After(e, s, a))
  {
    if ScanStep(a) {
      ScanStepWiring(e, s, a);
    } else {
      ScanUntouched(e, s, a);
    }
  }

  lemma ScanStepWiring(e: Env, s: State, a: Step)
    requires ScanWiring(e, s) && StepEnabled(e, s, a) && ScanStep(a)
    ensures ScanWiring(e, After(e, s, a))
  {
  }

  lemma ScanUntouched(e: Env, s: State, a: Step)
    requires StepEnabled(e, s, a) && !ScanStep(a)
    ensures var t := After(e, s, a);
            && t.todo == s.todo && t.stattedc == s.stattedc && t.stattedClosed == s.stattedClosed
            && t.rootc == s.rootc && t.stattedNil == s.stattedNil && t.main == s.main
  {
  }

  ghost predicate Closings(s: State) {
    && (s.stattedNil <==> s.check.inputClosed)
    && (s.upload.inputClosed <==> s.check.finalCalled)
    && (s.dir.inputClosed <==> s.upload.finalCalled)
    && (s.main == Left <==> s.dir.finalCalled)
  }

  lemma CheckFlags(e: Env, s: State, a: Step)
    requires StepEnabled(e, s, a)
    ensures var t := After(e, s, a);
            && (t.check.inputClosed <==> s.check.inputClosed || a.RecvStattedClosed?)
            && (t.check.finalCalled <==> s.check.finalCalled || a.CheckDone?)
  {
    CheckStep(e, s, a);
    CheckActFlags(e, s, a);
  }

  lemma CheckActFlags(e: Env, s: State, a: Step)
    requires StepEnabled(e, s, a)
    ensures var o := CheckAct(e, s, a);
            && ((o.Some? && o.value == CloseInput) <==> a.RecvStattedClosed?)
            && ((o.Some? && o.value == Final) <==> a.CheckDone?)
  {
  }

  lemma UploadFlags(e: Env, s: State, a: Step)
    requires StepEnabled(e, s, a)
    ensures var t := After(e, s, a);
            && (t.upload.inputClosed <==> s.upload.inputClosed || a.CheckDone?)
            && (t.upload.finalCalled <==> s.upload.finalCalled || a.UploadDone?)
  {
    UploadStep(e, s, a);
    UploadActFlags(e, s, a);
  }

  lemma UploadActFlags(e: Env, s: State, a: Step)
    requires StepEnabled(e, s, a)
    ensures var o := UploadAct(e, s, a);
            && ((o.Some? && o.value == CloseInput) <==> a.CheckDone?)
            && ((o.Some? && o.value == Final) <==> a.UploadDone?)
  {
  }

  lemma DirFlags(e: Env, s: State, a: Step)
    requires StepEnabled(e, s, a)
    ensures var t := After(e, s, a);
            && (t.dir.inputClosed <==> s.dir.inputClosed || a.UploadDone?)
            && (t.dir.finalCalled <==> s.dir.finalCalled || a.Leave?)
  {
    DirStep(e, s, a);
  }

  lemma MainFlags(e: Env, s: State, a: Step)
    requires StepEnabled(e, s, a)
    ensures var t := After(e, s, a);
            && (t.stattedNil <==> s.stattedNil || a.RecvStattedClosed?)
            && (t.main == Left <==> s.main == Left || a.Leave?)
  {
    if !ScanStep(a) { ScanUntouched(e, s, a); }
  }

  lemma StepClosings(e: Env, s: State, a: Step)
    requires Closings(s) && StepEnabled(e, s, a)
    ensures Closings(After(e, s, a))
  {
    CheckFlags(e, s, a);
    UploadFlags(e, s, a);
    DirFlags(e, s, a);
    MainFlags(e, s, a);
  }

  lemma StepWiring(e: Env, s: State, a: Step)
    requires Wiring(e, s) && StepEnabled(e, s, a)
    ensures Wiring(e, After(e, s, a))
  {
    StepScanWiring(e, s, a);
    StepClosings(e, s, a);
  }

  lemma TallyIncr(e: Env, st: Stats, log: seq<nat>, n: nat)
    requires Tally(e, st, log) && n < |e.nodes|
    ensures Tally(e, Incr(e, st, n), log + [n])
  {
    TotalAppend(log, n, One());
    TotalAppend(log, n, SizeOf(e));
  }

  lemma StepReceived(e: Env, s: State, a: Step, g: Item -> nat, counted: nat)
    requires StepEnabled(e, s, a) && counted + Total(s.stattedc, g) == UpTo(s.todo, g)
    ensures var t := After(e, s, a);
            (if a.RecvStatted? then counted + g(s.stattedc[0]) else counted) + Total(t.stattedc, g) == UpTo(t.todo, g)
  {
    if a.Emit? {
      TotalAppend(s.stattedc, s.todo, g);
    } else if !a.RecvStatted? {
      ChannelUntouched(e, s, a);
    }
  }

  lemma ChannelUntouched(e: Env, s: State, a: Step)
    requires StepEnabled(e, s, a) && !a.Emit? && !a.RecvStatted?
    ensures After(e, s, a).todo == s.todo && After(e, s, a).stattedc == s.stattedc
  {
    if !ScanStep(a) { ScanUntouched(e, s, a); }
  }

  lemma StepSkipped(e: Env, s: State, a: Step)
    requires Tally(e, s.skipped, s.skippedLog) && StepEnabled(e, s, a)
    ensures var t := After(e, s, a); Tally(e, t.skipped, t.skippedLog)
  {
    if a.RecvSkipped? {
      TallyIncr(e, s.skipped, s.skippedLog, s.check.workers[a.i].item);
    }
  }

  lemma StepUploaded(e: Env, s: State, a: Step)
    requires Tally(e, s.uploaded, s.uploadedLog) && StepEnabled(e, s, a)
    ensures var t := After(e, s, a); Tally(e, t.uploaded, t.uploadedLog)
  {
    if a.RecvUploaded? {
      TallyIncr(e, s.uploaded, s.uploadedLog, s.upload.workers[a.i].item);
    } else if a.RecvDirUploaded? {
      TallyIncr(e, s.uploaded, s.uploadedLog, s.dir.jobs[a.i].item);
    }
  }

  lemma StepCounted(e: Env, s: State, a: Step)
    requires Counted(e, s) && StepEnabled(e, s, a)
    ensures Counted(e, After(e, s, a))
  {
    StepSkipped(e, s, a);
    StepUploaded(e, s, a);
    StepReceived(e, s, a, One(), s.total.files);
    StepReceived(e, s, a, SizeOf(e), s.total.bytes);
    TotalAfter(e, s, a);
  }

  lemma TotalAfter(e: Env, s: State, a: Step)
    requires StepEnabled(e, s, a)
    ensures var t := After(e, s, a);
            && t.total.files == s.total.files + (if a.RecvStatted? then One()(s.stattedc[0]) else 0)
            && t.total.bytes == s.total.bytes + (if a.RecvStatted? then SizeOf(e)(s.stattedc[0]) else 0)
  {
  }

  /** The invariant is kept by every step of every goroutine. */
  lemma StepInv(e: Env, s: State, a: Step)
    requires WellFormed(e) && Inv(e, s) && StepEnabled(e, s, a)
    ensures Inv(e, After(e, s, a))
  {
    StepPools(e, s, a);
    StepConserved(e, s, a);
    StepCells(e, s, a);
    StepCallsOk(e, s, a);
    StepValues(e, s, a);
    StepWiring(e, s, a);
    StepCounted(e, s, a);
  }

  lemma StepCallsOk(e: Env, s: State, a: Step)
    requires WellFormed(e) && CallsOk(e, s) && Values(e, s) && StepEnabled(e, s, a)
    ensures CallsOk(e, After(e, s, a))
  {
    StepCheckCalls(e, s, a);
    StepUploadCalls(e, s, a);
    StepDirCalls(e, s, a);
    StepDirInput(e, s, a);
  }
}
