/** The concurrent tree upload of pk-put (cmd/pk-put/files.go, TreeUpload.run) as a labelled
    transition system: one scanner, three worker pools, the goroutines of the directory
    pool and the main select loop.  Each step is one action of one goroutine, or one
    rendezvous on an unbuffered channel. */
module TreeUpload {
  import opened ChanWorker

  type BlobRef = string

  // What the scanner knows of a file: its full path and the parts of os.FileInfo used here.
  datatype Info = Info(path: string, isDir: bool, size: nat, sys: string)

  // A scanned node; children are given by their position in the scan order.
  datatype Node = Node(info: Info, children: seq<nat>)

  /** What a run does not change: the scanned nodes in the order the scanner sends them, the
      blob server's answers as functions of what is uploaded, whether a stat cache is in
      use, and the pool sizes. */
  datatype Env = Env(
    nodes: seq<Node>,
    fileRef: Info -> BlobRef,
    dirRef: (Info, seq<BlobRef>) -> BlobRef,
    statCache: bool,
    statWorkers: nat, uploadWorkers: nat)

  // The scanner sends a directory after its children; the root comes last.  It sends nothing
  // if the path to upload is itself ignored.
  ghost predicate WellFormed(e: Env) {
    && e.statWorkers > 0 && e.uploadWorkers > 0
    && (forall n :: 0 <= n < |e.nodes| ==> forall k :: 0 <= k < |e.nodes[n].children| ==> e.nodes[n].children[k] < n)
  }

  /** The reference: the blobref of a node by plain bottom-up recursion. */
  ghost function Spec(e: Env, n: nat): BlobRef
    requires WellFormed(e) && n < |e.nodes|
    decreases n, 1
  {
    var node := e.nodes[n];
    if node.info.isDir then e.dirRef(node.info, SpecKids(e, n, |node.children|)) else e.fileRef(node.info)
  }

  ghost function SpecKids(e: Env, n: nat, k: nat): (refs: seq<BlobRef>)
    requires WellFormed(e) && n < |e.nodes| && k <= |e.nodes[n].children|
    ensures |refs| == k
    decreases n, 0, k
  {
    if k == 0 then [] else SpecKids(e, n, k - 1) + [Spec(e, e.nodes[n].children[k - 1])]
  }

  // ---------------------------------------------------------------------------- state

  // How far a call of a pool's `fn` has got.
  datatype Phase =
    | Start
    | Forward                        // about to send the node to the next pool
    | Collect(refs: seq<BlobRef>)    // in directoryStaticSet, with these members so far
    | Record(put: BlobRef)           // result set; about to write the stat cache
    | Report                         // result set; about to send on uploadedc or skippedc

  datatype MainLoop = Select | Deliver(n: nat) | Left
  datatype Rootc = Unsent | Buffered | Taken
  datatype Stats = Stats(files: nat, bytes: nat)

  datatype State = State(
    todo: nat,                                 // nodes sent by the scanner so far
    stattedc: seq<nat>, stattedClosed: bool,
    rootc: Rootc,
    main: MainLoop, stattedNil: bool,
    check: Pool<Phase>, upload: Pool<Phase>, dir: Spawner<Phase>,
    res: map<nat, BlobRef>,                    // result cells that are set
    cache: map<Info, BlobRef>,
    total: Stats, skipped: Stats, uploaded: Stats,
    skippedLog: seq<nat>, uploadedLog: seq<nat>)

  function Init(e: Env, cache: map<Info, BlobRef>): State {
    State(0, [], false, Unsent, Select, false,
          NewPool(e.statWorkers), NewPool(e.uploadWorkers), NewSpawner(),
          map[], cache, Stats(0, 0), Stats(0, 0), Stats(0, 0), [], [])
  }

  function Incr(e: Env, s: Stats, n: nat): Stats
    requires n < |e.nodes|
  {
    Stats(s.files + 1, if e.nodes[n].info.isDir then s.bytes else s.bytes + e.nodes[n].info.size)
  }

  datatype Step =
    // scanner
    | Emit | CloseStatted | SendRoot
    // main loop
    | RecvStatted | PassOn | RecvStattedClosed | RecvRoot
    | RecvSkipped(i: nat) | RecvUploaded(i: nat) | RecvDirUploaded(i: nat) | Leave
    // plumbing inside the pools
    | InCheck(a: Action<Phase>) | InUpload(a: Action<Phase>) | InDir(d: SpawnAction<Phase>)
    // the pools' functions
    | Lookup(i: nat) | ToUpload(i: nat) | CheckDone
    | PutFile(i: nat) | NoteCached(i: nat) | ToDir(i: nat) | UploadDone
    | Await(i: nat) | PutDir(i: nat)

  predicate Plumbing(a: Action<Phase>) {
    a.PumpRecv? || a.PumpSeeClosed? || a.PumpSend? || a.PumpExit? || a.WorkerExit? || (a.Take? && a.start == Start)
  }

  predicate SpawnPlumbing(a: SpawnAction<Phase>) {
    a.RangeEnd? || (a.Spawn? && a.start == Collect([]))
  }

  // Worker (or goroutine) i is in its call on a node of this upload, at a phase satisfying the rest.
  predicate At(e: Env, ws: seq<Worker<Phase>>, i: nat) {
    i < |ws| && ws[i].Busy? && ws[i].item < |e.nodes|
  }

  predicate StepEnabled(e: Env, s: State, a: Step) {
    match a
    case Emit => s.todo < |e.nodes| && |s.stattedc| < BUFFERED
    case CloseStatted => s.todo == |e.nodes| && !s.stattedClosed
    case SendRoot => s.stattedClosed && s.rootc == Unsent
    case RecvStatted => s.main == Select && !s.stattedNil && s.stattedc != [] && s.stattedc[0] < |e.nodes|
    case PassOn => s.main.Deliver? && Enabled(s.check, Send(s.main.n))
    case RecvStattedClosed =>
      s.main == Select && !s.stattedNil && s.stattedc == [] && s.stattedClosed && Enabled(s.check, CloseInput)
    case RecvRoot => s.main == Select && s.rootc == Buffered
    case RecvSkipped(i) => s.main == Select && At(e, s.check.workers, i) && s.check.workers[i].phase == Report
    case RecvUploaded(i) => s.main == Select && At(e, s.upload.workers, i) && s.upload.workers[i].phase == Report
    case RecvDirUploaded(i) =>
      s.main == Select && At(e, s.dir.jobs, i) && s.dir.jobs[i].phase == Report && SpawnEnabled(s.dir, JobReturn(i))
    case Leave => s.main == Select && SpawnEnabled(s.dir, SpawnFinal)
    case InCheck(p) => Plumbing(p) && Enabled(s.check, p)
    case InUpload(p) => Plumbing(p) && Enabled(s.upload, p)
    case InDir(d) => SpawnPlumbing(d) && SpawnEnabled(s.dir, d)
    case Lookup(i) => At(e, s.check.workers, i) && s.check.workers[i].phase == Start
    case ToUpload(i) =>
      At(e, s.check.workers, i) && s.check.workers[i].phase == Forward && Enabled(s.upload, Send(s.check.workers[i].item))
    case CheckDone => Enabled(s.check, Final) && Enabled(s.upload, CloseInput)
    case PutFile(i) => At(e, s.upload.workers, i) && s.upload.workers[i].phase == Start
    case NoteCached(i) => At(e, s.upload.workers, i) && s.upload.workers[i].phase.Record?
    case ToDir(i) =>
      && At(e, s.upload.workers, i) && s.upload.workers[i].phase == Forward
      && SpawnEnabled(s.dir, SpawnSend(s.upload.workers[i].item))
    case UploadDone => Enabled(s.upload, Final) && SpawnEnabled(s.dir, SpawnClose)
    case Await(i) =>
      && At(e, s.dir.jobs, i) && s.dir.jobs[i].phase.Collect?
      && (var k, kids := |s.dir.jobs[i].phase.refs|, e.nodes[s.dir.jobs[i].item].children;
          k < |kids| && kids[k] in s.res)
    case PutDir(i) =>
      && At(e, s.dir.jobs, i) && s.dir.jobs[i].phase.Collect?
      && |s.dir.jobs[i].phase.refs| == |e.nodes[s.dir.jobs[i].item].children|
  }

  // A stat-cache worker finds the node in the cache; only files are looked up.
  predicate Hit(e: Env, s: State, n: nat) {
    n < |e.nodes| && e.statCache && !e.nodes[n].info.isDir && e.nodes[n].info in s.cache
  }

  function After(e: Env, s: State, a: Step): State
    requires StepEnabled(e, s, a)
  {
    match a
    case Emit => s.(todo := s.todo + 1, stattedc := s.stattedc + [s.todo])
    case CloseStatted => s.(stattedClosed := true)
    case SendRoot => s.(rootc := Buffered)
    case RecvStatted =>
      s.(stattedc := s.stattedc[1..], main := Deliver(s.stattedc[0]), total := Incr(e, s.total, s.stattedc[0]))
    case PassOn => s.(main := Select, check := Next(s.check, Send(s.main.n)))
    case RecvStattedClosed => s.(stattedNil := true, check := Next(s.check, CloseInput))
    case RecvRoot => s.(rootc := Taken)
    case RecvSkipped(i) =>
      var n := s.check.workers[i].item;
      s.(check := Next(s.check, Return(i)), skipped := Incr(e, s.skipped, n), skippedLog := s.skippedLog + [n])
    case RecvUploaded(i) =>
      var n := s.upload.workers[i].item;
      s.(upload := Next(s.upload, Return(i)), uploaded := Incr(e, s.uploaded, n), uploadedLog := s.uploadedLog + [n])
    case RecvDirUploaded(i) =>
      var n := s.dir.jobs[i].item;
      s.(dir := SpawnNext(s.dir, JobReturn(i)), uploaded := Incr(e, s.uploaded, n), uploadedLog := s.uploadedLog + [n])
    case Leave => s.(main := Left, dir := SpawnNext(s.dir, SpawnFinal))
    case InCheck(p) => s.(check := Next(s.check, p))
    case InUpload(p) => s.(upload := Next(s.upload, p))
    case InDir(d) => s.(dir := SpawnNext(s.dir, d))
    case Lookup(i) =>
      var n := s.check.workers[i].item;
      if Hit(e, s, n) then
        s.(check := Next(s.check, Work(i, Report)), res := s.res[n := s.cache[e.nodes[n].info]])
      else
        s.(check := Next(s.check, Work(i, Forward)))
    case ToUpload(i) =>
      s.(check := Next(s.check, Return(i)), upload := Next(s.upload, Send(s.check.workers[i].item)))
    case CheckDone => s.(check := Next(s.check, Final), upload := Next(s.upload, CloseInput))
    case PutFile(i) =>
      var n := s.upload.workers[i].item;
      if e.nodes[n].info.isDir then
        s.(upload := Next(s.upload, Work(i, Forward)))
      else
        var put := e.fileRef(e.nodes[n].info);
        s.(upload := Next(s.upload, Work(i, if e.statCache then Record(put) else Report)), res := s.res[n := put])
    case NoteCached(i) =>
      var n := s.upload.workers[i].item;
      s.(upload := Next(s.upload, Work(i, Report)),
         cache := s.cache[e.nodes[n].info := s.upload.workers[i].phase.put])
    case ToDir(i) =>
      s.(upload := Next(s.upload, Return(i)), dir := SpawnNext(s.dir, SpawnSend(s.upload.workers[i].item)))
    case UploadDone => s.(upload := Next(s.upload, Final), dir := SpawnNext(s.dir, SpawnClose))
    case Await(i) =>
      var job := s.dir.jobs[i];
      var ref := s.res[e.nodes[job.item].children[|job.phase.refs|]];
      s.(dir := SpawnNext(s.dir, JobWork(i, Collect(job.phase.refs + [ref]))))
    case PutDir(i) =>
      var job := s.dir.jobs[i];
      s.(dir := SpawnNext(s.dir, JobWork(i, Report)),
         res := s.res[job.item := e.dirRef(e.nodes[job.item].info, job.phase.refs)])
  }

  /** The node on which this step calls SetPutResult, if it does. */
  function SetsResult(e: Env, s: State, a: Step): seq<nat>
    requires StepEnabled(e, s, a)
  {
    match a
    case Lookup(i) => var n := s.check.workers[i].item; if Hit(e, s, n) then [n] else []
    case PutFile(i) => var n := s.upload.workers[i].item; if e.nodes[n].info.isDir then [] else [n]
    case PutDir(i) => [s.dir.jobs[i].item]
    case _ => []
  }

  ghost predicate RunOf(e: Env, s: State, steps: seq<Step>, t: State)
    decreases |steps|
  {
    if steps == [] then s == t
    else StepEnabled(e, s, steps[0]) && RunOf(e, After(e, s, steps[0]), steps[1..], t)
  }
}
