/** Progress of the tree upload: no reachable state is stuck, and a run whose loop has left
    has computed every result. */
module TreeUploadProgress {
  import opened ChanWorker
  import opened TreeUpload
  import opened TreeUploadSafety

  // ------------------------------------------------------------------ whole runs: safety

  lemma {:induction false} RunInv(e: Env, s: State, steps: seq<Step>, t: State)
    requires WellFormed(e) && Inv(e, s) && RunOf(e, s, steps, t)
    ensures Inv(e, t)
    decreases |steps|
  {
    if steps != [] {
      StepInv(e, s, steps[0]);
      RunInv(e, After(e, s, steps[0]), steps[1..], t);
    }
  }

  lemma {:induction false} ScannedOnce(k: nat, n: nat)
    ensures UpTo(k, OnlyOne(n)) == if n < k then 1 else 0
  {
    if k > 0 { ScannedOnce(k - 1, n); }
  }

  lemma {:induction false} TotalZero(s: seq<Item>, k: nat, x: Item)
    requires k < |s| && s[k] == x
    ensures Total(s, OnlyOne(x)) > 0
  {
    if k > 0 { TotalZero(s[1..], k - 1, x); }
  }

  // A node held anywhere has been scanned, so it is a node of this upload.
  lemma HeldIsScanned(s: State, n: nat)
    requires Conserved(s) && Fresh(s, OnlyOne(n)) + Settled(s, OnlyOne(n)) > 0
    ensures n < s.todo
  {
    ScannedOnce(s.todo, n);
  }

  lemma CheckHeld(s: State, i: nat)
    requires Conserved(s) && i < |s.check.workers| && s.check.workers[i].Busy?
    ensures s.check.workers[i].item < s.todo
  {
    BusyIsFreshOrSettled(s.check.workers, i);
    HeldIsScanned(s, s.check.workers[i].item);
  }

  lemma UploadHeld(s: State, i: nat)
    requires Conserved(s) && i < |s.upload.workers| && s.upload.workers[i].Busy?
    ensures s.upload.workers[i].item < s.todo
  {
    BusyIsFreshOrSettled(s.upload.workers, i);
    HeldIsScanned(s, s.upload.workers[i].item);
  }

  /** SetPutResult never finds a result already there: its panic is unreachable. */
  lemma NeverSetTwice(e: Env, s: State, a: Step)
    requires WellFormed(e) && Inv(e, s) && StepEnabled(e, s, a) && SetsResult(e, s, a) != []
    ensures SetsResult(e, s, a)[0] !in s.res
  {
    var n := SetsResult(e, s, a)[0];
    StepMoves(e, s, a, OnlyOne(n));
    ScannedOnce(s.todo, n);
    assert UpTo(s.todo, OnlyOne(n)) == Fresh(s, OnlyOne(n)) + Settled(s, OnlyOne(n));
  }

  /** At every state total = skipped + uploaded + in flight, in files and in bytes. */
  lemma StatsAddUp(e: Env, s: State)
    requires WellFormed(e) && Inv(e, s)
    ensures s.total.files == s.skipped.files + s.uploaded.files + InFlight(s, One())
    ensures s.total.bytes == s.skipped.bytes + s.uploaded.bytes + InFlight(s, SizeOf(e))
  {
    assert UpTo(s.todo, One()) == Fresh(s, One()) + Settled(s, One());
    assert UpTo(s.todo, SizeOf(e)) == Fresh(s, SizeOf(e)) + Settled(s, SizeOf(e));
  }

  // ------------------------------------------------------------------- the loop has left

  lemma PoolDrained(p: Pool<Phase>, g: Item -> nat)
    requires Valid(p) && p.finalCalled && p.workers != []
    ensures p.inputClosed && PoolFresh(p, g) == 0 && PoolSettled(p, g) == 0
  {
    ExitCountBound(p.workers);
    assert p.workers[0].Exited?;
    SumWitness(p.workers, FreshHeld(g));
    SumWitness(p.workers, SettledHeld(g));
  }

  lemma DirDrained(d: Spawner<Phase>, g: Item -> nat)
    requires SpawnValid(d) && d.finalCalled
    ensures d.inputClosed && DirFresh(d, g) == 0 && DirSettled(d, g) == 0
  {
    SumWitness(d.jobs, IsRunning);
    assert forall i :: 0 <= i < |d.jobs| ==> IsRunning(d.jobs[i]) == 0;
    SumWitness(d.jobs, FreshHeld(g));
    SumWitness(d.jobs, SettledHeld(g));
  }

  lemma AllDrained(e: Env, s: State, g: Item -> nat)
    requires WellFormed(e) && Inv(e, s) && s.main == Left
    ensures s.todo == |e.nodes| && Fresh(s, g) == 0 && Unreported(s, g) == 0
  {
    DirDrained(s.dir, g);
    PoolDrained(s.upload, g);
    PoolDrained(s.check, g);
  }

  /** When the loop exits, every node's result is set to the value of the bottom-up recursion
      and the statistics have nothing in flight. */
  lemma LeftMeansDone(e: Env, s: State)
    requires WellFormed(e) && Inv(e, s) && s.main == Left
    ensures forall n :: 0 <= n < |e.nodes| ==> n in s.res && s.res[n] == Spec(e, n)
    ensures s.total.files == s.skipped.files + s.uploaded.files == |e.nodes|
    ensures s.total.bytes == s.skipped.bytes + s.uploaded.bytes
  {
    StatsAddUp(e, s);
    AllDrained(e, s, One());
    AllDrained(e, s, SizeOf(e));
    UpToOne(s.todo);
    forall n | 0 <= n < |e.nodes| ensures n in s.res {
      AllDrained(e, s, OnlyOne(n));
      ScannedOnce(s.todo, n);
      assert UpTo(s.todo, OnlyOne(n)) == Fresh(s, OnlyOne(n)) + Settled(s, OnlyOne(n));
    }
  }

  lemma {:induction false} UpToOne(k: nat)
    ensures UpTo(k, One()) == k
  {
    if k > 0 { UpToOne(k - 1); }
  }

  /** No goroutine ever sends on a closed channel or closes one twice. */
  lemma ChannelsStaySafe(e: Env, s: State)
    requires WellFormed(e) && Inv(e, s)
    ensures s.todo < |e.nodes| ==> !s.stattedClosed
    ensures s.main.Deliver? || (s.stattedc == [] && s.stattedClosed && !s.stattedNil) ==> !s.check.inputClosed
    ensures forall i :: 0 <= i < |s.check.workers| && s.check.workers[i].Busy? ==> !s.upload.inputClosed
    ensures Enabled(s.check, Final) ==> !s.upload.inputClosed
    ensures forall i :: 0 <= i < |s.upload.workers| && s.upload.workers[i].Busy? ==> !s.dir.inputClosed
    ensures Enabled(s.upload, Final) ==> !s.dir.inputClosed
  {
    ExitCountBound(s.check.workers);
    ExitCountBound(s.upload.workers);
  }

  // ------------------------------------------------------------------------- no deadlock

  // A pool whose input is closed and in which no call is running can always move on.
  lemma QuietPoolMoves(p: Pool<Phase>) returns (a: Action<Phase>)
    requires Valid(p) && p.workers != [] && p.inputClosed && !p.finalCalled
    requires forall i :: 0 <= i < |p.workers| ==> !p.workers[i].Busy?
    ensures Enabled(p, a) && (Plumbing(a) || a == Final)
  {
    if p.input != [] {
      a := PumpRecv;
    } else if !p.incNil {
      a := PumpSeeClosed;
    } else if p.workc != [] {
      assert p.workers[0].Idle?;
      a := Take(0, Start);
    } else if p.buf != [] {
      a := PumpSend;
    } else if !p.pumpDone {
      a := PumpExit;
    } else {
      ExitCountBound(p.workers);
      if p.doneSignals == |p.workers| {
        a := Final;
      } else {
        var i :| 0 <= i < |p.workers| && !p.workers[i].Exited?;
        a := WorkerExit(i);
      }
    }
  }

  // A pool open for sending either has room or its pump can make some.
  lemma PumpMakesRoom(p: Pool<Phase>, x: Item)
    requires Valid(p) && !p.inputClosed
    ensures Enabled(p, Send(x)) || Enabled(p, PumpRecv)
  {
  }

  lemma BusyIsFreshOrSettled(ws: seq<Worker<Phase>>, i: nat)
    requires i < |ws| && ws[i].Busy?
    ensures Sum(ws, FreshHeld(OnlyOne(ws[i].item))) + Sum(ws, SettledHeld(OnlyOne(ws[i].item))) > 0
  {
    SumUpdate(ws, FreshHeld(OnlyOne(ws[i].item)), i, ws[i]);
    SumUpdate(ws, SettledHeld(OnlyOne(ws[i].item)), i, ws[i]);
  }

  lemma CheckCallMoves(e: Env, s: State, i: nat) returns (a: Step)
    requires WellFormed(e) && Wiring(e, s) && s.main == Select && Valid(s.upload) && !s.upload.inputClosed
    requires At(e, s.check.workers, i) && CheckCall(s.check.workers[i])
    ensures StepEnabled(e, s, a) && !a.SendRoot? && !a.RecvRoot?
  {
    var w := s.check.workers[i];
    if w.phase == Start {
      a := Lookup(i);
    } else if w.phase == Report {
      a := RecvSkipped(i);
    } else {
      PumpMakesRoom(s.upload, w.item);
      a := if Enabled(s.upload, Send(w.item)) then ToUpload(i) else InUpload(PumpRecv);
    }
  }

  lemma CheckMoves(e: Env, s: State) returns (a: Step)
    requires WellFormed(e) && Inv(e, s) && s.main == Select && s.check.inputClosed && !s.check.finalCalled
    ensures StepEnabled(e, s, a) && !a.SendRoot? && !a.RecvRoot?
  {
    if i :| 0 <= i < |s.check.workers| && s.check.workers[i].Busy? {
      CheckHeld(s, i);
      a := CheckCallMoves(e, s, i);
    } else {
      var p := QuietPoolMoves(s.check);
      a := if p == Final then CheckDone else InCheck(p);
    }
  }

  lemma UploadCallMoves(e: Env, s: State, i: nat) returns (a: Step)
    requires WellFormed(e) && Wiring(e, s) && s.main == Select && SpawnValid(s.dir) && !s.dir.inputClosed
    requires At(e, s.upload.workers, i) && UploadCall(e, s.upload.workers[i])
    ensures StepEnabled(e, s, a) && !a.SendRoot? && !a.RecvRoot?
  {
    var w := s.upload.workers[i];
    if w.phase == Start {
      a := PutFile(i);
    } else if w.phase == Report {
      a := RecvUploaded(i);
    } else if w.phase.Record? {
      a := NoteCached(i);
    } else {
      a := if |s.dir.input| < BUFFERED then ToDir(i) else InDir(Spawn(Collect([])));
    }
  }

  lemma UploadMoves(e: Env, s: State) returns (a: Step)
    requires WellFormed(e) && Inv(e, s) && s.main == Select && s.upload.inputClosed && !s.upload.finalCalled
    ensures StepEnabled(e, s, a) && !a.SendRoot? && !a.RecvRoot?
  {
    if i :| 0 <= i < |s.upload.workers| && s.upload.workers[i].Busy? {
      UploadHeld(s, i);
      a := UploadCallMoves(e, s, i);
    } else {
      var p := QuietPoolMoves(s.upload);
      a := if p == Final then UploadDone else InUpload(p);
    }
  }

  // The least node on which a directory goroutine is at work.
  lemma {:induction false} LeastJob(ws: seq<Worker<Phase>>) returns (i: nat)
    requires exists k :: 0 <= k < |ws| && ws[k].Busy?
    ensures i < |ws| && ws[i].Busy?
    ensures forall k :: 0 <= k < |ws| && ws[k].Busy? ==> ws[i].item <= ws[k].item
  {
    var last := |ws| - 1;
    if k :| 0 <= k < last && ws[k].Busy? {
      assert ws[..last][k] == ws[k];
      i := LeastJob(ws[..last]);
      assert forall j :: 0 <= j < last ==> ws[..last][j] == ws[j];
      if ws[last].Busy? && ws[last].item < ws[i].item {
        i := last;
      }
    } else {
      i := last;
    }
  }

  // With everything else drained, a node without a result is with a directory goroutine
  // that is still collecting.
  lemma WaitingJob(e: Env, s: State, n: nat)
    requires WellFormed(e) && Inv(e, s) && s.main == Select && s.upload.finalCalled && s.dir.input == []
    requires n < |e.nodes| && n !in s.res
    ensures exists k :: 0 <= k < |s.dir.jobs| && s.dir.jobs[k].Busy? && s.dir.jobs[k].item == n
  {
    var g := OnlyOne(n);
    PoolDrained(s.upload, g);
    PoolDrained(s.check, g);
    ScannedOnce(s.todo, n);
    assert UpTo(s.todo, g) == Fresh(s, g) + Settled(s, g);
    assert Sum(s.dir.jobs, FreshHeld(g)) > 0;
    SumWitness(s.dir.jobs, FreshHeld(g));
    var k :| 0 <= k < |s.dir.jobs| && FreshHeld(g)(s.dir.jobs[k]) != 0;
    assert s.dir.jobs[k].Busy?;
  }

  lemma DirectoriesMove(e: Env, s: State) returns (a: Step)
    requires WellFormed(e) && Inv(e, s) && s.main == Select && s.upload.finalCalled && !s.dir.finalCalled
    ensures StepEnabled(e, s, a) && !a.SendRoot? && !a.RecvRoot?
  {
    if s.dir.input == [] && s.dir.ranged && s.dir.wg > 0 {
      var i := RunningLeast(s);
      a := LeastJobMoves(e, s, i);
    } else {
      a := SpawnerMoves(e, s);
    }
  }

  // The loop of the unbounded pool goes on while it can.
  lemma SpawnerMoves(e: Env, s: State) returns (a: Step)
    requires Wiring(e, s) && s.main == Select && s.upload.finalCalled && !s.dir.finalCalled
    requires s.dir.input != [] || !s.dir.ranged || s.dir.wg == 0
    requires s.dir.ranged ==> s.dir.input == []
    ensures StepEnabled(e, s, a) && !a.SendRoot? && !a.RecvRoot?
  {
    if s.dir.input != [] {
      a := InDir(Spawn(Collect([])));
    } else if !s.dir.ranged {
      a := InDir(RangeEnd);
    } else {
      a := Leave;
    }
  }

  lemma RunningLeast(s: State) returns (i: nat)
    requires SpawnValid(s.dir) && s.dir.wg > 0
    ensures i < |s.dir.jobs| && s.dir.jobs[i].Busy?
    ensures forall k :: 0 <= k < |s.dir.jobs| && s.dir.jobs[k].Busy? ==> s.dir.jobs[i].item <= s.dir.jobs[k].item
  {
    SumWitness(s.dir.jobs, IsRunning);
    var k :| 0 <= k < |s.dir.jobs| && IsRunning(s.dir.jobs[k]) != 0;
    assert s.dir.jobs[k].Busy?;
    i := LeastJob(s.dir.jobs);
  }

  // Directories wait only for nodes scanned before them, so the least one cannot be stuck.
  lemma LeastJobMoves(e: Env, s: State, i: nat) returns (a: Step)
    requires WellFormed(e) && Inv(e, s) && s.main == Select && s.upload.finalCalled && s.dir.input == [] && s.dir.wg > 0
    requires i < |s.dir.jobs| && s.dir.jobs[i].Busy?
    requires forall k :: 0 <= k < |s.dir.jobs| && s.dir.jobs[k].Busy? ==> s.dir.jobs[i].item <= s.dir.jobs[k].item
    ensures StepEnabled(e, s, a) && !a.SendRoot? && !a.RecvRoot?
  {
    var w := s.dir.jobs[i];
    assert DirCall(e, w);
    if w.phase == Report {
      a := RecvDirUploaded(i);
    } else if |w.phase.refs| == |e.nodes[w.item].children| {
      a := PutDir(i);
    } else {
      var child := e.nodes[w.item].children[|w.phase.refs|];
      if child !in s.res {
        WaitingJob(e, s, child);
        assert false;
      }
      a := Await(i);
    }
  }

  /** No reachable state before the loop's exit is stuck. */
  lemma NeverStuck(e: Env, s: State) returns (a: Step)
    requires WellFormed(e) && Inv(e, s) && s.main != Left
    ensures StepEnabled(e, s, a) && !a.SendRoot? && !a.RecvRoot?
  {
    if s.main.Deliver? || s.stattedc != [] || !s.stattedNil {
      a := ScanGoesOn(e, s);
    } else if !s.check.finalCalled {
      a := CheckMoves(e, s);
    } else if !s.upload.finalCalled {
      a := UploadMoves(e, s);
    } else {
      a := DirectoriesMove(e, s);
    }
  }

  // Scanner and main loop go on until the channel between them is drained and closed.
  lemma ScanGoesOn(e: Env, s: State) returns (a: Step)
    requires WellFormed(e) && Inv(e, s) && s.main != Left && (s.main.Deliver? || s.stattedc != [] || !s.stattedNil)
    ensures StepEnabled(e, s, a) && !a.SendRoot? && !a.RecvRoot?
  {
    if s.main.Deliver? {
      PumpMakesRoom(s.check, s.main.n);
      a := if Enabled(s.check, Send(s.main.n)) then PassOn else InCheck(PumpRecv);
    } else if s.stattedc != [] {
      TotalZero(s.stattedc, 0, s.stattedc[0]);
      HeldIsScanned(s, s.stattedc[0]);
      a := RecvStatted;
    } else if s.todo < |e.nodes| {
      a := Emit;
    } else if !s.stattedClosed {
      a := CloseStatted;
    } else {
      a := RecvStattedClosed;
    }
  }
}
