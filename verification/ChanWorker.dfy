/** The worker pools of internal/chanworker as labelled transition systems.

    A step of a pool is one thing one goroutine does: the pump moving an item, a worker
    taking one, the user's `fn` returning.  `fn` itself is opaque to the pool, so a busy
    worker carries a phase of a caller-chosen type that says how far its call has got. */
module ChanWorker {

  // Capacity of the channel handed to the caller and of the one the workers read.
  const BUFFERED: nat := 16

  // Items are opaque to a pool.
  type Item = nat

  datatype Worker<P> =
    | Idle
    | Busy(item: Item, phase: P)
    | Exited

  // ------------------------------------------------------------------------- weights

  /** What a conserved quantity is worth: `g` gives each item a weight, and a law that
      holds for every `g` is a law about multisets of items.  With OnlyOne(x) it counts the
      occurrences of `x`; with sizes it counts bytes. */
  ghost function Total(s: seq<Item>, g: Item -> nat): nat {
    if s == [] then 0 else g(s[0]) + Total(s[1..], g)
  }

  ghost function OnlyOne(x: Item): Item -> nat {
    y => if y == x then 1 else 0
  }

  lemma {:induction false} TotalAppend(s: seq<Item>, x: Item, g: Item -> nat)
    ensures Total(s + [x], g) == Total(s, g) + g(x)
  {
    if s == [] {
      assert ([] + [x])[1..] == [];
    } else {
      assert (s + [x])[1..] == s[1..] + [x];
      TotalAppend(s[1..], x, g);
    }
  }

  lemma {:induction false} TotalOccurs(s: seq<Item>, x: Item)
    ensures Total(s, OnlyOne(x)) == multiset(s)[x]
  {
    if s != [] {
      TotalOccurs(s[1..], x);
      assert s == [s[0]] + s[1..];
    }
  }

  ghost function Sum<P(!new)>(ws: seq<Worker<P>>, f: Worker<P> -> nat): nat {
    if ws == [] then 0 else f(ws[0]) + Sum(ws[1..], f)
  }

  lemma {:induction false} SumUpdate<P(!new)>(ws: seq<Worker<P>>, f: Worker<P> -> nat, i: nat, w: Worker<P>)
    requires i < |ws|
    ensures Sum(ws[i := w], f) + f(ws[i]) == Sum(ws, f) + f(w)
    ensures f(ws[i]) <= Sum(ws, f)
  {
    if i == 0 {
      assert ws[0 := w][1..] == ws[1..];
    } else {
      assert ws[i := w][1..] == ws[1..][i - 1 := w];
      SumUpdate(ws[1..], f, i - 1, w);
    }
  }

  lemma {:induction false} SumAppend<P(!new)>(ws: seq<Worker<P>>, f: Worker<P> -> nat, w: Worker<P>)
    ensures Sum(ws + [w], f) == Sum(ws, f) + f(w)
  {
    if ws == [] {
      assert ([] + [w])[1..] == [];
    } else {
      assert (ws + [w])[1..] == ws[1..] + [w];
      SumAppend(ws[1..], f, w);
    }
  }

  // A positive sum has a positive contributor.
  lemma {:induction false} SumWitness<P(!new)>(ws: seq<Worker<P>>, f: Worker<P> -> nat)
    ensures Sum(ws, f) == 0 <==> forall i :: 0 <= i < |ws| ==> f(ws[i]) == 0
  {
    if ws != [] {
      SumWitness(ws[1..], f);
      assert forall i :: 0 < i < |ws| ==> ws[i] == ws[1..][i - 1];
      assert (forall i :: 0 <= i < |ws| ==> f(ws[i]) == 0) ==>
               forall i :: 0 <= i < |ws[1..]| ==> f(ws[1..][i]) == 0;
    }
  }

  // The weight of the item a worker is calling `fn` on.
  ghost function Held<P(!new)>(g: Item -> nat): Worker<P> -> nat {
    (w: Worker<P>) => if w.Busy? then g(w.item) else 0
  }

  ghost function HasExited<P(!new)>(w: Worker<P>): nat {
    if w.Exited? then 1 else 0
  }

  ghost function IsRunning<P(!new)>(w: Worker<P>): nat {
    if w.Busy? then 1 else 0
  }

  lemma {:induction false} ExitCountBound<P(!new)>(ws: seq<Worker<P>>)
    ensures Sum(ws, HasExited) <= |ws|
    ensures Sum(ws, HasExited) == |ws| <==> forall i :: 0 <= i < |ws| ==> ws[i].Exited?
  {
    if ws != [] {
      ExitCountBound(ws[1..]);
      assert forall i :: 0 < i < |ws| ==> ws[i] == ws[1..][i - 1];
      assert (forall i :: 0 <= i < |ws| ==> ws[i].Exited?) ==> forall i :: 0 <= i < |ws[1..]| ==> ws[1..][i].Exited?;
    }
  }

  // ------------------------------------------------------------------- bounded pools

  /** The state of a pool of `|workers|` workers.

      `input` is the channel returned to the caller, `workc` the one between pump and
      workers.  `incNil` is the pump's `inc == nil`; `pumpDone` says it has left its loop.
      `doneSignals` counts what the collector has received on `donec`.  `sent`, `handed`
      and `returned` are histories: items sent by the caller, items received by workers
      (each the start of one `fn(x, true)`), and items whose call has returned. */
  datatype Pool<P> = Pool(
    input: seq<Item>, inputClosed: bool,
    incNil: bool, buf: seq<Item>, pumpDone: bool,
    workc: seq<Item>, workcClosed: bool,
    workers: seq<Worker<P>>,
    doneSignals: nat, finalCalled: bool,
    sent: seq<Item>, handed: seq<Item>, returned: seq<Item>)

  datatype Action<P> =
    | Send(x: Item)
    | CloseInput
    | PumpRecv
    | PumpSeeClosed
    | PumpSend
    | PumpExit
    | Take(i: nat, start: P)
    | Work(i: nat, phase: P)
    | Return(i: nat)
    | WorkerExit(i: nat)
    | Final

  function NewPool<P>(nWorkers: nat): Pool<P> {
    Pool([], false, false, [], false, [], false, seq(nWorkers, _ => Idle), 0, false, [], [], [])
  }

  // Send and CloseInput are the caller's; Work and Return are the caller's `fn`.
  predicate Enabled<P(==)>(p: Pool<P>, a: Action<P>) {
    match a
    case Send(_) => !p.inputClosed && |p.input| < BUFFERED
    case CloseInput => !p.inputClosed
    case PumpRecv => !p.pumpDone && !p.incNil && p.input != []
    case PumpSeeClosed => !p.pumpDone && !p.incNil && p.input == [] && p.inputClosed
    case PumpSend => !p.pumpDone && p.buf != [] && |p.workc| < BUFFERED
    case PumpExit => !p.pumpDone && p.incNil && p.buf == []
    case Take(i, _) => i < |p.workers| && p.workers[i].Idle? && p.workc != []
    case Work(i, _) => i < |p.workers| && p.workers[i].Busy?
    case Return(i) => i < |p.workers| && p.workers[i].Busy?
    case WorkerExit(i) => i < |p.workers| && p.workers[i].Idle? && p.workc == [] && p.workcClosed
    case Final => p.doneSignals == |p.workers| && !p.finalCalled
  }

  function Next<P(==)>(p: Pool<P>, a: Action<P>): Pool<P>
    requires Enabled(p, a)
  {
    match a
    case Send(x) => p.(input := p.input + [x], sent := p.sent + [x])
    case CloseInput => p.(inputClosed := true)
    case PumpRecv => p.(input := p.input[1..], buf := p.buf + [p.input[0]])
    case PumpSeeClosed => p.(incNil := true)
    case PumpSend => p.(buf := p.buf[1..], workc := p.workc + [p.buf[0]])
    case PumpExit => p.(pumpDone := true, workcClosed := true)
    case Take(i, start) =>
      p.(workc := p.workc[1..], handed := p.handed + [p.workc[0]],
         workers := p.workers[i := Busy(p.workc[0], start)])
    case Work(i, phase) => p.(workers := p.workers[i := Busy(p.workers[i].item, phase)])
    case Return(i) => p.(workers := p.workers[i := Idle], returned := p.returned + [p.workers[i].item])
    case WorkerExit(i) => p.(workers := p.workers[i := Exited], doneSignals := p.doneSignals + 1)
    case Final => p.(finalCalled := true)
  }

  // Nothing is lost, duplicated or reordered on the way to the workers.
  ghost predicate Flow<P(!new)>(p: Pool<P>) {
    && |p.input| <= BUFFERED && |p.workc| <= BUFFERED
    && p.sent == p.handed + p.workc + p.buf + p.input
  }

  // Every item handed to a worker is in a call or its call has returned, once.
  ghost predicate Calls<P(!new)>(p: Pool<P>) {
    forall g: Item -> nat :: CallsOf(p, g)
  }

  // The pump stops only when its input is drained and closes workc exactly then; workers
  // leave only when there is nothing left to take; the final call waits for all of them.
  ghost predicate Control<P(!new)>(p: Pool<P>) {
    && (p.incNil ==> p.inputClosed && p.input == [])
    && (p.pumpDone ==> p.incNil && p.buf == [])
    && (p.workcClosed <==> p.pumpDone)
    && (forall i :: 0 <= i < |p.workers| && p.workers[i].Exited? ==> p.workcClosed && p.workc == [])
    && p.doneSignals == Sum(p.workers, HasExited)
    && (p.finalCalled ==> p.doneSignals == |p.workers|)
  }

  ghost predicate Valid<P(!new)>(p: Pool<P>) {
    Flow(p) && Calls(p) && Control(p)
  }

  lemma AllIdle<P(!new)>(ws: seq<Worker<P>>)
    requires forall i :: 0 <= i < |ws| ==> ws[i].Idle?
    ensures Sum(ws, HasExited) == 0
    ensures forall g: Item -> nat :: Sum(ws, Held(g)) == 0
  {
    SumWitness(ws, HasExited);
    forall g: Item -> nat ensures Sum(ws, Held(g)) == 0 {
      SumWitness(ws, Held(g));
    }
  }

  lemma NewPoolValid<P(!new)>(nWorkers: nat)
    requires nWorkers > 0
    ensures Valid(NewPool<P>(nWorkers))
  {
    AllIdle(NewPool<P>(nWorkers).workers);
  }

  lemma Shift(h: seq<Item>, m: seq<Item>, t: seq<Item>)
    requires t != []
    ensures h + (m + [t[0]]) + t[1..] == h + m + t
  {
  }

  lemma FlowIn<P(!new)>(p: Pool<P>, a: Action<P>)
    requires Flow(p) && Enabled(p, a) && (a.Send? || a.PumpRecv?)
    ensures Flow(Next(p, a))
  {
    if a.PumpRecv? {
      Shift(p.handed + p.workc, p.buf, p.input);
    } else {
      assert p.handed + p.workc + p.buf + (p.input + [a.x]) == (p.handed + p.workc + p.buf + p.input) + [a.x];
    }
  }

  lemma FlowOut<P(!new)>(p: Pool<P>, a: Action<P>)
    requires Flow(p) && Enabled(p, a) && (a.PumpSend? || a.Take?)
    ensures Flow(Next(p, a))
  {
    if a.PumpSend? {
      Shift(p.handed, p.workc, p.buf);
    } else {
      assert (p.handed + [p.workc[0]]) + p.workc[1..] == p.handed + p.workc;
    }
  }

  lemma StepFlow<P(!new)>(p: Pool<P>, a: Action<P>)
    requires Flow(p) && Enabled(p, a)
    ensures Flow(Next(p, a))
  {
    if a.Send? || a.PumpRecv? {
      FlowIn(p, a);
    } else if a.PumpSend? || a.Take? {
      FlowOut(p, a);
    }
  }

  ghost predicate CallsOf<P(!new)>(p: Pool<P>, g: Item -> nat) {
    Total(p.handed, g) == Total(p.returned, g) + Sum(p.workers, Held(g))
  }

  lemma TakeCalls<P(!new)>(p: Pool<P>, i: nat, start: P, g: Item -> nat)
    requires Enabled(p, Take(i, start)) && CallsOf(p, g)
    ensures CallsOf(Next(p, Take(i, start)), g)
  {
    SumUpdate(p.workers, Held(g), i, Busy(p.workc[0], start));
    TotalAppend(p.handed, p.workc[0], g);
  }

  lemma ReturnCalls<P(!new)>(p: Pool<P>, i: nat, g: Item -> nat)
    requires Enabled(p, Return(i)) && CallsOf(p, g)
    ensures CallsOf(Next(p, Return(i)), g)
  {
    SumUpdate(p.workers, Held(g), i, Idle);
    TotalAppend(p.returned, p.workers[i].item, g);
  }

  lemma OtherCalls<P(!new)>(p: Pool<P>, a: Action<P>, g: Item -> nat)
    requires Enabled(p, a) && !a.Take? && !a.Return? && CallsOf(p, g)
    ensures CallsOf(Next(p, a), g)
  {
    if a.Work? || a.WorkerExit? {
      SumUpdate(p.workers, Held(g), a.i, Next(p, a).workers[a.i]);
    }
  }

  lemma StepCalls<P(!new)>(p: Pool<P>, a: Action<P>)
    requires Calls(p) && Enabled(p, a)
    ensures Calls(Next(p, a))
  {
    forall g: Item -> nat ensures CallsOf(Next(p, a), g) {
      if a.Take? {
        TakeCalls(p, a.i, a.start, g);
      } else if a.Return? {
        ReturnCalls(p, a.i, g);
      } else {
        OtherCalls(p, a, g);
      }
    }
  }

  lemma StepControl<P(!new)>(p: Pool<P>, a: Action<P>)
    requires Control(p) && Enabled(p, a)
    ensures Control(Next(p, a))
  {
    var q := Next(p, a);
    if a.Take? || a.Work? || a.Return? || a.WorkerExit? {
      SumUpdate(p.workers, HasExited, a.i, q.workers[a.i]);
      ExitCountBound(p.workers);
      ExitCountBound(q.workers);
    }
  }

  lemma StepValid<P(!new)>(p: Pool<P>, a: Action<P>)
    requires Valid(p) && Enabled(p, a)
    ensures Valid(Next(p, a))
  {
    StepFlow(p, a);
    StepCalls(p, a);
    StepControl(p, a);
  }

  ghost predicate Run<P(!new)>(p: Pool<P>, acts: seq<Action<P>>, q: Pool<P>)
    decreases |acts|
  {
    if acts == [] then p == q
    else Enabled(p, acts[0]) && Run(Next(p, acts[0]), acts[1..], q)
  }

  lemma {:induction false} RunValid<P(!new)>(p: Pool<P>, acts: seq<Action<P>>, q: Pool<P>)
    requires Valid(p) && Run(p, acts, q)
    ensures Valid(q) && |q.workers| == |p.workers|
    decreases |acts|
  {
    if acts != [] {
      StepValid(p, acts[0]);
      RunValid(Next(p, acts[0]), acts[1..], q);
    }
  }

  /** In every reachable state the calls so far were started in send order, one per item,
      and the final `fn(nil, false)` comes only after every item sent has had its call
      return and no call is in progress. */
  lemma ExactlyOnce<P(!new)>(nWorkers: nat, acts: seq<Action<P>>, q: Pool<P>)
    requires nWorkers > 0
    requires Run(NewPool<P>(nWorkers), acts, q)
    ensures q.handed <= q.sent
    ensures forall g: Item -> nat :: CallsOf(q, g)
    ensures q.finalCalled ==> q.inputClosed && q.handed == q.sent && multiset(q.returned) == multiset(q.sent)
    ensures q.finalCalled ==> forall i :: 0 <= i < |q.workers| ==> q.workers[i].Exited?
    ensures q.pumpDone ==> !Enabled(q, PumpSend) && !Enabled(q, PumpRecv)
  {
    NewPoolValid<P>(nWorkers);
    RunValid(NewPool<P>(nWorkers), acts, q);
    ExitCountBound(q.workers);
    assert q.handed <= q.sent by {
      assert q.sent == q.handed + (q.workc + q.buf + q.input);
    }
    if q.finalCalled {
      assert q.workers[0].Exited?;
      assert q.sent == q.handed;
      assert forall g: Item -> nat :: CallsOf(q, g) ==> Total(q.handed, g) == Total(q.returned, g) + Sum(q.workers, Held(g));
      SameItems(q.sent, q.returned, q.workers);
    }
  }

  lemma SameItems<P(!new)>(handed: seq<Item>, returned: seq<Item>, ws: seq<Worker<P>>)
    requires forall g: Item -> nat :: Total(handed, g) == Total(returned, g) + Sum(ws, Held(g))
    requires forall i :: 0 <= i < |ws| ==> !ws[i].Busy?
    ensures multiset(handed) == multiset(returned)
  {
    forall x: Item ensures multiset(handed)[x] == multiset(returned)[x] {
      TotalOccurs(handed, x);
      TotalOccurs(returned, x);
      SumWitness(ws, Held(OnlyOne(x)));
    }
  }

  /** With one worker, calls do not overlap and return in send order. */
  lemma {:induction false} SingleWorkerOrder<P(!new)>(p: Pool<P>, acts: seq<Action<P>>, q: Pool<P>)
    requires |p.workers| == 1 && InOrder(p) && Run(p, acts, q)
    ensures InOrder(q)
    decreases |acts|
  {
    if acts != [] {
      StepInOrder(p, acts[0]);
      SingleWorkerOrder(Next(p, acts[0]), acts[1..], q);
    }
  }

  lemma StepInOrder<P(!new)>(p: Pool<P>, a: Action<P>)
    requires InOrder(p) && Enabled(p, a)
    ensures InOrder(Next(p, a))
  {
    if a.Take? {
      assert p.returned + [] == p.returned;
    }
  }

  ghost predicate InOrder<P(!new)>(p: Pool<P>) {
    |p.workers| == 1 && p.handed == p.returned + if p.workers[0].Busy? then [p.workers[0].item] else []
  }

  // ----------------------------------------------------------------- unbounded pools

  /** The pool made for a negative worker count: one goroutine per item received.
      A goroutine that has called `wg.Done` is Exited; `ranged` says the receiving loop
      has seen its channel closed. */
  datatype Spawner<P> = Spawner(
    input: seq<Item>, inputClosed: bool,
    wg: nat, jobs: seq<Worker<P>>,
    ranged: bool, finalCalled: bool,
    sent: seq<Item>, handed: seq<Item>, returned: seq<Item>)

  datatype SpawnAction<P> =
    | SpawnSend(x: Item)
    | SpawnClose
    | Spawn(start: P)
    | JobWork(i: nat, phase: P)
    | JobReturn(i: nat)
    | RangeEnd
    | SpawnFinal

  function NewSpawner<P>(): Spawner<P> {
    Spawner([], false, 0, [], false, false, [], [], [])
  }

  predicate SpawnEnabled<P(==)>(p: Spawner<P>, a: SpawnAction<P>) {
    match a
    case SpawnSend(_) => !p.inputClosed && |p.input| < BUFFERED
    case SpawnClose => !p.inputClosed
    case Spawn(_) => !p.ranged && p.input != []
    case JobWork(i, _) => i < |p.jobs| && p.jobs[i].Busy?
    case JobReturn(i) => i < |p.jobs| && p.jobs[i].Busy? && p.wg > 0
    case RangeEnd => !p.ranged && p.input == [] && p.inputClosed
    case SpawnFinal => p.ranged && p.wg == 0 && !p.finalCalled
  }

  function SpawnNext<P(==)>(p: Spawner<P>, a: SpawnAction<P>): Spawner<P>
    requires SpawnEnabled(p, a)
  {
    match a
    case SpawnSend(x) => p.(input := p.input + [x], sent := p.sent + [x])
    case SpawnClose => p.(inputClosed := true)
    case Spawn(start) =>
      p.(input := p.input[1..], handed := p.handed + [p.input[0]],
         wg := p.wg + 1, jobs := p.jobs + [Busy(p.input[0], start)])
    case JobWork(i, phase) => p.(jobs := p.jobs[i := Busy(p.jobs[i].item, phase)])
    case JobReturn(i) =>
      p.(jobs := p.jobs[i := Exited], wg := p.wg - 1, returned := p.returned + [p.jobs[i].item])
    case RangeEnd => p.(ranged := true)
    case SpawnFinal => p.(finalCalled := true)
  }

  ghost predicate SpawnValid<P(!new)>(p: Spawner<P>) {
    && |p.input| <= BUFFERED
    && p.sent == p.handed + p.input
    && (forall g: Item -> nat :: Total(p.handed, g) == Total(p.returned, g) + Sum(p.jobs, Held(g)))
    && p.wg == Sum(p.jobs, IsRunning)
    && (p.ranged ==> p.inputClosed && p.input == [])
    && (p.finalCalled ==> p.ranged && p.wg == 0)
  }

  lemma SpawnStepCalls<P(!new)>(p: Spawner<P>, a: SpawnAction<P>, g: Item -> nat)
    requires SpawnEnabled(p, a)
    requires Total(p.handed, g) == Total(p.returned, g) + Sum(p.jobs, Held(g))
    ensures var q := SpawnNext(p, a);
            Total(q.handed, g) == Total(q.returned, g) + Sum(q.jobs, Held(g))
  {
    var q := SpawnNext(p, a);
    match a
    case Spawn(start) =>
      SumAppend(p.jobs, Held(g), Busy(p.input[0], start));
      TotalAppend(p.handed, p.input[0], g);
    case JobWork(i, phase) =>
      SumUpdate(p.jobs, Held(g), i, q.jobs[i]);
    case JobReturn(i) =>
      SumUpdate(p.jobs, Held(g), i, q.jobs[i]);
      TotalAppend(p.returned, p.jobs[i].item, g);
    case _ =>
  }

  lemma SpawnStepValid<P(!new)>(p: Spawner<P>, a: SpawnAction<P>)
    requires SpawnValid(p) && SpawnEnabled(p, a)
    ensures SpawnValid(SpawnNext(p, a))
  {
    var q := SpawnNext(p, a);
    forall g: Item -> nat ensures Total(q.handed, g) == Total(q.returned, g) + Sum(q.jobs, Held(g)) {
      SpawnStepCalls(p, a, g);
    }
    match a
    case SpawnSend(x) =>
      assert q.sent == q.handed + q.input;
    case Spawn(start) =>
      assert p.input == [p.input[0]] + p.input[1..];
      assert q.sent == q.handed + q.input;
      SumAppend(p.jobs, IsRunning, Busy(p.input[0], start));
    case JobWork(i, phase) =>
      SumUpdate(p.jobs, IsRunning, i, q.jobs[i]);
    case JobReturn(i) =>
      SumUpdate(p.jobs, IsRunning, i, q.jobs[i]);
    case _ =>
  }

  ghost predicate SpawnRun<P(!new)>(p: Spawner<P>, acts: seq<SpawnAction<P>>, q: Spawner<P>)
    decreases |acts|
  {
    if acts == [] then p == q
    else SpawnEnabled(p, acts[0]) && SpawnRun(SpawnNext(p, acts[0]), acts[1..], q)
  }

  lemma {:induction false} SpawnRunValid<P(!new)>(p: Spawner<P>, acts: seq<SpawnAction<P>>, q: Spawner<P>)
    requires SpawnValid(p) && SpawnRun(p, acts, q)
    ensures SpawnValid(q)
    decreases |acts|
  {
    if acts != [] {
      SpawnStepValid(p, acts[0]);
      SpawnRunValid(SpawnNext(p, acts[0]), acts[1..], q);
    }
  }

  /** As ExactlyOnce, for the unbounded pool: the wait group reaches zero after the loop
      only when every call has returned, so the final call is last. */
  lemma SpawnExactlyOnce<P(!new)>(acts: seq<SpawnAction<P>>, q: Spawner<P>)
    requires SpawnRun(NewSpawner<P>(), acts, q)
    ensures q.handed <= q.sent
    ensures forall g: Item -> nat :: Total(q.handed, g) == Total(q.returned, g) + Sum(q.jobs, Held(g))
    ensures q.finalCalled ==> q.inputClosed && q.handed == q.sent && multiset(q.returned) == multiset(q.sent)
    ensures q.finalCalled ==> forall i :: 0 <= i < |q.jobs| ==> !q.jobs[i].Busy?
  {
    SpawnRunValid(NewSpawner<P>(), acts, q);
    SumWitness(q.jobs, IsRunning);
    if q.finalCalled {
      assert forall i :: 0 <= i < |q.jobs| ==> IsRunning(q.jobs[i]) == 0;
      assert q.sent == q.handed;
      SameItems(q.sent, q.returned, q.jobs);
    }
  }
}
