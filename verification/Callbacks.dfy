/** jQuery.Callbacks (app/publisher/jquery.js): a callback list that may be added to, removed
    from and fired again by the callbacks it is running.

    What user callbacks do is given by a script: the n-th callback to run performs the n-th
    reply's operations on the list and may return false.  Scripts are arbitrary, so results
    for every script are results for every behaviour of the callbacks, deterministic or not. */
module Callbacks {
  import opened Wrappers

  type Fn = nat      // identity of a function
  type Args = nat    // context and arguments of one fire

  /** A place in the list.  `reg` numbers registrations, so that adding the same function
      twice gives two distinguishable entries; the source stores the function only. */
  datatype Entry = Entry(fn: Fn, reg: nat)

  datatype Options = Options(once: bool, memory: bool, unique: bool, stopOnFalse: bool)

  datatype Op = Add(fns: seq<Fn>) | Remove(fns: seq<Fn>) | FireWith(args: Args)

  datatype Reply = Reply(ops: seq<Op>, isFalse: bool)

  datatype Ran = Ran(args: Args, entry: Entry)

  // ----------------------------------------------------------------- the simple model

  /** The list during a pass, without index arithmetic: entries whose turn has come, entries
      whose turn is still to come, fires waiting, and the next registration number. */
  datatype Zipper = Zipper(done: seq<Entry>, pending: seq<Entry>, queue: seq<Args>, next: nat)

  predicate Has(s: seq<Entry>, fn: Fn) {
    exists i :: 0 <= i < |s| && s[i].fn == fn
  }

  function Drop(s: seq<Entry>, fn: Fn): seq<Entry> {
    if s == [] then [] else (if s[0].fn == fn then [] else [s[0]]) + Drop(s[1..], fn)
  }

  function AddAll(o: Options, z: Zipper, fns: seq<Fn>): Zipper
    decreases |fns|
  {
    if fns == [] then z
    else if o.unique && Has(z.done + z.pending, fns[0]) then AddAll(o, z, fns[1..])
    else AddAll(o, z.(pending := z.pending + [Entry(fns[0], z.next)], next := z.next + 1), fns[1..])
  }

  // The first of them.
  function AddOne(o: Options, z: Zipper, fn: Fn): Zipper {
    if o.unique && Has(z.done + z.pending, fn) then z
    else z.(pending := z.pending + [Entry(fn, z.next)], next := z.next + 1)
  }

  lemma AddAllOne(o: Options, z: Zipper, fns: seq<Fn>)
    requires fns != []
    ensures AddAll(o, z, fns) == AddAll(o, AddOne(o, z, fns[0]), fns[1..])
  {
  }

  function RemoveAll(z: Zipper, fns: seq<Fn>): Zipper
    decreases |fns|
  {
    if fns == [] then z
    else RemoveAll(z.(done := Drop(z.done, fns[0]), pending := Drop(z.pending, fns[0])), fns[1..])
  }

  // What an operation does while the list is firing.
  function Perform(o: Options, z: Zipper, op: Op): Zipper {
    match op
    case Add(fns) => AddAll(o, z, fns)
    case Remove(fns) => RemoveAll(z, fns)
    case FireWith(args) => if o.once then z else z.(queue := z.queue + [args])
  }

  function PerformAll(o: Options, z: Zipper, ops: seq<Op>): Zipper
    decreases |ops|
  {
    if ops == [] then z else PerformAll(o, Perform(o, z, ops[0]), ops[1..])
  }

  function Head(script: seq<Reply>): Reply {
    if script == [] then Reply([], false) else script[0]
  }

  function Tail(script: seq<Reply>): seq<Reply> {
    if script == [] then [] else script[1..]
  }

  datatype Outcome = Outcome(z: Zipper, script: seq<Reply>, log: seq<Ran>, stopped: bool)

  /** One pass: run the entry at the front of `pending`, let it do what it does, go on. */
  function Pass(o: Options, z: Zipper, args: Args, script: seq<Reply>): Outcome
    decreases |script|, |z.pending|
  {
    if z.pending == [] then Outcome(z, script, [], false)
    else
      var x := z.pending[0];
      var z' := PerformAll(o, z.(done := z.done + [x], pending := z.pending[1..]), Head(script).ops);
      if Head(script).isFalse && o.stopOnFalse then Outcome(z', Tail(script), [Ran(args, x)], true)
      else
        var rest := Pass(o, z', args, Tail(script));
        rest.(log := [Ran(args, x)] + rest.log)
  }

  // Back to the start of the list, for the next waiting fire.
  function Rewind(z: Zipper): Zipper {
    z.(done := [], pending := z.done + z.pending)
  }

  lemma {:induction false} PassUsesScript(o: Options, z: Zipper, args: Args, script: seq<Reply>)
    ensures var r := Pass(o, z, args, script);
            |r.script| <= |script| && (script == [] ==> r.z.queue == z.queue)
    decreases |script|, |z.pending|
  {
    if z.pending != [] {
      var z' := PerformAll(o, z.(done := z.done + [z.pending[0]], pending := z.pending[1..]), Head(script).ops);
      if !(Head(script).isFalse && o.stopOnFalse) {
        PassUsesScript(o, z', args, Tail(script));
      }
    }
  }

  datatype Firing = Firing(z: Zipper, script: seq<Reply>, log: seq<Ran>, served: seq<Args>, memory: Option<Args>)

  /** A whole fire: passes for the waiting fires, first come first served, including those
      queued meanwhile. */
  function Passes(o: Options, z: Zipper, script: seq<Reply>, memory: Option<Args>): Firing
    decreases |script|, |z.queue|
  {
    if z.queue == [] then Firing(z, script, [], [], memory)
    else
      PassUsesScript(o, z.(queue := z.queue[1..]), z.queue[0], script);
      var p := Pass(o, z.(queue := z.queue[1..]), z.queue[0], script);
      PassGrowsOrUses(o, z.(queue := z.queue[1..]), z.queue[0], script);
      var rest := Passes(o, Rewind(p.z), p.script, if p.stopped then None else Some(z.queue[0]));
      rest.(log := p.log + rest.log, served := [z.queue[0]] + rest.served)
  }

  // A pass that leaves the script as long as it was has run nothing that could queue a fire.
  lemma {:induction false} PassGrowsOrUses(o: Options, z: Zipper, args: Args, script: seq<Reply>)
    ensures var r := Pass(o, z, args, script); |r.script| == |script| ==> r.z.queue == z.queue
    decreases |script|, |z.pending|
  {
    if z.pending != [] && script != [] {
      var z' := PerformAll(o, z.(done := z.done + [z.pending[0]], pending := z.pending[1..]), Head(script).ops);
      PassUsesScript(o, z', args, Tail(script));
    } else {
      PassUsesScript(o, z, args, script);
    }
  }

  // ------------------------------------------------------------- what a pass guarantees

  // Registrations are numbered in list order.
  ghost predicate Numbered(s: seq<Entry>) {
    forall i, j :: 0 <= i < j < |s| ==> s[i].reg < s[j].reg
  }

  ghost predicate Ordered(z: Zipper) {
    && Numbered(z.done + z.pending)
    && forall i :: 0 <= i < |z.done + z.pending| ==> (z.done + z.pending)[i].reg < z.next
  }

  lemma {:induction false} DropSubset(s: seq<Entry>, fn: Fn)
    ensures forall x :: x in Drop(s, fn) <==> x in s && x.fn != fn
  {
    if s != [] {
      DropSubset(s[1..], fn);
      assert s == [s[0]] + s[1..];
    }
  }

  lemma {:induction false} DropConcat(a: seq<Entry>, b: seq<Entry>, fn: Fn)
    ensures Drop(a + b, fn) == Drop(a, fn) + Drop(b, fn)
  {
    if a == [] {
      assert [] + b == b;
    } else {
      assert (a + b)[1..] == a[1..] + b;
      DropConcat(a[1..], b, fn);
    }
  }

  lemma {:induction false} DropNumbered(s: seq<Entry>, fn: Fn)
    requires Numbered(s)
    ensures Numbered(Drop(s, fn))
  {
    if s != [] {
      DropNumbered(s[1..], fn);
      DropSubset(s[1..], fn);
      forall x | x in Drop(s[1..], fn) ensures s[0].reg < x.reg {
        assert x in s[1..];
      }
    }
  }

  lemma PushOrdered(z: Zipper, fn: Fn)
    requires Ordered(z)
    ensures Ordered(z.(pending := z.pending + [Entry(fn, z.next)], next := z.next + 1))
  {
    assert z.done + (z.pending + [Entry(fn, z.next)]) == (z.done + z.pending) + [Entry(fn, z.next)];
  }

  lemma {:induction false} AddAllOrdered(o: Options, z: Zipper, fns: seq<Fn>)
    requires Ordered(z)
    ensures var r := AddAll(o, z, fns);
            && Ordered(r) && r.done == z.done && r.queue == z.queue && z.next <= r.next
            && forall x :: x in r.pending ==> x in z.pending || x.reg >= z.next
    decreases |fns|
  {
    if fns != [] {
      if o.unique && Has(z.done + z.pending, fns[0]) {
        AddAllOrdered(o, z, fns[1..]);
      } else {
        PushOrdered(z, fns[0]);
        AddAllOrdered(o, z.(pending := z.pending + [Entry(fns[0], z.next)], next := z.next + 1), fns[1..]);
      }
    }
  }

  lemma {:induction false} RemoveAllOrdered(z: Zipper, fns: seq<Fn>)
    requires Ordered(z)
    ensures var r := RemoveAll(z, fns);
            && Ordered(r) && r.queue == z.queue && r.next == z.next
            && (forall x :: x in r.done ==> x in z.done)
            && (forall x :: x in r.pending ==> x in z.pending)
    decreases |fns|
  {
    if fns != [] {
      var z' := z.(done := Drop(z.done, fns[0]), pending := Drop(z.pending, fns[0]));
      var all := z.done + z.pending;
      DropConcat(z.done, z.pending, fns[0]);
      DropNumbered(all, fns[0]);
      DropSubset(all, fns[0]);
      DropSubset(z.done, fns[0]);
      DropSubset(z.pending, fns[0]);
      forall i | 0 <= i < |z'.done + z'.pending| ensures (z'.done + z'.pending)[i].reg < z'.next {
        assert (z'.done + z'.pending)[i] in all;
      }
      RemoveAllOrdered(z', fns[1..]);
    }
  }

  // What a callback may have done to the list by the time it returns.
  ghost predicate Touched(z: Zipper, r: Zipper) {
    && Ordered(r) && z.next <= r.next
    && (forall x :: x in r.done ==> x in z.done)
    && (forall x :: x in r.pending ==> x in z.pending || x.reg >= z.next)
  }

  lemma {:induction false} PerformAllTouches(o: Options, z: Zipper, ops: seq<Op>)
    requires Ordered(z)
    ensures Touched(z, PerformAll(o, z, ops))
    decreases |ops|
  {
    if ops != [] {
      match ops[0] {
        case Add(fns) => AddAllOrdered(o, z, fns);
        case Remove(fns) => RemoveAllOrdered(z, fns);
        case FireWith(_) =>
      }
      PerformAllTouches(o, Perform(o, z, ops[0]), ops[1..]);
    }
  }

  // The entries run, in order.
  function Entries(log: seq<Ran>): (r: seq<Entry>)
    ensures |r| == |log| && forall i :: 0 <= i < |log| ==> r[i] == log[i].entry
  {
    if log == [] then [] else [log[0].entry] + Entries(log[1..])
  }

  // What a pass from `z` that ran `ran` and ended in `r` guarantees.
  ghost predicate OnceEach(z: Zipper, r: Zipper, ran: seq<Entry>) {
    && Ordered(r) && z.next <= r.next
    && Numbered(ran)
    && (forall x :: x in ran ==> x in z.pending || x.reg >= z.next)
    && (forall x :: x in r.done ==> x in z.done || x in ran)
  }

  /** Under any re-entrant adds and removes: entries run in list order, none twice; each was in
      the list or joined it during the pass; and unless a callback stopped the pass, every
      entry still in the list at the end has had its turn, before this pass or in it. */
  lemma {:induction false} PassRunsEachOnce(o: Options, z: Zipper, args: Args, script: seq<Reply>)
    requires Ordered(z)
    ensures var r := Pass(o, z, args, script);
            && OnceEach(z, r.z, Entries(r.log))
            && (if r.stopped then o.stopOnFalse else r.z.pending == [])
    decreases |script|, |z.pending|
  {
    if z.pending != [] {
      var x := z.pending[0];
      var z1 := z.(done := z.done + [x], pending := z.pending[1..]);
      assert z1.done + z1.pending == z.done + z.pending;
      var z2 := PerformAll(o, z1, Head(script).ops);
      PerformAllTouches(o, z1, Head(script).ops);
      if Head(script).isFalse && o.stopOnFalse {
        assert Entries([Ran(args, x)]) == [x];
        assert x in Entries([Ran(args, x)]);
      } else {
        PassRunsEachOnce(o, z2, args, Tail(script));
        var rest := Pass(o, z2, args, Tail(script));
        FrontThenRest(z, z2, rest.z, Entries(rest.log));
        assert Entries([Ran(args, x)] + rest.log) == [x] + Entries(rest.log);
      }
    }
  }

  lemma FrontThenRest(z: Zipper, z2: Zipper, r: Zipper, later: seq<Entry>)
    requires Ordered(z) && z.pending != [] && OnceEach(z2, r, later)
    requires Touched(z.(done := z.done + [z.pending[0]], pending := z.pending[1..]), z2)
    ensures OnceEach(z, r, [z.pending[0]] + later)
  {
    RunAfter(z, z2, later);
    var ran := [z.pending[0]] + later;
    forall x | x in r.done ensures x in z.done || x in ran {
      assert x in z2.done || x in later;
    }
  }

  // What runs after the front entry comes after it in the list.
  lemma RunAfter(z: Zipper, z2: Zipper, later: seq<Entry>)
    requires Ordered(z) && z.pending != [] && z.next <= z2.next
    requires forall x :: x in z2.pending ==> x in z.pending[1..] || x.reg >= z.next
    requires forall x :: x in later ==> x in z2.pending || x.reg >= z2.next
    ensures forall x :: x in later ==> z.pending[0].reg < x.reg
  {
    var all, k := z.done + z.pending, |z.done|;
    assert all[k] == z.pending[0];
    forall x | x in later ensures z.pending[0].reg < x.reg {
      if x in z.pending[1..] {
        var j :| 0 <= j < |z.pending[1..]| && z.pending[1..][j] == x;
        assert all[k + 1 + j] == x;
      }
    }
  }

  // ------------------------------------------------------------------------------- FIFO

  function Requested(o: Options, ops: seq<Op>): seq<Args> {
    if ops == [] then []
    else (if ops[0].FireWith? && !o.once then [ops[0].args] else []) + Requested(o, ops[1..])
  }

  function RequestedBy(o: Options, replies: seq<Reply>): seq<Args> {
    if replies == [] then [] else Requested(o, replies[0].ops) + RequestedBy(o, replies[1..])
  }

  lemma {:induction false} AddAllQueue(o: Options, z: Zipper, fns: seq<Fn>)
    ensures AddAll(o, z, fns).queue == z.queue
    decreases |fns|
  {
    if fns != [] {
      var z' := if o.unique && Has(z.done + z.pending, fns[0]) then z
                else z.(pending := z.pending + [Entry(fns[0], z.next)], next := z.next + 1);
      AddAllQueue(o, z', fns[1..]);
    }
  }

  lemma {:induction false} RemoveAllQueue(z: Zipper, fns: seq<Fn>)
    ensures RemoveAll(z, fns).queue == z.queue
    decreases |fns|
  {
    if fns != [] {
      RemoveAllQueue(z.(done := Drop(z.done, fns[0]), pending := Drop(z.pending, fns[0])), fns[1..]);
    }
  }

  lemma {:induction false} PerformAllQueue(o: Options, z: Zipper, ops: seq<Op>)
    ensures PerformAll(o, z, ops).queue == z.queue + Requested(o, ops)
    decreases |ops|
  {
    if ops != [] {
      match ops[0] {
        case Add(fns) => AddAllQueue(o, z, fns);
        case Remove(fns) => RemoveAllQueue(z, fns);
        case FireWith(_) =>
      }
      PerformAllQueue(o, Perform(o, z, ops[0]), ops[1..]);
    }
  }

  lemma {:induction false} RequestedByConcat(o: Options, a: seq<Reply>, b: seq<Reply>)
    ensures RequestedBy(o, a + b) == RequestedBy(o, a) + RequestedBy(o, b)
  {
    if a == [] {
      assert [] + b == b;
    } else {
      assert (a + b)[1..] == a[1..] + b;
      RequestedByConcat(o, a[1..], b);
    }
  }

  // Used up to m by a pass and up to n by the whole fire.
  lemma Consumed(script: seq<Reply>, mid: seq<Reply>, end: seq<Reply>, o: Options)
    requires |end| <= |mid| <= |script|
    requires mid == script[|script| - |mid|..] && end == mid[|mid| - |end|..]
    ensures end == script[|script| - |end|..]
    ensures RequestedBy(o, script[..|script| - |end|]) ==
            RequestedBy(o, script[..|script| - |mid|]) + RequestedBy(o, mid[..|mid| - |end|])
  {
    var m, n := |script| - |mid|, |script| - |end|;
    assert script[..n] == script[..m] + mid[..n - m];
    RequestedByConcat(o, script[..m], mid[..n - m]);
  }

  // `served` is what was waiting, then what the replies used up requested.
  ghost predicate Fifo(o: Options, queue: seq<Args>, script: seq<Reply>, end: seq<Reply>, served: seq<Args>) {
    && |end| <= |script| && end == script[|script| - |end|..]
    && served == queue + RequestedBy(o, script[..|script| - |end|])
  }

  // One reply used up.
  lemma FifoReply(o: Options, queue: seq<Args>, script: seq<Reply>, end: seq<Reply>, served: seq<Args>)
    requires script != [] && Fifo(o, queue + Requested(o, script[0].ops), script[1..], end, served)
    ensures Fifo(o, queue, script, end, served)
  {
    var used := |script| - |end|;
    assert script[..used][1..] == script[1..][..used - 1];
    assert script[1..][used - 1..] == script[used..];
  }

  lemma FifoNothing(o: Options, queue: seq<Args>, script: seq<Reply>)
    ensures Fifo(o, queue, script, script, queue)
  {
    assert script[..0] == [] && script[0..] == script;
  }

  lemma {:induction false} PassQueue(o: Options, z: Zipper, args: Args, script: seq<Reply>)
    ensures var r := Pass(o, z, args, script); Fifo(o, z.queue, script, r.script, r.z.queue)
    decreases |script|, |z.pending|
  {
    if z.pending == [] {
      FifoNothing(o, z.queue, script);
    } else {
      var z1 := z.(done := z.done + [z.pending[0]], pending := z.pending[1..]);
      var z2 := PerformAll(o, z1, Head(script).ops);
      PerformAllQueue(o, z1, Head(script).ops);
      var r := Pass(o, z, args, script);
      if Head(script).isFalse && o.stopOnFalse {
        FifoNothing(o, z2.queue, Tail(script));
      } else {
        PassQueue(o, z2, args, Tail(script));
      }
      if script != [] {
        FifoReply(o, z.queue, script, r.script, r.z.queue);
      }
    }
  }

  lemma FifoChain(o: Options, queue: seq<Args>, script: seq<Reply>, mid: seq<Reply>, queued: seq<Args>, end: seq<Reply>, served: seq<Args>)
    requires Fifo(o, queue, script, mid, queued) && Fifo(o, queued, mid, end, served)
    ensures Fifo(o, queue, script, end, served)
  {
    Consumed(script, mid, end, o);
    var byPass, later := RequestedBy(o, script[..|script| - |mid|]), RequestedBy(o, mid[..|mid| - |end|]);
    assert (queue + byPass) + later == queue + (byPass + later);
  }

  lemma FifoFront(o: Options, queue: seq<Args>, script: seq<Reply>, end: seq<Reply>, served: seq<Args>)
    requires queue != [] && Fifo(o, queue[1..], script, end, served)
    ensures Fifo(o, queue, script, end, [queue[0]] + served)
  {
    var asked := RequestedBy(o, script[..|script| - |end|]);
    assert [queue[0]] + (queue[1..] + asked) == queue + asked;
  }

  /** Fires are served first come first served: those waiting, then those requested by
      callbacks, in the order of the requests; and none is left over. */
  lemma {:induction false} FiresAreFifo(o: Options, z: Zipper, script: seq<Reply>, memory: Option<Args>)
    ensures var f := Passes(o, z, script, memory);
            f.z.queue == [] && Fifo(o, z.queue, script, f.script, f.served)
    decreases |script|, |z.queue|
  {
    if z.queue == [] {
      FifoNothing(o, z.queue, script);
    } else {
      var args, z1 := z.queue[0], z.(queue := z.queue[1..]);
      var p := Pass(o, z1, args, script);
      var mem := if p.stopped then None else Some(args);
      PassQueue(o, z1, args, script);
      PassGrowsOrUses(o, z1, args, script);
      FiresAreFifo(o, Rewind(p.z), p.script, mem);
      var f := Passes(o, Rewind(p.z), p.script, mem);
      FifoChain(o, z1.queue, script, p.script, p.z.queue, f.script, f.served);
      FifoFront(o, z.queue, script, f.script, f.served);
    }
  }

  // -------------------------------------------------------------------- whole histories

  // One fire served: with what, from and to which list, and the entries run.
  datatype Served = Served(args: Args, from: Zipper, to: Zipper, ran: seq<Entry>, stopped: bool)

  // The passes of a fire, in order.
  function Records(o: Options, z: Zipper, script: seq<Reply>): seq<Served>
    decreases |script|, |z.queue|
  {
    if z.queue == [] then []
    else
      var from := z.(queue := z.queue[1..]);
      PassUsesScript(o, from, z.queue[0], script);
      PassGrowsOrUses(o, from, z.queue[0], script);
      var p := Pass(o, from, z.queue[0], script);
      [Served(z.queue[0], from, p.z, Entries(p.log), p.stopped)] + Records(o, Rewind(p.z), p.script)
  }

  /** What every pass promises, under any re-entrant adds and removes: it starts from a list in
      registration order; entries run in that order, none twice; each was to come or joined
      during the pass; and unless a callback stopped the pass, every entry in the list at its
      end has had its turn. */
  ghost predicate PassLaw(o: Options, s: Served) {
    && Ordered(s.from) && OnceEach(s.from, s.to, s.ran)
    && (if s.stopped then o.stopOnFalse else s.to.pending == [])
  }

  ghost predicate AllLaw(o: Options, rs: seq<Served>) {
    forall i :: 0 <= i < |rs| ==> PassLaw(o, rs[i])
  }

  // The passes start from the list of z, each where the one before ended, at the front.
  ghost predicate Chained(z: Zipper, rs: seq<Served>)
    decreases |rs|
  {
    rs != [] ==> StartsAt(rs[0], z) && Chained(Rewind(rs[0].to), rs[1..])
  }

  predicate StartsAt(s: Served, z: Zipper) {
    s.from.done == z.done && s.from.pending == z.pending && s.from.next == z.next
  }

  function ArgsOf(rs: seq<Served>): seq<Args> {
    if rs == [] then [] else [rs[0].args] + ArgsOf(rs[1..])
  }

  function RanWith(args: Args, ran: seq<Entry>): (r: seq<Ran>)
    ensures |r| == |ran| && forall i :: 0 <= i < |ran| ==> r[i] == Ran(args, ran[i])
  {
    seq(|ran|, i requires 0 <= i < |ran| => Ran(args, ran[i]))
  }

  // The calls made by these passes.
  function LogOf(rs: seq<Served>): seq<Ran> {
    if rs == [] then [] else RanWith(rs[0].args, rs[0].ran) + LogOf(rs[1..])
  }

  lemma {:induction false} PassLogArgs(o: Options, z: Zipper, args: Args, script: seq<Reply>)
    ensures var p := Pass(o, z, args, script); p.log == RanWith(args, Entries(p.log))
    decreases |script|, |z.pending|
  {
    var p := Pass(o, z, args, script);
    if z.pending != [] {
      var x := z.pending[0];
      var z' := PerformAll(o, z.(done := z.done + [x], pending := z.pending[1..]), Head(script).ops);
      if !(Head(script).isFalse && o.stopOnFalse) {
        PassLogArgs(o, z', args, Tail(script));
        var rest := Pass(o, z', args, Tail(script));
        assert p.log == [Ran(args, x)] + rest.log;
      }
    }
  }

  // The records tell what a fire logs and serves.
  ghost predicate Recorded(o: Options, z: Zipper, script: seq<Reply>, memory: Option<Args>) {
    var f, rs := Passes(o, z, script, memory), Records(o, z, script);
    f.log == LogOf(rs) && f.served == ArgsOf(rs) && AllLaw(o, rs) && Chained(z, rs) && Ordered(f.z)
  }

  lemma ConsRecords(o: Options, first: Served, later: seq<Served>, z: Zipper)
    ensures var rs := [first] + later;
            && LogOf(rs) == RanWith(first.args, first.ran) + LogOf(later) && ArgsOf(rs) == [first.args] + ArgsOf(later)
            && (PassLaw(o, first) && AllLaw(o, later) ==> AllLaw(o, rs))
            && (StartsAt(first, z) && Chained(Rewind(first.to), later) ==> Chained(z, rs))
  {
    assert ([first] + later)[1..] == later;
  }

  function FirstPass(o: Options, z: Zipper, script: seq<Reply>): Outcome
    requires z.queue != []
  {
    Pass(o, z.(queue := z.queue[1..]), z.queue[0], script)
  }

  function FirstServed(o: Options, z: Zipper, script: seq<Reply>): Served
    requires z.queue != []
  {
    var p := FirstPass(o, z, script);
    Served(z.queue[0], z.(queue := z.queue[1..]), p.z, Entries(p.log), p.stopped)
  }

  lemma UnfoldRecords(o: Options, z: Zipper, script: seq<Reply>)
    requires z.queue != []
    ensures var p := FirstPass(o, z, script);
            Records(o, z, script) == [FirstServed(o, z, script)] + Records(o, Rewind(p.z), p.script)
  {
  }

  lemma UnfoldPasses(o: Options, z: Zipper, script: seq<Reply>, memory: Option<Args>)
    requires z.queue != []
    ensures var p := FirstPass(o, z, script);
            var rest := Passes(o, Rewind(p.z), p.script, if p.stopped then None else Some(z.queue[0]));
            Passes(o, z, script, memory) == rest.(log := p.log + rest.log, served := [z.queue[0]] + rest.served)
  {
  }

  lemma RecordedStep(o: Options, z: Zipper, script: seq<Reply>, memory: Option<Args>)
    requires Ordered(z) && z.queue != []
    requires var p := FirstPass(o, z, script);
             Recorded(o, Rewind(p.z), p.script, if p.stopped then None else Some(z.queue[0]))
    ensures Recorded(o, z, script, memory)
  {
    var from := z.(queue := z.queue[1..]);
    var p := FirstPass(o, z, script);
    PassRunsEachOnce(o, from, z.queue[0], script);
    PassLogArgs(o, from, z.queue[0], script);
    UnfoldRecords(o, z, script);
    UnfoldPasses(o, z, script, memory);
    ConsRecords(o, FirstServed(o, z, script), Records(o, Rewind(p.z), p.script), z);
  }

  /** A fire is a row of lawful passes, one for each fire served and in that order, each
      starting from the list the one before left; and the list stays in registration order. */
  lemma {:induction false} FireIsLawfulPasses(o: Options, z: Zipper, script: seq<Reply>, memory: Option<Args>)
    requires Ordered(z)
    ensures Recorded(o, z, script, memory)
    decreases |script|, |z.queue|
  {
    if z.queue != [] {
      var from := z.(queue := z.queue[1..]);
      var p := Pass(o, from, z.queue[0], script);
      PassRunsEachOnce(o, from, z.queue[0], script);
      PassGrowsOrUses(o, from, z.queue[0], script);
      PassUsesScript(o, from, z.queue[0], script);
      assert [] + (p.z.done + p.z.pending) == p.z.done + p.z.pending;
      FireIsLawfulPasses(o, Rewind(p.z), p.script, if p.stopped then None else Some(z.queue[0]));
      RecordedStep(o, z, script, memory);
    }
  }

  // A callback list between calls from outside.
  datatype Idle = Idle(list: seq<Entry>, next: nat, memory: Option<Args>, locked: bool, spent: bool)

  ghost predicate Sound(c: Idle) {
    Ordered(Zipper([], c.list, [], c.next)) && (c.spent ==> c.locked && c.list == [])
  }

  // What a call from outside makes of the list, and the fire it asks for.
  function Opening(o: Options, c: Idle, op: Op): Zipper {
    match op
    case Add(fns) =>
      if c.spent then Zipper([], c.list, [], c.next)
      else AddAll(o, Zipper(c.list, [], if c.memory.Some? then [c.memory.value] else [], c.next), fns)
    case Remove(fns) => RemoveAll(Zipper([], c.list, [], c.next), fns)
    case FireWith(args) => Zipper([], c.list, if c.locked then [] else [args], c.next)
  }

  // The list after the call, and after the fire if there was one.
  function Closing(o: Options, c: Idle, z: Zipper, script: seq<Reply>): Idle {
    if z.queue == [] then c.(list := z.done + z.pending, next := z.next)
    else
      var f := Passes(o, z, script, c.memory);
      var memory := if o.memory then f.memory else None;
      Idle(if o.once then [] else f.z.done + f.z.pending, f.z.next, memory, o.once, o.once && memory.None?)
  }

  function After(o: Options, c: Idle, op: Op, script: seq<Reply>): Idle {
    Closing(o, c, Opening(o, c, op), script)
  }

  lemma OpeningOrdered(o: Options, c: Idle, op: Op)
    requires Sound(c)
    ensures Ordered(Opening(o, c, op))
  {
    assert [] + c.list == c.list + [];
    match op
    case Add(fns) =>
      AddAllOrdered(o, Zipper(c.list, [], if c.memory.Some? then [c.memory.value] else [], c.next), fns);
    case Remove(fns) => RemoveAllOrdered(Zipper([], c.list, [], c.next), fns);
    case FireWith(_) =>
  }

  lemma FromFront(z: Zipper)
    requires Ordered(z)
    ensures Ordered(Zipper([], z.done + z.pending, [], z.next))
  {
    assert [] + (z.done + z.pending) == z.done + z.pending;
  }

  lemma AfterSound(o: Options, c: Idle, op: Op, script: seq<Reply>)
    requires Sound(c)
    ensures Sound(After(o, c, op, script))
  {
    var z := Opening(o, c, op);
    OpeningOrdered(o, c, op);
    if z.queue == [] {
      FromFront(z);
      if c.spent { RemoveAllEmpty(op, c.next); }
    } else {
      FireIsLawfulPasses(o, z, script, c.memory);
      FromFront(Passes(o, z, script, c.memory).z);
    }
  }

  lemma {:induction false} RemoveNone(fns: seq<Fn>, next: nat)
    ensures RemoveAll(Zipper([], [], [], next), fns) == Zipper([], [], [], next)
    decreases |fns|
  {
    if fns != [] { RemoveNone(fns[1..], next); }
  }

  lemma RemoveAllEmpty(op: Op, next: nat)
    ensures op.Remove? ==> RemoveAll(Zipper([], [], [], next), op.fns) == Zipper([], [], [], next)
  {
    if op.Remove? { RemoveNone(op.fns, next); }
  }

  // The passes of a whole history of calls from outside.
  function HistoryOf(o: Options, c: Idle, ops: seq<Op>, scripts: seq<seq<Reply>>): seq<seq<Served>>
    requires |scripts| == |ops|
    decreases |ops|
  {
    if ops == [] then []
    else [Records(o, Opening(o, c, ops[0]), scripts[0])] + HistoryOf(o, After(o, c, ops[0], scripts[0]), ops[1..], scripts[1..])
  }

  function Flatten(rss: seq<seq<Served>>): seq<Served> {
    if rss == [] then [] else rss[0] + Flatten(rss[1..])
  }

  // What the passes of one fire promise: lawful, chained from z, and first come first served.
  ghost predicate FireLaw(o: Options, z: Zipper, script: seq<Reply>, memory: Option<Args>, rs: seq<Served>) {
    && AllLaw(o, rs) && Chained(z, rs)
    && Fifo(o, z.queue, script, Passes(o, z, script, memory).script, ArgsOf(rs))
  }

  /** The same for every call of a history, each from the list the calls before it left. */
  ghost predicate HistoryLaw(o: Options, c: Idle, ops: seq<Op>, scripts: seq<seq<Reply>>, rss: seq<seq<Served>>)
    requires |scripts| == |ops| == |rss|
    decreases |ops|
  {
    ops == [] || (
      && Sound(c) && FireLaw(o, Opening(o, c, ops[0]), scripts[0], c.memory, rss[0])
      && HistoryLaw(o, After(o, c, ops[0], scripts[0]), ops[1..], scripts[1..], rss[1..]))
  }

  lemma {:induction false} HistoryIsLawful(o: Options, c: Idle, ops: seq<Op>, scripts: seq<seq<Reply>>)
    requires |scripts| == |ops| && Sound(c)
    ensures |HistoryOf(o, c, ops, scripts)| == |ops|
    ensures HistoryLaw(o, c, ops, scripts, HistoryOf(o, c, ops, scripts))
    decreases |ops|
  {
    if ops != [] {
      var z, c' := Opening(o, c, ops[0]), After(o, c, ops[0], scripts[0]);
      OpeningOrdered(o, c, ops[0]);
      FireIsLawfulPasses(o, z, scripts[0], c.memory);
      FiresAreFifo(o, z, scripts[0], c.memory);
      AfterSound(o, c, ops[0], scripts[0]);
      HistoryIsLawful(o, c', ops[1..], scripts[1..]);
      var later := HistoryOf(o, c', ops[1..], scripts[1..]);
      assert ([Records(o, z, scripts[0])] + later)[1..] == later;
    }
  }

  lemma {:induction false} LogOfConcat(a: seq<Served>, b: seq<Served>)
    ensures LogOf(a + b) == LogOf(a) + LogOf(b)
  {
    if a == [] {
      assert [] + b == b;
    } else {
      assert (a + b)[1..] == a[1..] + b;
      LogOfConcat(a[1..], b);
    }
  }

  // The calls made from operation i of a history on, when it finds the list as c.
  function LogFrom(o: Options, c: Idle, ops: seq<Op>, scripts: seq<seq<Reply>>, i: nat): seq<Ran>
    requires |scripts| == |ops| && i <= |ops|
  {
    LogOf(Flatten(HistoryOf(o, c, ops[i..], scripts[i..])))
  }

  lemma HistoryCons(o: Options, c: Idle, ops: seq<Op>, scripts: seq<seq<Reply>>, i: nat)
    requires |scripts| == |ops| && i < |ops|
    ensures HistoryOf(o, c, ops[i..], scripts[i..]) ==
            [Records(o, Opening(o, c, ops[i]), scripts[i])]
            + HistoryOf(o, After(o, c, ops[i], scripts[i]), ops[i + 1..], scripts[i + 1..])
  {
    assert ops[i..][1..] == ops[i + 1..] && scripts[i..][1..] == scripts[i + 1..];
  }

  lemma FlattenCons(rs: seq<Served>, later: seq<seq<Served>>)
    ensures LogOf(Flatten([rs] + later)) == LogOf(rs) + LogOf(Flatten(later))
  {
    assert ([rs] + later)[1..] == later;
    LogOfConcat(rs, Flatten(later));
  }

  lemma CallLog(o: Options, c: Idle, op: Op, script: seq<Reply>)
    requires Sound(c)
    ensures Passes(o, Opening(o, c, op), script, c.memory).log == LogOf(Records(o, Opening(o, c, op), script))
  {
    OpeningOrdered(o, c, op);
    FireIsLawfulPasses(o, Opening(o, c, op), script, c.memory);
  }

  lemma LogFromStep(o: Options, c: Idle, ops: seq<Op>, scripts: seq<seq<Reply>>, i: nat)
    requires |scripts| == |ops| && i < |ops| && Sound(c)
    ensures LogFrom(o, c, ops, scripts, i) ==
            Passes(o, Opening(o, c, ops[i]), scripts[i], c.memory).log
            + LogFrom(o, After(o, c, ops[i], scripts[i]), ops, scripts, i + 1)
  {
    HistoryCons(o, c, ops, scripts, i);
    FlattenCons(Records(o, Opening(o, c, ops[i]), scripts[i]),
                HistoryOf(o, After(o, c, ops[i], scripts[i]), ops[i + 1..], scripts[i + 1..]));
    CallLog(o, c, ops[i], scripts[i]);
  }

  // ------------------------------------------------------------------ what remove removes

  /** The entries whose function is not one of `fns`, in order. */
  function Keep(s: seq<Entry>, fns: seq<Fn>): seq<Entry> {
    if s == [] then [] else (if s[0].fn in fns then [] else [s[0]]) + Keep(s[1..], fns)
  }

  lemma {:induction false} KeepIsFilter(s: seq<Entry>, fns: seq<Fn>)
    ensures forall x :: x in Keep(s, fns) <==> x in s && x.fn !in fns
    ensures Numbered(s) ==> Numbered(Keep(s, fns))
  {
    if s != [] {
      KeepIsFilter(s[1..], fns);
      assert s == [s[0]] + s[1..];
      if Numbered(s) {
        forall x | x in Keep(s[1..], fns) ensures s[0].reg < x.reg {
          assert x in s[1..];
        }
      }
    }
  }

  lemma {:induction false} KeepNone(s: seq<Entry>)
    ensures Keep(s, []) == s
  {
    if s != [] { KeepNone(s[1..]); }
  }

  lemma {:induction false} DropThenKeep(s: seq<Entry>, fns: seq<Fn>)
    requires fns != []
    ensures Keep(Drop(s, fns[0]), fns[1..]) == Keep(s, fns)
  {
    if s != [] {
      DropThenKeep(s[1..], fns);
      assert fns == [fns[0]] + fns[1..];
      var rest := Drop(s[1..], fns[0]);
      if s[0].fn == fns[0] {
        assert Drop(s, fns[0]) == rest;
        assert Keep(s, fns) == Keep(s[1..], fns);
      } else {
        assert Drop(s, fns[0]) == [s[0]] + rest;
        assert ([s[0]] + rest)[1..] == rest;
        assert s[0].fn in fns <==> s[0].fn in fns[1..];
      }
    }
  }

  /** remove leaves, on each side of the turn, exactly the entries of other functions. */
  lemma {:induction false} RemoveAllKeeps(z: Zipper, fns: seq<Fn>)
    ensures RemoveAll(z, fns) == z.(done := Keep(z.done, fns), pending := Keep(z.pending, fns))
    decreases |fns|
  {
    if fns == [] {
      KeepNone(z.done);
      KeepNone(z.pending);
    } else {
      RemoveAllKeeps(z.(done := Drop(z.done, fns[0]), pending := Drop(z.pending, fns[0])), fns[1..]);
      DropThenKeep(z.done, fns);
      DropThenKeep(z.pending, fns);
    }
  }

  // An entry that was registered and is not in the list.
  ghost predicate Gone(z: Zipper, x: Entry) {
    x.reg < z.next && x !in z.done && x !in z.pending
  }

  lemma {:induction false} PassGone(o: Options, z: Zipper, args: Args, script: seq<Reply>, x: Entry)
    requires Ordered(z) && Gone(z, x)
    ensures var p := Pass(o, z, args, script); Ordered(p.z) && Gone(p.z, x) && x !in Entries(p.log)
    decreases |script|, |z.pending|
  {
    if z.pending != [] {
      var y := z.pending[0];
      var z1 := z.(done := z.done + [y], pending := z.pending[1..]);
      assert z1.done + z1.pending == z.done + z.pending;
      PerformAllTouches(o, z1, Head(script).ops);
      var z2 := PerformAll(o, z1, Head(script).ops);
      if Head(script).isFalse && o.stopOnFalse {
        assert Entries([Ran(args, y)]) == [y];
      } else {
        PassGone(o, z2, args, Tail(script), x);
        var rest := Pass(o, z2, args, Tail(script));
        assert Entries([Ran(args, y)] + rest.log) == [y] + Entries(rest.log);
      }
    }
  }

  lemma EntriesConcat(a: seq<Ran>, b: seq<Ran>)
    ensures Entries(a + b) == Entries(a) + Entries(b)
  {
  }

  lemma RewindOrdered(z: Zipper)
    requires Ordered(z)
    ensures Ordered(Rewind(z)) && forall x :: Gone(z, x) ==> Gone(Rewind(z), x)
  {
    assert [] + (z.done + z.pending) == z.done + z.pending;
  }

  lemma {:induction false} PassesGone(o: Options, z: Zipper, script: seq<Reply>, memory: Option<Args>, x: Entry)
    requires Ordered(z) && Gone(z, x)
    ensures var f := Passes(o, z, script, memory); Ordered(f.z) && Gone(f.z, x) && x !in Entries(f.log)
    decreases |script|, |z.queue|
  {
    if z.queue != [] {
      var from := z.(queue := z.queue[1..]);
      var p := FirstPass(o, z, script);
      PassGone(o, from, z.queue[0], script, x);
      PassGrowsOrUses(o, from, z.queue[0], script);
      PassUsesScript(o, from, z.queue[0], script);
      RewindOrdered(p.z);
      var mem := if p.stopped then None else Some(z.queue[0]);
      PassesGone(o, Rewind(p.z), p.script, mem, x);
      UnfoldPasses(o, z, script, memory);
      EntriesConcat(p.log, Passes(o, Rewind(p.z), p.script, mem).log);
    }
  }

  // The same between calls from outside.
  ghost predicate Left(c: Idle, x: Entry) {
    x.reg < c.next && x !in c.list
  }

  lemma OpeningGone(o: Options, c: Idle, op: Op, x: Entry)
    requires Sound(c) && Left(c, x)
    ensures Gone(Opening(o, c, op), x)
  {
    assert [] + c.list == c.list + [];
    match op
    case Add(fns) =>
      AddAllOrdered(o, Zipper(c.list, [], if c.memory.Some? then [c.memory.value] else [], c.next), fns);
    case Remove(fns) => RemoveAllOrdered(Zipper([], c.list, [], c.next), fns);
    case FireWith(_) =>
  }

  lemma AfterLeft(o: Options, c: Idle, op: Op, script: seq<Reply>, x: Entry)
    requires Sound(c) && Left(c, x)
    ensures Left(After(o, c, op, script), x)
    ensures x !in Entries(Passes(o, Opening(o, c, op), script, c.memory).log)
  {
    var z := Opening(o, c, op);
    OpeningOrdered(o, c, op);
    OpeningGone(o, c, op, x);
    PassesGone(o, z, script, c.memory, x);
  }

  /** Once an entry has left the list it never runs again, whatever the history goes on with. */
  lemma {:induction false} LeftNeverRuns(o: Options, c: Idle, ops: seq<Op>, scripts: seq<seq<Reply>>, i: nat, x: Entry)
    requires |scripts| == |ops| && i <= |ops| && Sound(c) && Left(c, x)
    ensures x !in Entries(LogFrom(o, c, ops, scripts, i))
    decreases |ops| - i
  {
    if i == |ops| {
      assert LogFrom(o, c, ops, scripts, i) == [];
    } else {
      var c' := After(o, c, ops[i], scripts[i]);
      AfterLeft(o, c, ops[i], scripts[i], x);
      AfterSound(o, c, ops[i], scripts[i]);
      LeftNeverRuns(o, c', ops, scripts, i + 1, x);
      LogFromStep(o, c, ops, scripts, i);
      EntriesConcat(Passes(o, Opening(o, c, ops[i]), scripts[i], c.memory).log, LogFrom(o, c', ops, scripts, i + 1));
    }
  }

  /** remove from outside, at any point of any history: of the functions removed, only later
      registrations run in the rest of the log. */
  lemma RemovedNeverRuns(o: Options, c: Idle, ops: seq<Op>, scripts: seq<seq<Reply>>, i: nat, y: Entry)
    requires |scripts| == |ops| && i < |ops| && Sound(c) && ops[i].Remove? && y.fn in ops[i].fns
    requires y in Entries(LogFrom(o, c, ops, scripts, i))
    ensures y.reg >= c.next
  {
    var fns := ops[i].fns;
    var c' := After(o, c, ops[i], scripts[i]);
    RemoveAllKeeps(Zipper([], c.list, [], c.next), fns);
    KeepIsFilter(c.list, fns);
    assert Keep([], fns) == [];
    assert c'.list == Keep(c.list, fns) && c'.next == c.next;
    AfterSound(o, c, ops[i], scripts[i]);
    LogFromStep(o, c, ops, scripts, i);
    assert Passes(o, Opening(o, c, ops[i]), scripts[i], c.memory).log == [];
    assert LogFrom(o, c, ops, scripts, i) == LogFrom(o, c', ops, scripts, i + 1);
    if y.reg < c.next { LeftNeverRuns(o, c', ops, scripts, i + 1, y); }
  }

  // The list as operation i of a history finds it, and the calls made before.
  function StateAt(o: Options, c: Idle, ops: seq<Op>, scripts: seq<seq<Reply>>, i: nat): Idle
    requires |scripts| == |ops| && i <= |ops|
  {
    if i == 0 then c else After(o, StateAt(o, c, ops, scripts, i - 1), ops[i - 1], scripts[i - 1])
  }

  function LogBefore(o: Options, c: Idle, ops: seq<Op>, scripts: seq<seq<Reply>>, i: nat): seq<Ran>
    requires |scripts| == |ops| && i <= |ops|
  {
    if i == 0 then []
    else
      var d := StateAt(o, c, ops, scripts, i - 1);
      LogBefore(o, c, ops, scripts, i - 1) + Passes(o, Opening(o, d, ops[i - 1]), scripts[i - 1], d.memory).log
  }

  lemma {:induction false} HistorySplits(o: Options, c: Idle, ops: seq<Op>, scripts: seq<seq<Reply>>, i: nat)
    requires |scripts| == |ops| && i <= |ops| && Sound(c)
    ensures Sound(StateAt(o, c, ops, scripts, i))
    ensures LogFrom(o, c, ops, scripts, 0) ==
            LogBefore(o, c, ops, scripts, i) + LogFrom(o, StateAt(o, c, ops, scripts, i), ops, scripts, i)
  {
    if i > 0 {
      HistorySplits(o, c, ops, scripts, i - 1);
      var d := StateAt(o, c, ops, scripts, i - 1);
      AfterSound(o, d, ops[i - 1], scripts[i - 1]);
      LogFromStep(o, d, ops, scripts, i - 1);
      Joined(LogBefore(o, c, ops, scripts, i - 1), Passes(o, Opening(o, d, ops[i - 1]), scripts[i - 1], d.memory).log,
             LogFrom(o, StateAt(o, c, ops, scripts, i), ops, scripts, i));
    }
  }

  lemma Joined(a: seq<Ran>, b: seq<Ran>, c: seq<Ran>)
    ensures a + (b + c) == (a + b) + c
  {
  }

  /** The same over a whole history: in the log after operation i removed functions, only
      later registrations of them occur. */
  lemma RemovedInHistory(o: Options, c: Idle, ops: seq<Op>, scripts: seq<seq<Reply>>, i: nat, y: Entry)
    requires |scripts| == |ops| && i < |ops| && Sound(c) && ops[i].Remove? && y.fn in ops[i].fns
    requires y.reg < StateAt(o, c, ops, scripts, i).next
    ensures var log, n := LogOf(Flatten(HistoryOf(o, c, ops, scripts))), |LogBefore(o, c, ops, scripts, i)|;
            n <= |log| && y !in Entries(log[n..])
  {
    HistorySplits(o, c, ops, scripts, i);
    assert ops[0..] == ops && scripts[0..] == scripts;
    var log, n := LogOf(Flatten(HistoryOf(o, c, ops, scripts))), |LogBefore(o, c, ops, scripts, i)|;
    var d := StateAt(o, c, ops, scripts, i);
    assert log[n..] == LogFrom(o, d, ops, scripts, i);
    if y in Entries(log[n..]) { RemovedNeverRuns(o, d, ops, scripts, i, y); }
  }

  // After k turns of a pass from z the list is z' and the replies left are script'.
  ghost predicate Turns(o: Options, z: Zipper, script: seq<Reply>, k: nat, z': Zipper, script': seq<Reply>)
    decreases k
  {
    if k == 0 then z' == z && script' == script
    else
      && z.pending != [] && !(Head(script).isFalse && o.stopOnFalse)
      && Turns(o, PerformAll(o, z.(done := z.done + [z.pending[0]], pending := z.pending[1..]), Head(script).ops),
               Tail(script), k - 1, z', script')
  }

  lemma {:induction false} RestOfPass(o: Options, z: Zipper, args: Args, script: seq<Reply>, k: nat, z': Zipper, script': seq<Reply>)
    requires Ordered(z) && Turns(o, z, script, k, z', script')
    ensures Ordered(z')
    ensures var p, q := Pass(o, z, args, script), Pass(o, z', args, script');
            k <= |p.log| && p.log[k..] == q.log && p.z == q.z && p.script == q.script && p.stopped == q.stopped
    decreases k
  {
    if k > 0 {
      var z1 := z.(done := z.done + [z.pending[0]], pending := z.pending[1..]);
      assert z1.done + z1.pending == z.done + z.pending;
      PerformAllTouches(o, z1, Head(script).ops);
      var z2 := PerformAll(o, z1, Head(script).ops);
      RestOfPass(o, z2, args, Tail(script), k - 1, z', script');
      var rest := Pass(o, z2, args, Tail(script));
      assert ([Ran(args, z.pending[0])] + rest.log)[k..] == rest.log[k - 1..];
    }
  }

  lemma {:induction false} PerformAllSplit(o: Options, z: Zipper, ops: seq<Op>, m: nat)
    requires m <= |ops|
    ensures PerformAll(o, z, ops) == PerformAll(o, PerformAll(o, z, ops[..m]), ops[m..])
    decreases m
  {
    if m == 0 {
      assert ops[0..] == ops;
    } else {
      assert ops[..m][1..] == ops[1..][..m - 1] && ops[m..] == ops[1..][m - 1..];
      PerformAllSplit(o, Perform(o, z, ops[0]), ops[1..], m - 1);
    }
  }

  lemma PerformAllLast(o: Options, z: Zipper, ops: seq<Op>, m: nat)
    requires m < |ops|
    ensures PerformAll(o, z, ops[..m + 1]) == Perform(o, PerformAll(o, z, ops[..m]), ops[m])
  {
    PerformAllSplit(o, z, ops[..m + 1], m);
    assert ops[..m + 1][..m] == ops[..m] && ops[..m + 1][m..] == [ops[m]];
    assert [ops[m]][1..] == [];
  }

  // The list when the callback now running has made the first m of its calls.
  function During(o: Options, z: Zipper, ops: seq<Op>, m: nat): Zipper
    requires z.pending != [] && m <= |ops|
  {
    PerformAll(o, z.(done := z.done + [z.pending[0]], pending := z.pending[1..]), ops[..m])
  }

  // Right after a callback's m-th call removed fns, entries of fns are gone, and stay so until
  // the callback returns.
  lemma GoneOnReturn(o: Options, z: Zipper, ops: seq<Op>, m: nat, y: Entry)
    requires Ordered(z) && z.pending != [] && m < |ops| && ops[m].Remove? && y.fn in ops[m].fns
    requires y.reg < During(o, z, ops, m + 1).next
    ensures var z2 := During(o, z, ops, |ops|); Ordered(z2) && Gone(z2, y)
  {
    var z1 := z.(done := z.done + [z.pending[0]], pending := z.pending[1..]);
    assert z1.done + z1.pending == z.done + z.pending;
    var before, after := During(o, z, ops, m), During(o, z, ops, m + 1);
    PerformAllLast(o, z1, ops, m);
    RemoveAllKeeps(before, ops[m].fns);
    KeepIsFilter(before.done, ops[m].fns);
    KeepIsFilter(before.pending, ops[m].fns);
    assert Gone(after, y);
    PerformAllTouches(o, z1, ops[..m + 1]);
    PerformAllTouches(o, after, ops[m + 1..]);
    PerformAllSplit(o, z1, ops, m + 1);
    assert ops[..|ops|] == ops;
  }

  /** remove by a callback, at any turn of any pass: of the functions removed, only later
      registrations run in the rest of this pass and in the passes after it, and nothing else
      of them is in the list at the end. */
  lemma RemovedByCallback(
      o: Options, z: Zipper, args: Args, script: seq<Reply>, k: nat, z': Zipper, script': seq<Reply>, m: nat, y: Entry)
    requires Ordered(z) && Turns(o, z, script, k, z', script') && z'.pending != []
    requires m < |Head(script').ops| && Head(script').ops[m].Remove? && y.fn in Head(script').ops[m].fns
    requires y.reg < During(o, z', Head(script').ops, m + 1).next
    ensures var p := Pass(o, z, args, script);
            var f := Passes(o, Rewind(p.z), p.script, if p.stopped then None else Some(args));
            && k + 1 <= |p.log| && y !in Entries(p.log[k + 1..])
            && y !in Entries(f.log) && Gone(f.z, y)
  {
    RestOfPass(o, z, args, script, k, z', script');
    var p, q := Pass(o, z, args, script), Pass(o, z', args, script');
    var z2 := During(o, z', Head(script').ops, |Head(script').ops|);
    assert Head(script').ops[..|Head(script').ops|] == Head(script').ops;
    GoneOnReturn(o, z', Head(script').ops, m, y);
    assert q.log[1..] == p.log[k + 1..];
    if !(Head(script').isFalse && o.stopOnFalse) {
      PassGone(o, z2, args, Tail(script'), y);
      assert q.log[1..] == Pass(o, z2, args, Tail(script')).log;
    }
    RewindOrdered(p.z);
    PassesGone(o, Rewind(p.z), p.script, if p.stopped then None else Some(args), y);
  }

  // ------------------------------------------------------------------------- unique lists

  ghost predicate OncePerFn(s: seq<Entry>) {
    forall i, j :: 0 <= i < j < |s| ==> s[i].fn != s[j].fn
  }

  // In a unique list no function occurs twice.
  ghost predicate NoRepeat(o: Options, z: Zipper) {
    o.unique ==> OncePerFn(z.done + z.pending)
  }

  lemma {:induction false} AddAllNoRepeat(o: Options, z: Zipper, fns: seq<Fn>)
    requires NoRepeat(o, z)
    ensures NoRepeat(o, AddAll(o, z, fns))
    decreases |fns|
  {
    if fns != [] {
      if o.unique && Has(z.done + z.pending, fns[0]) {
        AddAllNoRepeat(o, z, fns[1..]);
      } else {
        var e := Entry(fns[0], z.next);
        assert z.done + (z.pending + [e]) == (z.done + z.pending) + [e];
        AddAllNoRepeat(o, z.(pending := z.pending + [e], next := z.next + 1), fns[1..]);
      }
    }
  }

  lemma {:induction false} DropOnce(s: seq<Entry>, fn: Fn)
    requires OncePerFn(s)
    ensures OncePerFn(Drop(s, fn))
  {
    if s != [] {
      DropOnce(s[1..], fn);
      DropSubset(s[1..], fn);
      forall x | x in Drop(s[1..], fn) ensures s[0].fn != x.fn {
        assert x in s[1..];
      }
    }
  }

  lemma {:induction false} RemoveAllNoRepeat(o: Options, z: Zipper, fns: seq<Fn>)
    requires NoRepeat(o, z)
    ensures NoRepeat(o, RemoveAll(z, fns))
    decreases |fns|
  {
    if fns != [] {
      DropConcat(z.done, z.pending, fns[0]);
      if o.unique { DropOnce(z.done + z.pending, fns[0]); }
      RemoveAllNoRepeat(o, z.(done := Drop(z.done, fns[0]), pending := Drop(z.pending, fns[0])), fns[1..]);
    }
  }

  lemma {:induction false} PerformAllNoRepeat(o: Options, z: Zipper, ops: seq<Op>)
    requires NoRepeat(o, z)
    ensures NoRepeat(o, PerformAll(o, z, ops))
    decreases |ops|
  {
    if ops != [] {
      match ops[0] {
        case Add(fns) => AddAllNoRepeat(o, z, fns);
        case Remove(fns) => RemoveAllNoRepeat(o, z, fns);
        case FireWith(_) =>
      }
      PerformAllNoRepeat(o, Perform(o, z, ops[0]), ops[1..]);
    }
  }

  lemma {:induction false} PassNoRepeat(o: Options, z: Zipper, args: Args, script: seq<Reply>)
    requires NoRepeat(o, z)
    ensures NoRepeat(o, Pass(o, z, args, script).z)
    decreases |script|, |z.pending|
  {
    if z.pending != [] {
      var z1 := z.(done := z.done + [z.pending[0]], pending := z.pending[1..]);
      assert z1.done + z1.pending == z.done + z.pending;
      PerformAllNoRepeat(o, z1, Head(script).ops);
      if !(Head(script).isFalse && o.stopOnFalse) {
        PassNoRepeat(o, PerformAll(o, z1, Head(script).ops), args, Tail(script));
      }
    }
  }

  lemma {:induction false} PassesNoRepeat(o: Options, z: Zipper, script: seq<Reply>, memory: Option<Args>)
    requires NoRepeat(o, z)
    ensures NoRepeat(o, Passes(o, z, script, memory).z)
    decreases |script|, |z.queue|
  {
    if z.queue != [] {
      var from := z.(queue := z.queue[1..]);
      var p := FirstPass(o, z, script);
      PassNoRepeat(o, from, z.queue[0], script);
      PassGrowsOrUses(o, from, z.queue[0], script);
      PassUsesScript(o, from, z.queue[0], script);
      assert [] + (p.z.done + p.z.pending) == p.z.done + p.z.pending;
      PassesNoRepeat(o, Rewind(p.z), p.script, if p.stopped then None else Some(z.queue[0]));
      UnfoldPasses(o, z, script, memory);
    }
  }

  /** A unique list has no function twice, after any call from outside and all it sets off. */
  lemma AfterNoRepeat(o: Options, c: Idle, op: Op, script: seq<Reply>)
    requires o.unique ==> OncePerFn(c.list)
    ensures o.unique ==> OncePerFn(After(o, c, op, script).list)
  {
    var z := Opening(o, c, op);
    assert [] + c.list == c.list && c.list + [] == c.list;
    match op {
      case Add(fns) =>
        AddAllNoRepeat(o, Zipper(c.list, [], if c.memory.Some? then [c.memory.value] else [], c.next), fns);
      case Remove(fns) => RemoveAllNoRepeat(o, Zipper([], c.list, [], c.next), fns);
      case FireWith(_) =>
    }
    PassesNoRepeat(o, z, script, c.memory);
  }

  /** What add adds, unique or not: the list keeps what it had, every function asked for is in
      it, and what is new was asked for and, in a unique list, was not there. */
  lemma {:induction false} AddAllAdds(o: Options, z: Zipper, fns: seq<Fn>)
    ensures var r := AddAll(o, z, fns);
            && r.done == z.done && z.pending <= r.pending
            && (forall f :: f in fns ==> Has(r.done + r.pending, f))
            && (forall i :: |z.pending| <= i < |r.pending| ==>
                  r.pending[i].fn in fns && (o.unique ==> !Has(z.done + z.pending, r.pending[i].fn)))
    decreases |fns|
  {
    if fns != [] {
      var all := z.done + z.pending;
      assert fns == [fns[0]] + fns[1..];
      if o.unique && Has(all, fns[0]) {
        AddAllAdds(o, z, fns[1..]);
        HasStays(z, AddAll(o, z, fns[1..]), fns[0]);
      } else {
        var e := Entry(fns[0], z.next);
        var z' := z.(pending := z.pending + [e], next := z.next + 1);
        AddAllAdds(o, z', fns[1..]);
        var r := AddAll(o, z', fns[1..]);
        assert (z'.done + z'.pending)[|all|] == e;
        HasStays(z', r, fns[0]);
        forall i | |z.pending| <= i < |r.pending|
          ensures r.pending[i].fn in fns && (o.unique ==> !Has(all, r.pending[i].fn))
        {
          if i == |z.pending| {
            assert r.pending[i] == z'.pending[i] == e;
          } else {
            HasStays(z, z', r.pending[i].fn);
          }
        }
      }
    }
  }

  lemma HasStays(z: Zipper, r: Zipper, f: Fn)
    requires r.done == z.done && z.pending <= r.pending
    ensures Has(z.done + z.pending, f) ==> Has(r.done + r.pending, f)
  {
    var a, b := z.done + z.pending, r.done + r.pending;
    assert forall i :: 0 <= i < |a| ==> a[i] == b[i];
  }

  // ----------------------------------------------------------------------- once and memory

  /** A pass uses one reply for each callback run. It is stopped by the first reply that is
      false, if the list is told to stop on false, and by nothing else. */
  lemma {:induction false} StopsOnFalse(o: Options, z: Zipper, args: Args, script: seq<Reply>)
    ensures var p := Pass(o, z, args, script); var n := |p.log|;
            && p.script == (if n <= |script| then script[n..] else [])
            && (p.stopped <==> 0 < n <= |script| && o.stopOnFalse && script[n - 1].isFalse)
            && (o.stopOnFalse ==> forall j :: 0 <= j < n - 1 && j < |script| ==> !script[j].isFalse)
    decreases |script|, |z.pending|
  {
    if z.pending != [] {
      var z2 := PerformAll(o, z.(done := z.done + [z.pending[0]], pending := z.pending[1..]), Head(script).ops);
      if !(Head(script).isFalse && o.stopOnFalse) {
        StopsOnFalse(o, z2, args, Tail(script));
        assert forall j :: 0 < j < |script| ==> script[j] == script[1..][j - 1];
      }
    }
  }

  // One call asks for a fire if it is fireWith, unless the list is `once`.
  lemma RequestedOne(o: Options, op: Op)
    ensures Requested(o, [op]) == if op.FireWith? && !o.once then [op.args] else []
  {
    assert [op][1..] == [];
  }

  /** And the fires a callback asks for are those of its calls, in order. */
  lemma {:induction false} RequestedInOrder(o: Options, a: seq<Op>, b: seq<Op>)
    ensures Requested(o, a + b) == Requested(o, a) + Requested(o, b)
  {
    if a == [] {
      assert a + b == b;
    } else {
      assert (a + b)[1..] == a[1..] + b;
      RequestedInOrder(o, a[1..], b);
    }
  }

  /** The end of a fire from outside: with `memory` the list remembers what it served last,
      unless stopped; with `once` it is emptied and locked, and spent if it remembers nothing. */
  lemma FireLeaves(o: Options, c: Idle, args: Args, script: seq<Reply>)
    requires !c.locked
    ensures var rs, d := Records(o, Opening(o, c, FireWith(args)), script), After(o, c, FireWith(args), script);
            && rs != [] && rs[0].args == args && rs[0].from.done == [] && rs[0].from.pending == c.list
            && var last := rs[|rs| - 1];
               && d.memory == (if o.memory && !last.stopped then Some(last.args) else None)
               && d.list == (if o.once then [] else last.to.done + last.to.pending)
               && d.locked == o.once && d.spent == (o.once && d.memory.None?)
  {
    var z := Opening(o, c, FireWith(args));
    MemoryIsLastServed(o, z, script, c.memory);
    ListIsLastLeft(o, z, script, c.memory);
    UnfoldRecords(o, z, script);
  }

  lemma {:induction false} ListIsLastLeft(o: Options, z: Zipper, script: seq<Reply>, memory: Option<Args>)
    ensures var rs, f := Records(o, z, script), Passes(o, z, script, memory);
            rs != [] ==> f.z.done + f.z.pending == rs[|rs| - 1].to.done + rs[|rs| - 1].to.pending
    decreases |script|, |z.queue|
  {
    if z.queue != [] {
      var from := z.(queue := z.queue[1..]);
      var p := FirstPass(o, z, script);
      PassGrowsOrUses(o, from, z.queue[0], script);
      PassUsesScript(o, from, z.queue[0], script);
      var mem := if p.stopped then None else Some(z.queue[0]);
      ListIsLastLeft(o, Rewind(p.z), p.script, mem);
      UnfoldRecords(o, z, script);
      UnfoldPasses(o, z, script, memory);
      if Records(o, Rewind(p.z), p.script) == [] {
        assert Rewind(p.z).queue == [];
        assert [] + (p.z.done + p.z.pending) == p.z.done + p.z.pending;
      }
    }
  }

  /** A `once` list serves a fire from outside at most once: after the first it is locked for
      good, and a locked list serves none. */
  lemma OnceServesOnce(o: Options, c: Idle, op: Op, script: seq<Reply>, args: Args)
    requires o.once && (c.locked || op.FireWith?)
    ensures var d := After(o, c, op, script); d.locked && Records(o, Opening(o, d, FireWith(args)), script) == []
  {
  }

  /** A list that remembers a fire runs what is added at once: the pass has the remembered
      arguments and starts after the old list; otherwise adding runs nothing. */
  lemma AddRunsRemembered(o: Options, c: Idle, fns: seq<Fn>, script: seq<Reply>)
    ensures var rs := Records(o, Opening(o, c, Add(fns)), script);
            if c.spent || c.memory.None? then rs == []
            else
              && rs != [] && rs[0].args == c.memory.value && rs[0].from.done == c.list
              && (!o.unique ==> rs[0].from.pending == Fresh(fns, c.next))
  {
    var z := Zipper(c.list, [], if c.memory.Some? then [c.memory.value] else [], c.next);
    AddAllQueue(o, z, fns);
    AddAllAdds(o, z, fns);
    if !o.unique {
      AddAllFresh(o, z, fns);
      assert [] + Fresh(fns, c.next) == Fresh(fns, c.next);
    }
  }

  /** What is remembered after a fire: the arguments served last, unless that pass was stopped. */
  lemma {:induction false} MemoryIsLastServed(o: Options, z: Zipper, script: seq<Reply>, memory: Option<Args>)
    ensures var rs := Records(o, z, script);
            Passes(o, z, script, memory).memory ==
              if rs == [] then memory else if rs[|rs| - 1].stopped then None else Some(rs[|rs| - 1].args)
    decreases |script|, |z.queue|
  {
    if z.queue != [] {
      var from := z.(queue := z.queue[1..]);
      var p := FirstPass(o, z, script);
      PassGrowsOrUses(o, from, z.queue[0], script);
      PassUsesScript(o, from, z.queue[0], script);
      MemoryIsLastServed(o, Rewind(p.z), p.script, if p.stopped then None else Some(z.queue[0]));
      UnfoldRecords(o, z, script);
      UnfoldPasses(o, z, script, memory);
    }
  }

  // ------------------------------------------------------- lists that accept duplicates

  function Fresh(fns: seq<Fn>, next: nat): seq<Entry> {
    if fns == [] then [] else [Entry(fns[0], next)] + Fresh(fns[1..], next + 1)
  }

  lemma {:induction false} AddAllFresh(o: Options, z: Zipper, fns: seq<Fn>)
    requires !o.unique
    ensures AddAll(o, z, fns) == z.(pending := z.pending + Fresh(fns, z.next), next := z.next + |fns|)
    decreases |fns|
  {
    if fns == [] {
      assert z.pending + [] == z.pending;
    } else {
      var e := Entry(fns[0], z.next);
      AddAllFresh(o, z.(pending := z.pending + [e], next := z.next + 1), fns[1..]);
      assert (z.pending + [e]) + Fresh(fns[1..], z.next + 1) == z.pending + ([e] + Fresh(fns[1..], z.next + 1));
    }
  }
}
