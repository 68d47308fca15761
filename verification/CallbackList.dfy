/** The Callbacks object itself: one flat list and a firingIndex that add and remove adjust.
    Its methods are proved against the zipper model of module Callbacks. */
module CallbackList {
  import opened Wrappers
  import opened Callbacks

  // jQuery.inArray( fn, list, from )
  function InArray(fn: Fn, s: seq<Entry>, from: nat): (r: int)
    requires from <= |s|
    ensures r == -1 || (from <= r < |s| && s[r].fn == fn)
    ensures forall i :: from <= i < (if r == -1 then |s| else r) ==> s[i].fn != fn
    decreases |s| - from
  {
    if from == |s| then -1 else if s[from].fn == fn then from else InArray(fn, s, from + 1)
  }

  lemma {:induction false} DropNothing(s: seq<Entry>, fn: Fn)
    requires forall i :: 0 <= i < |s| ==> s[i].fn != fn
    ensures Drop(s, fn) == s
  {
    if s != [] { DropNothing(s[1..], fn); }
  }

  // Splicing out an entry of the function being dropped changes nothing for Drop.
  lemma SpliceDrop(s: seq<Entry>, i: nat, fn: Fn)
    requires i < |s| && s[i].fn == fn
    ensures Drop(s[..i] + s[i + 1..], fn) == Drop(s, fn)
  {
    assert s == s[..i] + ([s[i]] + s[i + 1..]);
    DropConcat(s[..i], [s[i]] + s[i + 1..], fn);
    DropConcat([s[i]], s[i + 1..], fn);
    DropConcat(s[..i], s[i + 1..], fn);
  }

  // list.splice( index, 1 )
  function Splice(s: seq<Entry>, index: nat): seq<Entry>
    requires index < |s|
  {
    s[..index] + s[index + 1..]
  }

  predicate NoneBefore(fn: Fn, s: seq<Entry>, k: nat)
    requires k <= |s|
  {
    forall i :: 0 <= i < k ==> s[i].fn != fn
  }

  // What dropping `fn` leaves on either side of the turn.
  ghost function DropParts(fn: Fn, s: seq<Entry>, firingIndex: int): (seq<Entry>, seq<Entry>)
    requires -1 <= firingIndex < |s|
  {
    (Drop(s[..firingIndex + 1], fn), Drop(s[firingIndex + 1..], fn))
  }

  lemma AllDropped(fn: Fn, s: seq<Entry>, firingIndex: int)
    requires -1 <= firingIndex < |s| && NoneBefore(fn, s, |s|)
    ensures DropParts(fn, s, firingIndex) == (s[..firingIndex + 1], s[firingIndex + 1..])
  {
    DropNothing(s[..firingIndex + 1], fn);
    DropNothing(s[firingIndex + 1..], fn);
  }

  lemma Spliced(list: seq<Entry>, index: nat, firingIndex: int, fn: Fn)
    requires -1 <= firingIndex < |list| && index < |list| && list[index].fn == fn && NoneBefore(fn, list, index)
    ensures var s := Splice(list, index); var f := if index <= firingIndex then firingIndex - 1 else firingIndex;
            && -1 <= f < |s| == |list| - 1 && NoneBefore(fn, s, index)
            && DropParts(fn, s, f) == DropParts(fn, list, firingIndex)
  {
    var s := Splice(list, index);
    var done, pending := list[..firingIndex + 1], list[firingIndex + 1..];
    if index <= firingIndex {
      assert s[..firingIndex] == done[..index] + done[index + 1..];
      assert s[firingIndex..] == pending;
      SpliceDrop(done, index, fn);
    } else {
      var i := index - firingIndex - 1;
      assert s[..firingIndex + 1] == done;
      assert s[firingIndex + 1..] == pending[..i] + pending[i + 1..];
      SpliceDrop(pending, i, fn);
    }
  }

  lemma PartsAfterPush(s: seq<Entry>, k: nat, e: Entry)
    requires k <= |s|
    ensures (s + [e])[..k] == s[..k] && (s + [e])[k..] == s[k..] + [e]
  {
  }

  class CallbackList {
    const o: Options
    var firing: bool
    var memory: Option<Args>
    var fired: bool
    var locked: bool
    var list: seq<Entry>
    var spent: bool          // list = "" in the source
    var queue: seq<Args>
    var firingIndex: int
    var next: nat            // numbers registrations
    var log: seq<Ran>        // history of calls

    constructor (o: Options)
      ensures this.o == o && Quiet() && !locked && !fired && !spent && memory.None? && list == [] && log == [] && next == 0
    {
      this.o := o;
      firing, memory, fired, locked, list, spent, queue, firingIndex := false, None, false, false, [], false, [], -1;
      next, log := 0, [];
    }

    ghost predicate InRange()
      reads this
    {
      -1 <= firingIndex < |list|
    }

    // Between calls from outside.
    ghost predicate Quiet()
      reads this
    {
      !firing && queue == [] && firingIndex == -1 && (spent ==> list == [])
    }

    ghost function Zip(): Zipper
      reads this
      requires InRange()
    {
      Zipper(list[..firingIndex + 1], list[firingIndex + 1..], queue, next)
    }

    // The part of add that pushes; duplicates are skipped if the list is unique.
    method Push(fns: seq<Fn>)
      requires InRange()
      modifies this`list, this`next
      ensures InRange() && Zip() == AddAll(o, old(Zip()), fns)
    {
      ghost var want := AddAll(o, Zip(), fns);
      for i := 0 to |fns|
        invariant InRange() && AddAll(o, Zip(), fns[i..]) == want
      {
        assert fns[i..][0] == fns[i] && fns[i..][1..] == fns[i + 1..];
        AddAllOne(o, Zip(), fns[i..]);
        PushFn(fns[i]);
      }
      assert fns[|fns|..] == [];
    }

    method PushFn(fn: Fn)
      requires InRange()
      modifies this`list, this`next
      ensures InRange() && Zip() == AddOne(o, old(Zip()), fn)
    {
      assert list == list[..firingIndex + 1] + list[firingIndex + 1..];
      if !o.unique || InArray(fn, list, 0) == -1 {
        PartsAfterPush(list, firingIndex + 1, Entry(fn, next));
        list, next := list + [Entry(fn, next)], next + 1;
      }
    }

    // remove, for one argument: splice every occurrence out, keeping firingIndex in step.
    method RemoveFn(fn: Fn)
      requires InRange()
      modifies this`list, this`firingIndex
      ensures InRange()
      ensures Zip() == old(Zip()).(done := Drop(old(Zip().done), fn), pending := Drop(old(Zip().pending), fn))
    {
      var index := InArray(fn, list, 0);
      while index > -1
        invariant InRange() && -1 <= index < |list|
        invariant index > -1 ==> list[index].fn == fn
        invariant NoneBefore(fn, list, if index == -1 then |list| else index)
        invariant DropParts(fn, list, firingIndex) == DropParts(fn, old(list), old(firingIndex))
        decreases |list|
      {
        Spliced(list, index, firingIndex, fn);
        list := Splice(list, index);
        if index <= firingIndex {
          firingIndex := firingIndex - 1;
        }
        index := InArray(fn, list, index);
      }
      AllDropped(fn, list, firingIndex);
    }

    method Remove(fns: seq<Fn>)
      requires InRange()
      modifies this`list, this`firingIndex
      ensures InRange() && Zip() == RemoveAll(old(Zip()), fns)
      ensures Zip() == old(Zip()).(done := Keep(old(Zip().done), fns), pending := Keep(old(Zip().pending), fns))
    {
      RemoveAllKeeps(Zip(), fns);
      ghost var want := RemoveAll(Zip(), fns);
      for i := 0 to |fns|
        invariant InRange() && RemoveAll(Zip(), fns[i..]) == want
      {
        assert fns[i..][0] == fns[i] && fns[i..][1..] == fns[i + 1..];
        RemoveFn(fns[i]);
      }
      assert fns[|fns|..] == [];
    }

    // A call made by a callback of this list while it is firing.
    method Reenter(op: Op)
      requires InRange() && firing && !spent && locked == o.once
      modifies this`list, this`next, this`firingIndex, this`queue
      ensures InRange() && Zip() == Perform(o, old(Zip()), op)
    {
      match op
      case Add(fns) => Push(fns);
      case Remove(fns) => Remove(fns);
      case FireWith(args) =>
        if !locked {
          queue := queue + [args];
        }
    }

    method ReenterAll(ops: seq<Op>)
      requires InRange() && firing && !spent && locked == o.once
      modifies this`list, this`next, this`firingIndex, this`queue
      ensures InRange() && Zip() == PerformAll(o, old(Zip()), ops)
    {
      ghost var want := PerformAll(o, Zip(), ops);
      for i := 0 to |ops|
        invariant InRange() && PerformAll(o, Zip(), ops[i..]) == want
      {
        assert ops[i..][0] == ops[i] && ops[i..][1..] == ops[i + 1..];
        Reenter(ops[i]);
      }
      assert ops[|ops|..] == [];
    }

    // One turn of the inner loop of fire, `++firingIndex` having found a callback to run.
    method Turn(args: Args, reply: Reply)
      requires InRange() && firing && !spent && locked == o.once && firingIndex + 1 < |list|
      modifies this`list, this`next, this`firingIndex, this`queue, this`log, this`memory
      ensures var x := old(Zip().pending)[0];
              var z := PerformAll(o, old(Zip()).(done := old(Zip().done) + [x], pending := old(Zip().pending)[1..]), reply.ops);
              && log == old(log) + [Ran(args, x)]
              && list == z.done + z.pending && queue == z.queue && next == z.next
              && if reply.isFalse && o.stopOnFalse then firingIndex == |list| && memory.None?
                 else InRange() && Zip() == z && memory == old(memory)
    {
      firingIndex := firingIndex + 1;
      log := log + [Ran(args, list[firingIndex])];
      assert list[..firingIndex + 1] == old(Zip().done) + [list[firingIndex]];
      assert list[firingIndex + 1..] == old(Zip().pending)[1..];
      ReenterAll(reply.ops);
      assert list == list[..firingIndex + 1] + list[firingIndex + 1..];
      if reply.isFalse && o.stopOnFalse {
        firingIndex := |list|;
        memory := None;
      }
    }

    // The inner loop of fire.
    method RunPass(args: Args, script: seq<Reply>) returns (rest: seq<Reply>)
      requires InRange() && firing && !spent && locked == o.once
      modifies this`list, this`next, this`firingIndex, this`queue, this`log, this`memory
      ensures var p := Pass(o, old(Zip()), args, script);
              && rest == p.script && log == old(log) + p.log
              && list == p.z.done + p.z.pending && queue == p.z.queue && next == p.z.next
              && memory == if p.stopped then None else old(memory)
    {
      rest := script;
      ghost var p := Pass(o, Zip(), args, script);
      while firingIndex + 1 < |list|
        invariant InRange() || (firingIndex == |list| && p.stopped)
        invariant InRange() ==>
                    var q := Pass(o, Zip(), args, rest);
                    && p == q.(log := p.log) && old(log) + p.log == log + q.log && memory == old(memory)
        invariant !InRange() ==>
                    && rest == p.script && log == old(log) + p.log && memory.None?
                    && list == p.z.done + p.z.pending && queue == p.z.queue && next == p.z.next
        decreases |rest|, |list| - firingIndex
      {
        var reply := Head(rest);
        ghost var x, q := Zip().pending[0], Pass(o, Zip(), args, rest);
        ghost var was := log;
        Turn(args, reply);
        rest := Tail(rest);
        if InRange() {
          ghost var q' := Pass(o, Zip(), args, rest);
          assert q == q'.(log := [Ran(args, x)] + q'.log);
          assert was + ([Ran(args, x)] + q'.log) == (was + [Ran(args, x)]) + q'.log;
        }
      }
      if InRange() {
        assert list == list[..firingIndex + 1] + list[firingIndex + 1..];
        assert Pass(o, Zip(), args, rest).log == [];
      }
    }

    // The state a fire leaves, given the list, memory and history it started from.
    ghost predicate FiredFrom(z: Zipper, mem: Option<Args>, was: seq<Ran>, script: seq<Reply>, rest: seq<Reply>)
      reads this
    {
      var f := Passes(o, z, script, mem);
      && rest == f.script && log == was + f.log && next == f.z.next
      && memory == (if o.memory then f.memory else None)
      && list == (if o.once then [] else f.z.done + f.z.pending)
      && spent == (o.once && memory.None?)
      && fired && locked == o.once
    }

    // One turn of the outer loop of fire.
    method Serve(script: seq<Reply>) returns (rest: seq<Reply>)
      requires InRange() && firing && !spent && locked == o.once && queue != []
      modifies this`list, this`next, this`firingIndex, this`queue, this`log, this`memory
      ensures InRange() && firingIndex == -1
      ensures var z := old(Zip()); var p := Pass(o, z.(queue := z.queue[1..]), z.queue[0], script);
              && Zip() == Rewind(p.z) && rest == p.script && log == old(log) + p.log
              && memory == if p.stopped then None else Some(z.queue[0])
    {
      var args := queue[0];
      memory := Some(args);
      queue := queue[1..];
      rest := RunPass(args, script);
      firingIndex := -1;
      assert list[..0] == [] && list[0..] == list;
    }

    // The outer loop of fire.
    method ServeAll(script: seq<Reply>) returns (rest: seq<Reply>)
      requires InRange() && firing && !spent && locked == o.once && queue != []
      modifies this`list, this`next, this`firingIndex, this`queue, this`log, this`memory
      ensures firingIndex == -1 && queue == []
      ensures var f := Passes(o, old(Zip()), script, old(memory));
              && list == f.z.done + f.z.pending && next == f.z.next
              && rest == f.script && memory == f.memory && log == old(log) + f.log
    {
      ghost var f := Passes(o, Zip(), script, memory);
      rest := script;
      while queue != []
        invariant InRange()
        invariant var g := Passes(o, Zip(), rest, memory);
                  && f.z == g.z && f.script == g.script && f.memory == g.memory && old(log) + f.log == log + g.log
        invariant queue == [] ==> firingIndex == -1
        decreases |rest|, |queue|
      {
        ghost var z, was, before := Zip(), log, rest;
        ghost var p := Pass(o, z.(queue := z.queue[1..]), z.queue[0], before);
        PassUsesScript(o, z.(queue := z.queue[1..]), z.queue[0], before);
        PassGrowsOrUses(o, z.(queue := z.queue[1..]), z.queue[0], before);
        rest := Serve(rest);
        Joined(was, p.log, Passes(o, Zip(), rest, memory).log);
      }
      assert list == list[..firingIndex + 1] + list[firingIndex + 1..];
    }

    /** fire: serve the queue, one pass each, then clean up. */
    method Fire(script: seq<Reply>) returns (rest: seq<Reply>)
      requires InRange() && !firing && !spent && queue != []
      modifies this
      ensures Quiet() && FiredFrom(old(Zip()), old(memory), old(log), script, rest)
    {
      locked := o.once;
      fired, firing := true, true;
      rest := ServeAll(script);
      if !o.memory {
        memory := None;
      }
      firing := false;
      if locked {
        spent := memory.None?;
        list := [];
      }
    }

    /** add, called from outside: if the list remembers a fire, the new callbacks run at once
        with it; the turn starts at the end of the old list. */
    method Add(fns: seq<Fn>, script: seq<Reply>) returns (rest: seq<Reply>)
      requires Quiet()
      modifies this
      ensures Quiet()
      ensures old(spent) ==> unchanged(this) && rest == script
      ensures !old(spent) && old(memory).None? ==>
                var z := AddAll(o, Zipper(old(list), [], [], old(next)), fns);
                && list == z.done + z.pending && next == z.next && rest == script
                && unchanged(`log, `memory, `spent, `locked, `fired)
      ensures !old(spent) && old(memory).Some? ==>
                FiredFrom(AddAll(o, Zipper(old(list), [], [old(memory).value], old(next)), fns), old(memory), old(log), script, rest)
    {
      rest := script;
      if !spent {
        if memory.Some? {
          firingIndex := |list| - 1;
          queue := queue + [memory.value];
          assert list[..firingIndex + 1] == list && list[firingIndex + 1..] == [] && queue == [memory.value];
          assert Zip() == Zipper(old(list), [], [old(memory).value], old(next));
          Push(fns);
          AddAllQueue(o, Zipper(old(list), [], [old(memory).value], old(next)), fns);
          rest := Fire(script);
        } else {
          PushIdle(fns);
        }
      }
    }

    // Pushing onto a list that is not firing: the turn is before its start.
    method PushIdle(fns: seq<Fn>)
      requires Quiet() && !spent
      modifies this`list, this`next
      ensures Quiet()
      ensures var z := AddAll(o, Zipper(old(list), [], [], old(next)), fns);
              list == z.done + z.pending && next == z.next
    {
      ghost var before := list;
      assert list[..0] == [] && list[0..] == list;
      Push(fns);
      AddAllSplit(o, Zipper([], before, [], old(next)), Zipper(before, [], [], old(next)), fns);
      assert list == list[..0] + list[0..];
    }

    /** fireWith, called from outside: ignored once locked. */
    method FireWith(args: Args, script: seq<Reply>) returns (rest: seq<Reply>)
      requires Quiet() && (spent ==> locked)
      modifies this
      ensures Quiet()
      ensures old(locked) ==> unchanged(this) && rest == script
      ensures !old(locked) ==> FiredFrom(Zipper([], old(list), [args], old(next)), old(memory), old(log), script, rest)
    {
      rest := script;
      if !locked {
        queue := queue + [args];
        assert list[..0] == [] && list[0..] == list && queue == [args];
        assert Zip() == Zipper([], old(list), [args], old(next));
        rest := Fire(script);
      }
    }

    // What the list is between calls from outside.
    function State(): Idle
      reads this
    {
      Idle(list, next, memory, locked, spent)
    }

    /** Between calls from outside, in any history: entries are in registration order, and a
        unique list has no function twice. */
    ghost predicate Settled()
      reads this
    {
      Quiet() && Sound(State()) && (o.unique ==> OncePerFn(list))
    }

    /** Any call from outside does to the object what it does in the reference meaning. */
    method Call(op: Op, script: seq<Reply>)
      requires Settled()
      modifies this
      ensures Settled() && State() == After(o, old(State()), op, script)
      ensures log == old(log) + Passes(o, Opening(o, old(State()), op), script, old(memory)).log
    {
      ghost var c, was := State(), log;
      AfterSound(o, c, op, script);
      AfterNoRepeat(o, c, op, script);
      assert was + [] == was;
      match op {
        case Add(fns) => AddFrom(c, fns, script);
        case Remove(fns) => RemoveFrom(c, fns, script);
        case FireWith(args) => var _ := FireWith(args, script);
      }
    }

    method AddFrom(ghost c: Idle, fns: seq<Fn>, script: seq<Reply>)
      requires Quiet() && c == State() && (spent ==> list == [])
      modifies this
      ensures Quiet() && State() == After(o, c, Op.Add(fns), script)
      ensures log == old(log) + Passes(o, Opening(o, c, Op.Add(fns)), script, c.memory).log
    {
      AddAllQueue(o, Zipper(c.list, [], if c.memory.Some? then [c.memory.value] else [], c.next), fns);
      assert log + [] == log;
      var _ := Add(fns, script);
    }

    method RemoveFrom(ghost c: Idle, fns: seq<Fn>, ghost script: seq<Reply>)
      requires Quiet() && c == State()
      modifies this`list, this`firingIndex
      ensures Quiet() && State() == After(o, c, Op.Remove(fns), script)
      ensures Opening(o, c, Op.Remove(fns)).queue == []
    {
      assert list[..0] == [] && list[0..] == list;
      RemovePending(list, next, fns);
      Remove(fns);
      assert list == list[..firingIndex + 1] + list[firingIndex + 1..];
    }

    /** disable: no more adds or fires, and nothing waiting or remembered. */
    method Disable()
      requires Quiet()
      modifies this
      ensures Quiet() && locked && spent && list == [] && memory.None? && unchanged(`log, `next, `fired)
    {
      locked, queue := true, [];
      list, spent, memory := [], true, None;
    }
  }

  // Where the turn stands does not matter to what add appends.
  lemma {:induction false} AddAllSplit(o: Options, a: Zipper, b: Zipper, fns: seq<Fn>)
    requires a.done + a.pending == b.done + b.pending && a.next == b.next
    ensures var x, y := AddAll(o, a, fns), AddAll(o, b, fns);
            x.done + x.pending == y.done + y.pending && x.next == y.next
    decreases |fns|
  {
    if fns != [] {
      if !(o.unique && Has(a.done + a.pending, fns[0])) {
        var e := Entry(fns[0], a.next);
        var a', b' := a.(pending := a.pending + [e], next := a.next + 1), b.(pending := b.pending + [e], next := b.next + 1);
        assert a'.done + a'.pending == (a.done + a.pending) + [e];
        assert b'.done + b'.pending == (b.done + b.pending) + [e];
        AddAllSplit(o, a', b', fns[1..]);
      } else {
        AddAllSplit(o, a, b, fns[1..]);
      }
    }
  }

  // Removing from a list whose turn is before its start.
  lemma {:induction false} RemovePending(list: seq<Entry>, next: nat, fns: seq<Fn>)
    ensures var z := RemoveAll(Zipper([], list, [], next), fns);
            z.done == [] && z.queue == [] && z.next == next && (list == [] ==> z.pending == [])
    decreases |fns|
  {
    if fns != [] { RemovePending(Drop(list, fns[0]), next, fns[1..]); }
  }

  /** Any history of add, remove and fireWith, with any calls made by the callbacks: the calls
      made are those of a row of passes, one for each fire served and first come first served,
      each running what the pass law says, from the list the history has left. */
  method History(o: Options, ops: seq<Op>, scripts: seq<seq<Reply>>) returns (c: CallbackList, ghost rss: seq<seq<Served>>)
    requires |scripts| == |ops|
    ensures fresh(c) && c.Settled() && c.o == o
    ensures rss == HistoryOf(o, Idle([], 0, None, false, false), ops, scripts)
    ensures |rss| == |ops| && HistoryLaw(o, Idle([], 0, None, false, false), ops, scripts, rss)
    ensures c.log == LogOf(Flatten(rss)) && c.State() == StateAt(o, Idle([], 0, None, false, false), ops, scripts, |ops|)
  {
    c := new CallbackList(o);
    rss := HistoryOf(o, c.State(), ops, scripts);
    HistoryIsLawful(o, c.State(), ops, scripts);
    assert ops[0..] == ops && scripts[0..] == scripts;
    for i := 0 to |ops|
      invariant c.Settled() && fresh(c) && c.o == o && c.State() == StateAt(o, Idle([], 0, None, false, false), ops, scripts, i)
      invariant LogOf(Flatten(rss)) == c.log + LogFrom(o, c.State(), ops, scripts, i)
    {
      ghost var was, d := c.log, c.State();
      LogFromStep(o, d, ops, scripts, i);
      c.Call(ops[i], scripts[i]);
      Joined(was, Passes(o, Opening(o, d, ops[i]), scripts[i], d.memory).log, LogFrom(o, c.State(), ops, scripts, i + 1));
    }
    assert LogFrom(o, c.State(), ops, scripts, |ops|) == [];
  }
}
