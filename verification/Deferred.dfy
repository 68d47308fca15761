/** jQuery.Deferred (app/publisher/jquery.js): two "once memory" callback lists, each starting
    with callbacks of the Deferred's own that set the state, disable the other list and lock
    the progress list. */
module Deferred {
  import opened Wrappers
  import opened Callbacks
  import opened CallbackList

  datatype Side = Resolved | Rejected
  datatype State = Pending | Settled(side: Side)

  // What user code may call on the Deferred, from outside or from one of its callbacks.
  // Function n of the user is Fn n + 3; 0, 1 and 2 are the Deferred's own.
  datatype Call = On(side: Side, fns: seq<nat>) | Settle(side: Side, args: Args)

  const SET_STATE: Fn := 0
  const DISABLE_OTHER: Fn := 1
  const LOCK_PROGRESS: Fn := 2
  const OWN: seq<Fn> := [SET_STATE, DISABLE_OTHER, LOCK_PROGRESS]
  const ONCE_MEMORY := Options(true, true, false, false)

  function UserFns(fns: seq<nat>): (r: seq<Fn>)
    ensures |r| == |fns| && forall i :: 0 <= i < |r| ==> r[i] == fns[i] + 3
  {
    seq(|fns|, i requires 0 <= i < |fns| => fns[i] + 3)
  }

  // The calls expected of a list of registrations: each once, in order, with these arguments.
  function RanAll(args: Args, regs: seq<Entry>): (r: seq<Ran>)
    ensures |r| == |regs| && forall i :: 0 <= i < |r| ==> r[i] == Ran(args, regs[i])
  {
    seq(|regs|, i requires 0 <= i < |regs| => Ran(args, regs[i]))
  }

  // Registrations of user callbacks, all different, with numbers below `next`.
  ghost predicate User(s: seq<Entry>, next: nat) {
    Numbered(s) && forall i :: 0 <= i < |s| ==> s[i].fn >= 3 && s[i].reg < next
  }

  lemma {:induction false} FreshUser(fns: seq<Fn>, next: nat)
    requires forall i :: 0 <= i < |fns| ==> fns[i] >= 3
    ensures User(Fresh(fns, next), next + |fns|)
    ensures forall i :: 0 <= i < |Fresh(fns, next)| ==> Fresh(fns, next)[i].reg >= next
  {
    if fns != [] { FreshUser(fns[1..], next + 1); }
  }

  // ------------------------------------------------------------------ the simple meaning

  function Other(s: Side): Side {
    if s == Resolved then Rejected else Resolved
  }

  // What a callback's calls register on the side that is firing.
  function Taken(side: Side, calls: seq<Call>): seq<nat> {
    if calls == [] then []
    else Taken(side, calls[..|calls| - 1]) + TakenBy(side, calls[|calls| - 1])
  }

  function TakenBy(side: Side, c: Call): seq<nat> {
    if c.On? && c.side == side then c.fns else []
  }

  function HeadCalls(script: seq<seq<Call>>): seq<Call> {
    if script == [] then [] else script[0]
  }

  function TailCalls(script: seq<seq<Call>>): seq<seq<Call>> {
    if script == [] then [] else script[1..]
  }

  /** The functions run by a fire, in order: those waiting, each of which may register more. */
  function Drain(side: Side, waiting: seq<nat>, script: seq<seq<Call>>): seq<nat>
    decreases |script|, |waiting|
  {
    if waiting == [] then []
    else [waiting[0]] + Drain(side, waiting[1..] + Taken(side, HeadCalls(script)), TailCalls(script))
  }

  function TakenAll(side: Side, script: seq<seq<Call>>): seq<nat> {
    if script == [] then [] else Taken(side, script[0]) + TakenAll(side, script[1..])
  }

  // Every callback that runs uses up one reply, while there are any.
  function Used(side: Side, waiting: seq<nat>, script: seq<seq<Call>>): seq<seq<Call>> {
    var n := |Drain(side, waiting, script)|;
    if n <= |script| then script[..n] else script
  }

  // The first callback run, with its reply.
  lemma UsedStep(side: Side, waiting: seq<nat>, script: seq<seq<Call>>)
    requires waiting != [] && script != []
    ensures Used(side, waiting, script) == [script[0]] + Used(side, waiting[1..] + Taken(side, script[0]), script[1..])
  {
    DrainStep(side, waiting, script);
    FirstOf(script, |Drain(side, waiting[1..] + Taken(side, script[0]), script[1..])|);
  }

  lemma DrainStep(side: Side, waiting: seq<nat>, script: seq<seq<Call>>)
    requires waiting != [] && script != []
    ensures |Drain(side, waiting, script)| == 1 + |Drain(side, waiting[1..] + Taken(side, script[0]), script[1..])|
  {
  }

  lemma FirstOf(script: seq<seq<Call>>, n: nat)
    requires script != []
    ensures (if n + 1 <= |script| then script[..n + 1] else script) ==
            [script[0]] + if n <= |script[1..]| then script[1..][..n] else script[1..]
  {
  }

  lemma Regroup(x: nat, xs: seq<nat>, more: seq<nat>, t: seq<nat>)
    ensures [x] + ((xs + more) + t) == ([x] + xs) + (more + t)
  {
  }

  ghost predicate DrainLaw(side: Side, waiting: seq<nat>, script: seq<seq<Call>>) {
    Drain(side, waiting, script) == waiting + TakenAll(side, Used(side, waiting, script))
  }

  lemma DrainLawWithout(side: Side, waiting: seq<nat>)
    requires waiting != [] && DrainLaw(side, waiting[1..], [])
    ensures DrainLaw(side, waiting, [])
  {
    assert Used(side, waiting, []) == [] && Used(side, waiting[1..], []) == [];
    assert waiting[1..] + Taken(side, []) == waiting[1..];
    assert Drain(side, waiting, []) == [waiting[0]] + Drain(side, waiting[1..], []);
    assert Drain(side, waiting[1..], []) == waiting[1..] + [];
  }

  lemma DrainLawStep(side: Side, waiting: seq<nat>, script: seq<seq<Call>>)
    requires waiting != [] && script != [] && DrainLaw(side, waiting[1..] + Taken(side, script[0]), script[1..])
    ensures DrainLaw(side, waiting, script)
  {
    var more := Taken(side, script[0]);
    var later := Used(side, waiting[1..] + more, script[1..]);
    UsedStep(side, waiting, script);
    assert ([script[0]] + later)[1..] == later;
    assert TakenAll(side, [script[0]] + later) == more + TakenAll(side, later);
    Regroup(waiting[0], waiting[1..], more, TakenAll(side, later));
    assert [waiting[0]] + waiting[1..] == waiting;
  }

  /** So what runs is exactly what was waiting and then what the replies used registered. */
  lemma {:induction false} DrainIsWaitingAndTaken(side: Side, waiting: seq<nat>, script: seq<seq<Call>>)
    ensures DrainLaw(side, waiting, script)
    decreases |script|, |waiting|
  {
    if waiting == [] {
      assert Used(side, waiting, script) == [];
    } else if script == [] {
      DrainIsWaitingAndTaken(side, waiting[1..], []);
      DrainLawWithout(side, waiting);
    } else {
      DrainIsWaitingAndTaken(side, waiting[1..] + Taken(side, script[0]), script[1..]);
      DrainLawStep(side, waiting, script);
    }
  }

  // The functions run so far, and those the rest of the fire will run.
  function Total(side: Side, fns: seq<nat>, r: nat, script: seq<seq<Call>>): seq<nat>
    requires r <= |fns|
  {
    fns[..r] + Drain(side, fns[r..], script)
  }

  lemma TotalFromStart(side: Side, fns: seq<nat>, script: seq<seq<Call>>)
    ensures Total(side, fns, 0, script) == Drain(side, fns, script)
  {
    assert fns[0..] == fns;
  }

  lemma TotalAfter(side: Side, ran: seq<nat>, fns: seq<nat>, script: seq<seq<Call>>)
    ensures Total(side, ran + fns, |ran|, script) == ran + Drain(side, fns, script)
  {
    assert (ran + fns)[..|ran|] == ran && (ran + fns)[|ran|..] == fns;
  }

  lemma TotalStep(side: Side, fns: seq<nat>, r: nat, script: seq<seq<Call>>, now: seq<nat>)
    requires r < |fns| && now == fns + Taken(side, HeadCalls(script))
    ensures Total(side, now, r + 1, TailCalls(script)) == Total(side, fns, r, script)
  {
    var more := Taken(side, HeadCalls(script));
    assert now[..r + 1] == fns[..r] + [fns[r]];
    assert now[r + 1..] == fns[r..][1..] + more;
    var d := Drain(side, fns[r..][1..] + more, TailCalls(script));
    assert (fns[..r] + [fns[r]]) + d == fns[..r] + ([fns[r]] + d);
  }

  // What a history amounts to: who has won, and the functions accepted on each side.
  datatype Meaning = Meaning(winner: Option<Call>, done: seq<nat>, fail: seq<nat>) {
    function Of(side: Side): seq<nat> { if side == Resolved then done else fail }

    function With(side: Side, fns: seq<nat>): Meaning {
      if side == Resolved then this.(done := fns) else this.(fail := fns)
    }
  }

  /** One call from outside, and the replies of the callbacks it runs: while pending functions
      wait; the first settling call runs its side's; later ones run at once or never. */
  function After1(m: Meaning, c: Call, script: seq<seq<Call>>): Meaning {
    match c
    case On(side, fns) =>
      if m.winner.None? then m.With(side, m.Of(side) + fns)
      else if m.winner.value.side == side then m.With(side, m.Of(side) + Drain(side, fns, script))
      else m
    case Settle(side, args) =>
      if m.winner.None? then m.(winner := Some(c)).With(side, Drain(side, m.Of(side), script)) else m
  }

  function After(calls: seq<Call>, scripts: seq<seq<seq<Call>>>): Meaning
    requires |scripts| == |calls|
  {
    if calls == [] then Meaning(None, [], [])
    else
      var n := |calls| - 1;
      After1(After(calls[..n], scripts[..n]), calls[n], scripts[n])
  }

  // The replies used by the callbacks that one call from outside makes run.
  function UsedIn(m: Meaning, c: Call, script: seq<seq<Call>>): seq<seq<Call>> {
    match c
    case On(side, fns) => if m.winner.Some? && m.winner.value.side == side then Used(side, fns, script) else []
    case Settle(side, _) => if m.winner.None? then Used(side, m.Of(side), script) else []
  }

  /** All functions registered on a side: by the calls from outside, each followed by those the
      replies it used registered. */
  function Registered(side: Side, calls: seq<Call>, scripts: seq<seq<seq<Call>>>): seq<nat>
    requires |scripts| == |calls|
  {
    if calls == [] then []
    else
      var n := |calls| - 1;
      var m := After(calls[..n], scripts[..n]);
      Registered(side, calls[..n], scripts[..n]) + (TakenBy(side, calls[n]) + TakenAll(side, UsedIn(m, calls[n], scripts[n])))
  }

  lemma AcceptsStep(m: Meaning, c: Call, script: seq<seq<Call>>, side: Side)
    requires After1(m, c, script).winner.None? || After1(m, c, script).winner.value.side == side
    ensures After1(m, c, script).Of(side) == m.Of(side) + (TakenBy(side, c) + TakenAll(side, UsedIn(m, c, script)))
  {
    match c
    case On(s, fns) =>
      DrainIsWaitingAndTaken(s, fns, script);
      assert TakenAll(side, []) == [] && fns + [] == fns && m.Of(side) + [] == m.Of(side);
    case Settle(s, _) =>
      DrainIsWaitingAndTaken(s, m.Of(s), script);
      assert [] + TakenAll(side, UsedIn(m, c, script)) == TakenAll(side, UsedIn(m, c, script));
      assert m.Of(side) + [] == m.Of(side);
  }

  /** The winning side has accepted everything ever registered on it, before or after settling,
      from outside or by a callback, in order. */
  lemma {:induction false} WinnerAcceptsAll(calls: seq<Call>, scripts: seq<seq<seq<Call>>>, side: Side)
    requires |scripts| == |calls|
    requires After(calls, scripts).winner.None? || After(calls, scripts).winner.value.side == side
    ensures After(calls, scripts).Of(side) == Registered(side, calls, scripts)
  {
    if calls != [] {
      var n := |calls| - 1;
      WinnerAcceptsAll(calls[..n], scripts[..n], side);
      AcceptsStep(After(calls[..n], scripts[..n]), calls[n], scripts[n], side);
    }
  }

  // ------------------------------------------------------------------------- the object

  // The user's numbers of the functions registered.
  function FnsOf(s: seq<Entry>): (r: seq<nat>)
    ensures |r| == |s| && forall i :: 0 <= i < |r| ==> r[i] == if s[i].fn >= 3 then s[i].fn - 3 else 0
  {
    seq(|s|, i requires 0 <= i < |s| => if s[i].fn >= 3 then s[i].fn - 3 else 0)
  }

  lemma {:induction false} FreshAt(fns: seq<Fn>, next: nat)
    ensures |Fresh(fns, next)| == |fns|
    ensures forall i :: 0 <= i < |fns| ==> Fresh(fns, next)[i] == Entry(fns[i], next + i)
  {
    if fns != [] { FreshAt(fns[1..], next + 1); }
  }

  lemma TakenNext(side: Side, calls: seq<Call>, i: nat, was: seq<nat>)
    requires i < |calls|
    ensures was + Taken(side, calls[..i]) + TakenBy(side, calls[i]) == was + Taken(side, calls[..i + 1])
  {
    assert calls[..i + 1][..i] == calls[..i];
  }

  lemma NothingFresh(regs: seq<Entry>, next: nat)
    ensures regs + Fresh(UserFns([]), next) == regs && FnsOf(regs) + [] == FnsOf(regs)
  {
  }

  lemma FnsAppend(regs: seq<Entry>, fns: seq<nat>, next: nat)
    ensures FnsOf(regs + Fresh(UserFns(fns), next)) == FnsOf(regs) + fns
  {
    FreshAt(UserFns(fns), next);
  }

  class Deferred {
    const done: CallbackList
    const fail: CallbackList
    var state: State
    var doneRegs: seq<Entry>    // accepted registrations, in order
    var failRegs: seq<Entry>
    var ran: seq<Ran>           // calls of user callbacks, in order

    function ListOf(side: Side): CallbackList {
      if side == Resolved then done else fail
    }

    function Regs(side: Side): seq<Entry>
      reads this
    {
      if side == Resolved then doneRegs else failRegs
    }

    ghost predicate Distinct() {
      done != fail && done.o == ONCE_MEMORY && fail.o == ONCE_MEMORY
    }

    // Not fired yet: the Deferred's own callbacks, then the user's.
    ghost predicate Waiting(side: Side)
      reads this, ListOf(side)
    {
      var t := ListOf(side);
      && t.Quiet() && !t.locked && !t.spent && t.memory.None?
      && t.list == Fresh(OWN, 0) + Regs(side) && User(Regs(side), t.next)
    }

    ghost predicate Disabled(side: Side)
      reads ListOf(side)
    {
      var t := ListOf(side);
      t.Quiet() && t.locked && t.spent && t.memory.None?
    }

    // Fired with these arguments, and every registration has had its one call.
    ghost predicate Fulfilled(side: Side)
      reads this, ListOf(side)
    {
      var t := ListOf(side);
      && t.Quiet() && t.locked && !t.spent && t.memory.Some? && t.list == []
      && ran == RanAll(t.memory.value, Regs(side)) && User(Regs(side), t.next)
    }

    /** What holds between calls from outside: at most one side has fired, its callbacks have
        each run exactly once in registration order, and the other side never runs. */
    ghost predicate Valid()
      reads this, done, fail
    {
      && Distinct()
      && match state
         case Pending => Waiting(Resolved) && Waiting(Rejected) && ran == []
         case Settled(s) => Fulfilled(s) && Disabled(Other(s))
    }

    constructor ()
      ensures Valid() && fresh(done) && fresh(fail) && state == Pending && doneRegs == [] && failRegs == []
    {
      done := new CallbackList(ONCE_MEMORY);
      fail := new CallbackList(ONCE_MEMORY);
      state, doneRegs, failRegs, ran := Pending, [], [], [];
      new;
      AddAllFresh(ONCE_MEMORY, Zipper([], [], [], 0), OWN);
      var _ := done.Add(OWN, []);
      var _ := fail.Add(OWN, []);
      assert [] + ([] + Fresh(OWN, 0)) == Fresh(OWN, 0) + [];
    }

    // list.add onto a list that is not about to fire for it.
    method Accept(side: Side, fns: seq<nat>)
      requires Distinct() && ListOf(side).InRange()
      modifies this`doneRegs, this`failRegs, ListOf(side)`list, ListOf(side)`next
      ensures ListOf(side).InRange()
      ensures var more := Fresh(UserFns(fns), old(ListOf(side).next));
              && ListOf(side).list == old(ListOf(side).list) + more && ListOf(side).next == old(ListOf(side).next) + |fns|
              && (User(old(Regs(side)), old(ListOf(side).next)) ==> User(Regs(side), ListOf(side).next))
              && Regs(side) == old(Regs(side)) + more && Regs(Other(side)) == old(Regs(Other(side)))
              && FnsOf(Regs(side)) == FnsOf(old(Regs(side))) + fns
    {
      var t := ListOf(side);
      FnsAppend(Regs(side), fns, t.next);
      ghost var z, was := t.Zip(), t.list;
      var more := Fresh(UserFns(fns), t.next);
      UserAppend(Regs(side), t.next, fns);
      t.Push(UserFns(fns));
      PushedAll(z, UserFns(fns), was, t.list, t.Zip(), t.firingIndex);
      if side == Resolved {
        doneRegs := doneRegs + more;
      } else {
        failRegs := failRegs + more;
      }
    }

    // In the middle of firing `side` for `args`: the own callbacks in front of the list have
    // run, `before` registrations were run by earlier fires, and the rest are in the list.
    ghost predicate Firing(side: Side, args: Args, own: seq<Entry>, before: nat)
      reads this, done, fail
    {
      var t := ListOf(side);
      && Distinct() && t.InRange() && t.firing && t.locked && !t.spent && t.memory == Some(args) && t.queue == []
      && state == Settled(side) && Disabled(Other(side))
      && before <= |Regs(side)| && User(Regs(side), t.next) && |own| <= t.firingIndex + 1
      && t.list == own + Regs(side)[before..]
      && ran == RanAll(args, Regs(side)[..before + t.firingIndex + 1 - |own|])
    }

    // A call made by a user callback.  The firing list takes registrations; settling again
    // and registering on the other side are ignored.
    method Reenter(side: Side, ghost args: Args, ghost own: seq<Entry>, ghost before: nat, c: Call)
      requires Firing(side, args, own, before)
      modifies this, done, fail
      ensures Firing(side, args, own, before) && ListOf(side).firingIndex == old(ListOf(side).firingIndex)
      ensures Regs(side) == old(Regs(side)) + Fresh(UserFns(TakenBy(side, c)), old(ListOf(side).next)) && ran == old(ran)
      ensures Regs(Other(side)) == old(Regs(Other(side)))
      ensures FnsOf(Regs(side)) == FnsOf(old(Regs(side))) + TakenBy(side, c)
    {
      var t := ListOf(c.side);
      NothingFresh(Regs(side), ListOf(side).next);
      match c
      case On(_, fns) =>
        if !t.spent {
          if t.memory.Some? && !t.firing {
            assert false;    // only the winning list still takes callbacks, and it is firing
          } else {
            Grown(args, own, before, t.list, t.firingIndex, Regs(side), Fresh(UserFns(fns), t.next));
            Accept(c.side, fns);
          }
        }
      case Settle(_, _) =>
        if !t.locked {
          assert false;      // both lists are locked
        }
    }

    // The next callback of the user runs, and makes its calls.
    method UserTurn(side: Side, args: Args, ghost own: seq<Entry>, ghost before: nat, calls: seq<Call>)
      requires Firing(side, args, own, before) && ListOf(side).firingIndex + 1 < |ListOf(side).list|
      modifies this, done, fail
      ensures Firing(side, args, own, before) && ListOf(side).firingIndex == old(ListOf(side).firingIndex) + 1
      ensures |ran| == |old(ran)| + 1 && Regs(Other(side)) == old(Regs(Other(side)))
      ensures FnsOf(Regs(side)) == FnsOf(old(Regs(side))) + Taken(side, calls)
    {
      StartTurn(side, args, own, before);
      assert FnsOf(Regs(side)) + [] == FnsOf(Regs(side)) && calls[..0] == [];
      for i := 0 to |calls|
        invariant Firing(side, args, own, before) && ListOf(side).firingIndex == old(ListOf(side).firingIndex) + 1
        invariant |ran| == |old(ran)| + 1 && Regs(Other(side)) == old(Regs(Other(side)))
        invariant FnsOf(Regs(side)) == FnsOf(old(Regs(side))) + Taken(side, calls[..i])
      {
        TakenNext(side, calls, i, FnsOf(old(Regs(side))));
        Reenter(side, args, own, before, calls[i]);
      }
      assert calls[..|calls|] == calls;
    }

    // The callback itself.
    method StartTurn(side: Side, args: Args, ghost own: seq<Entry>, ghost before: nat)
      requires Firing(side, args, own, before) && ListOf(side).firingIndex + 1 < |ListOf(side).list|
      modifies this`ran, ListOf(side)`firingIndex
      ensures Firing(side, args, own, before) && ListOf(side).firingIndex == old(ListOf(side).firingIndex) + 1
      ensures |ran| == |old(ran)| + 1
    {
      var t := ListOf(side);
      t.firingIndex := t.firingIndex + 1;
      ghost var k := before + t.firingIndex - |own|;
      assert t.list[t.firingIndex] == Regs(side)[k];
      ran := ran + [Ran(args, t.list[t.firingIndex])];
      assert ran == RanAll(args, Regs(side)[..k + 1]);
    }

    // Firing has begun and the Deferred's own callbacks are running.
    ghost predicate Starting(side: Side, args: Args)
      reads this, done, fail
    {
      var t := ListOf(side);
      && Distinct() && t.firing && t.locked && !t.spent && t.memory == Some(args) && t.queue == []
      && -1 <= t.firingIndex < 2 && t.list == Fresh(OWN, 0) + Regs(side) && User(Regs(side), t.next) && ran == []
      && (if t.firingIndex < 0 then state == Pending else state == Settled(side))
      && (if t.firingIndex < 1 then Waiting(Other(side)) else Disabled(Other(side)))
    }

    // The next of the Deferred's own callbacks runs.
    method OwnTurn(side: Side, ghost args: Args)
      requires Starting(side, args)
      modifies this, done, fail
      ensures Starting(side, args) || Firing(side, args, Fresh(OWN, 0), 0)
      ensures ListOf(side).firingIndex == old(ListOf(side).firingIndex) + 1
      ensures Regs(side) == old(Regs(side)) && |ListOf(side).list| == old(|ListOf(side).list|)
      ensures Regs(Other(side)) == old(Regs(Other(side))) && ran == old(ran)
    {
      var t := ListOf(side);
      OwnEntries();
      t.firingIndex := t.firingIndex + 1;
      var fn := t.list[t.firingIndex].fn;
      if fn == SET_STATE {
        state := Settled(side);
      } else if fn == DISABLE_OTHER {
        ListOf(Other(side)).Disable();
      } else {
        assert Regs(side)[..0] == [] && Regs(side)[0..] == Regs(side);
      }
    }

    ghost predicate Running(side: Side, args: Args, own: seq<Entry>, before: nat)
      reads this, done, fail
    {
      (Starting(side, args) && own == Fresh(OWN, 0) && before == 0) || Firing(side, args, own, before)
    }

    // The loop of fire over the list, with callbacks told apart as they are called.
    method RunList(side: Side, args: Args, ghost own: seq<Entry>, ghost before: nat, script: seq<seq<Call>>)
      requires Running(side, args, own, before) && |ran| <= |Regs(side)|
      modifies this, done, fail
      ensures Firing(side, args, own, before) && ListOf(side).firingIndex + 1 == |ListOf(side).list|
      ensures Regs(Other(side)) == old(Regs(Other(side)))
      ensures FnsOf(Regs(side)) == Total(side, FnsOf(old(Regs(side))), |old(ran)|, script)
    {
      var t := ListOf(side);
      var rest := script;
      while t.firingIndex + 1 < |t.list|
        invariant Running(side, args, own, before) && |ran| <= |Regs(side)|
        invariant Regs(Other(side)) == old(Regs(Other(side)))
        invariant Total(side, FnsOf(Regs(side)), |ran|, rest) == Total(side, FnsOf(old(Regs(side))), |old(ran)|, script)
        decreases |rest|, |t.list| - t.firingIndex
      {
        rest := NextTurn(side, args, own, before, rest);
      }
      AllRun(side, args, own, before);
      assert FnsOf(Regs(side))[..|ran|] + [] == FnsOf(Regs(side));
    }

    // One turn of the loop.
    method NextTurn(side: Side, args: Args, ghost own: seq<Entry>, ghost before: nat, script: seq<seq<Call>>)
      returns (rest: seq<seq<Call>>)
      requires Running(side, args, own, before) && |ran| <= |Regs(side)|
      requires ListOf(side).firingIndex + 1 < |ListOf(side).list|
      modifies this, done, fail
      ensures Running(side, args, own, before) && |ran| <= |Regs(side)|
      ensures Regs(Other(side)) == old(Regs(Other(side)))
      ensures Total(side, FnsOf(Regs(side)), |ran|, rest) == Total(side, FnsOf(old(Regs(side))), |old(ran)|, script)
      ensures ListOf(side).firingIndex == old(ListOf(side).firingIndex) + 1
      ensures |rest| < |script| || (rest == script && |ListOf(side).list| == |old(ListOf(side).list)|)
    {
      var t := ListOf(side);
      if t.list[t.firingIndex + 1].fn < 3 {
        OwnNext(side, args, own, before);
        OwnTurn(side, args);
        rest := script;
      } else {
        UserNext(side, args, own, before);
        rest := TurnWith(side, args, own, before, script);
      }
    }

    method TurnWith(side: Side, args: Args, ghost own: seq<Entry>, ghost before: nat, script: seq<seq<Call>>)
      returns (rest: seq<seq<Call>>)
      requires Firing(side, args, own, before) && ListOf(side).firingIndex + 1 < |ListOf(side).list|
      modifies this, done, fail
      ensures Firing(side, args, own, before) && ListOf(side).firingIndex == old(ListOf(side).firingIndex) + 1
      ensures Regs(Other(side)) == old(Regs(Other(side))) && rest == TailCalls(script)
      ensures |old(ran)| < |old(Regs(side))| && |ran| <= |Regs(side)|
      ensures Total(side, FnsOf(Regs(side)), |ran|, rest) == Total(side, FnsOf(old(Regs(side))), |old(ran)|, script)
      ensures script == [] ==> |ListOf(side).list| == |old(ListOf(side).list)|
    {
      ghost var fns, r := FnsOf(Regs(side)), |ran|;
      NotAllRun(side, args, own, before);
      UserTurn(side, args, own, before, HeadCalls(script));
      TotalStep(side, fns, r, script, FnsOf(Regs(side)));
      rest := TailCalls(script);
    }

    lemma NotAllRun(side: Side, args: Args, own: seq<Entry>, before: nat)
      requires Firing(side, args, own, before) && ListOf(side).firingIndex + 1 < |ListOf(side).list|
      ensures |ran| < |Regs(side)|
    {
    }

    lemma AllRun(side: Side, args: Args, own: seq<Entry>, before: nat)
      requires Running(side, args, own, before) && ListOf(side).firingIndex + 1 >= |ListOf(side).list|
      ensures Firing(side, args, own, before) && |ran| == |Regs(side)|
      ensures ListOf(side).firingIndex + 1 == |ListOf(side).list|
    {
      OwnEntries();
    }

    lemma OwnNext(side: Side, args: Args, own: seq<Entry>, before: nat)
      requires Starting(side, args) || Firing(side, args, own, before)
      requires ListOf(side).firingIndex + 1 < |ListOf(side).list| && ListOf(side).list[ListOf(side).firingIndex + 1].fn < 3
      ensures Starting(side, args)
    {
    }

    lemma UserNext(side: Side, args: Args, own: seq<Entry>, before: nat)
      requires Starting(side, args) || Firing(side, args, own, before)
      requires ListOf(side).firingIndex + 1 < |ListOf(side).list| && ListOf(side).list[ListOf(side).firingIndex + 1].fn >= 3
      ensures Firing(side, args, own, before)
    {
      OwnEntries();
    }

    // The end of fire: everything in the list has run, and a fired list is emptied.
    method Finish(side: Side, ghost args: Args, ghost own: seq<Entry>, ghost before: nat)
      requires Firing(side, args, own, before) && ListOf(side).firingIndex + 1 == |ListOf(side).list|
      modifies ListOf(side)
      ensures Valid() && state == Settled(side) && ListOf(side).memory == Some(args)
    {
      var t := ListOf(side);
      assert Regs(side)[..|Regs(side)|] == Regs(side);
      t.firingIndex := -1;
      t.firing := false;
      t.list := [];
    }

    /** resolve or reject: the first one wins and runs its callbacks; later ones change nothing. */
    method SettleAs(side: Side, args: Args, script: seq<seq<Call>>)
      requires Valid()
      modifies this, done, fail
      ensures Valid() && Regs(Other(side)) == old(Regs(Other(side)))
      ensures old(state) != Pending ==> unchanged(this) && unchanged(done) && unchanged(fail)
      ensures old(state) == Pending ==>
                && state == Settled(side) && ListOf(side).memory == Some(args)
                && FnsOf(Regs(side)) == Drain(side, FnsOf(old(Regs(side))), script)
    {
      if !ListOf(side).locked {
        StartFire(side, args);
        TotalFromStart(side, FnsOf(Regs(side)), script);
        RunList(side, args, Fresh(OWN, 0), 0, script);
        Finish(side, args, Fresh(OWN, 0), 0);
      }
    }

    // fireWith, up to the loop of fire.
    method StartFire(side: Side, args: Args)
      requires Valid() && state == Pending
      modifies ListOf(side)
      ensures Starting(side, args)
    {
      var t := ListOf(side);
      assert Waiting(side) && Waiting(Other(side));
      t.queue := t.queue + [args];
      Begin(t);
      assert Waiting(Other(side));
    }

    // The start of fire: lock, and take the one fire that is waiting.
    static method Begin(t: CallbackList)
      requires t.o == ONCE_MEMORY && |t.queue| == 1
      modifies t`locked, t`fired, t`firing, t`memory, t`queue
      ensures t.locked && t.fired && t.firing && t.memory == Some(old(t.queue)[0]) && t.queue == []
    {
      t.locked := t.o.once;
      t.fired, t.firing := true, true;
      t.memory := Some(t.queue[0]);
      t.queue := t.queue[1..];
    }

    // Registering on the winning side, after the fact.
    method RunNow(side: Side, fns: seq<nat>, script: seq<seq<Call>>)
      requires Valid() && state == Settled(side)
      modifies this, done, fail
      ensures Valid() && state == Settled(side) && ListOf(side).memory == old(ListOf(side).memory)
      ensures Regs(Other(side)) == old(Regs(Other(side)))
      ensures FnsOf(Regs(side)) == FnsOf(old(Regs(side))) + Drain(side, fns, script)
    {
      var args := ListOf(side).memory.value;
      ghost var regs := Regs(side);
      StartAgain(side, fns);
      TotalAfter(side, FnsOf(regs), fns, script);
      RunList(side, args, [], |regs|, script);
      Finish(side, args, [], |regs|);
    }

    // add with memory, up to the loop of fire: the turn is before the new callbacks.
    method StartAgain(side: Side, fns: seq<nat>)
      requires Valid() && state == Settled(side)
      modifies this`doneRegs, this`failRegs, ListOf(side)
      ensures Firing(side, old(ListOf(side).memory.value), [], |old(Regs(side))|)
      ensures ran == old(ran) && |ran| == |old(Regs(side))| <= |Regs(side)|
      ensures Regs(Other(side)) == old(Regs(Other(side))) && FnsOf(Regs(side)) == FnsOf(old(Regs(side))) + fns
    {
      var t := ListOf(side);
      ghost var regs := Regs(side);
      t.firingIndex := |t.list| - 1;
      t.queue := t.queue + [t.memory.value];
      Accept(side, fns);
      Begin(t);
      RegsAgain(t.memory.value, regs, Regs(side));
      assert t.list == [] + Regs(side)[|regs|..];
      assert Disabled(Other(side));
    }

    /** done or fail: while pending the callbacks wait; on the winning side they run at once
        with the remembered arguments; on the losing side they are ignored. */
    method Register(side: Side, fns: seq<nat>, script: seq<seq<Call>>)
      requires Valid()
      modifies this, done, fail
      ensures Valid() && state == old(state) && Regs(Other(side)) == old(Regs(Other(side)))
      ensures state == Settled(Other(side)) ==> unchanged(this) && unchanged(done) && unchanged(fail)
      ensures state == Pending ==> FnsOf(Regs(side)) == FnsOf(old(Regs(side))) + fns
      ensures state == Settled(side) ==>
                && ListOf(side).memory == old(ListOf(side).memory)
                && FnsOf(Regs(side)) == FnsOf(old(Regs(side))) + Drain(side, fns, script)
    {
      var t := ListOf(side);
      if !t.spent {
        if t.memory.Some? {
          RunNow(side, fns, script);
        } else {
          Wait(side, fns);
        }
      }
    }

    // Registering while pending.
    method Wait(side: Side, fns: seq<nat>)
      requires Valid() && state == Pending
      modifies this`doneRegs, this`failRegs, ListOf(side)`list, ListOf(side)`next
      ensures Valid() && Regs(Other(side)) == old(Regs(Other(side)))
      ensures FnsOf(Regs(side)) == FnsOf(old(Regs(side))) + fns
    {
      JoinedEntries(Fresh(OWN, 0), Regs(side), Fresh(UserFns(fns), ListOf(side).next));
      assert User(Regs(side), ListOf(side).next) && Waiting(Other(side));
      Accept(side, fns);
      assert Waiting(side);
      assert Waiting(Other(side));
    }

    // Who has won and what each side has accepted, in the user's terms.
    ghost predicate Means(m: Meaning)
      reads this, done, fail
    {
      && Valid() && FnsOf(doneRegs) == m.done && FnsOf(failRegs) == m.fail
      && (m.winner.None? ==> state == Pending)
      && (m.winner.Some? ==>
            && m.winner.value.Settle? && state == Settled(m.winner.value.side)
            && ListOf(m.winner.value.side).memory == Some(m.winner.value.args))
    }

    /** One call from outside does to the object what it does in the simple meaning. */
    method Call(c: Call, script: seq<seq<Call>>, ghost m: Meaning)
      requires Means(m)
      modifies this, done, fail
      ensures Means(After1(m, c, script))
    {
      match c {
        case On(side, fns) => Register(side, fns, script);
        case Settle(side, args) => SettleAs(side, args, script);
      }
    }
  }

  lemma JoinedEntries(a: seq<Entry>, b: seq<Entry>, c: seq<Entry>)
    ensures (a + b) + c == a + (b + c)
  {
  }

  lemma OwnEntries()
    ensures Fresh(OWN, 0) == [Entry(SET_STATE, 0), Entry(DISABLE_OTHER, 1), Entry(LOCK_PROGRESS, 2)]
  {
    var two, one: seq<Fn> := [DISABLE_OTHER, LOCK_PROGRESS], [LOCK_PROGRESS];
    assert OWN[1..] == two && two[1..] == one && one[1..] == [];
    assert Fresh(OWN, 0) == [Entry(SET_STATE, 0)] + Fresh(two, 1);
    assert Fresh(two, 1) == [Entry(DISABLE_OTHER, 1)] + Fresh(one, 2);
    assert Fresh(one, 2) == [Entry(LOCK_PROGRESS, 2)] + Fresh([], 3);
  }

  lemma RegsAgain(args: Args, old': seq<Entry>, regs: seq<Entry>)
    requires old' <= regs
    ensures regs[..|old'|] == old' && RanAll(args, regs[..|old'|]) == RanAll(args, old')
  {
  }

  lemma UserAppend(regs: seq<Entry>, next: nat, fns: seq<nat>)
    ensures User(regs, next) ==> User(regs + Fresh(UserFns(fns), next), next + |fns|)
  {
    FreshUser(UserFns(fns), next);
  }

  // Pushing puts the new entries at the end of the flat list.
  lemma PushedAll(z: Zipper, fns: seq<Fn>, was: seq<Entry>, list: seq<Entry>, z': Zipper, firingIndex: int)
    requires was == z.done + z.pending && z' == AddAll(ONCE_MEMORY, z, fns)
    requires -1 <= firingIndex < |list| && z'.done == list[..firingIndex + 1] && z'.pending == list[firingIndex + 1..]
    ensures list == was + Fresh(fns, z.next) && z'.next == z.next + |fns|
  {
    AddAllFresh(ONCE_MEMORY, z, fns);
    Rejoin(list, firingIndex + 1, z.done, z.pending, Fresh(fns, z.next));
  }

  lemma Rejoin(list: seq<Entry>, k: nat, a: seq<Entry>, b: seq<Entry>, c: seq<Entry>)
    requires k <= |list| && list[..k] == a && list[k..] == b + c
    ensures list == (a + b) + c
  {
    assert list == list[..k] + list[k..];
  }

  // Appending to the list and to the registrations keeps them in step.
  lemma Grown(args: Args, own: seq<Entry>, before: nat, list: seq<Entry>, firingIndex: int, regs: seq<Entry>, more: seq<Entry>)
    requires before <= |regs| && |own| <= firingIndex + 1 <= |list| && list == own + regs[before..]
    ensures list + more == own + (regs + more)[before..]
    ensures var k := before + firingIndex + 1 - |own|; k <= |regs| && (regs + more)[..k] == regs[..k]
  {
    assert (regs + more)[before..] == regs[before..] + more;
  }

  /** The first settling call of the history wins. */
  function FirstSettle(calls: seq<Call>): Option<Call> {
    if calls == [] then None
    else if FirstSettle(calls[..|calls| - 1]).Some? then FirstSettle(calls[..|calls| - 1])
    else if calls[|calls| - 1].Settle? then Some(calls[|calls| - 1]) else None
  }

  lemma {:induction false} FirstSettleWins(calls: seq<Call>, scripts: seq<seq<seq<Call>>>)
    requires |scripts| == |calls|
    ensures After(calls, scripts).winner == FirstSettle(calls)
  {
    if calls != [] {
      FirstSettleWins(calls[..|calls| - 1], scripts[..|calls| - 1]);
    }
  }

  /** Any history of resolve, reject, done and fail, with any calls made by the callbacks: the
      first settling call decides the state for good; exactly the functions registered on the
      winning side have run, each registration once, in order, with the winning arguments; no
      callback of the losing side has run. */
  method History(calls: seq<Call>, scripts: seq<seq<seq<Call>>>) returns (d: Deferred)
    requires |scripts| == |calls|
    ensures fresh(d) && d.Means(After(calls, scripts))
    ensures match FirstSettle(calls)
            case None => d.state == Pending && d.ran == []
            case Some(c) =>
              && c.Settle? && d.state == Settled(c.side) && d.ran == RanAll(c.args, d.Regs(c.side))
              && FnsOf(d.Regs(c.side)) == Registered(c.side, calls, scripts) && Numbered(d.Regs(c.side))
  {
    d := new Deferred();
    for i := 0 to |calls|
      invariant d.Means(After(calls[..i], scripts[..i])) && fresh(d) && fresh(d.done) && fresh(d.fail)
    {
      assert calls[..i + 1][..i] == calls[..i] && scripts[..i + 1][..i] == scripts[..i];
      d.Call(calls[i], scripts[i], After(calls[..i], scripts[..i]));
    }
    assert calls[..|calls|] == calls && scripts[..|scripts|] == scripts;
    FirstSettleWins(calls, scripts);
    if FirstSettle(calls).Some? {
      WinnerAcceptsAll(calls, scripts, FirstSettle(calls).value.side);
    }
  }
}
