/** The LRU cache of internal/lru: a linked list in order of use and a map into it. */
module Lru {
  import opened Wrappers

  type Key = string
  type Val = nat

  datatype Pair = Pair(key: Key, value: Val)

  // ------------------------------------------------------------- the cache as a sequence

  function Keys(s: seq<Pair>): (ks: seq<Key>)
    ensures |ks| == |s| && forall i :: 0 <= i < |s| ==> ks[i] == s[i].key
  {
    seq(|s|, i requires 0 <= i < |s| => s[i].key)
  }

  function Lookup(s: seq<Pair>, k: Key): Option<Val> {
    if s == [] then None else if s[0].key == k then Some(s[0].value) else Lookup(s[1..], k)
  }

  function Without(s: seq<Pair>, k: Key): seq<Pair> {
    if s == [] then [] else (if s[0].key == k then [] else [s[0]]) + Without(s[1..], k)
  }

  function Trim(max: int, s: seq<Pair>): seq<Pair> {
    if max > 0 && |s| > max then s[..|s| - 1] else s
  }

  function AddTo(max: int, s: seq<Pair>, k: Key, v: Val): seq<Pair> {
    if Lookup(s, k).Some? then [Pair(k, v)] + Without(s, k) else Trim(max, [Pair(k, v)] + s)
  }

  function GetFrom(s: seq<Pair>, k: Key): seq<Pair> {
    match Lookup(s, k) case None => s case Some(v) => [Pair(k, v)] + Without(s, k)
  }

  lemma {:induction false} LookupAt(s: seq<Pair>, i: nat)
    requires i < |s| && forall j :: 0 <= j < i ==> s[j].key != s[i].key
    ensures Lookup(s, s[i].key) == Some(s[i].value)
  {
    if i > 0 { LookupAt(s[1..], i - 1); }
  }

  lemma {:induction false} LookupPresent(s: seq<Pair>, k: Key)
    ensures Lookup(s, k).Some? <==> k in Keys(s)
  {
    if s != [] {
      LookupPresent(s[1..], k);
      assert Keys(s) == [s[0].key] + Keys(s[1..]);
    }
  }

  // ------------------------------------------------------------------------- histories

  datatype Op = Add(k: Key, v: Val) | Get(k: Key)

  function Apply(max: int, s: seq<Pair>, op: Op): seq<Pair> {
    match op case Add(k, v) => AddTo(max, s, k, v) case Get(k) => GetFrom(s, k)
  }

  /** The cache after a history. */
  function After(max: int, ops: seq<Op>): seq<Pair> {
    if ops == [] then [] else Apply(max, After(max, ops[..|ops| - 1]), ops[|ops| - 1])
  }

  // An operation touches its key unless it is a Get that misses.
  predicate Touches(s: seq<Pair>, op: Op) {
    op.Add? || op.k in Keys(s)
  }

  /** The keys touched by a history, in order. */
  function Touched(max: int, ops: seq<Op>): seq<Key> {
    if ops == [] then []
    else
      var init, op := ops[..|ops| - 1], ops[|ops| - 1];
      Touched(max, init) + if Touches(After(max, init), op) then [op.k] else []
  }

  // Distinct keys, most recently touched first.
  function Recency(t: seq<Key>): seq<Key> {
    if t == [] then []
    else [t[|t| - 1]] + Remove(Recency(t[..|t| - 1]), t[|t| - 1])
  }

  function Remove(s: seq<Key>, k: Key): seq<Key> {
    if s == [] then [] else (if s[0] == k then [] else [s[0]]) + Remove(s[1..], k)
  }

  /** The other keys touched since `k` last was. */
  function Since(t: seq<Key>, k: Key): set<Key> {
    if t == [] || t[|t| - 1] == k then {} else Since(t[..|t| - 1], k) + {t[|t| - 1]}
  }

  predicate Unique(s: seq<Key>) {
    forall i, j :: 0 <= i < j < |s| ==> s[i] != s[j]
  }

  lemma ConsUnique(x: Key, s: seq<Key>)
    requires Unique(s) && x !in s
    ensures Unique([x] + s)
  {
    forall i, j | 0 <= i < j < |[x] + s| ensures ([x] + s)[i] != ([x] + s)[j] {
      if i == 0 { assert ([x] + s)[j] == s[j - 1]; }
    }
  }

  lemma {:induction false} RemoveElems(s: seq<Key>, k: Key)
    requires Unique(s)
    ensures Unique(Remove(s, k))
    ensures forall x :: x in Remove(s, k) <==> x in s && x != k
  {
    if s != [] {
      RemoveElems(s[1..], k);
      var rest := Remove(s[1..], k);
      if s[0] == k {
        assert Remove(s, k) == rest;
      } else {
        assert s[0] !in rest;
        ConsUnique(s[0], rest);
      }
    }
  }

  lemma {:induction false} RemoveAbsent(s: seq<Key>, k: Key)
    requires k !in s
    ensures Remove(s, k) == s
  {
    if s != [] { RemoveAbsent(s[1..], k); }
  }

  lemma {:induction false} RemoveAt(s: seq<Key>, i: nat)
    requires Unique(s) && i < |s|
    ensures Remove(s, s[i]) == s[..i] + s[i + 1..]
  {
    if i == 0 {
      RemoveAbsent(s[1..], s[0]);
    } else {
      assert s[1..][i - 1] == s[i];
      RemoveAt(s[1..], i - 1);
      assert s[1..][..i - 1] == s[1..i] && s[1..][i..] == s[i + 1..];
      assert s[..i] == [s[0]] + s[1..i];
    }
  }

  lemma {:induction false} RecencyUnique(t: seq<Key>)
    ensures Unique(Recency(t)) && forall x :: x in Recency(t) <==> x in t
  {
    if t != [] {
      var init, last := t[..|t| - 1], t[|t| - 1];
      RecencyUnique(init);
      RemoveElems(Recency(init), last);
      ConsUnique(last, Remove(Recency(init), last));
      assert t == init + [last];
    }
  }

  // The keys ahead of position i are those touched since.
  ghost predicate Ahead(t: seq<Key>, k: Key, i: nat) {
    i < |Recency(t)| && Recency(t)[i] == k && forall x :: x in Recency(t)[..i] <==> x in Since(t, k)
  }

  lemma {:induction false} PositionOf(t: seq<Key>, k: Key) returns (i: nat)
    requires k in t
    ensures Ahead(t, k, i)
  {
    var init, last := t[..|t| - 1], t[|t| - 1];
    if last == k {
      i := 0;
    } else {
      assert t == init + [last];
      var j := PositionOf(init, k);
      RecencyUnique(init);
      var r := Recency(init);
      if m :| 0 <= m < |r| && r[m] == last {
        RemoveAt(r, m);
        i := if m < j then j else j + 1;
      } else {
        RemoveAbsent(r, last);
        i := j + 1;
      }
      PositionAfter(r, last, k, j, i);
    }
  }

  // The key at position j of r is at position i of r', behind `last` and the keys it was behind.
  ghost predicate MovedBack(r': seq<Key>, i: nat, last: Key, r: seq<Key>, j: nat)
    requires j < |r|
  {
    i < |r'| && r'[i] == r[j] && forall x :: x in r'[..i] <==> x == last || x in r[..j]
  }

  // Touching another key moves it ahead of k, from wherever it was.
  lemma PositionAfter(r: seq<Key>, last: Key, k: Key, j: nat, i: nat)
    requires Unique(r) && j < |r| && r[j] == k && last != k
    requires if exists m :: 0 <= m < |r| && r[m] == last
             then exists m :: 0 <= m < |r| && r[m] == last && i == (if m < j then j else j + 1)
             else i == j + 1
    ensures MovedBack([last] + Remove(r, last), i, last, r, j)
  {
    if m :| 0 <= m < |r| && r[m] == last && i == (if m < j then j else j + 1) {
      RemoveAt(r, m);
      if m < j {
        PositionBehind(r, m, j);
      } else {
        assert (r[..m] + r[m + 1..])[..j + 1] == r[..j + 1];
        PositionAhead(Remove(r, last), last, r, j);
      }
    } else {
      RemoveAbsent(r, last);
      PositionAhead(Remove(r, last), last, r, j);
    }
  }

  // The key moved to the front was before position j, or was not.
  lemma PositionBehind(r: seq<Key>, m: nat, j: nat)
    requires m < j < |r|
    ensures MovedBack([r[m]] + (r[..m] + r[m + 1..]), j, r[m], r, j)
  {
    var r' := [r[m]] + (r[..m] + r[m + 1..]);
    assert r'[..j] == [r[m]] + (r[..m] + r[m + 1..j]);
    assert r[..j] == r[..m] + [r[m]] + r[m + 1..j];
  }

  lemma PositionAhead(rest: seq<Key>, last: Key, r: seq<Key>, j: nat)
    requires j < |r| && j < |rest| && rest[..j + 1] == r[..j + 1]
    ensures MovedBack([last] + rest, j + 1, last, r, j)
  {
    var r' := [last] + rest;
    assert rest[..j + 1][j] == r[..j + 1][j];
    assert rest[..j + 1][..j] == rest[..j] && r[..j + 1][..j] == r[..j];
    assert r'[..j + 1] == [last] + r[..j];
  }

  // --------------------------------------------------------------- the law of the cache

  function Take(max: int, s: seq<Key>): seq<Key> {
    if 0 < max < |s| then s[..max] else s
  }

  lemma {:induction false} KeysWithout(s: seq<Pair>, k: Key)
    ensures Keys(Without(s, k)) == Remove(Keys(s), k)
  {
    if s != [] {
      KeysWithout(s[1..], k);
      assert Keys(s) == [s[0].key] + Keys(s[1..]);
      assert Keys(s)[1..] == Keys(s[1..]);
      assert Keys(Without(s, k)) == (if s[0].key == k then [] else [s[0].key]) + Keys(Without(s[1..], k));
    }
  }

  // Moving a kept key to the front, or a dropped or new one in, keeps the first max.
  lemma TakeTouch(max: int, r: seq<Key>, k: Key)
    requires Unique(r)
    ensures k in Take(max, r) ==> Take(max, [k] + Remove(r, k)) == [k] + Remove(Take(max, r), k)
    ensures k !in Take(max, r) ==> Take(max, [k] + Remove(r, k)) == Take(max, [k] + Take(max, r))
  {
    if i :| 0 <= i < |r| && r[i] == k {
      if 0 < max < |r| {
        if i < max {
          TakeKept(max, r, i);
        } else {
          TakeEvicted(max, r, i);
        }
      } else {
        assert k in Take(max, r);
        RemoveAt(r, i);
      }
    } else {
      RemoveAbsent(r, k);
    }
  }

  lemma TakeKept(max: int, r: seq<Key>, i: nat)
    requires Unique(r) && i < max < |r|
    ensures r[i] in Take(max, r)
    ensures Take(max, [r[i]] + Remove(r, r[i])) == [r[i]] + Remove(Take(max, r), r[i])
  {
    var t, k := Take(max, r), r[i];
    assert t[i] == k && Unique(t);
    RemoveAt(r, i);
    RemoveAt(t, i);
    CutKept(max, r, i);
  }

  lemma CutKept(max: int, r: seq<Key>, i: nat)
    requires i < max < |r|
    ensures ([r[i]] + (r[..i] + r[i + 1..]))[..max] == [r[i]] + (r[..max][..i] + r[..max][i + 1..])
  {
  }

  lemma CutEvicted(max: int, r: seq<Key>, i: nat)
    requires 0 < max <= i < |r|
    ensures ([r[i]] + (r[..i] + r[i + 1..]))[..max] == ([r[i]] + r[..max])[..max]
  {
  }

  lemma TakeEvicted(max: int, r: seq<Key>, i: nat)
    requires Unique(r) && 0 < max <= i < |r|
    ensures r[i] !in Take(max, r)
    ensures Take(max, [r[i]] + Remove(r, r[i])) == Take(max, [r[i]] + Take(max, r))
  {
    assert forall j :: 0 <= j < max ==> Take(max, r)[j] == r[j];
    RemoveAt(r, i);
    CutEvicted(max, r, i);
  }

  lemma ApplyKeys(max: int, s: seq<Pair>, op: Op)
    requires max > 0 ==> |s| <= max
    ensures Keys(Apply(max, s, op)) ==
            if !Touches(s, op) then Keys(s)
            else if op.k in Keys(s) then [op.k] + Remove(Keys(s), op.k)
            else Take(max, [op.k] + Keys(s))
    ensures max > 0 ==> |Apply(max, s, op)| <= max
  {
    LookupPresent(s, op.k);
    KeysWithout(s, op.k);
    if op.k in Keys(s) {
      var v := if op.Add? then op.v else Lookup(s, op.k).value;
      assert Keys([Pair(op.k, v)] + Without(s, op.k)) == [op.k] + Remove(Keys(s), op.k);
      WithoutShorter(s, op.k);
    } else if op.Add? {
      assert Keys([Pair(op.k, op.v)] + s) == [op.k] + Keys(s);
    }
  }

  lemma {:induction false} WithoutShorter(s: seq<Pair>, k: Key)
    ensures |Without(s, k)| <= |s| && (k in Keys(s) ==> |Without(s, k)| < |s|)
  {
    if s != [] {
      WithoutShorter(s[1..], k);
      assert Keys(s) == [s[0].key] + Keys(s[1..]);
    }
  }

  /** After any history the cache holds the max most recently touched keys, in that order. */
  lemma {:induction false} HoldsMostRecent(max: int, ops: seq<Op>)
    ensures Keys(After(max, ops)) == Take(max, Recency(Touched(max, ops)))
    ensures max > 0 ==> |After(max, ops)| <= max
  {
    if ops != [] {
      var init, op := ops[..|ops| - 1], ops[|ops| - 1];
      HoldsMostRecent(max, init);
      var s, t := After(max, init), Touched(max, init);
      ApplyKeys(max, s, op);
      if Touches(s, op) {
        assert Touched(max, ops) == t + [op.k] && (t + [op.k])[..|t|] == t;
        RecencyUnique(t);
        TakeTouch(max, Recency(t), op.k);
      } else {
        assert Touched(max, ops) == t + [] == t;
      }
    }
  }

  lemma {:induction false} UniqueCount(s: seq<Key>, e: set<Key>)
    requires Unique(s) && forall x :: x in s <==> x in e
    ensures |e| == |s|
  {
    if s == [] {
      assert e == {};
    } else {
      var last := s[|s| - 1];
      UniqueCount(s[..|s| - 1], e - {last});
    }
  }

  /** The law: with room for max keys, a key is in the cache exactly when it has been touched
      and fewer than max other keys have been touched since. */
  lemma PresentIff(max: int, ops: seq<Op>, k: Key)
    requires max > 0
    ensures k in Keys(After(max, ops)) <==> k in Touched(max, ops) && |Since(Touched(max, ops), k)| < max
  {
    var t := Touched(max, ops);
    HoldsMostRecent(max, ops);
    RecencyUnique(t);
    var r := Recency(t);
    if k in t {
      var i := PositionOf(t, k);
      UniqueCount(r[..i], Since(t, k));
      if i < max {
        assert Take(max, r)[i] == k;
      } else {
        assert forall j :: 0 <= j < max ==> Take(max, r)[j] == r[j] && r[j] != k;
      }
    }
  }

  // The value of the last Add of a key.
  function LastAdded(ops: seq<Op>, k: Key): Option<Val> {
    if ops == [] then None
    else if ops[|ops| - 1].Add? && ops[|ops| - 1].k == k then Some(ops[|ops| - 1].v)
    else LastAdded(ops[..|ops| - 1], k)
  }

  lemma {:induction false} LookupWithout(s: seq<Pair>, k: Key, x: Key)
    ensures Lookup(Without(s, k), x) == if x == k then None else Lookup(s, x)
  {
    if s != [] {
      LookupWithout(s[1..], k, x);
      var rest := Without(s[1..], k);
      assert ([s[0]] + rest)[1..] == rest && [] + rest == rest;
    }
  }

  lemma {:induction false} LookupPrefix(s: seq<Pair>, n: nat, x: Key)
    requires n <= |s|
    ensures Lookup(s[..n], x).Some? ==> Lookup(s[..n], x) == Lookup(s, x)
  {
    if n > 0 {
      assert s[..n][1..] == s[1..][..n - 1];
      LookupPrefix(s[1..], n - 1, x);
    }
  }

  lemma ApplyValue(max: int, s: seq<Pair>, op: Op, x: Key)
    requires Lookup(Apply(max, s, op), x).Some?
    ensures Lookup(Apply(max, s, op), x) == if op.Add? && op.k == x then Some(op.v) else Lookup(s, x)
  {
    LookupWithout(s, op.k, x);
    var v := if op.Add? then op.v else if Lookup(s, op.k).Some? then Lookup(s, op.k).value else 0;
    var moved, pushed := [Pair(op.k, v)] + Without(s, op.k), [Pair(op.k, v)] + s;
    assert moved[1..] == Without(s, op.k) && pushed[1..] == s;
    LookupPrefix(pushed, |pushed| - 1, x);
  }

  /** A key in the cache has the value last added for it. */
  lemma {:induction false} ValueIsLastAdded(max: int, ops: seq<Op>, k: Key)
    requires Lookup(After(max, ops), k).Some?
    ensures Lookup(After(max, ops), k) == LastAdded(ops, k)
  {
    if ops != [] {
      var init, op := ops[..|ops| - 1], ops[|ops| - 1];
      ApplyValue(max, After(max, init), op, k);
      if !(op.Add? && op.k == k) {
        ValueIsLastAdded(max, init, k);
      }
    }
  }

  // ------------------------------------------------------------------------- the object

  // *list.Element holding an *entry.
  class Element {
    const key: Key
    var value: Val

    constructor (key: Key, value: Val)
      ensures this.key == key && this.value == value
    {
      this.key, this.value := key, value;
    }
  }

  ghost predicate Linked(ll: seq<Element>, cache: map<Key, Element>) {
    && (forall i :: 0 <= i < |ll| ==> ll[i].key in cache && cache[ll[i].key] == ll[i])
    && (forall k :: k in cache ==> cache[k].key == k && cache[k] in ll)
    && (forall i, j :: 0 <= i < j < |ll| ==> ll[i] != ll[j])
  }

  lemma PushLinked(ll: seq<Element>, cache: map<Key, Element>, e: Element)
    requires Linked(ll, cache) && e.key !in cache
    ensures Linked([e] + ll, cache[e.key := e])
  {
    var l, c := [e] + ll, cache[e.key := e];
    forall i | 0 <= i < |l| ensures l[i].key in c && c[l[i].key] == l[i] {
      if i > 0 { assert l[i] == ll[i - 1]; }
    }
    forall i, j | 0 <= i < j < |l| ensures l[i] != l[j] {
      assert l[j] == ll[j - 1];
    }
  }

  lemma FrontLinked(ll: seq<Element>, cache: map<Key, Element>, e: Element)
    requires Linked(ll, cache) && e in ll
    ensures Linked([e] + Unlink(ll, e), cache)
    ensures forall i :: 0 <= i < |Unlink(ll, e)| ==> Unlink(ll, e)[i] in ll
  {
    UnlinkKeeps(ll, e);
    var rest := Unlink(ll, e);
    var l := [e] + rest;
    forall k | k in cache ensures cache[k].key == k && cache[k] in l {
      var i :| 0 <= i < |ll| && ll[i] == cache[k];
      assert ll[i] == e || ll[i] in rest;
    }
    forall i, j | 0 <= i < j < |l| ensures l[i] != l[j] {
      assert l[j] == rest[j - 1];
      if i > 0 { assert l[i] == rest[i - 1]; }
    }
    forall i | 0 <= i < |l| ensures l[i].key in cache && cache[l[i].key] == l[i] {
      if i > 0 { assert l[i] == rest[i - 1]; }
    }
  }

  lemma PopLinked(ll: seq<Element>, cache: map<Key, Element>)
    requires Linked(ll, cache) && ll != []
    ensures Linked(ll[..|ll| - 1], cache - {ll[|ll| - 1].key})
  {
    var last := ll[|ll| - 1];
    var l, c := ll[..|ll| - 1], cache - {last.key};
    forall i | 0 <= i < |l| ensures l[i].key in c && c[l[i].key] == l[i] {
      assert l[i] == ll[i] && ll[i] != last;
    }
    forall k | k in c ensures c[k].key == k && c[k] in l {
      var i :| 0 <= i < |ll| && ll[i] == cache[k];
      assert l[i] == cache[k];
    }
  }

  class Cache {
    const maxEntries: int
    var ll: seq<Element>            // front first
    var cache: map<Key, Element>
    ghost var repr: set<Element>    // the elements made by this cache

    constructor (maxEntries: int)
      ensures this.maxEntries == maxEntries && Valid() && Contents() == [] && repr == {}
    {
      this.maxEntries, ll, cache, repr := maxEntries, [], map[], {};
    }

    // The map and the list hold the same elements, one per key.
    ghost predicate Valid()
      reads this
    {
      Linked(ll, cache) && forall i :: 0 <= i < |ll| ==> ll[i] in repr
    }

    ghost function Contents(): (s: seq<Pair>)
      reads this, ll
      ensures |s| == |ll| && forall i :: 0 <= i < |ll| ==> s[i] == Pair(ll[i].key, ll[i].value)
    {
      seq(|ll|, i requires 0 <= i < |ll| reads this, ll => Pair(ll[i].key, ll[i].value))
    }

    lemma InCache(k: Key)
      requires Valid()
      ensures k in cache <==> Lookup(Contents(), k).Some?
      ensures k in cache ==> Lookup(Contents(), k) == Some(cache[k].value)
    {
      var s := Contents();
      LookupPresent(s, k);
      if k in cache {
        var i :| 0 <= i < |ll| && ll[i] == cache[k];
        assert s[i].key == k;
        LookupAt(s, i);
      }
    }

    // c.ll.MoveToFront
    method MoveToFront(e: Element)
      requires Valid() && e in ll
      modifies this`ll
      ensures Valid() && ll != [] && ll[0] == e
      ensures Contents() == [Pair(e.key, e.value)] + Without(old(Contents()), e.key)
    {
      ghost var was := Contents();
      FrontLinked(ll, cache, e);
      UnlinkContents(ll, e, was);
      ll := [e] + Unlink(ll, e);
    }

    // ee.Value.(*entry).value = value, for the element at the front.
    method SetFront(value: Val)
      requires Valid() && ll != []
      modifies ll[0]
      ensures Valid() && Contents() == [Pair(ll[0].key, value)] + old(Contents())[1..]
    {
      ll[0].value := value;
    }

    // A key that is not in the cache goes to the front.
    method Push(key: Key, value: Val)
      requires Valid() && key !in cache
      modifies this
      ensures Valid() && Contents() == [Pair(key, value)] + old(Contents())
      ensures fresh(repr - old(repr))
    {
      ghost var was, elems := Contents(), ll;
      var ele := new Element(key, value);
      PushLinked(ll, cache, ele);
      ll := [ele] + ll;
      cache := cache[key := ele];
      repr := repr + {ele};
      forall i | 0 < i < |ll| ensures ll[i] in repr && Contents()[i] == was[i - 1] {
        assert ll[i] == elems[i - 1];
      }
    }

    // A new key, and the oldest pushed out if there are now too many.
    method AddNew(key: Key, value: Val)
      requires Valid() && key !in cache
      modifies this
      ensures Valid() && Contents() == Trim(maxEntries, [Pair(key, value)] + old(Contents()))
      ensures fresh(repr - old(repr))
    {
      Push(key, value);
      if maxEntries > 0 && |ll| > maxEntries {
        var _ := RemoveOldest();
      }
    }

    /** Add: an existing key is moved to the front with its new value; a new one is pushed and
        may push the oldest out. */
    method Add(key: Key, value: Val)
      requires Valid()
      modifies this, repr
      ensures Valid() && Contents() == AddTo(maxEntries, old(Contents()), key, value)
      ensures fresh(repr - old(repr))
    {
      InCache(key);
      if key in cache {
        MoveToFront(cache[key]);
        SetFront(value);
      } else {
        AddNew(key, value);
      }
    }

    /** Get: a hit counts as a use. */
    method Get(key: Key) returns (r: Option<Val>)
      requires Valid()
      modifies this`ll
      ensures Valid() && Contents() == GetFrom(old(Contents()), key) && r == Lookup(old(Contents()), key)
    {
      InCache(key);
      if key in cache {
        r := Some(cache[key].value);
        MoveToFront(cache[key]);
      } else {
        r := None;
      }
    }

    method RemoveOldest() returns (r: Option<Pair>)
      requires Valid()
      modifies this
      ensures Valid()
      ensures old(Contents()) == [] ==> r == None && Contents() == []
      ensures old(Contents()) != [] ==>
                var was := old(Contents()); r == Some(was[|was| - 1]) && Contents() == was[..|was| - 1]
      ensures repr == old(repr)
    {
      if ll == [] {
        return None;
      }
      PopLinked(ll, cache);
      var ele := ll[|ll| - 1];
      ll := ll[..|ll| - 1];
      cache := cache - {ele.key};
      r := Some(Pair(ele.key, ele.value));
    }

    method Len() returns (n: nat)
      requires Valid()
      ensures n == |Contents()| == |cache|
    {
      n := |ll|;
      SameSize();
    }

    lemma SameSize()
      requires Valid()
      ensures |ll| == |cache|
    {
      var ks := Keys(Contents());
      forall i, j | 0 <= i < j < |ks| ensures ks[i] != ks[j] {
        assert cache[ll[i].key] == ll[i] && cache[ll[j].key] == ll[j];
      }
      forall k ensures k in ks <==> k in cache.Keys {
        InCache(k);
        LookupPresent(Contents(), k);
      }
      UniqueCount(ks, cache.Keys);
    }
  }

  function Unlink(ll: seq<Element>, e: Element): seq<Element> {
    if ll == [] then [] else (if ll[0] == e then [] else [ll[0]]) + Unlink(ll[1..], e)
  }

  lemma {:induction false} UnlinkMembers(ll: seq<Element>, e: Element)
    ensures forall i :: 0 <= i < |Unlink(ll, e)| ==> Unlink(ll, e)[i] in ll && Unlink(ll, e)[i] != e
    ensures forall i :: 0 <= i < |ll| && ll[i] != e ==> ll[i] in Unlink(ll, e)
  {
    if ll != [] {
      UnlinkMembers(ll[1..], e);
      var rest, r := Unlink(ll[1..], e), Unlink(ll, e);
      var k := if ll[0] == e then 0 else 1;
      forall i | k <= i < |r| ensures r[i] in ll && r[i] != e {
        assert r[i] == rest[i - k];
        assert rest[i - k] in ll[1..];
      }
      forall i | 0 <= i < |ll| && ll[i] != e ensures ll[i] in r {
        if i > 0 { assert ll[1..][i - 1] == ll[i]; }
      }
    }
  }

  lemma {:induction false} UnlinkKeeps(ll: seq<Element>, e: Element)
    requires forall i, j :: 0 <= i < j < |ll| ==> ll[i] != ll[j]
    ensures var r := Unlink(ll, e);
            && (forall i :: 0 <= i < |r| ==> r[i] in ll && r[i] != e)
            && (forall i :: 0 <= i < |ll| && ll[i] != e ==> ll[i] in r)
            && (forall i, j :: 0 <= i < j < |r| ==> r[i] != r[j])
  {
    UnlinkMembers(ll, e);
    UnlinkDistinct(ll, e);
  }

  lemma {:induction false} UnlinkDistinct(ll: seq<Element>, e: Element)
    requires forall i, j :: 0 <= i < j < |ll| ==> ll[i] != ll[j]
    ensures forall i, j :: 0 <= i < j < |Unlink(ll, e)| ==> Unlink(ll, e)[i] != Unlink(ll, e)[j]
  {
    if ll != [] {
      UnlinkDistinct(ll[1..], e);
      UnlinkMembers(ll[1..], e);
      var rest, r := Unlink(ll[1..], e), Unlink(ll, e);
      if ll[0] != e {
        forall j | 0 < j < |r| ensures r[j] != r[0] {
          assert r[j] == rest[j - 1];
          assert rest[j - 1] in ll[1..];
        }
      }
    }
  }

  // Unlinking an element is dropping its key.
  lemma {:induction false} UnlinkContents(ll: seq<Element>, e: Element, s: seq<Pair>)
    requires |s| == |ll| && forall i :: 0 <= i < |ll| ==> s[i].key == ll[i].key
    requires forall i :: 0 <= i < |ll| ==> (ll[i] == e <==> ll[i].key == e.key)
    requires forall i :: 0 <= i < |ll| ==> s[i].value == ll[i].value
    ensures var rest := Unlink(ll, e); var t := Without(s, e.key);
            |t| == |rest| && forall i :: 0 <= i < |rest| ==> t[i] == Pair(rest[i].key, rest[i].value)
  {
    if ll != [] { UnlinkContents(ll[1..], e, s[1..]); }
  }

  /** Any history on a real cache: what it holds and answers is decided by the keys touched. */
  method History(max: int, ops: seq<Op>) returns (c: Cache)
    ensures fresh(c) && c.Valid() && c.maxEntries == max && c.Contents() == After(max, ops)
  {
    c := new Cache(max);
    assert ops[..0] == [];
    for i := 0 to |ops|
      invariant fresh(c) && fresh(c.repr) && c.Valid() && c.maxEntries == max && c.Contents() == After(max, ops[..i])
    {
      assert ops[..i + 1][..i] == ops[..i];
      match ops[i] {
        case Add(k, v) => c.Add(k, v);
        case Get(k) => var _ := c.Get(k);
      }
    }
    assert ops[..|ops|] == ops;
  }
}
