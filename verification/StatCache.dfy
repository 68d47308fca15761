/** The stat cache of pk-put (cmd/pk-put/kvcache.go): a key-value store from file paths to
    fingerprinted upload results, with hand-made binary keys and values. */
module StatCache {
  import opened Wrappers
  import opened Decimal

  type Byte = b: int | 0 <= b < 256
  type Bytes = seq<Byte>

  const PIPE: Byte := 0x7C
  const UINT32: int := 0x1_0000_0000

  type BlobRef = string

  // What fileInfoToFingerprint reads of an os.FileInfo; sysHash is the CRC of the stat data.
  datatype FileInfo = FileInfo(size: int, modTime: int, sysHash: nat)

  datatype PutResult = PutResult(ref: BlobRef, size: int, skipped: bool)

  /** What the cache takes from elsewhere: blob.Ref's binary form, path cleaning, and the bytes
      of a Go string. */
  datatype Lib = Lib(
    encodeRef: BlobRef -> Bytes,
    decodeRef: Bytes -> Option<BlobRef>,
    clean: string -> string,
    bytes: string -> Bytes)

  ghost predicate Sound(lib: Lib) {
    && (forall r :: lib.decodeRef(lib.encodeRef(r)) == Some(r))
    && (forall a, b :: lib.bytes(a) == lib.bytes(b) ==> a == b)
    && (forall s: string :: PIPE in lib.bytes(s) ==> '|' in s)
  }

  // ----------------------------------------------------------------------------- keys

  function Join(a: string, b: string, clean: string -> string): string {
    if a == [] && b == [] then [] else if a == [] then clean(b) else if b == [] then clean(a) else clean(a + "/" + b)
  }

  function FullPath(lib: Lib, pwd: string, filename: string): string {
    if filename != [] && filename[0] == '/' then lib.clean(filename) else Join(pwd, filename, lib.clean)
  }

  predicate Absolute(path: string) { path != [] && path[0] == '/' }

  /** A file has one key, however it is named: an absolute name means the same from everywhere,
      and a relative one means the absolute name made of the directory and it. */
  lemma FullPathIsOne(lib: Lib, pwd: string, other: string, filename: string)
    requires Absolute(pwd) && filename != []
    ensures Absolute(filename) ==> FullPath(lib, pwd, filename) == FullPath(lib, other, filename) == lib.clean(filename)
    ensures !Absolute(filename) ==>
              FullPath(lib, pwd, filename) == FullPath(lib, other, pwd + "/" + filename) == lib.clean(pwd + "/" + filename)
  {
    assert (pwd + "/" + filename)[0] == pwd[0];
  }

  datatype Key = Key(path: string, permanode: bool)

  function MarshalKey(lib: Lib, k: Key): Bytes {
    [1] + lib.bytes(k.path) + [PIPE] + if k.permanode then [1] else []
  }

  /** Keys of different paths or permanode flags never collide, whatever bytes a path has: the
      last byte tells the flag. */
  lemma KeyInjective(lib: Lib, a: Key, b: Key)
    requires Sound(lib) && MarshalKey(lib, a) == MarshalKey(lib, b)
    ensures a == b
  {
    var x, y := MarshalKey(lib, a), MarshalKey(lib, b);
    assert a.permanode ==> x[|x| - 1] == 1;
    assert !a.permanode ==> x[|x| - 1] == PIPE;
    assert b.permanode ==> y[|y| - 1] == 1;
    assert !b.permanode ==> y[|y| - 1] == PIPE;
    var n := if a.permanode then 2 else 1;
    assert lib.bytes(a.path) == x[1..|x| - n];
    assert lib.bytes(b.path) == y[1..|y| - n];
  }

  // ---------------------------------------------------------------------- fingerprints

  function Fingerprint(fi: FileInfo): string {
    Int(fi.size) + "B/" + Int(fi.modTime) + "MOD/sys-" + Nat(fi.sysHash)
  }

  // The part after "B/".
  function TimeAndSys(fi: FileInfo): string {
    Int(fi.modTime) + ['M'] + ("OD/sys-" + Nat(fi.sysHash))
  }

  lemma FingerprintParts(fi: FileInfo)
    ensures Fingerprint(fi) == Int(fi.size) + ['B'] + (['/'] + TimeAndSys(fi))
  {
    assert Int(fi.modTime) + "MOD/sys-" + Nat(fi.sysHash) == TimeAndSys(fi);
    assert "B/" == ['B'] + ['/'] && "MOD/sys-" == ['M'] + "OD/sys-";
  }

  lemma TimeAndSysInjective(a: FileInfo, b: FileInfo)
    requires TimeAndSys(a) == TimeAndSys(b)
    ensures a.modTime == b.modTime && a.sysHash == b.sysHash
  {
    var u, v := "OD/sys-" + Nat(a.sysHash), "OD/sys-" + Nat(b.sysHash);
    SplitUnique(Int(a.modTime), Int(b.modTime), 'M', u, v);
    IntInjective(a.modTime, b.modTime);
    assert u[7..] == Nat(a.sysHash) && v[7..] == Nat(b.sysHash);
    NatInjective(a.sysHash, b.sysHash);
  }

  /** A fingerprint tells size, modification time and stat hash apart. */
  lemma FingerprintInjective(a: FileInfo, b: FileInfo)
    requires Fingerprint(a) == Fingerprint(b)
    ensures a == b
  {
    FingerprintParts(a);
    FingerprintParts(b);
    var x, y := ['/'] + TimeAndSys(a), ['/'] + TimeAndSys(b);
    SplitUnique(Int(a.size), Int(b.size), 'B', x, y);
    IntInjective(a.size, b.size);
    assert x[1..] == TimeAndSys(a) && y[1..] == TimeAndSys(b);
    TimeAndSysInjective(a, b);
  }

  lemma FingerprintHasNoPipe(fi: FileInfo)
    ensures '|' !in Fingerprint(fi)
  {
  }

  // ---------------------------------------------------------------------------- values

  // binary.Write of an int32, big-endian; size is a uint32 reinterpreted.
  function SizeBytes(size: int): Bytes
    requires 0 <= size < UINT32
  {
    [size / 0x1000000, size / 0x10000 % 0x100, size / 0x100 % 0x100, size % 0x100]
  }

  // binary.Read of four bytes, converted back to uint32.
  function ReadSize(b: Bytes): int
    requires |b| >= 4
  {
    0x1000000 * (b[0] as int) + 0x10000 * (b[1] as int) + 0x100 * (b[2] as int) + b[3] as int
  }

  lemma SizeRoundTrip(size: int, rest: Bytes)
    requires 0 <= size < UINT32
    ensures ReadSize(SizeBytes(size) + rest) == size
  {
    var q := size / 0x100;
    var r := q / 0x100;
    assert size == 0x100 * q + size % 0x100;
    assert q == 0x100 * r + q % 0x100 && r == size / 0x10000;
    assert r == 0x100 * (r / 0x100) + r % 0x100 && r / 0x100 == size / 0x1000000;
  }

  function MarshalValue(lib: Lib, fp: string, put: PutResult): Bytes
    requires 0 <= put.size < UINT32
  {
    lib.bytes(fp) + [PIPE] + SizeBytes(put.size) + [PIPE] + lib.encodeRef(put.ref)
  }

  datatype Decoded = Bogus | Value(fp: Bytes, put: PutResult)

  // unmarshalBinary: bytes.SplitN(data, "|", 3), then a size and a blobref.
  function UnmarshalValue(lib: Lib, data: Bytes): Decoded {
    var i := FirstAt(data, PIPE);
    if i >= |data| then Bogus
    else
      var rest := data[i + 1..];
      var j := FirstAt(rest, PIPE);
      if j >= |rest| || j < 4 then Bogus
      else match lib.decodeRef(rest[j + 1..])
        case None => Bogus
        case Some(ref) => Value(data[..i], PutResult(ref, ReadSize(rest[..j]), true))
  }

  /** Reading back what was written: the same blobref and size, unless one of the four bytes
      of the size happens to be the separator; then an error, never a wrong value. */
  lemma ValueRoundTrip(lib: Lib, fp: string, put: PutResult)
    requires Sound(lib) && '|' !in fp && 0 <= put.size < UINT32
    ensures UnmarshalValue(lib, MarshalValue(lib, fp, put)) ==
            if PIPE in SizeBytes(put.size) then Bogus else Value(lib.bytes(fp), PutResult(put.ref, put.size, true))
  {
    var f, sz, br := lib.bytes(fp), SizeBytes(put.size), lib.encodeRef(put.ref);
    var data, rest := MarshalValue(lib, fp, put), sz + [PIPE] + br;
    assert data == f + [PIPE] + rest;
    FirstAtSplit(f, PIPE, rest);
    assert data[|f| + 1..] == rest && data[..|f|] == f;
    if PIPE in sz {
      FirstAtInside(sz, [PIPE] + br);
      assert rest == sz + ([PIPE] + br);
    } else {
      FirstAtSplit(sz, PIPE, br);
      assert rest[..4] == sz && rest[5..] == br;
      SizeRoundTrip(put.size, []);
      assert sz + [] == sz;
    }
  }

  lemma {:induction false} FirstAtInside(a: Bytes, x: Bytes)
    requires PIPE in a
    ensures FirstAt(a + x, PIPE) < |a|
  {
    if a[0] != PIPE {
      assert (a + x)[1..] == a[1..] + x;
      FirstAtInside(a[1..], x);
    }
  }

  // ----------------------------------------------------------------------------- cache

  // One call of AddCachedPutResult, by the key it writes under.
  datatype Write = Write(key: Key, fi: FileInfo, put: PutResult)

  datatype Answer = Miss | BogusValue | Hit(put: PutResult)

  /** Reference: the latest write under a key. */
  function Latest(log: seq<Write>, key: Key): Option<Write> {
    if log == [] then None
    else if log[|log| - 1].key == key then Some(log[|log| - 1])
    else Latest(log[..|log| - 1], key)
  }

  lemma {:induction false} LatestMeans(log: seq<Write>, key: Key)
    ensures match Latest(log, key)
            case None => forall i :: 0 <= i < |log| ==> log[i].key != key
            case Some(w) => exists i :: 0 <= i < |log| && log[i] == w && w.key == key
                                        && forall j :: i < j < |log| ==> log[j].key != key
  {
    if log != [] && log[|log| - 1].key != key {
      var init := log[..|log| - 1];
      LatestMeans(init, key);
      if Latest(init, key).Some? {
        var i :| 0 <= i < |init| && init[i] == Latest(init, key).value && init[i].key == key
                 && forall j :: i < j < |init| ==> init[j].key != key;
        assert log[i] == init[i];
        forall j | i < j < |log| ensures log[j].key != key {
          if j < |init| { assert log[j] == init[j]; }
        }
      } else {
        forall i | 0 <= i < |log| ensures log[i].key != key {
          if i < |init| { assert log[i] == init[i]; }
        }
      }
    }
  }

  /** Reference: what a lookup should answer, from the latest write alone. */
  function Expected(w: Option<Write>, fi: FileInfo): Answer
    requires w.Some? ==> 0 <= w.value.put.size < UINT32
  {
    if w.None? then Miss
    else if PIPE in SizeBytes(w.value.put.size) then BogusValue
    else if w.value.fi != fi then Miss
    else Hit(PutResult(w.value.put.ref, w.value.put.size, true))
  }

  /** A hit gives what was written, for the very file information it was written for; a miss
      means that nothing was written for it. */
  lemma ExpectedMeans(log: seq<Write>, key: Key, fi: FileInfo)
    requires Latest(log, key).Some? ==> 0 <= Latest(log, key).value.put.size < UINT32
    ensures match Expected(Latest(log, key), fi)
            case Hit(put) =>
              put.skipped && exists i :: 0 <= i < |log| && log[i].key == key && log[i].fi == fi
                                         && log[i].put.ref == put.ref && log[i].put.size == put.size
                                         && forall j :: i < j < |log| ==> log[j].key != key
            case Miss => forall i :: 0 <= i < |log| && log[i].key == key && (forall j :: i < j < |log| ==> log[j].key != key) ==>
                           log[i].fi != fi
            case BogusValue => exists i :: 0 <= i < |log| && log[i].key == key
  {
    LatestMeans(log, key);
  }

  // The database holds, under each key, the encoding of the latest write to it.
  ghost predicate Holds(lib: Lib, log: seq<Write>, db: map<Bytes, Bytes>) {
    && Sound(lib) && (forall i :: 0 <= i < |log| ==> 0 <= log[i].put.size < UINT32)
    && forall k: Key ::
         match Latest(log, k)
         case None => MarshalKey(lib, k) !in db
         case Some(w) =>
           && 0 <= w.put.size < UINT32 && MarshalKey(lib, k) in db
           && db[MarshalKey(lib, k)] == MarshalValue(lib, Fingerprint(w.fi), w.put)
  }

  class KvStatCache {
    const lib: Lib
    var db: map<Bytes, Bytes>
    ghost var log: seq<Write>

    /** NewKvStatCache: opens the database as earlier sessions, if any, have left it. */
    constructor (lib: Lib, db: map<Bytes, Bytes>, ghost past: seq<Write>)
      requires Holds(lib, past, db)
      ensures Valid() && log == past && this.lib == lib && this.db == db
    {
      this.lib, this.db, log := lib, db, past;
    }

    ghost predicate Valid()
      reads this
    {
      Holds(lib, log, db)
    }

    method AddCachedPutResult(pwd: string, filename: string, fi: FileInfo, put: PutResult, withPermanode: bool)
      requires Valid() && 0 <= put.size < UINT32
      modifies this
      ensures Valid() && log == old(log) + [Write(Key(FullPath(lib, pwd, filename), withPermanode), fi, put)]
    {
      var key := Key(FullPath(lib, pwd, filename), withPermanode);
      db := db[MarshalKey(lib, key) := MarshalValue(lib, Fingerprint(fi), put)];
      ghost var w := Write(key, fi, put);
      log := log + [w];
      forall k: Key ensures Latest(log, k) == if k == key then Some(w) else Latest(old(log), k) {
        assert log[..|log| - 1] == old(log);
      }
      forall k: Key | k != key ensures MarshalKey(lib, k) != MarshalKey(lib, key) {
        if MarshalKey(lib, k) == MarshalKey(lib, key) { KeyInjective(lib, k, key); }
      }
    }

    /** A hit returns exactly the blobref and size of the latest write for the same cleaned path
        and flag, and only if size, time and stat hash are the same. */
    method CachedPutResult(pwd: string, filename: string, fi: FileInfo, withPermanode: bool) returns (r: Answer)
      requires Valid()
      ensures var w := Latest(log, Key(FullPath(lib, pwd, filename), withPermanode));
              (w.Some? ==> 0 <= w.value.put.size < UINT32) && r == Expected(w, fi)
    {
      var key := Key(FullPath(lib, pwd, filename), withPermanode);
      var binKey := MarshalKey(lib, key);
      ghost var w := Latest(log, key);
      assert w.Some? || binKey !in db;
      if binKey !in db {
        return Miss;
      }
      ValueRoundTripOf(lib, w.value);
      var val := UnmarshalValue(lib, db[binKey]);
      if val.Bogus? {
        return BogusValue;
      }
      if val.fp != lib.bytes(Fingerprint(fi)) {
        return Miss;
      }
      FingerprintInjective(w.value.fi, fi);
      r := Hit(val.put);
    }
  }

  lemma ValueRoundTripOf(lib: Lib, w: Write)
    requires Sound(lib) && 0 <= w.put.size < UINT32
    ensures UnmarshalValue(lib, MarshalValue(lib, Fingerprint(w.fi), w.put)) ==
            if PIPE in SizeBytes(w.put.size) then Bogus
            else Value(lib.bytes(Fingerprint(w.fi)), PutResult(w.put.ref, w.put.size, true))
  {
    FingerprintHasNoPipe(w.fi);
    ValueRoundTrip(lib, Fingerprint(w.fi), w.put);
  }
}
