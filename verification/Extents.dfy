/** The write-back extent cache and the extent server: one extent at a time, and one stay of the lock at a client. */
module Extents {
  import opened Options

  type Id = nat

  datatype Status = OK | NOENT | IOERR

  datatype File = File(text: string, dirty: bool)

  /** What a client caches of one extent: its text and its size. */
  datatype Cache = Cache(file: Option<File>, size: Option<nat>)

  const EMPTY := Cache(None, None)

  /** What users do to an extent; `noise` stands for the attributes a failing call leaves unset. */
  datatype Op = Get(noise: nat) | GetAttr(noise: nat) | Put(text: string) | Remove

  function Text(sv: Option<string>): string {
    if sv.Some? then sv.value else ""
  }

  function SizeOf(sv: Option<string>, noise: nat): nat {
    if sv.Some? then |sv.value| else noise
  }

  function Found(sv: Option<string>): Status {
    if sv.Some? then OK else IOERR
  }

  function Do(k: Cache, sv: Option<string>, op: Op): Cache {
    match op
    case Get(noise) =>
      if k.file.Some? then k.(size := Some(if k.size.Some? then k.size.value else 0))
      else Cache(Some(File(Text(sv), false)), Some(SizeOf(sv, noise)))
    case GetAttr(noise) => if k.size.Some? then k else k.(size := Some(SizeOf(sv, noise)))
    case Put(text) => Cache(Some(File(text, true)), Some(|text|))
    case Remove => EMPTY
  }

  /** The answer of `get`. */
  function Read(k: Cache, sv: Option<string>): (Status, string) {
    if k.file.Some? then (OK, k.file.value.text) else (Found(sv), Text(sv))
  }

  /** The answer of `getattr`. */
  function Measure(k: Cache, sv: Option<string>, noise: nat): (Status, nat) {
    if k.size.Some? then (OK, k.size.value) else (Found(sv), SizeOf(sv, noise))
  }

  /** What `flush` leaves at the server: an extent with neither text nor attributes cached is removed there. */
  function Flushed(k: Cache, sv: Option<string>): Option<string> {
    if k.file.Some? then (if k.file.value.dirty then Some(k.file.value.text) else sv)
    else if k.size.Some? then sv
    else None
  }

  // ----- the server

  class ExtentServer {
    var files: map<Id, string>
    var sizes: map<Id, nat>

    ghost predicate Valid()
      reads this
    {
      files.Keys == sizes.Keys && forall i :: i in files ==> sizes[i] == |files[i]|
    }

    function Stored(id: Id): Option<string>
      reads this
    {
      if id in files then Some(files[id]) else None
    }

    /** The server starts with an empty root directory. */
    constructor ()
      ensures Valid() && forall i :: Stored(i) == if i == 1 then Some("") else None
    {
      files, sizes := map[1 := ""], map[1 := 0];
    }

    method PutExtent(id: Id, buf: string) returns (r: Status)
      requires Valid()
      modifies this
      ensures Valid() && r == OK && Stored(id) == Some(buf)
      ensures forall i :: i != id ==> Stored(i) == old(Stored(i))
    {
      files, sizes := files[id := buf], sizes[id := |buf|];
      return OK;
    }

    method GetExtent(id: Id) returns (r: Status, buf: string)
      requires Valid()
      ensures r == (if Stored(id).Some? then OK else NOENT) && buf == Text(Stored(id))
    {
      if id in files { return OK, files[id]; }
      return NOENT, "";
    }

    method GetAttributes(id: Id, noise: nat) returns (r: Status, size: nat)
      requires Valid()
      ensures r == Found(Stored(id)) && size == SizeOf(Stored(id), noise)
    {
      if id in sizes { return OK, sizes[id]; }
      return IOERR, noise;
    }

    method RemoveExtent(id: Id) returns (r: Status)
      requires Valid()
      modifies this
      ensures Valid() && r == (if old(Stored(id)).Some? then OK else NOENT) && Stored(id) == None
      ensures forall i :: i != id ==> Stored(i) == old(Stored(i))
    {
      if id !in files { return NOENT; }
      files := files - {id};
      if id !in sizes { return NOENT; }
      sizes := sizes - {id};
      return OK;
    }
  }

  // ----- the client

  class ExtentClient {
    const server: ExtentServer
    var cacheFiles: map<Id, File>
    var cacheAttrs: map<Id, nat>

    function Cached(id: Id): Cache
      reads this
    {
      Cache(if id in cacheFiles then Some(cacheFiles[id]) else None,
            if id in cacheAttrs then Some(cacheAttrs[id]) else None)
    }

    constructor (s: ExtentServer)
      ensures server == s && forall i :: Cached(i) == EMPTY
    {
      server, cacheFiles, cacheAttrs := s, map[], map[];
    }

    /** On a miss the status is that of the second call, which fetches the attributes. */
    method GetExtent(eid: Id, noise: nat) returns (ret: Status, buf: string)
      requires server.Valid()
      modifies this
      ensures (ret, buf) == Read(old(Cached(eid)), server.Stored(eid))
      ensures Cached(eid) == Do(old(Cached(eid)), server.Stored(eid), Get(noise))
      ensures forall i :: i != eid ==> Cached(i) == old(Cached(i))
    {
      if eid in cacheFiles {
        ret, buf := OK, cacheFiles[eid].text;
        cacheAttrs := cacheAttrs[eid := if eid in cacheAttrs then cacheAttrs[eid] else 0];
      } else {
        var size;
        ret, buf := server.GetExtent(eid);
        ret, size := server.GetAttributes(eid, noise);
        cacheFiles := cacheFiles[eid := File(buf, false)];
        cacheAttrs := cacheAttrs[eid := size];
      }
    }

    method GetAttributes(eid: Id, noise: nat) returns (ret: Status, size: nat)
      requires server.Valid()
      modifies this
      ensures (ret, size) == Measure(old(Cached(eid)), server.Stored(eid), noise)
      ensures Cached(eid) == Do(old(Cached(eid)), server.Stored(eid), GetAttr(noise))
      ensures forall i :: i != eid ==> Cached(i) == old(Cached(i))
    {
      if eid in cacheAttrs {
        ret, size := OK, cacheAttrs[eid];
      } else {
        ret, size := server.GetAttributes(eid, noise);
        cacheAttrs := cacheAttrs[eid := size];
      }
    }

    method PutExtent(eid: Id, buf: string) returns (ret: Status)
      modifies this
      ensures ret == OK && Cached(eid) == Do(old(Cached(eid)), server.Stored(eid), Put(buf))
      ensures forall i :: i != eid ==> Cached(i) == old(Cached(i))
    {
      cacheFiles := cacheFiles[eid := File(buf, true)];
      cacheAttrs := cacheAttrs[eid := |buf|];
      return OK;
    }

    method RemoveExtent(eid: Id) returns (ret: Status)
      modifies this
      ensures ret == OK && Cached(eid) == EMPTY
      ensures forall i :: i != eid ==> Cached(i) == old(Cached(i))
    {
      cacheFiles, cacheAttrs := cacheFiles - {eid}, cacheAttrs - {eid};
      return OK;
    }

    method Flush(eid: Id)
      requires server.Valid()
      modifies this, server
      ensures server.Valid() && Cached(eid) == EMPTY
      ensures server.Stored(eid) == Flushed(old(Cached(eid)), old(server.Stored(eid)))
      ensures forall i :: i != eid ==> Cached(i) == old(Cached(i)) && server.Stored(i) == old(server.Stored(i))
    {
      if eid in cacheFiles {
        var f := cacheFiles[eid];
        cacheFiles, cacheAttrs := cacheFiles - {eid}, cacheAttrs - {eid};
        if f.dirty {
          var _ := server.PutExtent(eid, f.text);
        }
      } else if eid in cacheAttrs {
        cacheAttrs := cacheAttrs - {eid};
      } else {
        var _ := server.RemoveExtent(eid);
      }
    }
  }

  // ----- a stay: what users do at one client between getting the lock and giving it back

  function After(sv: Option<string>, ops: seq<Op>): Cache {
    if ops == [] then EMPTY else Do(After(sv, ops[..|ops| - 1]), sv, ops[|ops| - 1])
  }

  /** What the extent holds for its users: the last text put, unless removed since. */
  function Truth(t: Option<string>, ops: seq<Op>): Option<string> {
    if ops == [] then t
    else match ops[|ops| - 1]
      case Put(text) => Some(text)
      case Remove => None
      case _ => Truth(t, ops[..|ops| - 1])
  }

  /** The operations since the last put or remove. */
  function Since(ops: seq<Op>): seq<Op> {
    if ops == [] then []
    else var op := ops[|ops| - 1];
      if op.Put? || op.Remove? then [] else Since(ops[..|ops| - 1]) + [op]
  }

  /** The last put or remove. */
  function Change(ops: seq<Op>): Option<Op> {
    if ops == [] then None
    else var op := ops[|ops| - 1];
      if op.Put? || op.Remove? then Some(op) else Change(ops[..|ops| - 1])
  }

  predicate Gets(ops: seq<Op>) {
    exists i :: 0 <= i < |ops| && ops[i].Get?
  }

  /** The cache after a stay, from the last change and what was read since. */
  predicate Holds(k: Cache, sv: Option<string>, change: Option<Op>, since: seq<Op>) {
    if change.Some? && change.value.Put? then
      k == Cache(Some(File(change.value.text, true)), Some(|change.value.text|))
    else
      && k.file == (if Gets(since) then Some(File(Text(sv), false)) else None)
      && (k.size.Some? <==> since != [])
      && (since != [] && sv.Some? ==> k.size == Some(|sv.value|))
  }

  lemma ReadHolds(k: Cache, sv: Option<string>, change: Option<Op>, since: seq<Op>, op: Op)
    requires Holds(k, sv, change, since) && (op.Get? || op.GetAttr?)
    ensures Holds(Do(k, sv, op), sv, change, since + [op])
  {
    var more := since + [op];
    assert more[|since|] == op;
    assert Gets(more) <==> Gets(since) || op.Get? by {
      if Gets(since) { var i :| 0 <= i < |since| && since[i].Get?; assert more[i].Get?; }
    }
  }

  lemma {:induction false} TruthIs(sv: Option<string>, ops: seq<Op>)
    ensures Change(ops) == None ==> Since(ops) == ops && Truth(sv, ops) == sv
    ensures Change(ops).Some? ==>
      var op := Change(ops).value; (op.Put? || op.Remove?) && Truth(sv, ops) == if op.Put? then Some(op.text) else None
  {
    if ops != [] {
      TruthIs(sv, ops[..|ops| - 1]);
      assert ops == ops[..|ops| - 1] + [ops[|ops| - 1]];
    }
  }

  lemma {:induction false} CacheIs(sv: Option<string>, ops: seq<Op>)
    ensures Holds(After(sv, ops), sv, Change(ops), Since(ops))
  {
    if ops != [] {
      var pre, op := ops[..|ops| - 1], ops[|ops| - 1];
      CacheIs(sv, pre);
      if op.Get? || op.GetAttr? { ReadHolds(After(sv, pre), sv, Change(pre), Since(pre), op); }
    }
  }

  lemma AfterIs(sv: Option<string>, ops: seq<Op>)
    ensures Holds(After(sv, ops), sv, Change(ops), Since(ops))
    ensures Change(ops) == None ==> Since(ops) == ops && Truth(sv, ops) == sv
    ensures Change(ops).Some? ==>
      var op := Change(ops).value; (op.Put? || op.Remove?) && Truth(sv, ops) == if op.Put? then Some(op.text) else None
  {
    TruthIs(sv, ops);
    CacheIs(sv, ops);
  }

  /**
   * The flush after a stay is sound: there was nothing at the server, or the stay did something and read nothing
   * it had removed.
   */
  predicate FlushSound(sv: Option<string>, ops: seq<Op>) {
    sv == None || (ops != [] && (Change(ops) == Some(Remove) ==> Since(ops) == []))
  }

  /** A flush leaves at the server what the extent holds for its users, exactly when the stay was sound. */
  lemma FlushKeepsTruth(sv: Option<string>, ops: seq<Op>)
    ensures Flushed(After(sv, ops), sv) == Truth(sv, ops) <==> FlushSound(sv, ops)
  {
    AfterIs(sv, ops);
  }

  predicate Tells(answer: (Status, string), t: Option<string>) {
    if t.Some? then answer == (OK, t.value) else answer.0 != OK
  }

  predicate TellsSize(answer: (Status, nat), t: Option<string>) {
    if t.Some? then answer == (OK, |t.value|) else answer.0 != OK
  }

  /** A read is sound after a put; else if the extent is there, unless removed; else if no read has failed before. */
  predicate ReadSound(sv: Option<string>, ops: seq<Op>, failed: bool) {
    (Change(ops).Some? && Change(ops).value.Put?) || if sv.Some? then Change(ops) == None else !failed
  }

  /** `get` tells what the extent holds, exactly in a sound place. */
  lemma GetTellsTruth(sv: Option<string>, ops: seq<Op>)
    ensures Tells(Read(After(sv, ops), sv), Truth(sv, ops)) <==> ReadSound(sv, ops, Gets(Since(ops)))
  {
    AfterIs(sv, ops);
  }

  /** So does `getattr` with the size; it is misled by a failed `getattr` as well. */
  lemma GetAttrTellsTruth(sv: Option<string>, ops: seq<Op>, noise: nat)
    ensures TellsSize(Measure(After(sv, ops), sv, noise), Truth(sv, ops)) <==> ReadSound(sv, ops, Since(ops) != [])
  {
    AfterIs(sv, ops);
  }

  /**
   * A missing extent reads as empty with an input/output error, the status of the call for its attributes. That copy
   * is cached, so the next read of it succeeds.
   */
  lemma MissingExtent(noise: nat)
    ensures Read(EMPTY, None) == (IOERR, "") && Measure(EMPTY, None, noise) == (IOERR, noise)
    ensures Read(After(None, [Get(noise)]), None) == (OK, "")
  {
    AfterIs(None, [Get(noise)]);
    assert Since([Get(noise)]) == [] + [Get(noise)];
  }

  /** A stay that does something and reads only what is there. */
  predicate Careful(sv: Option<string>, ops: seq<Op>) {
    ops != [] && forall i :: 0 <= i < |ops| && (ops[i].Get? || ops[i].GetAttr?) ==> Truth(sv, ops[..i]).Some?
  }

  lemma ReadsAreOfTruth(sv: Option<string>, ops: seq<Op>)
    requires forall i :: 0 <= i < |ops| && (ops[i].Get? || ops[i].GetAttr?) ==> Truth(sv, ops[..i]).Some?
    ensures Since(ops) != [] ==> Truth(sv, ops).Some?
  {
  }

  /** Careful stays are sound throughout: every read, and the flush at the end. */
  lemma CarefulIsSound(sv: Option<string>, ops: seq<Op>, i: nat)
    requires Careful(sv, ops) && i < |ops|
    ensures FlushSound(sv, ops)
    ensures ops[i].Get? ==> Tells(Read(After(sv, ops[..i]), sv), Truth(sv, ops[..i]))
    ensures ops[i].GetAttr? ==> TellsSize(Measure(After(sv, ops[..i]), sv, ops[i].noise), Truth(sv, ops[..i]))
  {
    ReadsAreOfTruth(sv, ops);
    AfterIs(sv, ops);
    AfterIs(sv, ops[..i]);
    GetTellsTruth(sv, ops[..i]);
    if ops[i].GetAttr? { GetAttrTellsTruth(sv, ops[..i], ops[i].noise); }
  }

  /**
   * Two stays that are not sound: one leaves an existing extent alone and removes it; the other reads what it
   * removed and brings it back.
   */
  lemma UnsoundStays(text: string, noise: nat)
    ensures Flushed(After(Some(text), []), Some(text)) == None && Truth(Some(text), []) == Some(text)
    ensures Flushed(After(Some(text), [Remove, Get(noise)]), Some(text)) == Some(text)
    ensures Truth(Some(text), [Remove, Get(noise)]) == None
  {
  }
}
