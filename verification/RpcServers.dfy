/** The server end: the reply window and the forgotten list kept for every client. */
module RpcServers {
  import opened Options
  import opened RpcClients
  import opened Sequences

  /** A remembered call; the reply is missing while the handler runs. */
  datatype Entry = Entry(xid: nat, reply: Option<Out>)

  /** What the server keeps for one client. */
  datatype Memory = Memory(window: seq<Entry>, forgotten: seq<nat>)

  /** A duplicate of a running call counts as done, without a reply to send. */
  datatype Verdict = New | Done(reply: Option<Out>) | TooOld

  const BLANK := Memory([], [])

  /** Position of the first entry for `xid`, or the length of the window. */
  function Find(w: seq<Entry>, xid: nat): (i: nat)
    ensures i <= |w|
    ensures i < |w| ==> w[i].xid == xid
    ensures forall j :: 0 <= j < i ==> w[j].xid != xid
  {
    if w == [] then 0 else if w[0].xid == xid then 0 else 1 + Find(w[1..], xid)
  }

  function Classify(m: Memory, xid: nat): Verdict {
    var i := Find(m.window, xid);
    if i < |m.window| then Done(m.window[i].reply)
    else if xid in m.forgotten then TooOld
    else New
  }

  function Kept(w: seq<Entry>, xidRep: nat): seq<Entry> {
    if w == [] then []
    else Kept(w[..|w| - 1], xidRep) + if w[|w| - 1].xid <= xidRep then [] else [w[|w| - 1]]
  }

  function Dropped(w: seq<Entry>, xidRep: nat): seq<nat> {
    if w == [] then []
    else Dropped(w[..|w| - 1], xidRep) + if w[|w| - 1].xid <= xidRep then [w[|w| - 1].xid] else []
  }

  function Trim(m: Memory, xidRep: nat): Memory {
    Memory(Kept(m.window, xidRep), m.forgotten + Dropped(m.window, xidRep))
  }

  /** `checkduplicate_and_update` for one client. */
  function Check(m: Memory, xid: nat, xidRep: nat): (Memory, Verdict) {
    var v := Classify(m, xid);
    var m' := if v.New? then m.(window := m.window + [Entry(xid, None)]) else m;
    (Trim(m', xidRep), v)
  }

  /** `add_reply` for one client: the entry may have been trimmed while the handler ran. */
  function AddReply(m: Memory, xid: nat, out: Out): Memory {
    var i := Find(m.window, xid);
    if i < |m.window| then m.(window := m.window[i := Entry(xid, Some(out))]) else m
  }

  // ----- the memory as a set of transaction ids

  ghost predicate Remembers(m: Memory, xid: nat) {
    exists e :: e in m.window && e.xid == xid
  }

  ghost predicate Known(m: Memory, xid: nat) {
    Remembers(m, xid) || xid in m.forgotten
  }

  predicate DistinctIds(w: seq<Entry>) {
    forall i, j :: 0 <= i < j < |w| ==> w[i].xid != w[j].xid
  }

  /** No id twice, in the window, in the forgotten list, or across the two. */
  ghost predicate Tidy(m: Memory) {
    && DistinctIds(m.window) && NoRepeats(m.forgotten)
    && (forall e :: e in m.window ==> e.xid !in m.forgotten)
  }

  lemma {:induction false} TrimContents(w: seq<Entry>, xidRep: nat)
    ensures forall e :: e in Kept(w, xidRep) <==> e in w && e.xid > xidRep
    ensures forall x :: x in Dropped(w, xidRep) <==> x <= xidRep && exists e :: e in w && e.xid == x
    decreases |w|
  {
    if w != [] {
      var k := |w| - 1;
      TrimContents(w[..k], xidRep);
      assert w == w[..k] + [w[k]];
      forall x: nat ensures x in Dropped(w, xidRep) <==> x <= xidRep && exists e :: e in w && e.xid == x {
        if x in Dropped(w[..k], xidRep) {
          var e :| e in w[..k] && e.xid == x;
          assert e in w;
        }
        if e :| e in w && e.xid == x && x <= xidRep {
          if e in w[..k] { assert x in Dropped(w[..k], xidRep); } else { assert e == w[k]; }
        }
        if x == w[k].xid { assert w[k] in w; }
      }
    }
  }

  lemma {:induction false} KeptDistinct(w: seq<Entry>, xidRep: nat)
    requires DistinctIds(w)
    ensures DistinctIds(Kept(w, xidRep))
    decreases |w|
  {
    if w != [] {
      var n := |w| - 1;
      var a := Kept(w[..n], xidRep);
      KeptDistinct(w[..n], xidRep);
      TrimContents(w[..n], xidRep);
      forall i | 0 <= i < |a| ensures a[i].xid != w[n].xid { assert a[i] in w[..n]; }
    }
  }

  lemma {:induction false} DroppedDistinct(w: seq<Entry>, xidRep: nat)
    requires DistinctIds(w)
    ensures NoRepeats(Dropped(w, xidRep))
    decreases |w|
  {
    if w != [] {
      var n := |w| - 1;
      var d := Dropped(w[..n], xidRep);
      DroppedDistinct(w[..n], xidRep);
      TrimContents(w[..n], xidRep);
      forall i | 0 <= i < |d| ensures d[i] != w[n].xid {
        assert d[i] in d;
        var e :| e in w[..n] && e.xid == d[i];
      }
    }
  }

  /** Trimming moves exactly the acknowledged ids from the window to the forgotten list. */
  lemma TrimMoves(m: Memory, xidRep: nat)
    requires Tidy(m)
    ensures var m' := Trim(m, xidRep);
      && Tidy(m')
      && (forall e :: e in m'.window <==> e in m.window && e.xid > xidRep)
      && (forall x: nat :: x in m'.forgotten <==> x in m.forgotten || (x <= xidRep && Remembers(m, x)))
  {
    var m' := Trim(m, xidRep);
    var d := Dropped(m.window, xidRep);
    TrimContents(m.window, xidRep);
    KeptDistinct(m.window, xidRep);
    DroppedDistinct(m.window, xidRep);
    forall i, j | 0 <= i < j < |m'.forgotten| ensures m'.forgotten[i] != m'.forgotten[j] {
      if i < |m.forgotten| <= j {
        assert d[j - |m.forgotten|] in d;
        var e :| e in m.window && e.xid == d[j - |m.forgotten|];
      }
    }
  }

  lemma FindRemembers(m: Memory, xid: nat)
    ensures Find(m.window, xid) < |m.window| <==> Remembers(m, xid)
    ensures Classify(m, xid).New? <==> !Known(m, xid)
    ensures Classify(m, xid).TooOld? <==> !Remembers(m, xid) && xid in m.forgotten
    ensures Classify(m, xid).Done? ==> Entry(xid, Classify(m, xid).reply) in m.window
  {
  }

  /** One request: a new id enters the memory, no id ever leaves it, and acknowledged ids are forgotten. */
  lemma CheckUpdates(m: Memory, xid: nat, xidRep: nat)
    requires Tidy(m) && xidRep < xid
    ensures var (m', v) := Check(m, xid, xidRep);
      && Tidy(m') && (v.New? <==> !Known(m, xid)) && (v.TooOld? <==> xid in m.forgotten)
      && (forall x: nat :: Known(m', x) <==> Known(m, x) || x == xid)
      && (forall x: nat :: x in m'.forgotten <==> x in m.forgotten || (x <= xidRep && Remembers(m, x)))
      && (forall e :: e in m'.window <==> (e in m.window && e.xid > xidRep) || (v.New? && e == Entry(xid, None)))
      && (v.Done? ==> Entry(xid, v.reply) in m.window)
  {
    var v := Classify(m, xid);
    FindRemembers(m, xid);
    var m1 := if v.New? then m.(window := m.window + [Entry(xid, None)]) else m;
    forall x: nat ensures Remembers(m1, x) <==> Remembers(m, x) || (v.New? && x == xid) {
      if x == xid && v.New? { assert Entry(xid, None) in m1.window; }
      if Remembers(m, x) { var e :| e in m.window && e.xid == x; assert e in m1.window; }
    }
    assert Tidy(m1) by {
      forall i | 0 <= i < |m.window| ensures v.New? ==> m.window[i].xid != xid { assert m.window[i] in m.window; }
    }
    TrimMoves(m1, xidRep);
    var m' := Trim(m1, xidRep);
    forall x: nat ensures Known(m', x) <==> Known(m, x) || x == xid {
      if Remembers(m1, x) { var e :| e in m1.window && e.xid == x; assert e in m'.window || x in m'.forgotten; }
    }
  }

  /** Storing a reply changes nothing but the entry of that call. */
  lemma AddReplyUpdates(m: Memory, xid: nat, out: Out)
    requires Tidy(m)
    ensures var m' := AddReply(m, xid, out);
      && Tidy(m') && m'.forgotten == m.forgotten
      && (forall x: nat :: Remembers(m', x) <==> Remembers(m, x))
      && (forall e :: e in m'.window <==>
            (e in m.window && e.xid != xid) || (Remembers(m, xid) && e == Entry(xid, Some(out))))
  {
    var m' := AddReply(m, xid, out);
    var i := Find(m.window, xid);
    FindRemembers(m, xid);
    if i < |m.window| {
      forall e ensures e in m'.window <==> (e in m.window && e.xid != xid) || e == Entry(xid, Some(out)) {
        if e in m'.window {
          var j :| 0 <= j < |m'.window| && m'.window[j] == e;
          assert j != i ==> m.window[j] in m.window;
        }
        if e in m.window && e.xid != xid { var j :| 0 <= j < |m.window| && m.window[j] == e; assert m'.window[j] == e; }
        assert m'.window[i] == Entry(xid, Some(out));
      }
      forall x: nat ensures Remembers(m', x) <==> Remembers(m, x) {
        if Remembers(m, x) && x != xid { var e :| e in m.window && e.xid == x; assert e in m'.window; }
        if x == xid { assert Entry(xid, Some(out)) in m'.window; }
      }
    }
  }

  lemma TrimNext(w: seq<Entry>, k: nat, xidRep: nat)
    requires k < |w|
    ensures Kept(w[..k + 1], xidRep) == Kept(w[..k], xidRep) + if w[k].xid <= xidRep then [] else [w[k]]
    ensures Dropped(w[..k + 1], xidRep) == Dropped(w[..k], xidRep) + if w[k].xid <= xidRep then [w[k].xid] else []
  {
    assert w[..k + 1][..k] == w[..k];
  }

  // ----- the server object

  class RpcServer {
    var replyWindow: map<nat, seq<Entry>>
    var forgottens: map<nat, seq<nat>>

    /** A client with forgotten calls has a reply window, possibly empty. */
    predicate Valid()
      reads this
    {
      forgottens.Keys <= replyWindow.Keys
    }

    function MemoryOf(nonce: nat): Memory
      reads this
    {
      Memory(if nonce in replyWindow then replyWindow[nonce] else [],
             if nonce in forgottens then forgottens[nonce] else [])
    }

    constructor ()
      ensures Valid() && forall n :: MemoryOf(n) == BLANK
    {
      replyWindow, forgottens := map[], map[];
    }

    method FindEntry(nonce: nat, xid: nat) returns (i: nat)
      requires nonce in replyWindow
      ensures i == Find(replyWindow[nonce], xid)
    {
      var w := replyWindow[nonce];
      i := 0;
      while i < |w| && w[i].xid != xid
        invariant 0 <= i <= |w|
        invariant Find(w, xid) == i + Find(w[i..], xid)
      {
        i := i + 1;
      }
    }

    /** The lookup half: the reply window first, then the forgotten list. */
    method Lookup(nonce: nat, xid: nat) returns (v: Verdict)
      requires Valid()
      ensures v == Classify(MemoryOf(nonce), xid)
    {
      v := New;
      if nonce in replyWindow {
        var i := FindEntry(nonce, xid);
        if i < |replyWindow[nonce]| {
          v := Done(replyWindow[nonce][i].reply);
        } else if nonce in forgottens {
          if xid in forgottens[nonce] { v := TooOld; }
        }
      }
    }

    method CheckDuplicateAndUpdate(nonce: nat, xid: nat, xidRep: nat) returns (v: Verdict)
      requires Valid()
      modifies this
      ensures Valid() && MemoryOf(nonce) == Check(old(MemoryOf(nonce)), xid, xidRep).0
      ensures v == Check(old(MemoryOf(nonce)), xid, xidRep).1
      ensures forall n :: n != nonce ==> MemoryOf(n) == old(MemoryOf(n))
    {
      v := Lookup(nonce, xid);
      var w := if nonce in replyWindow then replyWindow[nonce] else [];
      if v.New? { w := w + [Entry(xid, None)]; }
      var list, dropped := TrimList(w, xidRep);
      replyWindow := replyWindow[nonce := list];
      var f := if nonce in forgottens then forgottens[nonce] else [];
      forgottens := forgottens[nonce := f + dropped];
    }

    /** The trimming loop: erase acknowledged entries in place, collecting their ids. */
    static method TrimList(w: seq<Entry>, xidRep: nat) returns (list: seq<Entry>, dropped: seq<nat>)
      ensures list == Kept(w, xidRep) && dropped == Dropped(w, xidRep)
    {
      list, dropped := w, [];
      ghost var seen := 0;
      var it := 0;
      while it < |list|
        invariant 0 <= seen <= |w| && 0 <= it <= |list|
        invariant list[..it] == Kept(w[..seen], xidRep) && list[it..] == w[seen..]
        invariant dropped == Dropped(w[..seen], xidRep)
        decreases |w| - seen
      {
        TrimNext(w, seen, xidRep);
        assert list[it] == list[it..][0] == w[seen];
        assert list[it + 1..] == list[it..][1..] == w[seen + 1..];
        if list[it].xid <= xidRep {
          dropped := dropped + [list[it].xid];
          list := list[..it] + list[it + 1..];
        } else {
          assert list[..it + 1] == list[..it] + [list[it]];
          it := it + 1;
        }
        seen := seen + 1;
      }
      assert w[..seen] == w && list[..it] == list;
    }

    method StoreReply(nonce: nat, xid: nat, out: Out)
      requires Valid()
      modifies this
      ensures Valid() && MemoryOf(nonce) == AddReply(old(MemoryOf(nonce)), xid, out)
      ensures forall n :: n != nonce ==> MemoryOf(n) == old(MemoryOf(n))
    {
      if nonce !in replyWindow { replyWindow := replyWindow[nonce := []]; }
      var i := FindEntry(nonce, xid);
      if i < |replyWindow[nonce]| {
        replyWindow := replyWindow[nonce := replyWindow[nonce][i := Entry(xid, Some(out))]];
      }
    }
  }
}
