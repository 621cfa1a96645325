/**
 * The extent cache on top of the lock protocol: users touch an extent while they hold its lock, releasing
 * flushes it.
 */
module Coherence {
  import opened Options
  import opened LockNodes
  import opened LockStages
  import Locks
  import LockRuns
  import opened Extents

  /**
   * `store` is the extent at the server, `truth` what it holds for its users, and `stay` what users have done
   * since the last flush.
   */
  datatype State = State(
    locks: Locks.State, cache: map<Client, Cache>, store: Option<string>, truth: Option<string>, stay: seq<Op>)

  datatype Event = Lock(e: Locks.Event) | Use(x: Ref, op: Op)

  predicate Flushes(e: Event) {
    e.Lock? && e.e.FlushDone?
  }

  predicate Enabled(s: State, e: Event) {
    match e
    case Lock(l) => Locks.Enabled(s.locks, l) && (l.FlushDone? ==> Locks.Releaser(l.x, s.locks.pc[l.x]) in s.cache)
    case Use(x, _) => x in s.locks.pc && s.locks.pc[x].Holding? && x.c in s.cache
  }

  function Apply(s: State, e: Event): State
    requires Enabled(s, e)
  {
    match e
    case Use(x, op) =>
      s.(cache := s.cache[x.c := Do(s.cache[x.c], s.store, op)], truth := Truth(s.truth, [op]), stay := s.stay + [op])
    case Lock(l) =>
      var s' := s.(locks := Locks.Apply(s.locks, l));
      if l.FlushDone? then
        var c := Locks.Releaser(l.x, s.locks.pc[l.x]);
        s'.(cache := s.cache[c := EMPTY], store := Flushed(s.cache[c], s.store), stay := [])
      else s'
  }

  datatype Run = Begin(s: State) | Step(past: Run, e: Event)

  ghost predicate Init(s: State) {
    && Locks.Init(s.locks) && s.cache.Keys == s.locks.cl.Keys && s.store == s.truth && s.stay == []
    && (forall c :: c in s.cache ==> s.cache[c] == EMPTY)
  }

  function Last(run: Run): State
    decreases run, 1
  {
    match run
    case Begin(s) => s
    case Step(past, e) => Moved(past, e)
  }

  function Moved(past: Run, e: Event): State
    decreases past, 2
  {
    if Enabled(Last(past), e) then Apply(Last(past), e) else Last(past)
  }

  ghost predicate Legal(run: Run)
    decreases run, 1
  {
    match run
    case Begin(s) => Init(s)
    case Step(past, e) => Follows(past, e)
  }

  ghost predicate Follows(past: Run, e: Event)
    decreases past, 2
  {
    Legal(past) && Enabled(Last(past), e)
  }

  // ----- one client at a time has something cached

  predicate Owner(s: State, c: Client) {
    s.locks.sv.locked && s.locks.sv.owner == c
  }

  /** A grant not yet taken up, or a release after its flush. */
  predicate Unused(p: Locks.Pc) {
    (p.Acq? && !p.call.Sent? && p.call.st == Ok) || (Locks.Releasing(p) && Locks.RelOf(p).RelSent?)
  }

  /** The owner's cache is what its stay has made of it, and all others are empty. */
  ghost predicate Inv(s: State) {
    && Locks.Inv(s.locks) && s.cache.Keys == s.locks.cl.Keys
    && (forall c :: c in s.cache ==> s.cache[c] == if Owner(s, c) then After(s.store, s.stay) else EMPTY)
    && (!s.locks.sv.locked ==> s.stay == [])
    && (forall x :: x in s.locks.pc && Unused(s.locks.pc[x]) ==> s.stay == [])
  }

  /** A lock event leaves its thread unused only if it was, unless it is a grant or a flush. */
  lemma UnusedFrame(s: Locks.State, e: Locks.Event, y: Ref)
    requires Locks.Enabled(s, e) && y in s.pc
    ensures y in Locks.Apply(s, e).pc
    ensures Unused(Locks.Apply(s, e).pc[y]) ==>
      Unused(s.pc[y]) || (y == e.x && (e.FlushDone? || (e.ServeAcquire? && Serve(s.sv, e.x.c).1.status == Ok)))
  {
  }

  lemma SameDomain(s: Locks.State, e: Locks.Event)
    requires Locks.Inv(s) && Locks.Enabled(s, e)
    ensures Locks.Apply(s, e).cl.Keys == s.cl.Keys && Locks.Apply(s, e).pc.Keys == s.pc.Keys
  {
    assert Locks.ThreadOk(s.cl, e.x, s.pc[e.x]);
  }

  /** While a thread holds the lock its client is the owner, and no grant or release is pending. */
  lemma HolderAlone(s: Locks.State, x: Ref, y: Ref)
    requires Locks.Inv(s) && x in s.pc && s.pc[x].Holding? && y in s.pc
    ensures s.sv.locked && s.sv.owner == x.c && !Unused(s.pc[y])
  {
    assert Locks.ThreadOk(s.cl, x, s.pc[x]) && Locks.ThreadOk(s.cl, y, s.pc[y]);
    assert Locks.View(s).stage[x.c] == Held;
    if Unused(s.pc[y]) {
      var d := if s.pc[y].Acq? && !s.pc[y].call.Sent? && s.pc[y].call.st == Ok then y.c else Locks.Releaser(y, s.pc[y]);
      assert Locks.View(s).stage[d] == Locks.StageOf(s.cl, s.pc, d);
      assert Owns(Locks.View(s).stage[d]);
      assert false;
    }
  }

  /** The client that flushes is the owner. */
  lemma FlusherOwns(s: Locks.State, x: Ref)
    requires Locks.Inv(s) && Locks.Enabled(s, Locks.FlushDone(x))
    ensures s.sv.locked && s.sv.owner == Locks.Releaser(x, s.pc[x])
  {
    var c := Locks.Releaser(x, s.pc[x]);
    assert Locks.ThreadOk(s.cl, x, s.pc[x]);
    assert Locks.ActiveRef(c, s.cl[c]) == x;
    assert Locks.View(s).stage[c] == Returning;
  }

  lemma UseKeeps(s: State, x: Ref, op: Op)
    requires Inv(s) && Enabled(s, Use(x, op))
    ensures Inv(Apply(s, Use(x, op)))
  {
    forall y | y in s.locks.pc ensures s.locks.sv.locked && Owner(s, x.c) && !Unused(s.locks.pc[y]) {
      HolderAlone(s.locks, x, y);
    }
    assert (s.stay + [op])[..|s.stay|] == s.stay;
  }

  lemma FlushStores(s: State, x: Ref)
    requires Inv(s) && Enabled(s, Lock(Locks.FlushDone(x)))
    ensures Apply(s, Lock(Locks.FlushDone(x))).store == Flushed(After(s.store, s.stay), s.store)
    ensures forall c :: c in s.cache ==> Apply(s, Lock(Locks.FlushDone(x))).cache[c] == EMPTY
  {
    FlusherOwns(s.locks, x);
  }

  lemma FlushKeeps(s: State, x: Ref)
    requires Inv(s) && Enabled(s, Lock(Locks.FlushDone(x)))
    ensures Inv(Apply(s, Lock(Locks.FlushDone(x))))
  {
    FlushStores(s, x);
    LockRuns.EventKeeps(s.locks, Locks.FlushDone(x));
    SameDomain(s.locks, Locks.FlushDone(x));
  }

  /** Serving a release finds nothing left to flush; serving an acquire finds nothing in use. */
  lemma ServerKeeps(s: State, l: Locks.Event)
    requires Inv(s) && Enabled(s, Lock(l)) && (l.ServeAcquire? || l.ServeRelease?)
    ensures var sv, sv' := s.locks.sv, Locks.Apply(s.locks, l).sv;
      sv'.locked != sv.locked || sv'.owner != sv.owner ==> s.stay == []
  {
    assert l.ServeRelease? ==> Unused(s.locks.pc[l.x]);
    assert s.locks.sv.locked ==> s.locks.sv.created;
  }

  lemma LockKeeps(s: State, l: Locks.Event)
    requires Inv(s) && Enabled(s, Lock(l)) && !l.FlushDone?
    ensures Inv(Apply(s, Lock(l)))
  {
    LockRuns.EventKeeps(s.locks, l);
    Locks.ServerSteps(s.locks, l);
    SameDomain(s.locks, l);
    if l.ServeAcquire? || l.ServeRelease? { ServerKeeps(s, l); }
    assert l.ServeAcquire? && Serve(s.locks.sv, l.x.c).1.status == Ok ==> s.stay == [] by {
      assert s.locks.sv.locked ==> s.locks.sv.created;
    }
    forall y | y in s.locks.pc && Unused(Locks.Apply(s.locks, l).pc[y]) ensures s.stay == [] {
      UnusedFrame(s.locks, l, y);
    }
  }

  lemma EventKeeps(s: State, e: Event)
    requires Inv(s) && Enabled(s, e)
    ensures Inv(Apply(s, e))
  {
    match e
    case Use(x, op) => UseKeeps(s, x, op);
    case Lock(l) => if l.FlushDone? { FlushKeeps(s, l.x); } else { LockKeeps(s, l); }
  }

  lemma {:induction false} RunKeeps(run: Run)
    requires Legal(run)
    ensures Inv(Last(run))
  {
    match run
    case Begin(s) => LockRuns.InitOk(s.locks);
    case Step(past, e) =>
      assert Follows(past, e);
      RunKeeps(past);
      EventKeeps(Last(past), e);
  }

  // ----- results over whole runs

  /** A client that does not have the lock has nothing cached, nor has one that has just got it or given it back. */
  lemma NothingCachedWithoutLock(run: Run, c: Client)
    requires Legal(run) && c in Last(run).cache
    ensures c in Last(run).locks.cl
    ensures Last(run).cache[c] != EMPTY ==>
      && Owner(Last(run), c)
      && Last(run).locks.cl[c].state != NONE && Last(run).locks.cl[c].state != ACQUIRING
  {
    RunKeeps(run);
    var s := Last(run);
    if s.cache[c] != EMPTY {
      var x := Locks.ActiveRef(c, s.locks.cl[c]);
      assert Locks.InfoOk(s.locks.pc, c, s.locks.cl[c]);
      assert Locks.View(s.locks).stage[c] == Locks.StageOf(s.locks.cl, s.locks.pc, c);
      assert x in s.locks.pc ==> !Unused(s.locks.pc[x]);
    }
  }

  /** Every flush so far has left at the server what the extent held for its users. */
  ghost predicate Faithful(run: Run) {
    run.Begin? || (Faithful(run.past) && (Flushes(run.e) ==> Last(run).store == Last(run).truth))
  }

  /** Every stay so far was sound when it was flushed. */
  ghost predicate Sound(run: Run) {
    run.Begin? || (Sound(run.past) && (Flushes(run.e) ==> FlushSound(Last(run.past).store, Last(run.past).stay)))
  }

  lemma TruthSnoc(t: Option<string>, ops: seq<Op>, op: Op)
    ensures Truth(t, ops + [op]) == Truth(Truth(t, ops), [op])
  {
    assert (ops + [op])[..|ops|] == ops && [op][..0] == [];
  }

  /** As long as flushes were faithful, the truth is what the present stay makes of the server's copy. */
  lemma {:induction false} TruthOfStay(run: Run)
    requires Legal(run) && Faithful(run)
    ensures Last(run).truth == Truth(Last(run).store, Last(run).stay)
  {
    match run
    case Begin(_) =>
    case Step(past, e) =>
      assert Follows(past, e);
      TruthOfStay(past);
      if e.Use? { TruthSnoc(Last(past).store, Last(past).stay, e.op); }
  }

  /** One flush: it hands over the truth exactly when the stay was sound. */
  lemma FlushHandsOver(s: State, x: Ref)
    requires Inv(s) && Enabled(s, Lock(Locks.FlushDone(x))) && s.truth == Truth(s.store, s.stay)
    ensures var s' := Apply(s, Lock(Locks.FlushDone(x))); s'.store == s'.truth <==> FlushSound(s.store, s.stay)
  {
    FlushStores(s, x);
    FlushKeepsTruth(s.store, s.stay);
  }

  /** Flushes are faithful all along a run, exactly when all its stays were sound. */
  lemma {:induction false} FaithfulIffSound(run: Run)
    requires Legal(run)
    ensures Faithful(run) <==> Sound(run)
  {
    match run
    case Begin(_) =>
    case Step(past, e) =>
      assert Follows(past, e);
      FaithfulIffSound(past);
      if Faithful(past) && Flushes(e) {
        TruthOfStay(past);
        RunKeeps(past);
        FlushHandsOver(Last(past), e.e.x);
        assert Moved(past, e) == Apply(Last(past), Lock(Locks.FlushDone(e.e.x)));
      }
  }

  /**
   * With sound stays, a lock that no client has leaves the truth at the server: in particular, a removed extent is
   * gone.
   */
  lemma HandedOver(run: Run)
    requires Legal(run) && Sound(run) && !Last(run).locks.sv.locked
    ensures Last(run).store == Last(run).truth
  {
    RunKeeps(run);
    FaithfulIffSound(run);
    TruthOfStay(run);
  }

  /**
   * With sound stays, what a holder of the lock reads is the last text put by any client, exactly in a sound place
   * of its stay.
   */
  lemma ReadsTellTruth(run: Run, x: Ref, noise: nat)
    requires Legal(run) && Sound(run) && Enabled(Last(run), Use(x, Get(noise)))
    ensures var s := Last(run);
      && (Tells(Read(s.cache[x.c], s.store), s.truth) <==> ReadSound(s.store, s.stay, Gets(Since(s.stay))))
      && (TellsSize(Measure(s.cache[x.c], s.store, noise), s.truth) <==>
          ReadSound(s.store, s.stay, Since(s.stay) != []))
  {
    var s := Last(run);
    RunKeeps(run);
    FaithfulIffSound(run);
    TruthOfStay(run);
    HolderAlone(s.locks, x, x);
    GetTellsTruth(s.store, s.stay);
    GetAttrTellsTruth(s.store, s.stay, noise);
  }
}
