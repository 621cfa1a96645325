/** Every critical section of the lock protocol keeps what holds inside the clients. */
module LockMoves {
  import opened LockNodes
  import opened LockStages
  import opened Locks

  /** `x` moves to `p` and the entry of `c` to `i`; nothing else happens inside the clients. */
  ghost predicate Moves(s: State, s': State, x: Ref, c: Client, i: Info, p: Pc) {
    x in s.pc && c in s.cl && s'.cl == s.cl[c := i] && s'.pc == s.pc[x := p]
  }

  /** Every other thread of `c`, and every other thread releasing for `c`, is content with the new entry. */
  ghost predicate OthersOk(s: State, x: Ref, c: Client, i: Info)
    requires c in s.cl
  {
    && (forall y :: y in s.pc && y != x && y.c == c ==>
          && (y.t in i.waiters <==> s.pc[y].WaitFree?)
          && (s.pc[y].WaitNone? ==> i.waitingToAcq)
          && (s.pc[y].Holding? || s.pc[y].Acq? || s.pc[y].WaitRetry? ==>
              i.state == s.cl[c].state && i.tid == s.cl[c].tid)
          && (s.pc[y].WaitRetry? ==> i.waitingToRetry))
    && (forall y :: y in s.pc && y != x && Releasing(s.pc[y]) && Releaser(y, s.pc[y]) == c ==>
          i.state == s.cl[c].state && i.tid == s.cl[c].tid)
  }

  lemma MoveThreads(s: State, s': State, x: Ref, c: Client, i: Info, p: Pc)
    requires Local(s) && Moves(s, s', x, c, i, p) && OthersOk(s, x, c, i) && ThreadOk(s'.cl, x, p)
    ensures forall y :: y in s'.pc ==> ThreadOk(s'.cl, y, s'.pc[y])
  {
    forall y | y in s'.pc ensures ThreadOk(s'.cl, y, s'.pc[y]) {
      if y != x { assert ThreadOk(s.cl, y, s.pc[y]); }
    }
  }

  /** The entry of `d` is in a state that `x` is responsible for. */
  predicate Uses(s: State, d: Client, x: Ref)
    requires d in s.cl
  {
    && ActiveRef(d, s.cl[d]) == x
    && (s.cl[d].state == LOCKED || s.cl[d].state == ACQUIRING || s.cl[d].state == RELEASING)
  }

  /** `x` works for no client but its own, unless it is a revoke handler releasing for another. */
  lemma WorksFor(s: State, x: Ref, d: Client)
    requires Local(s) && x in s.pc && d in s.cl && Uses(s, d, x)
    ensures d == x.c || (Releasing(s.pc[x]) && s.pc[x].Acq? && s.pc[x].call.target == d)
  {
    assert InfoOk(s.pc, d, s.cl[d]);
  }

  /** When the new entry is fine with every other thread: `x` was in charge of it, or nobody was. */
  lemma Framed(s: State, x: Ref, c: Client, i: Info)
    requires Local(s) && c in s.cl
    requires forall t :: Ref(c, t) != x ==> (t in i.waiters <==> t in s.cl[c].waiters)
    requires s.cl[c].waitingToAcq ==> i.waitingToAcq || (x in s.pc && x.c == c && s.pc[x].WaitNone?)
    requires s.cl[c].waitingToRetry ==> i.waitingToRetry || Uses(s, c, x)
    requires
      || (i.state == s.cl[c].state && i.tid == s.cl[c].tid)
      || s.cl[c].state == NONE || s.cl[c].state == FREE || Uses(s, c, x)
    ensures OthersOk(s, x, c, i)
  {
    forall y | y in s.pc && y != x
      ensures y.c == c ==>
        && (y.t in i.waiters <==> s.pc[y].WaitFree?)
        && (s.pc[y].WaitNone? ==> i.waitingToAcq)
        && (s.pc[y].Holding? || s.pc[y].Acq? || s.pc[y].WaitRetry? ==> i.state == s.cl[c].state && i.tid == s.cl[c].tid)
        && (s.pc[y].WaitRetry? ==> i.waitingToRetry)
      ensures Releasing(s.pc[y]) && Releaser(y, s.pc[y]) == c ==> i.state == s.cl[c].state && i.tid == s.cl[c].tid
    {
      assert ThreadOk(s.cl, y, s.pc[y]);
    }
  }

  /** The thread that leaves a control state leaves no other client's entry without its thread. */
  lemma MoveInfos(s: State, s': State, x: Ref, c: Client, i: Info, p: Pc)
    requires Local(s) && Moves(s, s', x, c, i, p) && InfoOk(s'.pc, c, i)
    requires forall d :: d in s.cl && d != c && Uses(s, d, x) ==> InfoOk(s'.pc, d, s.cl[d])
    requires s.pc[x].WaitNone? && !p.WaitNone? ==> x.c == c && !i.waitingToAcq
    ensures forall d :: d in s'.cl ==> InfoOk(s'.pc, d, s'.cl[d])
  {
    forall d | d in s'.cl ensures InfoOk(s'.pc, d, s'.cl[d]) {
      if d != c {
        assert InfoOk(s.pc, d, s.cl[d]);
        if s.cl[d].waitingToAcq {
          var t: Thread :| Ref(d, t) in s.pc && s.pc[Ref(d, t)].WaitNone?;
          assert Ref(d, t) in s'.pc && s'.pc[Ref(d, t)].WaitNone?;
        }
      }
    }
  }

  lemma MoveStages(s: State, s': State, x: Ref, c: Client, i: Info, p: Pc)
    requires Moves(s, s', x, c, i, p)
    requires forall d :: d in s.cl && d != c && Uses(s, d, x) ==> StageAt(s.cl[d], p) == StageAt(s.cl[d], s.pc[x])
    ensures View(s').stage == View(s).stage[c := StageOf(s'.cl, s'.pc, c)]
  {
  }

  /** Adds or removes `x`. */
  function Mark<T>(xs: set<T>, x: T, was: bool, is': bool): set<T> {
    if was == is' then xs else if is' then xs + {x} else xs - {x}
  }

  /** A move changes the stage and flags of one client and the duties of one thread. */
  ghost function Seen(s: State, sv: Server, x: Ref, c: Client, i: Info, p: Pc, st: Stage): Abs
    requires x in s.pc && c in s.cl
  {
    var a := View(s);
    Abs(sv, if a.stage[c] == st then a.stage else a.stage[c := st],
        Mark(a.toRevoke, c, s.cl[c].toRevoke, i.toRevoke), Mark(a.toRetry, c, s.cl[c].toRetry, i.toRetry),
        Mark(a.revokers, x, RevokeDue(s.pc[x]), RevokeDue(p)), Mark(a.retriers, x, RetryDue(s.pc[x]), RetryDue(p)))
  }

  lemma MoveFlags(s: State, s': State, x: Ref, c: Client, i: Info, p: Pc)
    requires Moves(s, s', x, c, i, p)
    ensures View(s').toRevoke == Mark(View(s).toRevoke, c, s.cl[c].toRevoke, i.toRevoke)
    ensures View(s').toRetry == Mark(View(s).toRetry, c, s.cl[c].toRetry, i.toRetry)
  {
  }

  lemma MoveDuties(s: State, s': State, x: Ref, c: Client, i: Info, p: Pc)
    requires Moves(s, s', x, c, i, p)
    ensures View(s').revokers == Mark(View(s).revokers, x, RevokeDue(s.pc[x]), RevokeDue(p))
    ensures View(s').retriers == Mark(View(s).retriers, x, RetryDue(s.pc[x]), RetryDue(p))
  {
  }

  lemma MoveView(s: State, s': State, x: Ref, c: Client, i: Info, p: Pc)
    requires Moves(s, s', x, c, i, p)
    requires forall d :: d in s.cl && d != c && Uses(s, d, x) ==> StageAt(s.cl[d], p) == StageAt(s.cl[d], s.pc[x])
    ensures View(s') == Seen(s, s'.sv, x, c, i, p, StageOf(s'.cl, s'.pc, c))
    ensures View(s).stage[c] == StageOf(s.cl, s.pc, c)
    ensures c in View(s).toRevoke <==> s.cl[c].toRevoke
    ensures c in View(s).toRetry <==> s.cl[c].toRetry
    ensures x in View(s).revokers <==> RevokeDue(s.pc[x])
    ensures x in View(s).retriers <==> RetryDue(s.pc[x])
  {
    MoveStages(s, s', x, c, i, p);
    MoveFlags(s, s', x, c, i, p);
    MoveDuties(s, s', x, c, i, p);
    assert View(s').stage == Seen(s, s'.sv, x, c, i, p, StageOf(s'.cl, s'.pc, c)).stage;
  }

  /** Only one thread of a client waits to acquire the lock once it is back at the server. */
  lemma MoveWaitNone(s: State, s': State, x: Ref, c: Client, i: Info, p: Pc)
    requires Local(s) && Moves(s, s', x, c, i, p)
    requires p.WaitNone? && !s.pc[x].WaitNone? ==> x.c == c && !s.cl[c].waitingToAcq
    ensures OneWaitNone(s'.pc)
  {
    forall y | y in s.pc && y.c == c && s.pc[y].WaitNone? ensures s.cl[c].waitingToAcq {
      assert ThreadOk(s.cl, y, s.pc[y]);
    }
  }

  /** A move by a thread in charge of the entry, or of an entry nobody is in charge of, keeps the clients sound. */
  lemma MoveLocal(s: State, s': State, x: Ref, c: Client, i: Info, p: Pc)
    requires Local(s) && Moves(s, s', x, c, i, p)
    requires forall t :: Ref(c, t) != x ==> (t in i.waiters <==> t in s.cl[c].waiters)
    requires s.cl[c].waitingToAcq ==> i.waitingToAcq || (x.c == c && s.pc[x].WaitNone?)
    requires s.cl[c].waitingToRetry ==> i.waitingToRetry || Uses(s, c, x)
    requires
      || (i.state == s.cl[c].state && i.tid == s.cl[c].tid)
      || s.cl[c].state == NONE || s.cl[c].state == FREE || Uses(s, c, x)
    requires ThreadOk(s'.cl, x, p) && InfoOk(s'.pc, c, i)
    requires forall d :: d in s.cl && d != c && Uses(s, d, x) ==> InfoOk(s'.pc, d, s.cl[d])
    requires s.pc[x].WaitNone? && !p.WaitNone? ==> x.c == c && !i.waitingToAcq
    requires p.WaitNone? && !s.pc[x].WaitNone? ==> x.c == c && !s.cl[c].waitingToAcq
    ensures Local(s')
  {
    Framed(s, x, c, i);
    MoveThreads(s, s', x, c, i, p);
    MoveInfos(s, s', x, c, i, p);
    MoveWaitNone(s, s', x, c, i, p);
  }

  lemma StillWaitNone(s: State, s': State, x: Ref, c: Client, p: Pc)
    requires x in s.pc && s'.pc == s.pc[x := p] && SomeWaitNone(s.pc, c) && (s.pc[x].WaitNone? ==> p.WaitNone?)
    ensures SomeWaitNone(s'.pc, c)
  {
  }

  lemma AcquireLocal(s: State, x: Ref)
    requires Local(s) && Enabled(s, Acquire(x))
    ensures Local(DoAcquire(s, x))
  {
    var s' := DoAcquire(s, x);
    var c := x.c;
    var i, p := s'.cl[c], s'.pc[x];
    assert ThreadOk(s.cl, x, s.pc[x]) && InfoOk(s.pc, c, s.cl[c]);
    forall d | d in s.cl && Uses(s, d, x) ensures d == c { WorksFor(s, x, d); }
    if s.cl[c].waitingToAcq { StillWaitNone(s, s', x, c, p); }
    if p.WaitNone? { assert Ref(c, x.t) in s'.pc; }
    MoveLocal(s, s', x, c, i, p);
  }

  lemma ReleaseLocal(s: State, x: Ref)
    requires Local(s) && Enabled(s, Release(x))
    ensures Local(DoRelease(s, x))
  {
    var s' := DoRelease(s, x);
    var c := x.c;
    assert ThreadOk(s.cl, x, s.pc[x]) && InfoOk(s.pc, c, s.cl[c]);
    forall d | d in s.cl && Uses(s, d, x) ensures d == c { WorksFor(s, x, d); }
    MoveLocal(s, s', x, c, s'.cl[c], s'.pc[x]);
  }

  lemma WakeLocal(s: State, x: Ref)
    requires Local(s) && Enabled(s, Wake(x))
    ensures Local(DoWake(s, x))
  {
    var s' := DoWake(s, x);
    var c := x.c;
    var i, p := s'.cl[c], s'.pc[x];
    assert ThreadOk(s.cl, x, s.pc[x]) && InfoOk(s.pc, c, s.cl[c]);
    forall d | d in s.cl && Uses(s, d, x) ensures d == c { WorksFor(s, x, d); }
    if i.waitingToAcq { StillWaitNone(s, s', x, c, p); }
    MoveLocal(s, s', x, c, i, p);
  }

  lemma AnswerLocal(s: State, x: Ref)
    requires Local(s) && Enabled(s, Answer(x))
    ensures Local(DoAnswer(s, x))
  {
    var s' := DoAnswer(s, x);
    var c := x.c;
    assert ThreadOk(s.cl, x, s.pc[x]) && InfoOk(s.pc, c, s.cl[c]);
    forall d | d in s.cl && Uses(s, d, x) ensures d == c { WorksFor(s, x, d); }
    MoveLocal(s, s', x, c, s'.cl[c], s'.pc[x]);
  }

  /** A step of a call that touches no entry: the thread goes from one call state to another of the same kind. */
  lemma CallLocal(s: State, s': State, x: Ref, p: Pc)
    requires Local(s) && x in s.pc && x.c in s.cl && s'.cl == s.cl && s'.pc == s.pc[x := p]
    requires ThreadOk(s.cl, x, p) && s.pc[x].Acq? == p.Acq? && s.pc[x].Rel? == p.Rel? && (p.Acq? || p.Rel?)
    requires Releasing(s.pc[x]) == Releasing(p) && (Releasing(p) ==> Releaser(x, p) == Releaser(x, s.pc[x]))
    ensures Local(s')
  {
    var c := x.c;
    assert s'.cl == s.cl[c := s.cl[c]];
    assert ThreadOk(s.cl, x, s.pc[x]);
    forall d | d in s.cl ensures InfoOk(s'.pc, d, s.cl[d]) {
      assert InfoOk(s.pc, d, s.cl[d]);
      if s.cl[d].waitingToAcq { StillWaitNone(s, s', x, d, p); }
    }
    MoveLocal(s, s', x, c, s.cl[c], p);
  }

  lemma ServeAcquireLocal(s: State, x: Ref)
    requires Local(s) && Enabled(s, ServeAcquire(x)) && (s.pc[x].again ==> Serve(s.sv, x.c).1.status == Ok)
    ensures Local(DoServeAcquire(s, x))
  {
    assert ThreadOk(s.cl, x, s.pc[x]);
    CallLocal(s, DoServeAcquire(s, x), x, DoServeAcquire(s, x).pc[x]);
  }

  lemma CallRevokeLocal(s: State, x: Ref)
    requires Local(s) && Enabled(s, CallRevoke(x)) && s.sv.owner in s.cl
    ensures Local(DoCallRevoke(s, x))
  {
    assert ThreadOk(s.cl, x, s.pc[x]);
    CallLocal(s, DoCallRevoke(s, x), x, DoCallRevoke(s, x).pc[x]);
  }

  /** Progress of a release that touches no entry. */
  lemma RelLocal(s: State, s': State, x: Ref, r: RelCall)
    requires Local(s) && x in s.pc && Releasing(s.pc[x]) && s'.cl == s.cl && s'.pc == s.pc[x := WithRel(s.pc[x], r)]
    ensures Local(s')
  {
    assert ThreadOk(s.cl, x, s.pc[x]);
    CallLocal(s, s', x, WithRel(s.pc[x], r));
  }

  lemma HandleRevokeLocal(s: State, x: Ref)
    requires Local(s) && Enabled(s, HandleRevoke(x))
    ensures Local(DoHandleRevoke(s, x))
  {
    var s' := DoHandleRevoke(s, x);
    var o := s.pc[x].call.target;
    assert ThreadOk(s.cl, x, s.pc[x]) && InfoOk(s.pc, o, s.cl[o]);
    forall d | d in s.cl && d != o && Uses(s, d, x) ensures InfoOk(s'.pc, d, s.cl[d]) {
      WorksFor(s, x, d);
      assert InfoOk(s.pc, d, s.cl[d]);
    }
    if s.cl[o].waitingToAcq { StillWaitNone(s, s', x, o, s'.pc[x]); }
    MoveLocal(s, s', x, o, s'.cl[o], s'.pc[x]);
  }

  lemma HandleRetryLocal(s: State, x: Ref)
    requires Local(s) && Enabled(s, HandleRetry(x))
    ensures Local(DoHandleRetry(s, x))
  {
    var s' := DoHandleRetry(s, x);
    var f, mid := RelOf(s.pc[x]).front, s.(pc := s'.pc);
    RelLocal(s, mid, x, RelReplied);
    assert InfoOk(mid.pc, f, mid.cl[f]) && ThreadOk(mid.cl, x, mid.pc[x]);
    forall d | d in mid.cl && Uses(mid, d, x) ensures InfoOk(mid.pc, d, mid.cl[d]) {}
    assert mid.pc == mid.pc[x := mid.pc[x]];
    MoveLocal(mid, s', x, f, s'.cl[f], mid.pc[x]);
  }

  lemma EndLocal(s: State, x: Ref)
    requires Local(s) && Enabled(s, EndRelease(x))
    ensures Local(DoEndRelease(s, x))
  {
    var s' := DoEndRelease(s, x);
    var c := Releaser(x, s.pc[x]);
    assert ThreadOk(s.cl, x, s.pc[x]) && InfoOk(s.pc, c, s.cl[c]);
    forall d | d in s.cl && d != c && Uses(s, d, x) ensures InfoOk(s'.pc, d, s.cl[d]) {
      assert InfoOk(s.pc, d, s.cl[d]);
      WorksFor(s, x, d);
    }
    if s.cl[c].waitingToAcq { StillWaitNone(s, s', x, c, s'.pc[x]); }
    MoveLocal(s, s', x, c, s'.cl[c], s'.pc[x]);
  }
}
