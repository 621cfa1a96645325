/** Whole runs of the lock protocol: mutual exclusion, wake-ups, revokes, and the order in which clients are served. */
module LockRuns {
  import opened LockNodes
  import opened LockStages
  import opened Locks
  import opened LockMoves
  import opened LockViews
  import opened Sequences

  /** A run: a starting state and the events since. */
  datatype Run = Begin(s: State) | Step(past: Run, e: Event)

  function Last(run: Run): State
    decreases run, 1
  {
    match run
    case Begin(s) => s
    case Step(past, e) => Moved(past, e)
  }

  function Moved(past: Run, e: Event): State
    decreases past, 2
  {
    if Enabled(Last(past), e) then Apply(Last(past), e) else Last(past)
  }

  ghost predicate Legal(run: Run)
    decreases run, 1
  {
    match run
    case Begin(s) => Init(s)
    case Step(past, e) => Follows(past, e)
  }

  ghost predicate Follows(past: Run, e: Event)
    decreases past, 2
  {
    Legal(past) && Enabled(Last(past), e)
  }

  // ----- every event keeps the invariant

  lemma UserKeeps(s: State, e: Event)
    requires Inv(s) && Enabled(s, e) && (e.Acquire? || e.Release? || e.Wake? || e.Answer? || e.EndRelease?)
    ensures Local(Apply(s, e)) && Good(View(Apply(s, e)))
  {
    var a, x, c := View(s), e.x, e.x.c;
    match e
    case Acquire(_) =>
      AcquireLocal(s, x);
      AcquireView(s, x);
      if DoAcquire(s, x).pc[x].Acq? { Ask(a, c); }
    case Release(_) =>
      ReleaseLocal(s, x);
      ReleaseView(s, x);
      if DoRelease(s, x).pc[x].Rel? { GivesBack(a, c); }
    case Wake(_) =>
      WakeLocal(s, x);
      WakeView(s, x);
      var p := DoWake(s, x).pc[x];
      if p.Acq? { if p.again { RetryTaken(a, c); } else { Ask(a, c); } }
    case Answer(_) =>
      AnswerLocal(s, x);
      AnswerView(s, x);
      var p := DoAnswer(s, x).pc[x];
      if p.Holding? { Got(a, c); } else if p.Acq? { RetryTaken(a, c); }
    case EndRelease(_) =>
      EndLocal(s, x);
      EndView(s, x);
      Finished(a, Releaser(x, s.pc[x]));
  }

  lemma UserAims(s: State, e: Event)
    requires Enabled(s, e) && AimOk(s.sv, s.pc[e.x])
    requires e.Acquire? || e.Release? || e.Wake? || e.Answer? || e.EndRelease? || e.Spurious?
    ensures Apply(s, e).sv == s.sv && AimOk(s.sv, Apply(s, e).pc[e.x])
  {
  }

  lemma UserAimed(s: State, e: Event)
    requires Inv(s) && Enabled(s, e)
    requires (e.Acquire? || e.Release? || e.Wake? || e.Answer? || e.EndRelease? || e.Spurious?)
    ensures Aimed(Apply(s, e))
  {
    assert AimOk(s.sv, s.pc[e.x]);
    OneMoves(s, e);
    UserAims(s, e);
    StillAimed(s, Apply(s, e), e.x);
  }

  lemma ServeAcquireKeeps(s: State, x: Ref)
    requires Inv(s) && Enabled(s, ServeAcquire(x))
    ensures Local(DoServeAcquire(s, x)) && Good(View(DoServeAcquire(s, x))) && Aimed(DoServeAcquire(s, x))
  {
    ServeAcquireView(s, x);
    ServeKeeps(View(s), x.c, x);
    if s.pc[x].again { AgainIsGranted(View(s), x.c); }
    ServeAcquireLocal(s, x);
    ServeAcquireAimed(s, x);
  }

  /** When a revoke is due, the owner is a client, and the acquirer itself if it has just been granted the lock. */
  lemma RevokeTarget(s: State, x: Ref)
    requires Inv(s) && x in s.pc && RevokeDue(s.pc[x])
    ensures s.sv.locked && s.sv.owner in s.cl && !s.cl[s.sv.owner].toRevoke && s.sv.queue != []
    ensures s.pc[x].call.st == Ok ==> s.sv.owner == x.c
    ensures View(s).stage[s.sv.owner] == Granted || View(s).stage[s.sv.owner] == Held
  {
    assert ThreadOk(s.cl, x, s.pc[x]);
    ViewDuties(s, x);
    assert View(s).stage[x.c] == StageOf(s.cl, s.pc, x.c);
  }

  lemma CallRevokeKeeps(s: State, x: Ref)
    requires Inv(s) && Enabled(s, CallRevoke(x))
    ensures Local(DoCallRevoke(s, x)) && Good(View(DoCallRevoke(s, x))) && Aimed(DoCallRevoke(s, x))
  {
    RevokeTarget(s, x);
    CallRevokeLocal(s, x);
    ReadView(s, DoCallRevoke(s, x), x, DoCallRevoke(s, x).pc[x]);
    StillAimed(s, DoCallRevoke(s, x), x);
  }

  lemma HandleRevokeKeeps(s: State, x: Ref)
    requires Inv(s) && Enabled(s, HandleRevoke(x))
    ensures Local(DoHandleRevoke(s, x)) && Good(View(DoHandleRevoke(s, x))) && Aimed(DoHandleRevoke(s, x))
  {
    RevokeTarget(s, x);
    assert AimOk(s.sv, s.pc[x]);
    HandleRevokeLocal(s, x);
    HandleRevokeView(s, x);
    RevokeHandled(View(s), x, DoHandleRevoke(s, x).pc[x].call.Revoking?);
    StillAimed(s, DoHandleRevoke(s, x), x);
  }

  lemma ReleaseServed(s: State, x: Ref)
    requires Inv(s) && Enabled(s, ServeRelease(x))
    ensures s.sv.queue != [] && View(s).revokers == {} && s.sv.locked && s.sv.owner == Releaser(x, s.pc[x])
  {
    var c := Releaser(x, s.pc[x]);
    assert ThreadOk(s.cl, x, s.pc[x]);
    assert ActiveRef(c, s.cl[c]) == x;
    assert View(s).stage[c] == Returning;
    Released(View(s), c, x);
  }

  lemma ServeReleaseKeeps(s: State, x: Ref)
    requires Inv(s) && Enabled(s, ServeRelease(x))
    ensures Local(DoServeRelease(s, x)) && Good(View(DoServeRelease(s, x))) && Aimed(DoServeRelease(s, x))
  {
    ReleaseServed(s, x);
    ServeReleaseView(s, x);
    Released(View(s), Releaser(x, s.pc[x]), x);
    RelLocal(s, DoServeRelease(s, x), x, Retry);
    ServeReleaseAimed(s, x);
  }

  /** When a retry is due, somebody is in line and has not been told yet. */
  lemma RetryTarget(s: State, x: Ref)
    requires Inv(s) && x in s.pc && RetryDue(s.pc[x])
    ensures !s.sv.locked && s.sv.queue != [] && s.sv.queue[0] in s.cl && !s.cl[s.sv.queue[0]].toRetry
  {
    ViewDuties(s, x);
  }

  lemma HandleRetryKeeps(s: State, x: Ref)
    requires Inv(s) && Enabled(s, HandleRetry(x))
    ensures Local(DoHandleRetry(s, x)) && Good(View(DoHandleRetry(s, x))) && Aimed(DoHandleRetry(s, x))
  {
    RetryTarget(s, x);
    assert AimOk(s.sv, s.pc[x]);
    HandleRetryLocal(s, x);
    HandleRetryView(s, x);
    RetryHandled(View(s), x);
    StillAimed(s, DoHandleRetry(s, x), x);
  }

  lemma ReleaseReads(s: State, e: Event)
    requires Inv(s) && Enabled(s, e) && (e.FlushDone? || e.CallRetry?)
    ensures Local(Apply(s, e)) && Good(View(Apply(s, e))) && Aimed(Apply(s, e))
  {
    var s' := Apply(s, e);
    if e.CallRetry? { RetryTarget(s, e.x); }
    RelLocal(s, s', e.x, RelOf(s'.pc[e.x]));
    ReadView(s, s', e.x, s'.pc[e.x]);
    StillAimed(s, s', e.x);
  }

  lemma EventKeeps(s: State, e: Event)
    requires Inv(s) && Enabled(s, e)
    ensures Inv(Apply(s, e))
  {
    EventWoken(s, e);
    match e
    case Acquire(_) => UserKeeps(s, e); UserAimed(s, e);
    case Release(_) => UserKeeps(s, e); UserAimed(s, e);
    case Wake(_) => UserKeeps(s, e); UserAimed(s, e);
    case Answer(_) => UserKeeps(s, e); UserAimed(s, e);
    case EndRelease(_) => UserKeeps(s, e); UserAimed(s, e);
    case ServeAcquire(x) => ServeAcquireKeeps(s, x);
    case CallRevoke(x) => CallRevokeKeeps(s, x);
    case HandleRevoke(x) => HandleRevokeKeeps(s, x);
    case ServeRelease(x) => ServeReleaseKeeps(s, x);
    case FlushDone(_) => ReleaseReads(s, e);
    case CallRetry(_) => ReleaseReads(s, e);
    case HandleRetry(x) => HandleRetryKeeps(s, x);
    case Spurious(_) => UserAimed(s, e);
  }

  lemma InitOk(s: State)
    requires Init(s)
    ensures Inv(s)
  {
  }

  lemma {:induction false} RunKeeps(run: Run)
    requires Legal(run)
    ensures Inv(Last(run))
  {
    match run
    case Begin(s) => InitOk(s);
    case Step(past, e) =>
      assert Follows(past, e);
      RunKeeps(past);
      EventKeeps(Last(past), e);
  }

  // ----- mutual exclusion

  predicate Caches(i: Info) {
    i.state == LOCKED || i.state == FREE
  }

  /** A client that caches the lock, or whose release the server has not served yet. */
  predicate HasLock(s: State, c: Client)
    requires c in s.cl
  {
    Caches(s.cl[c]) || (s.cl[c].state == RELEASING && StageOf(s.cl, s.pc, c) == Returning)
  }

  /**
   * At most one thread of all clients holds the lock. A client that has it is the one the server has down as
   * its owner; the owner has it, or its grant is on the way.
   */
  lemma MutualExclusion(run: Run, x: Ref, y: Ref, c: Client)
    requires Legal(run)
    ensures x in Last(run).pc && y in Last(run).pc && Last(run).pc[x].Holding? && Last(run).pc[y].Holding? ==> x == y
    ensures x in Last(run).pc && Last(run).pc[x].Holding? ==>
      x.c in Last(run).cl && Last(run).cl[x.c].state == LOCKED && HasLock(Last(run), x.c)
    ensures c in Last(run).cl && HasLock(Last(run), c) ==> Last(run).sv.locked && Last(run).sv.owner == c
    ensures Last(run).sv.locked ==> Last(run).sv.owner in Last(run).cl && Last(run).sv.owner !in Last(run).sv.queue
    ensures !Last(run).sv.locked ==> Last(run).sv.owner == ""
    ensures Last(run).sv.locked && !HasLock(Last(run), Last(run).sv.owner) ==>
      Last(run).cl[Last(run).sv.owner].state == ACQUIRING
  {
    RunKeeps(run);
    var s := Last(run);
    forall z | z in s.pc && s.pc[z].Holding?
      ensures z.c in s.cl && s.cl[z.c].state == LOCKED && s.cl[z.c].tid == User(z.t)
    {
      assert ThreadOk(s.cl, z, s.pc[z]);
    }
    forall d | d in s.cl && HasLock(s, d) ensures s.sv.locked && s.sv.owner == d {
      assert View(s).stage[d] == StageOf(s.cl, s.pc, d);
    }
    if s.sv.locked {
      assert View(s).stage[s.sv.owner] == StageOf(s.cl, s.pc, s.sv.owner);
    }
  }

  // ----- messages find the client they were meant for

  /**
   * A revoke about to be handled is for the present owner, which has the lock or its grant; no second one is
   * under way, nor was one noted before.
   */
  lemma RevokeNeverStale(run: Run, x: Ref, y: Ref)
    requires Legal(run) && Enabled(Last(run), HandleRevoke(x))
    ensures Last(run).sv.locked && Last(run).sv.owner == Last(run).pc[x].call.target
    ensures Caches(Last(run).cl[Last(run).sv.owner]) || Last(run).cl[Last(run).sv.owner].state == ACQUIRING
    ensures !Last(run).cl[Last(run).sv.owner].toRevoke
    ensures y in Last(run).pc && RevokeDue(Last(run).pc[y]) ==> y == x
  {
    RunKeeps(run);
    var s := Last(run);
    if y in s.pc { ViewDuties(s, y); }
    ViewDuties(s, x);
    RevokeTarget(s, x);
    assert AimOk(s.sv, s.pc[x]);
    assert View(s).stage[s.sv.owner] == StageOf(s.cl, s.pc, s.sv.owner);
  }

  /** A retry about to be handled is for the present front, which waits for it; no second one is under way. */
  lemma RetryNeverStale(run: Run, x: Ref, y: Ref)
    requires Legal(run) && Enabled(Last(run), HandleRetry(x))
    ensures !Last(run).sv.locked && Last(run).sv.queue != [] && Last(run).sv.queue[0] == RelOf(Last(run).pc[x]).front
    ensures Last(run).cl[Last(run).sv.queue[0]].state == ACQUIRING && !Last(run).cl[Last(run).sv.queue[0]].toRetry
    ensures y in Last(run).pc && RetryDue(Last(run).pc[y]) ==> y == x
  {
    RunKeeps(run);
    var s := Last(run);
    if y in s.pc { ViewDuties(s, y); }
    ViewDuties(s, x);
    RetryTarget(s, x);
    assert AimOk(s.sv, s.pc[x]);
    assert View(s).stage[s.sv.queue[0]] == StageOf(s.cl, s.pc, s.sv.queue[0]);
  }

  /** The acquire sent after a retry finds the lock free and its client in front, so it is always granted. */
  lemma RetriedAcquireGranted(run: Run, x: Ref)
    requires Legal(run) && x in Last(run).pc
    ensures Last(run).pc[x] == Acq(true, Sent) ==>
      && !Last(run).sv.locked && Last(run).sv.queue != [] && Last(run).sv.queue[0] == x.c
      && Serve(Last(run).sv, x.c).1.status == Ok && x.c !in Serve(Last(run).sv, x.c).0.queue
    ensures !Last(run).pc[x].Failed?
  {
    RunKeeps(run);
    var s := Last(run);
    assert ThreadOk(s.cl, x, s.pc[x]);
    if s.pc[x] == Acq(true, Sent) {
      ServeAcquireView(s, x);
      AgainIsGranted(View(s), x.c);
      var q := s.sv.queue;
      assert forall i :: 0 <= i < |q[1..]| ==> q[1..][i] == q[i + 1];
    }
  }

  // ----- no lost wake-up: the protocol is never stuck

  /**
   * While clients wait: the owner is being asked, or knows, or gives the lock back; once the lock is free, the
   * front is being told, or knows, or asks.
   */
  lemma NoLostWakeup(run: Run)
    requires Legal(run) && Last(run).sv.queue != []
    ensures var s := Last(run);
      if s.sv.locked then
        && s.sv.owner in s.cl
        && ((exists x :: x in s.pc && RevokeDue(s.pc[x]))
            || s.cl[s.sv.owner].toRevoke || s.cl[s.sv.owner].state == RELEASING)
      else
        && s.sv.queue[0] in s.cl
        && ((exists x :: x in s.pc && RetryDue(s.pc[x]))
            || s.cl[s.sv.queue[0]].toRetry || StageOf(s.cl, s.pc, s.sv.queue[0]) == Again)
  {
    RunKeeps(run);
    var s := Last(run);
    assert s.sv.queue[0] in s.sv.queue;
    if s.sv.locked {
      assert View(s).stage[s.sv.owner] == StageOf(s.cl, s.pc, s.sv.owner);
      if View(s).revokers != {} { var x :| x in View(s).revokers; assert x in s.pc && RevokeDue(s.pc[x]); }
    } else {
      assert View(s).stage[s.sv.queue[0]] == StageOf(s.cl, s.pc, s.sv.queue[0]);
      if View(s).retriers != {} { var x :| x in View(s).retriers; assert x in s.pc && RetryDue(s.pc[x]); }
    }
  }

  /** A thread of client `c` whose control state satisfies the description. */
  ghost predicate SomeThread(s: State, c: Client, what: Pc -> bool) {
    exists t: Thread :: Ref(c, t) in s.pc && what(s.pc[Ref(c, t)])
  }

  ghost predicate SomeReleaser(s: State, c: Client) {
    exists y :: y in s.pc && Releasing(s.pc[y]) && Releaser(y, s.pc[y]) == c
  }

  /** Who will serve a waiting thread, by the state of its client. */
  ghost predicate HasServer(s: State, x: Ref)
    requires x in s.pc && x.c in s.cl
  {
    match s.pc[x]
    case WaitFree => (
      match s.cl[x.c].state
      case FREE => x in s.woken
      case LOCKED => SomeThread(s, x.c, (p: Pc) => p.Holding?)
      case ACQUIRING => SomeThread(s, x.c, (p: Pc) => p.Acq? || p.WaitRetry?)
      case _ => SomeThread(s, x.c, (p: Pc) => p.WaitNone?))
    case WaitNone => (
      match s.cl[x.c].state
      case NONE => x in s.woken
      case RELEASING => SomeReleaser(s, x.c)
      case _ => false)
    case WaitRetry => s.cl[x.c].state == ACQUIRING && x.c in s.sv.queue && (s.cl[x.c].toRetry ==> x in s.woken)
    case _ => true
  }

  /**
   * Inside a client, a thread that waits for the lock has been woken, or a thread of the client holds it, is
   * acquiring it, or will acquire it once it is back at the server. The one that waits for that has been woken, or
   * the release is under way. The one that waits for a retry is in line, and has been woken if the retry is there.
   */
  lemma WaiterHasServer(run: Run, x: Ref)
    requires Legal(run) && x in Last(run).pc
    ensures x.c in Last(run).cl && HasServer(Last(run), x)
  {
    RunKeeps(run);
    var s := Last(run);
    assert ThreadOk(s.cl, x, s.pc[x]) && InfoOk(s.pc, x.c, s.cl[x.c]) && WakeOk(s.cl[x.c], s.pc[x], x in s.woken);
    var y := ActiveRef(x.c, s.cl[x.c]);
    if s.pc[x].WaitFree? && (s.cl[x.c].state == LOCKED || s.cl[x.c].state == ACQUIRING) {
      assert y == Ref(x.c, y.t);
    }
    if s.pc[x].WaitFree? && s.cl[x.c].waitingToAcq {
      var t: Thread :| Ref(x.c, t) in s.pc && s.pc[Ref(x.c, t)].WaitNone?;
    }
    if s.pc[x].WaitRetry? { assert View(s).stage[x.c] == InLine; }
  }

  /** A step by the program or by the holder of the lock; a wake-up counts when it ends the wait. */
  ghost predicate Progress(s: State, e: Event) {
    Enabled(s, e) && !e.Acquire? && !e.Spurious? && (e.Wake? ==> !Waits(DoWake(s, e.x).pc[e.x]))
  }

  ghost predicate Unstuck(s: State) {
    exists e :: Progress(s, e)
  }

  lemma RetryingMoves(s: State, x: Ref)
    requires Inv(s) && x in s.pc && Releasing(s.pc[x]) && RelOf(s.pc[x]).Retrying?
    ensures Unstuck(s)
  {
    assert ThreadOk(s.cl, x, s.pc[x]) && AimOk(s.sv, s.pc[x]);
    RetryTarget(s, x);
    assert Progress(s, HandleRetry(x));
  }

  lemma ReleasingMoves(s: State, x: Ref)
    requires Inv(s) && x in s.pc && Releasing(s.pc[x])
    ensures Unstuck(s)
  {
    assert ThreadOk(s.cl, x, s.pc[x]);
    match RelOf(s.pc[x])
    case Flush => assert Progress(s, FlushDone(x));
    case RelSent => assert Progress(s, ServeRelease(x));
    case Retry => assert Progress(s, CallRetry(x));
    case Retrying(_) => RetryingMoves(s, x);
    case RelReplied => assert Progress(s, EndRelease(x));
  }

  lemma ActiveMoves(s: State, x: Ref)
    requires Inv(s) && x in s.pc && (s.pc[x].Acq? || s.pc[x].Rel? || s.pc[x].Holding?)
    ensures Unstuck(s)
  {
    assert ThreadOk(s.cl, x, s.pc[x]);
    if Releasing(s.pc[x]) {
      ReleasingMoves(s, x);
    } else if s.pc[x].Holding? {
      assert Progress(s, Event.Release(x));
    } else {
      match s.pc[x].call
      case Sent => assert Progress(s, ServeAcquire(x));
      case Revoke(_) => assert Progress(s, CallRevoke(x));
      case Revoking(_, _, _) => assert Progress(s, HandleRevoke(x));
      case Replied(_) => assert Progress(s, Answer(x));
    }
  }

  /** A thread whose condition holds has been woken. */
  lemma WokenMoves(s: State, x: Ref)
    requires Inv(s) && x in s.pc && x.c in s.cl
    requires
      || (s.pc[x].WaitFree? && s.cl[x.c].state == FREE)
      || (s.pc[x].WaitNone? && s.cl[x.c].state == NONE)
      || (s.pc[x].WaitRetry? && s.cl[x.c].toRetry)
    ensures Unstuck(s)
  {
    assert WakeOk(s.cl[x.c], s.pc[x], x in s.woken);
    assert Progress(s, Wake(x));
  }

  /** The owner of the lock while others wait for it. */
  lemma OwnerMoves(s: State)
    requires Inv(s) && s.sv.locked && s.sv.queue != []
    ensures Unstuck(s)
  {
    var o := s.sv.owner;
    assert InfoOk(s.pc, o, s.cl[o]);
    var x := ActiveRef(o, s.cl[o]);
    assert View(s).stage[o] == StageOf(s.cl, s.pc, o);
    if View(s).revokers != {} {
      var y :| y in View(s).revokers;
      ActiveMoves(s, y);
    } else if s.cl[o].state == FREE {
      var t :| t in s.cl[o].waiters;
      assert ThreadOk(s.cl, Ref(o, t), s.pc[Ref(o, t)]);
      WokenMoves(s, Ref(o, t));
    } else {
      ActiveMoves(s, x);
    }
  }

  /** The front of the line while the lock is free. */
  lemma FrontMoves(s: State)
    requires Inv(s) && !s.sv.locked && s.sv.queue != []
    ensures Unstuck(s)
  {
    var f := s.sv.queue[0];
    assert f in s.sv.queue;
    assert InfoOk(s.pc, f, s.cl[f]);
    var x := ActiveRef(f, s.cl[f]);
    assert View(s).stage[f] == StageOf(s.cl, s.pc, f);
    if View(s).retriers != {} {
      var y :| y in View(s).retriers;
      ReleasingMoves(s, y);
    } else if s.pc[x].WaitRetry? {
      WokenMoves(s, x);
    } else {
      ActiveMoves(s, x);
    }
  }

  lemma InLineMoves(s: State, x: Ref)
    requires Inv(s) && x in s.pc && s.pc[x].WaitRetry?
    ensures Unstuck(s)
  {
    assert ThreadOk(s.cl, x, s.pc[x]);
    assert View(s).stage[x.c] == InLine;
    assert x.c in s.sv.queue;
    if s.sv.locked { OwnerMoves(s); } else { FrontMoves(s); }
  }

  lemma EntryMoves(s: State, c: Client)
    requires Inv(s) && c in s.cl && s.cl[c].state != NONE && s.cl[c].state != FREE
    ensures Unstuck(s)
  {
    assert InfoOk(s.pc, c, s.cl[c]);
    var y := ActiveRef(c, s.cl[c]);
    if s.pc[y].WaitRetry? { InLineMoves(s, y); } else { ActiveMoves(s, y); }
  }

  lemma WaitNoneMoves(s: State, x: Ref)
    requires Inv(s) && x in s.pc && s.pc[x].WaitNone?
    ensures Unstuck(s)
  {
    assert ThreadOk(s.cl, x, s.pc[x]) && InfoOk(s.pc, x.c, s.cl[x.c]);
    if s.cl[x.c].state == NONE { WokenMoves(s, x); } else { EntryMoves(s, x.c); }
  }

  lemma WaitFreeMoves(s: State, x: Ref)
    requires Inv(s) && x in s.pc && s.pc[x].WaitFree?
    ensures Unstuck(s)
  {
    assert ThreadOk(s.cl, x, s.pc[x]) && InfoOk(s.pc, x.c, s.cl[x.c]);
    if s.cl[x.c].state == FREE {
      WokenMoves(s, x);
    } else if s.cl[x.c].state == NONE {
      var t: Thread :| Ref(x.c, t) in s.pc && s.pc[Ref(x.c, t)].WaitNone?;
      WaitNoneMoves(s, Ref(x.c, t));
    } else {
      EntryMoves(s, x.c);
    }
  }

  /** While any thread wants or has the lock, some step towards serving it can be taken: no wake-up is lost. */
  lemma NeverStuck(run: Run, x: Ref)
    requires Legal(run) && x in Last(run).pc && !Last(run).pc[x].Idle?
    ensures exists e :: Progress(Last(run), e)
  {
    RunKeeps(run);
    var s := Last(run);
    assert ThreadOk(s.cl, x, s.pc[x]);
    if s.pc[x].WaitFree? {
      WaitFreeMoves(s, x);
    } else if s.pc[x].WaitNone? {
      WaitNoneMoves(s, x);
    } else if s.pc[x].WaitRetry? {
      InLineMoves(s, x);
    } else {
      ActiveMoves(s, x);
    }
    assert Unstuck(s);
  }

  // ----- the order of service

  /** How the server answers the acquire of an event. */
  function ServedAt(s: State, e: Event): Served
    requires e.ServeAcquire?
  {
    Serve(s.sv, e.x.c).1
  }

  predicate Grants(s: State, e: Event) {
    e.ServeAcquire? && ServedAt(s, e).status == Ok
  }

  /** The clients told to wait, in order. */
  function Joined(run: Run): seq<Client> {
    if run.Begin? then []
    else if run.e.ServeAcquire? && !Grants(Last(run.past), run.e) then Joined(run.past) + [run.e.x.c]
    else Joined(run.past)
  }

  /** The clients granted the lock while somebody was in line, in order. */
  function Admitted(run: Run): seq<Client> {
    if run.Begin? then []
    else if Grants(Last(run.past), run.e) && Last(run.past).sv.queue != [] then Admitted(run.past) + [run.e.x.c]
    else Admitted(run.past)
  }

  /** The revokes set off since the lock was last granted. */
  function Issued(run: Run): nat {
    if run.Begin? then 0
    else if run.e.ServeAcquire? then
      var revoke := if ServedAt(Last(run.past), run.e).revoke then 1 else 0;
      if Grants(Last(run.past), run.e) then revoke else Issued(run.past) + revoke
    else Issued(run.past)
  }

  /**
   * Clients told to wait are admitted in the order in which they were told, and nobody overtakes them; no client
   * waits twice.
   */
  lemma {:induction false} FirstComeFirstServed(run: Run)
    requires Legal(run)
    ensures Joined(run) == Admitted(run) + Last(run).sv.queue
    ensures NoRepeats(Last(run).sv.queue)
  {
    assert NoRepeats(Last(run).sv.queue) by { RunKeeps(run); }
    match run
    case Begin(_) =>
    case Step(past, e) =>
      assert Follows(past, e);
      FirstComeFirstServed(past);
      assert Last(past).sv.queue != [] ==> Last(past).sv.created by { RunKeeps(past); }
      ServerSteps(Last(past), e);
      LineMoves(Last(past).sv, e.x.c);
  }

  /** One revoke for each time the lock is granted, as soon as another client waits and not before. */
  lemma {:induction false} OneRevokePerGrant(run: Run)
    requires Legal(run)
    ensures Last(run).sv.locked ==> Issued(run) == if Last(run).sv.queue == [] then 0 else 1
    ensures Issued(run) <= 1
  {
    match run
    case Begin(_) =>
    case Step(past, e) =>
      assert Follows(past, e);
      OneRevokePerGrant(past);
      ServerSteps(Last(past), e);
      assert Last(past).sv.locked || Last(past).sv.queue != [] ==> Last(past).sv.created by { RunKeeps(past); }
  }
}
