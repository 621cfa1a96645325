/** Every acquire is served: the work left in a state goes down with every step of the program. */
module LockService {
  import opened LockNodes
  import opened LockStages
  import opened Locks
  import opened LockRuns

  // ----- how far a thread is from being done

  function RelRank(r: RelCall): nat {
    match r
    case Flush => 4
    case RelSent => 3
    case Retry => 2
    case Retrying(_) => 1
    case RelReplied => 0
  }

  function CallRank(call: AcqCall): nat {
    match call
    case Sent => 8
    case Revoke(_) => 7
    case Revoking(_, _, AtDoor) => 6
    case Revoking(_, _, InRel(r)) => 1 + RelRank(r)
    case Replied(_) => 0
  }

  /** The steps a thread may still have to take. */
  function Rank(p: Pc): nat {
    match p
    case WaitNone => 26
    case WaitRetry => 16
    case Acq(again, call) => (if again then 7 else 17) + CallRank(call)
    case WaitFree => 7
    case Holding => 6
    case Rel(r) => 1 + RelRank(r)
    case Idle => 0
    case Failed => 0
  }

  const MAX_RANK := 26

  /** An event moves no other thread; progress brings its thread closer, a new acquire takes it at most to the start. */
  lemma StepRank(s: State, e: Event)
    requires Enabled(s, e)
    ensures Apply(s, e).pc == s.pc[e.x := Apply(s, e).pc[e.x]]
    ensures Progress(s, e) ==> Rank(Apply(s, e).pc[e.x]) < Rank(s.pc[e.x])
    ensures e.Acquire? ==> Rank(Apply(s, e).pc[e.x]) <= MAX_RANK
    ensures !Progress(s, e) && !e.Acquire? ==> Apply(s, e).pc == s.pc
  {
    OneMoves(s, e);
    assert s.pc[e.x := s.pc[e.x]] == s.pc;
  }

  ghost function Work(pc: map<Ref, Pc>): nat
    decreases |pc|
  {
    if pc == map[] then 0
    else
      var x :| x in pc;
      Rank(pc[x]) + Work(pc - {x})
  }

  lemma {:induction false} WorkOf(pc: map<Ref, Pc>, x: Ref)
    requires x in pc
    ensures Work(pc) == Rank(pc[x]) + Work(pc - {x})
    decreases |pc|
  {
    var y :| y in pc && Work(pc) == Rank(pc[y]) + Work(pc - {y});
    if y != x {
      WorkOf(pc - {y}, x);
      WorkOf(pc - {x}, y);
      assert pc - {y} - {x} == pc - {x} - {y};
    }
  }

  lemma WorkMoves(pc: map<Ref, Pc>, x: Ref, p: Pc)
    requires x in pc
    ensures Work(pc[x := p]) == Work(pc) - Rank(pc[x]) + Rank(p)
  {
    WorkOf(pc, x);
    WorkOf(pc[x := p], x);
    assert pc[x := p] - {x} == pc - {x};
  }

  lemma {:induction false} NoWork(pc: map<Ref, Pc>)
    requires forall x :: x in pc ==> pc[x].Idle?
    ensures Work(pc) == 0
    decreases |pc|
  {
    if pc != map[] {
      var x :| x in pc;
      WorkOf(pc, x);
      NoWork(pc - {x});
    }
  }

  // ----- whole runs

  function Acquires(run: Run): nat {
    if run.Begin? then 0 else Acquires(run.past) + if run.e.Acquire? then 1 else 0
  }

  /** The steps of a run that made progress. */
  ghost function Steps(run: Run): nat {
    if run.Begin? then 0 else Steps(run.past) + if Progress(Last(run.past), run.e) then 1 else 0
  }

  /** However events interleave, the program takes at most so many steps for every acquire. */
  lemma {:induction false} BoundedService(run: Run)
    requires Legal(run)
    ensures Steps(run) + Work(Last(run).pc) <= MAX_RANK * Acquires(run)
  {
    match run
    case Begin(s) => NoWork(s.pc);
    case Step(past, e) =>
      assert Follows(past, e);
      BoundedService(past);
      var s := Last(past);
      StepRank(s, e);
      WorkMoves(s.pc, e.x, Apply(s, e).pc[e.x]);
  }

  /** When no step is left, every thread is done. */
  lemma AllServed(run: Run)
    requires Legal(run) && forall e :: !Progress(Last(run), e)
    ensures forall x :: x in Last(run).pc ==> Last(run).pc[x].Idle?
  {
    forall x | x in Last(run).pc ensures Last(run).pc[x].Idle? {
      if !Last(run).pc[x].Idle? { NeverStuck(run, x); }
    }
  }

  function AcquiresBy(run: Run, x: Ref): nat {
    if run.Begin? then 0 else AcquiresBy(run.past, x) + if run.e == Acquire(x) then 1 else 0
  }

  function ReleasesBy(run: Run, x: Ref): nat {
    if run.Begin? then 0 else ReleasesBy(run.past, x) + if run.e == Event.Release(x) then 1 else 0
  }

  /** Each acquire of a thread is followed by one release, before which the thread holds the lock. */
  lemma {:induction false} OneReleasePerAcquire(run: Run, x: Ref)
    requires Legal(run) && x in Last(run).pc
    ensures AcquiresBy(run, x) == ReleasesBy(run, x) + if Last(run).pc[x].Idle? || Last(run).pc[x].Rel? then 0 else 1
  {
    match run
    case Begin(_) =>
    case Step(past, e) =>
      assert Follows(past, e);
      StepRank(Last(past), e);
      OneReleasePerAcquire(past, x);
      RetriedAcquireGranted(run, x);
      RetriedAcquireGranted(past, x);
  }

  predicate Continues(run: Run, later: Run) {
    run == later || (later.Step? && Continues(run, later.past))
  }

  lemma {:induction false} ContinuesFurther(run: Run, e: Event, later: Run)
    requires Continues(Step(run, e), later)
    ensures Continues(run, later)
  {
    if later != Step(run, e) { ContinuesFurther(run, e, later.past); }
  }

  /**
   * From every reachable state, without new acquires, the run can be continued until every thread is done, and every
   * acquire has then been followed by a release.
   */
  lemma {:induction false} EveryAcquireServed(run: Run) returns (done: Run)
    requires Legal(run)
    ensures Legal(done) && Continues(run, done) && Acquires(done) == Acquires(run)
    ensures forall x :: x in Last(done).pc ==> Last(done).pc[x].Idle? && AcquiresBy(done, x) == ReleasesBy(done, x)
    decreases Work(Last(run).pc)
  {
    if e :| Progress(Last(run), e) {
      var s := Last(run);
      StepRank(s, e);
      WorkMoves(s.pc, e.x, Apply(s, e).pc[e.x]);
      assert Follows(run, e) && Moved(run, e) == Apply(s, e);
      done := EveryAcquireServed(Step(run, e));
      ContinuesFurther(run, e, done);
    } else {
      AllServed(run);
      done := run;
      forall x | x in Last(done).pc ensures AcquiresBy(done, x) == ReleasesBy(done, x) {
        OneReleasePerAcquire(done, x);
      }
    }
  }
}
