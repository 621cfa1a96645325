/**
 * The caching lock protocol for one lock: any number of clients, each with any number of threads. RPCs are
 * synchronous and nest, so the progress of every call, with the handlers it has set off elsewhere, is part of
 * the control state of the thread that made it. Each event is one critical section, or one read or call outside.
 */
module Locks {
  import opened LockNodes
  import opened LockStages

  /** A release call in progress: flushing, sent, at the server about to read the queue, calling retry, answered. */
  datatype RelCall = Flush | RelSent | Retry | Retrying(front: Client) | RelReplied

  /** A revoke call in progress: not yet handled, or handled by releasing the lock. */
  datatype Hand = AtDoor | InRel(r: RelCall)

  /** An acquire call in progress: sent, at the server about to call revoke, calling revoke, answered. */
  datatype AcqCall = Sent | Revoke(st: Status) | Revoking(st: Status, target: Client, h: Hand) | Replied(st: Status)

  datatype Pc =
    | Idle
    | WaitFree
    | WaitNone
    | WaitRetry
    | Acq(again: bool, call: AcqCall)
    | Holding
    | Rel(r: RelCall)
    | Failed

  /** `woken` holds the waiting threads that a signal, a broadcast or a spurious wake-up has released. */
  datatype State = State(sv: Server, cl: map<Client, Info>, pc: map<Ref, Pc>, woken: set<Ref>)

  datatype Event =
    | Acquire(x: Ref)
    | Release(x: Ref)
    | Wake(x: Ref)
    | Spurious(x: Ref)
    | ServeAcquire(x: Ref)
    | CallRevoke(x: Ref)
    | HandleRevoke(x: Ref)
    | Answer(x: Ref)
    | FlushDone(x: Ref)
    | ServeRelease(x: Ref)
    | CallRetry(x: Ref)
    | HandleRetry(x: Ref)
    | EndRelease(x: Ref)

  // ----- releases, whether by a thread of the client itself or by a revoke handler

  predicate Releasing(p: Pc) {
    p.Rel? || (p.Acq? && p.call.Revoking? && p.call.h.InRel?)
  }

  function RelOf(p: Pc): RelCall
    requires Releasing(p)
  {
    if p.Rel? then p.r else p.call.h.r
  }

  function Releaser(x: Ref, p: Pc): Client
    requires Releasing(p)
  {
    if p.Rel? then x.c else p.call.target
  }

  function WithRel(p: Pc, r: RelCall): Pc
    requires Releasing(p)
  {
    if p.Rel? then Rel(r) else p.(call := p.call.(h := InRel(r)))
  }

  // ----- events

  predicate Waits(p: Pc) {
    p.WaitFree? || p.WaitNone? || p.WaitRetry?
  }

  predicate EnabledAt(s: State, e: Event, p: Pc) {
    match e
    case Acquire(_) => p.Idle?
    case Release(_) => p.Holding?
    case Wake(x) => Waits(p) && x in s.woken
    case Spurious(_) => Waits(p)
    case ServeAcquire(_) => p.Acq? && p.call.Sent?
    case CallRevoke(_) => p.Acq? && p.call.Revoke?
    case HandleRevoke(_) => p.Acq? && p.call.Revoking? && p.call.h.AtDoor? && p.call.target in s.cl
    case Answer(_) => p.Acq? && p.call.Replied?
    case FlushDone(_) => Releasing(p) && RelOf(p).Flush?
    case ServeRelease(_) => Releasing(p) && RelOf(p).RelSent?
    case CallRetry(_) => Releasing(p) && RelOf(p).Retry?
    case HandleRetry(_) => Releasing(p) && RelOf(p).Retrying? && RelOf(p).front in s.cl
    case EndRelease(x) => Releasing(p) && RelOf(p).RelReplied? && Releaser(x, p) in s.cl
  }

  predicate Enabled(s: State, e: Event) {
    e.x in s.pc && e.x.c in s.cl && EnabledAt(s, e, s.pc[e.x])
  }

  /** The control state a critical section of the client leads to. */
  function Then(n: Next, again: bool): Pc {
    match n
    case Hold => Holding
    case CallServer => Acq(again, Sent)
    case AwaitFree => WaitFree
    case AwaitNone => WaitNone
    case AwaitRetry => WaitRetry
    case GiveBack => Rel(Flush)
    case Finish(_) => Idle
  }

  function Waiting(s: State, c: Client, p: Pc): set<Ref> {
    set x | x in s.pc && x.c == c && s.pc[x] == p
  }

  function Put(s: State, x: Ref, c: Client, i: Info, p: Pc): State {
    s.(cl := s.cl[c := i], pc := s.pc[x := p])
  }

  function DoAcquire(s: State, x: Ref): State
    requires Enabled(s, Acquire(x))
  {
    var (i, n) := TryAcquire(s.cl[x.c], x.t);
    Put(s, x, x.c, i, Then(n, false)).(woken := s.woken - {x})
  }

  function DoRelease(s: State, x: Ref): State
    requires Enabled(s, Release(x))
  {
    var (i, n) := LockNodes.Release(s.cl[x.c], x.t);
    Put(s, x, x.c, i, Then(n, false)).(
      woken := if n == Finish(true) then s.woken + Waiting(s, x.c, WaitFree) else s.woken)
  }

  function DoWake(s: State, x: Ref): State
    requires Enabled(s, Wake(x))
  {
    var p, i := s.pc[x], s.cl[x.c];
    var (i', n) :=
      if p.WaitFree? then WakeFree(i, x.t)
      else if p.WaitNone? then LockNodes.WakeNone(i, x.t)
      else LockNodes.WakeRetry(i);
    Put(s, x, x.c, i', Then(n, p.WaitRetry?)).(woken := s.woken - {x})
  }

  function DoServeAcquire(s: State, x: Ref): State
    requires Enabled(s, ServeAcquire(x))
  {
    var (sv, r) := Serve(s.sv, x.c);
    s.(sv := sv, pc := s.pc[x := s.pc[x].(call := if r.revoke then Revoke(r.status) else Replied(r.status))])
  }

  /** A revoke on behalf of a queued client goes to the owner, read after the mutex is dropped. */
  function DoCallRevoke(s: State, x: Ref): State
    requires Enabled(s, CallRevoke(x))
  {
    var p := s.pc[x];
    s.(pc := s.pc[x := p.(call := Revoking(p.call.st, if p.call.st == Ok then x.c else s.sv.owner, AtDoor))])
  }

  function DoHandleRevoke(s: State, x: Ref): State
    requires Enabled(s, HandleRevoke(x))
  {
    var p := s.pc[x];
    var o := p.call.target;
    var (i, n) := Revoked(s.cl[o], Handler(x.c, x.t));
    Put(s, x, o, i, p.(call := if n == GiveBack then p.call.(h := InRel(Flush)) else Replied(p.call.st)))
  }

  /** The reply of an acquire; a second acquire that is not granted leaves its caller without the lock it counts on. */
  function DoAnswer(s: State, x: Ref): State
    requires Enabled(s, Answer(x))
  {
    var p, i := s.pc[x], s.cl[x.c];
    if p.call.st == Ok then Put(s, x, x.c, To(i, LOCKED, User(x.t)), Holding)
    else if p.again then Put(s, x, x.c, i, Failed)
    else
      var (i', n) := ToldRetry(i);
      Put(s, x, x.c, i', Then(n, true))
  }

  function DoFlush(s: State, x: Ref): State
    requires Enabled(s, FlushDone(x))
  {
    s.(pc := s.pc[x := WithRel(s.pc[x], RelSent)])
  }

  function DoServeRelease(s: State, x: Ref): State
    requires Enabled(s, ServeRelease(x))
  {
    s.(sv := Free(s.sv), pc := s.pc[x := WithRel(s.pc[x], if s.sv.queue != [] then Retry else RelReplied)])
  }

  /** The retry goes to the front of the queue, read after the mutex is dropped. */
  function DoCallRetry(s: State, x: Ref): State
    requires Enabled(s, CallRetry(x))
  {
    s.(pc := s.pc[x := WithRel(s.pc[x], Retrying(if s.sv.queue != [] then s.sv.queue[0] else ""))])
  }

  function DoHandleRetry(s: State, x: Ref): State
    requires Enabled(s, HandleRetry(x))
  {
    var f := RelOf(s.pc[x]).front;
    Put(s, x, f, s.cl[f].(toRetry := true), WithRel(s.pc[x], RelReplied)).(
      woken := if s.cl[f].waitingToRetry then s.woken + Waiting(s, f, WaitRetry) else s.woken)
  }

  function DoEndRelease(s: State, x: Ref): State
    requires Enabled(s, EndRelease(x))
  {
    var p := s.pc[x];
    var o := Releaser(x, p);
    var tid := if p.Rel? then User(x.t) else Handler(x.c, x.t);
    var p' := if p.Rel? then Idle else p.(call := Replied(p.call.st));
    Put(s, x, o, To(s.cl[o], NONE, tid), p').(
      woken := if s.cl[o].waitingToAcq then s.woken + Waiting(s, o, WaitNone) else s.woken)
  }

  function Apply(s: State, e: Event): State
    requires Enabled(s, e)
  {
    match e
    case Acquire(x) => DoAcquire(s, x)
    case Release(x) => DoRelease(s, x)
    case Wake(x) => DoWake(s, x)
    case Spurious(x) => s.(woken := s.woken + {x})
    case ServeAcquire(x) => DoServeAcquire(s, x)
    case CallRevoke(x) => DoCallRevoke(s, x)
    case HandleRevoke(x) => DoHandleRevoke(s, x)
    case Answer(x) => DoAnswer(s, x)
    case FlushDone(x) => DoFlush(s, x)
    case ServeRelease(x) => DoServeRelease(s, x)
    case CallRetry(x) => DoCallRetry(s, x)
    case HandleRetry(x) => DoHandleRetry(s, x)
    case EndRelease(x) => DoEndRelease(s, x)
  }

  /** An event moves the control state of its own thread only. */
  lemma OneMoves(s: State, e: Event)
    requires Enabled(s, e)
    ensures Apply(s, e).pc == s.pc[e.x := Apply(s, e).pc[e.x]]
  {
    assert s.pc[e.x := s.pc[e.x]] == s.pc;
  }

  /** Only serving an acquire or a release moves the server. */
  lemma ServerSteps(s: State, e: Event)
    requires Enabled(s, e)
    ensures Apply(s, e).sv ==
      if e.ServeAcquire? then Serve(s.sv, e.x.c).0 else if e.ServeRelease? then Free(s.sv) else s.sv
  {
  }

  /** No entry anywhere yet, and no thread has asked for the lock. */
  ghost predicate Init(s: State) {
    && s.sv == NO_LOCK && s.woken == {}
    && (forall c :: c in s.cl ==> s.cl[c] == NO_INFO)
    && (forall x :: x in s.pc ==> x.c in s.cl && s.pc[x] == Idle)
  }

  // ----- the stage of a client

  function ActiveRef(c: Client, i: Info): Ref {
    match i.tid
    case User(t) => Ref(c, t)
    case Handler(d, t) => Ref(d, t)
  }

  function AcqStage(again: bool, call: AcqCall): Stage {
    match call
    case Sent => if again then Again else Asking
    case Revoke(st) => if st == Ok then Granted else InLine
    case Revoking(st, _, _) => if st == Ok then Granted else InLine
    case Replied(st) => if st == Ok then Granted else InLine
  }

  function RelStage(r: RelCall): Stage {
    if r.Flush? || r.RelSent? then Returning else Returned
  }

  function StageAt(i: Info, p: Pc): Stage {
    match i.state
    case NONE => Out
    case FREE => Held
    case LOCKED => Held
    case ACQUIRING => if p.Acq? then AcqStage(p.again, p.call) else InLine
    case RELEASING => if Releasing(p) then RelStage(RelOf(p)) else Out
  }

  function StageOf(cl: map<Client, Info>, pc: map<Ref, Pc>, c: Client): Stage
    requires c in cl
  {
    var x := ActiveRef(c, cl[c]);
    StageAt(cl[c], if x in pc then pc[x] else Idle)
  }

  predicate RevokeDue(p: Pc) {
    p.Acq? && (p.call.Revoke? || (p.call.Revoking? && p.call.h.AtDoor?))
  }

  predicate RetryDue(p: Pc) {
    Releasing(p) && (RelOf(p).Retry? || RelOf(p).Retrying?)
  }

  /** The protocol state seen from outside the clients. */
  ghost function View(s: State): Abs {
    Abs(s.sv,
        map c | c in s.cl :: StageOf(s.cl, s.pc, c),
        set c | c in s.cl && s.cl[c].toRevoke,
        set c | c in s.cl && s.cl[c].toRetry,
        set x | x in s.pc && RevokeDue(s.pc[x]),
        set x | x in s.pc && RetryDue(s.pc[x]))
  }

  // ----- the invariant inside the clients

  /** What the control state of a thread says about the entries it works on. */
  ghost predicate ThreadOk(cl: map<Client, Info>, x: Ref, p: Pc) {
    && x.c in cl
    && (x.t in cl[x.c].waiters <==> p.WaitFree?)
    && (p.WaitNone? ==> cl[x.c].waitingToAcq)
    && (p.Holding? ==> cl[x.c].state == LOCKED && cl[x.c].tid == User(x.t))
    && (p.Acq? || p.WaitRetry? ==> cl[x.c].state == ACQUIRING && cl[x.c].tid == User(x.t))
    && (p.WaitRetry? ==> cl[x.c].waitingToRetry)
    && (p.Acq? && p.again && !p.call.Sent? ==> p.call.st == Ok)
    && (p.Acq? && p.call.Revoking? ==> p.call.target in cl)
    && (Releasing(p) ==>
          && Releaser(x, p) in cl && cl[Releaser(x, p)].state == RELEASING
          && cl[Releaser(x, p)].tid == if p.Rel? then User(x.t) else Handler(x.c, x.t))
    && !p.Failed?
  }

  /** What the entry of a client says about the thread that works on it. */
  ghost predicate InfoOk(pc: map<Ref, Pc>, c: Client, i: Info) {
    && (forall t :: t in i.waiters ==> Ref(c, t) in pc)
    && (i.state == LOCKED || i.state == ACQUIRING || i.state == RELEASING ==> ActiveRef(c, i) in pc)
    && (i.state == LOCKED ==> i.tid.User? && pc[ActiveRef(c, i)].Holding?)
    && (i.state == ACQUIRING ==> i.tid.User? && (pc[ActiveRef(c, i)].Acq? || pc[ActiveRef(c, i)].WaitRetry?))
    && (i.state == RELEASING ==>
          && Releasing(pc[ActiveRef(c, i)]) && Releaser(ActiveRef(c, i), pc[ActiveRef(c, i)]) == c
          && (i.tid.User? <==> pc[ActiveRef(c, i)].Rel?))
    && (i.waitingToRetry ==> i.state == ACQUIRING && pc[ActiveRef(c, i)].WaitRetry?)
    && (i.waitingToAcq ==> (i.state == RELEASING || i.state == NONE) && SomeWaitNone(pc, c))
    && (i.waiters != {} && (i.state == RELEASING || i.state == NONE) ==> i.waitingToAcq)
    && (i.toRevoke && i.state == FREE ==> i.waiters != {})
  }

  ghost predicate SomeWaitNone(pc: map<Ref, Pc>, c: Client) {
    exists t: Thread :: Ref(c, t) in pc && pc[Ref(c, t)].WaitNone?
  }

  ghost predicate OneWaitNone(pc: map<Ref, Pc>) {
    forall x, y :: x in pc && y in pc && x.c == y.c && pc[x].WaitNone? && pc[y].WaitNone? ==> x == y
  }

  /** A thread whose wait is over has been woken. */
  ghost predicate WakeOk(i: Info, p: Pc, woken: bool) {
    && (p.WaitFree? && i.state == FREE ==> woken)
    && (p.WaitNone? && i.state == NONE ==> woken)
    && (p.WaitRetry? && i.toRetry ==> woken)
  }

  /** Messages on their way go to the present owner and to the present front of the queue. */
  ghost predicate AimOk(sv: Server, p: Pc) {
    && (p.Acq? && p.call.Revoking? && p.call.h.AtDoor? ==> p.call.target == sv.owner)
    && (Releasing(p) && RelOf(p).Retrying? ==> sv.queue != [] && RelOf(p).front == sv.queue[0])
  }

  ghost predicate Local(s: State) {
    && (forall x {:trigger ThreadOk(s.cl, x, s.pc[x])} :: x in s.pc ==> ThreadOk(s.cl, x, s.pc[x]))
    && (forall c {:trigger InfoOk(s.pc, c, s.cl[c])} :: c in s.cl ==> InfoOk(s.pc, c, s.cl[c]))
    && OneWaitNone(s.pc)
  }

  ghost predicate Woken(s: State) {
    forall x {:trigger WakeOk(s.cl[x.c], s.pc[x], x in s.woken)} ::
      x in s.pc && x.c in s.cl ==> WakeOk(s.cl[x.c], s.pc[x], x in s.woken)
  }

  ghost predicate Aimed(s: State) {
    forall x {:trigger AimOk(s.sv, s.pc[x])} :: x in s.pc ==> AimOk(s.sv, s.pc[x])
  }

  ghost predicate Inv(s: State) {
    Local(s) && Woken(s) && Aimed(s) && Good(View(s))
  }
}
