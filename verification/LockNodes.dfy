/** The caching lock server and the lock client: what each critical section does to the entry of one lock. */
module LockNodes {

  type Client = string
  type Thread = nat

  /** A thread of a client. */
  datatype Ref = Ref(c: Client, t: Thread)

  // ----- the server

  /** The server's entry for a lock; it is created by the first acquire. */
  datatype Server = Server(created: bool, locked: bool, owner: Client, queue: seq<Client>)

  const NO_LOCK := Server(false, false, "", [])

  datatype Status = Ok | RetryLater

  /** The reply of an acquire, and whether the handler first has to call revoke. */
  datatype Served = Served(status: Status, revoke: bool)

  function Serve(sv: Server, c: Client): (Server, Served) {
    if !sv.created then
      (sv.(created := true, locked := true, owner := c), Served(Ok, false))
    else if sv.locked then
      (sv.(queue := sv.queue + [c]), Served(RetryLater, sv.queue == []))
    else if sv.queue == [] then
      (sv.(locked := true, owner := c), Served(Ok, false))
    else if c == sv.queue[0] then
      (sv.(queue := sv.queue[1..], locked := true, owner := c), Served(Ok, |sv.queue| > 1))
    else
      (sv.(queue := sv.queue + [c]), Served(RetryLater, false))
  }

  /** An acquire served while clients are in line is granted to the first of them or joins at the end. */
  lemma LineMoves(sv: Server, c: Client)
    requires sv.queue != [] ==> sv.created
    ensures var (sv', r) := Serve(sv, c);
      && (r.status == RetryLater ==> sv'.queue == sv.queue + [c])
      && (r.status == Ok && sv.queue != [] ==> sv.queue == [c] + sv'.queue)
      && (r.status == Ok && sv.queue == [] ==> sv'.queue == [])
  {
  }

  /** The release handler; it calls retry afterwards if a client is queued. */
  function Free(sv: Server): Server {
    sv.(created := true, locked := false, owner := "")
  }

  class LockServer {
    var lockList: map<nat, Server>

    function Entry(lid: nat): Server
      reads this
    {
      if lid in lockList then lockList[lid] else NO_LOCK
    }

    constructor ()
      ensures forall l :: Entry(l) == NO_LOCK
    {
      lockList := map[];
    }

    method Acquire(lid: nat, id: Client) returns (ret: Status, revoke: bool)
      modifies this
      ensures (Entry(lid), Served(ret, revoke)) == Serve(old(Entry(lid)), id)
      ensures forall l :: l != lid ==> Entry(l) == old(Entry(l))
    {
      ret, revoke := Ok, false;
      if lid !in lockList || !lockList[lid].created {
        lockList := lockList[lid := Entry(lid).(created := true, locked := true, owner := id)];
        return;
      }
      var info := lockList[lid];
      if info.locked {
        ret, revoke := RetryLater, |info.queue| == 0;
        info := info.(queue := info.queue + [id]);
      } else if |info.queue| > 0 {
        if id == info.queue[0] {
          info := info.(queue := info.queue[1..], locked := true, owner := id);
          revoke := |info.queue| > 0;
        } else {
          ret, info := RetryLater, info.(queue := info.queue + [id]);
        }
      } else {
        info := info.(locked := true, owner := id);
      }
      lockList := lockList[lid := info];
    }

    method Release(lid: nat) returns (retry: bool)
      modifies this
      ensures Entry(lid) == Free(old(Entry(lid))) && retry == (Entry(lid).queue != [])
      ensures forall l :: l != lid ==> Entry(l) == old(Entry(l))
    {
      lockList := lockList[lid := Entry(lid).(created := true, locked := false, owner := "")];
      retry := |lockList[lid].queue| > 0;
    }
  }

  // ----- the client

  datatype LockState = NONE | FREE | LOCKED | ACQUIRING | RELEASING

  /** A user thread of this client, or the thread serving a revoke on behalf of another client's acquire. */
  datatype Tid = User(t: Thread) | Handler(c: Client, t: Thread)

  datatype Info = Info(
    state: LockState, tid: Tid, waitingToRetry: bool, waitingToAcq: bool,
    toRetry: bool, toRevoke: bool, waiters: set<Thread>)

  const NO_INFO := Info(NONE, User(0), false, false, false, false, {})

  /** What a thread does after a critical section. */
  datatype Next = Hold | CallServer | AwaitFree | AwaitNone | AwaitRetry | GiveBack | Finish(broadcast: bool)

  function To(i: Info, s: LockState, tid: Tid): Info {
    i.(state := s, tid := tid)
  }

  /** `acquire` up to the first wait or call. */
  function TryAcquire(i: Info, t: Thread): (Info, Next) {
    match i.state
    case NONE =>
      if i.waitingToAcq then (i.(waiters := i.waiters + {t}), AwaitFree) else (To(i, ACQUIRING, User(t)), CallServer)
    case FREE => (To(i, LOCKED, User(t)), Hold)
    case ACQUIRING => (i.(waiters := i.waiters + {t}), AwaitFree)
    case LOCKED => (i.(waiters := i.waiters + {t}), AwaitFree)
    case RELEASING =>
      if i.waitingToAcq then (i.(waiters := i.waiters + {t}), AwaitFree) else (i.(waitingToAcq := true), AwaitNone)
  }

  /** A thread waiting on `lockCondVar` wakes up. */
  function WakeFree(i: Info, t: Thread): (Info, Next) {
    if i.state == FREE then (To(i, LOCKED, User(t)).(waiters := i.waiters - {t}), Hold) else (i, AwaitFree)
  }

  /** A thread waiting on `acquireCondVar` wakes up. */
  function WakeNone(i: Info, t: Thread): (Info, Next) {
    if i.state == NONE then (To(i, ACQUIRING, User(t)).(waitingToAcq := false), CallServer) else (i, AwaitNone)
  }

  /** The server said to retry later. */
  function ToldRetry(i: Info): (Info, Next) {
    if i.toRetry then (i.(toRetry := false), CallServer) else (i.(waitingToRetry := true), AwaitRetry)
  }

  /** A thread waiting on `retryCondVar` wakes up. */
  function WakeRetry(i: Info): (Info, Next) {
    if i.toRetry then (i.(toRetry := false, waitingToRetry := false), CallServer)
    else (i.(waitingToRetry := true), AwaitRetry)
  }

  /** `release` up to the call back to the server, if there is one. */
  function Release(i: Info, t: Thread): (Info, Next) {
    if i.waiters == {} then
      if i.toRevoke then (To(i, RELEASING, User(t)).(toRevoke := false), GiveBack)
      else (To(i, FREE, User(t)), Finish(false))
    else (To(i, FREE, User(t)), Finish(true))
  }

  /** `revoke_handler` up to the call back to the server, if there is one. */
  function Revoked(i: Info, h: Tid): (Info, Next) {
    if i.state == FREE && i.waiters == {} then (To(i, RELEASING, h).(toRevoke := false), GiveBack)
    else (i.(toRevoke := true), Finish(false))
  }

  class LockClient {
    var lockList: map<nat, Info>

    function Entry(lid: nat): Info
      reads this
    {
      if lid in lockList then lockList[lid] else NO_INFO
    }

    constructor ()
      ensures forall l :: Entry(l) == NO_INFO
    {
      lockList := map[];
    }

    method Update(lid: nat, tid: Tid, s: LockState)
      modifies this
      ensures Entry(lid) == To(old(Entry(lid)), s, tid)
      ensures forall l :: l != lid ==> Entry(l) == old(Entry(l))
    {
      lockList := lockList[lid := Entry(lid).(tid := tid, state := s)];
    }

    method Acquire(lid: nat, t: Thread) returns (n: Next)
      modifies this
      ensures (Entry(lid), n) == TryAcquire(old(Entry(lid)), t)
      ensures forall l :: l != lid ==> Entry(l) == old(Entry(l))
    {
      if lid !in lockList {
        lockList := lockList[lid := NO_INFO];
        Update(lid, User(t), ACQUIRING);
        return CallServer;
      }
      var i := lockList[lid];
      match i.state {
        case NONE =>
          if i.waitingToAcq { lockList := lockList[lid := i.(waiters := i.waiters + {t})]; n := AwaitFree; }
          else { Update(lid, User(t), ACQUIRING); n := CallServer; }
        case FREE =>
          Update(lid, User(t), LOCKED);
          n := Hold;
        case ACQUIRING =>
          lockList := lockList[lid := i.(waiters := i.waiters + {t})];
          n := AwaitFree;
        case LOCKED =>
          lockList := lockList[lid := i.(waiters := i.waiters + {t})];
          n := AwaitFree;
        case RELEASING =>
          if i.waitingToAcq { lockList := lockList[lid := i.(waiters := i.waiters + {t})]; n := AwaitFree; }
          else { lockList := lockList[lid := i.(waitingToAcq := true)]; n := AwaitNone; }
      }
    }

    method Unlock(lid: nat, t: Thread) returns (n: Next)
      modifies this
      ensures (Entry(lid), n) == Release(old(Entry(lid)), t)
      ensures forall l :: l != lid ==> Entry(l) == old(Entry(l))
    {
      Update(lid, User(t), FREE);
      if |Entry(lid).waiters| == 0 {
        if Entry(lid).toRevoke {
          Update(lid, User(t), RELEASING);
          lockList := lockList[lid := Entry(lid).(toRevoke := false)];
          n := GiveBack;
        } else {
          n := Finish(false);
        }
      } else {
        n := Finish(true);
      }
    }

    method RevokeHandler(lid: nat, h: Tid) returns (n: Next)
      modifies this
      ensures (Entry(lid), n) == Revoked(old(Entry(lid)), h)
      ensures forall l :: l != lid ==> Entry(l) == old(Entry(l))
    {
      var i := Entry(lid).(toRevoke := true);
      n := Finish(false);
      if i.state == FREE && |i.waiters| == 0 {
        i := To(i, RELEASING, h).(toRevoke := false);
        n := GiveBack;
      }
      lockList := lockList[lid := i];
    }

    /** The server has taken the lock back; tells whether to signal the thread that waits to acquire it. */
    method Released(lid: nat, tid: Tid) returns (signal: bool)
      modifies this
      ensures Entry(lid) == To(old(Entry(lid)), NONE, tid) && signal == Entry(lid).waitingToAcq
      ensures forall l :: l != lid ==> Entry(l) == old(Entry(l))
    {
      Update(lid, tid, NONE);
      signal := Entry(lid).waitingToAcq;
    }

    /** Tells whether to signal the thread that waits for the retry. */
    method RetryHandler(lid: nat) returns (signal: bool)
      modifies this
      ensures Entry(lid) == old(Entry(lid)).(toRetry := true) && signal == Entry(lid).waitingToRetry
      ensures forall l :: l != lid ==> Entry(l) == old(Entry(l))
    {
      lockList := lockList[lid := Entry(lid).(toRetry := true)];
      signal := Entry(lid).waitingToRetry;
    }

    /** The reply to an acquire: the lock, or a retry that has come already, or a wait for it. */
    method Answered(lid: nat, t: Thread, st: Status) returns (n: Next)
      modifies this
      ensures (Entry(lid), n) ==
        if st == Ok then (To(old(Entry(lid)), LOCKED, User(t)), Hold) else ToldRetry(old(Entry(lid)))
      ensures forall l :: l != lid ==> Entry(l) == old(Entry(l))
    {
      if st == Ok {
        Update(lid, User(t), LOCKED);
        return Hold;
      }
      var i := Entry(lid);
      if i.toRetry {
        lockList := lockList[lid := i.(toRetry := false)];
        return CallServer;
      }
      lockList := lockList[lid := i.(waitingToRetry := true)];
      return AwaitRetry;
    }

    /** Re-checking a condition after a wait: one turn of each of the three wait loops. */
    method Recheck(lid: nat, t: Thread, was: Next) returns (n: Next)
      requires was == AwaitFree || was == AwaitNone || was == AwaitRetry
      modifies this
      ensures (Entry(lid), n) == match was
        case AwaitFree => WakeFree(old(Entry(lid)), t)
        case AwaitNone => WakeNone(old(Entry(lid)), t)
        case _ => WakeRetry(old(Entry(lid)))
      ensures forall l :: l != lid ==> Entry(l) == old(Entry(l))
    {
      n := was;
      var i := Entry(lid);
      if was == AwaitFree && i.state == FREE {
        lockList := lockList[lid := To(i, LOCKED, User(t)).(waiters := i.waiters - {t})];
        n := Hold;
      } else if was == AwaitNone && i.state == NONE {
        lockList := lockList[lid := To(i, ACQUIRING, User(t)).(waitingToAcq := false)];
        n := CallServer;
      } else if was == AwaitRetry {
        if i.toRetry {
          lockList := lockList[lid := i.(toRetry := false, waitingToRetry := false)];
          n := CallServer;
        } else {
          lockList := lockList[lid := i.(waitingToRetry := true)];
        }
      }
    }
  }
}
