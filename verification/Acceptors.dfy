/** The Paxos acceptor, its durable log, and what a restart from that log preserves. */
module Acceptors {
  import opened Ballots

  type Value = string

  datatype Record =
    | Done(instance: nat, v: Value)
    | PropSeen(n: Ballot)
    | AcceptedProp(n: Ballot, v: Value)

  /** The acceptor's fields together with the log it has written so far. */
  datatype Acceptor = Acceptor(
    me: string, nH: Ballot, nA: Ballot, vA: Value, instanceH: nat, values: map<nat, Value>, log: seq<Record>)

  datatype PrepareReply = OldInstance(v: Value) | Promise(nA: Ballot, vA: Value) | Reject

  /** `values[i]` of a C++ map: a missing instance reads as the empty string. */
  function ValueAt(a: Acceptor, i: nat): Value {
    if i in a.values then a.values[i] else ""
  }

  // ----- the request handlers, one mutex-held region each

  /** `preparereq`. Reading `values[instance]` inserts the key, as the C++ map does. */
  function Prepare(a: Acceptor, instance: nat, n: Ballot): (Acceptor, PrepareReply) {
    if instance <= a.instanceH then
      (a.(values := a.values[instance := ValueAt(a, instance)]), OldInstance(ValueAt(a, instance)))
    else if Gt(n, a.nH) then
      (a.(nH := n, log := a.log + [PropSeen(n)]), Promise(a.nA, a.vA))
    else
      (a, Reject)
  }

  /** `acceptreq`, which never looks at the instance of the request. */
  function Accept(a: Acceptor, n: Ballot, v: Value): (Acceptor, bool) {
    if Ge(n, a.nH) then
      (a.(nA := n, vA := v, log := a.log + [AcceptedProp(n, v)]), true)
    else
      (a, false)
  }

  /** `commit_wo`: record the value and forget the finished instance's ballots. */
  function Commit(a: Acceptor, instance: nat, v: Value): Acceptor {
    if instance > a.instanceH then
      a.(values := a.values[instance := v], log := a.log + [Done(instance, v)], instanceH := instance,
         nH := Ballot(0, a.me), nA := Ballot(0, a.me), vA := "")
    else a
  }

  /** Whether `decidereq` gets past both of its assertions. */
  predicate DecideAsserts(a: Acceptor, instance: nat, v: Value) {
    && (instance == a.instanceH + 1 ==> a.vA == v)
    && instance <= a.instanceH + 1
  }

  function Decide(a: Acceptor, instance: nat): Acceptor {
    if instance == a.instanceH + 1 then Commit(a, instance, a.vA) else a
  }

  // ----- the log

  /** The acceptor as its constructor leaves it just before the log is read. */
  function Blank(me: string): Acceptor {
    Acceptor(me, Ballot(0, me), Ballot(0, me), "", 0, map[], [])
  }

  /** One iteration of `logread`. A `done` record zeroes the counters but keeps the names in the ballots. */
  function ApplyRecord(a: Acceptor, r: Record): Acceptor {
    match r
    case Done(i, v) =>
      a.(values := a.values[i := v], instanceH := i, vA := "", nH := a.nH.(n := 0), nA := a.nA.(n := 0))
    case PropSeen(n) => a.(nH := n)
    case AcceptedProp(n, v) => a.(nA := n, vA := v)
  }

  function Reread(me: string, log: seq<Record>): (a: Acceptor)
    ensures a.me == me && a.log == []
  {
    if log == [] then Blank(me) else ApplyRecord(Reread(me, log[..|log| - 1]), log[|log| - 1])
  }

  /** The acceptor a restarted node builds from its log file. */
  function Replay(me: string, log: seq<Record>): Acceptor {
    Reread(me, log).(log := log)
  }

  /** The constructor: replay, then the very first node of the system decides instance 1 by itself. */
  function Boot(me: string, log: seq<Record>, first: bool, v: Value): Acceptor {
    var a := Replay(me, log);
    if a.instanceH == 0 && first then
      a.(values := a.values[1 := v], log := a.log + [Done(1, v)], instanceH := 1)
    else a
  }

  // ----- replay is exact

  predicate SameBallot(x: Ballot, y: Ballot) {
    x == y || (x.n == 0 && y.n == 0)
  }

  /** Equal but for the name part of ballots whose counter is zero. */
  ghost predicate Similar(a: Acceptor, b: Acceptor) {
    && a.me == b.me && a.log == b.log && a.instanceH == b.instanceH && a.vA == b.vA
    && SameBallot(a.nH, b.nH) && SameBallot(a.nA, b.nA)
    && forall i: nat :: ValueAt(a, i) == ValueAt(b, i)
  }

  ghost predicate Durable(a: Acceptor) {
    Similar(a, Replay(a.me, a.log))
  }

  lemma RereadSnoc(me: string, log: seq<Record>, r: Record)
    ensures Reread(me, log + [r]) == ApplyRecord(Reread(me, log), r)
  {
  }

  lemma PrepareDurable(a: Acceptor, instance: nat, n: Ballot)
    requires Durable(a)
    ensures Durable(Prepare(a, instance, n).0)
  {
    var b := Prepare(a, instance, n).0;
    if instance > a.instanceH {
      RereadSnoc(a.me, a.log, PropSeen(n));
    }
    forall i: nat ensures ValueAt(b, i) == ValueAt(a, i) {}
  }

  lemma AcceptDurable(a: Acceptor, n: Ballot, v: Value)
    requires Durable(a)
    ensures Durable(Accept(a, n, v).0)
  {
    RereadSnoc(a.me, a.log, AcceptedProp(n, v));
    forall i: nat ensures ValueAt(Accept(a, n, v).0, i) == ValueAt(a, i) {}
  }

  lemma CommitDurable(a: Acceptor, instance: nat, v: Value)
    requires Durable(a)
    ensures Durable(Commit(a, instance, v))
  {
    RereadSnoc(a.me, a.log, Done(instance, v));
    var b := Commit(a, instance, v);
    forall i: nat ensures ValueAt(b, i) == ValueAt(Replay(b.me, b.log), i) {
      assert ValueAt(a, i) == ValueAt(Replay(a.me, a.log), i);
    }
  }

  /** A node that decides instance 1 at boot must not have ballots in its log already. */
  predicate CleanBoot(me: string, log: seq<Record>, first: bool) {
    var a := Replay(me, log);
    first && a.instanceH == 0 ==> a.nH.n == 0 && a.nA.n == 0 && a.vA == ""
  }

  /** Booting as first node logs a decision but keeps the ballots; a later replay would drop them. */
  lemma BootDurable(me: string, log: seq<Record>, first: bool, v: Value)
    ensures Durable(Boot(me, log, first, v)) <==> CleanBoot(me, log, first)
  {
  }

  /**
   * A node that promises a ballot and then boots as the first node: it rejects that ballot for the next instance,
   * but would promise it after one more restart.
   */
  lemma LateFirstBootForgets(me: string, v: Value)
    ensures var b := Ballot(1, me);
      var log := Prepare(Boot(me, [], false, v), 1, b).0.log;
      var a := Boot(me, log, true, v);
      && !Durable(a)
      && Prepare(a, 2, b).1 == Reject && Prepare(Replay(me, a.log), 2, b).1.Promise?
  {
    var b := Ballot(1, me);
    var log := Prepare(Boot(me, [], false, v), 1, b).0.log;
    RereadSnoc(me, [], PropSeen(b));
    assert log == [] + [PropSeen(b)];
    RereadSnoc(me, log, Done(1, v));
    BallotOrder(b, b, b);
    BootDurable(me, log, true, v);
  }

  // ----- whole request histories

  datatype Request =
    | PrepareReq(instance: nat, n: Ballot)
    | AcceptReq(n: Ballot, v: Value)
    | CommitReq(instance: nat, v: Value)
    | DecideReq(instance: nat)
    | Restart

  datatype Reply = Prepared(p: PrepareReply) | Accepted(ok: bool) | Committed

  function Serve(a: Acceptor, r: Request): (Acceptor, Reply) {
    match r
    case PrepareReq(i, n) => var (b, p) := Prepare(a, i, n); (b, Prepared(p))
    case AcceptReq(n, v) => var (b, ok) := Accept(a, n, v); (b, Accepted(ok))
    case CommitReq(i, v) => (Commit(a, i, v), Committed)
    case DecideReq(i) => (Decide(a, i), Committed)
    case Restart => (Replay(a.me, a.log), Committed)
  }

  function ServeAll(a: Acceptor, rs: seq<Request>): (Acceptor, seq<Reply>)
    decreases |rs|
  {
    if rs == [] then (a, [])
    else
      var (b, p) := Serve(a, rs[0]);
      var (c, ps) := ServeAll(b, rs[1..]);
      (c, [p] + ps)
  }

  /** Proposers number their ballots from 1. */
  predicate Numbered(r: Request) {
    match r
    case PrepareReq(_, n) => n.n >= 1
    case AcceptReq(n, _) => n.n >= 1
    case _ => true
  }

  predicate SameReply(p: Reply, q: Reply) {
    || p == q
    || (p.Prepared? && q.Prepared? && p.p.Promise? && q.p.Promise?
        && p.p.vA == q.p.vA && SameBallot(p.p.nA, q.p.nA))
  }

  lemma ServeDurable(a: Acceptor, r: Request)
    requires Durable(a)
    ensures Durable(Serve(a, r).0)
  {
    match r
    case PrepareReq(i, n) => PrepareDurable(a, i, n);
    case AcceptReq(n, v) => AcceptDurable(a, n, v);
    case CommitReq(i, v) => CommitDurable(a, i, v);
    case DecideReq(i) => CommitDurable(a, i, a.vA);
    case Restart =>
  }

  lemma CommitSimilar(a: Acceptor, b: Acceptor, instance: nat, v: Value)
    requires Similar(a, b)
    ensures Similar(Commit(a, instance, v), Commit(b, instance, v))
  {
    forall i: nat ensures ValueAt(Commit(a, instance, v), i) == ValueAt(Commit(b, instance, v), i) {
      assert ValueAt(a, i) == ValueAt(b, i);
    }
  }

  lemma ServeSimilar(a: Acceptor, b: Acceptor, r: Request)
    requires Similar(a, b) && Numbered(r)
    ensures Similar(Serve(a, r).0, Serve(b, r).0)
    ensures SameReply(Serve(a, r).1, Serve(b, r).1)
  {
    match r
    case PrepareReq(i, n) =>
      forall j: nat
        ensures ValueAt(Prepare(a, i, n).0, j) == ValueAt(a, j)
        ensures ValueAt(Prepare(b, i, n).0, j) == ValueAt(b, j) {}
    case AcceptReq(n, v) =>
      forall j: nat
        ensures ValueAt(Accept(a, n, v).0, j) == ValueAt(a, j)
        ensures ValueAt(Accept(b, n, v).0, j) == ValueAt(b, j) {}
    case CommitReq(i, v) => CommitSimilar(a, b, i, v);
    case DecideReq(i) => CommitSimilar(a, b, i, a.vA);
    case Restart =>
  }

  /** Whatever a node has served since it first booted, replaying its log rebuilds it. */
  lemma {:induction false} ReplayRebuilds(a: Acceptor, rs: seq<Request>)
    requires Durable(a)
    ensures Durable(ServeAll(a, rs).0)
    decreases |rs|
  {
    if rs != [] {
      ServeDurable(a, rs[0]);
      ReplayRebuilds(Serve(a, rs[0]).0, rs[1..]);
    }
  }

  lemma {:induction false} SimilarForever(a: Acceptor, b: Acceptor, rs: seq<Request>)
    requires Similar(a, b)
    requires forall r :: r in rs ==> Numbered(r)
    ensures Similar(ServeAll(a, rs).0, ServeAll(b, rs).0)
    ensures |ServeAll(a, rs).1| == |ServeAll(b, rs).1| == |rs|
    ensures forall i :: 0 <= i < |rs| ==> SameReply(ServeAll(a, rs).1[i], ServeAll(b, rs).1[i])
    decreases |rs|
  {
    if rs != [] {
      ServeSimilar(a, b, rs[0]);
      SimilarForever(Serve(a, rs[0]).0, Serve(b, rs[0]).0, rs[1..]);
    }
  }

  /** No request history can tell a node that lost its memory from one that did not. */
  lemma RestartIsInvisible(
    me: string, log: seq<Record>, first: bool, v: Value, before: seq<Request>, after: seq<Request>)
    requires CleanBoot(me, log, first)
    requires forall r :: r in after ==> Numbered(r)
    ensures
      var live := ServeAll(Boot(me, log, first, v), before).0;
      var reborn := Replay(live.me, live.log);
      && |ServeAll(live, after).1| == |ServeAll(reborn, after).1| == |after|
      && forall i :: 0 <= i < |after| ==> SameReply(ServeAll(live, after).1[i], ServeAll(reborn, after).1[i])
  {
    BootDurable(me, log, first, v);
    var live := ServeAll(Boot(me, log, first, v), before).0;
    ReplayRebuilds(Boot(me, log, first, v), before);
    SimilarForever(live, Replay(live.me, live.log), after);
  }

  // ----- what has been decided stays decided

  lemma ServeKeepsDecided(a: Acceptor, i: nat, r: Request)
    requires Durable(a) && i <= a.instanceH
    ensures i <= Serve(a, r).0.instanceH && ValueAt(Serve(a, r).0, i) == ValueAt(a, i)
  {
  }

  /** The value of a decided instance never changes, whatever is served, restarts and later decisions included. */
  lemma {:induction false} DecidedForever(a: Acceptor, i: nat, rs: seq<Request>)
    requires Durable(a) && i <= a.instanceH
    ensures i <= ServeAll(a, rs).0.instanceH && ValueAt(ServeAll(a, rs).0, i) == ValueAt(a, i)
    decreases |rs|
  {
    if rs != [] {
      ServeDurable(a, rs[0]);
      ServeKeepsDecided(a, i, rs[0]);
      DecidedForever(Serve(a, rs[0]).0, i, rs[1..]);
    }
  }

  /** A prepare for a decided instance is answered with the value decided for that instance. */
  lemma OldInstancesAnswered(a: Acceptor, i: nat, v: Value, rs: seq<Request>, n: Ballot)
    requires Durable(a) && i > a.instanceH
    ensures Prepare(ServeAll(Commit(a, i, v), rs).0, i, n).1 == OldInstance(v)
  {
    CommitDurable(a, i, v);
    DecidedForever(Commit(a, i, v), i, rs);
  }

  /** The first node of the system has decided instance 1, for its own value, and reports it ever after. */
  lemma FoundersInstance(me: string, v: Value, rs: seq<Request>, n: Ballot)
    ensures var a := ServeAll(Boot(me, [], true, v), rs).0; ValueAt(a, 1) == v && Prepare(a, 1, n).1 == OldInstance(v)
  {
    BootDurable(me, [], true, v);
    DecidedForever(Boot(me, [], true, v), 1, rs);
  }

  ghost predicate DecidedInLog(a: Acceptor, i: nat) {
    exists v :: Done(i, v) in a.log
  }

  /** Every instance up to the highest is in the log. */
  ghost predicate NoGaps(a: Acceptor) {
    forall i :: 1 <= i <= a.instanceH ==> DecidedInLog(a, i)
  }

  lemma ServeLeavesNoGaps(a: Acceptor, r: Request)
    requires Durable(a) && NoGaps(a) && (r.CommitReq? ==> r.instance <= a.instanceH + 1)
    ensures NoGaps(Serve(a, r).0)
  {
    var b := Serve(a, r).0;
    assert r.Restart? ==> b.instanceH == a.instanceH;
    forall i | 1 <= i <= b.instanceH ensures DecidedInLog(b, i) {
      if i <= a.instanceH {
        assert DecidedInLog(a, i);
        var v :| Done(i, v) in a.log;
        assert Done(i, v) in b.log;
      } else {
        assert b.log[|a.log|] == Done(i, if r.CommitReq? then r.v else a.vA);
      }
    }
  }

  /** Whatever instances the decide requests name, a node that is told decisions only by them decides in order. */
  lemma {:induction false} DecisionsInOrder(a: Acceptor, rs: seq<Request>)
    requires Durable(a) && NoGaps(a)
    requires forall r :: r in rs ==> !r.CommitReq?
    ensures NoGaps(ServeAll(a, rs).0)
    decreases |rs|
  {
    if rs != [] {
      ServeDurable(a, rs[0]);
      ServeLeavesNoGaps(a, rs[0]);
      DecisionsInOrder(Serve(a, rs[0]).0, rs[1..]);
    }
  }

  // ----- what an acceptor reports

  /** An acceptor that has accepted nothing in this instance holds no value. */
  predicate Candid(a: Acceptor) {
    a.nA.n == 0 ==> a.vA == ""
  }

  lemma ServeCandid(a: Acceptor, r: Request)
    requires Durable(a) && Candid(a) && Numbered(r)
    ensures Candid(Serve(a, r).0)
  {
  }

  /**
   * Whatever an acceptor serves, restarts included, its log rebuilds it and it reports no value it has not
   * accepted.
   */
  lemma {:induction false} CandidForever(a: Acceptor, rs: seq<Request>)
    requires Durable(a) && Candid(a) && forall r :: r in rs ==> Numbered(r)
    ensures Durable(ServeAll(a, rs).0) && Candid(ServeAll(a, rs).0)
    decreases |rs|
  {
    if rs != [] {
      ServeCandid(a, rs[0]);
      ServeDurable(a, rs[0]);
      CandidForever(Serve(a, rs[0]).0, rs[1..]);
    }
  }

  /** The life of a node: its first boot, with an empty log, and the requests it has served since. */
  datatype Life = Life(me: string, first: bool, v: Value, served: seq<Request>)

  predicate Orderly(l: Life) {
    forall r :: r in l.served ==> Numbered(r)
  }

  function Now(l: Life): Acceptor {
    ServeAll(Boot(l.me, [], l.first, l.v), l.served).0
  }

  lemma LifeOk(l: Life)
    requires Orderly(l)
    ensures Durable(Now(l)) && Candid(Now(l))
  {
    BootDurable(l.me, [], l.first, l.v);
    CandidForever(Boot(l.me, [], l.first, l.v), l.served);
  }

  // ----- the acceptor object

  class AcceptorNode {
    const me: string
    var nH: Ballot
    var nA: Ballot
    var vA: Value
    var instanceH: nat
    var values: map<nat, Value>
    var log: seq<Record>

    function State(): Acceptor
      reads this
    {
      Acceptor(me, nH, nA, vA, instanceH, values, log)
    }

    constructor (me: string, log: seq<Record>, first: bool, v: Value)
      ensures State() == Boot(me, log, first, v)
    {
      this.me := me;
      nH, nA, vA := Ballot(0, me), Ballot(0, me), "";
      instanceH, values := 0, map[];
      this.log := log;
      new;
      LogRead();
      if instanceH == 0 && first {
        values := values[1 := v];
        this.log := this.log + [Done(1, v)];
        instanceH := 1;
      }
    }

    method LogRead()
      requires State() == Blank(me).(log := log)
      modifies this
      ensures State() == Replay(me, old(log))
    {
      var i := 0;
      while i < |log|
        invariant 0 <= i <= |log| && log == old(log)
        invariant State() == Reread(me, log[..i]).(log := log)
      {
        assert log[..i + 1][..i] == log[..i];
        match log[i] {
          case Done(instance, v) =>
            values := values[instance := v];
            instanceH := instance;
            vA := "";
            nH := nH.(n := 0);
            nA := nA.(n := 0);
          case PropSeen(n) => nH := n;
          case AcceptedProp(n, v) => nA, vA := n, v;
        }
        i := i + 1;
      }
      assert log[..|log|] == log;
    }

    method Prepared(instance: nat, n: Ballot) returns (r: PrepareReply)
      modifies this
      ensures (State(), r) == Prepare(old(State()), instance, n)
    {
      if instance <= instanceH {
        var v := if instance in values then values[instance] else "";
        values := values[instance := v];
        r := OldInstance(v);
      } else if Gt(n, nH) {
        log := log + [PropSeen(n)];
        nH := n;
        r := Promise(nA, vA);
      } else {
        r := Reject;
      }
    }

    method AcceptRequested(n: Ballot, v: Value) returns (r: bool)
      modifies this
      ensures (State(), r) == Accept(old(State()), n, v)
    {
      if Ge(n, nH) {
        log := log + [AcceptedProp(n, v)];
        nA, vA := n, v;
        r := true;
      } else {
        r := false;
      }
    }

    method CommitWo(instance: nat, v: Value)
      modifies this
      ensures State() == Commit(old(State()), instance, v)
    {
      if instance > instanceH {
        values := values[instance := v];
        log := log + [Done(instance, v)];
        instanceH := instance;
        nH, nA, vA := Ballot(0, me), Ballot(0, me), "";
      }
    }

    /** The two assertions of the source are the precondition; the protocol's invariant discharges it. */
    method Decided(instance: nat, v: Value)
      requires DecideAsserts(State(), instance, v)
      modifies this
      ensures State() == Decide(old(State()), instance)
      ensures instance == old(instanceH) + 1 ==> ValueAt(State(), instance) == v && instanceH == instance
    {
      if instance == instanceH + 1 {
        assert vA == v;
        CommitWo(instance, vA);
      } else if instance > instanceH {
        assert false;
      }
    }
  }
}
