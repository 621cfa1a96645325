/**
 * One RPC connection, client and server together, over a network that loses, repeats and reorders messages.
 * The network is the set of everything sent, so a message can arrive any number of times, in any order, or never.
 */
module Rpc {
  import opened Options
  import opened RpcClients
  import opened RpcServers

  datatype Req = Req(xid: nat, xidRep: nat, arg: string)
  datatype Rep = Rep(xid: nat, reply: Reply)

  /** History of the run: requests that arrived, handler starts, outputs, calls answered while pending, resends. */
  datatype Hist = Hist(
    arrived: set<Req>, started: multiset<nat>, outputs: map<nat, Out>, answered: set<nat>, resent: set<nat>)

  datatype State = State(client: Client, mem: Memory, reqs: set<Req>, reps: set<Rep>, h: Hist)

  datatype Event =
    | Issue(arg: string)
    | Arrive(q: Req)
    | Complete(xid: nat, out: Out)
    | Receive(p: Rep)
    | Leave(xid: nat, lossy: bool)
    | Record(xid: nat)
    | Resend

  predicate Enabled(s: State, e: Event) {
    match e
    case Issue(_) => true
    case Arrive(q) => q in s.reqs
    case Complete(x, _) => s.h.started[x] > 0 && x !in s.h.outputs
    case Receive(p) => p in s.reps
    case Leave(x, _) => x in s.client.calls
    case Record(x) => x in s.client.leaving
    case Resend => StaleDue(s.client)
  }

  /** What `dispatch` sends back at once for each verdict; a new call is answered when its handler completes. */
  function Response(xid: nat, v: Verdict): set<Rep> {
    match v
    case New => {}
    case Done(None) => {}
    case Done(Some(out)) => {Rep(xid, Success(out))}
    case TooOld => {Rep(xid, Forgotten)}
  }

  ghost function Apply(s: State, e: Event): State
    requires Enabled(s, e)
  {
    match e
    case Issue(arg) =>
      s.(client := NewCall(s.client), reqs := s.reqs + {Req(s.client.next, Front(s.client.done), arg)})
    case Arrive(q) =>
      var (m, v) := Check(s.mem, q.xid, q.xidRep);
      s.(mem := m, reps := s.reps + Response(q.xid, v),
         h := s.h.(arrived := s.h.arrived + {q},
                   started := if v.New? then s.h.started + multiset{q.xid} else s.h.started))
    case Complete(x, out) =>
      s.(mem := AddReply(s.mem, x, out), reps := s.reps + {Rep(x, Success(out))},
         h := s.h.(outputs := s.h.outputs[x := out]))
    case Receive(p) =>
      s.(client := GotReply(s.client, p.xid, p.reply),
         h := s.h.(answered := if Waiting(s.client, p.xid) then s.h.answered + {p.xid} else s.h.answered))
    case Leave(x, lossy) => s.(client := Return(s.client, x, lossy))
    case Record(x) => s.(client := Note(s.client, x))
    case Resend => s.(client := TakeStale(s.client), h := s.h.(resent := s.h.resent + {s.client.dup.value}))
  }

  predicate Waiting(c: Client, xid: nat) {
    xid in c.calls && c.calls[xid].result.None?
  }

  const INIT := State(Fresh(), BLANK, {}, {}, Hist({}, multiset{}, map[], {}, {}))

  /** A run: the events since the connection was set up. */
  datatype Run = Begin | Then(past: Run, e: Event)

  ghost function Last(run: Run): State
    decreases run, 1
  {
    match run
    case Begin => INIT
    case Then(past, e) => Moved(past, e)
  }

  ghost function Moved(past: Run, e: Event): State
    decreases past, 2
  {
    if Enabled(Last(past), e) then Apply(Last(past), e) else Last(past)
  }

  ghost predicate Legal(run: Run)
    decreases run, 1
  {
    match run
    case Begin => true
    case Then(past, e) => Follows(past, e)
  }

  ghost predicate Follows(past: Run, e: Event)
    decreases past, 2
  {
    Legal(past) && Enabled(Last(past), e)
  }

  // ----- the invariant

  /** Every header ever sent acknowledges only done calls below its own. */
  ghost predicate ReqOk(c: Client, q: Req) {
    && 1 <= q.xid < c.next && q.xidRep < q.xid
    && forall d :: 1 <= d <= q.xidRep ==> d in c.done
  }

  ghost predicate CallOk(c: Client, reqs: set<Req>, h: Hist, x: nat) {
    && x in c.calls && 1 <= x < c.next
    && (forall q :: q in reqs && q.xid == x ==> q.xidRep == c.calls[x].xidRep)
    && (c.calls[x].result.None? ==> x !in c.done)
    && (c.calls[x].result.Some? ==>
          x in h.answered && x in h.outputs && c.calls[x].result == Some(Success(h.outputs[x])))
  }

  ghost predicate ClientOk(c: Client, reqs: set<Req>, h: Hist) {
    && c.next >= 1
    && (forall q {:trigger ReqOk(c, q)} :: q in reqs ==> ReqOk(c, q))
    && (forall q, q' :: q in reqs && q' in reqs && q.xid == q'.xid ==> q == q')
    && (forall x {:trigger CallOk(c, reqs, h, x)} :: x in c.calls ==> CallOk(c, reqs, h, x))
    && (forall x :: x in c.done ==> x < c.next)
  }

  ghost predicate ServerOk(m: Memory, h: Hist) {
    && Tidy(m)
    && (forall x: nat {:trigger Known(m, x)} {:trigger h.started[x]} :: h.started[x] == if Known(m, x) then 1 else 0)
    && (forall x: nat :: x in h.outputs ==> Known(m, x))
    && (forall e :: e in m.window && e.reply.Some? ==> e.xid in h.outputs && h.outputs[e.xid] == e.reply.value)
    && (forall x: nat {:trigger Known(m, x)} :: Known(m, x) ==> exists q :: q in h.arrived && q.xid == x)
  }

  ghost predicate RepOk(m: Memory, h: Hist, p: Rep) {
    match p.reply
    case Success(out) => p.xid in h.outputs && h.outputs[p.xid] == out
    case Forgotten => p.xid in m.forgotten
  }

  /** An answered call that an arrived request acknowledges has been forgotten. */
  ghost predicate AckedForgotten(m: Memory, h: Hist) {
    forall q, d :: q in h.arrived && d in h.answered && d <= q.xidRep ==> d in m.forgotten
  }

  ghost predicate HasArrived(h: Hist, k: int) {
    exists q :: q in h.arrived && q.xidRep == k
  }

  ghost predicate LossyOk(c: Client, m: Memory, h: Hist) {
    && (forall x :: x in c.leaving ==> x in h.answered && HasArrived(h, c.leaving[x]))
    && (c.dup.Some? ==> c.dup.value in h.answered)
    && (c.repDone >= 0 ==> HasArrived(h, c.repDone))
    && (forall x :: x in h.resent ==> x in m.forgotten)
  }

  ghost predicate Inv(s: State) {
    && ClientOk(s.client, s.reqs, s.h) && ServerOk(s.mem, s.h) && LossyOk(s.client, s.mem, s.h)
    && s.h.arrived <= s.reqs
    && (forall p {:trigger RepOk(s.mem, s.h, p)} :: p in s.reps ==> RepOk(s.mem, s.h, p))
    && AckedForgotten(s.mem, s.h)
    && (forall x :: x in s.mem.forgotten || x in s.h.answered ==> x in s.client.done)
    && (forall x :: x in s.h.answered ==> Known(s.mem, x))
  }

  // ----- every event keeps it

  lemma FrontBelow(c: Client, reqs: set<Req>, h: Hist)
    requires ClientOk(c, reqs, h)
    ensures Front(c.done) < c.next
  {
    var k := Front(c.done);
    assert k >= 1 ==> k in c.done;
  }

  lemma IssueKeeps(s: State, arg: string)
    requires Inv(s)
    ensures Inv(Apply(s, Issue(arg)))
  {
    var s' := Apply(s, Issue(arg));
    FrontBelow(s.client, s.reqs, s.h);
    forall q | q in s'.reqs ensures ReqOk(s'.client, q) {
      if q in s.reqs { assert ReqOk(s.client, q); }
    }
    forall q, q' | q in s'.reqs && q' in s'.reqs && q.xid == q'.xid ensures q == q' {
      if q in s.reqs { assert ReqOk(s.client, q); }
      if q' in s.reqs { assert ReqOk(s.client, q'); }
    }
    forall x | x in s'.client.calls ensures CallOk(s'.client, s'.reqs, s'.h, x) {
      if x in s.client.calls { assert CallOk(s.client, s.reqs, s.h, x); }
      forall q | q in s.reqs ensures q.xid < s.client.next { assert ReqOk(s.client, q); }
    }
  }

  lemma ArriveServer(s: State, q: Req)
    requires Inv(s) && q in s.reqs
    ensures ServerOk(Apply(s, Arrive(q)).mem, Apply(s, Arrive(q)).h)
  {
    var s' := Apply(s, Arrive(q));
    assert ReqOk(s.client, q);
    CheckUpdates(s.mem, q.xid, q.xidRep);
    forall x: nat | Known(s'.mem, x) ensures exists r :: r in s'.h.arrived && r.xid == x {
      if Known(s.mem, x) {
        var r :| r in s.h.arrived && r.xid == x;
        assert r in s'.h.arrived;
      } else {
        assert q in s'.h.arrived;
      }
    }
  }

  lemma ArriveMessages(s: State, q: Req)
    requires Inv(s) && q in s.reqs
    ensures var s' := Apply(s, Arrive(q));
      && AckedForgotten(s'.mem, s'.h)
      && (forall p :: p in s'.reps ==> RepOk(s'.mem, s'.h, p))
      && (forall x :: x in s'.mem.forgotten ==> x in s.client.done)
      && s.mem.forgotten <= s'.mem.forgotten
  {
    var s' := Apply(s, Arrive(q));
    assert ReqOk(s.client, q);
    CheckUpdates(s.mem, q.xid, q.xidRep);
    forall p | p in s'.reps ensures RepOk(s'.mem, s'.h, p) {
      if p in s.reps { assert RepOk(s.mem, s.h, p); }
    }
    forall r, d | r in s'.h.arrived && d in s'.h.answered && d <= r.xidRep ensures d in s'.mem.forgotten {
      assert Known(s.mem, d);
    }
    forall x | x in s'.mem.forgotten && x !in s.mem.forgotten ensures x in s.client.done { KnownIsIssued(s, x); }
  }

  lemma KnownIsIssued(s: State, x: nat)
    requires Inv(s) && Known(s.mem, x)
    ensures 1 <= x < s.client.next
  {
    var q :| q in s.h.arrived && q.xid == x;
    assert ReqOk(s.client, q);
  }

  lemma ArriveKeeps(s: State, q: Req)
    requires Inv(s) && q in s.reqs
    ensures Inv(Apply(s, Arrive(q)))
  {
    var s' := Apply(s, Arrive(q));
    ArriveServer(s, q);
    ArriveMessages(s, q);
    forall x | x in s'.client.calls ensures CallOk(s'.client, s'.reqs, s'.h, x) {
      assert CallOk(s.client, s.reqs, s.h, x);
    }
    forall k | HasArrived(s.h, k) ensures HasArrived(s'.h, k) {
      var r :| r in s.h.arrived && r.xidRep == k;
      assert r in s'.h.arrived;
    }
    forall r | r in s'.reqs ensures ReqOk(s'.client, r) { assert ReqOk(s.client, r); }
    forall x | x in s.h.answered ensures Known(s'.mem, x) {
      assert Known(s.mem, x) && s'.h.started[x] >= s.h.started[x];
    }
  }

  lemma CompleteKeeps(s: State, x: nat, out: Out)
    requires Inv(s) && Enabled(s, Complete(x, out))
    ensures Inv(Apply(s, Complete(x, out)))
  {
    var s' := Apply(s, Complete(x, out));
    AddReplyUpdates(s.mem, x, out);
    forall y: nat ensures Known(s'.mem, y) == Known(s.mem, y) {}
    assert ServerOk(s'.mem, s'.h);
    forall p | p in s'.reps ensures RepOk(s'.mem, s'.h, p) {
      if p in s.reps { assert RepOk(s.mem, s.h, p); }
    }
    forall y | y in s'.client.calls ensures CallOk(s'.client, s'.reqs, s'.h, y) {
      assert CallOk(s.client, s.reqs, s.h, y);
    }
    forall q | q in s'.reqs ensures ReqOk(s'.client, q) { assert ReqOk(s.client, q); }
    forall k | HasArrived(s.h, k) ensures HasArrived(s'.h, k) {}
  }

  lemma DoneGrows(s: State, c': Client, h': Hist, x: nat)
    requires Inv(s) && c'.done == s.client.done + {x} && c'.next == s.client.next
    requires x < s.client.next
    requires forall y :: y in c'.calls ==> CallOk(c', s.reqs, h', y)
    ensures ClientOk(c', s.reqs, h')
  {
    forall q | q in s.reqs ensures ReqOk(c', q) { assert ReqOk(s.client, q); }
  }

  /** A reply can only be for a call the client has made, and if the call is waiting it is the call's output. */
  lemma ReplyFits(s: State, p: Rep)
    requires Inv(s) && p in s.reps
    ensures p.xid < s.client.next && Known(s.mem, p.xid)
    ensures Waiting(s.client, p.xid) ==> p.xid in s.h.outputs && p.reply == Success(s.h.outputs[p.xid])
  {
    assert RepOk(s.mem, s.h, p);
    assert Known(s.mem, p.xid);
    var q :| q in s.h.arrived && q.xid == p.xid;
    assert ReqOk(s.client, q);
    if Waiting(s.client, p.xid) { assert CallOk(s.client, s.reqs, s.h, p.xid); }
  }

  lemma ReceiveKeeps(s: State, p: Rep)
    requires Inv(s) && p in s.reps
    ensures Inv(Apply(s, Receive(p)))
  {
    var s' := Apply(s, Receive(p));
    ReplyFits(s, p);
    forall y | y in s'.client.calls ensures CallOk(s'.client, s.reqs, s'.h, y) {
      assert CallOk(s.client, s.reqs, s.h, y);
    }
    DoneGrows(s, s'.client, s'.h, p.xid);
    if Waiting(s.client, p.xid) {
      assert CallOk(s.client, s.reqs, s.h, p.xid);
      forall q | q in s.reqs ensures q.xidRep < p.xid { assert ReqOk(s.client, q); }
    }
    forall r | r in s'.reps ensures RepOk(s'.mem, s'.h, r) { assert RepOk(s.mem, s.h, r); }
    forall k | HasArrived(s.h, k) ensures HasArrived(s'.h, k) {}
  }

  lemma LeaveKeeps(s: State, x: nat, lossy: bool)
    requires Inv(s) && x in s.client.calls
    ensures Inv(Apply(s, Leave(x, lossy)))
  {
    var s' := Apply(s, Leave(x, lossy));
    assert CallOk(s.client, s.reqs, s.h, x);
    forall y | y in s'.client.calls ensures CallOk(s'.client, s.reqs, s'.h, y) {
      assert CallOk(s.client, s.reqs, s.h, y);
    }
    DoneGrows(s, s'.client, s'.h, x);
    forall p | p in s'.reps ensures RepOk(s'.mem, s'.h, p) { assert RepOk(s.mem, s.h, p); }
    if s.client.calls[x].result.Some? {
      assert Known(s.mem, x);
      var q :| q in s.h.arrived && q.xid == x;
      assert q.xidRep == s.client.calls[x].xidRep;
    }
  }

  /** When the kept request is due to be resent, the server has already forgotten that call. */
  lemma StaleIsForgotten(s: State)
    requires Inv(s) && StaleDue(s.client)
    ensures s.client.dup.value in s.mem.forgotten
  {
  }

  lemma BookkeepingKeeps(s: State, e: Event)
    requires Inv(s) && Enabled(s, e) && (e.Record? || e.Resend?)
    ensures Inv(Apply(s, e))
  {
    var s' := Apply(s, e);
    forall q | q in s'.reqs ensures ReqOk(s'.client, q) { assert ReqOk(s.client, q); }
    forall y | y in s'.client.calls ensures CallOk(s'.client, s'.reqs, s'.h, y) {
      assert CallOk(s.client, s.reqs, s.h, y);
    }
    forall p | p in s'.reps ensures RepOk(s'.mem, s'.h, p) { assert RepOk(s.mem, s.h, p); }
    if e.Resend? { StaleIsForgotten(s); }
    forall k | HasArrived(s.h, k) ensures HasArrived(s'.h, k) {}
  }

  lemma EventKeeps(s: State, e: Event)
    requires Inv(s) && Enabled(s, e)
    ensures Inv(Apply(s, e))
  {
    match e
    case Issue(arg) => IssueKeeps(s, arg);
    case Arrive(q) => ArriveKeeps(s, q);
    case Complete(x, out) => CompleteKeeps(s, x, out);
    case Receive(p) => ReceiveKeeps(s, p);
    case Leave(x, lossy) => LeaveKeeps(s, x, lossy);
    case Record(_) => BookkeepingKeeps(s, e);
    case Resend => BookkeepingKeeps(s, e);
  }

  lemma InitOk()
    ensures Inv(INIT)
  {
  }

  lemma {:induction false} RunKeeps(run: Run)
    requires Legal(run)
    ensures Inv(Last(run))
  {
    match run
    case Begin => InitOk();
    case Then(past, e) =>
      assert Follows(past, e);
      RunKeeps(past);
      EventKeeps(Last(past), e);
  }

  // ----- the main results

  /** The server starts the handler of a call at most once, whatever the network does, and keeps its lists apart. */
  lemma AtMostOnce(run: Run)
    requires Legal(run)
    ensures forall x: nat :: Last(run).h.started[x] <= 1
    ensures Tidy(Last(run).mem)
  {
    RunKeeps(run);
  }

  /** A call that got a reply got the output of its one execution, never a failure. */
  lemma RepliesAreOutputs(run: Run, x: nat, r: Reply)
    requires Legal(run) && x in Last(run).client.calls && Last(run).client.calls[x].result == Some(r)
    ensures x in Last(run).h.outputs && r == Success(Last(run).h.outputs[x]) && Last(run).h.started[x] == 1
  {
    RunKeeps(run);
    var s := Last(run);
    assert CallOk(s.client, s.reqs, s.h, x);
  }

  /** While a call waits, no header acknowledges it, the server has not forgotten it, and no failure for it exists. */
  lemma PendingNeverForgotten(run: Run, x: nat)
    requires Legal(run) && Waiting(Last(run).client, x)
    ensures forall q :: q in Last(run).reqs ==> q.xidRep < x
    ensures x !in Last(run).mem.forgotten && Rep(x, Forgotten) !in Last(run).reps
  {
    RunKeeps(run);
    var s := Last(run);
    assert CallOk(s.client, s.reqs, s.h, x);
    forall q | q in s.reqs ensures q.xidRep < x {
      assert ReqOk(s.client, q);
    }
    assert Rep(x, Forgotten) in s.reps ==> RepOk(s.mem, s.h, Rep(x, Forgotten));
  }

  /** The deliberately resent request is classified as forgotten however late it arrives, and nobody waits for it. */
  lemma ResentIsForgotten(run: Run, x: nat, q: Req)
    requires Legal(run) && x in Last(run).h.resent && q in Last(run).reqs && q.xid == x
    ensures Check(Last(run).mem, x, q.xidRep).1.TooOld?
    ensures !Waiting(Last(run).client, x)
  {
    RunKeeps(run);
    var s := Last(run);
    assert ReqOk(s.client, q);
    CheckUpdates(s.mem, x, q.xidRep);
    if x in s.client.calls { assert CallOk(s.client, s.reqs, s.h, x); }
  }
}
