/** One call of a proposer at a time: sent, served and answered. */
module PaxosRounds {
  import opened Ballots
  import opened Acceptors
  import opened Options
  import opened Proposers
  import opened Paxos

  predicate Hop(r: Rules, c: Config, t: State, e: Event, t': State) {
    Enabled(c, t, e) && Obeys(r, c, t, e) && Apply(c, t, e) == t'
  }

  lemma Take(r: Rules, c: Config, run: Run, t: State, e: Event, t': State) returns (run': Run)
    requires Legal(r, c, run) && Last(c, run) == t && Hop(r, c, t, e, t')
    ensures Legal(r, c, run') && Last(c, run') == t' && Continues(run, run')
  {
    run' := Then(run, e);
  }

  lemma {:induction false} ContinuesOn(a: Run, b: Run, later: Run)
    requires Continues(a, b) && Continues(b, later)
    ensures Continues(a, later)
  {
    if b != later { ContinuesOn(a, b, later.past); }
  }

  predicate CanCall(c: Config, t: State, p: Node) {
    && p in t.prop && p in t.acc && Calling(c, t.prop[p].phase)
    && Callees(c, t.prop[p].phase)[t.prop[p].phase.i] in t.acc
  }

  function Callee(c: Config, t: State, p: Node): Node
    requires CanCall(c, t, p)
  {
    Callees(c, t.prop[p].phase)[t.prop[p].phase.i]
  }

  function Sent(c: Config, t: State, p: Node): State
    requires CanCall(c, t, p)
  {
    t.(h := Post(t.h, {CallMsg(c, t.prop[p])}))
  }

  // ----- one prepare call that ends in a promise

  function Promised(c: Config, t: State, p: Node): State
    requires CanCall(c, t, p) && t.prop[p].phase.Preparing?
  {
    var to, pr, u := Callee(c, t, p), t.prop[p], Sent(c, t, p);
    var a := t.acc[to];
    State(t.acc[to := a.(nH := pr.myN, log := a.log + [PropSeen(pr.myN)])], t.prop,
          Post(u.h, {PromiseMsg(pr.myN, pr.run, to, a.nA, a.vA)}))
  }

  function AfterPromise(c: Config, t: State, p: Node): State
    requires CanCall(c, t, p) && t.prop[p].phase.Preparing?
  {
    var to, pr, u := Callee(c, t, p), t.prop[p], Promised(c, t, p);
    var a := t.acc[to];
    u.(prop := t.prop[p := pr.(phase := Preparing(pr.phase.newv, pr.phase.i + 1, Adopt(pr.phase.t, to, a.nA, a.vA)))])
  }

  lemma PromiseHops(r: Rules, c: Config, t: State, p: Node)
    requires CanCall(c, t, p) && t.prop[p].phase.Preparing?
    requires t.acc[Callee(c, t, p)].instanceH < c.instance && Gt(t.prop[p].myN, t.acc[Callee(c, t, p)].nH)
    ensures Hop(r, c, Sent(c, t, p), Deliver(CallMsg(c, t.prop[p])), Promised(c, t, p))
    ensures var a := t.acc[Callee(c, t, p)];
      var m := PromiseMsg(t.prop[p].myN, t.prop[p].run, Callee(c, t, p), a.nA, a.vA);
      Hop(r, c, Promised(c, t, p), Receive(p, m), AfterPromise(c, t, p))
  {
  }

  lemma PromiseRound(r: Rules, c: Config, run: Run, t: State, p: Node) returns (run': Run, t': State)
    requires Legal(r, c, run) && Last(c, run) == t && CanCall(c, t, p) && t.prop[p].phase.Preparing?
    requires t.acc[Callee(c, t, p)].instanceH < c.instance && Gt(t.prop[p].myN, t.acc[Callee(c, t, p)].nH)
    ensures t' == AfterPromise(c, t, p) && Legal(r, c, run') && Last(c, run') == t' && Continues(run, run')
  {
    var a := t.acc[Callee(c, t, p)];
    PromiseHops(r, c, t, p);
    var one := Take(r, c, run, t, Send(p), Sent(c, t, p));
    var two := Take(r, c, one, Sent(c, t, p), Deliver(CallMsg(c, t.prop[p])), Promised(c, t, p));
    t' := AfterPromise(c, t, p);
    var m := PromiseMsg(t.prop[p].myN, t.prop[p].run, Callee(c, t, p), a.nA, a.vA);
    run' := Take(r, c, two, Promised(c, t, p), Receive(p, m), t');
    ContinuesOn(run, one, two);
    ContinuesOn(run, two, run');
  }

  // ----- one accept call that is granted

  function Accepted(c: Config, t: State, p: Node): State
    requires CanCall(c, t, p) && t.prop[p].phase.Accepting?
  {
    var to, pr, u := Callee(c, t, p), t.prop[p], Sent(c, t, p);
    var a := t.acc[to];
    State(t.acc[to := a.(nA := pr.myN, vA := pr.phase.v, log := a.log + [AcceptedProp(pr.myN, pr.phase.v)])], t.prop,
          Post(u.h, {AckMsg(pr.myN, to)}))
  }

  function AfterAck(c: Config, t: State, p: Node): State
    requires CanCall(c, t, p) && t.prop[p].phase.Accepting?
  {
    var to, pr, u := Callee(c, t, p), t.prop[p], Accepted(c, t, p);
    u.(prop := t.prop[p := pr.(phase := Accepting(pr.phase.v, pr.phase.targets, pr.phase.i + 1, pr.phase.acks + [to]))])
  }

  lemma AckHops(r: Rules, c: Config, t: State, p: Node)
    requires CanCall(c, t, p) && t.prop[p].phase.Accepting? && Ge(t.prop[p].myN, t.acc[Callee(c, t, p)].nH)
    requires r.timely ==> t.acc[Callee(c, t, p)].instanceH < c.instance
    ensures Hop(r, c, Sent(c, t, p), Deliver(CallMsg(c, t.prop[p])), Accepted(c, t, p))
    ensures Hop(r, c, Accepted(c, t, p), Receive(p, AckMsg(t.prop[p].myN, Callee(c, t, p))), AfterAck(c, t, p))
  {
  }

  lemma AckRound(r: Rules, c: Config, run: Run, t: State, p: Node) returns (run': Run, t': State)
    requires Legal(r, c, run) && Last(c, run) == t && CanCall(c, t, p) && t.prop[p].phase.Accepting?
    requires Ge(t.prop[p].myN, t.acc[Callee(c, t, p)].nH)
    requires r.timely ==> t.acc[Callee(c, t, p)].instanceH < c.instance
    ensures t' == AfterAck(c, t, p) && Legal(r, c, run') && Last(c, run') == t' && Continues(run, run')
  {
    AckHops(r, c, t, p);
    var one := Take(r, c, run, t, Send(p), Sent(c, t, p));
    var two := Take(r, c, one, Sent(c, t, p), Deliver(CallMsg(c, t.prop[p])), Accepted(c, t, p));
    t' := AfterAck(c, t, p);
    run' := Take(r, c, two, Accepted(c, t, p), Receive(p, AckMsg(t.prop[p].myN, Callee(c, t, p))), t');
    ContinuesOn(run, one, two);
    ContinuesOn(run, two, run');
  }

  // ----- one decide call

  function AfterDecide(c: Config, t: State, p: Node): State
    requires CanCall(c, t, p) && t.prop[p].phase.Deciding?
  {
    Sent(c, t, p).(acc := t.acc[Callee(c, t, p) := Decide(t.acc[Callee(c, t, p)], c.instance)])
  }

  lemma DecideRound(r: Rules, c: Config, run: Run, t: State, p: Node) returns (run': Run, t': State)
    requires Legal(r, c, run) && Last(c, run) == t && CanCall(c, t, p) && t.prop[p].phase.Deciding?
    ensures t' == AfterDecide(c, t, p) && Legal(r, c, run') && Last(c, run') == t' && Continues(run, run')
  {
    var one := Take(r, c, run, t, Send(p), Sent(c, t, p));
    t' := AfterDecide(c, t, p);
    run' := Take(r, c, one, Sent(c, t, p), Deliver(CallMsg(c, t.prop[p])), t');
    ContinuesOn(run, one, run');
  }
}
