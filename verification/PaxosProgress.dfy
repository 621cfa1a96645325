/** A Paxos instance can always be decided: by any node, with any majority of the nodes. */
module PaxosProgress {
  import opened Ballots
  import opened Acceptors
  import opened Options
  import opened Proposers
  import opened Paxos
  import opened PaxosSteps
  import opened PaxosRounds

  /** A run that obeys the rules, continues `from` and ends in `t`. */
  ghost predicate Reaches(c: Config, from: Run, run: Run, t: State) {
    Legal(STRICT, c, run) && Last(c, run) == t && Continues(from, run)
  }

  /** One more event. */
  lemma Go(c: Config, from: Run, run: Run, t: State, e: Event) returns (run': Run, t': State)
    requires Reaches(c, from, run, t) && Enabled(c, t, e) && Obeys(STRICT, c, t, e)
    ensures Reaches(c, from, run', t') && t' == Apply(c, t, e)
  {
    t' := Apply(c, t, e);
    run' := Take(STRICT, c, run, t, e, t');
    ContinuesOn(from, run, run');
  }

  // ----- giving up a run, and getting a higher ballot

  function Rank(ph: Phase): nat {
    match ph
    case Idle => 0
    case Deciding(_, _, _) => 1
    case Accepting(_, _, _, _) => 2
    case Preparing(_, _, _) => 3
  }

  /** A proposer that gets no more answers becomes idle; no acceptor notices. */
  lemma {:induction false} Rest(c: Config, from: Run, run: Run, t: State, p: Node) returns (run': Run, t': State)
    requires Reaches(c, from, run, t) && p in t.prop
    ensures Reaches(c, from, run', t') && t'.acc == t.acc && p in t'.prop
    ensures t'.prop[p].phase.Idle? && t'.prop[p].myN == t.prop[p].myN
    decreases Rank(t.prop[p].phase),
              if Calling(c, t.prop[p].phase) then |Callees(c, t.prop[p].phase)| - t.prop[p].phase.i else 0
  {
    run', t' := run, t;
    if Calling(c, t.prop[p].phase) {
      run', t' := Go(c, from, run, t, GiveUp(p));
      run', t' := Rest(c, from, run', t', p);
    } else if !t.prop[p].phase.Idle? {
      run', t' := Go(c, from, run, t, Finish(p));
      run', t' := Rest(c, from, run', t', p);
    }
  }

  /** Starting over often enough gives a ballot as high as wanted. */
  lemma {:induction false} Outbid(c: Config, from: Run, run: Run, t: State, p: Node, newv: Value, high: nat)
    returns (run': Run, t': State)
    requires Reaches(c, from, run, t) && p in t.prop && p in t.acc && t.prop[p].phase.Idle? && newv != ""
    ensures Reaches(c, from, run', t') && t'.acc == t.acc && p in t'.prop && t'.prop[p].myN.n > high
    ensures t'.prop[p].phase == Preparing(newv, 0, EMPTY_TALLY)
    decreases high - t.prop[p].myN.n
  {
    run', t' := Go(c, from, run, t, Start(p, newv));
    if t'.prop[p].myN.n <= high {
      run', t' := Rest(c, from, run', t', p);
      run', t' := Outbid(c, from, run', t', p, newv, high);
    }
  }

  // ----- the prepare loop

  /** All undecided; `p` prepares ballot `b` and has the promises of `t.accepts`, among them all of `q` it has asked. */
  ghost predicate Gathers(c: Config, t: State, p: Node, b: Ballot, q: seq<Node>, newv: Value, i: nat) {
    && p in t.prop && p in t.acc && t.prop[p].myN == b && t.prop[p].phase.Preparing?
    && t.prop[p].phase.newv == newv && t.prop[p].phase.i == i <= |c.nodes|
    && (forall x :: x in t.acc ==> t.acc[x].instanceH < c.instance)
    && (forall x :: x in q ==> x in t.acc && (x in t.prop[p].phase.t.accepts || t.acc[x].nH.n < b.n))
    && (forall x :: x in t.prop[p].phase.t.accepts ==> x in t.acc && t.acc[x].nH == b)
    && (forall j :: 0 <= j < i && c.nodes[j] in q ==> c.nodes[j] in t.prop[p].phase.t.accepts)
  }

  lemma GatherOne(c: Config, from: Run, run: Run, t: State, p: Node, b: Ballot, q: seq<Node>, newv: Value, i: nat)
    returns (run': Run, t': State)
    requires Reaches(c, from, run, t) && Gathers(c, t, p, b, q, newv, i) && i < |c.nodes|
    ensures Reaches(c, from, run', t') && Gathers(c, t', p, b, q, newv, i + 1)
  {
    var x := c.nodes[i];
    if x in q && x !in t.prop[p].phase.t.accepts {
      CounterFirst(b, t.acc[x].nH);
      run', t' := PromiseRound(STRICT, c, run, t, p);
      ContinuesOn(from, run, run');
    } else {
      run', t' := Go(c, from, run, t, GiveUp(p));
    }
  }

  lemma {:induction false} Gather(
    c: Config, from: Run, run: Run, t: State, p: Node, b: Ballot, q: seq<Node>, newv: Value, i: nat)
    returns (run': Run, t': State)
    requires Reaches(c, from, run, t) && Gathers(c, t, p, b, q, newv, i)
    ensures Reaches(c, from, run', t') && Gathers(c, t', p, b, q, newv, |c.nodes|)
    decreases |c.nodes| - i
  {
    run', t' := run, t;
    if i < |c.nodes| {
      run', t' := GatherOne(c, from, run, t, p, b, q, newv, i);
      run', t' := Gather(c, from, run', t', p, b, q, newv, i + 1);
    }
  }

  lemma {:induction false} CountGrows(nodes: seq<string>, l1: seq<string>, l2: seq<string>)
    requires forall j :: 0 <= j < |nodes| && nodes[j] in l1 ==> nodes[j] in l2
    ensures Count(nodes, l1) <= Count(nodes, l2)
  {
    if nodes != [] { CountGrows(nodes[..|nodes| - 1], l1, l2); }
  }

  // ----- the accept loop

  /** `p` has been promised ballot `b` by all targets, and granted it by the first `i`. */
  ghost predicate Persuades(c: Config, t: State, p: Node, b: Ballot, v: Value, targets: seq<Node>, i: nat) {
    && p in t.prop && p in t.acc && t.prop[p].myN == b && i <= |targets|
    && t.prop[p].phase == Accepting(v, targets, i, targets[..i])
    && (forall x :: x in targets ==> x in t.acc && t.acc[x].instanceH < c.instance && t.acc[x].nH == b)
    && (forall x :: x in targets[..i] ==> t.acc[x].vA == v)
  }

  lemma PersuadeOne(c: Config, from: Run, run: Run, t: State, p: Node, b: Ballot, v: Value, targets: seq<Node>, i: nat)
    returns (run': Run, t': State)
    requires Reaches(c, from, run, t) && Persuades(c, t, p, b, v, targets, i) && i < |targets|
    ensures Reaches(c, from, run', t') && Persuades(c, t', p, b, v, targets, i + 1)
  {
    BallotOrder(b, b, b);
    run', t' := AckRound(STRICT, c, run, t, p);
    ContinuesOn(from, run, run');
    assert targets[..i + 1] == targets[..i] + [targets[i]];
  }

  lemma {:induction false} Persuade(
    c: Config, from: Run, run: Run, t: State, p: Node, b: Ballot, v: Value, targets: seq<Node>, i: nat)
    returns (run': Run, t': State)
    requires Reaches(c, from, run, t) && Persuades(c, t, p, b, v, targets, i)
    ensures Reaches(c, from, run', t') && Persuades(c, t', p, b, v, targets, |targets|)
    decreases |targets| - i
  {
    run', t' := run, t;
    if i < |targets| {
      run', t' := PersuadeOne(c, from, run, t, p, b, v, targets, i);
      run', t' := Persuade(c, from, run', t', p, b, v, targets, i + 1);
    }
  }

  // ----- the decision

  ghost predicate SomeDecided(c: Config, t: State) {
    exists x, v :: Decided(c, t, x, v)
  }

  /** With all accepts in, one decide call is enough. */
  lemma Conclude(c: Config, from: Run, run: Run, t: State, p: Node, b: Ballot, v: Value, targets: seq<Node>)
    returns (run': Run, t': State)
    requires Reaches(c, from, run, t) && Persuades(c, t, p, b, v, targets, |targets|) && Majority(c.nodes, targets)
    ensures Reaches(c, from, run', t') && SomeDecided(c, t')
  {
    var x := QuorumMember(c.nodes, targets);
    assert targets[..|targets|] == targets;
    run', t' := Go(c, from, run, t, Finish(p));
    RunKeeps(c, run');
    assert AccOk(c, t'.h.net, targets[0], t'.acc[targets[0]]);
    var mid := run';
    run', t' := DecideRound(STRICT, c, mid, t', p);
    ContinuesOn(from, mid, run');
    assert Decided(c, t', targets[0], v);
  }

  /** From promises to a decision. */
  lemma Lead(c: Config, from: Run, run: Run, t: State, p: Node, b: Ballot, q: seq<Node>, newv: Value)
    returns (run': Run, t': State)
    requires Reaches(c, from, run, t) && Gathers(c, t, p, b, q, newv, |c.nodes|) && Majority(c.nodes, q)
    ensures Reaches(c, from, run', t') && SomeDecided(c, t')
  {
    var targets, v := t.prop[p].phase.t.accepts, Chooses(t.prop[p].phase.t, newv);
    CountGrows(c.nodes, q, targets);
    run', t' := Go(c, from, run, t, Finish(p));
    run', t' := Persuade(c, from, run', t', p, b, v, targets, 0);
    run', t' := Conclude(c, from, run', t', p, b, v, targets);
  }

  /** A bound on the promises given so far. */
  lemma {:induction false} Highest(t: State, q: seq<Node>) returns (high: nat)
    requires forall x :: x in q ==> x in t.acc
    ensures forall x :: x in q ==> t.acc[x].nH.n <= high
  {
    if q == [] {
      high := 0;
    } else {
      high := Highest(t, q[1..]);
      if t.acc[q[0]].nH.n > high { high := t.acc[q[0]].nH.n; }
    }
  }

  /**
   * From every reachable state, any node can still bring about a decision, if a majority of the nodes answers and all
   * other nodes stay silent for good.
   */
  lemma CanDecide(c: Config, run: Run, p: Node, q: seq<Node>, newv: Value) returns (run': Run)
    requires Legal(STRICT, c, run) && p in Last(c, run).acc && newv != ""
    requires Majority(c.nodes, q) && forall x :: x in q ==> x in Last(c, run).acc
    ensures Legal(STRICT, c, run') && Continues(run, run') && SomeDecided(c, Last(c, run'))
  {
    var t := Last(c, run);
    RunKeeps(c, run);
    run' := run;
    if forall x :: x in t.acc ==> t.acc[x].instanceH < c.instance {
      var high := Highest(t, q);
      run', t := Rest(c, run, run, t, p);
      run', t := Outbid(c, run, run', t, p, newv, high);
      run', t := Gather(c, run, run', t, p, t.prop[p].myN, q, newv, 0);
      run', t := Lead(c, run, run', t, p, t.prop[p].myN, q, newv);
    } else {
      var x :| x in t.acc && t.acc[x].instanceH >= c.instance;
      assert Decided(c, t, x, ValueAt(t.acc[x], c.instance));
    }
  }
}
