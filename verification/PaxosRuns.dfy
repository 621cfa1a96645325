/** Runs of Paxos.dfy showing that neither rule of `Rules` can be dropped: without it two nodes decide differently. */
module PaxosRuns {
  import opened Ballots
  import opened Acceptors
  import opened Options
  import opened Proposers
  import opened Paxos
  import opened PaxosSafety
  import opened PaxosRounds

  // ----- three nodes

  /** Any three distinct nodes. */
  datatype Names = Names(x: Node, y: Node, z: Node)

  predicate Distinct(k: Names) {
    k.x != k.y && k.y != k.z && k.x != k.z
  }

  predicate Member(k: Names, q: Node) {
    q == k.x || q == k.y || q == k.z
  }

  function Trio(k: Names): Config {
    Config(1, [k.x, k.y, k.z])
  }

  lemma TrioMajority(k: Names, list: seq<Node>, p: Node, q: Node)
    requires Distinct(k) && p != q && Member(k, p) && Member(k, q) && p in list && q in list
    ensures Majority(Trio(k).nodes, list)
  {
    var n := Trio(k).nodes;
    assert n[..2] == [k.x, k.y] && n[..2][..1] == [k.x];
    assert Count(n, list) == Count(n[..2], list) + if k.z in list then 1 else 0;
    assert Count(n[..2], list) == Count(n[..2][..1], list) + if k.y in list then 1 else 0;
    assert Count([k.x], list) == if k.x in list then 1 else 0;
  }

  predicate Shape(k: Names, t: State) {
    Distinct(k) && t.acc.Keys == t.prop.Keys == {k.x, k.y, k.z}
  }

  /** A legal run over the three nodes that ends in `t`. */
  ghost predicate At(r: Rules, k: Names, run: Run, t: State) {
    Shape(k, t) && Legal(r, Trio(k), run) && Last(Trio(k), run) == t
  }

  /** Node `a` is undecided, has promised `nH` last and has accepted no value. */
  predicate Open(t: State, a: Node, nH: Ballot) {
    a in t.acc && t.acc[a].me == a && t.acc[a].instanceH == 0 && t.acc[a].nH == nH && t.acc[a].vA == ""
  }

  /** Node `a` is undecided, and has promised and accepted `b` with value `v`. */
  predicate Holds(t: State, a: Node, b: Ballot, v: Value) {
    && a in t.acc && t.acc[a].me == a && t.acc[a].instanceH == 0
    && t.acc[a].nH == b && t.acc[a].nA == b && t.acc[a].vA == v
  }

  /** Node `a` has decided `v` and forgotten its promise. */
  predicate Settled(k: Names, t: State, a: Node, v: Value) {
    Decided(Trio(k), t, a, v) && t.acc[a].nH == Ballot(0, a) && t.acc[a].instanceH == 1
  }

  /** `p` has collected promises from `accepts`, none with a value, in the first `i` calls. */
  predicate Tallied(t: State, p: Node, b: Ballot, newv: Value, i: nat, accepts: seq<Node>) {
    && p in t.prop && t.prop[p].myN == b && t.prop[p].phase.Preparing? && t.prop[p].phase.newv == newv
    && t.prop[p].phase.i == i && t.prop[p].phase.t.accepts == accepts && t.prop[p].phase.t.v == ""
  }

  function Fresh(k: Names): State {
    State(map[k.x := Blank(k.x), k.y := Blank(k.y), k.z := Blank(k.z)],
          map[k.x := Resting(k.x), k.y := Resting(k.y), k.z := Resting(k.z)],
          Hist({}, 0, {}))
  }

  function Resting(p: Node): Prop {
    Prop(Ballot(0, p), 0, Idle)
  }

  lemma FreshLegal(r: Rules, k: Names)
    requires Distinct(k)
    ensures At(r, k, Begin(Fresh(k)), Fresh(k))
  {
  }

  lemma Launch(r: Rules, k: Names, run0: Run, t0: State, p: Node, v: Value) returns (run: Run, t: State)
    requires At(r, k, run0, t0) && p in t0.prop && t0.prop[p].phase.Idle? && (r.filled ==> v != "")
    ensures At(r, k, run, t) && t.acc == t0.acc && t.prop == t0.prop[p := t.prop[p]]
    ensures Tallied(t, p, NextBallot(p, t0.prop[p].myN, t0.acc[p].nH), v, 0, [])
  {
    t := Apply(Trio(k), t0, Start(p, v));
    run := Take(r, Trio(k), run0, t0, Start(p, v), t);
  }

  /** `p` gets one more promise, from node `q`, which has accepted no value. */
  lemma Gain(
    r: Rules, k: Names, run0: Run, t0: State, p: Node, b: Ballot, v: Value, i: nat, accepts: seq<Node>, q: Node)
    returns (run: Run, t: State)
    requires At(r, k, run0, t0) && Tallied(t0, p, b, v, i, accepts) && i < 3 && Trio(k).nodes[i] == q
    requires Open(t0, q, t0.acc[q].nH) && Gt(b, t0.acc[q].nH)
    ensures At(r, k, run, t) && Tallied(t, p, b, v, i + 1, accepts + [q])
    ensures t.acc == t0.acc[q := t.acc[q]] && t.prop == t0.prop[p := t.prop[p]] && Open(t, q, b)
  {
    run, t := PromiseRound(r, Trio(k), run0, t0, p);
  }

  /** The current call of `p` gets no answer. */
  lemma Miss(r: Rules, k: Names, run0: Run, t0: State, p: Node) returns (run: Run, t: State)
    requires At(r, k, run0, t0) && p in t0.prop && Calling(Trio(k), t0.prop[p].phase)
    ensures At(r, k, run, t) && t == t0.(prop := t0.prop[p := t0.prop[p].(phase := Skipped(t0.prop[p].phase))])
  {
    t := t0.(prop := t0.prop[p := t0.prop[p].(phase := Skipped(t0.prop[p].phase))]);
    run := Take(r, Trio(k), run0, t0, GiveUp(p), t);
  }

  /** The prepare loop of `p` ends with the promises of `q1` and `q2`, none with a value. */
  lemma Elected(
    r: Rules, k: Names, run0: Run, t0: State, p: Node, b: Ballot, v: Value, accepts: seq<Node>, q1: Node, q2: Node)
    returns (run: Run, t: State)
    requires At(r, k, run0, t0) && Tallied(t0, p, b, v, 3, accepts)
    requires q1 != q2 && Member(k, q1) && Member(k, q2) && q1 in accepts && q2 in accepts
    ensures At(r, k, run, t) && t.acc == t0.acc
    ensures t.prop == t0.prop[p := Prop(b, t0.prop[p].run, Accepting(v, accepts, 0, []))]
  {
    TrioMajority(k, accepts, q1, q2);
    t := Apply(Trio(k), t0, Finish(p));
    run := Take(r, Trio(k), run0, t0, Finish(p), t);
  }

  /** One granted accept call to node `q`. */
  lemma Grant(r: Rules, k: Names, run0: Run, t0: State, p: Node, q: Node) returns (run: Run, t: State)
    requires At(r, k, run0, t0) && CanCall(Trio(k), t0, p) && t0.prop[p].phase.Accepting?
    requires Callee(Trio(k), t0, p) == q && Ge(t0.prop[p].myN, t0.acc[q].nH) && (r.timely ==> t0.acc[q].instanceH < 1)
    ensures At(r, k, run, t)
    ensures var pr := t0.prop[p];
      t.prop == t0.prop[p := pr.(phase := Accepting(pr.phase.v, pr.phase.targets, pr.phase.i + 1, pr.phase.acks + [q]))]
    ensures t.acc == t0.acc[q := t0.acc[q].(nA := t0.prop[p].myN, vA := t0.prop[p].phase.v, log := t.acc[q].log)]
  {
    run, t := AckRound(r, Trio(k), run0, t0, p);
  }

  /** The accept loop of `p` ends with the accepts of `q1` and `q2`. */
  lemma Carried(r: Rules, k: Names, run0: Run, t0: State, p: Node, q1: Node, q2: Node) returns (run: Run, t: State)
    requires At(r, k, run0, t0) && p in t0.prop && t0.prop[p].phase.Accepting? && t0.prop[p].phase.acks == [q1, q2]
    requires !Calling(Trio(k), t0.prop[p].phase) && q1 != q2 && Member(k, q1) && Member(k, q2)
    ensures At(r, k, run, t) && t.acc == t0.acc
    ensures t.prop == t0.prop[p := t0.prop[p].(phase := Deciding(t0.prop[p].phase.v, [q1, q2], 0))]
  {
    TrioMajority(k, [q1, q2], q1, q2);
    t := Apply(Trio(k), t0, Finish(p));
    run := Take(r, Trio(k), run0, t0, Finish(p), t);
  }

  /** The decide call to node `q`, which holds the value. */
  lemma Announce(r: Rules, k: Names, run0: Run, t0: State, p: Node, q: Node, b: Ballot, v: Value)
    returns (run: Run, t: State)
    requires At(r, k, run0, t0) && CanCall(Trio(k), t0, p) && t0.prop[p].phase.Deciding? && Callee(Trio(k), t0, p) == q
    requires Holds(t0, q, b, v)
    ensures At(r, k, run, t) && t.prop == t0.prop && t.acc == t0.acc[q := t.acc[q]] && Settled(k, t, q, v)
  {
    run, t := DecideRound(r, Trio(k), run0, t0, p);
  }

  /** One of the two accepts of `p`. */
  lemma OneGrant(
    r: Rules, k: Names, run0: Run, t0: State, p: Node, v: Value, targets: seq<Node>, i: nat, acks: seq<Node>)
    returns (run: Run, t: State)
    requires At(r, k, run0, t0) && p in t0.prop && t0.prop[p].phase == Accepting(v, targets, i, acks)
    requires i < |targets| && Member(k, targets[i]) && Open(t0, targets[i], t0.prop[p].myN)
    ensures At(r, k, run, t)
    ensures t.prop == t0.prop[p := t0.prop[p].(phase := Accepting(v, targets, i + 1, acks + [targets[i]]))]
    ensures Holds(t, targets[i], t0.prop[p].myN, v) && t.acc == t0.acc[targets[i] := t.acc[targets[i]]]
  {
    BallotOrder(t0.prop[p].myN, t0.prop[p].myN, t0.prop[p].myN);
    run, t := Grant(r, k, run0, t0, p, targets[i]);
  }

  /** `p`, promised by `q1` and `q2` alone, gets both accepts. */
  lemma BothGrant(r: Rules, k: Names, run0: Run, t0: State, p: Node, b: Ballot, v: Value, q1: Node, q2: Node)
    returns (run: Run, t: State)
    requires At(r, k, run0, t0) && p in t0.prop && q1 != q2 && Member(k, q1) && Member(k, q2)
    requires t0.prop[p].myN == b && t0.prop[p].phase == Accepting(v, [q1, q2], 0, [])
    requires Open(t0, q1, b) && Open(t0, q2, b)
    ensures At(r, k, run, t) && t.prop == t0.prop[p := t.prop[p]]
    ensures t.prop[p].phase == Accepting(v, [q1, q2], 2, [q1, q2])
    ensures Holds(t, q1, b, v) && Holds(t, q2, b, v)
    ensures t.acc == t0.acc[q1 := t.acc[q1]][q2 := t.acc[q2]]
  {
    run, t := OneGrant(r, k, run0, t0, p, v, [q1, q2], 0, []);
    assert t.prop[p].phase == Accepting(v, [q1, q2], 1, [q1]) && Open(t, q2, b);
    run, t := OneGrant(r, k, run, t, p, v, [q1, q2], 1, [q1]);
    assert [q1] + [q2] == [q1, q2];
  }

  /** The accept loop of `p` ends with both accepts, and `q1` decides. */
  lemma Conclude(r: Rules, k: Names, run0: Run, t0: State, p: Node, b: Ballot, v: Value, q1: Node, q2: Node)
    returns (run: Run, t: State)
    requires At(r, k, run0, t0) && p in t0.prop && q1 != q2 && Member(k, q1) && Member(k, q2)
    requires t0.prop[p].phase == Accepting(v, [q1, q2], 2, [q1, q2]) && Holds(t0, q1, b, v)
    ensures At(r, k, run, t) && t.prop == t0.prop[p := t.prop[p]] && t.acc == t0.acc[q1 := t.acc[q1]]
    ensures Settled(k, t, q1, v)
  {
    run, t := Carried(r, k, run0, t0, p, q1, q2);
    run, t := Announce(r, k, run, t, p, q1, b, v);
  }

  /** `p` gets both accepts, and `q1` decides. */
  lemma Win(r: Rules, k: Names, run0: Run, t0: State, p: Node, b: Ballot, v: Value, q1: Node, q2: Node)
    returns (run: Run, t: State)
    requires At(r, k, run0, t0) && p in t0.prop && q1 != q2 && Member(k, q1) && Member(k, q2)
    requires t0.prop[p].myN == b && t0.prop[p].phase == Accepting(v, [q1, q2], 0, [])
    requires Open(t0, q1, b) && Open(t0, q2, b)
    ensures At(r, k, run, t) && t.prop == t0.prop[p := t.prop[p]]
    ensures Settled(k, t, q1, v) && Holds(t, q2, b, v)
    ensures t.acc == t0.acc[q1 := t.acc[q1]][q2 := t.acc[q2]]
  {
    run, t := BothGrant(r, k, run0, t0, p, b, v, q1, q2);
    run, t := Conclude(r, k, run, t, p, b, v, q1, q2);
  }

  /** x starts the first run of all. */
  lemma FirstRun(r: Rules, k: Names, v: Value) returns (run: Run, t: State)
    requires Distinct(k) && (r.filled ==> v != "")
    ensures At(r, k, run, t) && Tallied(t, k.x, Ballot(1, k.x), v, 0, [])
    ensures t.acc[k.x] == Blank(k.x) && t.acc[k.y] == Blank(k.y) && t.acc[k.z] == Blank(k.z)
    ensures t.prop[k.y] == Resting(k.y)
  {
    FreshLegal(r, k);
    run, t := Launch(r, k, Begin(Fresh(k)), Fresh(k), k.x, v);
  }

  /** `p` gets the promises of x and y. */
  lemma TwoPromises(r: Rules, k: Names, run0: Run, t0: State, p: Node, b: Ballot, v: Value) returns (run: Run, t: State)
    requires At(r, k, run0, t0) && Tallied(t0, p, b, v, 0, [])
    requires Open(t0, k.x, t0.acc[k.x].nH) && Open(t0, k.y, t0.acc[k.y].nH)
    requires Gt(b, t0.acc[k.x].nH) && Gt(b, t0.acc[k.y].nH)
    ensures At(r, k, run, t) && Tallied(t, p, b, v, 2, [k.x, k.y])
    ensures t.prop == t0.prop[p := t.prop[p]] && Open(t, k.x, b) && Open(t, k.y, b) && t.acc[k.z] == t0.acc[k.z]
  {
    run, t := Gain(r, k, run0, t0, p, b, v, 0, [], k.x);
    run, t := Gain(r, k, run, t, p, b, v, 1, [k.x], k.y);
  }

  /** `p` gets the promises of x and y only, and sets out to ask them for its own value. */
  lemma PairElects(r: Rules, k: Names, run0: Run, t0: State, p: Node, b: Ballot, v: Value) returns (run: Run, t: State)
    requires At(r, k, run0, t0) && Tallied(t0, p, b, v, 0, [])
    requires Open(t0, k.x, t0.acc[k.x].nH) && Open(t0, k.y, t0.acc[k.y].nH)
    requires Gt(b, t0.acc[k.x].nH) && Gt(b, t0.acc[k.y].nH)
    ensures At(r, k, run, t) && t.prop == t0.prop[p := Prop(b, t.prop[p].run, Accepting(v, [k.x, k.y], 0, []))]
    ensures Open(t, k.x, b) && Open(t, k.y, b) && t.acc[k.z] == t0.acc[k.z]
  {
    run, t := TwoPromises(r, k, run0, t0, p, b, v);
    run, t := Miss(r, k, run, t, p);
    run, t := Elected(r, k, run, t, p, b, v, [k.x, k.y], k.x, k.y);
  }

  // ----- accepting after deciding

  const LAX := Rules(false, true)

  /** Everyone promises ballot 1 to x, which sets out to ask for "a". */
  lemma Favourite(k: Names) returns (run: Run, t: State)
    requires Distinct(k)
    ensures At(LAX, k, run, t)
    ensures var b := Ballot(1, k.x);
      && Open(t, k.x, b) && Open(t, k.y, b) && Open(t, k.z, b)
      && t.prop[k.x].myN == b && t.prop[k.x].phase == Accepting("a", [k.x, k.y, k.z], 0, [])
      && t.prop[k.y] == Resting(k.y)
  {
    var b := Ballot(1, k.x);
    run, t := FirstRun(LAX, k, "a");
    run, t := TwoPromises(LAX, k, run, t, k.x, b, "a");
    run, t := Gain(LAX, k, run, t, k.x, b, "a", 2, [k.x, k.y], k.z);
    run, t := Elected(LAX, k, run, t, k.x, b, "a", [k.x, k.y, k.z], k.x, k.y);
  }

  /** Then y outbids x at x and y, and x decides "b". */
  lemma Rival(k: Names) returns (run: Run, t: State)
    requires Distinct(k)
    ensures At(LAX, k, run, t) && Settled(k, t, k.x, "b")
    ensures Open(t, k.z, Ballot(1, k.x))
    ensures t.prop[k.x].myN == Ballot(1, k.x) && t.prop[k.x].phase == Accepting("a", [k.x, k.y, k.z], 0, [])
  {
    var b := Ballot(2, k.y);
    run, t := Favourite(k);
    run, t := Launch(LAX, k, run, t, k.y, "b");
    run, t := PairElects(LAX, k, run, t, k.y, b, "b");
    run, t := Win(LAX, k, run, t, k.y, b, "b", k.x, k.y);
  }

  /** x, though decided, grants its own stale request, and so does z. */
  lemma StaleGrants(k: Names) returns (run: Run, t: State)
    requires Distinct(k)
    ensures At(LAX, k, run, t) && Decided(Trio(k), t, k.x, "b") && Holds(t, k.z, Ballot(1, k.x), "a")
    ensures t.prop[k.x].phase == Accepting("a", [k.x, k.y, k.z], 3, [k.x, k.z])
  {
    run, t := Rival(k);
    run, t := Grant(LAX, k, run, t, k.x, k.x);
    run, t := Miss(LAX, k, run, t, k.x);
    run, t := Grant(LAX, k, run, t, k.x, k.z);
    assert [k.x] + [k.z] == [k.x, k.z];
  }

  /** A node that accepts after it has decided lets a stale proposer win a second, different decision. */
  lemma LateAcceptBreaksAgreement(k: Names) returns (run: Run)
    requires Distinct(k)
    ensures Legal(LAX, Trio(k), run)
    ensures Decided(Trio(k), Last(Trio(k), run), k.x, "b") && Decided(Trio(k), Last(Trio(k), run), k.z, "a")
  {
    var t: State;
    run, t := StaleGrants(k);
    run, t := Carried(LAX, k, run, t, k.x, k.x, k.z);
    run, t := Miss(LAX, k, run, t, k.x);
    run, t := Announce(LAX, k, run, t, k.x, k.z, Ballot(1, k.x), "a");
  }

  // ----- offering the empty value

  const HOLLOW := Rules(true, false)

  /** x gets the empty value accepted by x and y, and x decides it. */
  lemma EmptyWins(k: Names) returns (run: Run, t: State)
    requires Distinct(k)
    ensures At(HOLLOW, k, run, t) && Decided(Trio(k), t, k.x, "")
    ensures Open(t, k.y, Ballot(1, k.x)) && t.acc[k.z] == Blank(k.z) && t.prop[k.y] == Resting(k.y)
  {
    var b := Ballot(1, k.x);
    run, t := FirstRun(HOLLOW, k, "");
    run, t := PairElects(HOLLOW, k, run, t, k.x, b, "");
    run, t := Win(HOLLOW, k, run, t, k.x, b, "", k.x, k.y);
  }

  /** y is promised by itself and z, and sees no value in either promise. */
  lemma Overlooked(k: Names) returns (run: Run, t: State)
    requires Distinct(k)
    ensures var b := Ballot(2, k.y);
      && At(HOLLOW, k, run, t) && Decided(Trio(k), t, k.x, "")
      && Open(t, k.y, b) && Open(t, k.z, b) && Tallied(t, k.y, b, "b", 3, [k.y, k.z])
  {
    var b := Ballot(2, k.y);
    run, t := EmptyWins(k);
    run, t := Launch(HOLLOW, k, run, t, k.y, "b");
    run, t := Miss(HOLLOW, k, run, t, k.y);
    run, t := Gain(HOLLOW, k, run, t, k.y, b, "b", 1, [], k.y);
    run, t := Gain(HOLLOW, k, run, t, k.y, b, "b", 2, [k.y], k.z);
  }

  /** An accepted empty value looks like no value at all to the next proposer, which decides its own. */
  lemma EmptyValueBreaksAgreement(k: Names) returns (run: Run)
    requires Distinct(k)
    ensures Legal(HOLLOW, Trio(k), run)
    ensures Decided(Trio(k), Last(Trio(k), run), k.x, "") && Decided(Trio(k), Last(Trio(k), run), k.y, "b")
  {
    var b, t := Ballot(2, k.y), Fresh(k);
    run, t := Overlooked(k);
    run, t := Elected(HOLLOW, k, run, t, k.y, b, "b", [k.y, k.z], k.y, k.z);
    run, t := Win(HOLLOW, k, run, t, k.y, b, "b", k.y, k.z);
  }

  // ----- exactly the two rules

  /** No two nodes decide differently in any run that obeys the rules. */
  ghost predicate Agrees(r: Rules, c: Config) {
    forall run, x, y, v, w ::
      Legal(r, c, run) && Decided(c, Last(c, run), x, v) && Decided(c, Last(c, run), y, w) ==> v == w
  }

  /** A run that obeys the rules obeys weaker ones. */
  lemma {:induction false} WeakerRules(r: Rules, r': Rules, c: Config, run: Run)
    requires Legal(r, c, run) && (r'.timely ==> r.timely) && (r'.filled ==> r.filled)
    ensures Legal(r', c, run)
  {
    if run.Then? {
      assert Follows(r, c, run.past, run.e);
      WeakerRules(r, r', c, run.past);
      assert Follows(r', c, run.past, run.e);
    }
  }

  /**
   * Among three nodes, agreement holds in all runs if and only if no decided node accepts and no proposer offers
   * nothing.
   */
  lemma AgreementIffStrict(r: Rules, k: Names)
    requires Distinct(k)
    ensures Agrees(r, Trio(k)) <==> r == STRICT
  {
    if r == STRICT {
      forall run | Legal(r, Trio(k), run)
        ensures forall x, y, v, w ::
          Decided(Trio(k), Last(Trio(k), run), x, v) && Decided(Trio(k), Last(Trio(k), run), y, w) ==> v == w
      {
        Agreement(Trio(k), run);
      }
    } else if !r.timely {
      var run := LateAcceptBreaksAgreement(k);
      WeakerRules(LAX, r, Trio(k), run);
    } else {
      var run := EmptyValueBreaksAgreement(k);
      WeakerRules(HOLLOW, r, Trio(k), run);
    }
  }
}
