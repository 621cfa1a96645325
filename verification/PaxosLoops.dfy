/** The loops of the protocol in Paxos.dfy are the loops of `ProposerNode.Run`, fed with messages really sent. */
module PaxosLoops {
  import opened Ballots
  import opened Acceptors
  import opened Options
  import opened Proposers
  import opened Paxos

  /** Answers to the first calls of the prepare loop; every promise among them was sent to this run. */
  ghost predicate Heard(c: Config, net: set<Msg>, b: Ballot, run: nat, answers: seq<Answer>) {
    && |answers| <= |c.nodes|
    && forall j :: 0 <= j < |answers| && answers[j].Answer? ==>
         && answers[j].reply.Promise?
         && PromiseMsg(b, run, c.nodes[j], answers[j].reply.nA, answers[j].reply.vA) in net
  }

  ghost predicate HeardBy(c: Config, s: State, p: Node, answers: seq<Answer>)
    requires p in s.prop
  {
    Heard(c, s.h.net, s.prop[p].myN, s.prop[p].run, answers)
  }

  /** Grants of the first `i` calls of the accept loop, all of them really sent, and the list they add up to. */
  ghost predicate Accepts(net: set<Msg>, b: Ballot, targets: seq<Node>, i: nat, acks: seq<Node>, ok: nat -> bool) {
    && i <= |targets| && acks == Granting(targets[..i], ok)
    && forall j :: 0 <= j < i && ok(j) ==> AckMsg(b, targets[j]) in net
  }

  ghost predicate Prepares(c: Config, net: set<Msg>, b: Ballot, run: nat, i: nat, t: Tally, answers: seq<Answer>) {
    Heard(c, net, b, run, answers) && |answers| == i && HearAll(c.nodes[..i], answers) == Going(t)
  }

  /** The prepare loop is over, its outcome a majority and the value `v`. */
  ghost predicate Elects(
    c: Config, h: Hist, b: Ballot, run: nat, v: Value, targets: seq<Node>, newv: Value, answers: seq<Answer>)
  {
    && newv in h.offered && Heard(c, h.net, b, run, answers) && |answers| == |c.nodes|
    && HearAll(c.nodes, answers).Going? && HearAll(c.nodes, answers).t.accepts == targets
    && Majority(c.nodes, targets) && v == Chooses(HearAll(c.nodes, answers).t, newv)
  }

  ghost predicate PreparingOk(c: Config, h: Hist, b: Ballot, run: nat, newv: Value, i: nat, t: Tally) {
    newv in h.offered && exists answers :: Prepares(c, h.net, b, run, i, t, answers)
  }

  ghost predicate AcceptingOk(
    c: Config, h: Hist, b: Ballot, run: nat, v: Value, targets: seq<Node>, i: nat, acks: seq<Node>)
  {
    && (exists newv, answers :: Elects(c, h, b, run, v, targets, newv, answers))
    && exists ok :: Accepts(h.net, b, targets, i, acks, ok)
  }

  /** Where the run stands is where the code would stand, given some answers. */
  ghost predicate LoopOk(c: Config, h: Hist, pr: Prop) {
    match pr.phase
    case Idle => true
    case Preparing(newv, i, t) => PreparingOk(c, h, pr.myN, pr.run, newv, i, t)
    case Accepting(v, targets, i, acks) => AcceptingOk(c, h, pr.myN, pr.run, v, targets, i, acks)
    case Deciding(v, acks, _) =>
      exists newv, answers, targets, ok ::
        && Elects(c, h, pr.myN, pr.run, v, targets, newv, answers)
        && Accepts(h.net, pr.myN, targets, |targets|, acks, ok) && Majority(c.nodes, acks)
  }

  ghost predicate LoopsOk(c: Config, s: State) {
    forall p {:trigger LoopOk(c, s.h, s.prop[p])} :: p in s.prop ==> LoopOk(c, s.h, s.prop[p])
  }

  // ----- every event keeps this

  lemma LoopOkGrows(c: Config, h: Hist, h': Hist, pr: Prop)
    requires LoopOk(c, h, pr) && h.net <= h'.net && h.offered <= h'.offered
    ensures LoopOk(c, h', pr)
  {
    match pr.phase
    case Idle =>
    case Preparing(_, i, t) =>
      var answers :| Prepares(c, h.net, pr.myN, pr.run, i, t, answers);
      assert Prepares(c, h'.net, pr.myN, pr.run, i, t, answers);
    case Accepting(v, targets, i, acks) =>
      var newv, answers :| Elects(c, h, pr.myN, pr.run, v, targets, newv, answers);
      assert Elects(c, h', pr.myN, pr.run, v, targets, newv, answers);
      var ok :| Accepts(h.net, pr.myN, targets, i, acks, ok);
      assert Accepts(h'.net, pr.myN, targets, i, acks, ok);
    case Deciding(v, acks, _) =>
      var newv, answers, targets, ok :|
        Elects(c, h, pr.myN, pr.run, v, targets, newv, answers) && Accepts(h.net, pr.myN, targets, |targets|, acks, ok);
      assert Elects(c, h', pr.myN, pr.run, v, targets, newv, answers);
      assert Accepts(h'.net, pr.myN, targets, |targets|, acks, ok);
  }

  /** One more answer. */
  lemma HearOne(c: Config, net: set<Msg>, b: Ballot, run: nat, i: nat, t: Tally, answers: seq<Answer>, a: Answer)
    requires Prepares(c, net, b, run, i, t, answers) && i < |c.nodes|
    ensures HearAll(c.nodes[..i + 1], answers + [a]) == Hear(Going(t), c.nodes[i], a)
  {
    assert c.nodes[..i + 1][..i] == c.nodes[..i] && (answers + [a])[..i] == answers;
  }

  lemma PrepareOne(c: Config, net: set<Msg>, b: Ballot, run: nat, i: nat, t: Tally, answers: seq<Answer>, a: Answer)
    requires Prepares(c, net, b, run, i, t, answers) && i < |c.nodes|
    requires a.Answer? ==> a.reply.Promise? && PromiseMsg(b, run, c.nodes[i], a.reply.nA, a.reply.vA) in net
    ensures Prepares(c, net, b, run, i + 1, Hear(Going(t), c.nodes[i], a).t, answers + [a])
  {
    HearOne(c, net, b, run, i, t, answers, a);
  }

  lemma PrepareStep(c: Config, h: Hist, b: Ballot, run: nat, newv: Value, i: nat, t: Tally, a: Answer)
    requires PreparingOk(c, h, b, run, newv, i, t) && i < |c.nodes|
    requires a.Answer? ==> a.reply.Promise? && PromiseMsg(b, run, c.nodes[i], a.reply.nA, a.reply.vA) in h.net
    ensures PreparingOk(c, h, b, run, newv, i + 1, Hear(Going(t), c.nodes[i], a).t)
  {
    var answers :| Prepares(c, h.net, b, run, i, t, answers);
    PrepareOne(c, h.net, b, run, i, t, answers, a);
  }

  lemma {:induction false} GrantingDepends(nodes: seq<Node>, ok: nat -> bool, ok': nat -> bool)
    requires forall j :: 0 <= j < |nodes| ==> ok(j) == ok'(j)
    ensures Granting(nodes, ok) == Granting(nodes, ok')
  {
    if nodes != [] { GrantingDepends(nodes[..|nodes| - 1], ok, ok'); }
  }

  lemma GrantOne(net: set<Msg>, b: Ballot, targets: seq<Node>, i: nat, acks: seq<Node>, yes: bool, ok: nat -> bool)
    returns (ok': nat -> bool)
    requires Accepts(net, b, targets, i, acks, ok) && i < |targets| && (yes ==> AckMsg(b, targets[i]) in net)
    ensures Accepts(net, b, targets, i + 1, if yes then acks + [targets[i]] else acks, ok')
  {
    ok' := (j: nat) => if j == i then yes else ok(j);
    GrantingDepends(targets[..i], ok, ok');
    assert targets[..i + 1][..i] == targets[..i];
  }

  lemma AcceptStep(
    c: Config, h: Hist, b: Ballot, run: nat, v: Value, targets: seq<Node>, i: nat, acks: seq<Node>, yes: bool)
    requires AcceptingOk(c, h, b, run, v, targets, i, acks) && i < |targets|
    requires yes ==> AckMsg(b, targets[i]) in h.net
    ensures AcceptingOk(c, h, b, run, v, targets, i + 1, if yes then acks + [targets[i]] else acks)
  {
    var ok :| Accepts(h.net, b, targets, i, acks, ok);
    var ok' := GrantOne(h.net, b, targets, i, acks, yes, ok);
  }

  lemma FinishStep(c: Config, h: Hist, pr: Prop)
    requires LoopOk(c, h, pr) && !pr.phase.Idle? && !Calling(c, pr.phase)
    ensures LoopOk(c, h, pr.(phase := AfterLoop(c, pr.phase)))
  {
    var pr' := pr.(phase := AfterLoop(c, pr.phase));
    if pr.phase.Preparing? && pr'.phase.Accepting? {
      var answers :| Prepares(c, h.net, pr.myN, pr.run, pr.phase.i, pr.phase.t, answers);
      assert c.nodes[..|answers|] == c.nodes;
      assert Elects(c, h, pr'.myN, pr'.run, pr'.phase.v, pr'.phase.targets, pr.phase.newv, answers);
      assert Accepts(h.net, pr'.myN, pr'.phase.targets, 0, [], j => false);
    } else if pr.phase.Accepting? && pr'.phase.Deciding? {
      var v, targets := pr.phase.v, pr.phase.targets;
      var newv, answers :| Elects(c, h, pr.myN, pr.run, v, targets, newv, answers);
      var ok :| Accepts(h.net, pr.myN, targets, pr.phase.i, pr.phase.acks, ok);
      assert Elects(c, h, pr'.myN, pr'.run, v, targets, newv, answers);
      assert Accepts(h.net, pr'.myN, targets, |targets|, pr.phase.acks, ok);
    }
  }

  /** What an event does to the proposer that takes it. */
  lemma OwnStep(c: Config, s: State, e: Event, p: Node)
    requires p in s.prop && LoopOk(c, s.h, s.prop[p]) && Enabled(c, s, e)
    requires (e.Start? || e.Receive? || e.GiveUp? || e.Finish? || e.Crash?) && e.p == p
    ensures LoopOk(c, Apply(c, s, e).h, Apply(c, s, e).prop[p])
  {
    var pr, pr' := s.prop[p], Apply(c, s, e).prop[p];
    match e
    case Start(_, _) => assert Prepares(c, s.h.net, pr'.myN, pr'.run, 0, EMPTY_TALLY, []);
    case Receive(_, m) =>
      if m.PromiseMsg? {
        PrepareStep(c, s.h, pr.myN, pr.run, pr.phase.newv, pr.phase.i, pr.phase.t, Answer(Promise(m.nA, m.vA)));
      }
      if m.AckMsg? {
        AcceptStep(c, s.h, pr.myN, pr.run, pr.phase.v, pr.phase.targets, pr.phase.i, pr.phase.acks, true);
      }
    case GiveUp(_) =>
      if pr.phase.Preparing? {
        PrepareStep(c, s.h, pr.myN, pr.run, pr.phase.newv, pr.phase.i, pr.phase.t, NoAnswer);
      }
      if pr.phase.Accepting? {
        AcceptStep(c, s.h, pr.myN, pr.run, pr.phase.v, pr.phase.targets, pr.phase.i, pr.phase.acks, false);
      }
    case Finish(_) => FinishStep(c, s.h, pr);
    case Crash(_) =>
  }

  lemma StepOk(c: Config, s: State, e: Event, p: Node)
    requires LoopsOk(c, s) && Enabled(c, s, e) && p in s.prop
    ensures LoopOk(c, Apply(c, s, e).h, Apply(c, s, e).prop[p])
  {
    assert LoopOk(c, s.h, s.prop[p]);
    if (e.Start? || e.Receive? || e.GiveUp? || e.Finish? || e.Crash?) && e.p == p {
      OwnStep(c, s, e, p);
    } else {
      LoopOkGrows(c, s.h, Apply(c, s, e).h, s.prop[p]);
    }
  }

  /** In every run, whatever the rules, each proposer stands where its code stands on answers that were really sent. */
  lemma {:induction false} LoopsFollowTheCode(r: Rules, c: Config, run: Run)
    requires Legal(r, c, run)
    ensures LoopsOk(c, Last(c, run))
  {
    match run
    case Begin(_) =>
    case Then(past, e) =>
      assert Follows(r, c, past, e);
      LoopsFollowTheCode(r, c, past);
      var s, s' := Last(c, past), Moved(c, past, e);
      forall p | p in s'.prop ensures LoopOk(c, s'.h, s'.prop[p]) { StepOk(c, s, e, p); }
  }

  // ----- how runs of the proposer end

  /**
   * A proposer that decides does what `ProposerNode.Run` does when it wins, on answers and grants that were really
   * sent.
   */
  lemma DecidesAsTheCode(r: Rules, c: Config, run: Run, p: Node)
    returns (newv: Value, answers: seq<Answer>, ok: nat -> bool)
    requires Legal(r, c, run) && p in Last(c, run).prop && Last(c, run).prop[p].phase.Deciding?
    ensures var s := Last(c, run);
      && newv in s.h.offered && |answers| == |c.nodes| && HeardBy(c, s, p, answers)
      && var out := RunOutcome(c.nodes, newv, answers, ok);
         && out.Won? && out.v == s.prop[p].phase.v && out.accepts == s.prop[p].phase.acks
         && Accepts(s.h.net, s.prop[p].myN, out.targets, |out.targets|, out.accepts, ok)
  {
    LoopsFollowTheCode(r, c, run);
    var h, pr := Last(c, run).h, Last(c, run).prop[p];
    assert LoopOk(c, h, pr);
    var targets: seq<Node>;
    newv, answers, targets, ok :|
      && Elects(c, h, pr.myN, pr.run, pr.phase.v, targets, newv, answers)
      && Accepts(h.net, pr.myN, targets, |targets|, pr.phase.acks, ok) && Majority(c.nodes, pr.phase.acks);
    assert targets[..|targets|] == targets;
  }

  /** An old-instance reply ends the prepare loop, whatever the calls left out would say. */
  lemma OldEnds(nodes: seq<Node>, answers: seq<Answer>, t: Tally, v: Value, rest: seq<Answer>)
    requires |nodes| == |answers| + 1 + |rest| && HearAll(nodes[..|answers|], answers) == Going(t)
    ensures HearAll(nodes, answers + [Answer(OldInstance(v))] + rest) == Old(v)
  {
    var i, a := |answers|, Answer(OldInstance(v));
    var all := answers + [a] + rest;
    assert nodes[..i + 1][..i] == nodes[..i] && (answers + [a])[..i] == answers;
    assert HearAll(nodes[..i + 1], answers + [a]) == Old(v);
    assert all[..i + 1] == answers + [a];
    StaysOld(nodes, all, i + 1);
  }

  /**
   * A proposer that is told of an old instance does what the code does then, whatever the calls it leaves out would
   * say.
   */
  lemma LearnsAsTheCode(r: Rules, c: Config, run: Run, p: Node, m: Msg, newv: Value, rest: seq<Answer>, ok: nat -> bool)
    returns (answers: seq<Answer>)
    requires Legal(r, c, run) && m.OldMsg? && Enabled(c, Last(c, run), Receive(p, m))
    requires |rest| == |c.nodes| - Last(c, run).prop[p].phase.i - 1
    ensures |answers| == Last(c, run).prop[p].phase.i && HeardBy(c, Last(c, run), p, answers)
    ensures RunOutcome(c.nodes, newv, answers + [Answer(OldInstance(m.v))] + rest, ok) == Learned(m.v)
  {
    LoopsFollowTheCode(r, c, run);
    var s := Last(c, run);
    var pr := s.prop[p];
    assert LoopOk(c, s.h, pr);
    answers :| Prepares(c, s.h.net, pr.myN, pr.run, pr.phase.i, pr.phase.t, answers);
    OldEnds(c.nodes, answers, pr.phase.t, m.v, rest);
  }

  /** A proposer whose prepare loop gathers no majority ends as the code does. */
  lemma GivesUpAsTheCode(r: Rules, c: Config, run: Run, p: Node, newv: Value, ok: nat -> bool)
    returns (answers: seq<Answer>)
    requires Legal(r, c, run) && Enabled(c, Last(c, run), Finish(p)) && Last(c, run).prop[p].phase.Preparing?
    requires AfterLoop(c, Last(c, run).prop[p].phase).Idle?
    ensures |answers| == |c.nodes| && HeardBy(c, Last(c, run), p, answers)
    ensures RunOutcome(c.nodes, newv, answers, ok) == NotPromised
  {
    LoopsFollowTheCode(r, c, run);
    var pr := Last(c, run).prop[p];
    assert LoopOk(c, Last(c, run).h, pr);
    answers :| Prepares(c, Last(c, run).h.net, pr.myN, pr.run, pr.phase.i, pr.phase.t, answers);
    assert c.nodes[..|answers|] == c.nodes;
  }

  /** A proposer whose accept loop gathers no majority ends as the code does. */
  lemma LosesAsTheCode(r: Rules, c: Config, run: Run, p: Node)
    returns (newv: Value, answers: seq<Answer>, ok: nat -> bool)
    requires Legal(r, c, run) && Enabled(c, Last(c, run), Finish(p)) && Last(c, run).prop[p].phase.Accepting?
    requires AfterLoop(c, Last(c, run).prop[p].phase).Idle?
    ensures var s := Last(c, run);
      && newv in s.h.offered && |answers| == |c.nodes| && HeardBy(c, s, p, answers)
      && RunOutcome(c.nodes, newv, answers, ok) == NotAccepted(s.prop[p].phase.v, s.prop[p].phase.targets)
  {
    LoopsFollowTheCode(r, c, run);
    var h, pr := Last(c, run).h, Last(c, run).prop[p];
    assert LoopOk(c, h, pr);
    newv, answers :| Elects(c, h, pr.myN, pr.run, pr.phase.v, pr.phase.targets, newv, answers);
    ok :| Accepts(h.net, pr.myN, pr.phase.targets, pr.phase.i, pr.phase.acks, ok);
    assert pr.phase.targets[..pr.phase.i] == pr.phase.targets;
  }

  /** The value a proposer asks for is the one of the highest ballot reported to it by a majority, or else its own. */
  lemma AsksForTheHighest(r: Rules, c: Config, run: Run, p: Node) returns (newv: Value, answers: seq<Answer>)
    requires Legal(r, c, run) && p in Last(c, run).prop && Last(c, run).prop[p].phase.Accepting?
    ensures var s := Last(c, run);
      var v, targets := s.prop[p].phase.v, s.prop[p].phase.targets;
      && |answers| == |c.nodes| && HeardBy(c, s, p, answers) && Majority(c.nodes, targets)
      && (forall x :: x in targets <==>
            exists i :: 0 <= i < |answers| && c.nodes[i] == x && Proposers.Promised(answers[i]))
      && exists top: Ballot, w: Value ::
           && (exists i :: 0 <= i < |answers| && answers[i] == Answer(Promise(top, w)))
           && (forall i :: 0 <= i < |answers| && Proposers.Promised(answers[i]) ==> Ge(top, answers[i].reply.nA))
           && if w == "" then v == newv && newv in s.h.offered else v == w
  {
    LoopsFollowTheCode(r, c, run);
    var h, pr := Last(c, run).h, Last(c, run).prop[p];
    assert LoopOk(c, h, pr);
    newv, answers :| Elects(c, h, pr.myN, pr.run, pr.phase.v, pr.phase.targets, newv, answers);
    HighestAdopted(c.nodes, answers);
    var x := QuorumMember(c.nodes, pr.phase.targets);
    var t := HearAll(c.nodes, answers).t;
    assert t.highest.Some?;
    assert exists i :: 0 <= i < |answers| && answers[i] == Answer(Promise(t.highest.value, t.v));
  }
}
