/** Every event of a Paxos instance keeps its invariant. */
module PaxosSteps {
  import opened Ballots
  import opened Acceptors
  import opened Options
  import opened Proposers
  import opened Paxos
  import opened PaxosNet

  lemma StartKeeps(c: Config, s: State, p: Node, newv: Value)
    requires Inv(c, s) && Enabled(c, s, Start(p, newv)) && newv != ""
    ensures Inv(c, Apply(c, s, Start(p, newv)))
  {
    var s' := Apply(c, s, Start(p, newv));
    forall m | m in s'.h.net ensures MsgOk(c, s'.h, m) { MsgOkGrows(c, s.h, s'.h, m); }
    forall to, w ensures AcceptMsg(s'.prop[p].myN, s.h.runs, to, w) !in s.h.net {
      var m := AcceptMsg(s'.prop[p].myN, s.h.runs, to, w);
      assert m in s.h.net ==> MsgOk(c, s.h, m);
    }
    forall q | q in s'.prop ensures PropOk(c, s'.h, q, s'.prop[q]) {
      if q != p { assert PropOk(c, s.h, q, s.prop[q]); }
    }
  }

  lemma SendKeeps(c: Config, s: State, p: Node)
    requires Inv(c, s) && Enabled(c, s, Send(p))
    ensures Inv(c, Apply(c, s, Send(p)))
  {
    var pr := s.prop[p];
    var m := CallMsg(c, pr);
    var h' := Post(s.h, {m});
    assert PropOk(c, s.h, p, pr);
    match pr.phase {
      case Preparing(_, _, _) =>
      case Accepting(v, targets, i, _) =>
        SupportedGrows(c, s.h.net, h'.net, pr.myN, pr.run, v);
        HasPromisedGrows(s.h.net, h'.net, pr.myN, pr.run, targets[i]);
      case Deciding(v, acks, i) =>
        DecidingIsChosen(c, s, p);
        ChosenGrows(c, s.h.net, h'.net, pr.myN, v);
    }
    NetOkAdd(c, s.h, m);
    forall a | a in s.acc ensures AccOk(c, h'.net, a, s.acc[a]) { AccOkGrows(c, s.h.net, m, a, s.acc[a]); }
    forall q | q in s.prop ensures PropOk(c, h', q, s.prop[q]) { PropOkGrows(c, s.h, m, q, s.prop[q]); }
  }

  lemma DecidingIsChosen(c: Config, s: State, p: Node)
    requires Inv(c, s) && p in s.prop && s.prop[p].phase.Deciding?
    ensures ChosenAt(c, s.h.net, s.prop[p].myN, s.prop[p].phase.v)
  {
    var pr := s.prop[p];
    assert PropOk(c, s.h, p, pr);
    var a := QuorumMember(c.nodes, pr.phase.acks);
    assert MsgOk(c, s.h, AckMsg(pr.myN, a));
    var w :| Asked(s.h.net, pr.myN, w);
  }

  lemma ReceiveKeeps(c: Config, s: State, p: Node, m: Msg)
    requires Inv(c, s) && Enabled(c, s, Receive(p, m))
    ensures Inv(c, Apply(c, s, Receive(p, m)))
  {
    var pr := s.prop[p];
    assert PropOk(c, s.h, p, pr);
    assert MsgOk(c, s.h, m);
    if m.OldMsg? {
      assert AccOk(c, s.h.net, p, s.acc[p]);
      CommitDurable(s.acc[p], c.instance, m.v);
    } else if m.PromiseMsg? {
      AdoptKeeps(c, s.h, pr.phase.t, m);
    }
  }

  lemma AdoptKeeps(c: Config, h: Hist, t: Tally, m: Msg)
    requires m.PromiseMsg? && m in h.net && MsgOk(c, h, m) && TallyOk(h.net, m.b, m.run, t)
    ensures TallyOk(h.net, m.b, m.run, Adopt(t, m.from, m.nA, m.vA))
  {
    var t' := Adopt(t, m.from, m.nA, m.vA);
    var top := t'.highest.value;
    BallotOrder(top, m.nA, top);
    if t.highest.Some? { BallotOrder(m.nA, t.highest.value, top); }
    forall q | q in t'.accepts ensures TallyBacks(h.net, m.b, m.run, t', q) {
      if q in t.accepts {
        var nA: Ballot, vA: Value :|
          PromiseMsg(m.b, m.run, q, nA, vA) in h.net && (nA.n == 0 || (t.highest.Some? && Ge(t.highest.value, nA)));
        BallotOrder(top, nA, top);
        if nA.n != 0 { BallotOrder(top, t.highest.value, nA); BallotOrder(t.highest.value, nA, top); }
        assert PromiseMsg(m.b, m.run, q, nA, vA) in h.net;
      } else {
        assert PromiseMsg(m.b, m.run, q, m.nA, m.vA) in h.net;
      }
    }
  }

  lemma FinishKeeps(c: Config, s: State, p: Node)
    requires Inv(c, s) && Enabled(c, s, Finish(p))
    ensures Inv(c, Apply(c, s, Finish(p)))
  {
    var pr := s.prop[p];
    assert PropOk(c, s.h, p, pr);
    if pr.phase.Preparing? && Majority(c.nodes, pr.phase.t.accepts) {
      TallySupports(c, s.h.net, pr.myN, pr.run, pr.phase.t, pr.phase.newv);
      forall q | q in pr.phase.t.accepts ensures HasPromised(s.h.net, pr.myN, pr.run, q) {
        assert TallyBacks(s.h.net, pr.myN, pr.run, pr.phase.t, q);
      }
      ChoiceOffered(c, s, p);
      FirstToAsk(c, s, p);
    }
  }

  lemma ChoiceOffered(c: Config, s: State, p: Node)
    requires Inv(c, s) && p in s.prop && s.prop[p].phase.Preparing?
    ensures Chooses(s.prop[p].phase.t, s.prop[p].phase.newv) in s.h.offered
  {
    var t := s.prop[p].phase.t;
    assert PropOk(c, s.h, p, s.prop[p]);
    if t.v != "" {
      var r: nat, to: Node :| AcceptMsg(t.highest.value, r, to, t.v) in s.h.net;
      assert MsgOk(c, s.h, AcceptMsg(t.highest.value, r, to, t.v));
    }
  }

  lemma SameRun(c: Config, h: Hist, b: Ballot, run: nat, t: Tally, r: nat, to: Node, w: Value)
    requires NetOk(c, h) && TallyOk(h.net, b, run, t) && Majority(c.nodes, t.accepts)
    requires AcceptMsg(b, r, to, w) in h.net
    ensures r == run
  {
    assert MsgOk(c, h, AcceptMsg(b, r, to, w));
    var q: seq<Node> :| Majority(c.nodes, q) && forall x :: x in q ==> Backs(h.net, b, r, x, w);
    var a := QuorumsMeet(c.nodes, q, t.accepts);
    assert Backs(h.net, b, r, a, w) && TallyBacks(h.net, b, run, t, a);
  }

  /** Even if a restarted proposer reuses a ballot, only one of its runs can gather a majority for it. */
  lemma FirstToAsk(c: Config, s: State, p: Node)
    requires Inv(c, s) && p in s.prop && s.prop[p].phase.Preparing? && Majority(c.nodes, s.prop[p].phase.t.accepts)
    ensures forall r, to, w :: AcceptMsg(s.prop[p].myN, r, to, w) !in s.h.net
  {
    var pr := s.prop[p];
    assert PropOk(c, s.h, p, pr);
    forall r, to, w | AcceptMsg(pr.myN, r, to, w) in s.h.net ensures r == pr.run {
      SameRun(c, s.h, pr.myN, pr.run, pr.phase.t, r, to, w);
    }
  }

  /** The value picked after the prepare loop is safe: a majority backs it. */
  lemma TallySupports(c: Config, net: set<Msg>, b: Ballot, run: nat, t: Tally, newv: Value)
    requires TallyOk(net, b, run, t) && Majority(c.nodes, t.accepts)
    ensures Supported(c, net, b, run, Chooses(t, newv))
  {
  }

  /** A reply from `to` goes out; `to`'s own record is checked by the caller. */
  lemma AddReply(c: Config, s: State, s': State, to: Node, m: Msg)
    requires Inv(c, s) && to in s.acc && s'.acc.Keys == s.acc.Keys
    requires s' == s.(acc := s'.acc, h := Post(s.h, {m})) && (m.PromiseMsg? || m.OldMsg? || m.AckMsg?) && m.from == to
    requires forall a :: a in s.acc && a != to ==> s'.acc[a] == s.acc[a]
    requires MsgOk(c, Post(s.h, {m}), m)
    requires m.PromiseMsg? ==> forall b' :: AckMsg(b', to) in s.h.net ==> Gt(m.b, b') ==> Ge(m.nA, b')
    requires m.PromiseMsg? ==> forall r, nA, vA :: PromiseMsg(m.b, r, to, nA, vA) !in s.h.net
    requires m.AckMsg? ==> forall b, r, nA, vA :: PromiseMsg(b, r, to, nA, vA) in s.h.net ==> !Gt(b, m.b)
    requires if m.OldMsg? then AccOk(c, s.h.net, to, s'.acc[to]) else AccOk(c, s'.h.net, to, s'.acc[to])
    ensures Inv(c, s')
  {
    NetOkAdd(c, s.h, m);
    forall a | a in s'.acc ensures AccOk(c, s'.h.net, a, s'.acc[a]) {
      if a != to {
        assert AccOk(c, s.h.net, a, s.acc[a]);
        AccOkGrows(c, s.h.net, m, a, s.acc[a]);
      } else if m.OldMsg? {
        AccOkGrows(c, s.h.net, m, to, s'.acc[to]);
      }
    }
    forall p | p in s'.prop ensures PropOk(c, s'.h, p, s'.prop[p]) { PropOkGrows(c, s.h, m, p, s.prop[p]); }
  }

  lemma OldReplyKeeps(c: Config, s: State, b: Ballot, run: nat, to: Node)
    requires Inv(c, s) && Enabled(c, s, Deliver(PrepareMsg(b, run, to))) && s.acc[to].instanceH >= c.instance
    ensures Inv(c, Apply(c, s, Deliver(PrepareMsg(b, run, to))))
  {
    var a, s' := s.acc[to], Apply(c, s, Deliver(PrepareMsg(b, run, to)));
    assert AccOk(c, s.h.net, to, a);
    PrepareDurable(a, c.instance, b);
    var k :| ChosenAt(c, s.h.net, k, ValueAt(a, c.instance));
    ChosenGrows(c, s.h.net, s'.h.net, k, ValueAt(a, c.instance));
    AddReply(c, s, s', to, OldMsg(b, to, ValueAt(a, c.instance)));
  }

  lemma PromiseKeeps(c: Config, s: State, b: Ballot, run: nat, to: Node)
    requires Inv(c, s) && Enabled(c, s, Deliver(PrepareMsg(b, run, to)))
    requires s.acc[to].instanceH < c.instance && Gt(b, s.acc[to].nH)
    ensures Inv(c, Apply(c, s, Deliver(PrepareMsg(b, run, to))))
  {
    var a, s' := s.acc[to], Apply(c, s, Deliver(PrepareMsg(b, run, to)));
    var m := PromiseMsg(b, run, to, a.nA, a.vA);
    assert AccOk(c, s.h.net, to, a) && MsgOk(c, s.h, PrepareMsg(b, run, to));
    PrepareDurable(a, c.instance, b);
    if a.nA.n >= 1 { AskedGrows(s.h.net, s'.h.net, a.nA, a.vA); }
    OpenAfterPromise(c, s, m);
    AddReply(c, s, s', to, m);
  }

  lemma DeliverPrepareKeeps(c: Config, s: State, b: Ballot, run: nat, to: Node)
    requires Inv(c, s) && Enabled(c, s, Deliver(PrepareMsg(b, run, to)))
    ensures Inv(c, Apply(c, s, Deliver(PrepareMsg(b, run, to))))
  {
    if s.acc[to].instanceH >= c.instance {
      OldReplyKeeps(c, s, b, run, to);
    } else if Gt(b, s.acc[to].nH) {
      PromiseKeeps(c, s, b, run, to);
    } else {
      var s' := Apply(c, s, Deliver(PrepareMsg(b, run, to)));
      assert s'.h == s.h && s'.acc == s.acc;
    }
  }

  lemma OpenAfterPromise(c: Config, s: State, m: Msg)
    requires m.PromiseMsg? && m.from in s.acc && AccOk(c, s.h.net, m.from, s.acc[m.from])
    requires s.acc[m.from].instanceH == c.instance - 1 && Gt(m.b, s.acc[m.from].nH)
    requires m.nA == s.acc[m.from].nA && m.vA == s.acc[m.from].vA
    ensures OpenOk(s.h.net + {m}, m.from, s.acc[m.from].(nH := m.b))
    ensures m.nA.n >= 1 ==> Gt(m.b, m.nA)
    ensures forall r, nA, vA :: PromiseMsg(m.b, r, m.from, nA, vA) !in s.h.net
  {
    var a := s.acc[m.from];
    var b := m.b;
    BallotOrder(b, b, b);
    BallotOrder(b, a.nH, a.nA);
    BallotOrder(a.nH, a.nA, b);
    BallotOrder(b, a.nA, b);
    if a.nA.n >= 1 { AskedGrows(s.h.net, s.h.net + {m}, a.nA, a.vA); }
    forall k, r, nA, vA | PromiseMsg(k, r, m.from, nA, vA) in s.h.net ensures Ge(b, k) && k != b {
      BallotOrder(b, a.nH, k);
      BallotOrder(a.nH, k, b);
      BallotOrder(b, k, b);
    }
  }

  /**
   * An undecided acceptor that accepts does so at exactly the ballot it promised last, so leaving its
   * promise where it is equals raising it to the accepted ballot.
   */
  lemma AcceptsAtPromise(c: Config, s: State, b: Ballot, run: nat, to: Node, v: Value)
    requires Inv(c, s) && Enabled(c, s, Deliver(AcceptMsg(b, run, to, v)))
    requires s.acc[to].instanceH < c.instance
    ensures Ge(s.acc[to].nH, b)
    ensures Accept(s.acc[to], b, v).1 ==> b == s.acc[to].nH == Accept(s.acc[to], b, v).0.nH
  {
    assert MsgOk(c, s.h, AcceptMsg(b, run, to, v));
    var nA: Ballot, vA: Value :| PromiseMsg(b, run, to, nA, vA) in s.h.net;
    assert AccOk(c, s.h.net, to, s.acc[to]);
    BallotOrder(b, s.acc[to].nH, b);
    BallotOrder(s.acc[to].nH, b, b);
  }

  lemma OpenAfterAck(c: Config, s: State, b: Ballot, to: Node, v: Value)
    requires NetOk(c, s.h) && to in s.acc && AccOk(c, s.h.net, to, s.acc[to]) && s.acc[to].instanceH == c.instance - 1
    requires b == s.acc[to].nH && b.n >= 1 && Asked(s.h.net, b, v)
    ensures OpenOk(s.h.net + {AckMsg(b, to)}, to, s.acc[to].(nA := b, vA := v))
  {
    var a := s.acc[to];
    BallotOrder(b, b, b);
    AskedGrows(s.h.net, s.h.net + {AckMsg(b, to)}, b, v);
    forall k | AckMsg(k, to) in s.h.net ensures Ge(b, k) {
      assert MsgOk(c, s.h, AckMsg(k, to));
      BallotOrder(b, a.nA, k);
      BallotOrder(a.nA, k, b);
      BallotOrder(b, k, b);
    }
  }

  lemma DeliverAcceptKeeps(c: Config, s: State, b: Ballot, run: nat, to: Node, v: Value)
    requires Inv(c, s) && Enabled(c, s, Deliver(AcceptMsg(b, run, to, v)))
    requires s.acc[to].instanceH < c.instance
    ensures Inv(c, Apply(c, s, Deliver(AcceptMsg(b, run, to, v))))
  {
    var a := s.acc[to];
    var s' := Apply(c, s, Deliver(AcceptMsg(b, run, to, v)));
    assert AccOk(c, s.h.net, to, a);
    assert MsgOk(c, s.h, AcceptMsg(b, run, to, v));
    AcceptDurable(a, b, v);
    AcceptsAtPromise(c, s, b, run, to, v);
    if Accept(a, b, v).1 {
      assert Asked(s.h.net, b, v);
      OpenAfterAck(c, s, b, to, v);
      forall k, r, nA, vA | PromiseMsg(k, r, to, nA, vA) in s.h.net ensures !Gt(k, b) { BallotOrder(k, b, b); }
      AddReply(c, s, s', to, AckMsg(b, to));
    } else {
      assert s'.h == s.h && s'.acc == s.acc;
    }
  }

  /** The assertions inside `decidereq` hold whenever a decide request is delivered. */
  lemma DecideIsSafe(c: Config, s: State, to: Node, v: Value)
    requires Inv(c, s) && Enabled(c, s, Deliver(DecideMsg(to, v)))
    ensures DecideAsserts(s.acc[to], c.instance, v)
  {
    var a := s.acc[to];
    assert AccOk(c, s.h.net, to, a);
    if a.instanceH == c.instance - 1 {
      assert MsgOk(c, s.h, DecideMsg(to, v));
      var b :| ChosenAt(c, s.h.net, b, v) && AckMsg(b, to) in s.h.net;
      assert MsgOk(c, s.h, AckMsg(b, to));
      ChosenBinds(c, s.h, b, v, a.nA, a.vA);
    }
  }

  lemma DeliverDecideKeeps(c: Config, s: State, to: Node, v: Value)
    requires Inv(c, s) && Enabled(c, s, Deliver(DecideMsg(to, v)))
    ensures Inv(c, Apply(c, s, Deliver(DecideMsg(to, v))))
  {
    DecideIsSafe(c, s, to, v);
    assert AccOk(c, s.h.net, to, s.acc[to]);
    assert MsgOk(c, s.h, DecideMsg(to, v));
    var b :| ChosenAt(c, s.h.net, b, v) && AckMsg(b, to) in s.h.net;
    CommitDurable(s.acc[to], c.instance, s.acc[to].vA);
  }

  lemma CrashKeeps(c: Config, s: State, p: Node)
    requires Inv(c, s) && Enabled(c, s, Crash(p))
    ensures Inv(c, Apply(c, s, Crash(p)))
  {
    var a := s.acc[p];
    var r := Replay(p, a.log);
    assert AccOk(c, s.h.net, p, a);
    if a.instanceH == c.instance {
      assert ValueAt(a, c.instance) == ValueAt(r, c.instance);
    } else {
      forall b, k, nA, vA | PromiseMsg(b, k, p, nA, vA) in s.h.net ensures Ge(r.nH, b) {
        assert MsgOk(c, s.h, PromiseMsg(b, k, p, nA, vA));
      }
      forall b | AckMsg(b, p) in s.h.net ensures Ge(r.nA, b) { assert MsgOk(c, s.h, AckMsg(b, p)); }
    }
  }

  lemma EventKeeps(c: Config, s: State, e: Event)
    requires Inv(c, s) && Enabled(c, s, e) && Obeys(STRICT, c, s, e)
    ensures Inv(c, Apply(c, s, e))
  {
    match e
    case Start(p, newv) => StartKeeps(c, s, p, newv);
    case Send(p) => SendKeeps(c, s, p);
    case Receive(p, m) => ReceiveKeeps(c, s, p, m);
    case GiveUp(p) => assert PropOk(c, s.h, p, s.prop[p]);
    case Finish(p) => FinishKeeps(c, s, p);
    case Deliver(PrepareMsg(b, run, to)) => DeliverPrepareKeeps(c, s, b, run, to);
    case Deliver(AcceptMsg(b, run, to, v)) => DeliverAcceptKeeps(c, s, b, run, to, v);
    case Deliver(DecideMsg(to, v)) => DeliverDecideKeeps(c, s, to, v);
    case Crash(p) => CrashKeeps(c, s, p);
  }

  lemma {:induction false} RunKeeps(c: Config, run: Run)
    requires Legal(STRICT, c, run)
    ensures Inv(c, Last(c, run))
  {
    match run
    case Begin(_) =>
    case Then(past, e) =>
      assert Follows(STRICT, c, past, e);
      RunKeeps(c, past);
      EventKeeps(c, Last(c, past), e);
  }
}
