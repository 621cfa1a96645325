/** What the messages of a Paxos instance imply together: at most one value is ever chosen. */
module PaxosNet {
  import opened Ballots
  import opened Acceptors
  import opened Options
  import opened Proposers
  import opened Paxos

  // ----- what more messages leave alone

  lemma SupportedGrows(c: Config, net: set<Msg>, net': set<Msg>, b: Ballot, run: nat, v: Value)
    requires net <= net' && Supported(c, net, b, run, v)
    ensures Supported(c, net', b, run, v)
  {
  }

  lemma AskedGrows(net: set<Msg>, net': set<Msg>, b: Ballot, v: Value)
    requires net <= net' && Asked(net, b, v)
    ensures Asked(net', b, v)
  {
  }

  lemma ChosenGrows(c: Config, net: set<Msg>, net': set<Msg>, b: Ballot, v: Value)
    requires net <= net' && ChosenAt(c, net, b, v)
    ensures ChosenAt(c, net', b, v)
  {
  }

  lemma HasPromisedGrows(net: set<Msg>, net': set<Msg>, b: Ballot, run: nat, q: Node)
    requires net <= net' && HasPromised(net, b, run, q)
    ensures HasPromised(net', b, run, q)
  {
  }

  lemma MsgOkGrows(c: Config, h: Hist, h': Hist, m: Msg)
    requires h.net <= h'.net && h.runs <= h'.runs && h.offered <= h'.offered && MsgOk(c, h, m)
    ensures MsgOk(c, h', m)
  {
    match m
    case PrepareMsg(_, _, _) =>
    case PromiseMsg(_, _, _, nA, vA) =>
      if nA.n >= 1 { AskedGrows(h.net, h'.net, nA, vA); }
    case OldMsg(_, _, v) =>
      var b :| ChosenAt(c, h.net, b, v);
      ChosenGrows(c, h.net, h'.net, b, v);
    case AcceptMsg(b, r, to, v) =>
      SupportedGrows(c, h.net, h'.net, b, r, v);
      HasPromisedGrows(h.net, h'.net, b, r, to);
    case AckMsg(b, _) =>
      var v :| Asked(h.net, b, v);
      AskedGrows(h.net, h'.net, b, v);
    case DecideMsg(to, v) =>
      var b :| ChosenAt(c, h.net, b, v) && AckMsg(b, to) in h.net;
      ChosenGrows(c, h.net, h'.net, b, v);
  }

  /** One more message, itself well-founded and at odds with no other, keeps the network sound. */
  lemma NetOkAdd(c: Config, h: Hist, m: Msg)
    requires NetOk(c, h) && MsgOk(c, Post(h, {m}), m)
    requires m.AcceptMsg? ==> OnlyRun(h.net, m.b, m.run, m.v)
    requires m.PromiseMsg? ==> forall b' :: AckMsg(b', m.from) in h.net ==> Gt(m.b, b') ==> Ge(m.nA, b')
    requires m.PromiseMsg? ==> forall r, nA, vA :: PromiseMsg(m.b, r, m.from, nA, vA) in h.net ==> r == m.run
    requires m.AckMsg? ==> forall b, r, nA, vA :: PromiseMsg(b, r, m.from, nA, vA) in h.net ==> !Gt(b, m.b)
    ensures NetOk(c, Post(h, {m}))
  {
    var h' := Post(h, {m});
    forall x | x in h'.net ensures MsgOk(c, h', x) {
      if x != m { MsgOkGrows(c, h, h', x); }
    }
    PairsAdd(h.net, m);
  }

  lemma PairsAdd(net: set<Msg>, m: Msg)
    requires OneValue(net) && PromisedOnce(net) && PromisesKept(net)
    requires m.AcceptMsg? ==> OnlyRun(net, m.b, m.run, m.v)
    requires m.PromiseMsg? ==> forall b' :: AckMsg(b', m.from) in net ==> Gt(m.b, b') ==> Ge(m.nA, b')
    requires m.PromiseMsg? ==> forall r, nA, vA :: PromiseMsg(m.b, r, m.from, nA, vA) in net ==> r == m.run
    requires m.AckMsg? ==> forall b, r, nA, vA :: PromiseMsg(b, r, m.from, nA, vA) in net ==> !Gt(b, m.b)
    ensures OneValue(net + {m}) && PromisedOnce(net + {m}) && PromisesKept(net + {m})
  {
  }

  lemma AccOkGrows(c: Config, net: set<Msg>, m: Msg, a: Node, A: Acceptor)
    requires AccOk(c, net, a, A)
    requires (m.PromiseMsg? || m.AckMsg?) ==> m.from != a
    ensures AccOk(c, net + {m}, a, A)
  {
    if A.instanceH == c.instance {
      var b :| ChosenAt(c, net, b, ValueAt(A, c.instance));
      ChosenGrows(c, net, net + {m}, b, ValueAt(A, c.instance));
    } else if A.nA.n >= 1 {
      AskedGrows(net, net + {m}, A.nA, A.vA);
    }
  }

  lemma PropOkGrows(c: Config, h: Hist, m: Msg, p: Node, pr: Prop)
    requires PropOk(c, h, p, pr)
    requires m.AcceptMsg? && m.b == pr.myN ==>
               pr.phase.Idle? || (pr.phase.Accepting? && m.run == pr.run && m.v == pr.phase.v)
    ensures PropOk(c, Post(h, {m}), p, pr)
  {
  }

  // ----- agreement below the invariant

  function AcceptBallots(net: set<Msg>): set<Ballot> {
    set m | m in net && m.AcceptMsg? :: m.b
  }

  /** A chosen value is the only value any equal or higher ballot can ask to accept. */
  lemma ChosenBinds(c: Config, h: Hist, b: Ballot, v: Value, b': Ballot, v': Value)
    requires NetOk(c, h) && ChosenAt(c, h.net, b, v) && Asked(h.net, b', v') && Ge(b', b)
    ensures v' == v
    decreases |set x | x in AcceptBallots(h.net) && Gt(b', x)|
  {
    BallotOrder(b', b, b);
    var r0: nat, t0: Node :| AcceptMsg(b, r0, t0, v) in h.net;
    var r1: nat, t1: Node :| AcceptMsg(b', r1, t1, v') in h.net;
    if b' != b {
      assert MsgOk(c, h, AcceptMsg(b', r1, t1, v')) && MsgOk(c, h, AcceptMsg(b, r0, t0, v));
      var q: seq<Node> :| Majority(c.nodes, q) && forall x :: x in q ==> Backs(h.net, b', r1, x, v');
      var k: seq<Node> :| Majority(c.nodes, k) && forall x :: x in k ==> AckMsg(b, x) in h.net;
      var a := QuorumsMeet(c.nodes, q, k);
      assert Backs(h.net, b', r1, a, v');
      var nA: Ballot, vA: Value :| PromiseMsg(b', r1, a, nA, vA) in h.net && (nA.n == 0 || Covered(h.net, b', nA, v'));
      assert AckMsg(b, a) in h.net && Ge(nA, b) && nA.n >= 1;
      var top: Ballot, r: nat, to: Node :| AcceptMsg(top, r, to, v') in h.net && Ge(top, nA) && Gt(b', top);
      BallotOrder(top, nA, b);
      BallotOrder(nA, b, b);
      BallotOrder(top, b, b);
      BelowShrinks(h.net, b', top, r, to, v');
      ChosenBinds(c, h, b, v, top, v');
    }
  }

  lemma BelowShrinks(net: set<Msg>, b: Ballot, top: Ballot, r: nat, to: Node, v: Value)
    requires AcceptMsg(top, r, to, v) in net && Gt(b, top)
    ensures |set x | x in AcceptBallots(net) && Gt(top, x)| < |set x | x in AcceptBallots(net) && Gt(b, x)|
  {
    var lower := set x | x in AcceptBallots(net) && Gt(top, x);
    var upper := set x | x in AcceptBallots(net) && Gt(b, x);
    forall x | x in lower ensures x in upper { BallotOrder(b, top, x); }
    BallotOrder(top, top, top);
    assert top in upper && top !in lower by { assert AcceptMsg(top, r, to, v).b in AcceptBallots(net); }
    SubsetSize(lower, upper - {top});
  }

  lemma {:induction false} SubsetSize<T>(a: set<T>, b: set<T>)
    requires a <= b
    ensures |a| <= |b|
  {
    if a != {} {
      var x :| x in a;
      SubsetSize(a - {x}, b - {x});
    }
  }

  /** No two values are ever chosen. */
  lemma OneChosen(c: Config, h: Hist, v1: Value, v2: Value)
    requires NetOk(c, h) && Chosen(c, h.net, v1) && Chosen(c, h.net, v2)
    ensures v1 == v2
  {
    var b1 :| ChosenAt(c, h.net, b1, v1);
    var b2 :| ChosenAt(c, h.net, b2, v2);
    BallotOrder(b1, b2, b1);
    BallotOrder(b2, b1, b1);
    if Ge(b1, b2) {
      ChosenBinds(c, h, b2, v2, b1, v1);
    } else {
      ChosenBinds(c, h, b1, v1, b2, v2);
    }
  }
}
