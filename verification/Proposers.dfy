/** The Paxos proposer: collecting promises, adopting a value, counting accepts. */
module Proposers {
  import opened Ballots
  import opened Acceptors
  import opened Options

  /** What one prepare call came back with; the call may fail to bind or time out. */
  datatype Answer = NoAnswer | Answer(reply: PrepareReply)

  /** Nodes that promised so far, and the value of the highest accepted ballot among their promises. */
  datatype Tally = Tally(accepts: seq<string>, highest: Option<Ballot>, v: Value)

  datatype Progress = Going(t: Tally) | Old(v: Value)

  const EMPTY_TALLY := Tally([], None, "")

  /** `setn` */
  function NextBallot(me: string, myN: Ballot, nH: Ballot): (b: Ballot)
    ensures b.m == me && b.n > myN.n && b.n > nH.n && (b.n == myN.n + 1 || b.n == nH.n + 1)
  {
    Ballot(if nH.n + 1 > myN.n + 1 then nH.n + 1 else myN.n + 1, me)
  }

  function Adopt(t: Tally, node: string, nA: Ballot, vA: Value): Tally {
    if t.highest.None? || Gt(nA, t.highest.value)
    then Tally(t.accepts + [node], Some(nA), vA)
    else t.(accepts := t.accepts + [node])
  }

  /** One iteration of the prepare loop. */
  function Hear(p: Progress, node: string, a: Answer): Progress {
    if p.Old? then p
    else match a
      case Answer(OldInstance(v)) => Old(v)
      case Answer(Promise(nA, vA)) => Going(Adopt(p.t, node, nA, vA))
      case _ => p
  }

  function HearAll(nodes: seq<string>, answers: seq<Answer>): Progress
    requires |answers| == |nodes|
    decreases |nodes|
  {
    if nodes == [] then Going(EMPTY_TALLY)
    else
      var k := |nodes| - 1;
      Hear(HearAll(nodes[..k], answers[..k]), nodes[k], answers[k])
  }

  predicate Promised(a: Answer) {
    a.Answer? && a.reply.Promise?
  }

  /**
   * The prepare loop keeps the value of the highest accepted ballot: some promise carries exactly
   * that ballot and value, no promise carries a higher ballot, and the accept list is the promising nodes.
   */
  lemma {:induction false} HighestAdopted(nodes: seq<string>, answers: seq<Answer>)
    requires |answers| == |nodes|
    requires HearAll(nodes, answers).Going?
    ensures var t := HearAll(nodes, answers).t;
      && (forall x :: x in t.accepts <==> exists i :: 0 <= i < |nodes| && nodes[i] == x && Promised(answers[i]))
      && (t.highest.None? <==> forall i :: 0 <= i < |nodes| ==> !Promised(answers[i]))
      && (t.highest.None? ==> t.v == "")
      && (t.highest.Some? ==>
            && (exists i :: 0 <= i < |nodes| && answers[i] == Answer(Promise(t.highest.value, t.v)))
            && forall i :: 0 <= i < |nodes| && Promised(answers[i]) ==> Ge(t.highest.value, answers[i].reply.nA))
    decreases |nodes|
  {
    if nodes != [] {
      var k := |nodes| - 1;
      var p := HearAll(nodes[..k], answers[..k]);
      HighestAdopted(nodes[..k], answers[..k]);
      var t := HearAll(nodes, answers).t;
      forall x ensures x in t.accepts <==> exists i :: 0 <= i < |nodes| && nodes[i] == x && Promised(answers[i]) {
        if x in p.t.accepts {
          var i :| 0 <= i < k && nodes[..k][i] == x && Promised(answers[..k][i]);
          assert nodes[i] == x && Promised(answers[i]);
        }
        if i :| 0 <= i < |nodes| && nodes[i] == x && Promised(answers[i]) {
          if i < k { assert nodes[..k][i] == x && Promised(answers[..k][i]); }
        }
      }
      if Promised(answers[k]) {
        forall i | 0 <= i < |nodes| && Promised(answers[i]) ensures Ge(t.highest.value, answers[i].reply.nA) {
          if i < k {
            assert Promised(answers[..k][i]);
            var h := p.t.highest.value;
            BallotOrder(answers[k].reply.nA, h, answers[i].reply.nA);
            BallotOrder(h, answers[i].reply.nA, h);
            BallotOrder(answers[k].reply.nA, answers[i].reply.nA, h);
          } else {
            BallotOrder(t.highest.value, answers[k].reply.nA, t.highest.value);
            BallotOrder(answers[k].reply.nA, t.highest.value, t.highest.value);
          }
        }
      } else {
        assert t == p.t;
        forall i | 0 <= i < |nodes| && Promised(answers[i])
          ensures t.highest.Some? && Ge(t.highest.value, answers[i].reply.nA)
        {
          assert Promised(answers[..k][i]);
        }
      }
      if t.highest.Some? {
        if t.highest == p.t.highest && t.v == p.t.v {
          var i :| 0 <= i < k && answers[..k][i] == Answer(Promise(t.highest.value, t.v));
          assert answers[i] == Answer(Promise(t.highest.value, t.v));
        } else {
          assert answers[k] == Answer(Promise(t.highest.value, t.v));
        }
      }
    }
  }

  /** Promise `i` carries ballot `b` and value `v`, and every promise before it a lower ballot. */
  predicate FirstWith(answers: seq<Answer>, i: nat, b: Ballot, v: Value) {
    && i < |answers| && answers[i] == Answer(Promise(b, v))
    && forall j :: 0 <= j < i && Promised(answers[j]) ==> Gt(b, answers[j].reply.nA)
  }

  /** Of several promises with the highest ballot, the first one counts. */
  lemma {:induction false} FirstOfTheHighest(nodes: seq<string>, answers: seq<Answer>) returns (i: nat)
    requires |answers| == |nodes| && HearAll(nodes, answers).Going? && HearAll(nodes, answers).t.highest.Some?
    ensures FirstWith(answers, i, HearAll(nodes, answers).t.highest.value, HearAll(nodes, answers).t.v)
    decreases |nodes|
  {
    var k := |nodes| - 1;
    var t, u := HearAll(nodes[..k], answers[..k]).t, HearAll(nodes, answers).t;
    if Promised(answers[k]) && (t.highest.None? || Gt(answers[k].reply.nA, t.highest.value)) {
      i := k;
      HighestAdopted(nodes[..k], answers[..k]);
      forall j | 0 <= j < k && Promised(answers[j]) ensures Gt(u.highest.value, answers[j].reply.nA) {
        assert Promised(answers[..k][j]);
        BallotOrder(u.highest.value, t.highest.value, answers[j].reply.nA);
        BallotOrder(t.highest.value, answers[j].reply.nA, t.highest.value);
      }
    } else {
      i := FirstOfTheHighest(nodes[..k], answers[..k]);
      assert forall j :: 0 <= j < k ==> answers[..k][j] == answers[j];
    }
  }

  // ----- replayed acceptors lead proposers to the same value

  /** Promises of acceptors that have accepted nothing carry the empty value. */
  predicate Honest(a: Answer) {
    Promised(a) && a.reply.nA.n == 0 ==> a.reply.vA == ""
  }

  predicate SameAnswer(a: Answer, b: Answer) {
    a == b || (a.Answer? && b.Answer? && SameReply(Prepared(a.reply), Prepared(b.reply)))
  }

  predicate SameProgress(p: Progress, q: Progress) {
    || p == q
    || (p.Going? && q.Going? && p.t.accepts == q.t.accepts && p.t.v == q.t.v
        && p.t.highest.Some? && q.t.highest.Some? && SameBallot(p.t.highest.value, q.t.highest.value))
  }

  /** Answers that differ only in the names of zero ballots make the proposer adopt the same value. */
  lemma {:induction false} SameAdoption(nodes: seq<string>, as1: seq<Answer>, as2: seq<Answer>)
    requires |as1| == |as2| == |nodes|
    requires forall i :: 0 <= i < |nodes| ==> Honest(as1[i]) && Honest(as2[i]) && SameAnswer(as1[i], as2[i])
    ensures SameProgress(HearAll(nodes, as1), HearAll(nodes, as2))
    ensures var p := HearAll(nodes, as1);
      p.Going? && p.t.highest.Some? && p.t.highest.value.n == 0 ==> p.t.v == ""
    decreases |nodes|
  {
    if nodes != [] {
      var k := |nodes| - 1;
      SameAdoption(nodes[..k], as1[..k], as2[..k]);
      assert Honest(as1[k]) && Honest(as2[k]) && SameAnswer(as1[k], as2[k]);
    }
  }

  /** The answer a proposer gets from a node, if the call reaches it. */
  function AnswerOf(a: Acceptor, instance: nat, b: Ballot, reached: bool): Answer {
    if reached then Answer(Prepare(a, instance, b).1) else NoAnswer
  }

  lemma AnswersAlike(l: Life, instance: nat, b: Ballot, reached: bool)
    requires Orderly(l) && b.n >= 1
    ensures var live := AnswerOf(Now(l), instance, b, reached);
      var reborn := AnswerOf(Replay(Now(l).me, Now(l).log), instance, b, reached);
      Honest(live) && Honest(reborn) && SameAnswer(live, reborn)
  {
    LifeOk(l);
    ServeSimilar(Now(l), Replay(Now(l).me, Now(l).log), PrepareReq(instance, b));
  }

  /**
   * Whatever its nodes have been through, a proposer that asks them hears the same, and picks the same value, as
   * if any of them had just been restarted from their logs.
   */
  lemma RestartsKeepTheChoice(
    nodes: seq<string>, lives: seq<Life>, reached: seq<bool>, reborn: seq<bool>, instance: nat, b: Ballot)
    requires |lives| == |reached| == |reborn| == |nodes| && b.n >= 1
    requires forall i :: 0 <= i < |nodes| ==> Orderly(lives[i])
    ensures
      var answers := seq(|nodes|, i requires 0 <= i < |nodes| => AnswerOf(Now(lives[i]), instance, b, reached[i]));
      var later := seq(|nodes|, i requires 0 <= i < |nodes| =>
        var a := Now(lives[i]); AnswerOf(if reborn[i] then Replay(a.me, a.log) else a, instance, b, reached[i]));
      && SameProgress(HearAll(nodes, answers), HearAll(nodes, later))
      && forall newv :: SameChoice(HearAll(nodes, answers), HearAll(nodes, later), newv)
  {
    var answers := seq(|nodes|, i requires 0 <= i < |nodes| => AnswerOf(Now(lives[i]), instance, b, reached[i]));
    var later := seq(|nodes|, i requires 0 <= i < |nodes| =>
      var a := Now(lives[i]); AnswerOf(if reborn[i] then Replay(a.me, a.log) else a, instance, b, reached[i]));
    forall i | 0 <= i < |nodes| ensures Honest(answers[i]) && Honest(later[i]) && SameAnswer(answers[i], later[i]) {
      AnswersAlike(lives[i], instance, b, reached[i]);
    }
    SameAdoption(nodes, answers, later);
  }

  // ----- a whole run

  datatype Outcome =
    | Busy
    | Learned(decided: Value)
    | NotPromised
    | NotAccepted(v: Value, targets: seq<string>)
    | Won(v: Value, targets: seq<string>, accepts: seq<string>)

  function Granting(nodes: seq<string>, ok: nat -> bool): seq<string> {
    if nodes == [] then []
    else
      var k := |nodes| - 1;
      Granting(nodes[..k], ok) + if ok(k) then [nodes[k]] else []
  }

  function Chooses(t: Tally, newv: Value): Value {
    if t.v == "" then newv else t.v
  }

  /** Both prepare loops end with the same decided value, or ask the same nodes to accept the same value. */
  predicate SameChoice(p: Progress, q: Progress, newv: Value) {
    if p.Old? || q.Old? then p == q else p.t.accepts == q.t.accepts && Chooses(p.t, newv) == Chooses(q.t, newv)
  }

  function RunOutcome(nodes: seq<string>, newv: Value, answers: seq<Answer>, ok: nat -> bool): Outcome
    requires |answers| == |nodes|
  {
    match HearAll(nodes, answers)
    case Old(v) => Learned(v)
    case Going(t) =>
      if !Majority(nodes, t.accepts) then NotPromised
      else
        var acks := Granting(t.accepts, ok);
        if Majority(nodes, acks) then Won(Chooses(t, newv), t.accepts, acks)
        else NotAccepted(Chooses(t, newv), t.accepts)
  }

  class ProposerNode {
    const me: string
    var myN: Ballot
    var stable: bool

    constructor (me: string)
      ensures this.me == me && myN == Ballot(0, me) && stable
    {
      this.me := me;
      myN := Ballot(0, me);
      stable := true;
    }

    method Prepare(nodes: seq<string>, answers: seq<Answer>) returns (ok: bool, accepts: seq<string>, v: Value)
      requires |answers| == |nodes|
      ensures match HearAll(nodes, answers)
        case Going(t) => ok && t.accepts == accepts && t.v == v
        case Old(w) => !ok && v == w
    {
      var highest: Option<Ballot> := None;
      accepts, v := [], "";
      var i := 0;
      while i < |nodes|
        invariant 0 <= i <= |nodes|
        invariant HearAll(nodes[..i], answers[..i]) == Going(Tally(accepts, highest, v))
      {
        assert nodes[..i + 1][..i] == nodes[..i] && answers[..i + 1][..i] == answers[..i];
        match answers[i] {
          case Answer(OldInstance(w)) =>
            StaysOld(nodes, answers, i + 1);
            return false, [], w;
          case Answer(Promise(nA, vA)) =>
            if highest.None? || Gt(nA, highest.value) {
              v := vA;
              highest := Some(nA);
            }
            accepts := accepts + [nodes[i]];
          case _ =>
        }
        i := i + 1;
      }
      assert nodes[..|nodes|] == nodes && answers[..|nodes|] == answers;
      ok := true;
    }

    method Accept(nodes: seq<string>, ok: nat -> bool) returns (accepts: seq<string>)
      ensures accepts == Granting(nodes, ok)
    {
      accepts := [];
      for i := 0 to |nodes|
        invariant accepts == Granting(nodes[..i], ok)
      {
        assert nodes[..i + 1][..i] == nodes[..i];
        if ok(i) { accepts := accepts + [nodes[i]]; }
      }
      assert nodes[..|nodes|] == nodes;
    }

    /** `run`; `nH` is the local acceptor's highest promise, `answers` and `ok` what the calls return. */
    method Run(nodes: seq<string>, newv: Value, nH: Ballot, answers: seq<Answer>, ok: nat -> bool)
      returns (out: Outcome)
      requires |answers| == |nodes|
      modifies this
      ensures stable == old(stable)
      ensures !old(stable) ==> out == Busy && myN == old(myN)
      ensures old(stable) ==> out == RunOutcome(nodes, newv, answers, ok) && myN == NextBallot(me, old(myN), nH)
    {
      if !stable { return Busy; }
      stable := false;
      myN := Ballot(if nH.n + 1 > myN.n + 1 then nH.n + 1 else myN.n + 1, me);
      var going, accepts, v := Prepare(nodes, answers);
      if going {
        var promised := MajorityTest(nodes, accepts);
        if promised {
          if |v| == 0 { v := newv; }
          var acks := Accept(accepts, ok);
          var won := MajorityTest(nodes, acks);
          out := if won then Won(v, accepts, acks) else NotAccepted(v, accepts);
        } else {
          out := NotPromised;
        }
      } else {
        out := Learned(v);
      }
      stable := true;
    }
  }

  lemma {:induction false} StaysOld(nodes: seq<string>, answers: seq<Answer>, i: nat)
    requires |answers| == |nodes| && i <= |nodes|
    requires HearAll(nodes[..i], answers[..i]).Old?
    ensures HearAll(nodes, answers) == HearAll(nodes[..i], answers[..i])
    decreases |nodes|
  {
    if i == |nodes| {
      assert nodes[..i] == nodes && answers[..i] == answers;
    } else {
      var k := |nodes| - 1;
      assert nodes[..k][..i] == nodes[..i] && answers[..k][..i] == answers[..i];
      StaysOld(nodes[..k], answers[..k], i);
    }
  }
}
