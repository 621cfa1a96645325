/** Safety of a Paxos instance over whole runs. */
module PaxosSafety {
  import opened Ballots
  import opened Acceptors
  import opened Options
  import opened Proposers
  import opened Paxos
  import opened PaxosNet
  import opened PaxosSteps

  /** In every run no two nodes decide differently, and what they decide was offered by some proposer. */
  lemma Agreement(c: Config, run: Run)
    requires Legal(STRICT, c, run)
    ensures forall x, y, v, w :: Decided(c, Last(c, run), x, v) && Decided(c, Last(c, run), y, w) ==> v == w
    ensures forall x, v :: Decided(c, Last(c, run), x, v) ==> v in Last(c, run).h.offered
  {
    var t := Last(c, run);
    RunKeeps(c, run);
    forall x, y, v, w | Decided(c, t, x, v) && Decided(c, t, y, w) ensures v == w && v in t.h.offered {
      assert AccOk(c, t.h.net, x, t.acc[x]) && AccOk(c, t.h.net, y, t.acc[y]);
      OneChosen(c, t.h, v, w);
      var b :| ChosenAt(c, t.h.net, b, v);
      var r: nat, to: Node :| AcceptMsg(b, r, to, v) in t.h.net;
      assert MsgOk(c, t.h, AcceptMsg(b, r, to, v));
    }
  }

  lemma {:induction false} AskedForever(c: Config, run: Run, later: Run, b: Ballot, v: Value)
    requires Continues(run, later) && Asked(Last(c, run).h.net, b, v)
    ensures Asked(Last(c, later).h.net, b, v)
  {
    if run != later {
      AskedForever(c, run, later.past, b, v);
      assert Last(c, later) == Moved(c, later.past, later.e);
      AskedGrows(Last(c, later.past).h.net, Last(c, later).h.net, b, v);
    }
  }

  /** Once an accept for `(b, v)` is out, no continuation of the run ever chooses another value at or below `b`. */
  lemma BallotSafety(c: Config, run: Run, later: Run, b: Ballot, v: Value)
    requires Legal(STRICT, c, later) && Continues(run, later) && Asked(Last(c, run).h.net, b, v)
    ensures forall b', v' :: Ge(b, b') && ChosenAt(c, Last(c, later).h.net, b', v') ==> v' == v
  {
    AskedForever(c, run, later, b, v);
    RunKeeps(c, later);
    forall b', v' | Ge(b, b') && ChosenAt(c, Last(c, later).h.net, b', v') ensures v' == v {
      ChosenBinds(c, Last(c, later).h, b', v', b, v);
    }
  }

  /** No assertion of `decidereq` can fail in any run. */
  lemma DecideNeverFails(c: Config, run: Run, to: Node, v: Value)
    requires Legal(STRICT, c, run) && Enabled(c, Last(c, run), Deliver(DecideMsg(to, v)))
    ensures DecideAsserts(Last(c, run).acc[to], c.instance, v)
  {
    RunKeeps(c, run);
    DecideIsSafe(c, Last(c, run), to, v);
  }
}
