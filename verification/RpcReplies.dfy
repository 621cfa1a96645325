/** What the server sends back, and that every call can be answered: the other half of at-most-once execution. */
module RpcReplies {
  import opened Options
  import opened RpcClients
  import opened RpcServers
  import opened Rpc

  // ----- outputs are sent, and kept until acknowledged

  /** The output of a handler has been sent, and is kept unless its call has been acknowledged. */
  ghost predicate OutputKept(s: State, x: nat) {
    x in s.h.outputs ==>
      && Rep(x, Success(s.h.outputs[x])) in s.reps
      && (x in s.mem.forgotten || Entry(x, Some(s.h.outputs[x])) in s.mem.window)
  }

  lemma ArriveKeepsOutput(s: State, q: Req, x: nat)
    requires Inv(s) && q in s.reqs && OutputKept(s, x)
    ensures OutputKept(Apply(s, Arrive(q)), x)
  {
    assert ReqOk(s.client, q);
    CheckUpdates(s.mem, q.xid, q.xidRep);
  }

  lemma CompleteKeepsOutput(s: State, y: nat, out: Out, x: nat)
    requires Inv(s) && Enabled(s, Complete(y, out)) && OutputKept(s, x)
    ensures OutputKept(Apply(s, Complete(y, out)), x)
  {
    AddReplyUpdates(s.mem, y, out);
    assert Known(s.mem, y);
  }

  lemma {:induction false} OutputsKept(run: Run, x: nat)
    requires Legal(run)
    ensures OutputKept(Last(run), x)
  {
    match run
    case Begin =>
    case Then(past, e) =>
      assert Follows(past, e);
      OutputsKept(past, x);
      RunKeeps(past);
      match e
      case Arrive(q) => ArriveKeepsOutput(Last(past), q, x);
      case Complete(y, out) => CompleteKeepsOutput(Last(past), y, out, x);
      case _ =>
  }

  /** The output of every handler that has completed was sent to the client. */
  lemma OutputsAreSent(run: Run, x: nat)
    requires Legal(run) && x in Last(run).h.outputs
    ensures Rep(x, Success(Last(run).h.outputs[x])) in Last(run).reps
  {
    OutputsKept(run, x);
  }

  /**
   * What a request is answered with when it arrives. A new one starts its handler. A duplicate gets nothing while the
   * handler runs, the output once it has completed, and a failure once the call has been acknowledged.
   */
  lemma RequestAnswered(run: Run, q: Req)
    requires Legal(run) && q in Last(run).reqs
    ensures var s := Last(run);
      var v := Check(s.mem, q.xid, q.xidRep).1;
      && (v.New? <==> s.h.started[q.xid] == 0)
      && Response(q.xid, v) ==
           if q.xid in s.mem.forgotten then {Rep(q.xid, Forgotten)}
           else if q.xid in s.h.outputs then {Rep(q.xid, Success(s.h.outputs[q.xid]))}
           else {}
  {
    var s := Last(run);
    RunKeeps(run);
    OutputsKept(run, q.xid);
    assert ReqOk(s.client, q);
    CheckUpdates(s.mem, q.xid, q.xidRep);
    FindRemembers(s.mem, q.xid);
    if Remembers(s.mem, q.xid) && q.xid in s.h.outputs { OneEntry(s.mem, q.xid, Some(s.h.outputs[q.xid])); }
  }

  lemma OneEntry(m: Memory, x: nat, r: Option<Out>)
    requires DistinctIds(m.window) && Entry(x, r) in m.window
    ensures Find(m.window, x) < |m.window| && m.window[Find(m.window, x)] == Entry(x, r)
  {
    var i :| 0 <= i < |m.window| && m.window[i] == Entry(x, r);
    assert Find(m.window, x) <= i;
  }

  // ----- every call can be answered

  lemma Extend(run: Run, e: Event) returns (run': Run)
    requires Legal(run) && Enabled(Last(run), e)
    ensures run' == Then(run, e) && Legal(run') && Last(run') == Apply(Last(run), e)
  {
    run' := Then(run, e);
    assert Follows(run, e) && Moved(run, e) == Apply(Last(run), e);
  }

  /** A pending call has been sent. */
  ghost predicate Sent(s: State, x: nat) {
    x in s.client.calls ==> exists q :: q in s.reqs && q.xid == x
  }

  lemma {:induction false} CallsAreSent(run: Run, x: nat)
    requires Legal(run)
    ensures Sent(Last(run), x)
  {
    match run
    case Begin =>
    case Then(past, e) =>
      assert Follows(past, e);
      CallsAreSent(past, x);
      var s, s' := Last(past), Moved(past, e);
      if e.Issue? && x == s.client.next { assert Req(x, Front(s.client.done), e.arg) in s'.reqs; }
      if x in s.client.calls {
        var q :| q in s.reqs && q.xid == x;
        assert q in s'.reqs;
      }
  }

  predicate Continues(run: Run, later: Run) {
    run == later || (later.Then? && Continues(run, later.past))
  }

  /** The run goes on and ends with call `x` answered by its output `out`. */
  ghost predicate Answers(run: Run, run': Run, x: nat, out: Out) {
    && Legal(run') && Continues(run, run')
    && x in Last(run').client.calls && Last(run').client.calls[x].result == Some(Success(out))
    && x in Last(run').h.outputs && Last(run').h.outputs[x] == out
  }

  /** The reply of a pending call, once received, is its result. */
  lemma ReceiveAnswers(run: Run, x: nat) returns (run': Run)
    requires Legal(run) && Waiting(Last(run).client, x) && x in Last(run).h.outputs
    ensures run'.Then? && run'.past == run && Answers(run, run', x, Last(run).h.outputs[x])
  {
    OutputsAreSent(run, x);
    run' := Extend(run, Receive(Rep(x, Success(Last(run).h.outputs[x]))));
  }

  /** The handler of a pending call that has started can complete, with any output. */
  lemma CompleteAnswers(run: Run, x: nat, out: Out) returns (run': Run)
    requires Legal(run) && Waiting(Last(run).client, x) && Last(run).h.started[x] > 0 && x !in Last(run).h.outputs
    ensures run'.Then? && run'.past.Then? && run'.past.past == run && Answers(run, run', x, out)
  {
    var mid := Extend(run, Complete(x, out));
    run' := ReceiveAnswers(mid, x);
  }

  /** In every reachable state every pending call can still be answered, with its output if it has one already. */
  lemma PendingCanBeAnswered(run: Run, x: nat, out: Out) returns (run': Run)
    requires Legal(run) && Waiting(Last(run).client, x)
    ensures Answers(run, run', x, if x in Last(run).h.outputs then Last(run).h.outputs[x] else out)
  {
    var s := Last(run);
    RunKeeps(run);
    if x in s.h.outputs {
      run' := ReceiveAnswers(run, x);
    } else if s.h.started[x] > 0 {
      run' := CompleteAnswers(run, x, out);
    } else {
      CallsAreSent(run, x);
      var q :| q in s.reqs && q.xid == x;
      RequestAnswered(run, q);
      var mid := Extend(run, Arrive(q));
      run' := CompleteAnswers(mid, x, out);
      assert Continues(run, mid) && Continues(run, run'.past);
    }
  }

  // ----- the server's memory is given back

  /** Once a new call has arrived, the server keeps replies only beyond the calls the client was done with. */
  lemma AcknowledgedAreForgotten(run: Run, arg: string, x: nat)
    requires Legal(run)
    ensures var c := Last(run).client;
      var q := Req(c.next, Front(c.done), arg);
      var run' := Then(Then(run, Issue(arg)), Arrive(q));
      Legal(run') && (Remembers(Last(run').mem, x) ==> x > Front(c.done))
  {
    var c := Last(run).client;
    var q := Req(c.next, Front(c.done), arg);
    var mid := Extend(run, Issue(arg));
    var run' := Extend(mid, Arrive(q));
    RunKeeps(mid);
    assert ReqOk(Last(mid).client, q);
    CheckUpdates(Last(mid).mem, q.xid, q.xidRep);
  }

  /** Every call made is pending or done. */
  lemma {:induction false} PendingOrDone(run: Run, x: nat)
    requires Legal(run) && 1 <= x < Last(run).client.next
    ensures x in Last(run).client.calls || x in Last(run).client.done
  {
    if run.Then? {
      assert Follows(run.past, run.e);
      RunKeeps(run.past);
      if x < Last(run.past).client.next { PendingOrDone(run.past, x); }
    }
  }

  /** A client without pending calls acknowledges all its calls in its next request. */
  lemma IdleAcknowledgesAll(run: Run)
    requires Legal(run) && Last(run).client.calls == map[]
    ensures Front(Last(run).client.done) == Last(run).client.next - 1
  {
    RunKeeps(run);
    var c := Last(run).client;
    forall x | 1 <= x < c.next ensures x in c.done { PendingOrDone(run, x); }
    FrontUnique(c.done, Front(c.done), c.next - 1);
  }

  // ----- the request resent on purpose

  /** The acknowledgements carried by the calls whose end has been recorded. */
  ghost function Recorded(run: Run): set<nat> {
    if run.Begin? then {}
    else if run.e.Record? && run.e.xid in Last(run.past).client.leaving then
      Recorded(run.past) + {Last(run.past).client.leaving[run.e.xid]}
    else Recorded(run.past)
  }

  lemma {:induction false} HighestRecorded(run: Run)
    requires Legal(run)
    ensures var top := Last(run).client.repDone;
      if Recorded(run) == {} then top == -1 else top in Recorded(run) && forall k :: k in Recorded(run) ==> k <= top
  {
    if run.Then? {
      assert Follows(run.past, run.e);
      HighestRecorded(run.past);
    }
  }

  /** The kept request is due exactly if a call that carried a later acknowledgement has ended, answered. */
  lemma DueIffPassed(run: Run)
    requires Legal(run)
    ensures var c := Last(run).client;
      StaleDue(c) <==> c.dup.Some? && exists k :: k in Recorded(run) && k > c.dup.value
  {
    HighestRecorded(run);
  }

  /**
   * In lossy mode the first answered call to end is kept. Once an answered call that acknowledges it has ended too, it
   * is resent, and answered with a failure.
   */
  lemma KeptRequestIsResent(run: Run, x: nat, y: nat) returns (q: Req)
    requires Legal(run) && Last(run).client.dup == None && x != y
    requires x in Last(run).client.calls && Last(run).client.calls[x].result.Some?
    requires y in Last(run).client.calls && Last(run).client.calls[y].result.Some?
    requires Last(run).client.calls[y].xidRep > x
    ensures var run' := Then(Then(Then(Then(Then(run, Leave(x, true)), Leave(y, true)), Record(x)), Record(y)), Resend);
      && Legal(run') && Last(run').h.resent == Last(run).h.resent + {x}
      && q in Last(run').reqs && q.xid == x
      && Rep(x, Forgotten) in Last(Then(run', Arrive(q))).reps
  {
    var one := Extend(run, Leave(x, true));
    var two := Extend(one, Leave(y, true));
    var three := Extend(two, Record(x));
    var four := Extend(three, Record(y));
    var run' := Extend(four, Resend);
    RunKeeps(run');
    assert Known(Last(run').mem, x);
    q :| q in Last(run').h.arrived && q.xid == x;
    var done := Extend(run', Arrive(q));
    RequestAnswered(run', q);
  }
}
