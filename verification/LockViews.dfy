/** What every event of the lock protocol looks like from outside the clients, and to the threads that wait. */
module LockViews {
  import opened LockNodes
  import opened LockStages
  import opened Locks
  import opened LockMoves

  lemma AcquireView(s: State, x: Ref)
    requires Local(s) && Enabled(s, Acquire(x))
    ensures var a, p := View(s), DoAcquire(s, x).pc[x];
      && View(DoAcquire(s, x)) == (if p.Acq? then a.(stage := a.stage[x.c := Asking]) else a)
      && (p.Acq? ==> a.stage[x.c] == Out)
  {
    var s' := DoAcquire(s, x);
    var c := x.c;
    assert ThreadOk(s.cl, x, s.pc[x]) && InfoOk(s.pc, c, s.cl[c]);
    forall d | d in s.cl && Uses(s, d, x) ensures d == c { WorksFor(s, x, d); }
    MoveView(s, s', x, c, s'.cl[c], s'.pc[x]);
  }

  lemma ReleaseView(s: State, x: Ref)
    requires Local(s) && Enabled(s, Release(x))
    ensures var a, p := View(s), DoRelease(s, x).pc[x];
      && View(DoRelease(s, x)) ==
           (if p.Rel? then a.(toRevoke := a.toRevoke - {x.c}, stage := a.stage[x.c := Returning]) else a)
      && (p.Rel? ==> x.c in a.toRevoke && a.stage[x.c] == Held)
  {
    var s' := DoRelease(s, x);
    var c := x.c;
    assert ThreadOk(s.cl, x, s.pc[x]) && InfoOk(s.pc, c, s.cl[c]);
    forall d | d in s.cl && Uses(s, d, x) ensures d == c { WorksFor(s, x, d); }
    MoveView(s, s', x, c, s'.cl[c], s'.pc[x]);
  }

  /** Where the client of a woken thread stands, before and after. */
  lemma WakeStage(s: State, x: Ref)
    requires Local(s) && Enabled(s, Wake(x))
    ensures var s', c := DoWake(s, x), x.c;
      var was, now, p := StageOf(s.cl, s.pc, c), StageOf(s'.cl, s'.pc, c), s'.pc[x];
      && (forall d :: d in s.cl && Uses(s, d, x) ==> d == c)
      && now == (if !p.Acq? then was else if p.again then Again else Asking)
      && (p.Acq? && !p.again ==> was == Out)
      && s'.cl[c].toRevoke == s.cl[c].toRevoke
      && (if p.Acq? && p.again then s.cl[c].toRetry && !s'.cl[c].toRetry else s'.cl[c].toRetry == s.cl[c].toRetry)
  {
    var c := x.c;
    assert ThreadOk(s.cl, x, s.pc[x]) && InfoOk(s.pc, c, s.cl[c]);
    forall d | d in s.cl && Uses(s, d, x) ensures d == c { WorksFor(s, x, d); }
  }

  lemma WakeView(s: State, x: Ref)
    requires Local(s) && Enabled(s, Wake(x))
    ensures var a, p, c := View(s), DoWake(s, x).pc[x], x.c;
      && View(DoWake(s, x)) ==
           (if !p.Acq? then a
            else if p.again then a.(toRetry := a.toRetry - {c}, stage := a.stage[c := Again])
            else a.(stage := a.stage[c := Asking]))
      && (p.Acq? ==> if p.again then c in a.toRetry else a.stage[c] == Out)
  {
    WakeStage(s, x);
    MoveView(s, DoWake(s, x), x, x.c, DoWake(s, x).cl[x.c], DoWake(s, x).pc[x]);
  }

  lemma AnswerView(s: State, x: Ref)
    requires Local(s) && Enabled(s, Answer(x))
    ensures var a, p, c := View(s), DoAnswer(s, x).pc[x], x.c;
      && View(DoAnswer(s, x)) ==
           (if p.Holding? then a.(stage := a.stage[c := Held])
            else if p.Acq? then a.(toRetry := a.toRetry - {c}, stage := a.stage[c := Again])
            else a)
      && (p.Holding? ==> a.stage[c] == Granted) && (p.Acq? ==> c in a.toRetry)
  {
    var s' := DoAnswer(s, x);
    var c := x.c;
    assert ThreadOk(s.cl, x, s.pc[x]) && InfoOk(s.pc, c, s.cl[c]);
    forall d | d in s.cl && Uses(s, d, x) ensures d == c { WorksFor(s, x, d); }
    MoveView(s, s', x, c, s'.cl[c], s'.pc[x]);
  }

  lemma ServeAcquireView(s: State, x: Ref)
    requires Local(s) && Enabled(s, ServeAcquire(x))
    ensures View(DoServeAcquire(s, x)) == AfterServe(View(s), x.c, x)
    ensures View(s).stage[x.c] == if s.pc[x].again then Again else Asking
  {
    var s' := DoServeAcquire(s, x);
    var c := x.c;
    assert ThreadOk(s.cl, x, s.pc[x]) && InfoOk(s.pc, c, s.cl[c]);
    assert s'.cl == s.cl[c := s.cl[c]];
    forall d | d in s.cl && Uses(s, d, x) ensures d == c { WorksFor(s, x, d); }
    MoveView(s, s', x, c, s.cl[c], s'.pc[x]);
  }

  /** A step of a call that only reads leaves the view alone. */
  lemma ReadView(s: State, s': State, x: Ref, p: Pc)
    requires Local(s) && x in s.pc && x.c in s.cl && s'.sv == s.sv && s'.cl == s.cl && s'.pc == s.pc[x := p]
    requires s.pc[x].Acq? == p.Acq? && Releasing(s.pc[x]) == Releasing(p) && (p.Acq? || p.Rel?)
    requires p.Acq? ==> p.again == s.pc[x].again && AcqStage(p.again, p.call) == AcqStage(p.again, s.pc[x].call)
    requires Releasing(p) ==> RelStage(RelOf(p)) == RelStage(RelOf(s.pc[x]))
    requires RevokeDue(p) == RevokeDue(s.pc[x]) && RetryDue(p) == RetryDue(s.pc[x])
    ensures View(s') == View(s)
  {
    var c := x.c;
    assert s'.cl == s.cl[c := s.cl[c]];
    assert ThreadOk(s.cl, x, s.pc[x]) && InfoOk(s.pc, c, s.cl[c]);
    MoveView(s, s', x, c, s.cl[c], p);
  }

  lemma HandleRevokeStage(s: State, x: Ref)
    requires Local(s) && Enabled(s, HandleRevoke(x)) && !s.cl[s.pc[x].call.target].toRevoke
    ensures var s', o := DoHandleRevoke(s, x), s.pc[x].call.target;
      var was, now, gives := StageOf(s.cl, s.pc, o), StageOf(s'.cl, s'.pc, o), s'.pc[x].call.Revoking?;
      && now == (if gives then Returning else was) && (gives ==> was == Held)
      && s'.cl[o].toRevoke == !gives && s'.cl[o].toRetry == s.cl[o].toRetry
      && !RevokeDue(s'.pc[x]) && !RetryDue(s.pc[x]) && !RetryDue(s'.pc[x])
      && forall d :: d in s.cl && d != o && Uses(s, d, x) ==> StageAt(s.cl[d], s'.pc[x]) == StageAt(s.cl[d], s.pc[x])
  {
    var o := s.pc[x].call.target;
    assert ThreadOk(s.cl, x, s.pc[x]) && InfoOk(s.pc, o, s.cl[o]) && InfoOk(s.pc, x.c, s.cl[x.c]);
    forall d | d in s.cl && Uses(s, d, x) ensures d == x.c { WorksFor(s, x, d); }
  }

  lemma HandleRevokeView(s: State, x: Ref)
    requires Local(s) && Enabled(s, HandleRevoke(x)) && !s.cl[s.pc[x].call.target].toRevoke
    ensures var a, o, gives := View(s), s.pc[x].call.target, DoHandleRevoke(s, x).pc[x].call.Revoking?;
      && View(DoHandleRevoke(s, x)) ==
           a.(revokers := a.revokers - {x}, toRevoke := if gives then a.toRevoke else a.toRevoke + {o},
              stage := if gives then a.stage[o := Returning] else a.stage)
      && x in a.revokers && (gives ==> a.stage[o] == Held)
  {
    var s', o := DoHandleRevoke(s, x), s.pc[x].call.target;
    HandleRevokeStage(s, x);
    MoveView(s, s', x, o, s'.cl[o], s'.pc[x]);
  }

  /** Steps of a release leave the stage of the handler's own client alone. */
  lemma HandlerStage(s: State, x: Ref, p: Pc, d: Client)
    requires Local(s) && x in s.pc && Releasing(s.pc[x]) && d in s.cl && d != Releaser(x, s.pc[x]) && Uses(s, d, x)
    requires p.Acq? && s.pc[x].Acq? ==>
      p.again == s.pc[x].again && AcqStage(p.again, p.call) == AcqStage(p.again, s.pc[x].call)
    requires s.pc[x].Acq? ==> p.Acq?
    ensures StageAt(s.cl[d], p) == StageAt(s.cl[d], s.pc[x])
  {
    WorksFor(s, x, d);
    assert InfoOk(s.pc, d, s.cl[d]);
    assert ThreadOk(s.cl, x, s.pc[x]);
  }

  /** A step of a release from one stage to another: other clients stand where they stood. */
  lemma ReleaseStages(s: State, x: Ref, r: RelCall)
    requires Local(s) && x in s.pc && Releasing(s.pc[x])
    ensures var c, p := Releaser(x, s.pc[x]), WithRel(s.pc[x], r);
      && c in s.cl && StageOf(s.cl, s.pc, c) == RelStage(RelOf(s.pc[x]))
      && StageOf(s.cl, s.pc[x := p], c) == RelStage(r)
      && RevokeDue(p) == RevokeDue(s.pc[x]) == false && (RetryDue(p) <==> r.Retry? || r.Retrying?)
      && forall d :: d in s.cl && d != c && Uses(s, d, x) ==> StageAt(s.cl[d], p) == StageAt(s.cl[d], s.pc[x])
  {
    var c, p := Releaser(x, s.pc[x]), WithRel(s.pc[x], r);
    assert ThreadOk(s.cl, x, s.pc[x]) && InfoOk(s.pc, c, s.cl[c]);
    forall d | d in s.cl && d != c && Uses(s, d, x) ensures StageAt(s.cl[d], p) == StageAt(s.cl[d], s.pc[x]) {
      HandlerStage(s, x, p, d);
    }
  }

  lemma ServeReleaseView(s: State, x: Ref)
    requires Local(s) && Enabled(s, ServeRelease(x)) && s.sv.queue != []
    ensures var a, c := View(s), Releaser(x, s.pc[x]);
      && c in a.stage && a.stage[c] == Returning
      && View(DoServeRelease(s, x)) ==
           a.(sv := Free(a.sv), stage := a.stage[c := Returned], retriers := a.retriers + {x})
  {
    var s', c := DoServeRelease(s, x), Releaser(x, s.pc[x]);
    ReleaseStages(s, x, Retry);
    assert s'.cl == s.cl[c := s.cl[c]];
    MoveView(s, s', x, c, s.cl[c], s'.pc[x]);
  }

  lemma FlagView(s: State, f: Client)
    requires f in s.cl && !s.cl[f].toRetry
    ensures View(s.(cl := s.cl[f := s.cl[f].(toRetry := true)])) == View(s).(toRetry := View(s).toRetry + {f})
  {
    var s' := s.(cl := s.cl[f := s.cl[f].(toRetry := true)]);
    assert View(s').stage == View(s).stage;
    assert View(s').toRetry == View(s).toRetry + {f};
    assert View(s').toRevoke == View(s).toRevoke;
  }

  lemma RetryDoneView(s: State, x: Ref)
    requires Local(s) && x in s.pc && RetryDue(s.pc[x])
    ensures View(s.(pc := s.pc[x := WithRel(s.pc[x], RelReplied)])) == View(s).(retriers := View(s).retriers - {x})
    ensures x in View(s).retriers
  {
    var p, c := WithRel(s.pc[x], RelReplied), Releaser(x, s.pc[x]);
    var mid := s.(pc := s.pc[x := p]);
    ReleaseStages(s, x, RelReplied);
    assert mid.cl == s.cl[c := s.cl[c]];
    MoveView(s, mid, x, c, s.cl[c], p);
  }

  lemma HandleRetryView(s: State, x: Ref)
    requires Local(s) && Enabled(s, HandleRetry(x)) && !s.cl[RelOf(s.pc[x]).front].toRetry
    ensures var a, f := View(s), RelOf(s.pc[x]).front;
      View(DoHandleRetry(s, x)) == a.(retriers := a.retriers - {x}, toRetry := a.toRetry + {f}) && x in a.retriers
  {
    RetryDoneView(s, x);
    FlagView(s.(pc := s.pc[x := WithRel(s.pc[x], RelReplied)]), RelOf(s.pc[x]).front);
  }

  lemma EndStage(s: State, x: Ref)
    requires Local(s) && Enabled(s, EndRelease(x))
    ensures var s', c := DoEndRelease(s, x), Releaser(x, s.pc[x]);
      && StageOf(s.cl, s.pc, c) == Returned && StageOf(s'.cl, s'.pc, c) == Out
      && !RevokeDue(s.pc[x]) && !RevokeDue(s'.pc[x]) && !RetryDue(s.pc[x]) && !RetryDue(s'.pc[x])
      && s'.cl[c].toRevoke == s.cl[c].toRevoke && s'.cl[c].toRetry == s.cl[c].toRetry
      && forall d :: d in s.cl && d != c && Uses(s, d, x) ==> StageAt(s.cl[d], s'.pc[x]) == StageAt(s.cl[d], s.pc[x])
  {
    var s', c := DoEndRelease(s, x), Releaser(x, s.pc[x]);
    assert ThreadOk(s.cl, x, s.pc[x]) && InfoOk(s.pc, c, s.cl[c]);
    forall d | d in s.cl && d != c && Uses(s, d, x) ensures StageAt(s.cl[d], s'.pc[x]) == StageAt(s.cl[d], s.pc[x]) {
      HandlerStage(s, x, s'.pc[x], d);
    }
  }

  lemma EndView(s: State, x: Ref)
    requires Local(s) && Enabled(s, EndRelease(x))
    ensures var a, c := View(s), Releaser(x, s.pc[x]);
      a.stage[c] == Returned && View(DoEndRelease(s, x)) == a.(stage := a.stage[c := Out])
  {
    var s', c := DoEndRelease(s, x), Releaser(x, s.pc[x]);
    EndStage(s, x);
    MoveView(s, s', x, c, s'.cl[c], s'.pc[x]);
  }

  // ----- wake-ups

  /** A move leaves no wait of another thread both over and unnoticed. */
  lemma MoveWoken(s: State, s': State, x: Ref, c: Client, i: Info, p: Pc)
    requires Local(s) && Woken(s) && Moves(s, s', x, c, i, p) && s.woken - {x} <= s'.woken
    requires x.c in s'.cl && WakeOk(s'.cl[x.c], p, x in s'.woken)
    requires i.state == FREE && s.cl[c].state != FREE ==> forall y :: y in Waiting(s, c, WaitFree) ==> y in s'.woken
    requires i.state == NONE && s.cl[c].state != NONE ==> forall y :: y in Waiting(s, c, WaitNone) ==> y in s'.woken
    requires i.toRetry && !s.cl[c].toRetry ==> forall y :: y in Waiting(s, c, WaitRetry) ==> y in s'.woken
    ensures Woken(s')
  {
    forall y | y in s'.pc && y.c in s'.cl ensures WakeOk(s'.cl[y.c], s'.pc[y], y in s'.woken) {
      if y != x {
        assert WakeOk(s.cl[y.c], s.pc[y], y in s.woken);
        assert y.c == c && s.pc[y].WaitFree? ==> y in Waiting(s, c, WaitFree);
        assert y.c == c && s.pc[y].WaitNone? ==> y in Waiting(s, c, WaitNone);
        assert y.c == c && s.pc[y].WaitRetry? ==> y in Waiting(s, c, WaitRetry);
      }
    }
  }

  lemma NoneWaiting(s: State, c: Client)
    requires Local(s) && c in s.cl
    ensures s.cl[c].waiters == {} ==> Waiting(s, c, WaitFree) == {}
    ensures !s.cl[c].waitingToAcq ==> Waiting(s, c, WaitNone) == {}
    ensures !s.cl[c].waitingToRetry ==> Waiting(s, c, WaitRetry) == {}
  {
    forall y | y in s.pc && y.c == c ensures ThreadOk(s.cl, y, s.pc[y]) {}
  }

  lemma OwnWoken(s: State, e: Event)
    requires Local(s) && Woken(s) && Enabled(s, e) && (e.Acquire? || e.Release? || e.Wake? || e.Answer?)
    ensures Woken(Apply(s, e))
  {
    var s', x, c := Apply(s, e), e.x, e.x.c;
    assert WakeOk(s.cl[c], s.pc[x], x in s.woken);
    NoneWaiting(s, c);
    MoveWoken(s, s', x, c, s'.cl[c], s'.pc[x]);
  }

  lemma OtherWoken(s: State, e: Event)
    requires Local(s) && Woken(s) && Enabled(s, e) && (e.HandleRevoke? || e.HandleRetry? || e.EndRelease?)
    ensures Woken(Apply(s, e))
  {
    var s', x := Apply(s, e), e.x;
    var c :=
      if e.HandleRevoke? then s.pc[x].call.target
      else if e.HandleRetry? then RelOf(s.pc[x]).front
      else Releaser(x, s.pc[x]);
    NoneWaiting(s, c);
    MoveWoken(s, s', x, c, s'.cl[c], s'.pc[x]);
  }

  lemma EventWoken(s: State, e: Event)
    requires Local(s) && Woken(s) && Enabled(s, e)
    ensures Woken(Apply(s, e))
  {
    var s', x, c := Apply(s, e), e.x, e.x.c;
    if e.Acquire? || e.Release? || e.Wake? || e.Answer? {
      OwnWoken(s, e);
    } else if e.HandleRevoke? || e.HandleRetry? || e.EndRelease? {
      OtherWoken(s, e);
    } else {
      assert WakeOk(s.cl[c], s.pc[x], x in s.woken);
      assert s'.cl == s.cl[c := s.cl[c]] && s'.pc == s.pc[x := s'.pc[x]];
      MoveWoken(s, s', x, c, s.cl[c], s'.pc[x]);
    }
  }

  // ----- messages aim at the present owner and front

  lemma ViewDuties(s: State, y: Ref)
    requires y in s.pc
    ensures RevokeDue(s.pc[y]) <==> y in View(s).revokers
    ensures RetryDue(s.pc[y]) <==> y in View(s).retriers
  {
  }

  lemma ServeAcquireAimed(s: State, x: Ref)
    requires Inv(s) && Enabled(s, ServeAcquire(x))
    ensures Aimed(DoServeAcquire(s, x))
  {
    var s' := DoServeAcquire(s, x);
    ServeAcquireView(s, x);
    ServeAims(View(s), x.c);
    forall y | y in s'.pc ensures AimOk(s'.sv, s'.pc[y]) {
      if y != x {
        assert AimOk(s.sv, s.pc[y]);
        ViewDuties(s, y);
      }
    }
  }

  lemma ServeReleaseAimed(s: State, x: Ref)
    requires Inv(s) && Enabled(s, ServeRelease(x)) && s.sv.queue != [] && View(s).revokers == {}
    ensures Aimed(DoServeRelease(s, x))
  {
    var s' := DoServeRelease(s, x);
    forall y | y in s'.pc ensures AimOk(s'.sv, s'.pc[y]) {
      if y != x {
        assert AimOk(s.sv, s.pc[y]);
        ViewDuties(s, y);
      }
    }
  }

  /** All other steps leave the server alone. */
  lemma StillAimed(s: State, s': State, x: Ref)
    requires Aimed(s) && s'.sv == s.sv && x in s.pc && s'.pc.Keys == s.pc.Keys
    requires forall y :: y in s.pc && y != x ==> s'.pc[y] == s.pc[y]
    requires AimOk(s.sv, s'.pc[x])
    ensures Aimed(s')
  {
    forall y | y in s'.pc ensures AimOk(s'.sv, s'.pc[y]) {
      if y != x { assert AimOk(s.sv, s.pc[y]); }
    }
  }
}
