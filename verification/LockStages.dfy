/**
 * The lock protocol seen from outside the clients: the server, where each client stands, the flags that revoke
 * and retry messages leave behind, and the handler threads about to deliver such a message.
 */
module LockStages {
  import opened LockNodes
  import opened Sequences

  /**
   * Out: not involved. Asking: first acquire on its way. InLine: queued, waiting for a retry. Again: second
   * acquire on its way. Granted: granted, reply on its way. Held: cached or in use. Returning: release on its
   * way. Returned: released, reply on its way.
   */
  datatype Stage = Out | Asking | InLine | Again | Granted | Held | Returning | Returned

  datatype Abs = Abs(
    sv: Server, stage: map<Client, Stage>, toRevoke: set<Client>, toRetry: set<Client>,
    revokers: set<Ref>, retriers: set<Ref>)

  predicate Owns(s: Stage) {
    s == Granted || s == Held || s == Returning
  }

  predicate Lines(s: Stage) {
    s == InLine || s == Again
  }

  ghost predicate AtMostOne(xs: set<Ref>) {
    forall x, y :: x in xs && y in xs ==> x == y
  }

  /** Who owns the lock and who is in line, at the server and at the clients, agree. */
  ghost predicate Ownership(a: Abs) {
    && (forall c :: c in a.stage ==> (Owns(a.stage[c]) <==> a.sv.locked && a.sv.owner == c))
    && (if a.sv.locked then a.sv.owner in a.stage && a.sv.created else a.sv.owner == "")
    && (forall c :: c in a.sv.queue <==> c in a.stage && Lines(a.stage[c]))
    && (a.sv.queue != [] ==> a.sv.created) && NoRepeats(a.sv.queue)
  }

  /** While the lock is taken: a revoke is under way exactly when somebody waits, and only one. */
  ghost predicate RevokeOk(a: Abs) {
    && AtMostOne(a.revokers)
    && (a.revokers != {} ==>
          && a.sv.locked && a.sv.queue != [] && a.sv.owner !in a.toRevoke && a.sv.owner in a.stage
          && (a.stage[a.sv.owner] == Granted || a.stage[a.sv.owner] == Held))
    && (forall c :: c in a.toRevoke ==>
          && a.sv.locked && a.sv.owner == c && a.sv.queue != [] && c in a.stage
          && (a.stage[c] == Granted || a.stage[c] == Held))
    && (a.sv.locked && a.sv.owner in a.stage ==>
          if a.sv.queue == [] then a.stage[a.sv.owner] != Returning
          else a.revokers != {} || a.sv.owner in a.toRevoke || a.stage[a.sv.owner] == Returning)
  }

  /** While the lock is free and somebody waits: exactly one wake-up for the front of the line is under way. */
  ghost predicate RetryOk(a: Abs) {
    && AtMostOne(a.retriers)
    && (forall c :: c in a.stage && a.stage[c] == Again ==> !a.sv.locked && a.sv.queue != [] && a.sv.queue[0] == c)
    && (forall c :: c in a.toRetry ==>
          !a.sv.locked && a.sv.queue != [] && a.sv.queue[0] == c && c in a.stage && a.stage[c] == InLine)
    && (a.retriers != {} ==>
          && !a.sv.locked && a.sv.queue != [] && a.sv.queue[0] !in a.toRetry
          && a.sv.queue[0] in a.stage && a.stage[a.sv.queue[0]] == InLine)
    && (!a.sv.locked && a.sv.queue != [] && a.sv.queue[0] in a.stage ==>
          a.retriers != {} || a.sv.queue[0] in a.toRetry || a.stage[a.sv.queue[0]] == Again)
  }

  ghost predicate Good(a: Abs) {
    Ownership(a) && RevokeOk(a) && RetryOk(a)
  }

  // ----- the steps

  lemma Ask(a: Abs, c: Client)
    requires Good(a) && c in a.stage && a.stage[c] == Out
    ensures Good(a.(stage := a.stage[c := Asking]))
  {
  }

  function AfterServe(a: Abs, c: Client, x: Ref): Abs {
    var (sv, r) := Serve(a.sv, c);
    a.(sv := sv, stage := a.stage[c := if r.status == Ok then Granted else InLine],
       revokers := if r.revoke then a.revokers + {x} else a.revokers)
  }

  lemma ServeOwnership(a: Abs, c: Client, x: Ref)
    requires Good(a) && c in a.stage && (a.stage[c] == Asking || a.stage[c] == Again)
    ensures Ownership(AfterServe(a, c, x))
  {
  }

  lemma ServeKeeps(a: Abs, c: Client, x: Ref)
    requires Good(a) && c in a.stage && (a.stage[c] == Asking || a.stage[c] == Again)
    ensures Good(AfterServe(a, c, x))
  {
    ServeOwnership(a, c, x);
    var a' := AfterServe(a, c, x);
    assert a.stage[c] == Asking ==> c !in a.sv.queue;
    assert !a.sv.locked && a.sv.queue != [] ==> a.sv.queue[0] in a.sv.queue && a.sv.queue[0] in a.stage;
    assert RevokeOk(a');
    assert RetryOk(a');
  }

  /** A second acquire is granted on the spot: the lock is free and its client is in front. */
  lemma AgainIsGranted(a: Abs, c: Client)
    requires Good(a) && c in a.stage && a.stage[c] == Again
    ensures Serve(a.sv, c).1.status == Ok && a.sv.queue[0] == c && Serve(a.sv, c).0.queue == a.sv.queue[1..]
  {
  }

  /** The revoke reaches the owner, which notes it or starts returning the lock. */
  lemma RevokeHandled(a: Abs, x: Ref, returns': bool)
    requires Good(a) && x in a.revokers
    requires returns' ==> a.stage[a.sv.owner] == Held
    ensures Good(a.(revokers := a.revokers - {x},
                    toRevoke := if returns' then a.toRevoke else a.toRevoke + {a.sv.owner},
                    stage := if returns' then a.stage[a.sv.owner := Returning] else a.stage))
  {
  }

  lemma Got(a: Abs, c: Client)
    requires Good(a) && c in a.stage && a.stage[c] == Granted
    ensures Good(a.(stage := a.stage[c := Held]))
  {
  }

  lemma RetryTaken(a: Abs, c: Client)
    requires Good(a) && c in a.toRetry
    ensures Good(a.(toRetry := a.toRetry - {c}, stage := a.stage[c := Again]))
  {
  }

  lemma GivesBack(a: Abs, c: Client)
    requires Good(a) && c in a.toRevoke && c in a.stage && a.stage[c] == Held
    ensures Good(a.(toRevoke := a.toRevoke - {c}, stage := a.stage[c := Returning]))
  {
  }

  lemma Released(a: Abs, c: Client, x: Ref)
    requires Good(a) && c in a.stage && a.stage[c] == Returning
    ensures a.sv.queue != []
    ensures Good(a.(sv := Free(a.sv), stage := a.stage[c := Returned], retriers := a.retriers + {x}))
  {
  }

  lemma RetryHandled(a: Abs, x: Ref)
    requires Good(a) && x in a.retriers
    ensures Good(a.(retriers := a.retriers - {x}, toRetry := a.toRetry + {a.sv.queue[0]}))
  {
  }

  lemma Finished(a: Abs, c: Client)
    requires Good(a) && c in a.stage && a.stage[c] == Returned
    ensures Good(a.(stage := a.stage[c := Out]))
  {
  }

  // ----- what the steps never change under a message on its way

  /** Serving an acquire moves neither the owner while a revoke is on its way nor the front while a retry is. */
  lemma ServeAims(a: Abs, c: Client)
    requires Good(a) && c in a.stage && (a.stage[c] == Asking || a.stage[c] == Again)
    ensures a.revokers != {} ==> Serve(a.sv, c).0.owner == a.sv.owner
    ensures a.retriers != {} ==>
      a.sv.queue != [] && Serve(a.sv, c).0.queue != [] && Serve(a.sv, c).0.queue[0] == a.sv.queue[0]
  {
  }
}
