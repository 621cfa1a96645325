/** The client end of an RPC connection: pending calls and the window of acknowledged transaction ids. */
module RpcClients {
  import opened Options

  type Out = string

  /** What the server answers: the handler's output, or that it no longer remembers the call. */
  datatype Reply = Success(out: Out) | Forgotten

  // ----- the acknowledgement window

  predicate Sorted(w: seq<nat>) {
    forall i, j :: 0 <= i < j < |w| ==> w[i] <= w[j]
  }

  /** Calls 1 to `k` are all done and call `k + 1` is not. */
  predicate IsFront(done: set<nat>, k: nat) {
    (forall x :: 1 <= x <= k ==> x in done) && k + 1 !in done
  }

  lemma FrontUnique(done: set<nat>, k: nat, l: nat)
    requires IsFront(done, k) && IsFront(done, l)
    ensures k == l
  {
  }

  /** The list `w` stands for the set of done calls: its head is the front, the rest what is done beyond it. */
  ghost predicate Represents(w: seq<nat>, done: set<nat>) {
    && |w| > 0 && Sorted(w) && IsFront(done, w[0])
    && forall x: nat :: x > w[0] ==> (x in done <==> x in w)
  }

  /** As `Represents`, but the head may lag behind the front: the list before it is compressed. */
  ghost predicate Lags(w: seq<nat>, done: set<nat>) {
    && |w| > 0 && Sorted(w)
    && (forall x :: 1 <= x <= w[0] ==> x in done)
    && forall x: nat :: x > w[0] ==> (x in done <==> x in w)
  }

  lemma InsertLags(w: seq<nat>, i: nat, xid: nat, done: set<nat>)
    requires Represents(w, done) && xid > w[0] && 1 <= i <= |w|
    requires forall j :: 0 <= j < i ==> w[j] <= xid
    requires i < |w| ==> w[i] > xid
    ensures Lags(w[..i] + [xid] + w[i..], done + {xid})
  {
  }

  lemma PopLags(w: seq<nat>, done: set<nat>)
    requires Lags(w, done) && |w| > 1 && (w[1] == w[0] || w[1] == w[0] + 1)
    ensures Lags(w[1..], done)
  {
  }

  // ----- the client state and its steps

  /** A call in progress: the acknowledgement its header carries and the reply, once there. */
  datatype Caller = Caller(xidRep: nat, result: Option<Reply>)

  /**
   * `leaving` holds answered calls between the two critical sections at the end of a call; `dup` and `repDone`
   * are the lossy-mode bookkeeping: a request kept for resending, and the highest acknowledgement answered.
   */
  datatype Client = Client(
    next: nat, calls: map<nat, Caller>, leaving: map<nat, nat>, done: set<nat>, dup: Option<nat>, repDone: int)

  ghost function Front(done: set<nat>): (k: nat)
    ensures IsFront(done, k)
  {
    FrontExists(done, 0);
    var k :| IsFront(done, k);
    k
  }

  lemma {:induction false} FrontExists(done: set<nat>, k: nat)
    requires forall x :: 1 <= x <= k ==> x in done
    ensures exists l: nat :: IsFront(done, l)
    decreases |set x | x in done && x > k|
  {
    if k + 1 in done {
      var above, above' := set x | x in done && x > k, set x | x in done && x > k + 1;
      assert above' == above - {k + 1};
      FrontExists(done, k + 1);
    } else {
      assert IsFront(done, k);
    }
  }

  function Fresh(): Client {
    Client(1, map[], map[], {}, None, -1)
  }

  ghost function NewCall(c: Client): Client {
    c.(next := c.next + 1, calls := c.calls[c.next := Caller(Front(c.done), None)])
  }

  function GotReply(c: Client, xid: nat, r: Reply): Client {
    var c' := c.(done := c.done + {xid});
    if xid in c.calls && c.calls[xid].result.None? then
      c'.(calls := c.calls[xid := c.calls[xid].(result := Some(r))])
    else c'
  }

  /** First critical section at the end of `call1`. */
  function Return(c: Client, xid: nat, lossy: bool): Client
    requires xid in c.calls
  {
    var c' := c.(calls := c.calls - {xid}, done := c.done + {xid});
    if c.calls[xid].result.Some? && lossy then c'.(leaving := c.leaving[xid := c.calls[xid].xidRep]) else c'
  }

  /** Second critical section, reached only by answered calls in lossy mode. */
  function Note(c: Client, xid: nat): Client
    requires xid in c.leaving
  {
    c.(leaving := c.leaving - {xid},
       dup := if c.dup.None? then Some(xid) else c.dup,
       repDone := if c.leaving[xid] > c.repDone then c.leaving[xid] else c.repDone)
  }

  predicate StaleDue(c: Client) {
    c.dup.Some? && c.repDone > c.dup.value
  }

  /** Before a transmission: take the kept request to send it once more. */
  function TakeStale(c: Client): Client
    requires StaleDue(c)
  {
    c.(dup := None)
  }

  // ----- the client object

  class RpcClient {
    var xid: nat
    var calls: map<nat, Caller>
    var leaving: map<nat, nat>
    var window: seq<nat>
    var dup: Option<nat>
    var repDone: int
    ghost var done: set<nat>

    ghost predicate Valid()
      reads this
    {
      Represents(window, done)
    }

    ghost function State(): Client
      reads this
    {
      Client(xid, calls, leaving, done, dup, repDone)
    }

    constructor ()
      ensures Valid() && State() == Fresh()
    {
      xid, calls, leaving, window := 1, map[], map[], [0];
      dup, repDone, done := None, -1, {};
    }

    /** `update_xid_rep`: insert in order, then drop the head while its successor is in the list too. */
    method UpdateXidRep(x: nat)
      requires Valid()
      modifies this`window, this`done
      ensures Valid() && done == old(done) + {x}
    {
      if x <= window[0] {
        done := done + {x};
        return;
      }
      var i := 0;
      while i < |window| && window[i] <= x
        invariant 0 <= i <= |window| && window == old(window)
        invariant forall j :: 0 <= j < i ==> window[j] <= x
      {
        i := i + 1;
      }
      InsertLags(window, i, x, done);
      window := window[..i] + [x] + window[i..];
      done := done + {x};
      Compress();
    }

    /** The second half of `update_xid_rep`; `i` is the list iterator, and what is popped is never its node. */
    method Compress()
      requires Lags(window, done)
      modifies this`window
      ensures Valid()
    {
      var i := 1;
      while i < |window|
        invariant Lags(window, done) && 0 < i <= |window|
        invariant forall j :: 0 <= j < i ==> window[j] != window[0] + 1
        decreases |window| - i
      {
        ghost var front, at, left := window[0], window[i], |window| - i;
        while window[0] + 1 == window[i]
          invariant Lags(window, done) && 0 <= i < |window| && window[i] == at && |window| - i == left
          invariant window[0] == front || i == 0
          invariant forall j :: 0 <= j < i ==> window[j] == front || at != front + 1
          invariant forall j :: 0 <= j < i ==> window[j] != window[0] + 1
          decreases i
        {
          assert i > 0;
          PopLags(window, done);
          window, i := window[1..], i - 1;
        }
        i := i + 1;
      }
      assert window[0] + 1 !in window;
    }

    /** The bookkeeping at the start of `call1`: the new id and the acknowledgement its header carries. */
    method StartCall() returns (id: nat, xidRep: nat)
      requires Valid()
      modifies this
      ensures Valid() && State() == NewCall(old(State()))
      ensures id == old(xid) && xidRep == Front(done)
    {
      FrontUnique(done, window[0], Front(done));
      id, xidRep := xid, window[0];
      xid := xid + 1;
      calls := calls[id := Caller(xidRep, None)];
    }

    method GotPdu(x: nat, r: Reply)
      requires Valid()
      modifies this
      ensures Valid() && State() == GotReply(old(State()), x, r)
    {
      UpdateXidRep(x);
      if x in calls && calls[x].result.None? {
        calls := calls[x := calls[x].(result := Some(r))];
      }
    }

    method EndCall(x: nat, lossy: bool) returns (r: Option<Reply>)
      requires Valid() && x in calls
      modifies this
      ensures Valid() && State() == Return(old(State()), x, lossy) && r == old(calls[x].result)
    {
      r := calls[x].result;
      if r.Some? && lossy { leaving := leaving[x := calls[x].xidRep]; }
      calls := calls - {x};
      UpdateXidRep(x);
    }

    method Remember(x: nat)
      requires Valid() && x in leaving
      modifies this
      ensures Valid() && State() == Note(old(State()), x)
    {
      if dup.None? { dup := Some(x); }
      if leaving[x] > repDone { repDone := leaving[x]; }
      leaving := leaving - {x};
    }

    method ForgottenRequest() returns (x: Option<nat>)
      requires Valid()
      modifies this
      ensures Valid()
      ensures x == if StaleDue(old(State())) then old(dup) else None
      ensures State() == if StaleDue(old(State())) then TakeStale(old(State())) else old(State())
    {
      x := None;
      if dup.Some? && repDone > dup.value {
        x, dup := dup, None;
      }
    }
  }
}
