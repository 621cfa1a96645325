/** Proposal numbers and quorums, as compared and counted by the proposer and the acceptors. */
module Ballots {

  /** A proposal number: a counter and the name of the node that chose it (`prop_t`). */
  datatype Ballot = Ballot(n: nat, m: string)

  /** Byte-wise lexicographic order, the `<` of `std::string`. */
  predicate NameLess(a: string, b: string) {
    if b == "" then false
    else if a == "" then true
    else if a[0] != b[0] then a[0] < b[0]
    else NameLess(a[1..], b[1..])
  }

  predicate Gt(a: Ballot, b: Ballot) {
    a.n > b.n || (a.n == b.n && NameLess(b.m, a.m))
  }

  predicate Ge(a: Ballot, b: Ballot) {
    a.n > b.n || (a.n == b.n && (NameLess(b.m, a.m) || a.m == b.m))
  }

  lemma {:induction false} NameLessAsymmetric(a: string, b: string)
    requires NameLess(a, b)
    ensures !NameLess(b, a)
  {
    if a != "" && a[0] == b[0] {
      NameLessAsymmetric(a[1..], b[1..]);
    }
  }

  lemma {:induction false} NameLessTransitive(a: string, b: string, c: string)
    requires NameLess(a, b) && NameLess(b, c)
    ensures NameLess(a, c)
  {
    if a != "" && a[0] == b[0] == c[0] {
      NameLessTransitive(a[1..], b[1..], c[1..]);
    }
  }

  lemma {:induction false} NameLessTotal(a: string, b: string)
    ensures NameLess(a, b) || NameLess(b, a) || a == b
  {
    if a != "" && b != "" && a[0] == b[0] {
      NameLessTotal(a[1..], b[1..]);
      assert a == [a[0]] + a[1..] && b == [b[0]] + b[1..];
    }
  }

  /** Two names are ordered by the first position where they differ; a proper prefix comes first. */
  lemma {:induction false} NameOrder(a: string, b: string, k: nat)
    requires k <= |a| && k <= |b| && a[..k] == b[..k]
    ensures k == |a| < |b| ==> NameLess(a, b)
    ensures k < |a| && k < |b| && a[k] < b[k] ==> NameLess(a, b)
    ensures k < |a| && k < |b| && a[k] > b[k] ==> !NameLess(a, b)
    ensures k == |b| ==> !NameLess(a, b)
  {
    if k > 0 {
      assert a[0] == a[..k][0] == b[0];
      assert a[1..][..k - 1] == a[..k][1..] && b[1..][..k - 1] == b[..k][1..];
      NameOrder(a[1..], b[1..], k - 1);
    }
  }

  /** The counter decides between proposal numbers; the names decide between equal counters. */
  lemma CounterFirst(a: Ballot, b: Ballot)
    ensures a.n > b.n ==> Gt(a, b) && !Gt(b, a)
    ensures a.n == b.n ==> (Gt(a, b) <==> NameLess(b.m, a.m))
  {
  }

  /** `>` on proposal numbers is a strict total order and `>=` is its reflexive closure. */
  lemma BallotOrder(a: Ballot, b: Ballot, c: Ballot)
    ensures Ge(a, b) <==> Gt(a, b) || a == b
    ensures Gt(a, b) <==> !Ge(b, a)
    ensures Gt(a, b) && Gt(b, c) ==> Gt(a, c)
  {
    NameLessTotal(a.m, b.m);
    if NameLess(a.m, b.m) { NameLessAsymmetric(a.m, b.m); }
    if NameLess(b.m, a.m) { NameLessAsymmetric(b.m, a.m); }
    if NameLess(b.m, a.m) && NameLess(c.m, b.m) { NameLessTransitive(c.m, b.m, a.m); }
  }

  /** How many positions of `nodes` name a node that occurs in `list`. */
  function Count(nodes: seq<string>, list: seq<string>): (k: nat)
    ensures k <= |nodes|
  {
    if nodes == [] then 0
    else Count(nodes[..|nodes| - 1], list) + if nodes[|nodes| - 1] in list then 1 else 0
  }

  predicate Majority(nodes: seq<string>, list: seq<string>) {
    Count(nodes, list) >= |nodes| / 2 + 1
  }

  /** The positions of `nodes` that name a node in `list`. */
  function Positions(nodes: seq<string>, list: seq<string>): set<nat> {
    set i | 0 <= i < |nodes| && nodes[i] in list
  }

  lemma {:induction false} CountIs(nodes: seq<string>, list: seq<string>)
    ensures Count(nodes, list) == |Positions(nodes, list)|
  {
    if nodes != [] {
      var k := |nodes| - 1;
      CountIs(nodes[..k], list);
      var last := if nodes[k] in list then {k} else {};
      assert Positions(nodes, list) == Positions(nodes[..k], list) + last;
    }
  }

  /** A list passes exactly when it names more than half of the nodes. */
  lemma MajorityIs(nodes: seq<string>, list: seq<string>)
    ensures Majority(nodes, list) <==> 2 * |Positions(nodes, list)| > |nodes|
  {
    CountIs(nodes, list);
  }

  lemma {:induction false} DisjointCounts(nodes: seq<string>, l1: seq<string>, l2: seq<string>)
    requires forall x :: x in nodes && x in l1 ==> x !in l2
    ensures Count(nodes, l1) + Count(nodes, l2) <= |nodes|
  {
    if nodes != [] {
      assert nodes[|nodes| - 1] in nodes;
      DisjointCounts(nodes[..|nodes| - 1], l1, l2);
    }
  }

  /** Two lists that both pass the majority test over one node list share a member, repeats in the list or not. */
  lemma QuorumsMeet(nodes: seq<string>, l1: seq<string>, l2: seq<string>) returns (x: string)
    requires Majority(nodes, l1) && Majority(nodes, l2)
    ensures x in nodes && x in l1 && x in l2
  {
    if forall y :: y in nodes && y in l1 ==> y !in l2 {
      DisjointCounts(nodes, l1, l2);
      assert false;
    }
    x :| x in nodes && x in l1 && x in l2;
  }

  lemma {:induction false} QuorumMember(nodes: seq<string>, list: seq<string>) returns (x: string)
    requires Majority(nodes, list)
    ensures x in nodes && x in list
  {
    x := QuorumsMeet(nodes, list, list);
  }

  method IsMember(m: string, nodes: seq<string>) returns (r: bool)
    ensures r <==> m in nodes
  {
    for i := 0 to |nodes|
      invariant m !in nodes[..i]
    {
      if nodes[i] == m { return true; }
    }
    return false;
  }

  /** The majority test itself: `l1.size() >> 1` plus one positions of `l1` must be members of `l2`. */
  method MajorityTest(l1: seq<string>, l2: seq<string>) returns (r: bool)
    ensures r <==> Majority(l1, l2)
    ensures r <==> 2 * |Positions(l1, l2)| > |l1|
  {
    MajorityIs(l1, l2);
    var n := 0;
    for i := 0 to |l1|
      invariant n == Count(l1[..i], l2)
    {
      var mem := IsMember(l1[i], l2);
      assert l1[..i + 1][..i] == l1[..i];
      if mem { n := n + 1; }
    }
    assert l1[..|l1|] == l1;
    r := n >= |l1| / 2 + 1;
  }
}
