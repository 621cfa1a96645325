/** Membership views: their text, the changes proposed to them, and the primary chosen from them. */
module Views {
  import opened Options
  import opened Ballots
  import opened Sequences

  type View = seq<string>

  // ----- the text of a view

  predicate Space(c: char) {
    c == ' ' || ('\t' <= c && c <= '\r')
  }

  /** The six characters that end a word: blank, tab, line feed, vertical tab, form feed, carriage return. */
  lemma SpaceIs(c: char)
    ensures Space(c) <==> c in {' ', '\t', '\n', 11 as char, 12 as char, '\r'}
  {
  }

  /** A name that a stream reads back whole. */
  predicate Word(s: string) {
    s != "" && forall i :: 0 <= i < |s| ==> !Space(s[i])
  }

  /** Where the word at the start of `s` ends. */
  function WordEnd(s: string): (k: nat)
    ensures k <= |s| && (k < |s| ==> Space(s[k])) && forall i :: 0 <= i < k ==> !Space(s[i])
  {
    if s == "" || Space(s[0]) then 0 else 1 + WordEnd(s[1..])
  }

  /** The words of a text, as a stream extracts them one by one. */
  function Words(s: string): (ws: View)
    ensures forall i :: 0 <= i < |ws| ==> Word(ws[i])
    decreases |s|
  {
    if s == "" then []
    else if Space(s[0]) then Words(s[1..])
    else [s[..WordEnd(s)]] + Words(s[WordEnd(s)..])
  }

  /** The text of a view: each name followed by a space. */
  function Join(m: View): string {
    if m == [] then "" else m[0] + " " + Join(m[1..])
  }

  lemma WordEndIs(w: string, rest: string)
    requires Word(w)
    ensures WordEnd(w + " " + rest) == |w|
  {
    var s := w + " " + rest;
    assert forall i :: 0 <= i < |w| ==> s[i] == w[i];
    assert s[|w|] == ' ';
  }

  lemma {:induction false} WordsOfJoin(m: View)
    requires forall i :: 0 <= i < |m| ==> Word(m[i])
    ensures Words(Join(m)) == m
  {
    if m != [] {
      WordsOfJoin(m[1..]);
      var w, rest := m[0], Join(m[1..]);
      WordEndIs(w, rest);
      var s := w + " " + rest;
      assert s[0] == w[0] && s[..|w|] == w && s[|w|..] == " " + rest && (" " + rest)[1..] == rest;
      assert Words(s[|w|..]) == Words(rest);
    }
  }

  /** A view can be read back from its text exactly when every name is non-empty and without white space. */
  lemma {:induction false} MembersOfValue(m: View)
    ensures Words(Join(m)) == m <==> forall i :: 0 <= i < |m| ==> Word(m[i])
  {
    if forall i :: 0 <= i < |m| ==> Word(m[i]) { WordsOfJoin(m); }
  }

  /** White space separates words, wherever it is. */
  lemma {:induction false} WordsSplit(a: string, c: char, b: string)
    requires Space(c)
    ensures Words(a + [c] + b) == Words(a) + Words(b)
    decreases |a|
  {
    var s := a + [c] + b;
    if a == "" {
      assert s[1..] == b;
    } else if Space(a[0]) {
      WordsSplit(a[1..], c, b);
      assert s[1..] == a[1..] + [c] + b;
    } else {
      var k := WordEnd(a);
      assert s[..k] == a[..k] && s[k..] == a[k..] + [c] + b;
      WordEndAt(s, k);
      WordsSplit(a[k..], c, b);
    }
  }

  /** Skips white space from `i`. */
  method SkipSpace(s: string, i: nat) returns (j: nat)
    requires i <= |s|
    ensures i <= j <= |s| && (j < |s| ==> !Space(s[j])) && Words(s[i..]) == Words(s[j..])
  {
    j := i;
    while j < |s| && Space(s[j])
      invariant i <= j <= |s| && Words(s[i..]) == Words(s[j..])
    {
      assert s[j..][1..] == s[j + 1..];
      j := j + 1;
    }
  }

  lemma WordEndAt(s: string, k: nat)
    requires k <= |s| && (k < |s| ==> Space(s[k])) && forall i :: 0 <= i < k ==> !Space(s[i])
    ensures WordEnd(s) == k
  {
  }

  /** Reads the word that starts at `i`. */
  method ReadWord(s: string, i: nat) returns (j: nat)
    requires i < |s| && !Space(s[i])
    ensures i < j <= |s| && Words(s[i..]) == [s[i..j]] + Words(s[j..])
  {
    j := i + 1;
    while j < |s| && !Space(s[j])
      invariant i < j <= |s| && forall k :: i <= k < j ==> !Space(s[k])
    {
      j := j + 1;
    }
    WordEndAt(s[i..], j - i);
    assert s[i..][..j - i] == s[i..j] && s[i..][j - i..] == s[j..];
  }

  lemma OneMore(view: View, w: string, rest: View)
    ensures view + ([w] + rest) == view + [w] + rest
  {
  }

  method Members(value: string) returns (view: View)
    ensures view == Words(value)
  {
    view := [];
    assert value[0..] == value;
    var i := SkipSpace(value, 0);
    ghost var todo := Words(value[i..]);
    while i < |value|
      invariant i <= |value| && (i < |value| ==> !Space(value[i]))
      invariant todo == Words(value[i..]) && Words(value) == view + todo
    {
      var j := ReadWord(value, i);
      OneMore(view, value[i..j], Words(value[j..]));
      view := view + [value[i..j]];
      i := SkipSpace(value, j);
      todo := Words(value[i..]);
    }
    assert todo == [];
  }

  lemma {:induction false} JoinSnoc(m: View, w: string)
    ensures Join(m + [w]) == Join(m) + w + " "
  {
    if m != [] {
      JoinSnoc(m[1..], w);
      assert (m + [w])[1..] == m[1..] + [w];
    }
  }

  method Value(m: View) returns (v: string)
    ensures v == Join(m)
  {
    v := "";
    for i := 0 to |m|
      invariant v == Join(m[..i])
    {
      JoinSnoc(m[..i], m[i]);
      assert m[..i + 1] == m[..i] + [m[i]];
      v := v + m[i] + " ";
    }
    assert m[..|m|] == m;
  }

  // ----- changes

  datatype Change = Add(m: string) | Drop(m: string)

  function Without(v: View, m: string): View {
    if v == [] then [] else if v[0] == m then Without(v[1..], m) else [v[0]] + Without(v[1..], m)
  }

  function Changed(v: View, c: Change): View {
    match c
    case Add(m) => v + [m]
    case Drop(m) => Without(v, m)
  }

  method RemoveWo(mems: View, m: string) returns (n: View)
    ensures n == Without(mems, m)
  {
    n := [];
    for i := 0 to |mems|
      invariant Without(mems, m) == n + Without(mems[i..], m)
    {
      assert mems[i..][1..] == mems[i + 1..];
      if mems[i] != m { n := n + [mems[i]]; }
    }
  }

  ghost predicate Least(m: string, v: View) {
    forall o :: o in v ==> !NameLess(o, m)
  }

  /** `m` is the first member after `me`'s own name is left out that does not answer. */
  predicate FirstSilent(me: string, v: View, alive: string -> bool, m: string) {
    exists i :: 0 <= i < |v| && v[i] == m && forall k :: 0 <= k < i ==> v[k] == me || alive(v[k])
  }

  method Smallest(me: string, cmems: View) returns (m: string)
    requires me in cmems
    ensures m in cmems && Least(m, cmems)
  {
    m := me;
    for i := 0 to |cmems|
      invariant m in cmems && forall k :: 0 <= k < i ==> !NameLess(cmems[k], m)
    {
      if NameLess(cmems[i], m) {
        forall k | 0 <= k < i ensures !NameLess(cmems[k], cmems[i]) {
          if NameLess(cmems[k], cmems[i]) { NameLessTransitive(cmems[k], cmems[i], m); }
        }
        m := cmems[i];
      }
      if NameLess(m, m) { NameLessAsymmetric(m, m); }
    }
  }

  /**
   * The node to propose for removal, if any: the member with the smallest name pings the others in turn, and the
   * others ping that member. `alive` stands for the heartbeat calls, `current` for the test after them that the view
   * has not changed meanwhile.
   */
  method Suspect(me: string, cmems: View, alive: string -> bool, current: bool) returns (r: Option<string>)
    ensures r.Some? ==>
      && current && Proposed(cmems, Drop(r.value)) && me in cmems && r.value != me && !alive(r.value)
      && (Least(me, cmems) || Least(r.value, cmems))
    ensures r.Some? && Least(me, cmems) ==> FirstSilent(me, cmems, alive, r.value)
    ensures r == None && current && me in cmems && Least(me, cmems) ==> forall o :: o in cmems && o != me ==> alive(o)
    ensures r == None && current && me in cmems && !Least(me, cmems) ==>
      forall o :: o in cmems && Least(o, cmems) ==> alive(o)
  {
    if me !in cmems { return None; }
    var stable := true;
    var m := Smallest(me, cmems);
    forall o | o in cmems && Least(o, cmems) ensures o == m { NameLessTotal(o, m); }
    if m == me {
      for i := 0 to |cmems|
        invariant m == me && stable && forall k :: 0 <= k < i && cmems[k] != me ==> alive(cmems[k])
      {
        if cmems[i] != me && !alive(cmems[i]) {
          stable, m := false, cmems[i];
          break;
        }
      }
    } else {
      stable := alive(m);
    }
    r := if !stable && current then Some(m) else None;
  }

  /** What a join request leads to: the log for a member, a proposal by the primary of the current view, or nothing. */
  datatype Joining = Member | Busy | Propose(c: Change)

  /**
   * `joinreq` and `config::add` up to the proposal: `v` is the committed view `vidCommit`, `myvid` the
   * configuration's.
   */
  method JoinRequest(m: string, v: View, vidCommit: nat, myvid: nat, primary: bool) returns (r: Joining)
    ensures r == Member <==> m in v
    ensures r.Propose? <==> m !in v && primary && vidCommit == myvid
    ensures r.Propose? ==> r.c == Add(m) && (Word(m) ==> Proposed(v, r.c))
  {
    var member := IsMember(m, v);
    if member { return Member; }
    if !primary || vidCommit != myvid { return Busy; }
    return Propose(Add(m));
  }

  // ----- the chain of views

  /** The first view has the founder alone; every later one is decided in the view before. */
  datatype Chain = Found(first: string) | Decide(past: Chain, c: Change)

  /** The value Paxos has agreed on for the last view. */
  function ValueOf(ch: Chain): string {
    match ch
    case Found(first) => first
    case Decide(past, c) => Join(Changed(Words(ValueOf(past)), c))
  }

  function ViewOf(ch: Chain): View {
    Words(ValueOf(ch))
  }

  /** A joining node is not a member yet; a node is removed by another member. Names are words. */
  ghost predicate Proposed(v: View, c: Change) {
    match c
    case Add(m) => m !in v && Word(m)
    case Drop(m) => m in v && exists o :: o in v && o != m
  }

  ghost predicate Legal(ch: Chain) {
    match ch
    case Found(first) => Word(first)
    case Decide(past, c) => Legal(past) && Proposed(ViewOf(past), c)
  }

  /** No proposal to Paxos is the empty string. */
  lemma ProposalsAreFilled(v: View, c: Change)
    requires Proposed(v, c)
    ensures Join(Changed(v, c)) != ""
  {
    WithoutIs(v, c.m);
    assert Changed(v, c) != [] by {
      if c.Drop? { var o :| o in v && o != c.m; assert o in Without(v, c.m); }
    }
  }

  lemma {:induction false} WithoutIs(v: View, m: string)
    ensures forall x :: x in Without(v, m) <==> x in v && x != m
    ensures NoRepeats(v) ==> NoRepeats(Without(v, m)) && (m in v ==> |Without(v, m)| == |v| - 1)
    ensures m !in v ==> Without(v, m) == v
    ensures v != [] && v[0] != m ==> Without(v, m) != [] && Without(v, m)[0] == v[0]
    ensures |v| > 1 && NoRepeats(v) && v[0] == m ==> Without(v, m) == v[1..]
  {
    if v != [] {
      var t := v[1..];
      WithoutIs(t, m);
      assert v == [v[0]] + t;
      assert forall i :: 0 <= i < |t| ==> t[i] == v[i + 1];
      assert v[0] == m && NoRepeats(v) ==> m !in t;
      assert NoRepeats(v) ==> NoRepeats(t) && v[0] !in t;
    }
  }

  lemma FoundersView(first: string)
    requires Word(first)
    ensures ViewOf(Found(first)) == [first]
  {
    WordEndAt(first, |first|);
    assert first[..|first|] == first && first[|first|..] == "";
    assert Words(first) == [first] + [];
  }

  /** A change keeps a view non-empty, without repeats and readable. */
  lemma ChangeKeeps(v: View, c: Change)
    requires v != [] && NoRepeats(v) && (forall i :: 0 <= i < |v| ==> Word(v[i])) && Proposed(v, c)
    ensures var v' := Changed(v, c);
      && v' != [] && NoRepeats(v') && (forall i :: 0 <= i < |v'| ==> Word(v'[i]))
      && |v'| == if c.Add? then |v| + 1 else |v| - 1
  {
    WithoutIs(v, c.m);
    var v' := Changed(v, c);
    if c.Drop? { var o :| o in v && o != c.m; assert o in v'; }
    forall i | 0 <= i < |v'| ensures Word(v'[i]) {
      assert v'[i] in v';
      assert v'[i] in v || c == Add(v'[i]);
    }
  }

  /** Every view is what its proposer wrote: non-empty, without repeats, and one member away from the view before. */
  lemma {:induction false} ViewChain(ch: Chain)
    requires Legal(ch)
    ensures ViewOf(ch) != [] && NoRepeats(ViewOf(ch)) && forall i :: 0 <= i < |ViewOf(ch)| ==> Word(ViewOf(ch)[i])
    ensures ch.Found? ==> ViewOf(ch) == [ch.first]
    ensures ch.Decide? ==> ViewOf(ch) == Changed(ViewOf(ch.past), ch.c)
    ensures ch.Decide? && ch.c.Add? ==> |ViewOf(ch)| == |ViewOf(ch.past)| + 1
    ensures ch.Decide? && ch.c.Drop? ==> |ViewOf(ch)| == |ViewOf(ch.past)| - 1
  {
    match ch
    case Found(first) => FoundersView(first);
    case Decide(past, c) =>
      ViewChain(past);
      ChangeKeeps(ViewOf(past), c);
      WordsOfJoin(Changed(ViewOf(past), c));
  }

  // ----- the primary

  /** The first member of `p` that is also in `c`. */
  function FirstIn(p: View, c: View): Option<string> {
    if p == [] then None else if p[0] in c then Some(p[0]) else FirstIn(p[1..], c)
  }

  /** The primary after a change from view `p` to view `c`; `None` stands for a failed assertion. */
  function NextPrimary(primary: string, p: View, c: View): Option<string> {
    if primary in c then Some(primary) else FirstIn(p, c)
  }

  class RsmNode {
    var vidCommit: nat
    var primary: string
    var inViewChange: bool

    constructor (first: string)
      ensures vidCommit == 0 && primary == first && inViewChange
    {
      vidCommit, primary, inViewChange := 0, first, true;
    }

    /** `ok` is false where the code would stop on an assertion. */
    method SetPrimary(p: View, c: View) returns (ok: bool)
      modifies this`primary
      ensures ok == NextPrimary(old(primary), p, c).Some?
      ensures primary == if ok then NextPrimary(old(primary), p, c).value else old(primary)
    {
      if |c| == 0 {
        NoneIn(p);
        return false;
      }
      var stays := IsMember(primary, c);
      if stays { return true; }
      for i := 0 to |p|
        invariant FirstIn(p, c) == FirstIn(p[i..], c) && primary == old(primary)
      {
        assert p[i..][1..] == p[i + 1..];
        var m := IsMember(p[i], c);
        if m {
          primary := p[i];
          return true;
        }
      }
      return false;
    }

    /** A view that is not newer is ignored. */
    method CommitChange(vid: nat, p: View, c: View) returns (ok: bool)
      modifies this
      ensures vid <= old(vidCommit) ==>
        ok && vidCommit == old(vidCommit) && primary == old(primary) && inViewChange == old(inViewChange)
      ensures vid > old(vidCommit) ==>
        && vidCommit == vid && inViewChange && ok == NextPrimary(old(primary), p, c).Some?
        && primary == if ok then NextPrimary(old(primary), p, c).value else old(primary)
    {
      if vid <= vidCommit { return true; }
      vidCommit, inViewChange := vid, true;
      ok := SetPrimary(p, c);
    }
  }

  lemma {:induction false} NoneIn(p: View)
    ensures FirstIn(p, []) == None
  {
    if p != [] { NoneIn(p[1..]); }
  }

  /** The primary of a node that starts with the founder and applies every view in turn. */
  function Primary(ch: Chain): Option<string> {
    match ch
    case Found(first) => NextPrimary(first, [], Words(first))
    case Decide(past, _) =>
      if Primary(past) == None then None else NextPrimary(Primary(past).value, ViewOf(past), ViewOf(ch))
  }

  /** Whatever the change, the first old member in the new view is the first member of the new view. */
  lemma FirstInIsFirst(v: View, c: Change)
    requires v != [] && NoRepeats(v) && Proposed(v, c)
    ensures var v' := Changed(v, c); v' != [] && FirstIn(v, v') == Some(v'[0]) && v'[0] in v
  {
    WithoutIs(v, c.m);
    var v' := Changed(v, c);
    if c.Drop? && c.m == v[0] {
      assert v[1..][0] in v';
    } else {
      assert v[0] in v';
    }
  }

  /**
   * The primary of a node that applies every view is the longest-standing member: it belongs to the view and to
   * the one before, the closing assertion is never reached, and all such nodes agree.
   */
  lemma {:induction false} PrimaryIsOldest(ch: Chain)
    requires Legal(ch)
    ensures ViewOf(ch) != [] && Primary(ch) == Some(ViewOf(ch)[0])
    ensures ch.Decide? ==> ViewOf(ch)[0] in ViewOf(ch.past)
  {
    ViewChain(ch);
    if ch.Decide? {
      PrimaryIsOldest(ch.past);
      ViewChain(ch.past);
      var v := ViewOf(ch.past);
      FirstInIsFirst(v, ch.c);
      WithoutIs(v, ch.c.m);
    }
  }

  /**
   * A node that joins late jumps to the newest view with whatever primary it was started with. It ends up with
   * the primary of the others exactly when its own is no longer, or not yet, a member, or is the right one.
   */
  lemma LateJoinerAgrees(ch: Chain, own: string)
    requires Legal(ch) && ch.Decide?
    ensures NextPrimary(own, ViewOf(ch.past), ViewOf(ch)) == Primary(ch) <==> own !in ViewOf(ch) || own == ViewOf(ch)[0]
  {
    PrimaryIsOldest(ch);
    ViewChain(ch);
    ViewChain(ch.past);
    FirstInIsFirst(ViewOf(ch.past), ch.c);
  }

  /** A founder that is removed, joins again and jumps takes itself for the primary, unlike everybody else. */
  lemma ReturningFounderDisagrees(a: string, b: string)
    requires Word(a) && Word(b) && a != b
    ensures var ch := Decide(Decide(Decide(Found(a), Add(b)), Drop(a)), Add(a));
      Legal(ch) && Primary(ch) == Some(b) && NextPrimary(a, ViewOf(ch.past), ViewOf(ch)) == Some(a)
  {
    var one := Found(a);
    ViewChain(one);
    var two := Decide(one, Add(b));
    ViewChain(two);
    assert ViewOf(two) == [a, b];
    assert b in ViewOf(two);
    var three := Decide(two, Drop(a));
    ViewChain(three);
    WithoutIs([a, b], a);
    assert ViewOf(three) == [a, b][1..] == [b];
    var four := Decide(three, Add(a));
    ViewChain(four);
    assert ViewOf(four) == [b, a];
    PrimaryIsOldest(four);
  }

  // ----- seniority

  function Length(ch: Chain): nat {
    if ch.Found? then 0 else Length(ch.past) + 1
  }

  /** When a node last joined, by the history of decisions alone; `None` if it is not a member. */
  function Joined(ch: Chain, m: string): Option<nat> {
    match ch
    case Found(first) => if m == first then Some(0) else None
    case Decide(past, Add(n)) => if m == n then Some(Length(ch)) else Joined(past, m)
    case Decide(past, Drop(n)) => if m == n then None else Joined(past, m)
  }

  function When(ch: Chain, m: string): int {
    if Joined(ch, m).Some? then Joined(ch, m).value else -1
  }

  ghost predicate Ordered(ch: Chain, v: View) {
    forall i, j :: 0 <= i < j < |v| ==> When(ch, v[i]) < When(ch, v[j])
  }

  /** A view lists the members in the order in which they joined. */
  ghost predicate BySeniority(ch: Chain, v: View) {
    Ordered(ch, v) && forall m :: m in v <==> Joined(ch, m).Some?
  }

  lemma {:induction false} JoinedBefore(ch: Chain, m: string)
    ensures When(ch, m) <= Length(ch)
  {
    if ch.Decide? { JoinedBefore(ch.past, m); }
  }

  lemma OrderedCons(ch: Chain, x: string, w: View)
    ensures Ordered(ch, [x] + w) <==> Ordered(ch, w) && forall n :: n in w ==> When(ch, x) < When(ch, n)
  {
    var v := [x] + w;
    assert forall i :: 0 <= i < |w| ==> v[i + 1] == w[i];
    if Ordered(ch, v) {
      forall i, j | 0 <= i < j < |w| ensures When(ch, w[i]) < When(ch, w[j]) {
        assert v[i + 1] == w[i] && v[j + 1] == w[j];
      }
      forall n | n in w ensures When(ch, x) < When(ch, n) {
        var k :| 0 <= k < |w| && w[k] == n;
        assert v[k + 1] == n && v[0] == x;
      }
    }
  }

  /** What is left of a list keeps its order. */
  lemma {:induction false} WithoutOrdered(ch: Chain, v: View, m: string)
    requires Ordered(ch, v)
    ensures Ordered(ch, Without(v, m))
  {
    if v != [] {
      assert v == [v[0]] + v[1..];
      OrderedCons(ch, v[0], v[1..]);
      WithoutOrdered(ch, v[1..], m);
      WithoutIs(v[1..], m);
      OrderedCons(ch, v[0], Without(v[1..], m));
    }
  }

  lemma AddKeepsOrder(ch: Chain, v: View, m: string)
    requires BySeniority(ch, v) && m !in v
    ensures BySeniority(Decide(ch, Add(m)), v + [m])
  {
    var ch' := Decide(ch, Add(m));
    forall i | 0 <= i < |v| ensures When(ch', v[i]) == When(ch, v[i]) < Length(ch') {
      assert v[i] in v;
      JoinedBefore(ch, v[i]);
    }
  }

  lemma DropKeepsOrder(ch: Chain, v: View, m: string)
    requires BySeniority(ch, v)
    ensures BySeniority(Decide(ch, Drop(m)), Without(v, m))
  {
    var ch', w := Decide(ch, Drop(m)), Without(v, m);
    WithoutIs(v, m);
    WithoutOrdered(ch, v, m);
    forall i, j | 0 <= i < j < |w| ensures When(ch', w[i]) < When(ch', w[j]) {
      assert w[i] in w && w[j] in w;
      assert When(ch', w[i]) == When(ch, w[i]) < When(ch, w[j]) == When(ch', w[j]);
    }
    forall n ensures n in w <==> Joined(ch', n).Some? {}
  }

  lemma {:induction false} Seniority(ch: Chain)
    requires Legal(ch)
    ensures BySeniority(ch, ViewOf(ch))
  {
    ViewChain(ch);
    match ch
    case Found(_) =>
    case Decide(past, c) =>
      Seniority(past);
      if c.Add? { AddKeepsOrder(past, ViewOf(past), c.m); } else { DropKeepsOrder(past, ViewOf(past), c.m); }
  }

  /** The primary of a node that applies every view is the member that joined first of all present members. */
  lemma PrimaryIsSenior(ch: Chain, m: string)
    requires Legal(ch) && Joined(ch, m).Some?
    ensures Primary(ch).Some? && Joined(ch, Primary(ch).value).Some?
    ensures m != Primary(ch).value ==> Joined(ch, Primary(ch).value).value < Joined(ch, m).value
  {
    PrimaryIsOldest(ch);
    Seniority(ch);
    var v := ViewOf(ch);
    assert v[0] in v && m in v;
    var i :| 0 <= i < |v| && v[i] == m;
  }

  predicate LeavesOut(v: View, v': View, i: nat) {
    i < |v| && v' == v[..i] + v[i + 1..]
  }

  /** A view decided after another adds at the end, or leaves one member out where it stood. */
  lemma NextView(ch: Chain)
    requires Legal(ch) && ch.Decide?
    ensures ch.c.Add? ==> ViewOf(ch) == ViewOf(ch.past) + [ch.c.m]
    ensures ch.c.Drop? ==> exists i: nat :: LeavesOut(ViewOf(ch.past), ViewOf(ch), i) && ViewOf(ch.past)[i] == ch.c.m
  {
    ViewChain(ch);
    ViewChain(ch.past);
    var v := ViewOf(ch.past);
    if ch.c.Drop? {
      var i: nat :| i < |v| && v[i] == ch.c.m;
      WithoutAt(v, i);
      assert LeavesOut(v, ViewOf(ch), i);
    }
  }

  lemma {:induction false} WithoutAt(v: View, i: nat)
    requires i < |v| && NoRepeats(v)
    ensures Without(v, v[i]) == v[..i] + v[i + 1..]
  {
    var t := v[1..];
    assert forall k :: 0 <= k < |t| ==> t[k] == v[k + 1];
    if i == 0 {
      assert v[0] !in t;
      WithoutIs(t, v[0]);
    } else {
      WithoutAt(t, i - 1);
      assert v[..i] == [v[0]] + t[..i - 1] && v[i + 1..] == t[i..];
    }
  }
}
