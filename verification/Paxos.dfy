/**
 * One instance of Paxos as a transition system over the acceptors and proposers of Acceptors.dfy and
 * Proposers.dfy. The network is the set of messages ever sent: a message may be delivered late, many
 * times or never. Every node plays both roles and may restart from its log at any moment.
 */
module Paxos {
  import opened Ballots
  import opened Acceptors
  import opened Options
  import opened Proposers

  type Node = string

  datatype Config = Config(instance: nat, nodes: seq<Node>)

  /** `run` identifies the proposer run a call belongs to; a reply goes to the run that made the call. */
  datatype Msg =
    | PrepareMsg(b: Ballot, run: nat, to: Node)
    | PromiseMsg(b: Ballot, run: nat, from: Node, nA: Ballot, vA: Value)
    | OldMsg(b: Ballot, from: Node, v: Value)
    | AcceptMsg(b: Ballot, run: nat, to: Node, v: Value)
    | AckMsg(b: Ballot, from: Node)
    | DecideMsg(to: Node, v: Value)

  /** Where `proposer::run` stands; `i` counts the nodes already called in the current loop. */
  datatype Phase =
    | Idle
    | Preparing(newv: Value, i: nat, t: Tally)
    | Accepting(v: Value, targets: seq<Node>, i: nat, acks: seq<Node>)
    | Deciding(v: Value, acks: seq<Node>, i: nat)

  datatype Prop = Prop(myN: Ballot, run: nat, phase: Phase)

  /** Everything sent, the number of runs started, and the values they offered. */
  datatype Hist = Hist(net: set<Msg>, runs: nat, offered: set<Value>)

  datatype State = State(acc: map<Node, Acceptor>, prop: map<Node, Prop>, h: Hist)

  datatype Event =
    | Start(p: Node, newv: Value)
    | Send(p: Node)
    | Receive(p: Node, m: Msg)
    | GiveUp(p: Node)
    | Finish(p: Node)
    | Deliver(m: Msg)
    | Crash(p: Node)

  /** The nodes the current loop walks over. */
  function Callees(c: Config, ph: Phase): seq<Node> {
    match ph
    case Idle => []
    case Preparing(_, _, _) => c.nodes
    case Accepting(_, targets, _, _) => targets
    case Deciding(_, acks, _) => acks
  }

  predicate Calling(c: Config, ph: Phase) {
    !ph.Idle? && ph.i < |Callees(c, ph)|
  }

  function CallMsg(c: Config, pr: Prop): Msg
    requires Calling(c, pr.phase)
  {
    var to := Callees(c, pr.phase)[pr.phase.i];
    match pr.phase
    case Preparing(_, _, _) => PrepareMsg(pr.myN, pr.run, to)
    case Accepting(v, _, _, _) => AcceptMsg(pr.myN, pr.run, to, v)
    case Deciding(v, _, _) => DecideMsg(to, v)
  }

  predicate Answers(c: Config, pr: Prop, m: Msg) {
    && Calling(c, pr.phase)
    && (pr.phase.Preparing? ==> m.PromiseMsg? || m.OldMsg?)
    && (pr.phase.Accepting? ==> m.AckMsg?)
    && !pr.phase.Deciding?
    && m.b == pr.myN && m.from == Callees(c, pr.phase)[pr.phase.i]
    && (m.PromiseMsg? ==> m.run == pr.run)
  }

  predicate Enabled(c: Config, s: State, e: Event) {
    match e
    case Start(p, _) => p in s.prop && p in s.acc && s.prop[p].phase.Idle?
    case Send(p) => p in s.prop && Calling(c, s.prop[p].phase)
    case Receive(p, m) => p in s.prop && p in s.acc && m in s.h.net && Answers(c, s.prop[p], m)
    case GiveUp(p) => p in s.prop && Calling(c, s.prop[p].phase)
    case Finish(p) => p in s.prop && !s.prop[p].phase.Idle? && !Calling(c, s.prop[p].phase)
    case Deliver(m) => m in s.h.net && (m.PrepareMsg? || m.AcceptMsg? || m.DecideMsg?) && m.to in s.acc
    case Crash(p) => p in s.acc && p in s.prop
  }

  function Post(h: Hist, ms: set<Msg>): Hist {
    h.(net := h.net + ms)
  }

  function Apply(c: Config, s: State, e: Event): State
    requires Enabled(c, s, e)
  {
    match e
    case Start(p, newv) =>
      var b := NextBallot(p, s.prop[p].myN, s.acc[p].nH);
      s.(prop := s.prop[p := Prop(b, s.h.runs, Preparing(newv, 0, EMPTY_TALLY))],
         h := s.h.(runs := s.h.runs + 1, offered := s.h.offered + {newv}))
    case Send(p) =>
      s.(h := Post(s.h, {CallMsg(c, s.prop[p])}))
    case Receive(p, m) =>
      ApplyReceive(c, s, p, m)
    case GiveUp(p) =>
      s.(prop := s.prop[p := s.prop[p].(phase := Skipped(s.prop[p].phase))])
    case Finish(p) =>
      s.(prop := s.prop[p := s.prop[p].(phase := AfterLoop(c, s.prop[p].phase))])
    case Deliver(m) =>
      ApplyDeliver(c, s, m)
    case Crash(p) =>
      s.(acc := s.acc[p := Replay(p, s.acc[p].log)], prop := s.prop[p := Prop(Ballot(0, p), 0, Idle)])
  }

  function Skipped(ph: Phase): Phase
    requires !ph.Idle?
  {
    ph.(i := ph.i + 1)
  }

  function Noted(ph: Phase, m: Msg): Phase {
    match (ph, m)
    case (Preparing(newv, i, t), PromiseMsg(_, _, from, nA, vA)) => Preparing(newv, i + 1, Adopt(t, from, nA, vA))
    case (Accepting(v, targets, i, acks), AckMsg(_, from)) => Accepting(v, targets, i + 1, acks + [from])
    case _ => ph
  }

  function ApplyReceive(c: Config, s: State, p: Node, m: Msg): State
    requires Enabled(c, s, Receive(p, m))
  {
    var pr := s.prop[p];
    if m.OldMsg? then
      s.(acc := s.acc[p := Commit(s.acc[p], c.instance, m.v)], prop := s.prop[p := pr.(phase := Idle)])
    else
      s.(prop := s.prop[p := pr.(phase := Noted(pr.phase, m))])
  }

  function AfterLoop(c: Config, ph: Phase): Phase
    requires !ph.Idle?
  {
    match ph
    case Preparing(newv, _, t) =>
      if Majority(c.nodes, t.accepts) then Accepting(Chooses(t, newv), t.accepts, 0, []) else Idle
    case Accepting(v, _, _, acks) =>
      if Majority(c.nodes, acks) then Deciding(v, acks, 0) else Idle
    case Deciding(_, _, _) => Idle
  }

  function ApplyDeliver(c: Config, s: State, m: Msg): State
    requires Enabled(c, s, Deliver(m))
  {
    var a := s.acc[m.to];
    match m
    case PrepareMsg(b, run, to) =>
      var (a', r) := Prepare(a, c.instance, b);
      var reply := match r
        case Promise(nA, vA) => {PromiseMsg(b, run, to, nA, vA)}
        case OldInstance(v) => {OldMsg(b, to, v)}
        case Reject => {};
      s.(acc := s.acc[to := a'], h := Post(s.h, reply))
    case AcceptMsg(b, _, to, v) =>
      var (a', ok) := Accept(a, b, v);
      s.(acc := s.acc[to := a'], h := Post(s.h, if ok then {AckMsg(b, to)} else {}))
    case DecideMsg(to, v) =>
      s.(acc := s.acc[to := Decide(a, c.instance)])
  }

  // ----- runs

  /** What the code relies on without checking it. */
  datatype Rules = Rules(timely: bool, filled: bool)

  /**
   * `timely`: an accept request is not handled by a node that has already decided the instance.
   * `filled`: a proposer does not offer the empty string.
   */
  predicate Obeys(r: Rules, c: Config, s: State, e: Event)
    requires Enabled(c, s, e)
  {
    && (r.timely && e.Deliver? && e.m.AcceptMsg? ==> s.acc[e.m.to].instanceH < c.instance)
    && (r.filled && e.Start? ==> e.newv != "")
  }

  /** A run: a starting state and the events since. */
  datatype Run = Begin(s: State) | Then(past: Run, e: Event)

  function Last(c: Config, run: Run): State
    decreases run, 1
  {
    match run
    case Begin(s) => s
    case Then(past, e) => Moved(c, past, e)
  }

  function Moved(c: Config, past: Run, e: Event): State
    decreases past, 2
  {
    if Enabled(c, Last(c, past), e) then Apply(c, Last(c, past), e) else Last(c, past)
  }

  /** The run starts afresh; every event can happen when it does, and obeys the rules. */
  ghost predicate Legal(r: Rules, c: Config, run: Run)
    decreases run, 1
  {
    match run
    case Begin(s) => Init(c, s)
    case Then(past, e) => Follows(r, c, past, e)
  }

  ghost predicate Follows(r: Rules, c: Config, past: Run, e: Event)
    decreases past, 2
  {
    Legal(r, c, past) && Enabled(c, Last(c, past), e) && Obeys(r, c, Last(c, past), e)
  }

  predicate Continues(run: Run, later: Run) {
    run == later || (later.Then? && Continues(run, later.past))
  }

  const STRICT := Rules(true, true)

  /** Every node has decided the previous instance and nothing of this one has happened. */
  ghost predicate Init(c: Config, s: State) {
    && c.instance >= 1
    && s.acc.Keys == s.prop.Keys
    && (forall a :: a in s.acc ==> Ready(c, a, s.acc[a]))
    && (forall p :: p in s.prop ==> s.prop[p].phase.Idle? && s.prop[p].myN.m == p)
    && s.h == Hist({}, 0, {})
  }

  ghost predicate Ready(c: Config, a: Node, A: Acceptor) {
    && A.me == a && Durable(A) && A.instanceH == c.instance - 1
    && A.nH.n == 0 && A.nA.n == 0 && A.vA == ""
  }

  predicate Decided(c: Config, s: State, a: Node, v: Value) {
    a in s.acc && s.acc[a].instanceH >= c.instance && ValueAt(s.acc[a], c.instance) == v
  }

  // ----- the invariant

  ghost predicate Covered(net: set<Msg>, b: Ballot, nA: Ballot, v: Value) {
    exists top: Ballot, r: nat, to: Node :: AcceptMsg(top, r, to, v) in net && Ge(top, nA) && Gt(b, top)
  }

  /** `q` promised `b`, and whatever it had accepted before then is outranked by an accept of `v` below `b`. */
  ghost predicate Backs(net: set<Msg>, b: Ballot, run: nat, q: Node, v: Value) {
    exists nA: Ballot, vA: Value :: PromiseMsg(b, run, q, nA, vA) in net && (nA.n == 0 || Covered(net, b, nA, v))
  }

  ghost predicate Supported(c: Config, net: set<Msg>, b: Ballot, run: nat, v: Value) {
    exists q: seq<Node> :: Majority(c.nodes, q) && forall x :: x in q ==> Backs(net, b, run, x, v)
  }

  ghost predicate HasPromised(net: set<Msg>, b: Ballot, run: nat, q: Node) {
    exists nA: Ballot, vA: Value :: PromiseMsg(b, run, q, nA, vA) in net
  }

  ghost predicate Asked(net: set<Msg>, b: Ballot, v: Value) {
    exists r: nat, to: Node :: AcceptMsg(b, r, to, v) in net
  }

  /** `v` was accepted at ballot `b` by a majority. */
  ghost predicate ChosenAt(c: Config, net: set<Msg>, b: Ballot, v: Value) {
    && Asked(net, b, v)
    && exists q: seq<Node> :: Majority(c.nodes, q) && forall x :: x in q ==> AckMsg(b, x) in net
  }

  ghost predicate Chosen(c: Config, net: set<Msg>, v: Value) {
    exists b: Ballot :: ChosenAt(c, net, b, v)
  }

  ghost predicate MsgOk(c: Config, h: Hist, m: Msg) {
    match m
    case PrepareMsg(b, r, _) => b.n >= 1 && r < h.runs
    case PromiseMsg(b, r, a, nA, vA) =>
      && b.n >= 1 && r < h.runs && (nA.n == 0 <==> vA == "")
      && (nA.n >= 1 ==> Gt(b, nA) && AckMsg(nA, a) in h.net && Asked(h.net, nA, vA))
    case OldMsg(_, _, v) => Chosen(c, h.net, v)
    case AcceptMsg(b, r, to, v) =>
      && b.n >= 1 && r < h.runs && v != "" && v in h.offered
      && HasPromised(h.net, b, r, to) && Supported(c, h.net, b, r, v)
    case AckMsg(b, a) => b.n >= 1 && exists v: Value :: Asked(h.net, b, v)
    case DecideMsg(to, v) => exists b: Ballot :: ChosenAt(c, h.net, b, v) && AckMsg(b, to) in h.net
  }

  /** One run and one value per ballot. */
  ghost predicate OneValue(net: set<Msg>) {
    forall b, r1, t1, v1, r2, t2, v2 ::
      AcceptMsg(b, r1, t1, v1) in net && AcceptMsg(b, r2, t2, v2) in net ==> r1 == r2 && v1 == v2
  }

  /** A node promises a ballot to one run only. */
  ghost predicate PromisedOnce(net: set<Msg>) {
    forall b, a, r1, n1, v1, r2, n2, v2 ::
      PromiseMsg(b, r1, a, n1, v1) in net && PromiseMsg(b, r2, a, n2, v2) in net ==> r1 == r2
  }

  /** A promise reports everything its sender has accepted, or ever will accept, below the promised ballot. */
  ghost predicate PromisesKept(net: set<Msg>) {
    forall b, r, a, nA, vA, b' :: PromiseMsg(b, r, a, nA, vA) in net && AckMsg(b', a) in net && Gt(b, b') ==> Ge(nA, b')
  }

  ghost predicate NetOk(c: Config, h: Hist) {
    && (forall m {:trigger MsgOk(c, h, m)} :: m in h.net ==> MsgOk(c, h, m))
    && OneValue(h.net) && PromisedOnce(h.net) && PromisesKept(h.net)
  }

  ghost predicate AccOk(c: Config, net: set<Msg>, a: Node, A: Acceptor) {
    && A.me == a && Durable(A) && (A.nA.n == 0 <==> A.vA == "")
    && (A.instanceH == c.instance || A.instanceH == c.instance - 1)
    && (A.instanceH == c.instance ==> Chosen(c, net, ValueAt(A, c.instance)))
    && (A.instanceH == c.instance - 1 ==> OpenOk(net, a, A))
  }

  /** An acceptor that is still undecided stands at or above every promise and every accept it ever sent. */
  ghost predicate OpenOk(net: set<Msg>, a: Node, A: Acceptor) {
    && (A.nA.n >= 1 ==> AckMsg(A.nA, a) in net && Asked(net, A.nA, A.vA) && Ge(A.nH, A.nA))
    && (forall b, r, nA, vA :: PromiseMsg(b, r, a, nA, vA) in net ==> Ge(A.nH, b))
    && (forall b :: AckMsg(b, a) in net ==> Ge(A.nA, b))
  }

  ghost predicate TallyBacks(net: set<Msg>, b: Ballot, run: nat, t: Tally, q: Node) {
    exists nA: Ballot, vA: Value ::
      PromiseMsg(b, run, q, nA, vA) in net && (nA.n == 0 || (t.highest.Some? && Ge(t.highest.value, nA)))
  }

  ghost predicate TallyOk(net: set<Msg>, b: Ballot, run: nat, t: Tally) {
    && (forall q :: q in t.accepts ==> TallyBacks(net, b, run, t, q))
    && (t.highest.None? ==> t.v == "")
    && (t.highest.Some? ==> (t.highest.value.n == 0 <==> t.v == ""))
    && (t.highest.Some? && t.highest.value.n >= 1 ==> Gt(b, t.highest.value) && Asked(net, t.highest.value, t.v))
  }

  ghost predicate OnlyRun(net: set<Msg>, b: Ballot, run: nat, v: Value) {
    forall r, to, w :: AcceptMsg(b, r, to, w) in net ==> r == run && w == v
  }

  ghost predicate PropOk(c: Config, h: Hist, p: Node, pr: Prop) {
    && pr.myN.m == p
    && (!pr.phase.Idle? ==> pr.run < h.runs && pr.myN.n >= 1)
    && match pr.phase
       case Idle => true
       case Preparing(newv, _, t) =>
         && newv != "" && newv in h.offered && TallyOk(h.net, pr.myN, pr.run, t)
         && forall to, w :: AcceptMsg(pr.myN, pr.run, to, w) !in h.net
       case Accepting(v, targets, _, acks) =>
         && v != "" && v in h.offered && Supported(c, h.net, pr.myN, pr.run, v) && OnlyRun(h.net, pr.myN, pr.run, v)
         && (forall q :: q in targets ==> HasPromised(h.net, pr.myN, pr.run, q))
         && (forall q :: q in acks ==> AckMsg(pr.myN, q) in h.net)
       case Deciding(v, acks, _) =>
         && Majority(c.nodes, acks) && OnlyRun(h.net, pr.myN, pr.run, v)
         && (forall q :: q in acks ==> AckMsg(pr.myN, q) in h.net)
  }

  ghost predicate Inv(c: Config, s: State) {
    && c.instance >= 1 && s.acc.Keys == s.prop.Keys
    && NetOk(c, s.h)
    && (forall a {:trigger AccOk(c, s.h.net, a, s.acc[a])} :: a in s.acc ==> AccOk(c, s.h.net, a, s.acc[a]))
    && (forall p {:trigger PropOk(c, s.h, p, s.prop[p])} :: p in s.prop ==> PropOk(c, s.h, p, s.prop[p]))
  }
}
