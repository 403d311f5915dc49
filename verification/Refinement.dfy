/** Runs with the source's own append handler and commit rule that are runs with the
    intended ones: as long as each step passes a test on the state before it, the
    safety theorems hold of the source itself, over any number of terms. */
module Refinement {
  import opened Types
  import opened Handlers
  import opened Quorum
  import opened Cluster
  import opened Moves
  import opened Elections
  import opened Progress
  import opened Safety
  import opened HandlerLaws

  /** The same cluster with the intended handlers. */
  function WithIntended(cfg: Config, rule: Splice): Config {
    cfg.(mode := Intended(rule))
  }

  /** The index that the fold finds is no news, or its entry is of the leader's own term. */
  ghost predicate CommitAsIntended<V>(s: NodeState<V>, quorum: int) {
    var best := CommitCandidate(s.matchIndex, quorum);
    best.None? || !(s.commit < best.value <= |s.log|) || s.log[best.value - 1].term == s.term
  }

  /** The test on the state before a step: what it makes the append handler or the
      commit rule do is what their comments say. */
  ghost predicate StepAsIntended<V>(cfg: Config, c: Cluster<V>, a: Action<V>) {
    && (Arriving(cfg, c, a).Some? ==> AsIntended(c.nodes[Arriving(cfg, c, a).value.0], Arriving(cfg, c, a).value.1))
    && (a.CommitRule? && a.node in c.nodes ==> CommitAsIntended(c.nodes[a.node], QuorumOf(cfg, a.node)))
  }

  lemma HandleRefines<V>(cfg: Config, rule: Splice, f: NodeId, s: NodeState<V>, req: AppendRequest<V>)
    requires cfg.mode.Literal?
    ensures Handle(cfg, f, s, req) == Handle(WithIntended(cfg, rule), f, s, req) <==> AsIntended(s, req)
  {
    LiteralIsIntendedIff(rule, f, s, req);
  }

  lemma HeartbeatRefines<V>(cfg: Config, rule: Splice, c: Cluster<V>, l: NodeId, f: NodeId, delivery: Delivery)
    requires cfg.mode.Literal? && Ticks(c, l) && c.nodes[l].role.Leader? && f in PeersOf(cfg, l)
    requires StepAsIntended(cfg, c, Heartbeat(l, f, delivery))
    ensures SendHeartbeat(cfg, c, l, f, delivery) == SendHeartbeat(WithIntended(cfg, rule), c, l, f, delivery)
  {
    var built := BuildRequest(l, c.nodes[l], f);
    if Listens(c, f) && built.Some? {
      HandleRefines(cfg, rule, f, c.nodes[f], built.value);
    }
  }

  lemma CommitRefines<V>(cfg: Config, rule: Splice, c: Cluster<V>, n: NodeId)
    requires cfg.mode.Literal? && Ticks(c, n) && CommitAsIntended(c.nodes[n], QuorumOf(cfg, n))
    ensures RunCommitRule(cfg, c, n) == RunCommitRule(WithIntended(cfg, rule), c, n)
  {
  }

  lemma OthersRefine<V>(cfg: Config, rule: Splice, c: Cluster<V>, a: Action<V>)
    requires !a.Heartbeat? && !a.LateAppend? && !a.CommitRule?
    ensures Apply(cfg, c, a) == Apply(WithIntended(cfg, rule), c, a)
  {
  }

  lemma StepRefines<V>(cfg: Config, rule: Splice, c: Cluster<V>, a: Action<V>)
    requires cfg.mode.Literal? && StepAsIntended(cfg, c, a)
    ensures Apply(cfg, c, a) == Apply(WithIntended(cfg, rule), c, a)
  {
    match a {
      case Heartbeat(l, f, delivery) =>
        if Ticks(c, l) && c.nodes[l].role.Leader? && f in PeersOf(cfg, l) { HeartbeatRefines(cfg, rule, c, l, f, delivery); }
      case LateAppend(f, i) =>
        if Listens(c, f) && i < |c.sent| { HandleRefines(cfg, rule, f, c.nodes[f], c.sent[i]); }
      case CommitRule(n) =>
        if Ticks(c, n) { CommitRefines(cfg, rule, c, n); }
      case _ => OthersRefine(cfg, rule, c, a);
    }
  }

  ghost predicate AllAsIntended<V>(cfg: Config, run: seq<Cluster<V>>, schedule: seq<Action<V>>)
    requires |run| == |schedule| + 1
  {
    forall i {:trigger StepAsIntended(cfg, run[i], schedule[i])} ::
      0 <= i < |schedule| ==> StepAsIntended(cfg, run[i], schedule[i])
  }

  /** Such a run of the source is a run with the intended handlers, in which requests
      may be lost, repeated and handled late. */
  lemma LiteralRunIsIntended<V>(cfg: Config, run: seq<Cluster<V>>, schedule: seq<Action<V>>)
    requires cfg.mode.Literal? && Run(cfg, run, schedule) && Initial(cfg, run[0])
    requires AllAsIntended(cfg, run, schedule)
    ensures SafeRun(WithIntended(cfg, Merge), run, schedule)
  {
    var cfg' := WithIntended(cfg, Merge);
    forall i | 0 <= i < |schedule| ensures Step(cfg', run, schedule, i) {
      assert Step(cfg, run, schedule, i) && StepAsIntended(cfg, run[i], schedule[i]);
      StepRefines(cfg, Merge, run[i], schedule[i]);
    }
    forall n | n in cfg.members ensures PeersFine(cfg', n) {
      assert PeersFine(cfg, n);
    }
    forall n | n in run[0].nodes ensures FreshNode(cfg', n, run[0].nodes[n]) {
      assert FreshNode(cfg, n, run[0].nodes[n]);
    }
  }

  /** So over such a run the source delivers alike and no handler is out of range. */
  lemma LiteralSafety<V>(cfg: Config, run: seq<Cluster<V>>, schedule: seq<Action<V>>, i: nat, j: nat, a: NodeId, b: NodeId)
    requires cfg.mode.Literal? && Run(cfg, run, schedule) && Initial(cfg, run[0])
    requires AllAsIntended(cfg, run, schedule)
    requires i < |run| && j < |run| && a in run[i].nodes && b in run[j].nodes
    ensures Comparable(run[i].nodes[a].outbox, run[j].nodes[b].outbox)
    ensures run[i].aborted == {}
  {
    var cfg' := WithIntended(cfg, Merge);
    LiteralRunIsIntended(cfg, run, schedule);
    StateMachineSafety(cfg', run, schedule, i, j, a, b);
    NothingStops(cfg', run, schedule, i);
  }

  // ---------------------------------------------------------------- elections

  /** The step makes a node that does not lead handle a stale request that passes the log test. */
  ghost predicate TakesStale<V>(cfg: Config, c: Cluster<V>, a: Action<V>) {
    && cfg.mode.Literal? && Arriving(cfg, c, a).Some?
    && var (f, req) := Arriving(cfg, c, a).value;
       req.term < c.nodes[f].term && !c.nodes[f].role.Leader? && LiteralAccepts(c.nodes[f], req)
  }

  lemma OtherMovesRaise<V>(cfg: Config, n: NodeId, s: NodeState<V>, move: Move<V>)
    requires !move.Takes?
    ensures s.term <= Moved(cfg, n, s, move).term
  {
    if move.Commits? {
      DeliveryKeepsLog(s, QuorumOf(cfg, n), cfg.mode.Intended?);
    }
  }

  lemma TakenTermFallsIff<V>(cfg: Config, n: NodeId, s: NodeState<V>, req: AppendRequest<V>)
    ensures Handle(cfg, n, s, req).state.term < s.term <==>
              cfg.mode.Literal? && req.term < s.term && !s.role.Leader? && LiteralAccepts(s, req)
  {
    if cfg.mode.Literal? {
      TermFallsIff(n, s, req);
    }
  }

  lemma StaleLowers<V>(cfg: Config, c: Cluster<V>, a: Action<V>)
    requires ValidConfig(cfg) && c.nodes.Keys == cfg.members && TakesStale(cfg, c, a)
    ensures !TermsRise(c, Apply(cfg, c, a))
  {
    var (f, req) := Arriving(cfg, c, a).value;
    var move := MoveOf(cfg, c, a, f);
    TakenTermFallsIff(cfg, f, c.nodes[f], req);
  }

  lemma OnlyStaleLowers<V>(cfg: Config, c: Cluster<V>, a: Action<V>, n: NodeId)
    requires ValidConfig(cfg) && c.nodes.Keys == cfg.members && n in c.nodes && !TakesStale(cfg, c, a)
    ensures n in Apply(cfg, c, a).nodes && c.nodes[n].term <= Apply(cfg, c, a).nodes[n].term
  {
    var move := MoveOf(cfg, c, a, n);
    if move.Takes? {
      TakenTermFallsIff(cfg, n, c.nodes[n], move.request);
    } else {
      OtherMovesRaise(cfg, n, c.nodes[n], move);
    }
  }

  /** A step lowers some node's term exactly when it is such a step. */
  lemma TermsFallIff<V>(cfg: Config, c: Cluster<V>, a: Action<V>)
    requires ValidConfig(cfg) && c.nodes.Keys == cfg.members
    ensures !TermsRise(c, Apply(cfg, c, a)) <==> TakesStale(cfg, c, a)
  {
    if TakesStale(cfg, c, a) {
      StaleLowers(cfg, c, a);
    } else {
      var c' := Apply(cfg, c, a);
      forall n | n in c.nodes && n in c'.nodes ensures c.nodes[n].term <= c'.nodes[n].term {
        OnlyStaleLowers(cfg, c, a, n);
      }
    }
  }

  /** Election Safety of the source as it is written: in a run in which no node that does
      not lead handles a stale request that passes the log test, at most one node ever
      leads in a term. Nothing is asked of the splice, of commits, of lost replies or of
      aborted handlers. */
  lemma SourceElectionSafety<V>(cfg: Config, run: seq<Cluster<V>>, schedule: seq<Action<V>>, i: nat, j: nat,
                                a: NodeId, b: NodeId)
    requires Run(cfg, run, schedule) && Initial(cfg, run[0]) && i < |run| && j < |run|
    requires forall k {:trigger TakesStale(cfg, run[k], schedule[k])} ::
               0 <= k < |schedule| ==> !TakesStale(cfg, run[k], schedule[k])
    requires Leads(run[i], a) && Leads(run[j], b) && run[i].nodes[a].term == run[j].nodes[b].term
    ensures a == b
  {
    forall k | 0 <= k < |run| - 1 ensures TermsRise(run[k], run[k + 1]) {
      NodesAreMembers(cfg, run, schedule, k);
      assert Step(cfg, run, schedule, k) && !TakesStale(cfg, run[k], schedule[k]);
      TermsFallIff(cfg, run[k], schedule[k]);
    }
    OneLeaderPerTerm(cfg, run, schedule, i, j, a, b);
  }
}
