/** Elections by themselves, with the source's vote handler: whoever is elected after
    a stable phase holds everything that its leader committed. */
module Failover {
  import opened Types
  import opened Quorum
  import opened Handlers
  import opened Cluster
  import opened Moves
  import opened Progress
  import opened LogOrder
  import opened StablePhase

  type Logs<V> = map<NodeId, Log<V>>

  // ---------------------------------------------------------------- the order of logs

  /** Among initial parts of one log whose terms never fall, the order is that of length. */
  lemma AsRecentIsLonger<V>(whole: Log<V>, a: Log<V>, b: Log<V>)
    requires NonDecreasing(whole) && a <= whole && b <= whole
    ensures AsRecent(a, b) <==> b <= a
  {
    if a != [] && b != [] {
      assert a[|a| - 1] == whole[|a| - 1] && b[|b| - 1] == whole[|b| - 1];
      if |a| <= |b| {
        assert InOrder(whole, |a| - 1, |b| - 1);
      } else {
        assert InOrder(whole, |b| - 1, |a| - 1);
      }
    }
  }

  // ---------------------------------------------------------------- elections over fixed logs

  /** All logs are initial parts of one log whose terms never fall. */
  ghost predicate OneHistory<V>(logs: Logs<V>, whole: Log<V>) {
    NonDecreasing(whole) && forall n :: n in logs ==> logs[n] <= whole
  }

  /** Every node in the tally of `n` is a member, counted once, whose log is an initial
      part of that of `n`. */
  ghost predicate TallyOk<V>(logs: Logs<V>, n: NodeId, votes: seq<NodeId>) {
    n in logs && Distinct(votes) && forall v :: v in votes ==> v in logs && logs[v] <= logs[n]
  }

  /** A node other than the silent leader `l` leads only with the votes of a quorum. */
  ghost predicate VoterOk<V>(cfg: Config, logs: Logs<V>, n: NodeId, s: NodeState<V>, l: NodeId) {
    && n in logs && s.log == logs[n]
    && (s.role.Leader? && n != l ==> TallyOk(logs, n, s.votes) && |s.votes| >= |cfg.members| / 2 + 1)
  }

  ghost predicate CandidateOk<V>(cfg: Config, logs: Logs<V>, n: NodeId, s: NodeState<V>, rest: seq<NodeId>) {
    && s.role.Candidate? && TallyOk(logs, n, s.votes)
    && rest != [] && Distinct(rest) && forall p :: p in rest ==> p in PeersOf(cfg, n) && p !in s.votes
  }

  ghost predicate Voting<V>(cfg: Config, logs: Logs<V>, c: Cluster<V>, l: NodeId) {
    && ValidConfig(cfg) && logs.Keys == c.nodes.Keys == cfg.members && c.polling.Keys <= cfg.members
    && (forall n {:trigger VoterOk(cfg, logs, n, c.nodes[n], l)} :: n in c.nodes ==> VoterOk(cfg, logs, n, c.nodes[n], l))
    && (forall n {:trigger CandidateOk(cfg, logs, n, c.nodes[n], c.polling[n])} ::
          n in c.polling ==> CandidateOk(cfg, logs, n, c.nodes[n], c.polling[n]))
  }

  lemma VotingNodeMoves<V>(cfg: Config, logs: Logs<V>, c: Cluster<V>, l: NodeId, n: NodeId, s': NodeState<V>,
                           polling': map<NodeId, seq<NodeId>>)
    requires Voting(cfg, logs, c, l) && n in c.nodes && VoterOk(cfg, logs, n, s', l)
    requires polling'.Keys <= c.polling.Keys + {n}
    requires n in polling' ==> CandidateOk(cfg, logs, n, s', polling'[n])
    requires forall m :: m in polling' && m != n ==> polling'[m] == c.polling[m]
    ensures Voting(cfg, logs, c.(nodes := c.nodes[n := s'], polling := polling'), l)
  {
    var c' := c.(nodes := c.nodes[n := s'], polling := polling');
    forall m | m in c'.nodes ensures VoterOk(cfg, logs, m, c'.nodes[m], l) {
      assert m != n ==> VoterOk(cfg, logs, m, c.nodes[m], l);
    }
    forall m | m in c'.polling ensures CandidateOk(cfg, logs, m, c'.nodes[m], c'.polling[m]) {
      assert m != n ==> CandidateOk(cfg, logs, m, c.nodes[m], c.polling[m]);
    }
  }

  /** Handling a vote request moves neither log nor tally, and does not make a leader. */
  lemma VotingReceive<V>(cfg: Config, logs: Logs<V>, c: Cluster<V>, l: NodeId, v: NodeId, req: VoteRequest)
    requires Voting(cfg, logs, c, l) && Free(c, v)
    ensures Voting(cfg, logs, c.(nodes := c.nodes[v := RequestVote(c.nodes[v], req)]), l)
  {
    assert VoterOk(cfg, logs, v, c.nodes[v], l);
    VotingNodeMoves(cfg, logs, c, l, v, RequestVote(c.nodes[v], req), c.polling);
    assert c.(nodes := c.nodes[v := RequestVote(c.nodes[v], req)], polling := c.polling)
        == c.(nodes := c.nodes[v := RequestVote(c.nodes[v], req)]);
  }

  lemma CountedTally<V>(logs: Logs<V>, n: NodeId, votes: seq<NodeId>, v: NodeId)
    requires TallyOk(logs, n, votes) && v in logs && v !in votes && logs[v] <= logs[n]
    ensures TallyOk(logs, n, votes + [v])
  {
  }

  lemma VotingTurn<V>(cfg: Config, logs: Logs<V>, c: Cluster<V>, l: NodeId, n: NodeId, event: PollEvent)
    requires Voting(cfg, logs, c, l) && n in c.polling && c.polling[n] != []
    requires c.polling[n][0] in logs
    requires event.Answered? && event.reply.granted ==>
               event.reply.node == c.polling[n][0] && logs[c.polling[n][0]] <= logs[n]
    ensures Voting(cfg, logs, TakeTurn(cfg, c, n, event), l)
  {
    var s, rest := c.nodes[n], c.polling[n];
    assert VoterOk(cfg, logs, n, s, l) && CandidateOk(cfg, logs, n, s, rest);
    QuorumFits(cfg, n);
    var (s', done) := OnPoll(s, QuorumOf(cfg, n), PeersOf(cfg, n), event);
    assert rest[0] in rest;
    CountedTallyIf(logs, n, s.votes, rest[0]);
    VotingNodeMoves(cfg, logs, c, l, n, s', StopPolling(c.polling, n, rest[1..], done));
  }

  lemma CountedTallyIf<V>(logs: Logs<V>, n: NodeId, votes: seq<NodeId>, v: NodeId)
    requires TallyOk(logs, n, votes) && v in logs && v !in votes
    ensures logs[v] <= logs[n] ==> TallyOk(logs, n, votes + [v])
  {
    if logs[v] <= logs[n] {
      CountedTally(logs, n, votes, v);
    }
  }

  lemma GrantMeansPrefix<V>(logs: Logs<V>, whole: Log<V>, n: NodeId, cs: NodeState<V>, v: NodeId, s: NodeState<V>)
    requires OneHistory(logs, whole) && n in logs && v in logs && cs.log == logs[n] && s.log == logs[v]
    ensures Grants(s, Ballot(n, cs)) ==> logs[v] <= logs[n]
  {
    if Grants(s, Ballot(n, cs)) {
      GrantMeansAsRecent(n, cs, s);
      AsRecentIsLonger(whole, logs[n], logs[v]);
    }
  }

  lemma VotingAsk<V>(cfg: Config, logs: Logs<V>, whole: Log<V>, c: Cluster<V>, l: NodeId, n: NodeId, delivery: Delivery)
    requires Voting(cfg, logs, c, l) && OneHistory(logs, whole) && n in c.polling && c.polling[n] != []
    ensures Voting(cfg, logs, AskNext(cfg, c, n, delivery), l)
  {
    var v, req := c.polling[n][0], Ballot(n, c.nodes[n]);
    var c1 := c.(ballots := c.ballots + [req]);
    assert CandidateOk(cfg, logs, n, c.nodes[n], c.polling[n]) && v in c.polling[n];
    PeerIsOther(cfg, n, v);
    assert Voting(cfg, logs, c1, l);
    if delivery.Dropped? || !Listens(c, v) {
      VotingTurn(cfg, logs, c1, l, n, NoAnswer);
    } else {
      VotingReceive(cfg, logs, c1, l, v, req);
      var c2 := c1.(nodes := c1.nodes[v := RequestVote(c.nodes[v], req)]);
      assert VoterOk(cfg, logs, v, c.nodes[v], l) && VoterOk(cfg, logs, n, c.nodes[n], l);
      GrantMeansPrefix(logs, whole, n, c.nodes[n], v, c.nodes[v]);
      VotingTurn(cfg, logs, c2, l, n,
                 if delivery.Exchanged? then Answered(VoteAnswer(v, c.nodes[v], req)) else NoAnswer);
    }
  }

  lemma VotingCandidacy<V>(cfg: Config, logs: Logs<V>, c: Cluster<V>, l: NodeId, n: NodeId)
    requires Voting(cfg, logs, c, l)
    ensures Voting(cfg, logs, Apply(cfg, c, Candidacy(n)), l)
  {
    if Free(c, n) && !c.nodes[n].role.Leader? && !c.nodes[n].heard {
      var polling' := if PeersOf(cfg, n) == [] then c.polling else c.polling[n := PeersOf(cfg, n)];
      assert VoterOk(cfg, logs, n, c.nodes[n], l) && PeersFine(cfg, n);
      forall p | p in PeersOf(cfg, n) ensures p != n {
        PeerIsOther(cfg, n, p);
      }
      VotingNodeMoves(cfg, logs, c, l, n, Stand(n, c.nodes[n]), polling');
    }
  }

  lemma VotingStep<V>(cfg: Config, logs: Logs<V>, whole: Log<V>, c: Cluster<V>, l: NodeId, a: Action<V>)
    requires Voting(cfg, logs, c, l) && OneHistory(logs, whole) && VoteAction(a)
    ensures Voting(cfg, logs, Apply(cfg, c, a), l)
  {
    match a {
      case Candidacy(n) => VotingCandidacy(cfg, logs, c, l, n);
      case Poll(n, delivery) =>
        if n in c.polling && c.polling[n] != [] { VotingAsk(cfg, logs, whole, c, l, n, delivery); }
      case PollTimeout(n) =>
        if n in c.polling && c.polling[n] != [] {
          assert CandidateOk(cfg, logs, n, c.nodes[n], c.polling[n]) && c.polling[n][0] in c.polling[n];
          PeerIsOther(cfg, n, c.polling[n][0]);
          VotingTurn(cfg, logs, c, l, n, TimedOut);
        }
      case LateVote(v, i) =>
        if Free(c, v) && i < |c.ballots| { VotingReceive(cfg, logs, c, l, v, c.ballots[i]); }
      case Tick(n) =>
        if Free(c, n) {
          assert VoterOk(cfg, logs, n, c.nodes[n], l);
          VotingNodeMoves(cfg, logs, c, l, n, c.nodes[n].(heard := false), c.polling);
        }
    }
  }

  /** From moment i of a run to moment j. */
  ghost predicate VotesBetween<V>(schedule: seq<Action<V>>, i: nat, j: nat)
    requires j <= |schedule|
  {
    forall x :: i <= x < j ==> VoteAction(schedule[x])
  }

  lemma {:induction false} VotingRun<V>(cfg: Config, run: seq<Cluster<V>>, schedule: seq<Action<V>>,
                                        logs: Logs<V>, whole: Log<V>, l: NodeId, i: nat, j: nat)
    requires Run(cfg, run, schedule) && i <= j < |run| && VotesBetween(schedule, i, j)
    requires Voting(cfg, logs, run[i], l) && OneHistory(logs, whole)
    ensures Voting(cfg, logs, run[j], l)
    decreases j
  {
    if i < j {
      VotingRun(cfg, run, schedule, logs, whole, l, i, j - 1);
      assert Step(cfg, run, schedule, j - 1);
      VotingStep(cfg, logs, whole, run[j - 1], l, schedule[j - 1]);
    }
  }

  ghost function LogsOf<V>(c: Cluster<V>): Logs<V> {
    map n | n in c.nodes :: c.nodes[n].log
  }

  /** Failover keeps commits. After a stable phase under `l`, elections alone make only
      such leaders as hold everything that `l` had committed; the log of each node in a
      new leader's tally, which is a quorum without repetition, is an initial part of its log. */
  lemma FailoverKeepsCommits<V>(cfg: Config, run: seq<Cluster<V>>, schedule: seq<Action<V>>, l: NodeId,
                                i: nat, j: nat, w: NodeId)
    requires Run(cfg, run, schedule) && i <= j < |run| && VotesBetween(schedule, i, j)
    requires Stable(cfg, run[i], l) && Leads(run[j], w)
    ensures w in cfg.members && l in run[i].nodes
    ensures var old_l, s := run[i].nodes[l], run[j].nodes[w];
            && old_l.commit <= |old_l.log| && old_l.log[..old_l.commit] <= s.log
            && (w != l ==> Distinct(s.votes) && |s.votes| >= |cfg.members| / 2 + 1
                           && forall v :: v in s.votes ==> v in run[j].nodes && run[j].nodes[v].log <= s.log)
  {
    var logs, whole := LogsOf(run[i]), run[i].nodes[l].log;
    StableIsVoting(cfg, run[i], l);
    VotingRun(cfg, run, schedule, logs, whole, l, i, j);
    assert VoterOk(cfg, logs, w, run[j].nodes[w], l);
    if w != l {
      var s := run[j].nodes[w];
      forall v | v in s.votes ensures v in run[j].nodes && run[j].nodes[v].log <= s.log {
        assert VoterOk(cfg, logs, v, run[j].nodes[v], l);
      }
      CommitHeld(cfg, run[i], logs, l, w, s.votes);
    }
  }

  lemma StableIsVoting<V>(cfg: Config, c: Cluster<V>, l: NodeId)
    requires Stable(cfg, c, l)
    ensures Voting(cfg, LogsOf(c), c, l) && OneHistory(LogsOf(c), c.nodes[l].log)
  {
    var logs := LogsOf(c);
    forall n | n in logs ensures logs[n] <= c.nodes[l].log && VoterOk(cfg, logs, n, c.nodes[n], l) {
      assert n != l ==> FollowerOk(c.nodes[l], n, c.nodes[n]);
    }
  }

  /** The quorum that backs the commit index shares a node with the tally. */
  lemma CommitHeld<V>(cfg: Config, c: Cluster<V>, logs: Logs<V>, l: NodeId, w: NodeId, votes: seq<NodeId>)
    requires Stable(cfg, c, l) && logs == LogsOf(c) && w in c.nodes && w != l
    requires TallyOk(logs, w, votes) && |votes| >= |cfg.members| / 2 + 1
    ensures c.nodes[l].log[..c.nodes[l].commit] <= logs[w]
  {
    var k := c.nodes[l].commit;
    assert FollowerOk(c.nodes[l], w, c.nodes[w]);
    if k > 0 {
      var q :| HeldByQuorum(cfg, c.nodes, k, q);
      DistinctSize(votes);
      var v := QuorumsIntersect(cfg.members, q, Elements(votes), |cfg.members| / 2 + 1);
      assert k <= |logs[v]| <= |logs[w]|;
    }
  }

  // ---------------------------------------------------------------- terms

  /** Elections alone never lower a term or touch a log, whatever the append handler is. */
  lemma VoteStepTerms<V>(cfg: Config, c: Cluster<V>, a: Action<V>, n: NodeId)
    requires VoteAction(a) && n in c.nodes
    ensures var c' := Apply(cfg, c, a);
            n in c'.nodes && c.nodes[n].term <= c'.nodes[n].term && c'.nodes[n].log == c.nodes[n].log
  {
  }

  /** So log terms stay in order and within the node's term, which never falls. */
  lemma {:induction false} VoteRunTerms<V>(cfg: Config, run: seq<Cluster<V>>, schedule: seq<Action<V>>, i: nat,
                                           j: nat, n: NodeId)
    requires Run(cfg, run, schedule) && i <= j < |run| && VotesBetween(schedule, i, j) && n in run[i].nodes
    ensures n in run[j].nodes
    ensures run[i].nodes[n].term <= run[j].nodes[n].term && run[j].nodes[n].log == run[i].nodes[n].log
    ensures LastTerm(run[i].nodes[n].log) <= run[i].nodes[n].term ==>
              LastTerm(run[j].nodes[n].log) <= run[j].nodes[n].term
    decreases j
  {
    if i < j {
      VoteRunTerms(cfg, run, schedule, i, j - 1, n);
      assert Step(cfg, run, schedule, j - 1);
      VoteStepTerms(cfg, run[j - 1], schedule[j - 1], n);
    }
  }

  // ---------------------------------------------------------------- the first election

  /** The books of a leader that has just been elected with an empty log. */
  ghost predicate FreshBooks<V>(cfg: Config, n: NodeId, s: NodeState<V>) {
    && (forall p :: p in PeersOf(cfg, n) ==> p in s.nextIndex)
    && (forall p :: p in s.nextIndex ==> s.nextIndex[p] == 1)
    && (forall p :: p in s.matchIndex ==> p in PeersOf(cfg, n) && s.matchIndex[p] == 0)
  }

  /** A node before anything has been appended; a leader's books are as its election left them. */
  ghost predicate Unused<V>(cfg: Config, n: NodeId, s: NodeState<V>) {
    && s.log == [] && s.commit == 0 && s.outbox == []
    && (s.role.Leader? ==> FreshBooks(cfg, n, s))
  }

  /** What a node does in elections. */
  predicate VoteMove<V>(move: Move<V>) {
    move.Idles? || move.Votes? || move.Stands? || move.Turns? || move.Quiets?
  }

  lemma UnusedTurn<V>(cfg: Config, n: NodeId, s: NodeState<V>, event: PollEvent)
    requires Unused(cfg, n, s)
    ensures Unused(cfg, n, OnPoll(s, QuorumOf(cfg, n), PeersOf(cfg, n), event).0)
  {
  }

  lemma UnusedMove<V>(cfg: Config, n: NodeId, s: NodeState<V>, move: Move<V>)
    requires Unused(cfg, n, s) && VoteMove(move)
    ensures Unused(cfg, n, Moved(cfg, n, s, move))
  {
    if move.Turns? {
      UnusedTurn(cfg, n, s, move.event);
    }
  }

  lemma VotesAbortNothing<V>(cfg: Config, c: Cluster<V>, a: Action<V>)
    requires VoteAction(a)
    ensures Apply(cfg, c, a).aborted == c.aborted
  {
  }

  lemma {:induction false} UnusedRun<V>(cfg: Config, run: seq<Cluster<V>>, schedule: seq<Action<V>>, i: nat, n: NodeId)
    requires Run(cfg, run, schedule) && Initial(cfg, run[0]) && i < |run| && VotesBetween(schedule, 0, i) && n in cfg.members
    ensures run[i].nodes.Keys == cfg.members && run[i].aborted == {} && Unused(cfg, n, run[i].nodes[n])
  {
    if i == 0 {
      assert FreshNode(cfg, n, run[0].nodes[n]);
    } else {
      UnusedRun(cfg, run, schedule, i - 1, n);
      assert Step(cfg, run, schedule, i - 1);
      VotesAbortNothing(cfg, run[i - 1], schedule[i - 1]);
      var move := MoveOf(cfg, run[i - 1], schedule[i - 1], n);
      UnusedMove(cfg, n, run[i - 1].nodes[n], move);
    }
  }

  /** A fresh cluster whose elections have produced a single leader is stable. */
  lemma FirstElectionIsStable<V>(cfg: Config, run: seq<Cluster<V>>, schedule: seq<Action<V>>, i: nat, l: NodeId)
    requires Run(cfg, run, schedule) && Initial(cfg, run[0]) && cfg.mode.Literal?
    requires i < |run| && VotesBetween(schedule, 0, i) && run[i].polling == map[] && l in cfg.members && Leads(run[i], l)
    requires forall n :: Leads(run[i], n) ==> n == l
    ensures Stable(cfg, run[i], l)
  {
    UnusedRun(cfg, run, schedule, i, l);
    var s := run[i].nodes[l];
    assert PeersFine(cfg, l);
    forall p | p in s.matchIndex ensures p in cfg.members && p != l {
      PeerIsOther(cfg, l, p);
    }
    forall f | f in cfg.members && f != l ensures FollowerOk(s, f, run[i].nodes[f]) {
      UnusedRun(cfg, run, schedule, i, f);
      assert !Leads(run[i], f) && f in Elements(cfg.peers[l]);
    }
  }

  // ---------------------------------------------------------------- one failover

  /** In a stable state nobody has delivered more than the leader has committed. */
  lemma DeliveredIsCommitted<V>(cfg: Config, c: Cluster<V>, l: NodeId, a: NodeId)
    requires Stable(cfg, c, l) && a in cfg.members
    ensures a in c.nodes && c.nodes[l].commit <= |c.nodes[l].log|
    ensures c.nodes[a].outbox <= c.nodes[l].log[..c.nodes[l].commit]
  {
    assert a != l ==> FollowerOk(c.nodes[l], a, c.nodes[a]);
  }

  /** From a fresh cluster with the source's own handlers: elections that end with one
      leader `l`, a stable phase, and elections again. Whatever any node has delivered
      by the end of the stable phase is in the log of whoever then leads. */
  lemma OneFailover<V>(cfg: Config, run: seq<Cluster<V>>, schedule: seq<Action<V>>, i: nat, j: nat, k: nat,
                       l: NodeId, a: NodeId, w: NodeId)
    requires Run(cfg, run, schedule) && Initial(cfg, run[0]) && cfg.mode.Literal? && i <= j <= k < |run|
    requires VotesBetween(schedule, 0, i) && StableBetween(schedule, i, j) && VotesBetween(schedule, j, k)
    requires run[i].polling == map[] && Leads(run[i], l) && l in cfg.members
    requires forall n :: Leads(run[i], n) ==> n == l
    requires a in cfg.members && Leads(run[k], w)
    ensures a in run[j].nodes && run[j].nodes[a].outbox <= run[k].nodes[w].log
  {
    FirstElectionIsStable(cfg, run, schedule, i, l);
    StableRun(cfg, run, schedule, l, i, j);
    FailoverKeepsCommits(cfg, run, schedule, l, j, k, w);
    DeliveredIsCommitted(cfg, run[j], l, a);
  }
}
