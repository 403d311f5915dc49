/** When elections succeed: who gets a vote, who wins, and who stays quiet. */
module Campaign {
  import opened Types
  import opened Quorum
  import opened Handlers
  import opened Cluster
  import opened Moves
  import opened Progress
  import opened LogOrder
  import opened Elections

  // ---------------------------------------------------------------- votes

  /** Node `n`, a candidate in the state `cs`, can have the vote of a node in the state `s`:
      that node is in no later term, its vote of this term is free or already `n`'s, and
      the log of `n` is as recent as its own; with an empty log it must never have voted. */
  predicate Willing<V>(s: NodeState<V>, n: NodeId, cs: NodeState<V>) {
    && s.term <= cs.term
    && (s.term == cs.term ==> s.votedFor.None? || s.votedFor.value == n)
    && (if s.log == [] then s.votedFor.None? else AsRecent(cs.log, s.log))
  }

  /** A vote is given exactly when it can be; the answer carries the voter's new term. */
  lemma VoteGivenIff<V>(v: NodeId, s: NodeState<V>, n: NodeId, cs: NodeState<V>)
    ensures var answer, s' := VoteAnswer(v, s, Ballot(n, cs)), RequestVote(s, Ballot(n, cs));
            && (answer.granted <==> Willing(s, n, cs))
            && answer.node == v && answer.term == s'.term
            && (answer.granted ==> s'.term == cs.term && s'.votedFor == Some(n) && s'.role.Follower? && s'.heard)
            && s' == (if answer.granted
                      then s.(term := s'.term, votedFor := s'.votedFor, role := s'.role, heard := s'.heard) else s)
  {
  }

  /** A node that has given its vote refuses everybody else in that term; asked again by
      the same candidate it gives it again if and only if its log is not empty. */
  lemma VoteIsGivenOnce<V>(s: NodeState<V>, n: NodeId, cs: NodeState<V>, m: NodeId, ms: NodeState<V>)
    requires Willing(s, n, cs) && m != n && ms.term <= cs.term
    ensures var s' := RequestVote(s, Ballot(n, cs));
            && !VoteAnswer(0, s', Ballot(m, ms)).granted
            && (VoteAnswer(0, s', Ballot(n, cs)).granted <==> s.log != [])
  {
  }

  // ---------------------------------------------------------------- a whole election

  /** `n` stands, and asks each peer in turn; the peers in `q` answer, the others are silent. */
  ghost predicate AsksAll<V>(cfg: Config, schedule: seq<Action<V>>, n: NodeId, q: set<NodeId>) {
    var peers := PeersOf(cfg, n);
    && |schedule| == |peers| + 1 && schedule[0] == Candidacy(n)
    && forall i :: 1 <= i < |schedule| ==> schedule[i] == Poll(n, if peers[i - 1] in q then Exchanged else Dropped)
  }

  /** A peer that is ready to give `n` its vote. */
  ghost predicate Ready<V>(c: Cluster<V>, p: NodeId, n: NodeId, cs: NodeState<V>) {
    Listens(c, p) && Willing(c.nodes[p], n, cs)
  }

  /** The tally of `n` after its first k peers. */
  ghost predicate Counting<V>(cfg: Config, c: Cluster<V>, cs: NodeState<V>, n: NodeId, q: set<NodeId>, k: nat)
    requires k <= |PeersOf(cfg, n)|
  {
    var peers := PeersOf(cfg, n);
    && n in c.nodes && c.nodes[n] == cs.(votes := c.nodes[n].votes)
    && |c.nodes[n].votes| == 1 + |Elements(peers[..k]) * q| < QuorumOf(cfg, n)
    && (if k == |peers| then n !in c.polling else n in c.polling && c.polling[n] == peers[k..])
    && forall i :: k <= i < |peers| && peers[i] in q ==> Ready(c, peers[i], n, cs)
  }

  /** `n` leads in the term and with the log with which it stood; its books say of every
      peer that the next entry is the one after the log and that nothing matches yet. */
  ghost predicate HasWon<V>(cfg: Config, c: Cluster<V>, cs: NodeState<V>, n: NodeId) {
    && Leads(c, n) && n !in c.polling && c.nodes[n].term == cs.term && c.nodes[n].log == cs.log && c.nodes[n].isLeader
    && FreshBooks(PeersOf(cfg, n), c.nodes[n])
  }

  ghost predicate FreshBooks<V>(peers: seq<NodeId>, s: NodeState<V>) {
    && (forall p :: p in s.matchIndex ==> p in peers)
    && forall p :: p in peers ==>
                     p in s.nextIndex && s.nextIndex[p] == |s.log| + 1 && p in s.matchIndex && s.matchIndex[p] == 0
  }

  lemma OneMore(peers: seq<NodeId>, q: set<NodeId>, k: nat)
    requires Distinct(peers) && k < |peers|
    ensures |Elements(peers[..k + 1]) * q| == |Elements(peers[..k]) * q| + if peers[k] in q then 1 else 0
  {
    var before := Elements(peers[..k]) * q;
    assert peers[..k + 1] == peers[..k] + [peers[k]];
    if peers[k] in q {
      assert Elements(peers[..k + 1]) * q == before + {peers[k]};
    } else {
      assert Elements(peers[..k + 1]) * q == before;
    }
  }

  ghost predicate Rest(polling: map<NodeId, seq<NodeId>>, n: NodeId, rest: seq<NodeId>) {
    if rest == [] then n !in polling else n in polling && polling[n] == rest
  }

  /** A peer that is silent, or cannot be reached, leaves the candidate with the next one. */
  lemma SilentPeerIsSkipped<V>(cfg: Config, c: Cluster<V>, n: NodeId, delivery: Delivery)
    requires n in c.nodes && n in c.polling && c.polling[n] != []
    requires delivery.Dropped? || !Listens(c, c.polling[n][0])
    ensures var c' := Apply(cfg, c, Poll(n, delivery));
            && c'.nodes == c.nodes && c'.aborted == c.aborted && Rest(c'.polling, n, c.polling[n][1..])
            && forall m :: m != n ==> (m in c'.polling <==> m in c.polling)
  {
    assert c.nodes[n := c.nodes[n]] == c.nodes;
  }

  /** The candidate after one more vote: it leads, or it goes on to the next peer. */
  ghost predicate AfterVote<V>(cfg: Config, c: Cluster<V>, c': Cluster<V>, n: NodeId)
    requires n in c.nodes && n in c.polling && c.polling[n] != []
  {
    var s, v := c.nodes[n], c.polling[n][0];
    && n in c'.nodes && c'.nodes.Keys == c.nodes.Keys && c'.aborted == c.aborted
    && (forall m :: m != n ==> (m in c'.polling <==> m in c.polling))
    && (forall m :: m in c.nodes && m != n && m != v ==> c'.nodes[m] == c.nodes[m])
    && if |s.votes| + 1 >= QuorumOf(cfg, n) then
         HasWon(cfg, c', s, n) && c'.nodes[n].votes == s.votes + [v] && c'.nodes[n].votedFor == s.votedFor
       else
         Rest(c'.polling, n, c.polling[n][1..]) && c'.nodes[n] == s.(votes := s.votes + [v])
  }

  lemma VoteIsCounted<V>(cfg: Config, c: Cluster<V>, n: NodeId)
    requires n in c.nodes && n in c.polling && c.polling[n] != [] && c.polling[n][0] != n
    requires Ready(c, c.polling[n][0], n, c.nodes[n])
    ensures AfterVote(cfg, c, Apply(cfg, c, Poll(n, Exchanged)), n)
  {
    var v := c.polling[n][0];
    VoteGivenIff(v, c.nodes[v], n, c.nodes[n]);
    var reply := VoteAnswer(v, c.nodes[v], Ballot(n, c.nodes[n]));
    assert Count(c.nodes[n], reply) == c.nodes[n].(votes := c.nodes[n].votes + [v]);
  }

  lemma CountingStarts<V>(cfg: Config, c: Cluster<V>, n: NodeId, q: set<NodeId>)
    requires ValidConfig(cfg) && c.nodes.Keys == cfg.members && PeersOf(cfg, n) != []
    requires Ticks(c, n) && !c.nodes[n].role.Leader? && !c.nodes[n].heard
    requires forall p :: p in q ==> p in PeersOf(cfg, n) && Ready(c, p, n, Stand(n, c.nodes[n]))
    ensures Counting(cfg, Apply(cfg, c, Candidacy(n)), Stand(n, c.nodes[n]), n, q, 0)
  {
    var peers := PeersOf(cfg, n);
    assert Elements(peers[..0]) * q == {} && peers[0..] == peers;
    QuorumFits(cfg, n);
    forall i | 0 <= i < |peers| && peers[i] in q
      ensures Ready(Apply(cfg, c, Candidacy(n)), peers[i], n, Stand(n, c.nodes[n]))
    {
      PeerIsOther(cfg, n, peers[i]);
    }
  }

  /** One more peer: the tally is as expected, or the candidate has won. */
  lemma CountingGoesOn<V>(cfg: Config, c: Cluster<V>, cs: NodeState<V>, n: NodeId, q: set<NodeId>, k: nat)
    requires ValidConfig(cfg) && n in cfg.members && k < |PeersOf(cfg, n)| && Counting(cfg, c, cs, n, q, k)
    ensures var c' := Apply(cfg, c, Poll(n, if PeersOf(cfg, n)[k] in q then Exchanged else Dropped));
            HasWon(cfg, c', cs, n) || Counting(cfg, c', cs, n, q, k + 1)
  {
    var peers := PeersOf(cfg, n);
    var p := peers[k];
    PeerIsOther(cfg, n, p);
    assert PeersFine(cfg, n);
    OneMore(peers, q, k);
    assert peers[k..][0] == p && peers[k..][1..] == peers[k + 1..];
    var c' := Apply(cfg, c, Poll(n, if p in q then Exchanged else Dropped));
    if p in q {
      VoteIsCounted(cfg, c, n);
    } else {
      SilentPeerIsSkipped(cfg, c, n, Dropped);
    }
    forall i | k < i < |peers| && peers[i] in q ensures HasWon(cfg, c', cs, n) || Ready(c', peers[i], n, cs) {
      PeerIsOther(cfg, n, peers[i]);
    }
  }

  lemma CountingStep<V>(cfg: Config, c: Cluster<V>, cs: NodeState<V>, n: NodeId, q: set<NodeId>, k: nat)
    requires ValidConfig(cfg) && n in cfg.members && k < |PeersOf(cfg, n)|
    requires HasWon(cfg, c, cs, n) || Counting(cfg, c, cs, n, q, k)
    ensures var c' := Apply(cfg, c, Poll(n, if PeersOf(cfg, n)[k] in q then Exchanged else Dropped));
            HasWon(cfg, c', cs, n) || Counting(cfg, c', cs, n, q, k + 1)
  {
    if !HasWon(cfg, c, cs, n) {
      CountingGoesOn(cfg, c, cs, n, q, k);
    }
  }

  lemma {:induction false} CountingRun<V>(cfg: Config, run: seq<Cluster<V>>, schedule: seq<Action<V>>, n: NodeId,
                                          q: set<NodeId>, k: nat)
    requires ValidConfig(cfg) && Run(cfg, run, schedule) && AsksAll(cfg, schedule, n, q) && PeersOf(cfg, n) != []
    requires run[0].nodes.Keys == cfg.members && Ticks(run[0], n) && !run[0].nodes[n].role.Leader? && !run[0].nodes[n].heard
    requires forall p :: p in q ==> p in PeersOf(cfg, n) && Ready(run[0], p, n, Stand(n, run[0].nodes[n]))
    requires k <= |PeersOf(cfg, n)|
    ensures var cs := Stand(n, run[0].nodes[n]);
            HasWon(cfg, run[k + 1], cs, n) || Counting(cfg, run[k + 1], cs, n, q, k)
  {
    assert Step(cfg, run, schedule, k);
    if k == 0 {
      CountingStarts(cfg, run[0], n, q);
    } else {
      CountingRun(cfg, run, schedule, n, q, k - 1);
      CountingStep(cfg, run[k], Stand(n, run[0].nodes[n]), n, q, k - 1);
    }
  }

  /** An election succeeds: a node that stands leads at the end of its loop, in the next term
      and with its log as it was, if enough peers for a quorum listen, answer and are
      willing; the others may all be down. */
  lemma ElectionSucceeds<V>(cfg: Config, run: seq<Cluster<V>>, schedule: seq<Action<V>>, n: NodeId, q: set<NodeId>)
    requires ValidConfig(cfg) && Run(cfg, run, schedule) && AsksAll(cfg, schedule, n, q) && PeersOf(cfg, n) != []
    requires run[0].nodes.Keys == cfg.members && Ticks(run[0], n) && !run[0].nodes[n].role.Leader? && !run[0].nodes[n].heard
    requires forall p :: p in q ==> p in PeersOf(cfg, n) && Ready(run[0], p, n, Stand(n, run[0].nodes[n]))
    requires |q| + 1 >= |cfg.members| / 2 + 1
    ensures var s, c := run[0].nodes[n], run[|schedule|];
            && Leads(c, n) && n !in c.polling && c.nodes[n].isLeader
            && c.nodes[n].term == s.term + 1 && c.nodes[n].log == s.log && FreshBooks(PeersOf(cfg, n), c.nodes[n])
  {
    var peers := PeersOf(cfg, n);
    CountingRun(cfg, run, schedule, n, q, |peers|);
    QuorumFits(cfg, n);
    assert peers[..|peers|] == peers && Elements(peers) * q == q;
  }

  lemma SomebodyToAsk<V>(cfg: Config, run: seq<Cluster<V>>, schedule: seq<Action<V>>, i: nat, n: NodeId, s: NodeState<V>,
                         rest: seq<NodeId>)
    requires StandsWell(cfg, run, schedule, i, n, s, rest)
    ensures PeersOf(cfg, n) != []
  {
    assert rest[0] in rest;
  }

  /** A node without peers never leads: its election loop has nobody to ask, and only an
      answer makes it count its own vote. */
  lemma LoneNodeNeverLeads<V>(cfg: Config, run: seq<Cluster<V>>, schedule: seq<Action<V>>, i: nat, n: NodeId)
    requires Run(cfg, run, schedule) && Initial(cfg, run[0]) && i < |run| && PeersOf(cfg, n) == []
    ensures !Leads(run[i], n)
  {
    NodesAreMembers(cfg, run, schedule, i);
    if Leads(run[i], n) {
      var w := LeaderWon(cfg, run, schedule, i, n);
      TallyIsGiven(cfg, run, schedule, w, n);
      SomebodyToAsk(cfg, run, schedule, w, n, run[w].nodes[n], run[w].polling[n]);
    }
  }

  // ---------------------------------------------------------------- how a candidacy begins and ends

  /** A node stands exactly when its ticker runs, it does not lead and it has heard nobody
      since its last tick. It is then a candidate of the next term with a vote for itself,
      and its leader flag is down. */
  lemma StandsIff<V>(cfg: Config, c: Cluster<V>, n: NodeId)
    requires n in c.nodes
    ensures var c', s := Apply(cfg, c, Candidacy(n)), c.nodes[n];
            && n in c'.nodes
            && (c'.nodes[n].term > s.term <==> Ticks(c, n) && !s.role.Leader? && !s.heard)
            && (if c'.nodes[n].term > s.term then
                  && c'.nodes[n].role.Candidate? && c'.nodes[n].term == s.term + 1 && !c'.nodes[n].isLeader
                  && c'.nodes[n].votes == [n] && c'.nodes[n].votedFor == Some(n)
                  && (n in c'.polling <==> PeersOf(cfg, n) != [])
                else c' == c)
  {
  }

  /** A node that does not lead and hears nobody after a tick stands. */
  lemma SilenceMakesCandidates<V>(cfg: Config, c: Cluster<V>, n: NodeId)
    requires Ticks(c, n) && !c.nodes[n].role.Leader?
    ensures var c' := Apply(cfg, Apply(cfg, c, Tick(n)), Candidacy(n));
            n in c'.nodes && c'.nodes[n].role.Candidate? && c'.nodes[n].term == c.nodes[n].term + 1
  {
  }

  /** A node that takes a request or gives its vote has heard somebody. */
  ghost predicate Heeds<V>(cfg: Config, n: NodeId, s: NodeState<V>, move: Move<V>) {
    match move
    case Takes(req) => Handle(cfg, n, s, req).Replied? && Handle(cfg, n, s, req).reply.success
    case Votes(ballot) => VoteAnswer(n, s, ballot).granted
    case _ => false
  }

  lemma HeedingIsHeard<V>(cfg: Config, n: NodeId, s: NodeState<V>, move: Move<V>)
    requires Heeds(cfg, n, s, move)
    ensures Moved(cfg, n, s, move).heard
  {
  }

  lemma HeardStays<V>(cfg: Config, n: NodeId, s: NodeState<V>, move: Move<V>)
    requires s.heard && !move.Quiets?
    ensures Moved(cfg, n, s, move).heard
  {
    if move.Commits? {
      DeliveryKeepsLog(s, QuorumOf(cfg, n), cfg.mode.Intended?);
    }
  }

  lemma HeardNext<V>(cfg: Config, c: Cluster<V>, a: Action<V>, n: NodeId)
    requires ValidConfig(cfg) && c.nodes.Keys == cfg.members && n in c.nodes && c.nodes[n].heard && a != Tick(n)
    ensures n in Apply(cfg, c, a).nodes && Apply(cfg, c, a).nodes[n].heard
  {
    var move := MoveOf(cfg, c, a, n);
    HeardStays(cfg, n, c.nodes[n], move);
  }

  lemma {:induction false} HeardUntilTick<V>(cfg: Config, run: seq<Cluster<V>>, schedule: seq<Action<V>>,
                                             i: nat, j: nat, n: NodeId)
    requires Run(cfg, run, schedule) && Initial(cfg, run[0]) && i <= j < |run| && n in run[i].nodes && run[i].nodes[n].heard
    requires forall x :: i <= x < j ==> schedule[x] != Tick(n)
    ensures n in run[j].nodes && run[j].nodes[n].heard
    decreases j
  {
    if i < j {
      HeardUntilTick(cfg, run, schedule, i, j - 1, n);
      NodesAreMembers(cfg, run, schedule, j - 1);
      assert Step(cfg, run, schedule, j - 1);
      HeardNext(cfg, run[j - 1], schedule[j - 1], n);
    }
  }

  /** A node that takes a request or gives its vote does not stand before its next tick has
      ended, in every run. */
  lemma HeedingHoldsOff<V>(cfg: Config, run: seq<Cluster<V>>, schedule: seq<Action<V>>, i: nat, j: nat, n: NodeId,
                           move: Move<V>)
    requires Run(cfg, run, schedule) && Initial(cfg, run[0]) && i < j < |run|
    requires MovesBy(cfg, run[i], schedule[i], run[i + 1], n, move) && Heeds(cfg, n, run[i].nodes[n], move)
    requires forall x :: i < x < j ==> schedule[x] != Tick(n)
    ensures Apply(cfg, run[j], Candidacy(n)) == run[j]
  {
    HeedingIsHeard(cfg, n, run[i].nodes[n], move);
    HeardUntilTick(cfg, run, schedule, i + 1, j, n);
    StandsIff(cfg, run[j], n);
  }

  /** A candidate whose timer runs out goes on to the next term without asking anybody, its
      vote there still given to itself: it refuses every other candidate of that term. */
  lemma TimeoutKeepsVote<V>(cfg: Config, c: Cluster<V>, n: NodeId, m: NodeId, ms: NodeState<V>)
    requires n in c.nodes && n in c.polling && c.polling[n] != [] && c.nodes[n].votedFor == Some(n)
    requires m != n && ms.term <= c.nodes[n].term + 1
    ensures var c', s := Apply(cfg, c, PollTimeout(n)), c.nodes[n];
            && n in c'.nodes && n !in c'.polling
            && c'.nodes[n] == s.(role := Candidate, term := s.term + 1, isLeader := false)
            && !VoteAnswer(n, c'.nodes[n], Ballot(m, ms)).granted
  {
  }

  /** A candidate that is refused by a node of its own or a later term gives up: it follows
      in that term with its vote free, and so votes for the next candidate there whose log
      is as recent. */
  lemma RefusalFreesVote<V>(cfg: Config, c: Cluster<V>, n: NodeId, m: NodeId, ms: NodeState<V>)
    requires n in c.nodes && n in c.polling && c.polling[n] != [] && c.polling[n][0] in c.nodes
    requires Listens(c, c.polling[n][0]) && c.polling[n][0] != n
    requires !Willing(c.nodes[c.polling[n][0]], n, c.nodes[n]) && c.nodes[c.polling[n][0]].term >= c.nodes[n].term
    ensures var c', s, t := Apply(cfg, c, Poll(n, Exchanged)), c.nodes[n], c.nodes[c.polling[n][0]].term;
            && n in c'.nodes && n !in c'.polling
            && c'.nodes[n] == s.(role := Follower, term := t, votedFor := None, isLeader := false)
            && (ms.term == t ==>
                  (VoteAnswer(n, c'.nodes[n], Ballot(m, ms)).granted <==> s.log == [] || AsRecent(ms.log, s.log)))
  {
    VoteGivenIff(c.polling[n][0], c.nodes[c.polling[n][0]], n, c.nodes[n]);
  }

  /** A refusal from an earlier term is like silence. */
  lemma EarlierRefusalIsSkipped<V>(cfg: Config, c: Cluster<V>, n: NodeId)
    requires n in c.nodes && n in c.polling && c.polling[n] != [] && Listens(c, c.polling[n][0]) && c.polling[n][0] != n
    requires !Willing(c.nodes[c.polling[n][0]], n, c.nodes[n]) && c.nodes[c.polling[n][0]].term < c.nodes[n].term
    requires |c.nodes[n].votes| < QuorumOf(cfg, n)
    ensures Apply(cfg, c, Poll(n, Exchanged)).nodes == c.nodes
    ensures Rest(Apply(cfg, c, Poll(n, Exchanged)).polling, n, c.polling[n][1..])
  {
    var v := c.polling[n][0];
    VoteGivenIff(v, c.nodes[v], n, c.nodes[n]);
    assert c.nodes[v := c.nodes[v]][n := c.nodes[n]] == c.nodes;
  }
}
