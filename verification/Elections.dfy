/** Who gets elected, in every run, whatever the append handlers do: a leader's tally is a
    quorum that its log dominates, and while no term falls there is one leader a term. */
module Elections {
  import opened Types
  import opened Quorum
  import opened Handlers
  import opened Cluster
  import opened Moves
  import opened Progress
  import opened LogOrder

  // ---------------------------------------------------------------- votes

  /** In the step `a` from `c`, node v gives its vote of term t to `cand`: it stands itself,
      or it grants the request of a candidate that hears of it. */
  ghost predicate GivesVote<V>(c: Cluster<V>, a: Action<V>, v: NodeId, t: Term, cand: NodeId) {
    && v in c.nodes && cand in c.nodes
    && if v == cand then
         a == Candidacy(v) && c.nodes[v].term + 1 == t
       else
         && a == Poll(cand, Exchanged) && cand in c.polling && c.polling[cand] != [] && c.polling[cand][0] == v
         && c.nodes[cand].term == t && Listens(c, v) && Grants(c.nodes[v], Ballot(cand, c.nodes[cand]))
  }

  /** Before moment i, node v gave its vote of term t to `cand`, and `log` is at least as
      recent as the log that it then had. */
  ghost predicate Dominated<V>(run: seq<Cluster<V>>, schedule: seq<Action<V>>, i: nat, v: NodeId, t: Term,
                               cand: NodeId, log: Log<V>) {
    exists m :: 0 <= m < i && m < |schedule| && m < |run| && GivesVote(run[m], schedule[m], v, t, cand)
                && AsRecent(log, run[m].nodes[v].log)
  }

  /** The tally of `n` in the state `s`: members, each counted once, whose votes were given. */
  ghost predicate TallyGiven<V>(cfg: Config, run: seq<Cluster<V>>, schedule: seq<Action<V>>, i: nat, n: NodeId,
                                s: NodeState<V>) {
    && n in s.votes && Distinct(s.votes)
    && forall v :: v in s.votes ==> v in cfg.members && Dominated(run, schedule, i, v, s.term, n, s.log)
  }

  /** A node inside its election loop. */
  ghost predicate StandsWell<V>(cfg: Config, run: seq<Cluster<V>>, schedule: seq<Action<V>>, i: nat, n: NodeId,
                                s: NodeState<V>,
                                rest: seq<NodeId>) {
    && s.role.Candidate? && s.votedFor == Some(n) && !s.isLeader && TallyGiven(cfg, run, schedule, i, n, s)
    && rest != [] && Distinct(rest) && forall p :: p in rest ==> p in PeersOf(cfg, n) && p !in s.votes
  }

  lemma TallyStays<V>(cfg: Config, run: seq<Cluster<V>>, schedule: seq<Action<V>>, i: nat, j: nat, n: NodeId,
                      s: NodeState<V>)
    requires TallyGiven(cfg, run, schedule, i, n, s) && i <= j
    ensures TallyGiven(cfg, run, schedule, j, n, s)
  {
    forall v | v in s.votes ensures Dominated(run, schedule, j, v, s.term, n, s.log) {
      assert Dominated(run, schedule, i, v, s.term, n, s.log);
    }
  }

  /** The tally after an answer: if it is a grant, the vote was given in this step. */
  lemma AnswerCounts<V>(cfg: Config, run: seq<Cluster<V>>, schedule: seq<Action<V>>, i: nat, c': Cluster<V>,
                        n: NodeId, reply: VoteReply)
    requires ValidConfig(cfg) && i < |run| && i < |schedule| && n in cfg.members && n in run[i].nodes && n in run[i].polling
    requires StandsWell(cfg, run, schedule, i, n, run[i].nodes[n], run[i].polling[n])
    requires reply.granted ==> HearsGrant(run[i], schedule[i], c', n, reply)
    ensures TallyGiven(cfg, run, schedule, i + 1, n, Count(run[i].nodes[n], reply))
  {
    var c, s := run[i], run[i].nodes[n];
    TallyStays(cfg, run, schedule, i, i + 1, n, s);
    if reply.granted {
      var v := c.polling[n][0];
      assert v in c.polling[n];
      PeerIsOther(cfg, n, v);
      GrantMeansAsRecent(n, s, c.nodes[v]);
      assert GivesVote(c, schedule[i], v, s.term, n);
    }
  }

  lemma StandKeepsTally<V>(cfg: Config, run: seq<Cluster<V>>, schedule: seq<Action<V>>, i: nat, n: NodeId)
    requires ValidConfig(cfg) && i < |run| && i < |schedule| && n in cfg.members && n in run[i].nodes
    requires schedule[i] == Candidacy(n) && PeersOf(cfg, n) != []
    ensures StandsWell(cfg, run, schedule, i + 1, n, Stand(n, run[i].nodes[n]), PeersOf(cfg, n))
  {
    var s := Stand(n, run[i].nodes[n]);
    assert GivesVote(run[i], schedule[i], n, s.term, n);
    AsRecentIsPreorder(s.log, s.log, s.log);
    assert Dominated(run, schedule, i + 1, n, s.term, n, s.log);
    assert PeersFine(cfg, n);
    forall p | p in PeersOf(cfg, n) ensures p != n {
      PeerIsOther(cfg, n, p);
    }
  }

  /** A turn that does not end the loop. */
  lemma TurnKeepsTally<V>(cfg: Config, run: seq<Cluster<V>>, schedule: seq<Action<V>>, i: nat, c': Cluster<V>,
                          n: NodeId, event: PollEvent)
    requires ValidConfig(cfg) && i < |run| && i < |schedule| && n in cfg.members && n in run[i].nodes && n in run[i].polling
    requires StandsWell(cfg, run, schedule, i, n, run[i].nodes[n], run[i].polling[n])
    requires event.Answered? && event.reply.granted ==> HearsGrant(run[i], schedule[i], c', n, event.reply)
    requires run[i].polling[n][1..] != [] && !OnPoll(run[i].nodes[n], QuorumOf(cfg, n), PeersOf(cfg, n), event).1
    ensures StandsWell(cfg, run, schedule, i + 1, n,
                       OnPoll(run[i].nodes[n], QuorumOf(cfg, n), PeersOf(cfg, n), event).0, run[i].polling[n][1..])
  {
    var s, rest := run[i].nodes[n], run[i].polling[n];
    assert rest[0] in rest;
    TallyStays(cfg, run, schedule, i, i + 1, n, s);
    if event.Answered? {
      AnswerCounts(cfg, run, schedule, i, c', n, event.reply);
    }
  }

  ghost predicate StandsIfPolling<V>(cfg: Config, run: seq<Cluster<V>>, schedule: seq<Action<V>>, i: nat, n: NodeId)
    requires i < |run|
  {
    && run[i].nodes.Keys == cfg.members
    && (n in run[i].polling && n in run[i].nodes ==>
          StandsWell(cfg, run, schedule, i, n, run[i].nodes[n], run[i].polling[n]))
  }

  lemma StandsNext<V>(cfg: Config, run: seq<Cluster<V>>, schedule: seq<Action<V>>, i: nat, n: NodeId, move: Move<V>)
    requires ValidConfig(cfg) && i + 1 < |run| && i < |schedule| && n in cfg.members
    requires StandsIfPolling(cfg, run, schedule, i, n)
    requires MovesBy(cfg, run[i], schedule[i], run[i + 1], n, move)
    ensures StandsIfPolling(cfg, run, schedule, i + 1, n)
  {
    if n in run[i + 1].polling {
      match move {
        case Idles => TallyStays(cfg, run, schedule, i, i + 1, n, run[i].nodes[n]);
        case Stands => StandKeepsTally(cfg, run, schedule, i, n);
        case Turns(event) => TurnKeepsTally(cfg, run, schedule, i, run[i + 1], n, event);
        case _ => assert false;
      }
    }
  }

  lemma NobodyMoves<V>(cfg: Config, c: Cluster<V>, a: Action<V>)
    requires c.nodes == map[]
    ensures Apply(cfg, c, a) == c
  {
  }

  lemma {:induction false} NodesAreMembers<V>(cfg: Config, run: seq<Cluster<V>>, schedule: seq<Action<V>>, i: nat)
    requires Run(cfg, run, schedule) && Initial(cfg, run[0]) && i < |run|
    ensures run[i].nodes.Keys == cfg.members
  {
    if i > 0 {
      NodesAreMembers(cfg, run, schedule, i - 1);
      assert Step(cfg, run, schedule, i - 1);
      if cfg.members == {} {
        NobodyMoves(cfg, run[i - 1], schedule[i - 1]);
      } else {
        var n :| n in cfg.members;
        var move := MoveOf(cfg, run[i - 1], schedule[i - 1], n);
      }
    }
  }

  /** In every state of every run, a node inside its election loop is a candidate whose
      leader flag is down and whose tally holds only votes that were given to it, in its term, for its log. */
  lemma {:induction false} TallyIsGiven<V>(cfg: Config, run: seq<Cluster<V>>, schedule: seq<Action<V>>, i: nat, n: NodeId)
    requires Run(cfg, run, schedule) && Initial(cfg, run[0]) && i < |run| && n in cfg.members
    ensures StandsIfPolling(cfg, run, schedule, i, n)
  {
    if i > 0 {
      TallyIsGiven(cfg, run, schedule, i - 1, n);
      assert Step(cfg, run, schedule, i - 1);
      var move := MoveOf(cfg, run[i - 1], schedule[i - 1], n);
      StandsNext(cfg, run, schedule, i - 1, n, move);
    }
  }

  // ---------------------------------------------------------------- leaders

  /** Node `n` is inside its election loop at moment w, and leads after the next step. */
  ghost predicate WinsAt<V>(cfg: Config, run: seq<Cluster<V>>, schedule: seq<Action<V>>, w: nat, n: NodeId) {
    && w + 1 < |run| && n in run[w].nodes && n in run[w].polling && n in run[w + 1].nodes && n !in run[w + 1].polling
    && var s, s' := run[w].nodes[n], run[w + 1].nodes[n];
    && s'.role.Leader? && s'.term == s.term && s'.log == s.log && s'.votedFor == Some(n)
    && |s'.votes| >= |cfg.members| / 2 + 1 && TallyGiven(cfg, run, schedule, w + 1, n, s')
  }

  /** What a leader keeps: its term, its tally and what it had of its log; it adds entries
      of its own term. */
  ghost predicate LeadsOn<V>(s: NodeState<V>, s': NodeState<V>) {
    && s.role.Leader? && s'.role.Leader? && s'.term == s.term && s'.votes == s.votes && s.log <= s'.log
    && forall x :: |s.log| <= x < |s'.log| ==> s'.log[x].term == s.term
  }

  lemma TakerDoesNotWin<V>(cfg: Config, n: NodeId, s: NodeState<V>, req: AppendRequest<V>)
    requires Handle(cfg, n, s, req).state.role.Leader?
    ensures Handle(cfg, n, s, req).state == s
  {
  }

  lemma DeliveryKeepsLog<V>(s: NodeState<V>, quorum: int, currentTermOnly: bool)
    ensures var s' := CommitEntries(s, quorum, currentTermOnly).0;
            s' == s.(outbox := s'.outbox, commit := s'.commit)
  {
  }

  /** Outside the election loop nobody becomes leader. */
  lemma OnlyTurnsWin<V>(cfg: Config, n: NodeId, s: NodeState<V>, move: Move<V>)
    requires !move.Turns? && Moved(cfg, n, s, move).role.Leader?
    ensures LeadsOn(s, Moved(cfg, n, s, move))
  {
    match move {
      case Takes(req) => TakerDoesNotWin(cfg, n, s, req);
      case Commits => DeliveryKeepsLog(s, QuorumOf(cfg, n), cfg.mode.Intended?);
      case _ =>
    }
  }

  lemma WinningTurn<V>(cfg: Config, run: seq<Cluster<V>>, schedule: seq<Action<V>>, w: nat, n: NodeId, event: PollEvent)
    requires ValidConfig(cfg) && w + 1 < |run| && w < |schedule| && n in cfg.members && n in run[w].nodes && n in run[w].polling
    requires StandsWell(cfg, run, schedule, w, n, run[w].nodes[n], run[w].polling[n])
    requires MovesBy(cfg, run[w], schedule[w], run[w + 1], n, Turns(event))
    requires run[w + 1].nodes[n].role.Leader?
    ensures WinsAt(cfg, run, schedule, w, n)
  {
    QuorumFits(cfg, n);
    AnswerCounts(cfg, run, schedule, w, run[w + 1], n, event.reply);
  }

  /** Node `n` leads at moment x as it has since it won at moment w. */
  ghost predicate LedSince<V>(run: seq<Cluster<V>>, w: nat, x: nat, n: NodeId) {
    && w < x < |run| && n in run[w + 1].nodes && n in run[x].nodes
    && LeadsOn(run[w + 1].nodes[n], run[x].nodes[n])
  }

  /** The last step of a node that leads is its victory, or it led before. */
  lemma LeadsBefore<V>(cfg: Config, run: seq<Cluster<V>>, schedule: seq<Action<V>>, i: nat, n: NodeId)
    requires Run(cfg, run, schedule) && Initial(cfg, run[0]) && i + 1 < |run| && n in cfg.members && Leads(run[i + 1], n)
    ensures WinsAt(cfg, run, schedule, i, n) || (n in run[i].nodes && LeadsOn(run[i].nodes[n], run[i + 1].nodes[n]))
  {
    TallyIsGiven(cfg, run, schedule, i, n);
    assert Step(cfg, run, schedule, i);
    var move := MoveOf(cfg, run[i], schedule[i], n);
    if move.Turns? {
      WinningTurn(cfg, run, schedule, i, n, move.event);
    } else {
      OnlyTurnsWin(cfg, n, run[i].nodes[n], move);
    }
  }

  /** Node `n` has won at moment w, and has led since, up to moment i. */
  ghost predicate HasLed<V>(cfg: Config, run: seq<Cluster<V>>, schedule: seq<Action<V>>, w: nat, i: nat, n: NodeId) {
    && w < i && WinsAt(cfg, run, schedule, w, n)
    && forall x {:trigger LedSince(run, w, x, n)} :: w < x <= i ==> LedSince(run, w, x, n)
  }

  lemma LeadsStill<V>(cfg: Config, run: seq<Cluster<V>>, schedule: seq<Action<V>>, w: nat, i: nat, n: NodeId)
    requires HasLed(cfg, run, schedule, w, i, n) && i + 1 < |run| && n in run[i].nodes && n in run[i + 1].nodes
    requires LeadsOn(run[i].nodes[n], run[i + 1].nodes[n])
    ensures HasLed(cfg, run, schedule, w, i + 1, n)
  {
    assert LedSince(run, w, i, n);
  }

  lemma HasLedNext<V>(cfg: Config, run: seq<Cluster<V>>, schedule: seq<Action<V>>, w: nat, i: nat,
                      n: NodeId) returns (w': nat)
    requires Run(cfg, run, schedule) && Initial(cfg, run[0]) && n in cfg.members && i + 1 < |run| && Leads(run[i + 1], n)
    requires Leads(run[i], n) ==> HasLed(cfg, run, schedule, w, i, n)
    ensures HasLed(cfg, run, schedule, w', i + 1, n)
  {
    LeadsBefore(cfg, run, schedule, i, n);
    if WinsAt(cfg, run, schedule, i, n) {
      w' := i;
    } else {
      LeadsStill(cfg, run, schedule, w, i, n);
      w' := w;
    }
  }

  /** Every leader won, in some step since which it has led in the same term with the same tally. */
  lemma {:induction false} LeaderWon<V>(cfg: Config, run: seq<Cluster<V>>, schedule: seq<Action<V>>, i: nat, n: NodeId)
    returns (w: nat)
    requires Run(cfg, run, schedule) && Initial(cfg, run[0]) && n in cfg.members && i < |run| && Leads(run[i], n)
    ensures HasLed(cfg, run, schedule, w, i, n)
  {
    w := 0;
    if i == 0 {
      assert false;
    } else {
      if Leads(run[i - 1], n) {
        w := LeaderWon(cfg, run, schedule, i - 1, n);
      }
      w := HasLedNext(cfg, run, schedule, w, i - 1, n);
    }
  }

  /** Elected logs dominate a quorum, in every run: the tally of a leader is a quorum of
      members, each counted once, and the log that it had when it was elected at moment
      `won`, since when it has only added entries of its own term, was at least as recent
      as the log of each of them when it gave this leader its vote of this term. */
  lemma LeaderDominatesQuorum<V>(cfg: Config, run: seq<Cluster<V>>, schedule: seq<Action<V>>, i: nat, n: NodeId)
    returns (won: nat)
    requires Run(cfg, run, schedule) && Initial(cfg, run[0]) && i < |run| && Leads(run[i], n)
    ensures won < i && n in run[won].nodes && n in run[won].polling
    ensures forall x :: won < x <= i ==> Leads(run[x], n)
    ensures var s, base := run[i].nodes[n], run[won].nodes[n].log;
            && s.term == run[won].nodes[n].term && base <= s.log
            && (forall x :: |base| <= x < |s.log| ==> s.log[x].term == s.term)
            && Distinct(s.votes) && |s.votes| >= |cfg.members| / 2 + 1
            && forall v :: v in s.votes ==>
                             v in cfg.members && Dominated(run, schedule, won + 1, v, s.term, n, base)
  {
    NodesAreMembers(cfg, run, schedule, i);
    won := LeaderWon(cfg, run, schedule, i, n);
    assert LedSince(run, won, i, n);
    forall x | won < x <= i ensures Leads(run[x], n) {
      assert LedSince(run, won, x, n);
    }
  }

  // ---------------------------------------------------------------- one leader a term

  /** No node's term falls in the step from c to c'. */
  ghost predicate TermsRise<V>(c: Cluster<V>, c': Cluster<V>) {
    forall n :: n in c.nodes && n in c'.nodes ==> c.nodes[n].term <= c'.nodes[n].term
  }

  ghost predicate NoTermFalls<V>(run: seq<Cluster<V>>) {
    forall i {:trigger TermsRise(run[i], run[i + 1])} :: 0 <= i < |run| - 1 ==> TermsRise(run[i], run[i + 1])
  }

  /** Node v is in term t, outside its election loop, and its vote is for `cand`. */
  ghost predicate Pledged<V>(c: Cluster<V>, v: NodeId, t: Term, cand: NodeId) {
    Free(c, v) && c.nodes[v].term == t && c.nodes[v].votedFor == Some(cand)
  }

  ghost predicate PledgedOrLater<V>(c: Cluster<V>, v: NodeId, t: Term, cand: NodeId) {
    v in c.nodes && (c.nodes[v].term > t || Pledged(c, v, t, cand))
  }

  lemma TakerKeepsVote<V>(cfg: Config, n: NodeId, s: NodeState<V>, req: AppendRequest<V>)
    ensures var s' := Handle(cfg, n, s, req).state;
            s'.term == s.term ==> s'.votedFor == s.votedFor
  {
  }

  /** Outside the election loop, a vote given is released by a later term only. */
  lemma VoteStays<V>(cfg: Config, n: NodeId, s: NodeState<V>, move: Move<V>)
    requires !move.Turns? && s.votedFor.Some?
    ensures var s' := Moved(cfg, n, s, move);
            s'.term == s.term ==> s'.votedFor == s.votedFor && !move.Stands?
  {
    match move {
      case Takes(req) => TakerKeepsVote(cfg, n, s, req);
      case Commits => DeliveryKeepsLog(s, QuorumOf(cfg, n), cfg.mode.Intended?);
      case _ =>
    }
  }

  lemma PledgeMoves<V>(cfg: Config, c: Cluster<V>, a: Action<V>, c': Cluster<V>, v: NodeId, t: Term, cand: NodeId,
                       move: Move<V>)
    requires v in c.nodes && v in c'.nodes && LoopMoves(cfg, c, a, c', v, move) && !move.Turns?
    requires c'.nodes[v].term == t ==> c'.nodes[v].votedFor == c.nodes[v].votedFor && !move.Stands?
    requires Pledged(c, v, t, cand) && c'.nodes[v].term >= t
    ensures PledgedOrLater(c', v, t, cand)
  {
  }

  lemma PledgeStays<V>(cfg: Config, c: Cluster<V>, a: Action<V>, c': Cluster<V>, v: NodeId, t: Term, cand: NodeId)
    requires ValidConfig(cfg) && c.nodes.Keys == cfg.members && c' == Apply(cfg, c, a) && TermsRise(c, c')
    requires PledgedOrLater(c, v, t, cand)
    ensures PledgedOrLater(c', v, t, cand)
  {
    var move := MoveOf(cfg, c, a, v);
    if Pledged(c, v, t, cand) {
      VoteStays(cfg, v, c.nodes[v], move);
      PledgeMoves(cfg, c, a, c', v, t, cand, move);
    }
  }

  lemma NextIs<V>(cfg: Config, run: seq<Cluster<V>>, schedule: seq<Action<V>>, i: nat)
    requires Run(cfg, run, schedule) && Initial(cfg, run[0]) && NoTermFalls(run) && i < |schedule|
    ensures run[i + 1] == Apply(cfg, run[i], schedule[i]) && TermsRise(run[i], run[i + 1])
    ensures run[i].nodes.Keys == cfg.members
  {
    NodesAreMembers(cfg, run, schedule, i);
    assert Step(cfg, run, schedule, i) && TermsRise(run[i], run[i + 1]);
  }

  lemma {:induction false} PledgeKept<V>(cfg: Config, run: seq<Cluster<V>>, schedule: seq<Action<V>>, p: nat, q: nat,
                                         v: NodeId, t: Term, cand: NodeId)
    requires Run(cfg, run, schedule) && Initial(cfg, run[0]) && NoTermFalls(run) && p <= q < |run|
    requires PledgedOrLater(run[p], v, t, cand)
    ensures PledgedOrLater(run[q], v, t, cand)
    decreases q - p
  {
    if p < q {
      NextIs(cfg, run, schedule, p);
      PledgeStays(cfg, run[p], schedule[p], run[p + 1], v, t, cand);
      PledgeKept(cfg, run, schedule, p + 1, q, v, t, cand);
    }
  }

  lemma GivenIsPledged<V>(cfg: Config, run: seq<Cluster<V>>, schedule: seq<Action<V>>, i: nat, v: NodeId, t: Term,
                          cand: NodeId, log: Log<V>)
    returns (p: nat)
    requires Run(cfg, run, schedule) && v != cand && Dominated(run, schedule, i, v, t, cand, log)
    ensures p <= i && p < |run| && Pledged(run[p], v, t, cand)
  {
    var m :| 0 <= m < i && m < |schedule| && m < |run| && GivesVote(run[m], schedule[m], v, t, cand);
    assert Step(cfg, run, schedule, m);
    p := m + 1;
  }

  /** Every vote in a leader's tally was once pledged to it. */
  lemma TallyWasPledged<V>(cfg: Config, run: seq<Cluster<V>>, schedule: seq<Action<V>>, i: nat, n: NodeId, v: NodeId)
    returns (p: nat)
    requires Run(cfg, run, schedule) && Initial(cfg, run[0]) && n in cfg.members && i < |run| && Leads(run[i], n)
    requires v in run[i].nodes[n].votes
    ensures p <= i && Pledged(run[p], v, run[i].nodes[n].term, n)
  {
    var w := LeaderWon(cfg, run, schedule, i, n);
    assert LedSince(run, w, i, n);
    if v == n {
      p := w + 1;
    } else {
      p := GivenIsPledged(cfg, run, schedule, w + 1, v, run[i].nodes[n].term, n, run[w + 1].nodes[n].log);
    }
  }

  /** Election Safety: in every run in which no step lowers a node's term, at most one node
      ever leads in a term, whatever the append handlers and the commit rule do. */
  lemma OneLeaderPerTerm<V>(cfg: Config, run: seq<Cluster<V>>, schedule: seq<Action<V>>, i: nat, j: nat, a: NodeId,
                            b: NodeId)
    requires Run(cfg, run, schedule) && Initial(cfg, run[0]) && NoTermFalls(run) && i < |run| && j < |run|
    requires Leads(run[i], a) && Leads(run[j], b) && run[i].nodes[a].term == run[j].nodes[b].term
    ensures a == b
  {
    var t := run[i].nodes[a].term;
    NodesAreMembers(cfg, run, schedule, i);
    NodesAreMembers(cfg, run, schedule, j);
    var wa := LeaderDominatesQuorum(cfg, run, schedule, i, a);
    var wb := LeaderDominatesQuorum(cfg, run, schedule, j, b);
    var va, vb := run[i].nodes[a].votes, run[j].nodes[b].votes;
    DistinctSize(va);
    DistinctSize(vb);
    var v := QuorumsIntersect(cfg.members, Elements(va), Elements(vb), |cfg.members| / 2 + 1);
    var p := TallyWasPledged(cfg, run, schedule, i, a, v);
    var q := TallyWasPledged(cfg, run, schedule, j, b, v);
    if p <= q {
      PledgeKept(cfg, run, schedule, p, q, v, t, a);
    } else {
      PledgeKept(cfg, run, schedule, q, p, v, t, b);
    }
  }
}
