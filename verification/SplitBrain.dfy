/** A run of three nodes in which the source, as it is written, breaks its promises: a
    stale heartbeat makes node 2 forget term 2, in which it has voted for node 3; it
    then wins the same term itself, and both leaders commit. */
module SplitBrain {
  import opened Types
  import opened Quorum
  import opened Handlers
  import opened Cluster
  import opened Progress

  const PEERS: map<NodeId, seq<NodeId>> := map[1 := [2, 3], 2 := [1, 3], 3 := [2, 1]]
  const CONFIG := Config({1, 2, 3}, PEERS, Literal)

  lemma ThreeNodes()
    ensures ValidConfig(CONFIG) && forall n :: n in CONFIG.members ==> QuorumOf(CONFIG, n) == 2
  {
    assert Elements([2, 3]) == CONFIG.members - {1} && Elements([1, 3]) == CONFIG.members - {2};
    assert Elements([2, 1]) == CONFIG.members - {3};
    assert PeersFine(CONFIG, 1) && PeersFine(CONFIG, 2) && PeersFine(CONFIG, 3);
    QuorumIsMajority(2);
  }

  /** Nobody is inside an election loop, and no task has been aborted. */
  ghost predicate Quiet<V>(c: Cluster<V>) {
    c.nodes.Keys == {1, 2, 3} && c.polling == map[] && c.aborted == {}
  }

  ghost predicate Follows<V>(s: NodeState<V>, term: Term, votedFor: NodeId, log: Log<V>) {
    && s.role.Follower? && s.term == term && s.votedFor == Some(votedFor) && s.log == log
    && s.commit == 0 && s.outbox == []
  }

  /** A leader that has committed nothing, whose books expect `next` of each peer. */
  ghost predicate LeadsWith<V>(n: NodeId, s: NodeState<V>, term: Term, log: Log<V>, next: nat) {
    && s.role.Leader? && s.term == term && s.log == log && s.commit == 0 && s.outbox == []
    && s.nextIndex.Keys == s.matchIndex.Keys == {1, 2, 3} - {n}
    && forall p :: p in s.nextIndex ==> s.nextIndex[p] == next
  }

  lemma Stands<V>(cfg: Config, c: Cluster<V>, n: NodeId)
    requires Ticks(c, n) && !c.nodes[n].role.Leader? && !c.nodes[n].heard && PeersOf(cfg, n) != []
    ensures var c' := Apply(cfg, c, Candidacy(n));
            && c'.nodes == c.nodes[n := Stand(n, c.nodes[n])] && c'.polling == c.polling[n := PeersOf(cfg, n)]
            && c'.aborted == c.aborted
  {
  }

  /** The state of `n`, which stood in the state `s`, after one granted vote. */
  function Winner<V>(n: NodeId, s: NodeState<V>, v: NodeId, peers: seq<NodeId>): NodeState<V> {
    Win(s.(votes := s.votes + [v]), peers)
  }

  lemma WinsVote<V>(n: NodeId, s: NodeState<V>, v: NodeId, vs: NodeState<V>, peers: seq<NodeId>)
    requires |s.votes| == 1 && Grants(vs, Ballot(n, s))
    ensures OnPoll(s, 2, peers, Answered(VoteAnswer(v, vs, Ballot(n, s)))) == (Winner(n, s, v, peers), true)
  {
  }

  /** The first peer's vote decides. */
  lemma Asks<V>(cfg: Config, c: Cluster<V>, n: NodeId, v: NodeId)
    requires n in c.nodes && n in c.polling && c.polling[n] != [] && c.polling[n][0] == v && v != n && Listens(c, v)
    requires QuorumOf(cfg, n) == 2 && |c.nodes[n].votes| == 1 && Grants(c.nodes[v], Ballot(n, c.nodes[n]))
    ensures var c', s := Apply(cfg, c, Poll(n, Exchanged)), c.nodes[n];
            && c'.nodes == c.nodes[v := Granted(c.nodes[v], Ballot(n, s))][n := Winner(n, s, v, PeersOf(cfg, n))]
            && c'.polling == c.polling - {n} && c'.aborted == c.aborted
  {
    WinsVote(n, c.nodes[n], v, c.nodes[v], PeersOf(cfg, n));
  }

  lemma Elected<V>(c: Cluster<V>, n: NodeId, v: NodeId)
    requires Quiet(c) && n in PEERS && PEERS[n][0] == v
    requires !c.nodes[n].role.Leader? && !c.nodes[n].heard
    requires Grants(c.nodes[v], Ballot(n, Stand(n, c.nodes[n])))
    ensures var s, c1 := Stand(n, c.nodes[n]), Apply(CONFIG, c, Candidacy(n));
            var c2 := Apply(CONFIG, c1, Poll(n, Exchanged));
            && c2.polling == map[] && c2.aborted == {}
            && c2.nodes == c.nodes[v := Granted(c.nodes[v], Ballot(n, s))][n := Winner(n, s, v, PEERS[n])]
  {
    ThreeNodes();
    Stands(CONFIG, c, n);
    var c1 := Apply(CONFIG, c, Candidacy(n));
    Asks(CONFIG, c1, n, v);
    assert c1.polling - {n} == map[];
    assert c1.nodes[v] == c.nodes[v];
    assert c.nodes[n := Stand(n, c.nodes[n])][v := Granted(c.nodes[v], Ballot(n, Stand(n, c.nodes[n])))]
                   [n := Winner(n, Stand(n, c.nodes[n]), v, PEERS[n])]
        == c.nodes[v := Granted(c.nodes[v], Ballot(n, Stand(n, c.nodes[n])))][n := Winner(n, Stand(n, c.nodes[n]), v, PEERS[n])];
  }

  /** A heartbeat that is answered. */
  lemma Beat<V>(c: Cluster<V>, l: NodeId, f: NodeId, req: AppendRequest<V>, s': NodeState<V>, reply: AppendReply)
    requires Ticks(c, l) && Listens(c, f) && c.nodes[l].role.Leader? && l in PEERS && f in PEERS[l]
    requires BuildRequest(l, c.nodes[l], f) == Some(req) && AppendLiteral(f, c.nodes[f], req) == Replied(s', reply)
    ensures var c' := Apply(CONFIG, c, Heartbeat(l, f, Exchanged));
            && c'.nodes == c.nodes[f := s'][l := OnAppendReply(c.nodes[l], f, reply.success)]
            && c'.polling == c.polling && c'.aborted == c.aborted
  {
  }

  // ---------------------------------------------------------------- its steps

  lemma FreshIs<V>(c: Cluster<V>, n: NodeId)
    requires Initial(CONFIG, c) && n in {1, 2, 3}
    ensures n in c.nodes && c.nodes[n] == StartState(PEERS[n], None)
  {
    assert FreshNode(CONFIG, n, c.nodes[n]);
  }

  lemma FirstWinner<V>(s: NodeState<V>)
    requires s == StartState([2, 3], None)
    ensures LeadsWith(1, Winner(1, Stand(1, s), 2, PEERS[1]), 1, [], 1)
  {
    assert forall p :: p in PEERS[1] <==> p in {1, 2, 3} - {1};
  }

  lemma FirstElection<V>(c: Cluster<V>)
    requires Initial(CONFIG, c)
    ensures var c2 := Apply(CONFIG, Apply(CONFIG, c, Candidacy(1)), Poll(1, Exchanged));
            && Quiet(c2) && LeadsWith(1, c2.nodes[1], 1, [], 1) && Follows(c2.nodes[2], 1, 1, [])
            && c2.nodes[3] == StartState([2, 1], None)
  {
    FreshIs(c, 1);
    FreshIs(c, 2);
    FreshIs(c, 3);
    Elected(c, 1, 2);
    FirstWinner(c.nodes[1]);
  }

  lemma FirstAppend<V>(c: Cluster<V>, x: V)
    requires Quiet(c) && LeadsWith(1, c.nodes[1], 1, [], 1)
    ensures var c' := Apply(CONFIG, c, ClientAppend(1, x));
            && Quiet(c') && LeadsWith(1, c'.nodes[1], 1, [Entry(x, 1)], 1)
            && c'.nodes[2] == c.nodes[2] && c'.nodes[3] == c.nodes[3]
  {
    assert [] + [Entry(x, 1)] == [Entry(x, 1)];
  }

  /** An empty log takes the first request whole. */
  lemma FirstTaken<V>(f: NodeId, s: NodeState<V>, e: Entry<V>)
    requires !s.role.Leader? && s.term <= 1 && s.log == [] && s.commit == 0 && s.outbox == []
    requires s.term == 1 ==> s.votedFor == Some(1)
    ensures var out := AppendLiteral(f, s, AppendRequest(1, 1, 0, 0, [e], 0));
            out.Replied? && out.reply.success && Follows(out.state, 1, 1, [e])
  {
    assert [] + [e] == [e];
  }

  lemma FirstBeats<V>(c: Cluster<V>, e: Entry<V>)
    requires e.term == 1 && Quiet(c) && LeadsWith(1, c.nodes[1], 1, [e], 1)
    requires Follows(c.nodes[2], 1, 1, []) && c.nodes[3] == StartState([2, 1], None)
    ensures var c2 := Apply(CONFIG, Apply(CONFIG, c, Heartbeat(1, 2, Exchanged)), Heartbeat(1, 3, Exchanged));
            && Quiet(c2) && LeadsWith(1, c2.nodes[1], 1, [e], 2)
            && Follows(c2.nodes[2], 1, 1, [e]) && Follows(c2.nodes[3], 1, 1, [e])
  {
    var req := AppendRequest(1, 1, 0, 0, [e], 0);
    FirstTaken(2, c.nodes[2], e);
    FirstTaken(3, c.nodes[3], e);
    var out := AppendLiteral(2, c.nodes[2], req);
    Beat(c, 1, 2, req, out.state, out.reply);
    var c1 := Apply(CONFIG, c, Heartbeat(1, 2, Exchanged));
    var out1 := AppendLiteral(3, c.nodes[3], req);
    Beat(c1, 1, 3, req, out1.state, out1.reply);
  }

  lemma TickIs<V>(c: Cluster<V>, n: NodeId)
    requires Ticks(c, n)
    ensures Apply(CONFIG, c, Tick(n)) == c.(nodes := c.nodes[n := c.nodes[n].(heard := false)])
  {
  }

  lemma WinnerLeads<V>(n: NodeId, s: NodeState<V>, v: NodeId, e: Entry<V>)
    requires n in PEERS && s.log == [e] && s.commit == 0 && s.outbox == [] && s.term == 1
    ensures LeadsWith(n, Winner(n, Stand(n, s), v, PEERS[n]), 2, [e], 2)
  {
    assert forall p :: p in PEERS[n] <==> p in {1, 2, 3} - {n};
  }

  /** The state of a cluster after `n`, which starts from the state `s`, has won the vote of `v`. */
  ghost predicate WonBy<V>(c: Cluster<V>, c': Cluster<V>, n: NodeId, v: NodeId, s: NodeState<V>)
    requires Quiet(c) && n in PEERS && v in c.nodes
  {
    && Quiet(c')
    && c'.nodes[n] == Winner(n, Stand(n, s), v, PEERS[n])
    && c'.nodes[v] == Granted(c.nodes[v], Ballot(n, Stand(n, s)))
    && forall m :: m in c.nodes && m != n && m != v ==> m in c'.nodes && c'.nodes[m] == c.nodes[m]
  }

  lemma WonAfterTick<V>(c: Cluster<V>, n: NodeId, v: NodeId)
    requires Quiet(c) && n in PEERS && PEERS[n][0] == v && v in c.nodes && v != n && !c.nodes[n].role.Leader?
    requires Grants(c.nodes[v], Ballot(n, Stand(n, c.nodes[n])))
    ensures var c1 := Apply(CONFIG, Apply(CONFIG, c, Tick(n)), Candidacy(n));
            WonBy(c, Apply(CONFIG, c1, Poll(n, Exchanged)), n, v, c.nodes[n].(heard := false))
  {
    TickIs(c, n);
    Elected(Apply(CONFIG, c, Tick(n)), n, v);
  }

  /** An election after a tick, in which the voter's log is the candidate's. */
  lemma ElectedAfterTick<V>(c: Cluster<V>, n: NodeId, v: NodeId, e: Entry<V>)
    requires Quiet(c) && n in PEERS && PEERS[n][0] == v && v in c.nodes && v != n
    requires c.nodes[n].role.Follower? && c.nodes[n].commit == 0 && c.nodes[n].outbox == [] && c.nodes[n].term == 1
    requires c.nodes[n].log == c.nodes[v].log == [e] && c.nodes[v].term == 1
    ensures var c1 := Apply(CONFIG, Apply(CONFIG, c, Tick(n)), Candidacy(n));
            var c2 := Apply(CONFIG, c1, Poll(n, Exchanged));
            && Quiet(c2) && LeadsWith(n, c2.nodes[n], 2, [e], 2)
            && c2.nodes[v] == c.nodes[v].(role := Follower, term := 2, votedFor := Some(n), heard := true)
            && forall m :: m in c.nodes && m != n && m != v ==> c2.nodes[m] == c.nodes[m]
  {
    WonAfterTick(c, n, v);
    WinnerLeads(n, c.nodes[n].(heard := false), v, e);
  }

  /** A heartbeat of term 1 takes node 2 back to term 1. */
  lemma StaleBeat<V>(c: Cluster<V>, e: Entry<V>)
    requires e.term == 1 && Quiet(c) && LeadsWith(1, c.nodes[1], 1, [e], 2) && Follows(c.nodes[2], 2, 3, [e])
    ensures var c' := Apply(CONFIG, c, Heartbeat(1, 2, Exchanged));
            && Quiet(c') && LeadsWith(1, c'.nodes[1], 1, [e], 2) && Follows(c'.nodes[2], 1, 3, [e])
            && c'.nodes[3] == c.nodes[3]
  {
    var req := AppendRequest(1, 1, 1, 1, [], 0);
    assert [e][1..] == [] && [e] + [] == [e];
    var out := AppendLiteral(2, c.nodes[2], req);
    Beat(c, 1, 2, req, out.state, out.reply);
  }

  /** A node that has not led before takes what the leader of term 2 sends after `e`. */
  lemma LaterBeat<V>(c: Cluster<V>, l: NodeId, e: Entry<V>, f: Entry<V>, log: Log<V>)
    requires e.term == 1 && Quiet(c) && l in {2, 3} && LeadsWith(l, c.nodes[l], 2, [e, f], 2)
    requires Follows(c.nodes[1], 2, 2, log) && 1 <= |log| <= 2 && log[0] == e
    ensures var c' := Apply(CONFIG, c, Heartbeat(l, 1, Exchanged));
            && Quiet(c') && Follows(c'.nodes[1], 2, 2, log + [f])
            && c'.nodes[l] == OnAppendReply(c.nodes[l], 1, true)
            && c'.nodes[5 - l] == c.nodes[5 - l]
  {
    var req := AppendRequest(2, l, 1, 1, [f], 0);
    assert [e, f][1..] == [f];
    var out := AppendLiteral(1, c.nodes[1], req);
    assert 1 in PEERS[l];
    Beat(c, l, 1, req, out.state, out.reply);
  }

  lemma BothAppend<V>(c: Cluster<V>, e: Entry<V>, y: V, z: V)
    requires Quiet(c) && LeadsWith(2, c.nodes[2], 2, [e], 2) && LeadsWith(3, c.nodes[3], 2, [e], 2)
    ensures var c2 := Apply(CONFIG, Apply(CONFIG, c, ClientAppend(3, y)), ClientAppend(2, z));
            && Quiet(c2) && c2.nodes[1] == c.nodes[1]
            && LeadsWith(2, c2.nodes[2], 2, [e, Entry(z, 2)], 2) && LeadsWith(3, c2.nodes[3], 2, [e, Entry(y, 2)], 2)
  {
    assert [e] + [Entry(y, 2)] == [e, Entry(y, 2)] && [e] + [Entry(z, 2)] == [e, Entry(z, 2)];
  }

  lemma CommitsAlone<V>(n: NodeId, s: NodeState<V>)
    requires s.role.Leader? && n in {2, 3} && s.log != [] && s.commit == 0 && s.outbox == []
    requires s.matchIndex.Keys == {1, 2, 3} - {n} && s.matchIndex[1] == |s.log|
    ensures CommitEntries(CloseRound(n, s), 2, false) == (Deliver(CloseRound(n, s), |s.log|), true)
    ensures Deliver(CloseRound(n, s), |s.log|).outbox == s.log
    ensures LastTerm(s.log) != s.term ==> CommitEntries(CloseRound(n, s), 2, true) == (CloseRound(n, s), true)
  {
    var m, k := CloseRound(n, s).matchIndex, |s.log|;
    assert |{1, n}| == 2 && {1, n} <= Holders(m, k) && m.Keys == {1, 2, 3};
    SubsetSize({1, n}, Holders(m, k));
    FrequentIsUnique(m, 2, k, k);
    assert [] + s.log[0..k] == s.log;
  }

  lemma EndsRound<V>(c: Cluster<V>, n: NodeId)
    requires Ticks(c, n) && c.nodes[n].role.Leader?
    ensures Apply(CONFIG, c, EndRound(n)) == c.(nodes := c.nodes[n := CloseRound(n, c.nodes[n])])
  {
  }

  lemma RunsRule<V>(c: Cluster<V>, n: NodeId, s': NodeState<V>)
    requires Ticks(c, n) && c.nodes[n].role.Leader?
    requires CommitEntries(c.nodes[n], QuorumOf(CONFIG, n), false) == (s', true)
    ensures Apply(CONFIG, c, CommitRule(n)) == c.(nodes := c.nodes[n := s'])
  {
  }

  /** The leader finds its entry on a quorum and delivers it. */
  lemma Commits<V>(c: Cluster<V>, n: NodeId)
    requires Quiet(c) && n in {2, 3} && c.nodes[n].role.Leader? && c.nodes[n].log != []
    requires c.nodes[n].commit == 0 && c.nodes[n].outbox == []
    requires c.nodes[n].matchIndex.Keys == {1, 2, 3} - {n} && c.nodes[n].matchIndex[1] == |c.nodes[n].log|
    ensures var c2 := Apply(CONFIG, Apply(CONFIG, c, EndRound(n)), CommitRule(n));
            && Quiet(c2) && c2.nodes[1] == c.nodes[1] && c2.nodes[5 - n] == c.nodes[5 - n]
            && c2.nodes[n].role.Leader? && c2.nodes[n].term == c.nodes[n].term && c2.nodes[n].outbox == c.nodes[n].log
  {
    ThreeNodes();
    EndsRound(c, n);
    CommitsAlone(n, c.nodes[n]);
    RunsRule(Apply(CONFIG, c, EndRound(n)), n, Deliver(CloseRound(n, c.nodes[n]), |c.nodes[n].log|));
  }

  // ---------------------------------------------------------------- the run

  /** A step in which no message is lost or late. */
  predicate Prompt<V>(a: Action<V>) {
    match a
    case Heartbeat(_, _, delivery) => delivery.Exchanged?
    case Poll(_, delivery) => delivery.Exchanged?
    case _ => !a.PollTimeout? && !a.LateAppend? && !a.LateVote?
  }

  ghost predicate AllPrompt<V>(schedule: seq<Action<V>>) {
    forall i :: 0 <= i < |schedule| ==> Prompt(schedule[i])
  }

  /** Some schedule of prompt steps leads from `c` to `c'`. */
  ghost predicate Reaches<V(!new)>(c: Cluster<V>, c': Cluster<V>) {
    exists run: seq<Cluster<V>>, schedule: seq<Action<V>> ::
      Run(CONFIG, run, schedule) && AllPrompt(schedule) && run[0] == c && run[|schedule|] == c'
  }

  lemma ReachesSelf<V(!new)>(c: Cluster<V>)
    ensures Reaches(c, c)
  {
    var run, schedule: seq<Action<V>> := [c], [];
    assert Run(CONFIG, run, schedule);
  }

  lemma ReachesNext<V(!new)>(c: Cluster<V>, c1: Cluster<V>, a: Action<V>)
    requires Reaches(c, c1) && Prompt(a)
    ensures Reaches(c, Apply(CONFIG, c1, a))
  {
    var run, schedule :| Run(CONFIG, run, schedule) && AllPrompt(schedule) && run[0] == c && run[|schedule|] == c1;
    var run', schedule' := run + [Apply(CONFIG, c1, a)], schedule + [a];
    forall i | 0 <= i < |schedule'| ensures Step(CONFIG, run', schedule', i) {
      assert i < |schedule| ==> Step(CONFIG, run, schedule, i);
    }
    assert Run(CONFIG, run', schedule');
  }

  lemma ReachesThree<V(!new)>(c: Cluster<V>, c1: Cluster<V>, a: Action<V>, b: Action<V>, d: Action<V>)
    requires Reaches(c, c1) && Prompt(a) && Prompt(b) && Prompt(d)
    ensures Reaches(c, Apply(CONFIG, Apply(CONFIG, Apply(CONFIG, c1, a), b), d))
  {
    ReachesNext(c, c1, a);
    ReachesNext(c, Apply(CONFIG, c1, a), b);
    ReachesNext(c, Apply(CONFIG, Apply(CONFIG, c1, a), b), d);
  }

  /** Node 1 leads term 1, and everybody holds its first entry. */
  lemma FirstPart<V(!new)>(c: Cluster<V>, x: V) returns (last: Cluster<V>)
    requires Initial(CONFIG, c)
    ensures Reaches(c, last) && Quiet(last) && LeadsWith(1, last.nodes[1], 1, [Entry(x, 1)], 2)
    ensures Follows(last.nodes[2], 1, 1, [Entry(x, 1)]) && Follows(last.nodes[3], 1, 1, [Entry(x, 1)])
  {
    ReachesSelf(c);
    ReachesThree(c, c, Candidacy(1), Poll(1, Exchanged), ClientAppend(1, x));
    var c2 := Apply(CONFIG, Apply(CONFIG, c, Candidacy(1)), Poll(1, Exchanged));
    FirstElection(c);
    FirstAppend(c2, x);
    last := Replicates(c, Apply(CONFIG, c2, ClientAppend(1, x)), Entry(x, 1));
  }

  lemma Replicates<V(!new)>(c: Cluster<V>, c1: Cluster<V>, e: Entry<V>) returns (last: Cluster<V>)
    requires Reaches(c, c1) && e.term == 1 && Quiet(c1) && LeadsWith(1, c1.nodes[1], 1, [e], 1)
    requires Follows(c1.nodes[2], 1, 1, []) && c1.nodes[3] == StartState([2, 1], None)
    ensures Reaches(c, last) && Quiet(last) && LeadsWith(1, last.nodes[1], 1, [e], 2)
    ensures Follows(last.nodes[2], 1, 1, [e]) && Follows(last.nodes[3], 1, 1, [e])
  {
    FirstBeats(c1, e);
    ReachesNext(c, c1, Heartbeat(1, 2, Exchanged));
    ReachesNext(c, Apply(CONFIG, c1, Heartbeat(1, 2, Exchanged)), Heartbeat(1, 3, Exchanged));
    last := Apply(CONFIG, Apply(CONFIG, c1, Heartbeat(1, 2, Exchanged)), Heartbeat(1, 3, Exchanged));
  }

  /** Node 3 wins term 2 with the vote of node 2, which then hears from node 1. */
  lemma SecondPart<V(!new)>(c: Cluster<V>, c1: Cluster<V>, e: Entry<V>) returns (last: Cluster<V>)
    requires Reaches(c, c1) && e.term == 1 && Quiet(c1) && LeadsWith(1, c1.nodes[1], 1, [e], 2)
    requires Follows(c1.nodes[2], 1, 1, [e]) && Follows(c1.nodes[3], 1, 1, [e])
    ensures Reaches(c, last) && Quiet(last) && LeadsWith(1, last.nodes[1], 1, [e], 2)
    ensures Follows(last.nodes[2], 1, 3, [e]) && LeadsWith(3, last.nodes[3], 2, [e], 2)
  {
    ReachesThree(c, c1, Tick(3), Candidacy(3), Poll(3, Exchanged));
    ElectedAfterTick(c1, 3, 2, e);
    var c2 := Apply(CONFIG, Apply(CONFIG, Apply(CONFIG, c1, Tick(3)), Candidacy(3)), Poll(3, Exchanged));
    StaleBeat(c2, e);
    ReachesNext(c, c2, Heartbeat(1, 2, Exchanged));
    last := Apply(CONFIG, c2, Heartbeat(1, 2, Exchanged));
  }

  /** Node 2 wins term 2 as well, with the vote of node 1; both append an entry. */
  lemma ThirdPart<V(!new)>(c: Cluster<V>, c1: Cluster<V>, e: Entry<V>, y: V, z: V) returns (last: Cluster<V>)
    requires Reaches(c, c1) && e.term == 1 && Quiet(c1) && LeadsWith(1, c1.nodes[1], 1, [e], 2)
    requires Follows(c1.nodes[2], 1, 3, [e]) && LeadsWith(3, c1.nodes[3], 2, [e], 2)
    ensures Reaches(c, last) && Quiet(last) && Follows(last.nodes[1], 2, 2, [e])
    ensures LeadsWith(2, last.nodes[2], 2, [e, Entry(z, 2)], 2) && LeadsWith(3, last.nodes[3], 2, [e, Entry(y, 2)], 2)
  {
    ReachesThree(c, c1, Tick(2), Candidacy(2), Poll(2, Exchanged));
    ElectedAfterTick(c1, 2, 1, e);
    var c2 := Apply(CONFIG, Apply(CONFIG, Apply(CONFIG, c1, Tick(2)), Candidacy(2)), Poll(2, Exchanged));
    BothAppend(c2, e, y, z);
    ReachesNext(c, c2, ClientAppend(3, y));
    ReachesNext(c, Apply(CONFIG, c2, ClientAppend(3, y)), ClientAppend(2, z));
    last := Apply(CONFIG, Apply(CONFIG, c2, ClientAppend(3, y)), ClientAppend(2, z));
  }

  /** Leader `l` of term 2 replicates its entry to node 1 and commits it. */
  lemma CommitPart<V(!new)>(c: Cluster<V>, c1: Cluster<V>, l: NodeId, e: Entry<V>, f: Entry<V>,
                            log: Log<V>) returns (last: Cluster<V>)
    requires Reaches(c, c1) && e.term == 1 && Quiet(c1) && l in {2, 3} && LeadsWith(l, c1.nodes[l], 2, [e, f], 2)
    requires Follows(c1.nodes[1], 2, 2, log) && 1 <= |log| <= 2 && log[0] == e
    ensures Reaches(c, last) && Quiet(last) && Follows(last.nodes[1], 2, 2, log + [f])
    ensures Leads(last, l) && last.nodes[l].term == 2 && last.nodes[l].outbox == [e, f]
    ensures last.nodes[5 - l] == c1.nodes[5 - l]
  {
    LaterBeat(c1, l, e, f, log);
    var c2 := Apply(CONFIG, c1, Heartbeat(l, 1, Exchanged));
    Commits(c2, l);
    ReachesThree(c, c1, Heartbeat(l, 1, Exchanged), EndRound(l), CommitRule(l));
    last := Apply(CONFIG, Apply(CONFIG, c2, EndRound(l)), CommitRule(l));
  }

  lemma FreshCluster<V>() returns (c: Cluster<V>)
    ensures Initial(CONFIG, c)
  {
    ThreeNodes();
    c := Cluster(map n: NodeId | n in CONFIG.members :: StartState(PeersOf(CONFIG, n), None), map[], [], [], {});
  }

  /** The source as written has a run from a fresh cluster, without a lost message or a
      late one, that ends with two leaders in one term, which have delivered different
      entries at one position. */
  lemma TwoLeadersDisagree<V(!new)>(x: V, y: V, z: V)
    returns (run: seq<Cluster<V>>, schedule: seq<Action<V>>)
    requires y != z
    ensures Run(CONFIG, run, schedule) && Initial(CONFIG, run[0]) && AllPrompt(schedule)
    ensures var last := run[|schedule|];
            && Leads(last, 2) && Leads(last, 3) && last.nodes[2].term == last.nodes[3].term
            && |last.nodes[2].outbox| == |last.nodes[3].outbox| == 2
            && last.nodes[2].outbox[1] != last.nodes[3].outbox[1]
  {
    var e := Entry(x, 1);
    var c := FreshCluster<V>();
    var c1 := FirstPart(c, x);
    var c2 := SecondPart(c, c1, e);
    var c3 := ThirdPart(c, c2, e, y, z);
    var c4 := CommitPart(c, c3, 3, e, Entry(y, 2), [e]);
    var c5 := CommitPart(c, c4, 2, e, Entry(z, 2), [e] + [Entry(y, 2)]);
    run, schedule :| Run(CONFIG, run, schedule) && AllPrompt(schedule) && run[0] == c && run[|schedule|] == c5;
  }

  // ---------------------------------------------------------------- an entry of an older term

  /** The first leader takes an empty heartbeat of the second. */
  lemma EmptyBeat<V>(c: Cluster<V>, e: Entry<V>)
    requires e.term == 1 && Quiet(c) && LeadsWith(3, c.nodes[3], 2, [e], 2) && LeadsWith(1, c.nodes[1], 1, [e], 2)
    ensures var c' := Apply(CONFIG, c, Heartbeat(3, 1, Exchanged));
            Quiet(c') && c'.nodes[3] == OnAppendReply(c.nodes[3], 1, true)
  {
    var req := AppendRequest(2, 3, 1, 1, [], 0);
    assert [e][1..] == [] && [e] + [] == [e];
    var out := AppendLiteral(1, c.nodes[1], req);
    Beat(c, 3, 1, req, out.state, out.reply);
  }

  /** A leader of term 2 finds the entry of term 1 on a quorum: the source commits it, the
      rule restricted to the leader's own term would not. */
  lemma OldEntryIsFound<V(!new)>(c: Cluster<V>, c1: Cluster<V>, e: Entry<V>) returns (last: Cluster<V>)
    requires Reaches(c, c1) && e.term == 1 && Quiet(c1) && LeadsWith(1, c1.nodes[1], 1, [e], 2)
    requires Follows(c1.nodes[2], 1, 1, [e]) && Follows(c1.nodes[3], 1, 1, [e])
    ensures Reaches(c, last) && Leads(last, 3) && last.nodes[3].term == 2
    ensures CommitEntries(last.nodes[3], QuorumOf(CONFIG, 3), true).0 == last.nodes[3]
    ensures 3 in Apply(CONFIG, last, CommitRule(3)).nodes && Apply(CONFIG, last, CommitRule(3)).nodes[3].outbox == [e]
  {
    ReachesThree(c, c1, Tick(3), Candidacy(3), Poll(3, Exchanged));
    ElectedAfterTick(c1, 3, 2, e);
    var c2 := Apply(CONFIG, Apply(CONFIG, Apply(CONFIG, c1, Tick(3)), Candidacy(3)), Poll(3, Exchanged));
    EmptyBeat(c2, e);
    var c3 := Apply(CONFIG, c2, Heartbeat(3, 1, Exchanged));
    ReachesNext(c, c2, Heartbeat(3, 1, Exchanged));
    ReachesNext(c, c3, EndRound(3));
    ThreeNodes();
    EndsRound(c3, 3);
    CommitsAlone(3, c3.nodes[3]);
    last := Apply(CONFIG, c3, EndRound(3));
    RunsRule(last, 3, Deliver(last.nodes[3], 1));
  }

  /** The source reaches, from a fresh cluster and without a lost or late message, a state in
      which a leader commits an entry of an older term, which the paper's rule forbids. */
  lemma OldEntryIsReached<V(!new)>(x: V) returns (run: seq<Cluster<V>>, schedule: seq<Action<V>>)
    ensures Run(CONFIG, run, schedule) && Initial(CONFIG, run[0]) && AllPrompt(schedule)
    ensures var last := run[|schedule|];
            && Leads(last, 3) && last.nodes[3].term == 2
            && CommitEntries(last.nodes[3], QuorumOf(CONFIG, 3), true).0 == last.nodes[3]
            && 3 in Apply(CONFIG, last, CommitRule(3)).nodes
            && Apply(CONFIG, last, CommitRule(3)).nodes[3].outbox == [Entry(x, 1)]
  {
    var c := FreshCluster<V>();
    var c1 := FirstPart(c, x);
    var last := OldEntryIsFound(c, c1, Entry(x, 1));
    run, schedule :| Run(CONFIG, run, schedule) && AllPrompt(schedule) && run[0] == c && run[|schedule|] == last;
  }
}
