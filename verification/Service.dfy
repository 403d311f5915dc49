/** What a stable leader with a quorum of answering peers achieves, in how many rounds. */
module Service {
  import opened Types
  import opened Quorum
  import opened Handlers
  import opened Cluster
  import opened Progress
  import opened StablePhase
  import opened Campaign
  import opened Failover

  // ---------------------------------------------------------------- one exchange

  /** The peer has the leader's log, and the leader knows it. */
  ghost predicate Served<V>(l: NodeState<V>, f: NodeId, s: NodeState<V>) {
    && s.log == l.log && f in l.nextIndex && l.nextIndex[f] == |l.log| + 1
    && (l.log != [] ==> f in l.matchIndex && l.matchIndex[f] == |l.log|)
  }

  /** At most g exchanges until the peer is served. */
  ghost predicate Behind<V>(l: NodeState<V>, f: NodeId, s: NodeState<V>, g: nat) {
    if g == 0 then Served(l, f, s) else f in l.nextIndex && l.nextIndex[f] <= |s.log| + g
  }

  function Less(g: nat): nat {
    if g == 0 then 0 else g - 1
  }

  /** Every exchange brings the peer closer; the one that serves it, and any later one,
      tells it of all that the leader has committed. */
  lemma ExchangeBringsCloser<V>(me: NodeId, l: NodeState<V>, f: NodeId, s: NodeState<V>, g: nat)
    requires FollowerOk(l, f, s) && Delivered(l) && Behind(l, f, s, g)
    ensures BuildRequest(me, l, f).Some?
    ensures var out := AppendLiteral(f, s, BuildRequest(me, l, f).value);
            && out.Replied? && Behind(OnAppendReply(l, f, out.reply.success), f, out.state, Less(g))
            && (g <= 1 ==> out.state.commit == l.commit)
  {
    StableHandling(me, l, f, s);
  }

  // ---------------------------------------------------------------- a round

  /** From `s` on: an exchange with each peer in order, in which those in `a` answer and any
      other may, the end of the round, and the commit rule. */
  ghost predicate RoundAt<V>(cfg: Config, schedule: seq<Action<V>>, s: nat, l: NodeId, a: set<NodeId>) {
    var peers := PeersOf(cfg, l);
    && s + |peers| + 2 <= |schedule|
    && (forall i: nat :: i < |peers| ==> Asked(schedule[s + i], l, peers[i], a))
    && schedule[s + |peers|] == EndRound(l) && schedule[s + |peers| + 1] == CommitRule(l)
  }

  ghost predicate Asked<V>(action: Action<V>, l: NodeId, p: NodeId, a: set<NodeId>) {
    && action.Heartbeat? && action.leader == l && action.peer == p
    && !action.delivery.Handled? && (p in a ==> action.delivery.Exchanged?)
  }

  /** The leader has this log and commit index; peers in `a` are at most g exchanges behind. */
  ghost predicate Serving<V>(cfg: Config, c: Cluster<V>, l: NodeId, log: Log<V>, commit: nat, a: set<NodeId>, g: nat) {
    && Stable(cfg, c, l) && c.nodes[l].log == log && c.nodes[l].commit == commit
    && forall p {:trigger PeerBehind(cfg, c, l, p, g)} :: p in a ==> PeerBehind(cfg, c, l, p, g)
  }

  ghost predicate PeerBehind<V>(cfg: Config, c: Cluster<V>, l: NodeId, p: NodeId, g: nat) {
    p in PeersOf(cfg, l) && p in c.nodes && l in c.nodes && Behind(c.nodes[l], p, c.nodes[p], g)
  }

  /** The peers have this commit index. */
  ghost predicate Told<V>(c: Cluster<V>, a: set<NodeId>, commit: nat) {
    forall p {:trigger HasCommit(c, p, commit)} :: p in a ==> HasCommit(c, p, commit)
  }

  ghost predicate HasCommit<V>(c: Cluster<V>, p: NodeId, commit: nat) {
    p in c.nodes && c.nodes[p].commit == commit
  }

  /** One peer of `a` in the middle of a round, after its own exchange or before it. */
  ghost predicate MidRound<V>(c: Cluster<V>, l: NodeId, p: NodeId, g: nat, asked: bool)
    requires l in c.nodes
  {
    && p in c.nodes && Behind(c.nodes[l], p, c.nodes[p], if asked then Less(g) else g)
    && (asked && g <= 1 ==> c.nodes[p].commit == c.nodes[l].commit)
  }

  ghost predicate AfterPeers<V>(cfg: Config, c: Cluster<V>, l: NodeId, log: Log<V>, commit: nat, a: set<NodeId>,
                                g: nat, k: nat) {
    && Stable(cfg, c, l) && c.nodes[l].log == log && c.nodes[l].commit == commit
    && forall i: nat {:trigger PeersOf(cfg, l)[i]} ::
         i < |PeersOf(cfg, l)| && PeersOf(cfg, l)[i] in a ==> MidRound(c, l, PeersOf(cfg, l)[i], g, i < k)
  }

  /** What an exchange leaves as it was. */
  ghost predicate OthersKept<V>(c: Cluster<V>, c': Cluster<V>, l: NodeId, f: NodeId)
    requires l in c.nodes && l in c'.nodes
  {
    var s, s' := c.nodes[l], c'.nodes[l];
    && s'.log == s.log && s'.commit == s.commit
    && forall p :: p in c.nodes && p != l && p != f ==>
                     && p in c'.nodes && c'.nodes[p] == c.nodes[p]
                     && (p in s.nextIndex ==> p in s'.nextIndex && s'.nextIndex[p] == s.nextIndex[p])
                     && (p in s.matchIndex ==> p in s'.matchIndex && s'.matchIndex[p] == s.matchIndex[p])
  }

  lemma ExchangeKeepsOthers<V>(c: Cluster<V>, c': Cluster<V>, l: NodeId, f: NodeId, s': NodeState<V>, success: bool)
    requires l in c.nodes && f in c.nodes && f != l
    requires c'.nodes == c.nodes[f := s'][l := OnAppendReply(c.nodes[l], f, success)]
    ensures OthersKept(c, c', l, f) && c'.nodes[f] == s' && c'.nodes[l] == OnAppendReply(c.nodes[l], f, success)
  {
  }

  /** One exchange with a peer of the stable leader, in terms of the two states. */
  lemma HeartbeatIs<V>(cfg: Config, c: Cluster<V>, l: NodeId, f: NodeId)
    requires Stable(cfg, c, l) && f in PeersOf(cfg, l)
    ensures f in c.nodes && f != l && FollowerOk(c.nodes[l], f, c.nodes[f]) && BuildRequest(l, c.nodes[l], f).Some?
    ensures var out := AppendLiteral(f, c.nodes[f], BuildRequest(l, c.nodes[l], f).value);
            && out.Replied?
            && Apply(cfg, c, Heartbeat(l, f, Exchanged)).nodes
               == c.nodes[f := out.state][l := OnAppendReply(c.nodes[l], f, out.reply.success)]
            && Apply(cfg, c, Heartbeat(l, f, Dropped)).nodes == c.nodes
  {
    PeerIsOther(cfg, l, f);
    assert FollowerOk(c.nodes[l], f, c.nodes[f]);
    StableHandling(l, c.nodes[l], f, c.nodes[f]);
    var out := AppendLiteral(f, c.nodes[f], BuildRequest(l, c.nodes[l], f).value);
    ExchangeIs(cfg, c, l, f, BuildRequest(l, c.nodes[l], f).value, out.state, out.reply);
  }

  lemma HeartbeatDoes<V>(cfg: Config, c: Cluster<V>, l: NodeId, f: NodeId, delivery: Delivery, g: nat)
    requires Stable(cfg, c, l) && f in PeersOf(cfg, l) && !delivery.Handled?
    ensures var c' := Apply(cfg, c, Heartbeat(l, f, delivery));
            && l in c'.nodes && OthersKept(c, c', l, f)
            && (delivery.Exchanged? && MidRound(c, l, f, g, false) ==> MidRound(c', l, f, g, true))
  {
    HeartbeatIs(cfg, c, l, f);
    if delivery.Exchanged? {
      var out := AppendLiteral(f, c.nodes[f], BuildRequest(l, c.nodes[l], f).value);
      ExchangeKeepsOthers(c, Apply(cfg, c, Heartbeat(l, f, Exchanged)), l, f, out.state, out.reply.success);
      if MidRound(c, l, f, g, false) {
        ExchangeBringsCloser(l, c.nodes[l], f, c.nodes[f], g);
      }
    }
  }

  lemma NextPeer<V>(cfg: Config, c: Cluster<V>, l: NodeId, log: Log<V>, commit: nat, a: set<NodeId>, g: nat, k: nat,
                    action: Action<V>)
    requires k < |PeersOf(cfg, l)| && AfterPeers(cfg, c, l, log, commit, a, g, k)
    requires Asked(action, l, PeersOf(cfg, l)[k], a)
    ensures AfterPeers(cfg, Apply(cfg, c, action), l, log, commit, a, g, k + 1)
  {
    var peers := PeersOf(cfg, l);
    var c' := Apply(cfg, c, action);
    HeartbeatDoes(cfg, c, l, peers[k], action.delivery, g);
    StableStep(cfg, c, l, action);
    forall i: nat | i < |peers| && peers[i] in a ensures MidRound(c', l, peers[i], g, i < k + 1) {
      PeerIsOther(cfg, l, peers[i]);
      assert PeersFine(cfg, l);
      assert MidRound(c, l, peers[i], g, i < k);
    }
  }

  lemma {:induction false} RoundOfPeers<V>(cfg: Config, run: seq<Cluster<V>>, schedule: seq<Action<V>>, s: nat, l: NodeId,
                                           a: set<NodeId>, g: nat, k: nat)
    requires Run(cfg, run, schedule) && RoundAt(cfg, schedule, s, l, a) && k <= |PeersOf(cfg, l)| && l in run[s].nodes
    requires Serving(cfg, run[s], l, run[s].nodes[l].log, run[s].nodes[l].commit, a, g)
    ensures AfterPeers(cfg, run[s + k], l, run[s].nodes[l].log, run[s].nodes[l].commit, a, g, k)
  {
    if k > 0 {
      RoundOfPeers(cfg, run, schedule, s, l, a, g, k - 1);
      assert Step(cfg, run, schedule, s + k - 1) && Asked(schedule[s + (k - 1)], l, PeersOf(cfg, l)[k - 1], a);
      NextPeer(cfg, run[s + k - 1], l, run[s].nodes[l].log, run[s].nodes[l].commit, a, g, k - 1, schedule[s + k - 1]);
    } else {
      forall i: nat | i < |PeersOf(cfg, l)| && PeersOf(cfg, l)[i] in a
        ensures MidRound(run[s], l, PeersOf(cfg, l)[i], g, false)
      {
        assert PeerBehind(cfg, run[s], l, PeersOf(cfg, l)[i], g);
      }
    }
  }

  lemma QuorumIsFrequent<V>(cfg: Config, s: NodeState<V>, l: NodeId, a: set<NodeId>, k: nat)
    requires ValidConfig(cfg) && l in cfg.members && l !in a && s.matchIndex.Keys <= cfg.members
    requires |a| + 1 >= |cfg.members| / 2 + 1
    requires forall p :: p in a + {l} ==> p in s.matchIndex && s.matchIndex[p] == k
    ensures CommitCandidate(s.matchIndex, QuorumOf(cfg, l)) == Some(k)
  {
    QuorumFits(cfg, l);
    assert |a + {l}| == |a| + 1;
    SubsetSize(a + {l}, Holders(s.matchIndex, k));
    SubsetSize(s.matchIndex.Keys, cfg.members);
    FrequentIsUnique(s.matchIndex, QuorumOf(cfg, l), k, k);
  }

  lemma WholeLogDelivered<V>(s: NodeState<V>, quorum: int)
    requires Delivered(s) && CommitCandidate(s.matchIndex, quorum) == Some(|s.log|)
    ensures CommitEntries(s, quorum, false).0 == s.(commit := |s.log|, outbox := s.log)
  {
    assert s.log[..s.commit] + s.log[s.commit..|s.log|] == s.log;
  }

  /** The leader's own entry makes its whole log frequent, once a quorum is served. */
  lemma RoundIsCommitted<V>(cfg: Config, c: Cluster<V>, l: NodeId, log: Log<V>, commit: nat, a: set<NodeId>)
    requires Serving(cfg, c, l, log, commit, a, 0) && |a| + 1 >= |cfg.members| / 2 + 1 && log != []
    requires l in c.nodes[l].matchIndex && c.nodes[l].matchIndex[l] == |log|
    ensures CommitEntries(c.nodes[l], QuorumOf(cfg, l), false).0.commit == |log|
  {
    var s := c.nodes[l];
    forall p | p in a ensures p != l && p in s.matchIndex && s.matchIndex[p] == |log| {
      assert PeerBehind(cfg, c, l, p, 0);
      PeerIsOther(cfg, l, p);
    }
    QuorumIsFrequent(cfg, s, l, a, |log|);
    WholeLogDelivered(s, QuorumOf(cfg, l));
  }

  lemma ClosingKeeps<V>(cfg: Config, c: Cluster<V>, l: NodeId, log: Log<V>, commit: nat, a: set<NodeId>, g: nat)
    requires AfterPeers(cfg, c, l, log, commit, a, g, |PeersOf(cfg, l)|)
    requires forall p :: p in a ==> p in PeersOf(cfg, l)
    ensures var c' := Apply(cfg, c, EndRound(l));
            && Serving(cfg, c', l, log, commit, a, Less(g)) && (g <= 1 ==> Told(c', a, commit))
            && l in c'.nodes[l].matchIndex && c'.nodes[l].matchIndex[l] == |log|
  {
    StableStep(cfg, c, l, EndRound(l));
    var c' := Apply(cfg, c, EndRound(l));
    assert c'.nodes == c.nodes[l := CloseRound(l, c.nodes[l])];
    forall p | p in a ensures PeerBehind(cfg, c', l, p, Less(g)) && (g <= 1 ==> HasCommit(c', p, commit)) {
      PeerIsOther(cfg, l, p);
      var i: nat :| i < |PeersOf(cfg, l)| && PeersOf(cfg, l)[i] == p;
      assert MidRound(c, l, p, g, i < |PeersOf(cfg, l)|);
    }
  }

  /** The commit rule changes what the leader has delivered, and nothing else. */
  lemma CommitIs<V>(cfg: Config, c: Cluster<V>, l: NodeId)
    requires Stable(cfg, c, l)
    ensures var s' := CommitEntries(c.nodes[l], QuorumOf(cfg, l), false).0;
            && Apply(cfg, c, CommitRule(l)).nodes == c.nodes[l := s']
            && s' == c.nodes[l].(outbox := s'.outbox, commit := s'.commit)
  {
  }

  lemma CommittingKeeps<V>(cfg: Config, c: Cluster<V>, l: NodeId, log: Log<V>, commit: nat, a: set<NodeId>, g: nat)
    requires Serving(cfg, c, l, log, commit, a, g) && |a| + 1 >= |cfg.members| / 2 + 1
    requires l in c.nodes[l].matchIndex && c.nodes[l].matchIndex[l] == |log|
    ensures var c' := Apply(cfg, c, CommitRule(l));
            && l in c'.nodes && Serving(cfg, c', l, log, c'.nodes[l].commit, a, g)
            && (g == 0 ==> c'.nodes[l].commit == |log|)
            && (Told(c, a, commit) ==> Told(c', a, commit))
  {
    StableStep(cfg, c, l, CommitRule(l));
    CommitIs(cfg, c, l);
    var c' := Apply(cfg, c, CommitRule(l));
    forall p | p in a ensures PeerBehind(cfg, c', l, p, g) && (HasCommit(c, p, commit) ==> HasCommit(c', p, commit)) {
      assert PeerBehind(cfg, c, l, p, g);
      PeerIsOther(cfg, l, p);
    }
    if g == 0 && log != [] {
      RoundIsCommitted(cfg, c, l, log, commit, a);
    }
  }

  lemma RoundCloses<V>(cfg: Config, run: seq<Cluster<V>>, schedule: seq<Action<V>>, s: nat, l: NodeId, a: set<NodeId>,
                       g: nat)
    requires Run(cfg, run, schedule) && RoundAt(cfg, schedule, s, l, a) && l in run[s].nodes
    requires Serving(cfg, run[s], l, run[s].nodes[l].log, run[s].nodes[l].commit, a, g)
    ensures var c, c' := run[s], run[s + |PeersOf(cfg, l)| + 1];
            && Serving(cfg, c', l, c.nodes[l].log, c.nodes[l].commit, a, Less(g))
            && (g <= 1 ==> Told(c', a, c.nodes[l].commit))
            && l in c'.nodes && l in c'.nodes[l].matchIndex && c'.nodes[l].matchIndex[l] == |c.nodes[l].log|
  {
    var n := |PeersOf(cfg, l)|;
    RoundOfPeers(cfg, run, schedule, s, l, a, g, n);
    forall p | p in a ensures p in PeersOf(cfg, l) {
      assert PeerBehind(cfg, run[s], l, p, g);
    }
    assert Step(cfg, run, schedule, s + n);
    ClosingKeeps(cfg, run[s + n], l, run[s].nodes[l].log, run[s].nodes[l].commit, a, g);
  }

  /** A round brings every answering peer one exchange closer. When a quorum is served in
      it, the leader commits its whole log at its end; peers that it serves have committed
      what the leader had when it began. */
  lemma RoundServes<V>(cfg: Config, run: seq<Cluster<V>>, schedule: seq<Action<V>>, s: nat, l: NodeId, a: set<NodeId>,
                       g: nat)
    requires Run(cfg, run, schedule) && RoundAt(cfg, schedule, s, l, a) && l in run[s].nodes
    requires Serving(cfg, run[s], l, run[s].nodes[l].log, run[s].nodes[l].commit, a, g)
    requires |a| + 1 >= |cfg.members| / 2 + 1
    ensures var c, c', log := run[s], run[s + |PeersOf(cfg, l)| + 2], run[s].nodes[l].log;
            && l in c'.nodes && Serving(cfg, c', l, log, c'.nodes[l].commit, a, Less(g))
            && (g <= 1 ==> c'.nodes[l].commit == |log| && Told(c', a, c.nodes[l].commit))
  {
    var n := |PeersOf(cfg, l)|;
    RoundCloses(cfg, run, schedule, s, l, a, g);
    assert Step(cfg, run, schedule, s + n + 1);
    CommittingKeeps(cfg, run[s + n + 1], l, run[s].nodes[l].log, run[s].nodes[l].commit, a, Less(g));
  }

  // ---------------------------------------------------------------- rounds

  /** n rounds, one after the other. */
  ghost predicate Rounds<V>(cfg: Config, schedule: seq<Action<V>>, s: nat, l: NodeId, a: set<NodeId>, n: nat)
    decreases n
  {
    n > 0 ==> RoundAt(cfg, schedule, s, l, a) && Rounds(cfg, schedule, s + |PeersOf(cfg, l)| + 2, l, a, n - 1)
  }

  /** The moment at which they end. */
  function RoundsEnd(cfg: Config, s: nat, l: NodeId, n: nat): nat
    decreases n
  {
    if n == 0 then s else RoundsEnd(cfg, s + |PeersOf(cfg, l)| + 2, l, n - 1)
  }

  /** All have delivered all of the log. */
  ghost predicate AllDelivered<V>(c: Cluster<V>, log: Log<V>, q: set<NodeId>) {
    forall n :: n in q ==> n in c.nodes && c.nodes[n].log == log && c.nodes[n].outbox == log && c.nodes[n].commit == |log|
  }

  lemma AllTold<V>(cfg: Config, c: Cluster<V>, l: NodeId, log: Log<V>, a: set<NodeId>)
    requires Serving(cfg, c, l, log, |log|, a, 0) && Told(c, a, |log|)
    ensures AllDelivered(c, log, a + {l})
  {
    forall p | p in a
      ensures PeerBehind(cfg, c, l, p, 0) && HasCommit(c, p, |log|) && FollowerOk(c.nodes[l], p, c.nodes[p])
    {
      assert PeerBehind(cfg, c, l, p, 0);
      PeerIsOther(cfg, l, p);
    }
  }

  /** After g rounds the leader has committed its whole log, and after another one so has
      everybody who answered. */
  lemma {:induction false} RoundsServe<V>(cfg: Config, run: seq<Cluster<V>>, schedule: seq<Action<V>>, s: nat, l: NodeId,
                                          a: set<NodeId>, g: nat)
    requires Run(cfg, run, schedule) && s < |run| && l in run[s].nodes && Rounds(cfg, schedule, s, l, a, g + 1)
    requires Serving(cfg, run[s], l, run[s].nodes[l].log, run[s].nodes[l].commit, a, g)
    requires |a| + 1 >= |cfg.members| / 2 + 1 && (g == 0 ==> run[s].nodes[l].commit == |run[s].nodes[l].log|)
    ensures var e := RoundsEnd(cfg, s, l, g + 1);
            e < |run| && Stable(cfg, run[e], l) && AllDelivered(run[e], run[s].nodes[l].log, a + {l})
    decreases g
  {
    RoundServes(cfg, run, schedule, s, l, a, g);
    var next := s + |PeersOf(cfg, l)| + 2;
    if g == 0 {
      assert RoundsEnd(cfg, s, l, 1) == RoundsEnd(cfg, next, l, 0) == next;
      AllTold(cfg, run[next], l, run[s].nodes[l].log, a);
    } else {
      RoundsServe(cfg, run, schedule, next, l, a, g - 1);
    }
  }

  lemma AppendingServes<V>(cfg: Config, c: Cluster<V>, l: NodeId, value: V, a: set<NodeId>, g: nat)
    requires g > 0 && l in c.nodes && Serving(cfg, c, l, c.nodes[l].log, c.nodes[l].commit, a, g)
    ensures var c', log := Apply(cfg, c, ClientAppend(l, value)), c.nodes[l].log + [Entry(value, c.nodes[l].term)];
            Serving(cfg, c', l, log, c.nodes[l].commit, a, g)
  {
    StableAppend(cfg, c, l, value);
    var c' := Apply(cfg, c, ClientAppend(l, value));
    forall p | p in a ensures PeerBehind(cfg, c', l, p, g) {
      assert PeerBehind(cfg, c, l, p, g);
      PeerIsOther(cfg, l, p);
    }
  }

  /** A client's entry is served: once a stable leader has appended it, g + 1 rounds in
      which a quorum answers, and was at most g exchanges behind, leave the entry delivered
      by all of the quorum, at the end of the log and behind all that was there before. */
  lemma EntryIsServed<V>(cfg: Config, run: seq<Cluster<V>>, schedule: seq<Action<V>>, s: nat, l: NodeId, value: V,
                         a: set<NodeId>, g: nat)
    requires Run(cfg, run, schedule) && s < |schedule| && g > 0 && l in run[s].nodes
    requires schedule[s] == ClientAppend(l, value) && Rounds(cfg, schedule, s + 1, l, a, g + 1)
    requires Serving(cfg, run[s], l, run[s].nodes[l].log, run[s].nodes[l].commit, a, g)
    requires |a| + 1 >= |cfg.members| / 2 + 1
    ensures var e, st := RoundsEnd(cfg, s + 1, l, g + 1), run[s].nodes[l];
            e < |run| && Stable(cfg, run[e], l) && AllDelivered(run[e], st.log + [Entry(value, st.term)], a + {l})
  {
    assert Step(cfg, run, schedule, s);
    AppendingServes(cfg, run[s], l, value, a, g);
    assert run[s + 1].nodes[l].log == run[s].nodes[l].log + [Entry(value, run[s].nodes[l].term)];
    RoundsServe(cfg, run, schedule, s + 1, l, a, g);
  }

  /** No peer of a stable leader is further behind than the leader's log is long, plus one. */
  lemma NobodyIsFurther<V>(cfg: Config, c: Cluster<V>, l: NodeId, p: NodeId)
    requires Stable(cfg, c, l) && p in PeersOf(cfg, l)
    ensures PeerBehind(cfg, c, l, p, |c.nodes[l].log| + 1)
  {
    PeerIsOther(cfg, l, p);
    assert FollowerOk(c.nodes[l], p, c.nodes[p]);
  }

  /** So whatever the quorum is and however far behind it has fallen, the length of the
      log before the client's entry, plus two, is enough rounds. */
  lemma EveryEntryIsServed<V>(cfg: Config, run: seq<Cluster<V>>, schedule: seq<Action<V>>, s: nat, l: NodeId, value: V,
                              a: set<NodeId>)
    requires Run(cfg, run, schedule) && s < |schedule| && Stable(cfg, run[s], l)
    requires schedule[s] == ClientAppend(l, value) && Rounds(cfg, schedule, s + 1, l, a, |run[s].nodes[l].log| + 2)
    requires |a| + 1 >= |cfg.members| / 2 + 1 && a <= Elements(PeersOf(cfg, l))
    ensures var st := run[s].nodes[l];
            var e := RoundsEnd(cfg, s + 1, l, |st.log| + 2);
            e < |run| && Stable(cfg, run[e], l) && AllDelivered(run[e], st.log + [Entry(value, st.term)], a + {l})
  {
    var st := run[s].nodes[l];
    forall p | p in a ensures PeerBehind(cfg, run[s], l, p, |st.log| + 1) {
      assert p in Elements(PeersOf(cfg, l));
      NobodyIsFurther(cfg, run[s], l, p);
    }
    EntryIsServed(cfg, run, schedule, s, l, value, a, |st.log| + 1);
  }

  // ---------------------------------------------------------------- from a fresh cluster

  /** Only `n` has stood. */
  ghost predicate NobodyElse<V>(c: Cluster<V>, n: NodeId) {
    c.polling.Keys <= {n} && forall m :: m != n ==> !Leads(c, m)
  }

  lemma NobodyElseStands<V>(cfg: Config, c: Cluster<V>, n: NodeId)
    requires NobodyElse(c, n)
    ensures NobodyElse(Apply(cfg, c, Candidacy(n)), n)
  {
    var c' := Apply(cfg, c, Candidacy(n));
    forall m | m != n ensures !Leads(c', m) {
      assert !Leads(c, m);
    }
  }

  lemma NobodyElseWins<V>(cfg: Config, c: Cluster<V>, n: NodeId, delivery: Delivery)
    requires NobodyElse(c, n)
    ensures NobodyElse(Apply(cfg, c, Poll(n, delivery)), n)
  {
    var c' := Apply(cfg, c, Poll(n, delivery));
    forall m | m != n ensures !Leads(c', m) {
      assert !Leads(c, m);
    }
  }

  lemma NobodyLeadsYet<V>(cfg: Config, c: Cluster<V>, n: NodeId)
    requires Initial(cfg, c)
    ensures NobodyElse(c, n)
  {
    forall m | m in c.nodes ensures !Leads(c, m) {
      assert FreshNode(cfg, m, c.nodes[m]);
    }
  }

  lemma {:induction false} NobodyElseRuns<V>(cfg: Config, run: seq<Cluster<V>>, schedule: seq<Action<V>>, n: NodeId,
                                             q: set<NodeId>, k: nat)
    requires Run(cfg, run, schedule) && AsksAll(cfg, schedule, n, q) && Initial(cfg, run[0]) && k < |run|
    ensures NobodyElse(run[k], n)
  {
    if k == 0 {
      NobodyLeadsYet(cfg, run[0], n);
    } else {
      NobodyElseRuns(cfg, run, schedule, n, q, k - 1);
      assert Step(cfg, run, schedule, k - 1);
      if k == 1 {
        NobodyElseStands(cfg, run[0], n);
      } else {
        NobodyElseWins(cfg, run[k - 1], n, schedule[k - 1].delivery);
      }
    }
  }

  lemma FreshPeersAreReady<V>(cfg: Config, c: Cluster<V>, n: NodeId, p: NodeId)
    requires Initial(cfg, c) && n in cfg.members && p in PeersOf(cfg, n)
    ensures Ready(c, p, n, Stand(n, c.nodes[n]))
  {
    PeerIsOther(cfg, n, p);
    assert FreshNode(cfg, p, c.nodes[p]) && FreshNode(cfg, n, c.nodes[n]);
  }

  lemma FirstElectionSucceeds<V>(cfg: Config, run: seq<Cluster<V>>, schedule: seq<Action<V>>, n: NodeId, q: set<NodeId>)
    requires Run(cfg, run, schedule) && Initial(cfg, run[0]) && AsksAll(cfg, schedule, n, q)
    requires n in cfg.members && PeersOf(cfg, n) != [] && q <= Elements(PeersOf(cfg, n)) && |q| + 1 >= |cfg.members| / 2 + 1
    ensures var c := run[|schedule|];
            Leads(c, n) && n !in c.polling && c.nodes[n].term == 1 && c.nodes[n].log == []
  {
    assert FreshNode(cfg, n, run[0].nodes[n]);
    forall p | p in q ensures p in PeersOf(cfg, n) && Ready(run[0], p, n, Stand(n, run[0].nodes[n])) {
      assert p in Elements(PeersOf(cfg, n));
      FreshPeersAreReady(cfg, run[0], n, p);
    }
    ElectionSucceeds(cfg, run, schedule, n, q);
  }

  /** In a fresh cluster whoever stands is elected in term 1 by any quorum that answers, and
      is then a stable leader with an empty log. */
  lemma FirstElection<V>(cfg: Config, run: seq<Cluster<V>>, schedule: seq<Action<V>>, n: NodeId, q: set<NodeId>)
    requires Run(cfg, run, schedule) && Initial(cfg, run[0]) && cfg.mode.Literal? && AsksAll(cfg, schedule, n, q)
    requires n in cfg.members && PeersOf(cfg, n) != [] && q <= Elements(PeersOf(cfg, n)) && |q| + 1 >= |cfg.members| / 2 + 1
    ensures var c := run[|schedule|];
            Stable(cfg, c, n) && c.nodes[n].term == 1 && c.nodes[n].log == []
  {
    FirstElectionSucceeds(cfg, run, schedule, n, q);
    NobodyElseRuns(cfg, run, schedule, n, q, |schedule|);
    FirstElectionIsStable(cfg, run, schedule, |schedule|, n);
  }

  lemma RunBegins<V>(cfg: Config, run: seq<Cluster<V>>, schedule: seq<Action<V>>, m: nat)
    requires Run(cfg, run, schedule) && m <= |schedule|
    ensures Run(cfg, run[..m + 1], schedule[..m])
  {
    var run', schedule' := run[..m + 1], schedule[..m];
    forall i: nat | i < m ensures Step(cfg, run', schedule', i) {
      assert Step(cfg, run, schedule, i);
    }
  }

  lemma BeginsWithElection<V>(cfg: Config, run: seq<Cluster<V>>, schedule: seq<Action<V>>, m: nat, n: NodeId, q: set<NodeId>)
    requires Run(cfg, run, schedule) && Initial(cfg, run[0]) && cfg.mode.Literal?
    requires n in cfg.members && PeersOf(cfg, n) != [] && q <= Elements(PeersOf(cfg, n)) && |q| + 1 >= |cfg.members| / 2 + 1
    requires m <= |schedule| && AsksAll(cfg, schedule[..m], n, q)
    ensures Stable(cfg, run[m], n) && run[m].nodes[n].term == 1 && run[m].nodes[n].log == []
  {
    RunBegins(cfg, run, schedule, m);
    FirstElection(cfg, run[..m + 1], schedule[..m], n, q);
  }

  /** The whole way from a fresh cluster to a delivered entry: an election, a client's append and
      two rounds, with a quorum answering and the other peers silent in the election, leave
      the entry, of term 1, delivered by the leader and by everybody in the quorum. */
  lemma FreshClusterServes<V>(cfg: Config, run: seq<Cluster<V>>, schedule: seq<Action<V>>, n: NodeId, value: V,
                              q: set<NodeId>)
    requires Run(cfg, run, schedule) && Initial(cfg, run[0]) && cfg.mode.Literal?
    requires n in cfg.members && PeersOf(cfg, n) != [] && q <= Elements(PeersOf(cfg, n)) && |q| + 1 >= |cfg.members| / 2 + 1
    requires |PeersOf(cfg, n)| + 1 < |schedule| && AsksAll(cfg, schedule[..|PeersOf(cfg, n)| + 1], n, q)
    requires schedule[|PeersOf(cfg, n)| + 1] == ClientAppend(n, value)
    requires Rounds(cfg, schedule, |PeersOf(cfg, n)| + 2, n, q, 2)
    ensures var e := RoundsEnd(cfg, |PeersOf(cfg, n)| + 2, n, 2);
            e < |run| && AllDelivered(run[e], [Entry(value, 1)], q + {n})
  {
    var m := |PeersOf(cfg, n)| + 1;
    BeginsWithElection(cfg, run, schedule, m, n, q);
    EveryEntryIsServed(cfg, run, schedule, m, n, value, q);
    assert run[m].nodes[n].log + [Entry(value, 1)] == [Entry(value, 1)];
  }
}
