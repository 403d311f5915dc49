/** The source's own handler under one leader, without elections: its splice, its
    lookup of the previous entry and its commit index are right there, because a
    request is only ever accepted by a follower whose log ends where it begins. */
module StablePhase {
  import opened Types
  import opened Quorum
  import opened Handlers
  import opened Cluster
  import opened Progress
  import opened Safety

  /** Everything up to the commit index has been delivered, in order. */
  ghost predicate Delivered<V>(s: NodeState<V>) {
    s.commit <= |s.log| && s.outbox == s.log[..s.commit]
  }

  /** A follower `f` in the state `s`, as the leader in the state `l` sees it. */
  ghost predicate FollowerOk<V>(l: NodeState<V>, f: NodeId, s: NodeState<V>) {
    && !s.role.Leader? && s.log <= l.log && Delivered(s) && s.commit <= l.commit
    && f in l.nextIndex && |s.log| + 1 <= l.nextIndex[f] <= |l.log| + 1
    && (f in l.matchIndex ==> l.matchIndex[f] <= |s.log|)
  }

  /** A quorum's logs have reached length k. */
  ghost predicate HeldByQuorum<V>(cfg: Config, nodes: map<NodeId, NodeState<V>>, k: nat, q: set<NodeId>) {
    && q <= cfg.members && |q| >= |cfg.members| / 2 + 1
    && forall n :: n in q ==> n in nodes && k <= |nodes[n].log|
  }

  ghost predicate Backed<V>(cfg: Config, nodes: map<NodeId, NodeState<V>>, k: nat) {
    k == 0 || exists q :: HeldByQuorum(cfg, nodes, k, q)
  }

  ghost predicate LeaderFine<V>(cfg: Config, n: NodeId, s: NodeState<V>) {
    && s.role.Leader? && NonDecreasing(s.log) && LastTerm(s.log) <= s.term && Delivered(s)
    && s.matchIndex.Keys <= cfg.members
    && (n in s.matchIndex ==> s.matchIndex[n] <= |s.log|)
  }

  ghost predicate FollowersOk<V>(cfg: Config, nodes: map<NodeId, NodeState<V>>, l: NodeId)
    requires nodes.Keys == cfg.members && l in nodes
  {
    forall f {:trigger FollowerOk(nodes[l], f, nodes[f])} ::
      f in cfg.members && f != l ==> FollowerOk(nodes[l], f, nodes[f])
  }

  /** One leader, followers whose logs are initial parts of its log, sound books and
      commit indexes, no election under way. */
  ghost predicate Stable<V>(cfg: Config, c: Cluster<V>, l: NodeId) {
    && ValidConfig(cfg) && cfg.mode.Literal?
    && c.nodes.Keys == cfg.members && c.polling == map[] && c.aborted == {}
    && l in cfg.members && LeaderFine(cfg, l, c.nodes[l])
    && Backed(cfg, c.nodes, c.nodes[l].commit)
    && FollowersOk(cfg, c.nodes, l)
  }

  /** Client appends, heartbeats that are lost or answered, commits: no elections, no
      reply lost on its way back. */
  predicate StableAction<V>(a: Action<V>) {
    a.ClientAppend? || (a.Heartbeat? && !a.delivery.Handled?) || a.EndRound? || a.CommitRule? || a.Tick?
  }

  /** From moment i of a run to moment j. */
  ghost predicate StableBetween<V>(schedule: seq<Action<V>>, i: nat, j: nat)
    requires j <= |schedule|
  {
    forall x :: i <= x < j ==> StableAction(schedule[x])
  }

  // ---------------------------------------------------------------- one exchange

  /** The source's handler on a request that begins where the follower's log ends. */
  lemma LiteralExtends<V>(f: NodeId, s: NodeState<V>, req: AppendRequest<V>)
    requires !s.role.Leader? && req.prevIndex == |s.log| && req.prevTerm == LastTerm(s.log)
    requires Delivered(s) && req.leaderCommit <= |s.log| + |req.entries|
    ensures var out := AppendLiteral(f, s, req);
            && out.Replied? && out.reply.success
            && out.state.log == s.log + req.entries && Delivered(out.state) && out.state.role.Follower?
            && out.state.commit == if req.leaderCommit > s.commit then req.leaderCommit else s.commit
  {
    var log := s.log + req.entries;
    assert log[..s.commit] == s.log[..s.commit];
    if req.leaderCommit > s.commit {
      assert log[..s.commit] + log[s.commit..req.leaderCommit] == log[..req.leaderCommit];
    }
  }

  lemma LiteralRefusesBeyond<V>(f: NodeId, s: NodeState<V>, req: AppendRequest<V>)
    requires req.prevIndex > |s.log|
    ensures AppendLiteral(f, s, req) == Replied(s, AppendReply(f, s.term, false))
  {
  }

  /** A request that begins at the end of the follower's log makes the logs equal; any
      other begins beyond it and is refused. The handler does not run out of range. */
  lemma StableHandling<V>(me: NodeId, l: NodeState<V>, f: NodeId, s: NodeState<V>)
    requires FollowerOk(l, f, s) && Delivered(l)
    ensures BuildRequest(me, l, f).Some?
    ensures var out := AppendLiteral(f, s, BuildRequest(me, l, f).value);
            && out.Replied?
            && out.reply.success == (l.nextIndex[f] == |s.log| + 1)
            && (if out.reply.success then
                  out.state.log == l.log && Delivered(out.state) && out.state.role.Follower?
                  && out.state.commit == l.commit
                else
                  out.state == s)
  {
    BuiltRequest(me, l, f);
    var req := BuildRequest(me, l, f).value;
    if req.prevIndex == |s.log| {
      assert s.log + req.entries == l.log && l.log[..|s.log|] == s.log;
      LiteralExtends(f, s, req);
    } else {
      LiteralRefusesBeyond(f, s, req);
    }
  }

  lemma FollowerAfterExchange<V>(me: NodeId, l: NodeState<V>, f: NodeId, s: NodeState<V>)
    requires FollowerOk(l, f, s) && Delivered(l)
    ensures var out := AppendLiteral(f, s, BuildRequest(me, l, f).value);
            out.Replied? && FollowerOk(OnAppendReply(l, f, out.reply.success), f, out.state)
            && s.log <= out.state.log
  {
    StableHandling(me, l, f, s);
  }

  /** What the leader records about one follower leaves the others as they are. */
  lemma OtherFollower<V>(l: NodeState<V>, l': NodeState<V>, f: NodeId, s: NodeState<V>)
    requires FollowerOk(l, f, s) && l.log <= l'.log && l.commit <= l'.commit
    requires f in l'.nextIndex && l'.nextIndex[f] == l.nextIndex[f]
    requires f in l'.matchIndex ==> f in l.matchIndex && l'.matchIndex[f] == l.matchIndex[f]
    ensures FollowerOk(l', f, s)
  {
  }

  // ---------------------------------------------------------------- steps

  /** The leader and at most one follower move; logs only grow. */
  lemma PairMoves<V>(cfg: Config, c: Cluster<V>, c': Cluster<V>, l: NodeId)
    requires Stable(cfg, c, l) && c'.nodes.Keys == cfg.members && c'.polling == map[] && c'.aborted == {}
    requires LeaderFine(cfg, l, c'.nodes[l])
    requires FollowersOk(cfg, c'.nodes, l)
    requires forall n :: n in cfg.members ==> |c.nodes[n].log| <= |c'.nodes[n].log|
    requires c'.nodes[l].commit == c.nodes[l].commit || Backed(cfg, c.nodes, c'.nodes[l].commit)
    ensures Stable(cfg, c', l)
  {
    var k := c'.nodes[l].commit;
    if k > 0 {
      var q :| HeldByQuorum(cfg, c.nodes, k, q);
      assert HeldByQuorum(cfg, c'.nodes, k, q);
    }
  }

  /** The cluster after an answered exchange that does not run out of range. */
  lemma ExchangeIs<V>(cfg: Config, c: Cluster<V>, l: NodeId, f: NodeId, req: AppendRequest<V>, s': NodeState<V>,
                      reply: AppendReply)
    requires cfg.mode.Literal? && l != f && Ticks(c, l) && Listens(c, f)
    requires BuildRequest(l, c.nodes[l], f) == Some(req) && AppendLiteral(f, c.nodes[f], req) == Replied(s', reply)
    ensures SendHeartbeat(cfg, c, l, f, Exchanged)
            == c.(sent := c.sent + [req],
                  nodes := c.nodes[f := s'][l := OnAppendReply(c.nodes[l], f, reply.success)])
    ensures SendHeartbeat(cfg, c, l, f, Dropped) == c.(sent := c.sent + [req])
  {
  }

  lemma ExchangeFollowers<V>(cfg: Config, nodes: map<NodeId, NodeState<V>>, l: NodeId, f: NodeId, s': NodeState<V>,
                             success: bool)
    requires nodes.Keys == cfg.members && l in nodes && FollowersOk(cfg, nodes, l) && f in nodes && f != l
    requires FollowerOk(OnAppendReply(nodes[l], f, success), f, s')
    ensures FollowersOk(cfg, nodes[f := s'][l := OnAppendReply(nodes[l], f, success)], l)
  {
    var nodes' := nodes[f := s'][l := OnAppendReply(nodes[l], f, success)];
    forall g | g in cfg.members && g != l ensures FollowerOk(nodes'[l], g, nodes'[g]) {
      if g != f {
        OtherFollower(nodes[l], nodes'[l], g, nodes[g]) by {
          assert FollowerOk(nodes[l], g, nodes[g]);
        }
      }
    }
  }

  lemma ReplyFine<V>(cfg: Config, l: NodeId, s: NodeState<V>, f: NodeId, success: bool)
    requires LeaderFine(cfg, l, s) && f in cfg.members && f != l
    ensures LeaderFine(cfg, l, OnAppendReply(s, f, success))
  {
  }

  lemma StableExchange<V>(cfg: Config, c: Cluster<V>, l: NodeId, f: NodeId, c': Cluster<V>,
                          s': NodeState<V>, success: bool)
    requires Stable(cfg, c, l) && f in cfg.members && f != l
    requires c' == c.(sent := c'.sent, nodes := c.nodes[f := s'][l := OnAppendReply(c.nodes[l], f, success)])
    requires FollowerOk(OnAppendReply(c.nodes[l], f, success), f, s') && c.nodes[f].log <= s'.log
    ensures Stable(cfg, c', l) && StepsOn(c, c', l)
  {
    ExchangeFollowers(cfg, c.nodes, l, f, s', success);
    ReplyFine(cfg, l, c.nodes[l], f, success);
    PairMoves(cfg, c, c', l);
  }

  lemma StableHeartbeat<V>(cfg: Config, c: Cluster<V>, l: NodeId, f: NodeId, delivery: Delivery)
    requires Stable(cfg, c, l) && f in PeersOf(cfg, l) && !delivery.Handled?
    ensures var c' := SendHeartbeat(cfg, c, l, f, delivery);
            Stable(cfg, c', l) && StepsOn(c, c', l)
  {
    PeerIsOther(cfg, l, f);
    assert FollowerOk(c.nodes[l], f, c.nodes[f]);
    StableHandling(l, c.nodes[l], f, c.nodes[f]);
    FollowerAfterExchange(l, c.nodes[l], f, c.nodes[f]);
    var req := BuildRequest(l, c.nodes[l], f).value;
    var out := AppendLiteral(f, c.nodes[f], req);
    ExchangeIs(cfg, c, l, f, req, out.state, out.reply);
    if delivery.Exchanged? {
      StableExchange(cfg, c, l, f, SendHeartbeat(cfg, c, l, f, delivery), out.state, out.reply.success);
    }
  }

  /** The leader stays leader in its term, and no node's log gets shorter. */
  ghost predicate StepsOn<V>(c: Cluster<V>, c': Cluster<V>, l: NodeId) {
    && l in c.nodes && l in c'.nodes
    && c.nodes[l].log <= c'.nodes[l].log && c'.nodes[l].term == c.nodes[l].term
  }

  /** Only the leader moves: its log grows, its books on the followers stay. */
  lemma LeaderMoves<V>(cfg: Config, c: Cluster<V>, l: NodeId, s': NodeState<V>)
    requires Stable(cfg, c, l) && LeaderFine(cfg, l, s')
    requires c.nodes[l].log <= s'.log && s'.term == c.nodes[l].term && c.nodes[l].commit <= s'.commit
    requires forall f :: f in cfg.members && f != l ==>
                           && (f in c.nodes[l].nextIndex ==>
                                 f in s'.nextIndex && s'.nextIndex[f] == c.nodes[l].nextIndex[f])
                           && (f in s'.matchIndex ==>
                                 f in c.nodes[l].matchIndex && s'.matchIndex[f] == c.nodes[l].matchIndex[f])
    requires s'.commit == c.nodes[l].commit || Backed(cfg, c.nodes, s'.commit)
    ensures Stable(cfg, c.(nodes := c.nodes[l := s']), l) && StepsOn(c, c.(nodes := c.nodes[l := s']), l)
  {
    var c' := c.(nodes := c.nodes[l := s']);
    forall f | f in cfg.members && f != l ensures FollowerOk(c'.nodes[l], f, c'.nodes[f]) {
      OtherFollower(c.nodes[l], s', f, c.nodes[f]) by {
        assert FollowerOk(c.nodes[l], f, c.nodes[f]);
      }
    }
    PairMoves(cfg, c, c', l);
  }

  lemma AppendFine<V>(cfg: Config, n: NodeId, s: NodeState<V>, value: V)
    requires LeaderFine(cfg, n, s)
    ensures LeaderFine(cfg, n, AppendEntry(s, value))
  {
    var s' := AppendEntry(s, value);
    assert s'.log[..s.commit] == s.log[..s.commit];
    forall i, j | 0 <= i <= j < |s'.log| ensures InOrder(s'.log, i, j) {
      if j < |s.log| {
        assert InOrder(s.log, i, j);
      } else if i < |s.log| {
        assert InOrder(s.log, i, |s.log| - 1);
      }
    }
  }

  lemma StableAppend<V>(cfg: Config, c: Cluster<V>, l: NodeId, value: V)
    requires Stable(cfg, c, l)
    ensures var c' := Apply(cfg, c, ClientAppend(l, value));
            Stable(cfg, c', l) && StepsOn(c, c', l)
  {
    AppendFine(cfg, l, c.nodes[l], value);
    LeaderMoves(cfg, c, l, AppendEntry(c.nodes[l], value));
  }

  lemma StableEndRound<V>(cfg: Config, c: Cluster<V>, l: NodeId)
    requires Stable(cfg, c, l)
    ensures var c' := Apply(cfg, c, EndRound(l));
            Stable(cfg, c', l) && StepsOn(c, c', l)
  {
    LeaderMoves(cfg, c, l, CloseRound(l, c.nodes[l]));
  }

  /** The index that the rule finds is within the log, and a quorum's logs have reached it. */
  lemma FrequentIsBacked<V>(cfg: Config, c: Cluster<V>, l: NodeId, v: nat)
    requires Stable(cfg, c, l) && Frequent(c.nodes[l].matchIndex, QuorumOf(cfg, l), v)
    ensures v <= |c.nodes[l].log| && Backed(cfg, c.nodes, v)
  {
    QuorumFits(cfg, l);
    var q := Holders(c.nodes[l].matchIndex, v);
    var x :| x in q;
    assert x != l ==> FollowerOk(c.nodes[l], x, c.nodes[x]);
    forall n | n in q ensures n in c.nodes && v <= |c.nodes[n].log| {
      assert n != l ==> FollowerOk(c.nodes[l], n, c.nodes[n]);
    }
    assert |c.nodes[x].log| <= |c.nodes[l].log|;
    assert HeldByQuorum(cfg, c.nodes, v, q);
  }

  lemma StableCommit<V>(cfg: Config, c: Cluster<V>, l: NodeId)
    requires Stable(cfg, c, l)
    ensures var c' := RunCommitRule(cfg, c, l);
            Stable(cfg, c', l) && StepsOn(c, c', l)
  {
    var s := c.nodes[l];
    var best := CommitCandidate(s.matchIndex, QuorumOf(cfg, l));
    if best.Some? {
      FrequentIsBacked(cfg, c, l, best.value);
    }
    var (s', ok) := CommitEntries(s, QuorumOf(cfg, l), false);
    assert s'.outbox == s.log[..s'.commit];
    LeaderMoves(cfg, c, l, s');
  }

  lemma TickIsNothing<V>(l: NodeState<V>, f: NodeId, s: NodeState<V>)
    requires FollowerOk(l, f, s)
    ensures FollowerOk(l.(heard := false), f, s) && FollowerOk(l, f, s.(heard := false))
  {
  }

  lemma FollowerTick<V>(cfg: Config, c: Cluster<V>, l: NodeId, n: NodeId)
    requires Stable(cfg, c, l) && n in cfg.members && n != l
    ensures var c' := c.(nodes := c.nodes[n := c.nodes[n].(heard := false)]);
            Stable(cfg, c', l) && StepsOn(c, c', l)
  {
    var c' := c.(nodes := c.nodes[n := c.nodes[n].(heard := false)]);
    forall g | g in cfg.members && g != l ensures FollowerOk(c'.nodes[l], g, c'.nodes[g]) {
      assert FollowerOk(c.nodes[l], g, c.nodes[g]);
      TickIsNothing(c.nodes[l], g, c.nodes[g]);
    }
    PairMoves(cfg, c, c', l);
  }

  lemma StableTick<V>(cfg: Config, c: Cluster<V>, l: NodeId, n: NodeId)
    requires Stable(cfg, c, l)
    ensures var c' := Apply(cfg, c, Tick(n));
            Stable(cfg, c', l) && StepsOn(c, c', l)
  {
    if n == l {
      LeaderMoves(cfg, c, l, c.nodes[l].(heard := false));
    } else if n in cfg.members {
      FollowerTick(cfg, c, l, n);
    }
  }

  lemma StableStep<V>(cfg: Config, c: Cluster<V>, l: NodeId, a: Action<V>)
    requires Stable(cfg, c, l) && StableAction(a)
    ensures var c' := Apply(cfg, c, a);
            Stable(cfg, c', l) && StepsOn(c, c', l)
  {
    match a {
      case ClientAppend(n, value) =>
        if n == l {
          StableAppend(cfg, c, l, value);
        } else if n in cfg.members {
          assert FollowerOk(c.nodes[l], n, c.nodes[n]);
          assert c.(nodes := c.nodes[n := c.nodes[n]]) == c;
        }
      case Heartbeat(n, f, delivery) =>
        if n == l {
          if f in PeersOf(cfg, l) { StableHeartbeat(cfg, c, l, f, delivery); }
        } else if n in cfg.members {
          assert FollowerOk(c.nodes[l], n, c.nodes[n]);
        }
      case EndRound(n) =>
        if n == l {
          StableEndRound(cfg, c, l);
        } else if n in cfg.members {
          assert FollowerOk(c.nodes[l], n, c.nodes[n]);
        }
      case CommitRule(n) =>
        if n == l {
          StableCommit(cfg, c, l);
        } else if n in cfg.members {
          assert FollowerOk(c.nodes[l], n, c.nodes[n]);
        }
      case Tick(n) => StableTick(cfg, c, l, n);
    }
  }

  // ---------------------------------------------------------------- runs

  /** Stable-leader replication: every state of the phase is stable. In particular each
      follower's log is an initial part of the leader's, its next index is beyond its
      log, its match index is within it, and no handler runs out of range. */
  lemma {:induction false} StableRun<V>(cfg: Config, run: seq<Cluster<V>>, schedule: seq<Action<V>>, l: NodeId,
                                        i: nat, j: nat)
    requires Run(cfg, run, schedule) && i <= j < |run| && StableBetween(schedule, i, j) && Stable(cfg, run[i], l)
    ensures Stable(cfg, run[j], l) && StepsOn(run[i], run[j], l)
    decreases j
  {
    if i < j {
      StableRun(cfg, run, schedule, l, i, j - 1);
      assert Step(cfg, run, schedule, j - 1);
      StableStep(cfg, run[j - 1], l, schedule[j - 1]);
    }
  }

  /** In the stable phase every node has delivered its log up to its commit index, and
      all that has been delivered anywhere, at any two moments, is comparable. */
  lemma StableDeliveries<V>(cfg: Config, run: seq<Cluster<V>>, schedule: seq<Action<V>>, l: NodeId,
                            i: nat, j: nat, a: NodeId, b: NodeId)
    requires Run(cfg, run, schedule) && i <= j < |run| && StableBetween(schedule, i, j) && Stable(cfg, run[i], l)
    requires a in cfg.members && b in cfg.members
    ensures a in run[i].nodes && Delivered(run[i].nodes[a]) && b in run[j].nodes && Delivered(run[j].nodes[b])
    ensures Comparable(run[i].nodes[a].outbox, run[j].nodes[b].outbox)
  {
    StableRun(cfg, run, schedule, l, i, j);
    assert a != l ==> FollowerOk(run[i].nodes[l], a, run[i].nodes[a]);
    assert b != l ==> FollowerOk(run[j].nodes[l], b, run[j].nodes[b]);
  }
}
