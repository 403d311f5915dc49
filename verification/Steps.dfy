/** Every step of the cluster with the intended handlers keeps the invariant, and the
    history only grows: each action is taken apart into the operations that it makes
    at the nodes concerned, and the lemmas about those operations are put together. */
module Steps {
  import opened Types
  import opened Handlers
  import opened Cluster
  import opened History
  import opened Invariant
  import opened Replication
  import opened Voting
  import opened Leading

  /** With the intended handlers, everything may happen, but a request may be handled
      late only if the splice keeps what does not conflict. With the source's append
      handler, only elections. */
  ghost predicate Admissible<V>(cfg: Config, a: Action<V>) {
    && (cfg.mode.Literal? ==> VoteAction(a))
    && (a.LateAppend? ==> cfg.mode == Intended(Merge))
  }

  ghost predicate AllAdmissible<V>(cfg: Config, schedule: seq<Action<V>>) {
    forall i :: 0 <= i < |schedule| ==> Admissible(cfg, schedule[i])
  }

  lemma NodesMove<V>(cfg: Config, nodes: map<NodeId, NodeState<V>>, h: History<V>, n: NodeId, s': NodeState<V>,
                     h': History<V>)
    requires HistoryOk(cfg, h) && NodesOk(cfg, nodes, h) && Extends(h, h')
    requires (forall m :: m != n ==> SameFor(m, h, h')) && NodeOk(cfg, n, s', h')
    ensures NodesOk(cfg, nodes[n := s'], h')
  {
    var nodes' := nodes[n := s'];
    forall m | m in nodes' ensures NodeOk(cfg, m, nodes'[m], h') {
      if m != n {
        assert NodeOk(cfg, m, nodes[m], h);
        BystanderOk(cfg, m, nodes[m], h, h');
      }
    }
  }

  /** One node moves, with the history facts that its move adds. */
  lemma NodeMoves<V>(cfg: Config, c: Cluster<V>, h: History<V>, n: NodeId, s': NodeState<V>,
                     polling': map<NodeId, seq<NodeId>>, h': History<V>)
    requires Inv(cfg, c, h) && n in c.nodes
    requires HistoryOk(cfg, h') && Extends(h, h') && (forall m :: m != n ==> SameFor(m, h, h'))
    requires NodeOk(cfg, n, s', h')
    requires polling'.Keys <= c.polling.Keys + {n}
    requires n in polling' ==> PollOk(cfg, n, s', polling'[n], h')
    requires forall m :: m in polling' && m != n ==>
                           polling'[m] == c.polling[m] && PollOk(cfg, m, c.nodes[m], c.polling[m], h')
    ensures Inv(cfg, c.(nodes := c.nodes[n := s'], polling := polling'), h')
  {
    NodesMove(cfg, c.nodes, h, n, s', h');
    forall i | 0 <= i < |c.sent| ensures GoodRequest(cfg, h', c.sent[i]) {
      RequestStaysGood(cfg, h, h', c.sent[i]);
    }
  }

  /** As above, for a node outside any election and facts that touch no other election. */
  lemma FreeNodeMoves<V>(cfg: Config, c: Cluster<V>, h: History<V>, n: NodeId, s': NodeState<V>, h': History<V>)
    requires Inv(cfg, c, h) && Free(c, n)
    requires HistoryOk(cfg, h') && Extends(h, h') && (forall m :: m != n ==> SameFor(m, h, h'))
    requires forall m, t :: m != n ==> SamePoll(m, t, h, h')
    requires NodeOk(cfg, n, s', h')
    ensures Inv(cfg, c.(nodes := c.nodes[n := s']), h')
  {
    OtherPollsStay(cfg, c, h, n, h');
    NodeMoves(cfg, c, h, n, s', c.polling, h');
    assert c.(nodes := c.nodes[n := s'], polling := c.polling) == c.(nodes := c.nodes[n := s']);
  }

  /** As above, for a node whose move concerns its own election. */
  lemma LoopNodeMoves<V>(cfg: Config, c: Cluster<V>, h: History<V>, n: NodeId, s': NodeState<V>,
                         polling': map<NodeId, seq<NodeId>>, h': History<V>)
    requires Inv(cfg, c, h) && n in c.nodes
    requires HistoryOk(cfg, h') && Extends(h, h') && (forall m :: m != n ==> SameFor(m, h, h'))
    requires forall m, t :: m != n ==> SamePoll(m, t, h, h')
    requires NodeOk(cfg, n, s', h')
    requires polling' == c.polling - {n} || (n in polling' && polling' == c.polling[n := polling'[n]])
    requires n in polling' ==> PollOk(cfg, n, s', polling'[n], h')
    ensures Inv(cfg, c.(nodes := c.nodes[n := s'], polling := polling'), h')
  {
    OtherPollsStay(cfg, c, h, n, h');
    NodeMoves(cfg, c, h, n, s', polling', h');
  }

  lemma OtherPollsStay<V>(cfg: Config, c: Cluster<V>, h: History<V>, n: NodeId, h': History<V>)
    requires Inv(cfg, c, h)
    requires forall m, t :: m != n ==> SamePoll(m, t, h, h')
    ensures forall m :: m in c.polling && m != n ==> PollOk(cfg, m, c.nodes[m], c.polling[m], h')
  {
    forall m | m in c.polling && m != n ensures PollOk(cfg, m, c.nodes[m], c.polling[m], h') {
      PollStays(cfg, m, c.nodes[m], c.polling[m], h, h');
    }
  }

  // ---------------------------------------------------------------- append entries

  /** A node handles a good request; if it accepts, it has acknowledged it. */
  lemma ReceiveKeeps<V>(cfg: Config, c: Cluster<V>, h: History<V>, f: NodeId, req: AppendRequest<V>)
    returns (h': History<V>)
    requires Inv(cfg, c, h) && Free(c, f)
    requires cfg.mode.Intended? && GoodRequest(cfg, h, req) && WholeIfReplacing(cfg.mode.rule, h, req)
    ensures Inv(cfg, Receive(cfg, c, f, req), h') && Extends(h, h')
    ensures Accepts(c.nodes[f], req) ==> Acked(h', f, req.term, req.prevIndex + |req.entries|)
    ensures forall m :: m != f && m in c.nodes ==> NodeOk(cfg, m, c.nodes[m], h')
  {
    var s := c.nodes[f];
    assert NodeOk(cfg, f, s, h);
    h' := h;
    if Accepts(s, req) {
      h' := AppendKeeps(cfg, h, cfg.mode.rule, f, s, req);
      FreeNodeMoves(cfg, c, h, f, Accepted(cfg.mode.rule, s, req), h');
    } else {
      FreeNodeMoves(cfg, c, h, f, s, h);
    }
    forall m | m != f && m in c.nodes ensures NodeOk(cfg, m, c.nodes[m], h') {
      assert NodeOk(cfg, m, c.nodes[m], h);
      BystanderOk(cfg, m, c.nodes[m], h, h');
    }
  }

  /** The leader hears a reply. */
  lemma ReplyStep<V>(cfg: Config, c: Cluster<V>, h: History<V>, l: NodeId, f: NodeId, success: bool)
    requires Inv(cfg, c, h) && Free(c, l) && c.nodes[l].role.Leader?
    requires success ==> Acked(h, f, c.nodes[l].term, |c.nodes[l].log|)
    ensures Inv(cfg, c.(nodes := c.nodes[l := OnAppendReply(c.nodes[l], f, success)]), h)
  {
    assert NodeOk(cfg, l, c.nodes[l], h);
    FreeNodeMoves(cfg, c, h, l, OnAppendReply(c.nodes[l], f, success), h);
  }

  /** The request arrives, and its reply comes back or not. */
  lemma ExchangeKeeps<V>(cfg: Config, c: Cluster<V>, h: History<V>, l: NodeId, f: NodeId, req: AppendRequest<V>,
                         answered: bool)
    returns (h': History<V>)
    requires cfg.mode.Intended? && Inv(cfg, c, h) && Free(c, l) && Free(c, f) && l != f && c.nodes[l].role.Leader?
    requires GoodRequest(cfg, h, req) && WholeIfReplacing(cfg.mode.rule, h, req) && req.term == c.nodes[l].term
    requires req.prevIndex + |req.entries| == |c.nodes[l].log|
    ensures Extends(h, h')
    ensures var c2 := Receive(cfg, c, f, req);
            Inv(cfg, if answered then c2.(nodes := c2.nodes[l := OnAppendReply(c.nodes[l], f, Accepts(c.nodes[f], req))]) else c2, h')
  {
    h' := ReceiveKeeps(cfg, c, h, f, req);
    if answered {
      ReplyStep(cfg, Receive(cfg, c, f, req), h', l, f, Accepts(c.nodes[f], req));
    }
  }

  lemma HeartbeatKeeps<V>(cfg: Config, c: Cluster<V>, h: History<V>, l: NodeId, f: NodeId, delivery: Delivery)
    returns (h': History<V>)
    requires cfg.mode.Intended? && Inv(cfg, c, h) && Free(c, l) && c.nodes[l].role.Leader? && f in PeersOf(cfg, l)
    ensures Inv(cfg, SendHeartbeat(cfg, c, l, f, delivery), h') && Extends(h, h')
  {
    assert NodeOk(cfg, l, c.nodes[l], h);
    BuiltRequestIsGood(cfg, h, l, c.nodes[l], f);
    var req := BuildRequest(l, c.nodes[l], f).value;
    var c1 := c.(sent := c.sent + [req]);
    assert Inv(cfg, c1, h);
    PeerIsOther(cfg, l, f);
    h' := h;
    if !delivery.Dropped? && Listens(c, f) {
      h' := ExchangeKeeps(cfg, c1, h, l, f, req, delivery.Exchanged?);
    }
  }

  // ---------------------------------------------------------------- elections

  lemma StandStep<V>(cfg: Config, c: Cluster<V>, h: History<V>, n: NodeId) returns (h': History<V>)
    requires Inv(cfg, c, h) && Free(c, n)
    ensures Extends(h, h')
    ensures var polling' := if PeersOf(cfg, n) == [] then c.polling else c.polling[n := PeersOf(cfg, n)];
            Inv(cfg, c.(nodes := c.nodes[n := Stand(n, c.nodes[n])], polling := polling'), h')
  {
    assert NodeOk(cfg, n, c.nodes[n], h);
    h' := StandKeeps(cfg, h, n, c.nodes[n]);
    var polling' := if PeersOf(cfg, n) == [] then c.polling else c.polling[n := PeersOf(cfg, n)];
    assert PeersOf(cfg, n) == [] ==> polling' == c.polling - {n};
    LoopNodeMoves(cfg, c, h, n, Stand(n, c.nodes[n]), polling', h');
  }

  lemma CandidacyKeeps<V>(cfg: Config, c: Cluster<V>, h: History<V>, n: NodeId) returns (h': History<V>)
    requires Inv(cfg, c, h) && Free(c, n) && !c.nodes[n].role.Leader? && !c.nodes[n].heard
    ensures Inv(cfg, Apply(cfg, c, Candidacy(n)), h') && Extends(h, h')
  {
    h' := StandStep(cfg, c, h, n);
  }

  /** The candidate's loop goes on, without a further vote or with one more. */
  lemma PollGoesOn<V>(cfg: Config, n: NodeId, s: NodeState<V>, rest: seq<NodeId>, h: History<V>)
    requires PollOk(cfg, n, s, rest, h) && rest[1..] != []
    ensures PollOk(cfg, n, s, rest[1..], h)
    ensures Counted(h, rest[0], s.term, n, s.log) ==>
              PollOk(cfg, n, s.(votes := s.votes + [rest[0]]), rest[1..], h)
  {
    assert rest[0] in rest;
  }

  /** A grant that is reported comes from the peer that was asked and has been recorded. */
  ghost predicate TruthfulEvent<V>(h: History<V>, n: NodeId, s: NodeState<V>, rest: seq<NodeId>, event: PollEvent)
    requires rest != []
  {
    event.Answered? && event.reply.granted ==> event.reply.node == rest[0] && Counted(h, rest[0], s.term, n, s.log)
  }

  /** The last vote needed, or one more. */
  lemma VoteCounts<V>(cfg: Config, h: History<V>, n: NodeId, s: NodeState<V>, rest: seq<NodeId>, reply: VoteReply)
    returns (h': History<V>)
    requires ValidConfig(cfg) && HistoryOk(cfg, h) && n in cfg.members
    requires NodeOk(cfg, n, s, h) && PollOk(cfg, n, s, rest, h) && TruthfulEvent(h, n, s, rest, Answered(reply))
    requires reply.granted || reply.term < s.term
    ensures var (s', done) := OnPoll(s, QuorumOf(cfg, n), PeersOf(cfg, n), Answered(reply));
            && HistoryOk(cfg, h') && Extends(h, h') && (forall m :: m != n ==> SameFor(m, h, h'))
            && (forall m, t :: m != n ==> SamePoll(m, t, h, h'))
            && NodeOk(cfg, n, s', h')
            && (!done && rest[1..] != [] ==> PollOk(cfg, n, s', rest[1..], h'))
  {
    QuorumFits(cfg, n);
    h' := h;
    var counted := Count(s, reply);
    if reply.granted {
      assert rest[0] in rest;
    }
    if |counted.votes| >= QuorumOf(cfg, n) {
      assert Elected(cfg, n, counted, h);
      h' := WinKeeps(cfg, h, n, counted);
    } else if rest[1..] != [] {
      PollGoesOn(cfg, n, s, rest, h);
    }
  }

  lemma TurnOfNode<V>(cfg: Config, h: History<V>, n: NodeId, s: NodeState<V>, rest: seq<NodeId>, event: PollEvent)
    returns (h': History<V>)
    requires ValidConfig(cfg) && HistoryOk(cfg, h) && n in cfg.members
    requires NodeOk(cfg, n, s, h) && PollOk(cfg, n, s, rest, h) && TruthfulEvent(h, n, s, rest, event)
    ensures var (s', done) := OnPoll(s, QuorumOf(cfg, n), PeersOf(cfg, n), event);
            && HistoryOk(cfg, h') && Extends(h, h') && (forall m :: m != n ==> SameFor(m, h, h'))
            && (forall m, t :: m != n ==> SamePoll(m, t, h, h'))
            && NodeOk(cfg, n, s', h')
            && (!done && rest[1..] != [] ==> PollOk(cfg, n, s', rest[1..], h'))
  {
    h' := h;
    match event {
      case TimedOut =>
        TermRises(cfg, n, s, Retire(s), h);
      case NoAnswer =>
        if rest[1..] != [] { PollGoesOn(cfg, n, s, rest, h); }
      case Answered(reply) =>
        if !reply.granted && reply.term >= s.term {
          h' := ReleaseKeeps(cfg, h, n, s, rest, reply.term);
        } else {
          h' := VoteCounts(cfg, h, n, s, rest, reply);
        }
    }
  }

  /** One turn of an election loop. */
  lemma TurnKeeps<V>(cfg: Config, c: Cluster<V>, h: History<V>, n: NodeId, event: PollEvent) returns (h': History<V>)
    requires Inv(cfg, c, h) && n in c.polling
    requires c.polling[n] != [] && TruthfulEvent(h, n, c.nodes[n], c.polling[n], event)
    ensures Inv(cfg, TakeTurn(cfg, c, n, event), h') && Extends(h, h')
  {
    var s, rest := c.nodes[n], c.polling[n];
    assert NodeOk(cfg, n, s, h) && PollOk(cfg, n, s, rest, h);
    var (s', done) := OnPoll(s, QuorumOf(cfg, n), PeersOf(cfg, n), event);
    h' := TurnOfNode(cfg, h, n, s, rest, event);
    LoopNodeMoves(cfg, c, h, n, s', StopPolling(c.polling, n, rest[1..], done), h');
  }

  /** The next peer grants its vote, which is counted. */
  lemma GrantStep<V>(cfg: Config, c: Cluster<V>, h: History<V>, n: NodeId, v: NodeId) returns (h': History<V>)
    requires Inv(cfg, c, h) && n in c.polling && c.polling[n] != [] && v == c.polling[n][0] && v != n && Free(c, v)
    requires Grants(c.nodes[v], Ballot(n, c.nodes[n]))
    ensures Inv(cfg, c.(nodes := c.nodes[v := Granted(c.nodes[v], Ballot(n, c.nodes[n]))]), h') && Extends(h, h')
    ensures Counted(h', v, c.nodes[n].term, n, c.nodes[n].log)
  {
    var s, req := c.nodes[v], Ballot(n, c.nodes[n]);
    assert PollOk(cfg, n, c.nodes[n], c.polling[n], h) && NodeOk(cfg, v, s, h) && v in c.polling[n];
    h' := GrantKeeps(cfg, h, v, s, n, c.nodes[n], c.polling[n]);
    OtherPollsStay(cfg, c, h, n, h');
    NodeMoves(cfg, c, h, v, Granted(s, req), c.polling, h');
    assert c.(nodes := c.nodes[v := Granted(s, req)], polling := c.polling) == c.(nodes := c.nodes[v := Granted(s, req)]);
  }

  lemma AskKeeps<V>(cfg: Config, c: Cluster<V>, h: History<V>, n: NodeId, delivery: Delivery) returns (h': History<V>)
    requires Inv(cfg, c, h) && n in c.polling && c.polling[n] != []
    ensures Inv(cfg, AskNext(cfg, c, n, delivery), h') && Extends(h, h')
  {
    var v, req := c.polling[n][0], Ballot(n, c.nodes[n]);
    var c1 := c.(ballots := c.ballots + [req]);
    assert Inv(cfg, c1, h);
    if delivery.Dropped? || !Listens(c, v) {
      h' := TurnKeeps(cfg, c1, h, n, NoAnswer);
    } else {
      assert PollOk(cfg, n, c.nodes[n], c.polling[n], h) && v in c.polling[n];
      PeerIsOther(cfg, n, v);
      var s := c.nodes[v];
      var c2 := c1.(nodes := c1.nodes[v := RequestVote(s, req)]);
      if delivery.Exchanged? && Grants(s, req) {
        var h1 := GrantStep(cfg, c1, h, n, v);
        h' := TurnKeeps(cfg, c2, h1, n, Answered(VoteAnswer(v, s, req)));
      } else {
        LateVoteStep(cfg, c1, h, v, req);
        h' := TurnKeeps(cfg, c2, h, n,
                        if delivery.Exchanged? then Answered(VoteAnswer(v, s, req)) else NoAnswer);
      }
    }
  }

  // ---------------------------------------------------------------- all steps

  lemma ClientAppendStep<V>(cfg: Config, c: Cluster<V>, h: History<V>, n: NodeId, value: V) returns (h': History<V>)
    requires Inv(cfg, c, h) && Free(c, n)
    ensures Inv(cfg, c.(nodes := c.nodes[n := AppendEntry(c.nodes[n], value)]), h') && Extends(h, h')
  {
    h' := h;
    assert NodeOk(cfg, n, c.nodes[n], h);
    if c.nodes[n].role.Leader? {
      h' := ClientAppendKeeps(cfg, h, n, c.nodes[n], value);
    }
    FreeNodeMoves(cfg, c, h, n, AppendEntry(c.nodes[n], value), h');
  }

  lemma EndRoundStep<V>(cfg: Config, c: Cluster<V>, h: History<V>, l: NodeId) returns (h': History<V>)
    requires Inv(cfg, c, h) && Free(c, l) && c.nodes[l].role.Leader?
    ensures Inv(cfg, c.(nodes := c.nodes[l := CloseRound(l, c.nodes[l])]), h') && Extends(h, h')
  {
    assert NodeOk(cfg, l, c.nodes[l], h);
    h' := EndRoundKeeps(cfg, h, l, c.nodes[l]);
    FreeNodeMoves(cfg, c, h, l, CloseRound(l, c.nodes[l]), h');
  }

  lemma CommitStep<V>(cfg: Config, c: Cluster<V>, h: History<V>, n: NodeId)
    requires cfg.mode.Intended? && Inv(cfg, c, h) && Free(c, n) && c.nodes[n].role.Leader?
    ensures Inv(cfg, RunCommitRule(cfg, c, n), h)
  {
    assert NodeOk(cfg, n, c.nodes[n], h);
    QuorumFits(cfg, n);
    CommitKeeps(cfg, h, n, c.nodes[n]);
    FreeNodeMoves(cfg, c, h, n, CommitEntries(c.nodes[n], QuorumOf(cfg, n), true).0, h);
  }

  lemma LateVoteStep<V>(cfg: Config, c: Cluster<V>, h: History<V>, v: NodeId, req: VoteRequest)
    requires Inv(cfg, c, h) && Free(c, v)
    ensures Inv(cfg, c.(nodes := c.nodes[v := RequestVote(c.nodes[v], req)]), h)
  {
    assert NodeOk(cfg, v, c.nodes[v], h);
    FreeNodeMoves(cfg, c, h, v, RequestVote(c.nodes[v], req), h);
  }

  lemma TickStep<V>(cfg: Config, c: Cluster<V>, h: History<V>, n: NodeId)
    requires Inv(cfg, c, h) && Free(c, n)
    ensures Inv(cfg, c.(nodes := c.nodes[n := c.nodes[n].(heard := false)]), h)
  {
    assert NodeOk(cfg, n, c.nodes[n], h);
    FreeNodeMoves(cfg, c, h, n, c.nodes[n].(heard := false), h);
  }

  /** The steps of a leader and of its clients. */
  lemma LeaderStepKeeps<V>(cfg: Config, c: Cluster<V>, h: History<V>, a: Action<V>) returns (h': History<V>)
    requires cfg.mode.Intended? && Inv(cfg, c, h) && Apply(cfg, c, a) != c
    requires a.ClientAppend? || a.Heartbeat? || a.EndRound? || a.CommitRule?
    ensures Inv(cfg, Apply(cfg, c, a), h') && Extends(h, h')
  {
    h' := h;
    match a {
      case ClientAppend(n, value) => h' := ClientAppendStep(cfg, c, h, n, value);
      case Heartbeat(l, f, delivery) => h' := HeartbeatKeeps(cfg, c, h, l, f, delivery);
      case EndRound(l) => h' := EndRoundStep(cfg, c, h, l);
      case CommitRule(n) => CommitStep(cfg, c, h, n);
    }
  }

  lemma StepKeeps<V>(cfg: Config, c: Cluster<V>, h: History<V>, a: Action<V>) returns (h': History<V>)
    requires Inv(cfg, c, h) && Admissible(cfg, a)
    ensures Inv(cfg, Apply(cfg, c, a), h') && Extends(h, h')
  {
    h' := h;
    if Apply(cfg, c, a) != c {
      match a {
        case Candidacy(n) => h' := CandidacyKeeps(cfg, c, h, n);
        case Poll(n, delivery) => h' := AskKeeps(cfg, c, h, n, delivery);
        case PollTimeout(n) => h' := TurnKeeps(cfg, c, h, n, TimedOut);
        case LateAppend(f, i) => h' := ReceiveKeeps(cfg, c, h, f, c.sent[i]);
        case LateVote(v, i) => LateVoteStep(cfg, c, h, v, c.ballots[i]);
        case Tick(n) => TickStep(cfg, c, h, n);
        case _ => h' := LeaderStepKeeps(cfg, c, h, a);
      }
    }
  }

  /** The invariant over a whole run, with a history that only grows. */
  lemma {:induction false} RunKeeps<V>(cfg: Config, run: seq<Cluster<V>>, schedule: seq<Action<V>>, i: nat,
                                       h: History<V>, j: nat)
    returns (h': History<V>)
    requires Run(cfg, run, schedule) && AllAdmissible(cfg, schedule)
    requires i <= j < |run| && Inv(cfg, run[i], h)
    ensures Inv(cfg, run[j], h') && Extends(h, h')
    decreases j
  {
    if i == j {
      h' := h;
    } else {
      var h1 := RunKeeps(cfg, run, schedule, i, h, j - 1);
      assert Step(cfg, run, schedule, j - 1);
      h' := StepKeeps(cfg, run[j - 1], h1, schedule[j - 1]);
    }
  }
}
