/** The source as it is written, over any number of terms: as long as a request that is
    taken is not stale and begins where the log ends, no log is ever cut, and then
    deliveries agree although the commit rule does not look at terms. */
module AppendOnly {
  import opened Types
  import opened Quorum
  import opened Handlers
  import opened Cluster
  import opened Moves
  import opened Progress
  import opened Elections
  import opened Safety
  import opened StablePhase
  import opened HandlerLaws

  // ---------------------------------------------------------------- the test

  /** If the source's handler takes the request, it is not stale and begins where the log ends. */
  predicate TakesAtEnd<V>(s: NodeState<V>, req: AppendRequest<V>) {
    LiteralAccepts(s, req) && !(req.term < s.term && s.role.Leader?) ==>
      req.term >= s.term && req.prevIndex == |s.log|
  }

  /** The test on the state before a step. */
  ghost predicate Fits<V>(cfg: Config, c: Cluster<V>, a: Action<V>) {
    Arriving(cfg, c, a).Some? ==> TakesAtEnd(c.nodes[Arriving(cfg, c, a).value.0], Arriving(cfg, c, a).value.1)
  }

  ghost predicate FittingRun<V>(cfg: Config, run: seq<Cluster<V>>, schedule: seq<Action<V>>) {
    && Run(cfg, run, schedule) && Initial(cfg, run[0]) && cfg.mode.Literal?
    && forall i {:trigger Fits(cfg, run[i], schedule[i])} :: 0 <= i < |schedule| ==> Fits(cfg, run[i], schedule[i])
  }

  ghost predicate FittingMove<V>(s: NodeState<V>, move: Move<V>) {
    move.Takes? ==> TakesAtEnd(s, move.request)
  }

  lemma MoveAt<V>(cfg: Config, run: seq<Cluster<V>>, schedule: seq<Action<V>>, i: nat, n: NodeId) returns (move: Move<V>)
    requires FittingRun(cfg, run, schedule) && i < |schedule| && n in cfg.members
    ensures run[i].nodes.Keys == run[i + 1].nodes.Keys == cfg.members
    ensures MovesBy(cfg, run[i], schedule[i], run[i + 1], n, move) && FittingMove(run[i].nodes[n], move)
  {
    NodesAreMembers(cfg, run, schedule, i);
    assert Step(cfg, run, schedule, i) && Fits(cfg, run[i], schedule[i]);
    move := MoveOf(cfg, run[i], schedule[i], n);
  }

  // ---------------------------------------------------------------- terms and logs

  lemma LiteralTaken<V>(n: NodeId, s: NodeState<V>, req: AppendRequest<V>)
    requires TakesAtEnd(s, req)
    ensures var out := AppendLiteral(n, s, req);
            && out.state.term >= s.term
            && (out.state == s
                || (LiteralAccepts(s, req) && req.prevIndex == |s.log| && out.state.log == s.log + req.entries
                    && out.state.role.Follower?))
            && (out.Replied? && out.reply.success ==>
                  LiteralAccepts(s, req) && req.prevIndex == |s.log| && out.state.log == s.log + req.entries)
  {
  }

  /** What an operation does to term and log. */
  ghost predicate GrowsBy<V>(s: NodeState<V>, s': NodeState<V>, move: Move<V>) {
    && s.term <= s'.term
    && (s'.log == s.log
        || (move.Appends? && s.role.Leader? && s' == s.(log := s.log + [Entry(move.value, s.term)]))
        || (move.Takes? && LiteralAccepts(s, move.request) && move.request.prevIndex == |s.log|
            && s'.log == s.log + move.request.entries))
  }

  lemma MoveGrows<V>(cfg: Config, n: NodeId, s: NodeState<V>, move: Move<V>)
    requires cfg.mode.Literal? && FittingMove(s, move)
    ensures GrowsBy(s, Moved(cfg, n, s, move), move)
  {
    match move {
      case Takes(req) => LiteralTaken(n, s, req);
      case Commits => DeliveryKeepsLog(s, QuorumOf(cfg, n), false);
      case _ =>
    }
  }

  /** The test keeps terms from falling, so there is one leader a term. */
  lemma FittingTermsRise<V>(cfg: Config, run: seq<Cluster<V>>, schedule: seq<Action<V>>)
    requires FittingRun(cfg, run, schedule)
    ensures NoTermFalls(run)
  {
    forall i | 0 <= i < |run| - 1 ensures TermsRise(run[i], run[i + 1]) {
      NodesAreMembers(cfg, run, schedule, i);
      forall n | n in run[i].nodes && n in run[i + 1].nodes ensures run[i].nodes[n].term <= run[i + 1].nodes[n].term {
        var move := MoveAt(cfg, run, schedule, i, n);
        MoveGrows(cfg, n, run[i].nodes[n], move);
      }
    }
  }

  lemma LogGrows<V>(cfg: Config, run: seq<Cluster<V>>, schedule: seq<Action<V>>, i: nat, n: NodeId)
    requires FittingRun(cfg, run, schedule) && i < |schedule| && n in cfg.members
    ensures n in run[i].nodes && n in run[i + 1].nodes && Prefix(run[i].nodes[n].log, run[i + 1].nodes[n].log)
  {
    var move := MoveAt(cfg, run, schedule, i, n);
    MoveGrows(cfg, n, run[i].nodes[n], move);
  }

  /** No log is ever cut. */
  lemma {:induction false} LogsGrow<V>(cfg: Config, run: seq<Cluster<V>>, schedule: seq<Action<V>>, i: nat, j: nat,
                                       n: NodeId)
    requires FittingRun(cfg, run, schedule) && i <= j < |run| && n in cfg.members
    ensures n in run[i].nodes && n in run[j].nodes && Prefix(run[i].nodes[n].log, run[j].nodes[n].log)
    decreases j - i
  {
    NodesAreMembers(cfg, run, schedule, i);
    if i < j {
      LogGrows(cfg, run, schedule, i, n);
      LogsGrow(cfg, run, schedule, i + 1, j, n);
    }
  }

  // ---------------------------------------------------------------- requests

  /** The request is the suffix of the log of `s` after its previous position. */
  ghost predicate SuffixOf<V>(s: NodeState<V>, req: AppendRequest<V>) {
    && req.term == s.term && req.prevIndex <= |s.log| && req.entries == s.log[req.prevIndex..]
    && req.prevTerm == LastTerm(s.log[..req.prevIndex]) && req.leaderCommit == s.commit
  }

  /** Node l, which led at moment m, sent the request then. */
  ghost predicate SentBy<V>(run: seq<Cluster<V>>, m: nat, l: NodeId, req: AppendRequest<V>) {
    m < |run| && Leads(run[m], l) && SuffixOf(run[m].nodes[l], req)
  }

  ghost predicate SentUpTo<V>(run: seq<Cluster<V>>, i: nat, req: AppendRequest<V>) {
    exists m: nat, l: NodeId :: m <= i && SentBy(run, m, l, req)
  }

  lemma OthersSendNothing<V>(cfg: Config, c: Cluster<V>, a: Action<V>)
    requires !a.Heartbeat?
    ensures Apply(cfg, c, a).sent == c.sent
  {
  }

  /** What a heartbeat adds to the requests is what the leader builds. */
  lemma HeartbeatSends<V>(cfg: Config, c: Cluster<V>, l: NodeId, f: NodeId, delivery: Delivery)
    ensures var c' := Apply(cfg, c, Heartbeat(l, f, delivery));
            || c'.sent == c.sent
            || (Leads(c, l) && f in PeersOf(cfg, l)
                && BuildRequest(l, c.nodes[l], f).Some? && c'.sent == c.sent + [BuildRequest(l, c.nodes[l], f).value])
  {
  }

  lemma BuiltIsSent<V>(cfg: Config, run: seq<Cluster<V>>, schedule: seq<Action<V>>, i: nat, l: NodeId, f: NodeId)
    requires Run(cfg, run, schedule) && Initial(cfg, run[0]) && i < |run| && Leads(run[i], l) && f in PeersOf(cfg, l)
    ensures BuildRequest(l, run[i].nodes[l], f).Some?
    ensures SentUpTo(run, i, BuildRequest(l, run[i].nodes[l], f).value)
  {
    NodesAreMembers(cfg, run, schedule, i);
    LeaderRequestsAreWhole(cfg, run, schedule, i, l, f);
    assert SentBy(run, i, l, BuildRequest(l, run[i].nodes[l], f).value);
  }

  lemma {:induction false} RequestsAreSent<V>(cfg: Config, run: seq<Cluster<V>>, schedule: seq<Action<V>>, i: nat, k: nat)
    requires Run(cfg, run, schedule) && Initial(cfg, run[0]) && i < |run| && k < |run[i].sent|
    ensures SentUpTo(run, i, run[i].sent[k])
    decreases i
  {
    if i > 0 {
      assert Step(cfg, run, schedule, i - 1);
      var c, a := run[i - 1], schedule[i - 1];
      if a.Heartbeat? {
        HeartbeatSends(cfg, c, a.leader, a.peer, a.delivery);
      } else {
        OthersSendNothing(cfg, c, a);
      }
      if k < |c.sent| {
        RequestsAreSent(cfg, run, schedule, i - 1, k);
      } else {
        BuiltIsSent(cfg, run, schedule, i - 1, a.leader, a.peer);
      }
    }
  }

  /** Every request that arrives was sent by a leader, now or before. */
  lemma ArrivingIsSent<V>(cfg: Config, run: seq<Cluster<V>>, schedule: seq<Action<V>>, i: nat)
    requires Run(cfg, run, schedule) && Initial(cfg, run[0]) && i < |schedule|
    requires Arriving(cfg, run[i], schedule[i]).Some?
    ensures SentUpTo(run, i, Arriving(cfg, run[i], schedule[i]).value.1)
  {
    var a := schedule[i];
    if a.Heartbeat? {
      BuiltIsSent(cfg, run, schedule, i, a.leader, a.peer);
    } else {
      RequestsAreSent(cfg, run, schedule, i, a.message);
    }
  }

  // ---------------------------------------------------------------- log matching

  /** At moment m node l led in the term of the entry at x, and had the log up to it. */
  ghost predicate LedWith<V>(run: seq<Cluster<V>>, m: nat, l: NodeId, log: Log<V>, x: nat)
    requires x < |log|
  {
    && m < |run| && Leads(run[m], l) && run[m].nodes[l].term == log[x].term
    && x < |run[m].nodes[l].log| && run[m].nodes[l].log[..x + 1] == log[..x + 1]
  }

  ghost predicate OriginOf<V>(run: seq<Cluster<V>>, i: nat, log: Log<V>, x: nat)
    requires x < |log|
  {
    exists m: nat, l: NodeId :: m <= i && LedWith(run, m, l, log, x)
  }

  /** Every entry comes, with all before it, from a leader of its term. */
  ghost predicate Descends<V>(run: seq<Cluster<V>>, i: nat, log: Log<V>) {
    forall x {:trigger OriginOf(run, i, log, x)} :: 0 <= x < |log| ==> OriginOf(run, i, log, x)
  }

  lemma DescendsLater<V>(run: seq<Cluster<V>>, i: nat, j: nat, log: Log<V>)
    requires Descends(run, i, log) && i <= j
    ensures Descends(run, j, log)
  {
    forall x | 0 <= x < |log| ensures OriginOf(run, j, log, x) {
      assert OriginOf(run, i, log, x);
    }
  }

  lemma SameLeaderSameLog<V>(cfg: Config, run: seq<Cluster<V>>, schedule: seq<Action<V>>, m: nat, k: nat, l: NodeId, x: nat)
    requires FittingRun(cfg, run, schedule) && m < |run| && k < |run| && Leads(run[m], l) && Leads(run[k], l)
    requires x < |run[m].nodes[l].log| && x < |run[k].nodes[l].log|
    ensures run[m].nodes[l].log[..x + 1] == run[k].nodes[l].log[..x + 1]
  {
    NodesAreMembers(cfg, run, schedule, m);
    if m <= k {
      LogsGrow(cfg, run, schedule, m, k, l);
    } else {
      LogsGrow(cfg, run, schedule, k, m, l);
    }
  }

  lemma SameTermSameLog<V>(cfg: Config, run: seq<Cluster<V>>, schedule: seq<Action<V>>, i: nat, a: Log<V>, b: Log<V>, x: nat)
    requires FittingRun(cfg, run, schedule) && Descends(run, i, a) && Descends(run, i, b)
    requires x < |a| && x < |b| && a[x].term == b[x].term
    ensures a[..x + 1] == b[..x + 1]
  {
    assert OriginOf(run, i, a, x) && OriginOf(run, i, b, x);
    var m: nat, l: NodeId :| m <= i && LedWith(run, m, l, a, x);
    var k: nat, o: NodeId :| k <= i && LedWith(run, k, o, b, x);
    FittingTermsRise(cfg, run, schedule);
    OneLeaderPerTerm(cfg, run, schedule, m, k, l, o);
    SameLeaderSameLog(cfg, run, schedule, m, k, l, x);
  }

  lemma AppendDescends<V>(run: seq<Cluster<V>>, i: nat, n: NodeId, log: Log<V>)
    requires i + 1 < |run| && Leads(run[i + 1], n) && log != [] && run[i + 1].nodes[n].log == log
    requires log[|log| - 1].term == run[i + 1].nodes[n].term && Descends(run, i, log[..|log| - 1])
    ensures Descends(run, i + 1, log)
  {
    var init, j := log[..|log| - 1], i + 1;
    forall x | 0 <= x < |log| ensures OriginOf(run, j, log, x) {
      if x < |init| {
        assert OriginOf(run, i, init, x);
        var m: nat, l: NodeId :| m <= i && LedWith(run, m, l, init, x);
        assert init[..x + 1] == log[..x + 1];
        assert LedWith(run, m, l, log, x);
      } else {
        assert LedWith(run, j, n, log, x);
      }
    }
  }

  /** A request that is taken makes the log that of its sender when it was sent. */
  lemma TakenIsWhole<V>(cfg: Config, run: seq<Cluster<V>>, schedule: seq<Action<V>>, i: nat, m: nat, l: NodeId,
                        s: NodeState<V>, req: AppendRequest<V>)
    requires FittingRun(cfg, run, schedule) && SentBy(run, m, l, req) && m <= i
    requires Descends(run, i, s.log) && Descends(run, m, run[m].nodes[l].log)
    requires LiteralAccepts(s, req) && req.prevIndex == |s.log|
    ensures s.log + req.entries == run[m].nodes[l].log
  {
    var log := run[m].nodes[l].log;
    DescendsLater(run, m, i, log);
    if req.prevIndex > 0 {
      assert log[..req.prevIndex][req.prevIndex - 1] == log[req.prevIndex - 1];
      SameTermSameLog(cfg, run, schedule, i, s.log, log, req.prevIndex - 1);
      assert s.log[..req.prevIndex] == s.log;
    }
    assert log[..req.prevIndex] + log[req.prevIndex..] == log;
  }

  /** The log after a step descends from leaders if those before it do. */
  lemma DescendsNext<V>(cfg: Config, run: seq<Cluster<V>>, schedule: seq<Action<V>>, i: nat, n: NodeId, move: Move<V>,
                        m: nat, l: NodeId)
    requires FittingRun(cfg, run, schedule) && i < |schedule| && n in run[i].nodes && n in run[i + 1].nodes
    requires Descends(run, i, run[i].nodes[n].log)
    requires run[i + 1].nodes[n] == Moved(cfg, n, run[i].nodes[n], move) && GrowsBy(run[i].nodes[n], run[i + 1].nodes[n], move)
    requires move.Takes? ==> m <= i && SentBy(run, m, l, move.request) && Descends(run, m, run[m].nodes[l].log)
    ensures Descends(run, i + 1, run[i + 1].nodes[n].log)
  {
    var s, log := run[i].nodes[n], run[i + 1].nodes[n].log;
    if log == s.log {
      DescendsLater(run, i, i + 1, s.log);
    } else if move.Appends? {
      assert log[..|s.log|] == s.log;
      AppendDescends(run, i, n, log);
    } else {
      TakenIsWhole(cfg, run, schedule, i, m, l, s, move.request);
      DescendsLater(run, m, i + 1, run[m].nodes[l].log);
    }
  }

  lemma SenderOf<V>(cfg: Config, run: seq<Cluster<V>>, schedule: seq<Action<V>>, i: nat, n: NodeId, req: AppendRequest<V>)
    returns (m: nat, l: NodeId)
    requires Run(cfg, run, schedule) && Initial(cfg, run[0]) && i < |schedule|
    requires Arriving(cfg, run[i], schedule[i]) == Some((n, req))
    ensures m <= i && l in cfg.members && SentBy(run, m, l, req)
  {
    ArrivingIsSent(cfg, run, schedule, i);
    m, l :| m <= i && SentBy(run, m, l, req);
    NodesAreMembers(cfg, run, schedule, m);
  }

  lemma NothingAtFirst<V>(cfg: Config, c: Cluster<V>, n: NodeId)
    requires Initial(cfg, c) && n in c.nodes
    ensures c.nodes[n].log == [] && c.nodes[n].outbox == [] && c.nodes[n].commit == 0 && !c.nodes[n].role.Leader?
  {
    assert FreshNode(cfg, n, c.nodes[n]);
  }

  ghost predicate DescendsAt<V>(run: seq<Cluster<V>>, m: nat, n: NodeId) {
    m < |run| && n in run[m].nodes && Descends(run, m, run[m].nodes[n].log)
  }

  ghost predicate AllDescend<V>(cfg: Config, run: seq<Cluster<V>>, i: nat) {
    forall m: nat, n: NodeId {:trigger DescendsAt(run, m, n)} :: m <= i && n in cfg.members ==> DescendsAt(run, m, n)
  }

  lemma DescendsStep<V>(cfg: Config, run: seq<Cluster<V>>, schedule: seq<Action<V>>, i: nat, n: NodeId)
    requires FittingRun(cfg, run, schedule) && i < |schedule| && n in cfg.members && AllDescend(cfg, run, i)
    ensures DescendsAt(run, i + 1, n)
  {
    assert DescendsAt(run, i, n);
    var move := MoveAt(cfg, run, schedule, i, n);
    var m, l := 0, n;
    if move.Takes? {
      m, l := SenderOf(cfg, run, schedule, i, n, move.request);
      assert DescendsAt(run, m, l);
    }
    MoveGrows(cfg, n, run[i].nodes[n], move);
    DescendsNext(cfg, run, schedule, i, n, move, m, l);
  }

  lemma {:induction false} EveryLogDescends<V>(cfg: Config, run: seq<Cluster<V>>, schedule: seq<Action<V>>, i: nat)
    requires FittingRun(cfg, run, schedule) && i < |run|
    ensures AllDescend(cfg, run, i)
  {
    if i > 0 {
      EveryLogDescends(cfg, run, schedule, i - 1);
    }
    forall m: nat, n: NodeId | m <= i && n in cfg.members ensures DescendsAt(run, m, n) {
      if m == 0 {
        NothingAtFirst(cfg, run[0], n);
      } else if m == i {
        DescendsStep(cfg, run, schedule, i - 1, n);
      }
    }
  }

  lemma LogsDescend<V>(cfg: Config, run: seq<Cluster<V>>, schedule: seq<Action<V>>, i: nat, n: NodeId)
    requires FittingRun(cfg, run, schedule) && i < |run| && n in cfg.members
    ensures n in run[i].nodes && Descends(run, i, run[i].nodes[n].log)
  {
    EveryLogDescends(cfg, run, schedule, i);
    assert DescendsAt(run, i, n);
  }

  /** Log Matching for the source as written. */
  lemma SourceLogMatching<V>(cfg: Config, run: seq<Cluster<V>>, schedule: seq<Action<V>>, i: nat, j: nat, a: NodeId,
                             b: NodeId, x: nat)
    requires FittingRun(cfg, run, schedule) && i < |run| && j < |run| && a in run[i].nodes && b in run[j].nodes
    requires x < |run[i].nodes[a].log| && x < |run[j].nodes[b].log|
    requires run[i].nodes[a].log[x].term == run[j].nodes[b].log[x].term
    ensures run[i].nodes[a].log[..x + 1] == run[j].nodes[b].log[..x + 1]
  {
    NodesAreMembers(cfg, run, schedule, i);
    NodesAreMembers(cfg, run, schedule, j);
    LogsDescend(cfg, run, schedule, i, a);
    LogsDescend(cfg, run, schedule, j, b);
    var k := if i <= j then j else i;
    DescendsLater(run, i, k, run[i].nodes[a].log);
    DescendsLater(run, j, k, run[j].nodes[b].log);
    SameTermSameLog(cfg, run, schedule, k, run[i].nodes[a].log, run[j].nodes[b].log, x);
  }

  /** A request that is taken comes from a leader whose whole log the node then has. */
  lemma TakenFrom<V>(cfg: Config, run: seq<Cluster<V>>, schedule: seq<Action<V>>, i: nat, n: NodeId, req: AppendRequest<V>)
    returns (m: nat, l: NodeId)
    requires FittingRun(cfg, run, schedule) && i < |schedule| && n in cfg.members
    requires Arriving(cfg, run[i], schedule[i]) == Some((n, req))
    ensures n in run[i].nodes && m <= i && l in cfg.members && SentBy(run, m, l, req)
    ensures LiteralAccepts(run[i].nodes[n], req) && req.prevIndex == |run[i].nodes[n].log| ==>
              run[i].nodes[n].log + req.entries == run[m].nodes[l].log
  {
    m, l := SenderOf(cfg, run, schedule, i, n, req);
    LogsDescend(cfg, run, schedule, i, n);
    LogsDescend(cfg, run, schedule, m, l);
    if LiteralAccepts(run[i].nodes[n], req) && req.prevIndex == |run[i].nodes[n].log| {
      TakenIsWhole(cfg, run, schedule, i, m, l, run[i].nodes[n], req);
    }
  }

  // ---------------------------------------------------------------- books

  /** What leader l counts as matching at p is in the log of p. */
  ghost predicate MatchHeld<V>(cfg: Config, c: Cluster<V>, l: NodeId, p: NodeId)
    requires l in c.nodes && p in c.nodes[l].matchIndex
  {
    var s := c.nodes[l];
    && p in cfg.members && p in c.nodes && s.matchIndex[p] <= |s.log|
    && Prefix(s.log[..s.matchIndex[p]], c.nodes[p].log)
  }

  ghost predicate BooksHeld<V>(cfg: Config, c: Cluster<V>, l: NodeId)
    requires l in c.nodes
  {
    c.nodes[l].role.Leader? ==>
      forall p {:trigger MatchHeld(cfg, c, l, p)} :: p in c.nodes[l].matchIndex ==> MatchHeld(cfg, c, l, p)
  }

  lemma WinResets<V>(s: NodeState<V>, quorum: int, peers: seq<NodeId>, event: PollEvent)
    requires !s.role.Leader? && OnPoll(s, quorum, peers, event).0.role.Leader?
    ensures var s' := OnPoll(s, quorum, peers, event).0;
            forall p :: p in s'.matchIndex ==> p in peers && s'.matchIndex[p] == 0
  {
  }

  /** A match index that a move leaves alone. */
  ghost predicate MatchStays<V>(s: NodeState<V>, s': NodeState<V>, p: NodeId)
    requires p in s'.matchIndex
  {
    p in s.matchIndex && s'.matchIndex[p] == s.matchIndex[p] && s.role.Leader?
  }

  lemma MatchMoves<V>(cfg: Config, n: NodeId, s: NodeState<V>, move: Move<V>, p: NodeId)
    requires cfg.mode.Literal? && !move.Turns? && Moved(cfg, n, s, move).role.Leader? && p in Moved(cfg, n, s, move).matchIndex
    ensures MatchStays(s, Moved(cfg, n, s, move), p)
            || (move.Hears? && move.success && p == move.peer && Moved(cfg, n, s, move).matchIndex[p] == |s.log|)
            || (move.Closes? && p == n && Moved(cfg, n, s, move).matchIndex[p] == |s.log|)
  {
    match move {
      case Takes(req) => TakerDoesNotWin(cfg, n, s, req);
      case Commits => DeliveryKeepsLog(s, QuorumOf(cfg, n), false);
      case _ =>
    }
  }

  /** A success that is heard reports that the peer has the leader's whole log. */
  lemma SuccessMeansEqual<V>(cfg: Config, run: seq<Cluster<V>>, schedule: seq<Action<V>>, i: nat, l: NodeId, p: NodeId)
    requires FittingRun(cfg, run, schedule) && i < |schedule| && Leads(run[i], l) && l in cfg.members
    requires HearsReply(cfg, run[i], schedule[i], l, p, true)
    ensures p in cfg.members && p in run[i + 1].nodes && run[i + 1].nodes[p].log == run[i].nodes[l].log
  {
    PeerIsOther(cfg, l, p);
    var req := Arriving(cfg, run[i], schedule[i]).value.1;
    var move := MoveAt(cfg, run, schedule, i, p);
    var s, s' := run[i].nodes[p], run[i + 1].nodes[p];
    LiteralTaken(p, s, req);
    LeaderRequestsAreWhole(cfg, run, schedule, i, l, p);
    assert SentBy(run, i, l, req);
    LogsDescend(cfg, run, schedule, i, p);
    LogsDescend(cfg, run, schedule, i, l);
    TakenIsWhole(cfg, run, schedule, i, i, l, s, req);
  }

  lemma MatchHeldNext<V>(cfg: Config, run: seq<Cluster<V>>, schedule: seq<Action<V>>, i: nat, l: NodeId,
                         move: Move<V>, p: NodeId)
    requires FittingRun(cfg, run, schedule) && i < |schedule| && l in cfg.members && Leads(run[i + 1], l)
    requires MovesBy(cfg, run[i], schedule[i], run[i + 1], l, move) && !move.Turns?
    requires BooksHeld(cfg, run[i], l) && p in run[i + 1].nodes[l].matchIndex
    ensures MatchHeld(cfg, run[i + 1], l, p)
  {
    var s, s' := run[i].nodes[l], run[i + 1].nodes[l];
    MatchMoves(cfg, l, s, move, p);
    LogGrows(cfg, run, schedule, i, l);
    if MatchStays(s, s', p) {
      assert MatchHeld(cfg, run[i], l, p);
      LogGrows(cfg, run, schedule, i, p);
      assert s'.log[..s'.matchIndex[p]] == s.log[..s.matchIndex[p]];
    } else if move.Hears? {
      SuccessMeansEqual(cfg, run, schedule, i, l, p);
    }
  }

  lemma EmptyBooksHeld<V>(cfg: Config, c: Cluster<V>, l: NodeId)
    requires ValidConfig(cfg) && c.nodes.Keys == cfg.members && l in cfg.members
    requires forall p :: p in c.nodes[l].matchIndex ==> p in PeersOf(cfg, l) && c.nodes[l].matchIndex[p] == 0
    ensures BooksHeld(cfg, c, l)
  {
    forall p | p in c.nodes[l].matchIndex ensures MatchHeld(cfg, c, l, p) {
      PeerIsOther(cfg, l, p);
    }
  }

  lemma FreshBooksHeld<V>(cfg: Config, run: seq<Cluster<V>>, schedule: seq<Action<V>>, i: nat, l: NodeId, event: PollEvent)
    requires FittingRun(cfg, run, schedule) && i < |schedule| && l in cfg.members && Leads(run[i + 1], l)
    requires run[i].nodes.Keys == run[i + 1].nodes.Keys == cfg.members
    requires MovesBy(cfg, run[i], schedule[i], run[i + 1], l, Turns(event))
    ensures BooksHeld(cfg, run[i + 1], l)
  {
    TallyIsGiven(cfg, run, schedule, i, l);
    WinResets(run[i].nodes[l], QuorumOf(cfg, l), PeersOf(cfg, l), event);
    EmptyBooksHeld(cfg, run[i + 1], l);
  }

  lemma BooksHeldNext<V>(cfg: Config, run: seq<Cluster<V>>, schedule: seq<Action<V>>, i: nat, l: NodeId)
    requires FittingRun(cfg, run, schedule) && i < |schedule| && l in cfg.members && Leads(run[i + 1], l)
    requires l in run[i].nodes && BooksHeld(cfg, run[i], l)
    ensures BooksHeld(cfg, run[i + 1], l)
  {
    var c' := run[i + 1];
    var move := MoveAt(cfg, run, schedule, i, l);
    if move.Turns? {
      FreshBooksHeld(cfg, run, schedule, i, l, move.event);
    } else {
      forall p | p in c'.nodes[l].matchIndex ensures MatchHeld(cfg, c', l, p) {
        MatchHeldNext(cfg, run, schedule, i, l, move, p);
      }
    }
  }

  lemma {:induction false} BooksAreHeld<V>(cfg: Config, run: seq<Cluster<V>>, schedule: seq<Action<V>>, i: nat, l: NodeId)
    requires FittingRun(cfg, run, schedule) && i < |run| && l in cfg.members
    ensures l in run[i].nodes && BooksHeld(cfg, run[i], l)
  {
    NodesAreMembers(cfg, run, schedule, i);
    if i == 0 {
      NothingAtFirst(cfg, run[0], l);
    } else {
      BooksAreHeld(cfg, run, schedule, i - 1, l);
      if run[i].nodes[l].role.Leader? {
        BooksHeldNext(cfg, run, schedule, i - 1, l);
      }
    }
  }

  // ---------------------------------------------------------------- deliveries

  /** Every log of some quorum begins with `log`. */
  ghost predicate HeldBy<V>(cfg: Config, c: Cluster<V>, log: Log<V>, q: set<NodeId>) {
    && q <= cfg.members && |q| >= |cfg.members| / 2 + 1
    && forall n :: n in q ==> n in c.nodes && Prefix(log, c.nodes[n].log)
  }

  ghost predicate Held<V>(cfg: Config, c: Cluster<V>, log: Log<V>) {
    log == [] || exists q :: HeldBy(cfg, c, log, q)
  }

  lemma HeldLater<V>(cfg: Config, run: seq<Cluster<V>>, schedule: seq<Action<V>>, i: nat, j: nat, log: Log<V>)
    requires FittingRun(cfg, run, schedule) && i <= j < |run| && Held(cfg, run[i], log)
    ensures Held(cfg, run[j], log)
  {
    if log != [] {
      var q :| HeldBy(cfg, run[i], log, q);
      forall n | n in q ensures n in run[j].nodes && Prefix(log, run[j].nodes[n].log) {
        LogsGrow(cfg, run, schedule, i, j, n);
      }
      assert HeldBy(cfg, run[j], log, q);
    }
  }

  /** What two quorums hold is comparable: they share a node. */
  lemma HeldComparable<V>(cfg: Config, c: Cluster<V>, a: Log<V>, b: Log<V>)
    requires Held(cfg, c, a) && Held(cfg, c, b)
    ensures Comparable(a, b)
  {
    if a != [] && b != [] {
      var p :| HeldBy(cfg, c, a, p);
      var q :| HeldBy(cfg, c, b, q);
      var v := QuorumsIntersect(cfg.members, p, q, |cfg.members| / 2 + 1);
      var log := c.nodes[v].log;
      assert Prefix(a, log) && Prefix(b, log);
      assert a == log[..|a|] && b == log[..|b|];
    }
  }

  /** What a node has delivered is its log up to its commit index, and a quorum holds it. */
  ghost predicate DeliversHeld<V>(cfg: Config, c: Cluster<V>, n: NodeId)
    requires n in c.nodes
  {
    Delivered(c.nodes[n]) && Held(cfg, c, c.nodes[n].outbox)
  }

  /** The index that the rule finds is within the log, and a quorum holds the log up to it. */
  lemma FrequentIsHeld<V>(cfg: Config, c: Cluster<V>, l: NodeId, v: nat)
    requires ValidConfig(cfg) && l in cfg.members && Leads(c, l) && BooksHeld(cfg, c, l)
    requires Frequent(c.nodes[l].matchIndex, QuorumOf(cfg, l), v)
    ensures v <= |c.nodes[l].log| && Held(cfg, c, c.nodes[l].log[..v])
  {
    QuorumFits(cfg, l);
    var q := Holders(c.nodes[l].matchIndex, v);
    forall p | p in q ensures p in cfg.members && p in c.nodes && v <= |c.nodes[l].log| && Prefix(c.nodes[l].log[..v], c.nodes[p].log) {
      assert MatchHeld(cfg, c, l, p);
    }
    var x :| x in q;
    assert HeldBy(cfg, c, c.nodes[l].log[..v], q);
  }

  lemma CommitDelivers<V>(cfg: Config, c: Cluster<V>, l: NodeId)
    requires ValidConfig(cfg) && l in cfg.members && Leads(c, l) && BooksHeld(cfg, c, l) && DeliversHeld(cfg, c, l)
    ensures var s' := CommitEntries(c.nodes[l], QuorumOf(cfg, l), false).0;
            Delivered(s') && Held(cfg, c, s'.outbox) && s'.log == c.nodes[l].log
  {
    var s := c.nodes[l];
    var best := CommitCandidate(s.matchIndex, QuorumOf(cfg, l));
    if best.Some? {
      FrequentIsHeld(cfg, c, l, best.value);
      if best.value > s.commit {
        assert s.log[..s.commit] + s.log[s.commit..best.value] == s.log[..best.value];
      }
    }
  }

  /** A taken request delivers what its sender had delivered, if that is news. */
  lemma TakenDelivers<V>(n: NodeId, s: NodeState<V>, req: AppendRequest<V>)
    requires TakesAtEnd(s, req) && Delivered(s)
    requires req.prevIndex == |s.log| ==> req.leaderCommit <= |s.log + req.entries|
    ensures var s' := AppendLiteral(n, s, req).state;
            && Delivered(s')
            && (s'.outbox == s.outbox
                || (LiteralAccepts(s, req) && req.prevIndex == |s.log| && s'.outbox == (s.log + req.entries)[..req.leaderCommit]))
  {
    var log := s.log + req.entries;
    assert log[..s.commit] == s.log[..s.commit];
    if req.prevIndex == |s.log| && req.leaderCommit > s.commit {
      assert log[..s.commit] + log[s.commit..req.leaderCommit] == log[..req.leaderCommit];
    }
  }

  lemma TurnKeepsLog<V>(s: NodeState<V>, quorum: int, peers: seq<NodeId>, event: PollEvent)
    ensures var s' := OnPoll(s, quorum, peers, event).0;
            s'.log == s.log && s'.commit == s.commit && s'.outbox == s.outbox
  {
  }

  lemma OthersKeepDelivered<V>(cfg: Config, n: NodeId, s: NodeState<V>, move: Move<V>)
    requires !move.Takes? && !move.Commits? && !(move.Appends? && s.role.Leader?)
    ensures var s' := Moved(cfg, n, s, move);
            s'.log == s.log && s'.commit == s.commit && s'.outbox == s.outbox
  {
    if move.Turns? {
      TurnKeepsLog(s, QuorumOf(cfg, n), PeersOf(cfg, n), move.event);
    }
  }

  /** Any other operation leaves what has been delivered. */
  lemma OthersDeliverNothing<V>(cfg: Config, n: NodeId, s: NodeState<V>, move: Move<V>)
    requires cfg.mode.Literal? && !move.Takes? && !move.Commits? && Delivered(s)
    ensures var s' := Moved(cfg, n, s, move);
            Delivered(s') && s'.outbox == s.outbox
  {
    if move.Appends? && s.role.Leader? {
      assert (s.log + [Entry(move.value, s.term)])[..s.commit] == s.log[..s.commit];
    } else {
      OthersKeepDelivered(cfg, n, s, move);
    }
  }

  ghost predicate DeliversAt<V>(cfg: Config, run: seq<Cluster<V>>, m: nat, n: NodeId) {
    m < |run| && n in run[m].nodes && DeliversHeld(cfg, run[m], n)
  }

  ghost predicate AllDeliver<V>(cfg: Config, run: seq<Cluster<V>>, i: nat) {
    forall m: nat, n: NodeId {:trigger DeliversAt(cfg, run, m, n)} ::
      m <= i && n in cfg.members ==> DeliversAt(cfg, run, m, n)
  }

  /** A node takes a request whose sender had delivered only what a quorum held. */
  lemma TakerDelivers<V>(cfg: Config, run: seq<Cluster<V>>, schedule: seq<Action<V>>, i: nat, n: NodeId,
                         req: AppendRequest<V>)
    requires FittingRun(cfg, run, schedule) && i < |schedule| && n in cfg.members && AllDeliver(cfg, run, i)
    requires Arriving(cfg, run[i], schedule[i]) == Some((n, req)) && n in run[i].nodes && TakesAtEnd(run[i].nodes[n], req)
    ensures var s' := AppendLiteral(n, run[i].nodes[n], req).state;
            Delivered(s') && Held(cfg, run[i], s'.outbox)
  {
    var s := run[i].nodes[n];
    assert DeliversAt(cfg, run, i, n);
    var m, l := TakenFrom(cfg, run, schedule, i, n, req);
    assert DeliversAt(cfg, run, m, l);
    var sender := run[m].nodes[l];
    TakenDelivers(n, s, req);
    HeldLater(cfg, run, schedule, m, i, sender.outbox);
    assert sender.outbox == sender.log[..req.leaderCommit];
  }

  lemma MoveDelivers<V>(cfg: Config, run: seq<Cluster<V>>, schedule: seq<Action<V>>, i: nat, n: NodeId, move: Move<V>)
    requires FittingRun(cfg, run, schedule) && i < |schedule| && n in cfg.members && AllDeliver(cfg, run, i)
    requires MovesBy(cfg, run[i], schedule[i], run[i + 1], n, move) && FittingMove(run[i].nodes[n], move)
    ensures Delivered(run[i + 1].nodes[n]) && Held(cfg, run[i], run[i + 1].nodes[n].outbox)
  {
    assert DeliversAt(cfg, run, i, n);
    if move.Takes? {
      TakerDelivers(cfg, run, schedule, i, n, move.request);
    } else if move.Commits? {
      BooksAreHeld(cfg, run, schedule, i, n);
      CommitDelivers(cfg, run[i], n);
    } else {
      OthersDeliverNothing(cfg, n, run[i].nodes[n], move);
    }
  }

  lemma DeliversStep<V>(cfg: Config, run: seq<Cluster<V>>, schedule: seq<Action<V>>, i: nat, n: NodeId)
    requires FittingRun(cfg, run, schedule) && i < |schedule| && n in cfg.members && AllDeliver(cfg, run, i)
    ensures DeliversAt(cfg, run, i + 1, n)
  {
    var move := MoveAt(cfg, run, schedule, i, n);
    MoveDelivers(cfg, run, schedule, i, n, move);
    HeldLater(cfg, run, schedule, i, i + 1, run[i + 1].nodes[n].outbox);
  }

  lemma {:induction false} EverythingDeliveredIsHeld<V>(cfg: Config, run: seq<Cluster<V>>, schedule: seq<Action<V>>, i: nat)
    requires FittingRun(cfg, run, schedule) && i < |run|
    ensures AllDeliver(cfg, run, i)
  {
    if i > 0 {
      EverythingDeliveredIsHeld(cfg, run, schedule, i - 1);
    }
    forall m: nat, n: NodeId | m <= i && n in cfg.members ensures DeliversAt(cfg, run, m, n) {
      if m == 0 {
        NothingAtFirst(cfg, run[0], n);
      } else if m == i {
        DeliversStep(cfg, run, schedule, i - 1, n);
      }
    }
  }

  /** In every state of such a run each node has delivered exactly its log up to its commit
      index, and the logs of a quorum begin with that. */
  lemma SourceDeliversLog<V>(cfg: Config, run: seq<Cluster<V>>, schedule: seq<Action<V>>, i: nat, n: NodeId)
    requires FittingRun(cfg, run, schedule) && i < |run| && n in cfg.members
    ensures n in run[i].nodes && Delivered(run[i].nodes[n]) && Held(cfg, run[i], run[i].nodes[n].outbox)
  {
    EverythingDeliveredIsHeld(cfg, run, schedule, i);
    assert DeliversAt(cfg, run, i, n);
  }

  /** State Machine Safety of the source as it is written, over any number of terms: no two
      nodes ever deliver different entries at one position. Replies may be lost, requests
      come late and handlers abort, and the commit rule may count entries of any term. */
  lemma SourceStateMachineSafety<V>(cfg: Config, run: seq<Cluster<V>>, schedule: seq<Action<V>>, i: nat, j: nat,
                                    a: NodeId, b: NodeId)
    requires FittingRun(cfg, run, schedule) && i < |run| && j < |run| && a in run[i].nodes && b in run[j].nodes
    ensures Comparable(run[i].nodes[a].outbox, run[j].nodes[b].outbox)
  {
    NodesAreMembers(cfg, run, schedule, i);
    NodesAreMembers(cfg, run, schedule, j);
    SourceDeliversLog(cfg, run, schedule, i, a);
    SourceDeliversLog(cfg, run, schedule, j, b);
    var k := if i <= j then j else i;
    HeldLater(cfg, run, schedule, i, k, run[i].nodes[a].outbox);
    HeldLater(cfg, run, schedule, j, k, run[j].nodes[b].outbox);
    HeldComparable(cfg, run[k], run[i].nodes[a].outbox, run[j].nodes[b].outbox);
  }
}
