/** What every node keeps in every run, with the source's handler as with the
    intended ones: deliveries are only added, a leader only appends, its books stay
    within its log, and the leader flag is raised while it leads. */
module Progress {
  import opened Types
  import opened Quorum
  import opened Handlers
  import opened Cluster
  import opened Moves

  /** `a` is an initial part of `b`. */
  ghost predicate Prefix<V>(a: Log<V>, b: Log<V>) {
    a <= b
  }

  /** One step of one node. */
  ghost predicate Forward<V>(s: NodeState<V>, s': NodeState<V>) {
    && Prefix(s.outbox, s'.outbox) && s.commit <= s'.commit
    && (s.role.Leader? && s'.role.Leader? ==> Prefix(s.log, s'.log) && s'.term == s.term)
  }

  /** The books of a leader: an entry for every peer, all within the log. */
  ghost predicate BooksInRange<V>(cfg: Config, n: NodeId, s: NodeState<V>) {
    s.role.Leader? ==>
      && (forall p :: p in PeersOf(cfg, n) ==> p in s.nextIndex)
      && (forall p :: p in s.nextIndex ==> 1 <= s.nextIndex[p] <= |s.log| + 1)
      && (forall p :: p in s.matchIndex ==> s.matchIndex[p] <= |s.log|)
  }

  ghost predicate Sound<V>(cfg: Config, n: NodeId, s: NodeState<V>) {
    && BooksInRange(cfg, n, s)
    && s.commit <= |s.outbox|
    && (s.role.Leader? ==> s.isLeader)
  }

  ghost predicate DeliveryCounted<V>(s: NodeState<V>) {
    |s.outbox| == s.commit
  }

  /** A step that went through: it moves forward and keeps what is sound. */
  ghost predicate GoodStep<V>(cfg: Config, n: NodeId, s: NodeState<V>, s': NodeState<V>, whole: bool) {
    && Forward(s, s')
    && (cfg.mode.Intended? ==> s.term <= s'.term)
    && (Sound(cfg, n, s) ==> Sound(cfg, n, s'))
    && (whole && DeliveryCounted(s) ==> DeliveryCounted(s'))
  }

  lemma DeliverForward<V>(cfg: Config, n: NodeId, s: NodeState<V>, upTo: nat)
    ensures var (s', ok) := DeliverOrPanic(s, upTo);
            GoodStep(cfg, n, s, s', ok) && s'.log == s.log && s'.role == s.role && s'.term == s.term
  {
  }

  lemma LiteralForward<V>(cfg: Config, n: NodeId, s: NodeState<V>, req: AppendRequest<V>)
    requires cfg.mode.Literal?
    ensures var out := AppendLiteral(n, s, req);
            GoodStep(cfg, n, s, out.state, out.Replied?)
  {
    if !(req.term < s.term && s.role.Leader?) && !(|s.log| > 0 && req.prevIndex == 0) && req.prevIndex <= |s.log| {
      var adopted := Adopt(s, req).(log := LiteralSplice(s.log, req.prevIndex, req.entries));
      DeliverForward(cfg, n, adopted, req.leaderCommit);
    }
  }

  lemma HandleForward<V>(cfg: Config, n: NodeId, s: NodeState<V>, req: AppendRequest<V>)
    ensures var out := Handle(cfg, n, s, req);
            GoodStep(cfg, n, s, out.state, out.Replied?)
  {
    if cfg.mode.Literal? {
      LiteralForward(cfg, n, s, req);
    } else if Accepts(s, req) {
      var s1 := Spliced(cfg.mode.rule, s, req);
      DeliverForward(cfg, n, s1, Min(req.leaderCommit, req.prevIndex + |req.entries|));
    }
  }

  lemma CommitForward<V>(cfg: Config, n: NodeId, s: NodeState<V>, quorum: int, currentTermOnly: bool)
    ensures var (s', ok) := CommitEntries(s, quorum, currentTermOnly);
            GoodStep(cfg, n, s, s', ok)
  {
    var best := CommitCandidate(s.matchIndex, quorum);
    if best.Some? {
      DeliverForward(cfg, n, s, best.value);
    }
  }

  lemma BooksForward<V>(cfg: Config, n: NodeId, s: NodeState<V>, peer: NodeId, success: bool)
    requires s.role.Leader?
    ensures GoodStep(cfg, n, s, OnAppendReply(s, peer, success), true)
    ensures GoodStep(cfg, n, s, CloseRound(n, s), true)
  {
  }

  lemma LoopForward<V>(cfg: Config, n: NodeId, s: NodeState<V>, term: Term)
    ensures GoodStep(cfg, n, s, Retire(s), true)
    ensures term >= s.term ==> GoodStep(cfg, n, s, Release(s, term), true)
  {
  }

  lemma WinForward<V>(cfg: Config, n: NodeId, s: NodeState<V>, reply: VoteReply)
    ensures GoodStep(cfg, n, s, Count(s, reply), true)
    ensures GoodStep(cfg, n, s, Win(Count(s, reply), PeersOf(cfg, n)), true)
  {
  }

  lemma PollForward<V>(cfg: Config, n: NodeId, s: NodeState<V>, event: PollEvent)
    ensures GoodStep(cfg, n, s, OnPoll(s, QuorumOf(cfg, n), PeersOf(cfg, n), event).0, true)
  {
    match event {
      case TimedOut => LoopForward(cfg, n, s, s.term);
      case NoAnswer =>
      case Answered(reply) =>
        LoopForward(cfg, n, s, reply.term);
        WinForward(cfg, n, s, reply);
    }
  }

  lemma LocalForward<V>(cfg: Config, n: NodeId, s: NodeState<V>, value: V, ballot: VoteRequest)
    ensures GoodStep(cfg, n, s, AppendEntry(s, value), true)
    ensures GoodStep(cfg, n, s, Stand(n, s), true)
    ensures GoodStep(cfg, n, s, RequestVote(s, ballot), true)
    ensures GoodStep(cfg, n, s, s.(heard := false), true)
  {
  }

  /** Every operation of a node is a good step. */
  lemma MoveForward<V>(cfg: Config, n: NodeId, s: NodeState<V>, move: Move<V>)
    requires move.Hears? || move.Closes? ==> s.role.Leader?
    ensures GoodStep(cfg, n, s, Moved(cfg, n, s, move), Completes(cfg, n, s, move))
  {
    match move {
      case Idles =>
      case Appends(value) => LocalForward(cfg, n, s, value, Ballot(n, s));
      case Takes(req) => HandleForward(cfg, n, s, req);
      case Votes(ballot) => assert GoodStep(cfg, n, s, RequestVote(s, ballot), true);
      case Hears(peer, success) => BooksForward(cfg, n, s, peer, success);
      case Closes => BooksForward(cfg, n, s, n, true);
      case Commits => CommitForward(cfg, n, s, QuorumOf(cfg, n), cfg.mode.Intended?);
      case Stands => assert GoodStep(cfg, n, s, Stand(n, s), true);
      case Turns(event) => PollForward(cfg, n, s, event);
      case Quiets => assert GoodStep(cfg, n, s, s.(heard := false), true);
    }
  }

  /** The step from c to c' as node n sees it. */
  ghost predicate GoodFor<V>(cfg: Config, c: Cluster<V>, c': Cluster<V>, n: NodeId) {
    && n in c.nodes && c'.nodes.Keys == c.nodes.Keys && c.aborted <= c'.aborted
    && GoodStep(cfg, n, c.nodes[n], c'.nodes[n], Intact(c', n))
  }

  lemma StepForward<V>(cfg: Config, c: Cluster<V>, a: Action<V>, n: NodeId)
    requires ValidConfig(cfg) && c.nodes.Keys == cfg.members && n in c.nodes
    ensures GoodFor(cfg, c, Apply(cfg, c, a), n)
  {
    var move := MoveOf(cfg, c, a, n);
    MoveForward(cfg, n, c.nodes[n], move);
  }

  // ---------------------------------------------------------------- runs

  /** Node n of a state that a run has reached. */
  ghost predicate Reached<V>(cfg: Config, c: Cluster<V>, n: NodeId) {
    && c.nodes.Keys == cfg.members && n in c.nodes
    && Sound(cfg, n, c.nodes[n])
    && (Intact(c, n) ==> DeliveryCounted(c.nodes[n]))
  }

  lemma ReachedNext<V>(cfg: Config, c: Cluster<V>, a: Action<V>, n: NodeId)
    requires ValidConfig(cfg) && Reached(cfg, c, n)
    ensures Reached(cfg, Apply(cfg, c, a), n)
  {
    StepForward(cfg, c, a, n);
  }

  /** In every state of every run the nodes are the members; each has delivered at least
      as many entries as it counts as committed, and exactly as many unless one of its
      tasks was aborted; the books of each leader are in range, and its flag is up. */
  lemma {:induction false} RunSound<V>(cfg: Config, run: seq<Cluster<V>>, schedule: seq<Action<V>>, i: nat, n: NodeId)
    requires Run(cfg, run, schedule) && Initial(cfg, run[0]) && n in cfg.members && i < |run|
    ensures Reached(cfg, run[i], n)
  {
    if i == 0 {
      assert FreshNode(cfg, n, run[0].nodes[n]);
    } else {
      RunSound(cfg, run, schedule, i - 1, n);
      assert Step(cfg, run, schedule, i - 1);
      ReachedNext(cfg, run[i - 1], schedule[i - 1], n);
    }
  }

  lemma NextForward<V>(cfg: Config, run: seq<Cluster<V>>, schedule: seq<Action<V>>, i: nat, n: NodeId)
    requires Run(cfg, run, schedule) && Initial(cfg, run[0]) && n in cfg.members && i < |schedule|
    ensures GoodFor(cfg, run[i], run[i + 1], n)
  {
    RunSound(cfg, run, schedule, i, n);
    assert Step(cfg, run, schedule, i);
    StepForward(cfg, run[i], schedule[i], n);
  }

  /** Deliveries are never taken back, the commit index never moves down, and with
      the intended guard neither does the term. */
  lemma {:induction false} OnlyForward<V>(cfg: Config, run: seq<Cluster<V>>, schedule: seq<Action<V>>, i: nat,
                                          j: nat, n: NodeId)
    requires Run(cfg, run, schedule) && Initial(cfg, run[0]) && n in cfg.members && i <= j < |run|
    ensures n in run[i].nodes && n in run[j].nodes
    ensures run[i].nodes[n].outbox <= run[j].nodes[n].outbox
    ensures run[i].nodes[n].commit <= run[j].nodes[n].commit
    ensures cfg.mode.Intended? ==> run[i].nodes[n].term <= run[j].nodes[n].term
    decreases j
  {
    if i < j {
      OnlyForward(cfg, run, schedule, i, j - 1, n);
      NextForward(cfg, run, schedule, j - 1, n);
    } else {
      RunSound(cfg, run, schedule, j, n);
    }
  }

  ghost predicate Leads<V>(c: Cluster<V>, n: NodeId) {
    n in c.nodes && c.nodes[n].role.Leader?
  }

  /** While a node stays leader it stays in one term and its log is only extended. */
  lemma {:induction false} LeaderOnlyAppends<V>(cfg: Config, run: seq<Cluster<V>>, schedule: seq<Action<V>>, i: nat,
                                                j: nat, n: NodeId)
    requires Run(cfg, run, schedule) && Initial(cfg, run[0]) && n in cfg.members && i <= j < |run|
    requires forall x :: i <= x <= j ==> Leads(run[x], n)
    ensures Leads(run[i], n) && Leads(run[j], n)
    ensures run[i].nodes[n].log <= run[j].nodes[n].log
    ensures run[i].nodes[n].term == run[j].nodes[n].term
    decreases j
  {
    if i < j {
      LeaderOnlyAppends(cfg, run, schedule, i, j - 1, n);
      NextForward(cfg, run, schedule, j - 1, n);
    }
  }

  /** A request built for a peer in range is defined and carries the leader's whole suffix. */
  lemma BuiltRequest<V>(me: NodeId, l: NodeState<V>, f: NodeId)
    requires f in l.nextIndex && 1 <= l.nextIndex[f] <= |l.log| + 1
    ensures BuildRequest(me, l, f)
            == Some(AppendRequest(l.term, me, l.nextIndex[f] - 1, LastTerm(l.log[..l.nextIndex[f] - 1]),
                                  l.log[l.nextIndex[f] - 1..], l.commit))
  {
    var prev := l.nextIndex[f] - 1;
    var before := l.log[..prev];
    if prev == 0 {
      assert before == [] && l.log[0..] == l.log;
    } else {
      assert before[prev - 1] == l.log[prev - 1];
    }
  }

  /** A request cannot be built if and only if the next index lies beyond the end of a log that
      is not empty; without a log or a next index for the peer it is an empty heartbeat. */
  lemma RequestFailsIff<V>(me: NodeId, l: NodeState<V>, f: NodeId)
    ensures BuildRequest(me, l, f).None? <==> l.log != [] && f in l.nextIndex && l.nextIndex[f] > |l.log| + 1
    ensures l.log == [] || f !in l.nextIndex || l.nextIndex[f] == 0 ==>
              BuildRequest(me, l, f) == Some(AppendRequest(l.term, me, 0, 0, [], l.commit))
  {
  }

  /** The books say the same of `p`. */
  ghost predicate SameBooks<V>(s: NodeState<V>, s': NodeState<V>, p: NodeId) {
    && (p in s.nextIndex <==> p in s'.nextIndex) && (p in s.nextIndex ==> s'.nextIndex[p] == s.nextIndex[p])
    && (p in s.matchIndex <==> p in s'.matchIndex) && (p in s.matchIndex ==> s'.matchIndex[p] == s.matchIndex[p])
  }

  /** The books after a reply: a success sets the peer's to the end of the log, a refusal takes
      its next index back by one as long as it is above 1, and both leave everybody else's. */
  lemma BooksAfterReply<V>(s: NodeState<V>, peer: NodeId, success: bool, p: NodeId)
    ensures var s' := OnAppendReply(s, peer, success);
            && (p != peer || (!success && (p !in s.nextIndex || s.nextIndex[p] <= 1)) ==> SameBooks(s, s', p))
            && (success ==> peer in s'.nextIndex && s'.nextIndex[peer] == |s.log| + 1)
            && (success && s.log != [] ==> peer in s'.matchIndex && s'.matchIndex[peer] == |s.log|)
            && (!success || s.log == [] ==> s'.matchIndex == s.matchIndex)
            && (!success && peer in s.nextIndex && s.nextIndex[peer] > 1 ==>
                  peer in s'.nextIndex && s'.nextIndex[peer] + 1 == s.nextIndex[peer])
  {
  }

  /** A round ends with the leader's own books at the end of its log; nobody else's move. */
  lemma BooksAfterRound<V>(me: NodeId, s: NodeState<V>, p: NodeId)
    ensures var s' := CloseRound(me, s);
            && (p != me ==> SameBooks(s, s', p))
            && me in s'.nextIndex && s'.nextIndex[me] == |s.log| + 1 && me in s'.matchIndex && s'.matchIndex[me] == |s.log|
  {
  }

  /** A client's entry goes to the end of the log, in the node's term, if and only if the node
      leads and is not waiting in an election; otherwise nothing happens to it. */
  lemma AppendedIff<V>(cfg: Config, c: Cluster<V>, n: NodeId, value: V)
    requires n in c.nodes
    ensures var c' := Apply(cfg, c, ClientAppend(n, value));
            && n in c'.nodes && c'.nodes[n] == c.nodes[n].(log := c'.nodes[n].log)
            && c'.nodes[n].log == (if Leads(c, n) && n !in c.polling
                                   then c.nodes[n].log + [Entry(value, c.nodes[n].term)] else c.nodes[n].log)
  {
  }

  /** In every run, every request a leader builds is defined and carries the whole of
      its log after the previous entry, whose term it names. */
  lemma LeaderRequestsAreWhole<V>(cfg: Config, run: seq<Cluster<V>>, schedule: seq<Action<V>>, i: nat, l: NodeId, f: NodeId)
    requires Run(cfg, run, schedule) && Initial(cfg, run[0]) && l in cfg.members && i < |run|
    requires Leads(run[i], l) && f in PeersOf(cfg, l)
    ensures var s := run[i].nodes[l];
            var req := BuildRequest(l, s, f);
            && req.Some? && req.value.term == s.term && req.value.leaderCommit == s.commit
            && req.value.prevIndex <= |s.log| && req.value.entries == s.log[req.value.prevIndex..]
            && req.value.prevTerm == LastTerm(s.log[..req.value.prevIndex])
  {
    RunSound(cfg, run, schedule, i, l);
    var s := run[i].nodes[l];
    assert BooksInRange(cfg, l, s);
    BuiltRequest(l, s, f);
  }
}
