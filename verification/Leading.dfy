/** What a leader does by itself keeps the invariant: a client's entry extends the log of
    its term in the history, a request that it builds is a stretch of that log, a reply
    that it hears is of an acknowledged length, the end of a round acknowledges its own
    log, and what the commit rule finds in its own term a quorum has acknowledged. */
module Leading {
  import opened Types
  import opened Quorum
  import opened Handlers
  import opened Cluster
  import opened Progress
  import opened History
  import opened Invariant
  import opened Replication
  import opened Voting

  ghost function Grow<V>(h: History<V>, t: Term, log: Log<V>): History<V>
    requires t in h.wins
  {
    h.(wins := h.wins[t := h.wins[t].(log := log)])
  }

  lemma GrowKeepsHistory<V>(cfg: Config, h: History<V>, t: Term, e: Entry<V>)
    requires HistoryOk(cfg, h) && t in h.wins && e.term == t
    ensures HistoryOk(cfg, Grow(h, t, h.wins[t].log + [e])) && Extends(h, Grow(h, t, h.wins[t].log + [e]))
  {
    var log := h.wins[t].log + [e];
    var h' := Grow(h, t, log);
    forall x | x in h.wins ensures WinGrows(h.wins[x], h'.wins[x], x) {}
    forall x | x in h'.wins ensures WinOk(cfg, h', x) && Traced(h'.wins[x].log, h') {
      var w := h.wins[x];
      assert WinOk(cfg, h, x) && Traced(w.log, h);
      TracedGrows(w.log, h, h');
      assert h'.wins[x].log[..w.base] == w.log[..w.base];
      forall q | q in w.voters ensures Counted(h', q, x, w.leader, w.log[..w.base]) {
        assert Counted(h, q, x, w.leader, w.log[..w.base]);
      }
      if x == t {
        TracedAppend(w.log, e, h');
      }
    }
    GrowthKeepsVotes(cfg, h, h');
    forall q, x | (q, x) in h'.acks ensures AckOk(cfg, h', q, x) {
      assert AckOk(cfg, h, q, x);
    }
  }

  lemma TracedAppend<V>(log: Log<V>, e: Entry<V>, h: History<V>)
    requires Traced(log, h) && e.term in h.wins && h.wins[e.term].log == log + [e]
    ensures Traced(log + [e], h)
  {
    forall i | 0 <= i < |log| + 1 ensures TracedAt(log + [e], h, i) {
      if i < |log| {
        assert TracedAt(log, h, i);
      }
    }
  }

  lemma AppendedOk<V>(cfg: Config, h: History<V>, h': History<V>, n: NodeId, s: NodeState<V>, e: Entry<V>)
    requires HistoryOk(cfg, h) && NodeOk(cfg, n, s, h) && s.role.Leader? && e.term == s.term
    requires h' == Grow(h, s.term, s.log + [e]) && Extends(h, h') && Traced(s.log + [e], h')
    ensures NodeOk(cfg, n, s.(log := s.log + [e]), h')
  {
    var log := s.log + [e];
    AcksStay(cfg, n, s.log, s.term, h, h');
    assert BooksAcked(s.(log := log), h');
    assert log[..s.commit] == s.log[..s.commit];
    CommittedLogGrows(cfg, h, h', s.outbox, s.term, s.term);
  }

  lemma ClientAppendKeeps<V>(cfg: Config, h: History<V>, n: NodeId, s: NodeState<V>, value: V) returns (h': History<V>)
    requires HistoryOk(cfg, h) && NodeOk(cfg, n, s, h) && s.role.Leader?
    ensures HistoryOk(cfg, h') && Extends(h, h') && (forall m :: m != n ==> SameFor(m, h, h'))
    ensures NodeOk(cfg, n, AppendEntry(s, value), h')
    ensures forall m, t :: m != n ==> SamePoll(m, t, h, h')
  {
    var e := Entry(value, s.term);
    h' := Grow(h, s.term, s.log + [e]);
    GrowKeepsHistory(cfg, h, s.term, e);
    assert Traced(h'.wins[s.term].log, h');
    AppendedOk(cfg, h, h', n, s, e);
  }

  /** Every request a leader builds is defined, carries its whole suffix, and is good. */
  lemma BuiltRequestIsGood<V>(cfg: Config, h: History<V>, l: NodeId, s: NodeState<V>, f: NodeId)
    requires NodeOk(cfg, l, s, h) && s.role.Leader? && f in PeersOf(cfg, l)
    ensures var req := BuildRequest(l, s, f);
            && req.Some? && req.value.term == s.term && req.value.leader == l && req.value.leaderCommit == s.commit
            && req.value.prevIndex + |req.value.entries| == |s.log|
            && (forall rule :: WholeIfReplacing(rule, h, req.value))
            && GoodRequest(cfg, h, req.value)
  {
    assert BooksInRange(cfg, l, s) && f in s.nextIndex;
    BuiltRequest(l, s, f);
  }

  lemma OwnAcksKept<V>(cfg: Config, h: History<V>, h': History<V>, l: NodeId, s: NodeState<V>)
    requires HistoryOk(cfg, h) && AcksOk(l, s.log, s.term, h) && s.term in h.wins && h.wins[s.term].log == s.log
    requires h' == Raise(h, l, s.term, |s.log|) && Extends(h, h')
    ensures AcksOk(l, s.log, s.term, h')
  {
    forall t: Term, k: nat | Acked(h', l, t, k) ensures t <= s.term && Kept(h', t, k, s.log, s.term, None) {
      if t != s.term {
        assert Acked(h, l, t, k) && AckOk(cfg, h, l, t);
        KeptGrows(cfg, h, h', t, k, s.log, s.term, None);
      } else {
        assert (l, t) in h.acks ==> AckOk(cfg, h, l, t);
      }
    }
  }

  lemma ClosedOk<V>(cfg: Config, h: History<V>, h': History<V>, l: NodeId, s: NodeState<V>)
    requires HistoryOk(cfg, h) && NodeOk(cfg, l, s, h) && s.role.Leader?
    requires h' == Raise(h, l, s.term, |s.log|) && Extends(h, h')
    ensures NodeOk(cfg, l, CloseRound(l, s), h')
  {
    TracedGrows(s.log, h, h');
    OwnAcksKept(cfg, h, h', l, s);
    CommittedLogGrows(cfg, h, h', s.outbox, s.term, s.term);
    assert BooksAcked(CloseRound(l, s), h');
  }

  /** The leader acknowledges its own log at the end of a round. */
  lemma EndRoundKeeps<V>(cfg: Config, h: History<V>, l: NodeId, s: NodeState<V>) returns (h': History<V>)
    requires HistoryOk(cfg, h) && NodeOk(cfg, l, s, h) && s.role.Leader? && l in cfg.members
    ensures HistoryOk(cfg, h') && Extends(h, h') && (forall m :: m != l ==> SameFor(m, h, h'))
    ensures NodeOk(cfg, l, CloseRound(l, s), h')
    ensures forall m, t :: m != l ==> SamePoll(m, t, h, h')
  {
    h' := Raise(h, l, s.term, |s.log|);
    RaiseExtends(h, l, s.term, |s.log|);
    RaiseKeepsHistory(cfg, h, l, s.term, |s.log|);
    ClosedOk(cfg, h, h', l, s);
  }

  /** The index the fold finds, if it is of the current term, is committed. */
  lemma FrequentIsCommitted<V>(cfg: Config, h: History<V>, n: NodeId, s: NodeState<V>, v: nat)
    requires HistoryOk(cfg, h) && NodeOk(cfg, n, s, h) && s.role.Leader?
    requires Frequent(s.matchIndex, |cfg.members| / 2 + 1, v) && v > 0
    requires v <= |s.log| && s.log[v - 1].term == s.term
    ensures Committed(cfg, h, s.term, v)
  {
    var q := Holders(s.matchIndex, v);
    forall p | p in q ensures p in cfg.members && Acked(h, p, s.term, v) {
      assert Acked(h, p, s.term, s.matchIndex[p]);
      assert AckOk(cfg, h, p, s.term);
    }
    assert AckQuorum(cfg, h, s.term, v, q);
  }

  /** Delivering up to a committed position of the leader's own log. */
  lemma CommitDelivers<V>(cfg: Config, h: History<V>, s: NodeState<V>, v: nat)
    requires DeliveryOk(cfg, s, h) && s.commit < v <= |s.log|
    requires Committed(cfg, h, s.term, v) && h.wins[s.term].log == s.log
    ensures DeliveryOk(cfg, Deliver(s, v), h)
  {
    assert s.log[..s.commit] + s.log[s.commit..v] == s.log[..v];
    assert CoveredBy(cfg, h, s.log[..v], s.term, v);
  }

  lemma CommitKeeps<V>(cfg: Config, h: History<V>, n: NodeId, s: NodeState<V>)
    requires HistoryOk(cfg, h) && NodeOk(cfg, n, s, h) && s.role.Leader?
    ensures var (s', ok) := CommitEntries(s, |cfg.members| / 2 + 1, true);
            ok && NodeOk(cfg, n, s', h)
  {
    var (s', ok) := CommitEntries(s, |cfg.members| / 2 + 1, true);
    if s' != s {
      FrequentIsCommitted(cfg, h, n, s, s'.commit);
      CommitDelivers(cfg, h, s, s'.commit);
    }
  }
}
