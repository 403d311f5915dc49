/** The invariant of every run with the intended handlers, one node at a time: its votes
    are those of the history, its log comes entry by entry from the leaders of their
    terms, it holds what it has acknowledged unless a later leader lacked it, and what it
    has delivered is committed. */
module Invariant {
  import opened Types
  import opened Quorum
  import opened Handlers
  import opened Cluster
  import opened Progress
  import opened History

  /** A vote counted in the current term is the one the node remembers. */
  ghost predicate VoteOk<V>(n: NodeId, s: NodeState<V>, h: History<V>) {
    && (forall t :: (n, t) in h.votes ==>
                      t <= s.term && (t == s.term ==> s.votedFor == Some(h.votes[(n, t)].candidate)))
    && (forall t :: t in h.wins && h.wins[t].leader == n ==> t <= s.term)
  }

  ghost predicate LogOk<V>(s: NodeState<V>, h: History<V>) {
    Traced(s.log, h) && forall i :: 0 <= i < |s.log| ==> s.log[i].term <= s.term
  }

  /** What the node has acknowledged is still in its log, unless a later leader lacked it. */
  ghost predicate AcksOk<V>(n: NodeId, log: Log<V>, term: Term, h: History<V>) {
    forall t: Term, k: nat :: Acked(h, n, t, k) ==> t <= term && Kept(h, t, k, log, term, None)
  }

  /** A leader counts as matching at a peer what the peer has acknowledged in this term. */
  ghost predicate BooksAcked<V>(s: NodeState<V>, h: History<V>) {
    forall p :: p in s.matchIndex && s.matchIndex[p] > 0 ==> Acked(h, p, s.term, s.matchIndex[p])
  }

  ghost predicate LeaderOk<V>(cfg: Config, n: NodeId, s: NodeState<V>, h: History<V>) {
    s.role.Leader? ==>
      && s.term in h.wins && h.wins[s.term].leader == n && h.wins[s.term].log == s.log
      && Distinct(s.votes) && Elements(s.votes) == h.wins[s.term].voters
      && BooksInRange(cfg, n, s) && BooksAcked(s, h)
  }

  /** What has been delivered is the committed part of the log, each entry once and in order. */
  ghost predicate DeliveryOk<V>(cfg: Config, s: NodeState<V>, h: History<V>) {
    && s.commit <= |s.log| && s.outbox == s.log[..s.commit]
    && CommittedLog(cfg, h, s.outbox, s.term)
  }

  ghost predicate NodeOk<V>(cfg: Config, n: NodeId, s: NodeState<V>, h: History<V>) {
    && VoteOk(n, s, h) && LogOk(s, h) && AcksOk(n, s.log, s.term, h) && LeaderOk(cfg, n, s, h) && DeliveryOk(cfg, s, h)
  }

  /** A node in its election loop: it has not won, its tally consists of counted
      votes, and none of the peers still to be asked is in it. */
  ghost predicate PollOk<V>(cfg: Config, n: NodeId, s: NodeState<V>, rest: seq<NodeId>, h: History<V>) {
    && s.role.Candidate? && n in s.votes && Distinct(s.votes)
    && (s.term in h.wins ==> h.wins[s.term].leader != n)
    && (forall v :: v in s.votes ==> Counted(h, v, s.term, n, s.log))
    && rest != [] && Distinct(rest)
    && (forall p :: p in rest ==> p in PeersOf(cfg, n) && p !in s.votes)
  }

  ghost predicate NodesOk<V>(cfg: Config, nodes: map<NodeId, NodeState<V>>, h: History<V>) {
    forall n {:trigger NodeOk(cfg, n, nodes[n], h)} :: n in nodes ==> NodeOk(cfg, n, nodes[n], h)
  }

  ghost predicate PollsOk<V>(cfg: Config, nodes: map<NodeId, NodeState<V>>, polling: map<NodeId, seq<NodeId>>, h: History<V>)
    requires polling.Keys <= nodes.Keys
  {
    forall n {:trigger PollOk(cfg, n, nodes[n], polling[n], h)} ::
      n in polling ==> PollOk(cfg, n, nodes[n], polling[n], h)
  }

  ghost predicate SentOk<V>(cfg: Config, sent: seq<AppendRequest<V>>, h: History<V>) {
    forall i :: 0 <= i < |sent| ==> GoodRequest(cfg, h, sent[i])
  }

  ghost predicate Inv<V>(cfg: Config, c: Cluster<V>, h: History<V>) {
    && ValidConfig(cfg)
    && c.nodes.Keys == cfg.members && c.polling.Keys <= cfg.members && c.aborted == {}
    && HistoryOk(cfg, h)
    && NodesOk(cfg, c.nodes, h)
    && PollsOk(cfg, c.nodes, c.polling, h)
    && SentOk(cfg, c.sent, h)
  }

  ghost function NoHistory<V>(): History<V> {
    History(map[], map[], map[])
  }

  /** Nothing that concerns node `n` differs between the two histories. */
  ghost predicate SameFor<V>(n: NodeId, h: History<V>, h': History<V>) {
    && (forall t :: (n, t) in h'.votes ==> (n, t) in h.votes && h'.votes[(n, t)] == h.votes[(n, t)])
    && (forall t :: (n, t) in h'.acks ==> (n, t) in h.acks && h'.acks[(n, t)] == h.acks[(n, t)])
    && (forall t :: t in h'.wins && h'.wins[t].leader == n ==> t in h.wins && h'.wins[t].log == h.wins[t].log)
  }

  /** What a node acknowledged before stays in its log when the history grows elsewhere. */
  lemma AcksStay<V>(cfg: Config, n: NodeId, log: Log<V>, term: Term, h: History<V>, h': History<V>)
    requires HistoryOk(cfg, h) && Extends(h, h') && AcksOk(n, log, term, h)
    requires forall t :: (n, t) in h'.acks ==> (n, t) in h.acks && h'.acks[(n, t)] == h.acks[(n, t)]
    ensures AcksOk(n, log, term, h')
  {
    forall t: Term, k: nat | Acked(h', n, t, k) ensures t <= term && Kept(h', t, k, log, term, None) {
      assert Acked(h, n, t, k) && AckOk(cfg, h, n, t);
      KeptGrows(cfg, h, h', t, k, log, term, None);
    }
  }

  /** A node that did nothing is still well when the history grows elsewhere. */
  lemma BystanderOk<V>(cfg: Config, n: NodeId, s: NodeState<V>, h: History<V>, h': History<V>)
    requires HistoryOk(cfg, h) && Extends(h, h') && SameFor(n, h, h')
    requires NodeOk(cfg, n, s, h)
    ensures NodeOk(cfg, n, s, h')
  {
    assert VoteOk(n, s, h') by {
      forall t | t in h'.wins && h'.wins[t].leader == n ensures t <= s.term {
        assert WinGrows(h.wins[t], h'.wins[t], t);
      }
    }
    TracedGrows(s.log, h, h');
    AcksStay(cfg, n, s.log, s.term, h, h');
    assert LeaderOk(cfg, n, s, h') by {
      if s.role.Leader? {
        assert WinGrows(h.wins[s.term], h'.wins[s.term], s.term);
      }
    }
    CommittedLogGrows(cfg, h, h', s.outbox, s.term, s.term);
  }

  // ---------------------------------------------------------------- the append handler

  ghost function Raise<V>(h: History<V>, q: NodeId, t: Term, k: nat): History<V> {
    var old_k := if (q, t) in h.acks then h.acks[(q, t)] else 0;
    h.(acks := h.acks[(q, t) := if old_k <= k then k else old_k])
  }

  lemma PrefixAgrees<V>(h: History<V>, log: Log<V>, req: AppendRequest<V>)
    requires Traced(log, h) && FromLeader(h, req) && Traced(h.wins[req.term].log, h)
    requires Matches(log, req)
    ensures Agree(h.wins[req.term].log, log, req.prevIndex)
  {
    if req.prevIndex > 0 {
      SameTermSamePrefix(h.wins[req.term].log, log, h, req.prevIndex - 1);
    }
  }

  lemma ConflictMeansDiffers<V>(w: Log<V>, log: Log<V>, prev: nat, entries: Log<V>)
    requires prev + |entries| <= |w| && prev + |entries| <= |log|
    requires entries == w[prev..prev + |entries|] && Agree(w, log, prev)
    requires entries != [] && w[prev + |entries| - 1].term == log[prev + |entries| - 1].term ==>
               Agree(w, log, prev + |entries|)
    ensures Conflict(log, prev, entries) <==> !Agree(w, log, prev + |entries|)
  {
    assert forall i :: 0 <= i < |entries| ==> entries[i] == w[prev + i];
    if entries != [] && !Conflict(log, prev, entries) {
      assert log[prev + (|entries| - 1)].term == entries[|entries| - 1].term;
    }
  }

  /** `r` is the leader's log `w` up to n, or the old `log` that already held that;
      the second reading keeps all that does not conflict, the first takes the whole of `w`. */
  ghost predicate SpliceResult<V>(rule: Splice, w: Log<V>, log: Log<V>, n: nat, r: Log<V>) {
    && n <= |w|
    && (r == w[..n] || (r == log && Agree(w, log, n)))
    && (rule.Merge? && Agree(w, log, n) ==> r == log)
    && (rule.Replace? ==> n == |w|)
  }

  /** Under the first reading of the splice, a request must carry the leader's whole suffix. */
  ghost predicate WholeIfReplacing<V>(rule: Splice, h: History<V>, req: AppendRequest<V>) {
    rule.Replace? ==> req.term in h.wins && req.prevIndex + |req.entries| == |h.wins[req.term].log|
  }

  lemma ConflictIsDisagreement<V>(h: History<V>, log: Log<V>, req: AppendRequest<V>)
    requires Traced(log, h) && FromLeader(h, req) && Traced(h.wins[req.term].log, h)
    requires Matches(log, req) && req.prevIndex + |req.entries| <= |log|
    ensures Conflict(log, req.prevIndex, req.entries)
            <==> !Agree(h.wins[req.term].log, log, req.prevIndex + |req.entries|)
  {
    var w, n := h.wins[req.term].log, req.prevIndex + |req.entries|;
    PrefixAgrees(h, log, req);
    if req.entries != [] && w[n - 1].term == log[n - 1].term {
      SameTermSamePrefix(w, log, h, n - 1);
    }
    ConflictMeansDiffers(w, log, req.prevIndex, req.entries);
  }

  lemma SpliceOutcome<V>(h: History<V>, rule: Splice, log: Log<V>, req: AppendRequest<V>)
    requires Traced(log, h) && FromLeader(h, req) && Traced(h.wins[req.term].log, h)
    requires Matches(log, req) && WholeIfReplacing(rule, h, req)
    ensures SpliceResult(rule, h.wins[req.term].log, log, req.prevIndex + |req.entries|,
                         IntendedSplice(rule, log, req.prevIndex, req.entries))
  {
    PrefixAgrees(h, log, req);
    if req.prevIndex + |req.entries| <= |log| {
      ConflictIsDisagreement(h, log, req);
    }
  }

  /** What the old log and the leader's log both hold is still there. */
  lemma SpliceKeeps<V>(rule: Splice, w: Log<V>, log: Log<V>, n: nat, r: Log<V>, a: Log<V>, k: nat)
    requires SpliceResult(rule, w, log, n, r)
    requires Agree(a, log, k) && Agree(a, w, k)
    ensures Agree(a, r, k)
  {
    if k > n {
      assert forall i :: 0 <= i < n ==> a[i] == w[i] == log[i];
    }
  }
}
