/** The intended append handler keeps the invariant of the node that runs it, under both
    readings of the splice: what it acknowledged before survives, what it acknowledges
    now is in its log, and what it delivers is committed. The history only grows. */
module Replication {
  import opened Types
  import opened Handlers
  import opened Cluster
  import opened History
  import opened Invariant

  lemma RaiseExtends<V>(h: History<V>, q: NodeId, t: Term, k: nat)
    ensures Extends(h, Raise(h, q, t, k))
    ensures forall n :: n != q ==> SameFor(n, h, Raise(h, q, t, k))
    ensures Acked(Raise(h, q, t, k), q, t, k)
  {
    var h' := Raise(h, q, t, k);
    forall x | x in h.wins ensures WinGrows(h.wins[x], h'.wins[x], x) {}
  }

  lemma RaiseKeepsWins<V>(cfg: Config, h: History<V>, q: NodeId, t: Term, k: nat)
    requires WinsOk(cfg, h)
    ensures WinsOk(cfg, Raise(h, q, t, k))
  {
    var h' := Raise(h, q, t, k);
    RaiseExtends(h, q, t, k);
    forall x | x in h'.wins ensures WinOk(cfg, h', x) && Traced(h'.wins[x].log, h') {
      var w := h.wins[x];
      assert WinOk(cfg, h, x) && Traced(w.log, h);
      TracedGrows(w.log, h, h');
      forall v | v in w.voters ensures Counted(h', v, x, w.leader, w.log[..w.base]) {
        assert Counted(h, v, x, w.leader, w.log[..w.base]);
      }
    }
  }

  lemma RaiseKeepsVotes<V>(cfg: Config, h: History<V>, q: NodeId, t: Term, k: nat)
    requires VotesKept(cfg, h)
    requires forall u :: (q, u) in h.votes ==> u <= t
    ensures VotesKept(cfg, Raise(h, q, t, k))
  {
    var h' := Raise(h, q, t, k);
    RaiseExtends(h, q, t, k);
    forall v, u | (v, u) in h'.votes ensures Traced(h'.votes[(v, u)].log, h') {
      TracedGrows(h.votes[(v, u)].log, h, h');
    }
    forall v, u, x: Term, j: nat | (v, u) in h'.votes && Acked(h', v, x, j) && x < u
      ensures Kept(h', x, j, h'.votes[(v, u)].log, u, Some(h'.votes[(v, u)].candidate))
    {
      assert Acked(h, v, x, j);
      assert Kept(h, x, j, h.votes[(v, u)].log, u, Some(h.votes[(v, u)].candidate));
      assert LackedBy(h, x, j, u, Some(h.votes[(v, u)].candidate)) ==>
          LackedBy(h', x, j, u, Some(h'.votes[(v, u)].candidate));
    }
  }

  lemma RaiseKeepsHistory<V>(cfg: Config, h: History<V>, q: NodeId, t: Term, k: nat)
    requires HistoryOk(cfg, h) && q in cfg.members
    requires t in h.wins && k <= |h.wins[t].log|
    requires forall u :: (q, u) in h.votes ==> u <= t
    ensures HistoryOk(cfg, Raise(h, q, t, k))
  {
    var h' := Raise(h, q, t, k);
    RaiseKeepsWins(cfg, h, q, t, k);
    RaiseKeepsVotes(cfg, h, q, t, k);
    forall v, x | (v, x) in h'.acks ensures AckOk(cfg, h', v, x) {
      assert (v, x) in h.acks ==> AckOk(cfg, h, v, x);
    }
  }

  ghost function Accepted<V>(rule: Splice, s: NodeState<V>, req: AppendRequest<V>): NodeState<V>
    requires Accepts(s, req)
  {
    AppendIntended(rule, 0, s, req).state
  }

  /** The log after an accepted request. */
  ghost function NewLog<V>(rule: Splice, s: NodeState<V>, req: AppendRequest<V>): Log<V>
    requires Accepts(s, req)
  {
    IntendedSplice(rule, s.log, req.prevIndex, req.entries)
  }

  /** What an accepted request does to the log, the term and the role. */
  ghost predicate Took<V>(rule: Splice, s: NodeState<V>, req: AppendRequest<V>, s': NodeState<V>)
    requires Accepts(s, req)
  {
    && s'.log == NewLog(rule, s, req) && s'.term == req.term && s'.role.Follower?
    && (req.term == s.term ==> s'.votedFor == s.votedFor)
  }

  lemma AcceptedTook<V>(rule: Splice, s: NodeState<V>, req: AppendRequest<V>)
    requires Accepts(s, req)
    ensures Took(rule, s, req, Accepted(rule, s, req))
  {
  }

  lemma SpliceHolds<V>(rule: Splice, w: Log<V>, log: Log<V>, n: nat, r: Log<V>)
    requires SpliceResult(rule, w, log, n, r)
    ensures Agree(w, r, n)
  {
  }

  /** One acknowledged length, old or new, after an accepted request. */
  lemma AckAfterAppend<V>(cfg: Config, h: History<V>, rule: Splice, f: NodeId, s: NodeState<V>,
                          req: AppendRequest<V>, r: Log<V>, t: Term, k: nat)
    requires AcksInLogs(cfg, h) && AcksOk(f, s.log, s.term, h) && req.term in h.wins && s.term <= req.term
    requires SpliceResult(rule, h.wins[req.term].log, s.log, req.prevIndex + |req.entries|, r)
    requires Acked(h, f, t, k) || (t == req.term && k <= req.prevIndex + |req.entries|)
    ensures t <= req.term && Kept(h, t, k, r, req.term, None)
  {
    if Acked(h, f, t, k) {
      assert AckOk(cfg, h, f, t);
    } else {
      SpliceHolds(rule, h.wins[req.term].log, s.log, req.prevIndex + |req.entries|, r);
    }
  }

  lemma AcksAfterAppend<V>(cfg: Config, h: History<V>, rule: Splice, f: NodeId, s: NodeState<V>,
                           req: AppendRequest<V>, r: Log<V>)
    requires AcksInLogs(cfg, h) && AcksOk(f, s.log, s.term, h) && req.term in h.wins && s.term <= req.term
    requires SpliceResult(rule, h.wins[req.term].log, s.log, req.prevIndex + |req.entries|, r)
    ensures AcksOk(f, r, req.term, Raise(h, f, req.term, req.prevIndex + |req.entries|))
  {
    var h' := Raise(h, f, req.term, req.prevIndex + |req.entries|);
    forall t: Term, k: nat | Acked(h', f, t, k) ensures t <= req.term && Kept(h', t, k, r, req.term, None) {
      AckAfterAppend(cfg, h, rule, f, s, req, r, t, k);
    }
  }

  lemma OutboxAfterAppend<V>(rule: Splice, s: NodeState<V>, req: AppendRequest<V>)
    requires Accepts(s, req)
    requires var r := NewLog(rule, s, req);
             s.commit <= |r| && s.outbox == r[..s.commit]
    requires req.leaderCommit <= req.prevIndex + |req.entries| <= |NewLog(rule, s, req)|
    ensures var r, s' := NewLog(rule, s, req), Accepted(rule, s, req);
            && s'.log == r && s'.term == req.term && s'.role.Follower?
            && s'.commit == (if req.leaderCommit > s.commit then req.leaderCommit else s.commit)
            && s'.outbox == r[..s'.commit]
  {
    var r := NewLog(rule, s, req);
    if req.leaderCommit > s.commit {
      assert r[..s.commit] + r[s.commit..req.leaderCommit] == r[..req.leaderCommit];
    }
  }

  /** The delivered entries are in the new log, and so are those delivered now. */
  lemma DeliveryAfterAppend<V>(cfg: Config, h: History<V>, rule: Splice, s: NodeState<V>, req: AppendRequest<V>)
    requires DeliveryOk(cfg, s, h) && GoodRequest(cfg, h, req) && Accepts(s, req)
    requires Agree(s.outbox, h.wins[req.term].log, |s.outbox|)
    requires SpliceResult(rule, h.wins[req.term].log, s.log, req.prevIndex + |req.entries|, NewLog(rule, s, req))
    ensures DeliveryOk(cfg, Accepted(rule, s, req), h)
  {
    var w, n := h.wins[req.term].log, req.prevIndex + |req.entries|;
    var r, s' := NewLog(rule, s, req), Accepted(rule, s, req);
    SpliceKeeps(rule, w, s.log, n, r, s.outbox, s.commit);
    OutboxAfterAppend(rule, s, req);
    if req.leaderCommit > s.commit {
      assert s'.outbox == w[..req.leaderCommit];
    } else {
      CommittedLogGrows(cfg, h, h, s.outbox, s.term, req.term);
    }
  }

  lemma LogAfterAppend<V>(cfg: Config, h: History<V>, rule: Splice, s: NodeState<V>, req: AppendRequest<V>, s': NodeState<V>)
    requires LogOk(s, h) && FromLeader(h, req) && Accepts(s, req) && Took(rule, s, req, s')
    requires WinOk(cfg, h, req.term) && Traced(h.wins[req.term].log, h)
    requires SpliceResult(rule, h.wins[req.term].log, s.log, req.prevIndex + |req.entries|, s'.log)
    ensures LogOk(s', h)
  {
    var w, n := h.wins[req.term].log, req.prevIndex + |req.entries|;
    TracedPrefix(w, n, h);
    assert forall i :: 0 <= i < |w| ==> w[i].term <= req.term;
    forall i | 0 <= i < |s'.log| ensures s'.log[i].term <= req.term {
      assert s'.log == s.log || s'.log[i] == w[i];
    }
  }

  /** The follower after an accepted request, which it thereby acknowledges. */
  lemma AppendKeeps<V>(cfg: Config, h: History<V>, rule: Splice, f: NodeId, s: NodeState<V>, req: AppendRequest<V>)
    returns (h': History<V>)
    requires HistoryOk(cfg, h) && f in cfg.members && NodeOk(cfg, f, s, h)
    requires GoodRequest(cfg, h, req) && WholeIfReplacing(rule, h, req) && Accepts(s, req)
    ensures h' == Raise(h, f, req.term, req.prevIndex + |req.entries|)
    ensures HistoryOk(cfg, h') && Extends(h, h')
    ensures forall n :: n != f ==> SameFor(n, h, h')
    ensures Acked(h', f, req.term, req.prevIndex + |req.entries|)
    ensures NodeOk(cfg, f, Accepted(rule, s, req), h')
  {
    var n := req.prevIndex + |req.entries|;
    h' := Raise(h, f, req.term, n);
    RaiseExtends(h, f, req.term, n);
    RaiseKeepsHistory(cfg, h, f, req.term, n);
    FollowerKeeps(cfg, h, rule, f, s, req, Accepted(rule, s, req)) by {
      AcceptedTook(rule, s, req);
      SpliceOutcome(h, rule, s.log, req);
      LeaderHoldsCommitted(cfg, h, s.outbox, s.term, req.term);
      DeliveryAfterAppend(cfg, h, rule, s, req);
    }
  }

  lemma FollowerKeeps<V>(cfg: Config, h: History<V>, rule: Splice, f: NodeId, s: NodeState<V>,
                         req: AppendRequest<V>, s': NodeState<V>)
    requires HistoryOk(cfg, h) && NodeOk(cfg, f, s, h) && GoodRequest(cfg, h, req)
    requires Accepts(s, req) && Took(rule, s, req, s') && DeliveryOk(cfg, s', h)
    requires SpliceResult(rule, h.wins[req.term].log, s.log, req.prevIndex + |req.entries|, s'.log)
    ensures NodeOk(cfg, f, s', Raise(h, f, req.term, req.prevIndex + |req.entries|))
  {
    var n, h' := req.prevIndex + |req.entries|, Raise(h, f, req.term, req.prevIndex + |req.entries|);
    RaiseExtends(h, f, req.term, n);
    assert WinOk(cfg, h, req.term);
    LogAfterAppend(cfg, h, rule, s, req, s');
    TracedGrows(s'.log, h, h');
    AcksAfterAppend(cfg, h, rule, f, s, req, s'.log);
    CommittedLogGrows(cfg, h, h', s'.outbox, s'.term, s'.term);
    assert VoteOk(f, s', h');
  }
}
