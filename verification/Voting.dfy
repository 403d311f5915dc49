/** Candidacies, votes, releases and victories keep the invariant, and a term is won once:
    the tally of a candidate is a quorum of pledges, any two quorums share a member, and
    a member that is pledged to one candidate has not counted for another in that term. */
module Voting {
  import opened Types
  import opened Quorum
  import opened Handlers
  import opened Cluster
  import opened History
  import opened Invariant

  /** A node that only moves to a later term, and does not lead there. */
  ghost predicate OnlyTermRises<V>(s: NodeState<V>, s': NodeState<V>) {
    && s.term <= s'.term && !s'.role.Leader?
    && s'.log == s.log && s'.commit == s.commit && s'.outbox == s.outbox
  }

  lemma TermRises<V>(cfg: Config, n: NodeId, s: NodeState<V>, s': NodeState<V>, h: History<V>)
    requires NodeOk(cfg, n, s, h) && OnlyTermRises(s, s') && VoteOk(n, s', h)
    ensures NodeOk(cfg, n, s', h)
  {
    forall t: Term, k: nat | Acked(h, n, t, k) ensures t <= s'.term && Kept(h, t, k, s'.log, s'.term, None) {
      assert Kept(h, t, k, s.log, s.term, None);
      assert LackedBy(h, t, k, s.term, None) ==> LackedBy(h, t, k, s'.term, None);
    }
    CommittedLogGrows(cfg, h, h, s.outbox, s.term, s'.term) by {
      assert Extends(h, h);
    }
  }

  ghost function Record<V>(h: History<V>, v: NodeId, t: Term, c: NodeId, log: Log<V>): History<V> {
    h.(votes := h.votes[(v, t) := Vote(c, log)])
  }

  /** `v`, in the state `s`, may give `c` a vote in term t that is counted. */
  ghost predicate Votable<V>(h: History<V>, v: NodeId, s: NodeState<V>, t: Term, c: NodeId) {
    && s.term <= t
    && (t in h.wins ==> h.wins[t].leader != c)
    && ((v, t) in h.votes ==> h.votes[(v, t)].candidate == c)
  }

  lemma RecordKeepsWins<V>(cfg: Config, h: History<V>, v: NodeId, s: NodeState<V>, t: Term, c: NodeId)
    requires WinsOk(cfg, h) && Votable(h, v, s, t, c)
    ensures WinsOk(cfg, Record(h, v, t, c, s.log))
    ensures Extends(h, Record(h, v, t, c, s.log))
  {
    var h' := Record(h, v, t, c, s.log);
    forall x | x in h.wins ensures WinGrows(h.wins[x], h'.wins[x], x) {}
    forall x | x in h'.wins ensures WinOk(cfg, h', x) && Traced(h'.wins[x].log, h') {
      var w := h.wins[x];
      assert WinOk(cfg, h, x) && Traced(w.log, h);
      TracedGrows(w.log, h, h');
      forall q | q in w.voters ensures Counted(h', q, x, w.leader, w.log[..w.base]) {
        assert Counted(h, q, x, w.leader, w.log[..w.base]);
      }
    }
  }

  lemma RecordKeepsVotes<V>(cfg: Config, h: History<V>, v: NodeId, s: NodeState<V>, t: Term, c: NodeId)
    requires VotesKept(cfg, h) && Votable(h, v, s, t, c) && v in cfg.members
    requires LogOk(s, h) && AcksOk(v, s.log, s.term, h) && Extends(h, Record(h, v, t, c, s.log))
    ensures VotesKept(cfg, Record(h, v, t, c, s.log))
  {
    var h' := Record(h, v, t, c, s.log);
    forall q, u | (q, u) in h'.votes ensures Traced(h'.votes[(q, u)].log, h') {
      TracedGrows(h'.votes[(q, u)].log, h, h');
    }
    forall q, u, x: Term, k: nat | (q, u) in h'.votes && Acked(h', q, x, k) && x < u
      ensures Kept(h', x, k, h'.votes[(q, u)].log, u, Some(h'.votes[(q, u)].candidate))
    {
      assert Acked(h, q, x, k);
      if (q, u) == (v, t) {
        assert Kept(h, x, k, s.log, s.term, None);
        assert LackedBy(h, x, k, s.term, None) ==> LackedBy(h', x, k, t, Some(c));
      } else {
        var cand := Some(h.votes[(q, u)].candidate);
        assert Kept(h, x, k, h.votes[(q, u)].log, u, cand);
        assert LackedBy(h, x, k, u, cand) ==> LackedBy(h', x, k, u, cand);
      }
    }
  }

  lemma RecordKeeps<V>(cfg: Config, h: History<V>, v: NodeId, s: NodeState<V>, t: Term, c: NodeId)
    requires HistoryOk(cfg, h) && Votable(h, v, s, t, c) && v in cfg.members
    requires LogOk(s, h) && AcksOk(v, s.log, s.term, h)
    ensures var h' := Record(h, v, t, c, s.log);
            && HistoryOk(cfg, h') && Extends(h, h')
            && (forall n :: n != v ==> SameFor(n, h, h'))
            && h'.acks == h.acks && h'.wins == h.wins
  {
    var h' := Record(h, v, t, c, s.log);
    RecordKeepsWins(cfg, h, v, s, t, c);
    RecordKeepsVotes(cfg, h, v, s, t, c);
    forall q, x | (q, x) in h'.acks ensures AckOk(cfg, h', q, x) {
      assert AckOk(cfg, h, q, x);
    }
  }

  /** What concerns the election of `n` in term t is as before. */
  ghost predicate SamePoll<V>(n: NodeId, t: Term, h: History<V>, h': History<V>) {
    && (forall v :: (v, t) in h.votes && h.votes[(v, t)].candidate == n ==>
                      (v, t) in h'.votes && h'.votes[(v, t)] == h.votes[(v, t)])
    && (t in h'.wins && h'.wins[t].leader == n ==> t in h.wins && h.wins[t].leader == n)
  }

  lemma PollStays<V>(cfg: Config, n: NodeId, s: NodeState<V>, rest: seq<NodeId>, h: History<V>, h': History<V>)
    requires PollOk(cfg, n, s, rest, h) && SamePoll(n, s.term, h, h')
    ensures PollOk(cfg, n, s, rest, h')
  {
  }

  /** The history alone changes, by facts about one node. */
  lemma SameWins<V>(cfg: Config, n: NodeId, s: NodeState<V>, h: History<V>, h': History<V>)
    requires HistoryOk(cfg, h) && NodeOk(cfg, n, s, h)
    requires Extends(h, h') && h'.wins == h.wins && h'.acks == h.acks && VoteOk(n, s, h')
    ensures NodeOk(cfg, n, s, h')
  {
    TracedGrows(s.log, h, h');
    forall t: Term, k: nat | Acked(h', n, t, k) ensures t <= s.term && Kept(h', t, k, s.log, s.term, None) {
      assert Acked(h, n, t, k) && AckOk(cfg, h, n, t);
      KeptGrows(cfg, h, h', t, k, s.log, s.term, None);
    }
    assert LeaderOk(cfg, n, s, h') by {
      if s.role.Leader? {
        forall p | p in s.matchIndex && s.matchIndex[p] > 0 ensures Acked(h', p, s.term, s.matchIndex[p]) {
          assert Acked(h, p, s.term, s.matchIndex[p]);
        }
      }
    }
    CommittedLogGrows(cfg, h, h', s.outbox, s.term, s.term);
  }

  /** A node stands for election: its vote for itself is counted. */
  lemma StandKeeps<V>(cfg: Config, h: History<V>, n: NodeId, s: NodeState<V>) returns (h': History<V>)
    requires ValidConfig(cfg) && n in cfg.members && HistoryOk(cfg, h) && NodeOk(cfg, n, s, h)
    ensures h' == Record(h, n, s.term + 1, n, s.log)
    ensures HistoryOk(cfg, h') && Extends(h, h') && (forall m :: m != n ==> SameFor(m, h, h'))
    ensures NodeOk(cfg, n, Stand(n, s), h')
    ensures PeersOf(cfg, n) != [] ==> PollOk(cfg, n, Stand(n, s), PeersOf(cfg, n), h')
    ensures forall m, t :: m != n ==> SamePoll(m, t, h, h')
  {
    h' := Record(h, n, s.term + 1, n, s.log);
    RecordKeeps(cfg, h, n, s, s.term + 1, n);
    TermRises(cfg, n, s, Stand(n, s), h);
    SameWins(cfg, n, Stand(n, s), h, h');
    assert PeersFine(cfg, n);
    forall p | p in PeersOf(cfg, n) ensures p != n {
      PeerIsOther(cfg, n, p);
    }
  }

  /** A peer gives its vote to a candidate that waits for it. */
  lemma GrantKeeps<V>(cfg: Config, h: History<V>, v: NodeId, s: NodeState<V>, c: NodeId, cs: NodeState<V>, rest: seq<NodeId>)
    returns (h': History<V>)
    requires HistoryOk(cfg, h) && v in cfg.members && NodeOk(cfg, v, s, h)
    requires PollOk(cfg, c, cs, rest, h) && v in rest
    requires Grants(s, Ballot(c, cs))
    ensures h' == Record(h, v, cs.term, c, s.log)
    ensures HistoryOk(cfg, h') && Extends(h, h') && (forall m :: m != v ==> SameFor(m, h, h'))
    ensures NodeOk(cfg, v, Granted(s, Ballot(c, cs)), h')
    ensures forall m, t :: m != c ==> SamePoll(m, t, h, h')
    ensures PollOk(cfg, c, cs, rest, h') && Counted(h', v, cs.term, c, cs.log)
  {
    var req := Ballot(c, cs);
    assert Votable(h, v, s, cs.term, c);
    h' := Record(h, v, cs.term, c, s.log);
    RecordKeeps(cfg, h, v, s, cs.term, c);
    TermRises(cfg, v, s, Granted(s, req), h);
    SameWins(cfg, v, Granted(s, req), h, h');
  }

  lemma ForgetKeepsVotes<V>(cfg: Config, h: History<V>, h': History<V>)
    requires VotesKept(cfg, h) && Extends(h, h') && h'.wins == h.wins && h'.acks == h.acks
    requires forall v, u :: (v, u) in h'.votes ==> (v, u) in h.votes && h'.votes[(v, u)] == h.votes[(v, u)]
    ensures VotesKept(cfg, h')
  {
    forall q, u | (q, u) in h'.votes ensures Traced(h'.votes[(q, u)].log, h') {
      TracedGrows(h.votes[(q, u)].log, h, h');
    }
    forall q, u, x: Term, k: nat | (q, u) in h'.votes && Acked(h', q, x, k) && x < u
      ensures Kept(h', x, k, h'.votes[(q, u)].log, u, Some(h'.votes[(q, u)].candidate))
    {
      assert Acked(h, q, x, k);
      var cand := Some(h.votes[(q, u)].candidate);
      assert Kept(h, x, k, h.votes[(q, u)].log, u, cand);
      assert LackedBy(h, x, k, u, cand) ==> LackedBy(h', x, k, u, cand);
    }
  }

  ghost function Forget<V>(h: History<V>, n: NodeId, t: Term): History<V> {
    h.(votes := h.votes - {(n, t)})
  }

  /** A vote that a node gave itself, in a term it has not won, may be forgotten. */
  lemma ForgetKeepsHistory<V>(cfg: Config, h: History<V>, n: NodeId, t: Term)
    requires HistoryOk(cfg, h) && (n, t) in h.votes && h.votes[(n, t)].candidate == n
    requires t in h.wins ==> h.wins[t].leader != n
    ensures HistoryOk(cfg, Forget(h, n, t)) && Extends(h, Forget(h, n, t))
  {
    var h' := Forget(h, n, t);
    forall x | x in h.wins ensures WinGrows(h.wins[x], h'.wins[x], x) {}
    forall x | x in h'.wins ensures WinOk(cfg, h', x) && Traced(h'.wins[x].log, h') {
      var w := h.wins[x];
      assert WinOk(cfg, h, x) && Traced(w.log, h);
      TracedGrows(w.log, h, h');
      forall q | q in w.voters ensures Counted(h', q, x, w.leader, w.log[..w.base]) {
        assert Counted(h, q, x, w.leader, w.log[..w.base]);
      }
    }
    ForgetKeepsVotes(cfg, h, h');
    forall q, x | (q, x) in h'.acks ensures AckOk(cfg, h', q, x) {
      assert AckOk(cfg, h, q, x);
    }
  }

  /** A candidate that is refused by a node of its own or a later term withdraws its
      vote for itself; if that term is its own, it may then vote for another. */
  lemma ReleaseKeeps<V>(cfg: Config, h: History<V>, n: NodeId, s: NodeState<V>, rest: seq<NodeId>, term: Term)
    returns (h': History<V>)
    requires HistoryOk(cfg, h) && NodeOk(cfg, n, s, h) && PollOk(cfg, n, s, rest, h)
    requires term >= s.term
    ensures h' == Forget(h, n, s.term)
    ensures HistoryOk(cfg, h') && Extends(h, h') && (forall m :: m != n ==> SameFor(m, h, h'))
    ensures NodeOk(cfg, n, Release(s, term), h')
    ensures forall m, t :: m != n ==> SamePoll(m, t, h, h')
  {
    h' := Forget(h, n, s.term);
    assert Counted(h, n, s.term, n, s.log);
    ForgetKeepsHistory(cfg, h, n, s.term);
    SameWins(cfg, n, s, h, h');
    TermRises(cfg, n, s, Release(s, term), h');
  }

  /** The votes of a candidate that has a quorum of them. */
  ghost predicate Elected<V>(cfg: Config, n: NodeId, s: NodeState<V>, h: History<V>) {
    && n in s.votes && Distinct(s.votes) && |s.votes| >= |cfg.members| / 2 + 1
    && (s.term in h.wins ==> h.wins[s.term].leader != n)
    && (forall v :: v in s.votes ==> Counted(h, v, s.term, n, s.log))
  }

  /** No term is won twice: the two quorums would share a voter. */
  lemma TermIsNotWon<V>(cfg: Config, h: History<V>, n: NodeId, s: NodeState<V>)
    requires HistoryOk(cfg, h) && Elected(cfg, n, s, h)
    ensures s.term !in h.wins && Elements(s.votes) <= cfg.members
  {
    forall v | v in s.votes ensures v in cfg.members {
      assert Counted(h, v, s.term, n, s.log);
    }
    if s.term in h.wins {
      var w := h.wins[s.term];
      assert WinOk(cfg, h, s.term);
      DistinctSize(s.votes);
      var v := QuorumsIntersect(cfg.members, w.voters, Elements(s.votes), |cfg.members| / 2 + 1);
      assert false;
    }
  }

  ghost function AddWin<V>(h: History<V>, n: NodeId, s: NodeState<V>): History<V> {
    h.(wins := h.wins[s.term := Victory(n, Elements(s.votes), |s.log|, s.log)])
  }

  lemma AddWinKeepsHistory<V>(cfg: Config, h: History<V>, n: NodeId, s: NodeState<V>)
    requires HistoryOk(cfg, h) && n in cfg.members && LogOk(s, h) && Elected(cfg, n, s, h)
    requires s.term !in h.wins && Elements(s.votes) <= cfg.members
    ensures HistoryOk(cfg, AddWin(h, n, s)) && Extends(h, AddWin(h, n, s))
  {
    var h' := AddWin(h, n, s);
    forall x | x in h.wins ensures WinGrows(h.wins[x], h'.wins[x], x) {}
    forall x | x in h'.wins ensures WinOk(cfg, h', x) && Traced(h'.wins[x].log, h') {
      if x == s.term {
        TracedGrows(s.log, h, h');
        DistinctSize(s.votes);
        assert s.log[..|s.log|] == s.log;
        forall v | v in s.votes ensures Counted(h', v, x, n, s.log) {
          assert Counted(h, v, x, n, s.log);
        }
        forall i | 0 <= i < |s.log| ensures s.log[i].term < x {
          assert TracedAt(s.log, h, i);
        }
      } else {
        var w := h.wins[x];
        assert WinOk(cfg, h, x) && Traced(w.log, h);
        TracedGrows(w.log, h, h');
        forall q | q in w.voters ensures Counted(h', q, x, w.leader, w.log[..w.base]) {
          assert Counted(h, q, x, w.leader, w.log[..w.base]);
        }
      }
    }
    GrowthKeepsVotes(cfg, h, h');
    forall q, x | (q, x) in h'.acks ensures AckOk(cfg, h', q, x) {
      assert AckOk(cfg, h, q, x);
    }
  }

  /** Votes already recorded stay well when leaders' logs grow or terms are won. */
  lemma GrowthKeepsVotes<V>(cfg: Config, h: History<V>, h': History<V>)
    requires HistoryOk(cfg, h) && Extends(h, h') && h'.votes == h.votes && h'.acks == h.acks
    ensures VotesKept(cfg, h')
  {
    forall q, u | (q, u) in h'.votes ensures Traced(h'.votes[(q, u)].log, h') {
      TracedGrows(h.votes[(q, u)].log, h, h');
    }
    forall q, u, x: Term, k: nat | (q, u) in h'.votes && Acked(h', q, x, k) && x < u
      ensures Kept(h', x, k, h'.votes[(q, u)].log, u, Some(h'.votes[(q, u)].candidate))
    {
      assert Acked(h, q, x, k) && AckOk(cfg, h, q, x);
      KeptGrows(cfg, h, h', x, k, h.votes[(q, u)].log, u, Some(h.votes[(q, u)].candidate));
    }
  }

  /** The candidate that reaches a quorum becomes the leader of its term. */
  lemma WinKeeps<V>(cfg: Config, h: History<V>, n: NodeId, s: NodeState<V>) returns (h': History<V>)
    requires HistoryOk(cfg, h) && n in cfg.members && NodeOk(cfg, n, s, h) && s.role.Candidate?
    requires Elected(cfg, n, s, h)
    ensures h' == AddWin(h, n, s) && s.term !in h.wins
    ensures HistoryOk(cfg, h') && Extends(h, h') && (forall m :: m != n ==> SameFor(m, h, h'))
    ensures NodeOk(cfg, n, Win(s, PeersOf(cfg, n)), h')
    ensures forall m, t :: m != n ==> SamePoll(m, t, h, h')
  {
    h' := AddWin(h, n, s);
    TermIsNotWon(cfg, h, n, s);
    AddWinKeepsHistory(cfg, h, n, s);
    var s' := Win(s, PeersOf(cfg, n));
    TracedGrows(s.log, h, h');
    AcksStay(cfg, n, s.log, s.term, h, h');
    CommittedLogGrows(cfg, h, h', s.outbox, s.term, s.term);
  }
}
