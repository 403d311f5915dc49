/** What a run leaves behind: who won each term and with which log, who voted for
    whom and with which log, and how far each node has acknowledged each leader's
    log. The facts stated here only ever grow. */
module History {
  import opened Types
  import opened Quorum
  import opened Handlers
  import opened Cluster

  /** `log` is the log of the leader of one term, of which it had `base` entries when it won. */
  datatype Victory<V> = Victory(leader: NodeId, voters: set<NodeId>, base: nat, log: Log<V>)

  /** A vote that was counted, and the voter's log when it was given. */
  datatype Vote<V> = Vote(candidate: NodeId, log: Log<V>)

  datatype History<V> = History(
    wins: map<Term, Victory<V>>,
    votes: map<(NodeId, Term), Vote<V>>,
    acks: map<(NodeId, Term), nat>)

  /** The entry at i, with everything before it, comes from the leader of its term. */
  ghost predicate TracedAt<V>(log: Log<V>, h: History<V>, i: nat)
    requires i < |log|
  {
    log[i].term in h.wins && Agree(log, h.wins[log[i].term].log, i + 1)
  }

  ghost predicate Traced<V>(log: Log<V>, h: History<V>) {
    forall i {:trigger TracedAt(log, h, i)} :: 0 <= i < |log| ==> TracedAt(log, h, i)
  }

  /** `v` gave its vote in term `t` to `n`, whose log `log` was at least as recent. */
  ghost predicate Counted<V>(h: History<V>, v: NodeId, t: Term, n: NodeId, log: Log<V>) {
    && (v, t) in h.votes
    && h.votes[(v, t)].candidate == n
    && UpToDate(LastTerm(log), |log|, h.votes[(v, t)].log)
  }

  ghost predicate WinOk<V>(cfg: Config, h: History<V>, t: Term)
    requires t in h.wins
  {
    var w := h.wins[t];
    && w.leader in cfg.members
    && w.voters <= cfg.members && |w.voters| >= |cfg.members| / 2 + 1
    && w.base <= |w.log|
    && (forall i :: 0 <= i < w.base ==> w.log[i].term < t)
    && (forall i :: w.base <= i < |w.log| ==> w.log[i].term == t)
    && (forall v :: v in w.voters ==> Counted(h, v, t, w.leader, w.log[..w.base]))
  }

  /** The leader of some term in (t, u] lacks the first k entries of the leader of
      t; if that term is u itself, its leader is not `cand`. */
  ghost predicate LackedBy<V>(h: History<V>, t: Term, k: nat, u: Term, cand: Option<NodeId>) {
    t in h.wins &&
    exists x :: x in h.wins && t < x <= u && (x == u && cand.Some? ==> h.wins[x].leader != cand.value)
                && !Agree(h.wins[t].log, h.wins[x].log, k)
  }

  /** `log` holds the first k entries of the leader of t, unless a later leader up to u lacked them. */
  ghost predicate Kept<V>(h: History<V>, t: Term, k: nat, log: Log<V>, u: Term, cand: Option<NodeId>) {
    t in h.wins && (Agree(h.wins[t].log, log, k) || LackedBy(h, t, k, u, cand))
  }

  ghost predicate Acked<V>(h: History<V>, q: NodeId, t: Term, k: nat) {
    (q, t) in h.acks && k <= h.acks[(q, t)]
  }

  ghost predicate AckOk<V>(cfg: Config, h: History<V>, q: NodeId, t: Term)
    requires (q, t) in h.acks
  {
    q in cfg.members && t in h.wins && h.acks[(q, t)] <= |h.wins[t].log|
  }

  ghost predicate WinsOk<V>(cfg: Config, h: History<V>) {
    && (forall t {:trigger WinOk(cfg, h, t)} :: t in h.wins ==> WinOk(cfg, h, t))
    && (forall t {:trigger Traced(h.wins[t].log, h)} :: t in h.wins ==> Traced(h.wins[t].log, h))
  }

  ghost predicate AcksInLogs<V>(cfg: Config, h: History<V>) {
    forall q, t {:trigger AckOk(cfg, h, q, t)} :: (q, t) in h.acks ==> AckOk(cfg, h, q, t)
  }

  /** What a voter had acknowledged to an earlier leader was in its log when it voted. */
  ghost predicate VotesKept<V>(cfg: Config, h: History<V>) {
    && (forall v, u :: (v, u) in h.votes ==> v in cfg.members && Traced(h.votes[(v, u)].log, h))
    && (forall v, u, t: Term, k: nat :: (v, u) in h.votes && Acked(h, v, t, k) && t < u ==>
                               Kept(h, t, k, h.votes[(v, u)].log, u, Some(h.votes[(v, u)].candidate)))
  }

  ghost predicate HistoryOk<V>(cfg: Config, h: History<V>) {
    WinsOk(cfg, h) && AcksInLogs(cfg, h) && VotesKept(cfg, h)
  }

  /** A quorum has acknowledged the first k entries of the leader of t, the last of its own term. */
  ghost predicate AckQuorum<V>(cfg: Config, h: History<V>, t: Term, k: nat, q: set<NodeId>) {
    && q <= cfg.members && |q| >= |cfg.members| / 2 + 1
    && forall n :: n in q ==> Acked(h, n, t, k)
  }

  ghost predicate Committed<V>(cfg: Config, h: History<V>, t: Term, k: nat) {
    && t in h.wins && 0 < k <= |h.wins[t].log| && h.wins[t].log[k - 1].term == t
    && exists q :: AckQuorum(cfg, h, t, k, q)
  }

  /** `log` is part of what the leader of t committed. */
  ghost predicate CoveredBy<V>(cfg: Config, h: History<V>, log: Log<V>, t: Term, k: nat) {
    Committed(cfg, h, t, k) && |log| <= k && Agree(log, h.wins[t].log, |log|)
  }

  /** `log` is part of what some leader up to term u committed. */
  ghost predicate CommittedLog<V>(cfg: Config, h: History<V>, log: Log<V>, u: Term) {
    log == [] || exists t: Term, k: nat :: t <= u && CoveredBy(cfg, h, log, t, k)
  }

  /** The entries of a request are a stretch of the log of the leader of its term. */
  ghost predicate FromLeader<V>(h: History<V>, req: AppendRequest<V>) {
    && req.term in h.wins
    && var w, n := h.wins[req.term].log, req.prevIndex + |req.entries|;
    && n <= |w| && req.entries == w[req.prevIndex..n]
    && (req.prevIndex > 0 ==> req.prevTerm == w[req.prevIndex - 1].term)
    && req.leaderCommit <= n
  }

  /** A request as the leader of its term may have sent it. */
  ghost predicate GoodRequest<V>(cfg: Config, h: History<V>, req: AppendRequest<V>) {
    FromLeader(h, req) && CommittedLog(cfg, h, h.wins[req.term].log[..req.leaderCommit], req.term)
  }

  // ---------------------------------------------------------------- growth

  ghost predicate WinGrows<V>(w: Victory<V>, w': Victory<V>, t: Term) {
    && w'.leader == w.leader && w'.voters == w.voters && w'.base == w.base
    && Agree(w.log, w'.log, |w.log|)
    && forall i :: |w.log| <= i < |w'.log| ==> w'.log[i].term == t
  }

  ghost predicate Extends<V>(h: History<V>, h': History<V>) {
    && (forall t :: t in h.wins ==> t in h'.wins && WinGrows(h.wins[t], h'.wins[t], t))
    && (forall q, t :: (q, t) in h.acks ==> (q, t) in h'.acks && h.acks[(q, t)] <= h'.acks[(q, t)])
  }

  lemma TracedGrows<V>(log: Log<V>, h: History<V>, h': History<V>)
    requires Traced(log, h) && Extends(h, h')
    ensures Traced(log, h')
  {
    forall i | 0 <= i < |log| ensures TracedAt(log, h', i) {
      assert TracedAt(log, h, i);
      assert WinGrows(h.wins[log[i].term], h'.wins[log[i].term], log[i].term);
    }
  }

  /** What a leader appends in its own term cannot supply what it lacked of an earlier one. */
  lemma LackingStays<V>(cfg: Config, h: History<V>, h': History<V>, t: Term, k: nat, x: Term)
    requires HistoryOk(cfg, h) && Extends(h, h')
    requires t in h.wins && x in h.wins && t < x && k <= |h.wins[t].log|
    requires !Agree(h.wins[t].log, h.wins[x].log, k)
    ensures !Agree(h'.wins[t].log, h'.wins[x].log, k)
  {
    assert WinOk(cfg, h, t) && WinOk(cfg, h, x);
    assert WinGrows(h.wins[t], h'.wins[t], t) && WinGrows(h.wins[x], h'.wins[x], x);
    var a, b := h.wins[t].log, h.wins[x].log;
    if k > |b| {
      assert a[|b|].term <= t && h'.wins[t].log[|b|] == a[|b|];
      assert |h'.wins[x].log| > |b| ==> h'.wins[x].log[|b|].term == x;
    }
  }

  lemma LackedGrows<V>(cfg: Config, h: History<V>, h': History<V>, t: Term, k: nat, u: Term, cand: Option<NodeId>)
    requires HistoryOk(cfg, h) && Extends(h, h')
    requires t in h.wins && k <= |h.wins[t].log|
    requires LackedBy(h, t, k, u, cand)
    ensures LackedBy(h', t, k, u, cand)
  {
    var x :| x in h.wins && t < x <= u && (x == u && cand.Some? ==> h.wins[x].leader != cand.value)
             && !Agree(h.wins[t].log, h.wins[x].log, k);
    LackingStays(cfg, h, h', t, k, x);
    assert WinGrows(h.wins[x], h'.wins[x], x);
  }

  lemma KeptGrows<V>(cfg: Config, h: History<V>, h': History<V>, t: Term, k: nat, log: Log<V>, u: Term, cand: Option<NodeId>)
    requires HistoryOk(cfg, h) && Extends(h, h')
    requires t in h.wins && k <= |h.wins[t].log|
    requires Kept(h, t, k, log, u, cand)
    ensures Kept(h', t, k, log, u, cand)
  {
    assert WinGrows(h.wins[t], h'.wins[t], t);
    if LackedBy(h, t, k, u, cand) {
      LackedGrows(cfg, h, h', t, k, u, cand);
    }
  }

  lemma CommittedGrows<V>(cfg: Config, h: History<V>, h': History<V>, t: Term, k: nat)
    requires Extends(h, h') && Committed(cfg, h, t, k)
    ensures Committed(cfg, h', t, k)
  {
    var q :| AckQuorum(cfg, h, t, k, q);
    assert WinGrows(h.wins[t], h'.wins[t], t);
    forall n | n in q ensures Acked(h', n, t, k) {
      assert Acked(h, n, t, k);
    }
    assert AckQuorum(cfg, h', t, k, q);
  }

  lemma CommittedLogGrows<V>(cfg: Config, h: History<V>, h': History<V>, log: Log<V>, u: Term, u': Term)
    requires Extends(h, h') && CommittedLog(cfg, h, log, u) && u <= u'
    ensures CommittedLog(cfg, h', log, u')
  {
    if log != [] {
      var t: Term, k: nat :| t <= u && CoveredBy(cfg, h, log, t, k);
      CommittedGrows(cfg, h, h', t, k);
      assert WinGrows(h.wins[t], h'.wins[t], t);
      assert CoveredBy(cfg, h', log, t, k);
    }
  }

  lemma RequestStaysGood<V>(cfg: Config, h: History<V>, h': History<V>, req: AppendRequest<V>)
    requires Extends(h, h') && GoodRequest(cfg, h, req)
    ensures GoodRequest(cfg, h', req)
  {
    assert WinGrows(h.wins[req.term], h'.wins[req.term], req.term);
    var w, w' := h.wins[req.term].log, h'.wins[req.term].log;
    assert w'[..req.leaderCommit] == w[..req.leaderCommit];
    CommittedLogGrows(cfg, h, h', w[..req.leaderCommit], req.term, req.term);
  }

  // ---------------------------------------------------------------- logs

  /** Two traced logs with the same term at a position are the same up to there. */
  lemma SameTermSamePrefix<V>(a: Log<V>, b: Log<V>, h: History<V>, i: nat)
    requires Traced(a, h) && Traced(b, h)
    requires i < |a| && i < |b| && a[i].term == b[i].term
    ensures Agree(a, b, i + 1)
  {
    assert TracedAt(a, h, i) && TracedAt(b, h, i);
  }

  lemma TracedPrefix<V>(log: Log<V>, n: nat, h: History<V>)
    requires Traced(log, h) && n <= |log|
    ensures Traced(log[..n], h)
  {
    forall i | 0 <= i < n ensures TracedAt(log[..n], h, i) {
      assert TracedAt(log, h, i);
    }
  }

  lemma TracedTermsGrow<V>(cfg: Config, log: Log<V>, h: History<V>)
    requires HistoryOk(cfg, h) && Traced(log, h)
    ensures NonDecreasing(log)
  {
    forall i, j | 0 <= i <= j < |log| ensures InOrder(log, i, j) {
      assert TracedAt(log, h, j) && WinOk(cfg, h, log[j].term);
      assert log[i] == h.wins[log[j].term].log[i];
    }
  }

  // ---------------------------------------------------------------- completeness

  /** A log at least as recent as one that holds a committed prefix holds it too,
      if the leaders of the terms in between do. */
  lemma RecentLogHoldsPrefix<V>(cfg: Config, h: History<V>, t: Term, k: nat, voter: Log<V>, log: Log<V>, u: Term)
    requires HistoryOk(cfg, h) && t in h.wins && 0 < k <= |h.wins[t].log| && h.wins[t].log[k - 1].term == t
    requires Traced(log, h) && (forall i :: 0 <= i < |log| ==> log[i].term < u)
    requires Traced(voter, h) && Agree(h.wins[t].log, voter, k)
    requires UpToDate(LastTerm(log), |log|, voter)
    requires forall x :: x in h.wins && t < x < u ==> Agree(h.wins[t].log, h.wins[x].log, k)
    ensures Agree(h.wins[t].log, log, k)
  {
    TracedTermsGrow(cfg, voter, h);
    assert InOrder(voter, k - 1, |voter| - 1) && t <= LastTerm(voter) <= LastTerm(log);
    assert log != [];
    var s := LastTerm(log);
    assert TracedAt(log, h, |log| - 1) && TracedAt(voter, h, |voter| - 1);
    if s == LastTerm(voter) {
      assert Agree(voter, h.wins[s].log, |voter|) && Agree(log, h.wins[s].log, |log|);
    } else {
      assert WinOk(cfg, h, s) && Traced(h.wins[s].log, h) && Agree(log, h.wins[s].log, |log|);
      assert t < s < u && Agree(h.wins[t].log, h.wins[s].log, k);
      TracedTermsGrow(cfg, h.wins[s].log, h);
      assert |log| >= k;
    }
  }

  /** Leader Completeness: what the leader of t committed is in the log of every later leader. */
  lemma {:induction false} Completeness<V>(cfg: Config, h: History<V>, t: Term, k: nat, u: Term)
    requires HistoryOk(cfg, h)
    requires Committed(cfg, h, t, k)
    requires u in h.wins && t < u
    ensures k <= h.wins[u].base && Agree(h.wins[t].log, h.wins[u].log, k)
    decreases u
  {
    var w := h.wins[u];
    assert WinOk(cfg, h, u) && Traced(w.log, h);
    forall x | x in h.wins && t < x < u ensures Agree(h.wins[t].log, h.wins[x].log, k) {
      Completeness(cfg, h, t, k, x);
    }
    var q :| AckQuorum(cfg, h, t, k, q);
    var v := QuorumsIntersect(cfg.members, q, w.voters, |cfg.members| / 2 + 1);
    assert Acked(h, v, t, k) && Counted(h, v, u, w.leader, w.log[..w.base]);
    var vote := h.votes[(v, u)];
    assert Kept(h, t, k, vote.log, u, Some(vote.candidate));
    assert !LackedBy(h, t, k, u, Some(vote.candidate));
    TracedPrefix(w.log, w.base, h);
    RecentLogHoldsPrefix(cfg, h, t, k, vote.log, w.log[..w.base], u);
  }

  lemma LeaderHoldsCovered<V>(cfg: Config, h: History<V>, log: Log<V>, t: Term, k: nat, u: Term)
    requires HistoryOk(cfg, h)
    requires CoveredBy(cfg, h, log, t, k) && t <= u && u in h.wins
    ensures Agree(log, h.wins[u].log, |log|)
  {
    if t < u {
      Completeness(cfg, h, t, k, u);
    }
  }

  /** A committed log is held by the leader of any term from that of its commit on. */
  lemma LeaderHoldsCommitted<V>(cfg: Config, h: History<V>, log: Log<V>, t: Term, u: Term)
    requires HistoryOk(cfg, h)
    requires CommittedLog(cfg, h, log, t) && t <= u && u in h.wins
    ensures Agree(log, h.wins[u].log, |log|)
  {
    if log != [] {
      var x: Term, k: nat :| x <= t && CoveredBy(cfg, h, log, x, k);
      LeaderHoldsCovered(cfg, h, log, x, k, u);
    }
  }
}
