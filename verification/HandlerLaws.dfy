/** Exactly where the source's append handler and commit rule do what their comments
    say, and what goes wrong where they do not. */
module HandlerLaws {
  import opened Types
  import opened Quorum
  import opened Handlers
  import opened Cluster
  import opened Progress
  import opened StablePhase

  // ---------------------------------------------------------------- the splice

  /** The source's splice is the intended one, under either reading, exactly when the
      follower's log ends where the request begins. */
  lemma SpliceIsIntendedIff<V>(rule: Splice, log: Log<V>, prev: nat, entries: Log<V>)
    requires prev <= |log| && (prev == 0 ==> log == [])
    ensures LiteralSplice(log, prev, entries) == IntendedSplice(rule, log, prev, entries) <==> |log| == prev
  {
    var literal, intended := LiteralSplice(log, prev, entries), IntendedSplice(rule, log, prev, entries);
    if |log| == prev {
      assert log[..prev] == log;
    } else if prev + |entries| < |log| {
      assert |literal| == prev - 1 + |entries|;
    } else {
      assert |literal| == |log| + |entries| && entries != [];
    }
  }

  /** What the source's splice leaves where it is not the intended one: a request that ends
      before the log does loses the entry that it names as previous, and any other is
      added behind a log that already has entries in its place. */
  lemma SpliceLosesOrRepeats<V>(log: Log<V>, prev: nat, entries: Log<V>)
    requires prev < |log| && (prev == 0 ==> log == [])
    ensures var r := LiteralSplice(log, prev, entries);
            if prev + |entries| < |log| then
              |r| == prev - 1 + |entries| && r[..prev - 1] == log[..prev - 1] && r[prev - 1..] == entries
            else
              |r| == |log| + |entries| && r[..|log|] == log && r[|log|..] == entries
  {
  }

  // ---------------------------------------------------------------- the whole handler

  /** The log test of the source's handler, which looks up position prev - 1 of any log that is not empty. */
  predicate LiteralAccepts<V>(s: NodeState<V>, req: AppendRequest<V>) {
    req.prevIndex <= |s.log| && (s.log != [] ==> req.prevIndex > 0 && s.log[req.prevIndex - 1].term == req.prevTerm)
  }

  /** A caller's view of when the source's handler does what is intended: a stale
      request reaches a leader or fails the log test; a current one fails it, or begins
      where the log ends and names no commit index beyond its last entry that is news. */
  predicate AsIntended<V>(s: NodeState<V>, req: AppendRequest<V>) {
    if req.term < s.term then
      s.role.Leader? || !Matches(s.log, req)
    else
      || !Matches(s.log, req)
      || (|s.log| == req.prevIndex
          && (req.leaderCommit <= req.prevIndex + |req.entries| || req.leaderCommit <= s.commit))
  }

  /** On the requests that it takes, the two handlers differ unless the log ends where the request begins. */
  lemma AcceptedAlike<V>(rule: Splice, me: NodeId, s: NodeState<V>, req: AppendRequest<V>)
    requires req.term >= s.term && Matches(s.log, req) && LiteralAccepts(s, req)
    ensures AppendLiteral(me, s, req) == AppendIntended(rule, me, s, req) <==>
              |s.log| == req.prevIndex && (req.leaderCommit <= req.prevIndex + |req.entries| || req.leaderCommit <= s.commit)
  {
    SpliceIsIntendedIff(rule, s.log, req.prevIndex, req.entries);
    var adopted := Adopt(s, req).(log := LiteralSplice(s.log, req.prevIndex, req.entries));
    assert AppendLiteral(me, s, req).state.log == adopted.log;
    assert AppendIntended(rule, me, s, req).state.log == IntendedSplice(rule, s.log, req.prevIndex, req.entries);
  }

  /** The source's handler refines the intended one on exactly these requests. */
  lemma LiteralIsIntendedIff<V>(rule: Splice, me: NodeId, s: NodeState<V>, req: AppendRequest<V>)
    ensures AppendLiteral(me, s, req) == AppendIntended(rule, me, s, req) <==> AsIntended(s, req)
  {
    if LiteralAccepts(s, req) && req.term >= s.term {
      AcceptedAlike(rule, me, s, req);
    } else if LiteralAccepts(s, req) && !s.role.Leader? {
      assert AppendLiteral(me, s, req) != AppendIntended(rule, me, s, req);
    }
  }

  /** In the stable phase every request a leader builds for a follower is as intended,
      unless the follower's term is beyond the leader's. */
  lemma StableRequestsAreIntended<V>(me: NodeId, l: NodeState<V>, f: NodeId, s: NodeState<V>)
    requires FollowerOk(l, f, s) && Delivered(l) && s.term <= l.term
    ensures BuildRequest(me, l, f).Some? && AsIntended(s, BuildRequest(me, l, f).value)
  {
    BuiltRequest(me, l, f);
  }

  /** When the handler runs out of range: it looks up the position before the first, or
      it is told to deliver more than its log holds. */
  lemma PanicsIff<V>(me: NodeId, s: NodeState<V>, req: AppendRequest<V>)
    ensures AppendLiteral(me, s, req).Panicked? <==>
              && !(req.term < s.term && s.role.Leader?)
              && ((s.log != [] && req.prevIndex == 0)
                  || (LiteralAccepts(s, req) && req.leaderCommit > s.commit
                      && req.leaderCommit > |LiteralSplice(s.log, req.prevIndex, req.entries)|))
  {
  }

  /** The request is refused because of its term, or it fails the log test. */
  predicate Refusable<V>(s: NodeState<V>, req: AppendRequest<V>) {
    (req.term < s.term && s.role.Leader?) || !LiteralAccepts(s, req)
  }

  /** A reply names its sender and the sender's new term. A request is answered with success
      exactly when it is not refusable and no index is out of range; a refusal changes nothing. */
  lemma AnswerIff<V>(me: NodeId, s: NodeState<V>, req: AppendRequest<V>)
    requires AppendLiteral(me, s, req).Replied?
    ensures var out := AppendLiteral(me, s, req);
            && out.reply.node == me && out.reply.term == out.state.term
            && (out.reply.success <==> !Refusable(s, req))
            && (!out.reply.success ==> out.state == s)
  {
  }

  /** A node that takes a request follows its sender in its term, and votes for it if that
      term is news. Its log is spliced, it delivers what is newly committed and counts it,
      and it keeps its tally, its books and its leader flag. */
  lemma TakenMeans<V>(me: NodeId, s: NodeState<V>, req: AppendRequest<V>)
    requires AppendLiteral(me, s, req).Replied? && !Refusable(s, req)
    ensures var s' := AppendLiteral(me, s, req).state;
            && s'.role.Follower? && s'.term == req.term && s'.heard
            && s'.votedFor == (if req.term > s.term then Some(req.leader) else s.votedFor)
            && s'.log == LiteralSplice(s.log, req.prevIndex, req.entries)
            && (if req.leaderCommit > s.commit then
                  && s'.commit == req.leaderCommit <= |s'.log|
                  && s'.outbox == s.outbox + s'.log[s.commit..s'.commit]
                else
                  s'.commit == s.commit && s'.outbox == s.outbox)
            && s'.votes == s.votes && s'.nextIndex == s.nextIndex && s'.matchIndex == s.matchIndex
            && s'.isLeader == s.isLeader
  {
  }

  /** After a request of a later term every candidate of that term but its sender is refused;
      one of the node's own term leaves it to its vote, even if that is for somebody else
      than the sender, and so does a stale one that it takes. */
  lemma TakenBindsVote<V>(me: NodeId, s: NodeState<V>, req: AppendRequest<V>, other: VoteRequest)
    requires AppendLiteral(me, s, req).Replied? && !Refusable(s, req) && other.term == req.term
    ensures var s' := AppendLiteral(me, s, req).state;
            if req.term > s.term then
              other.candidate != req.leader ==> !Grants(s', other)
            else
              Grants(s', other) ==> s.votedFor.None? || s.votedFor.value == other.candidate
  {
  }

  /** What an aborted handler leaves: a look-up of position 0 comes before any change; a commit
      index beyond the log comes after the sender was adopted and the log spliced, and
      after everything that could be delivered was, uncounted. */
  lemma AbortedHandlerLeaves<V>(me: NodeId, s: NodeState<V>, req: AppendRequest<V>)
    requires AppendLiteral(me, s, req).Panicked? && s.commit <= |s.log|
    ensures var s' := AppendLiteral(me, s, req).state;
            if s.log != [] && req.prevIndex == 0 then
              s' == s
            else
              var log := LiteralSplice(s.log, req.prevIndex, req.entries);
              && s'.log == log && s'.commit == s.commit && s'.heard && s'.role.Follower? && s'.term == req.term
              && s'.votedFor == (if req.term > s.term then Some(req.leader) else s.votedFor)
              && s'.outbox == if s.commit <= |log| then s.outbox + log[s.commit..] else s.outbox
  {
  }

  /** A commit index beyond the log delivers all of the log that was left and then aborts;
      the node does not count what it has delivered, and so delivers it again with the
      next commit index that its log reaches. */
  lemma AbortedDeliveryRepeats<V>(s: NodeState<V>, upTo: nat, again: nat)
    requires s.commit <= |s.log| < upTo && s.commit < again <= |s.log|
    ensures var (s', ok) := DeliverOrPanic(s, upTo);
            && !ok && s'.outbox == s.outbox + s.log[s.commit..] && s'.commit == s.commit
            && var (s2, ok2) := DeliverOrPanic(s', again);
            ok2 && s2.commit == again && s2.outbox == s'.outbox + s.log[s.commit..again]
  {
  }

  // ---------------------------------------------------------------- stale terms

  /** The handler lowers the node's term exactly when a stale request that passes the
      log test reaches a node that does not lead. */
  lemma TermFallsIff<V>(me: NodeId, s: NodeState<V>, req: AppendRequest<V>)
    ensures AppendLiteral(me, s, req).state.term < s.term <==>
              req.term < s.term && !s.role.Leader? && LiteralAccepts(s, req)
  {
  }

  /** So a node can vote for two candidates in one term: it votes for node 2 in term 5,
      takes a heartbeat of term 3, and votes for node 4 in term 5. */
  lemma StaleHeartbeatFreesVote<V>(e: Entry<V>, s: NodeState<V>)
    requires s.term == 4 && s.role.Follower? && s.votedFor.None? && s.log == [e] && e.term == 1 && s.commit == 0
    ensures var first, second := VoteRequest(5, 2, 1, 1), VoteRequest(5, 4, 1, 1);
            var voted := RequestVote(s, first);
            var out := AppendLiteral(1, voted, AppendRequest(3, 3, 1, 1, [], 0));
            Grants(s, first) && out.Replied? && Grants(out.state, second)
  {
  }

  // ---------------------------------------------------------------- the leader flag

  /** A handler that unseats a leader leaves its flag up; otherwise an exact flag stays exact. */
  lemma FlagStaysExactIff<V>(me: NodeId, s: NodeState<V>, vote: VoteRequest, req: AppendRequest<V>)
    requires s.isLeader <==> s.role.Leader?
    ensures (RequestVote(s, vote).isLeader <==> RequestVote(s, vote).role.Leader?) <==>
              !(s.role.Leader? && Grants(s, vote))
    ensures var s' := AppendLiteral(me, s, req).state;
            (s'.isLeader <==> s'.role.Leader?) <==>
              !(s.role.Leader? && req.term >= s.term && LiteralAccepts(s, req))
  {
  }

  // ---------------------------------------------------------------- lost replies

  /** A request whose reply was lost is sent again; handling it twice is handling it once
      if and only if it carried no entries. Otherwise the log holds them twice, or, if it
      was the first request of all, the handler aborts. */
  lemma RedeliveryIff<V>(me: NodeId, s: NodeState<V>, req: AppendRequest<V>)
    requires s.role.Follower? && Delivered(s) && req.prevIndex == |s.log| && req.prevTerm == LastTerm(s.log)
    requires req.leaderCommit <= |s.log| + |req.entries|
    ensures var once := AppendLiteral(me, s, req);
            && once.Replied? && once.state.log == s.log + req.entries
            && var twice := AppendLiteral(me, once.state, req);
            && (twice == once <==> req.entries == [])
            && (req.entries != [] ==>
                  if req.prevIndex == 0 then twice.Panicked? else twice.state.log == once.state.log + req.entries)
  {
    LiteralExtends(me, s, req);
    var once := AppendLiteral(me, s, req).state;
    if req.prevIndex > 0 {
      assert once.log[req.prevIndex - 1] == s.log[req.prevIndex - 1];
      assert AppendLiteral(me, once, req).state.log == once.log + req.entries;
    }
  }

  // ---------------------------------------------------------------- the commit rule

  /** The source commits what the fold finds; the rule restricted to the current term
      does the same unless that is news of an older term. */
  lemma CommitIsIntendedIff<V>(s: NodeState<V>, quorum: int, v: nat)
    requires 2 * quorum > |s.matchIndex| && Frequent(s.matchIndex, quorum, v)
    ensures CommitEntries(s, quorum, false) == CommitEntries(s, quorum, true) <==>
              !(s.commit < v <= |s.log|) || s.log[v - 1].term == s.term
  {
    FrequentIsUnique(s.matchIndex, quorum, v, v);
  }

  /** The source commits what the fold finds, whatever its term and wherever it lies in the
      log: the leader delivers exactly the entries after its commit index up to there. */
  lemma FoundIsCommitted<V>(cfg: Config, c: Cluster<V>, l: NodeId, v: nat)
    requires Ticks(c, l) && c.nodes[l].role.Leader?
    requires 2 * QuorumOf(cfg, l) > |c.nodes[l].matchIndex| && Frequent(c.nodes[l].matchIndex, QuorumOf(cfg, l), v)
    requires c.nodes[l].commit < v <= |c.nodes[l].log|
    requires cfg.mode.Intended? ==> c.nodes[l].log[v - 1].term == c.nodes[l].term
    ensures var c', s := Apply(cfg, c, CommitRule(l)), c.nodes[l];
            && c'.aborted == c.aborted
            && c'.nodes == c.nodes[l := s.(commit := v, outbox := s.outbox + s.log[s.commit..v])]
  {
    FrequentIsUnique(c.nodes[l].matchIndex, QuorumOf(cfg, l), v, v);
  }

  /** A value beyond the log aborts the source's rule, and the leader's ticker with it, after
      the rest of the log has been delivered, uncounted. */
  lemma FoundBeyondLogAborts<V>(cfg: Config, c: Cluster<V>, l: NodeId, v: nat)
    requires Ticks(c, l) && c.nodes[l].role.Leader? && c.nodes[l].commit <= |c.nodes[l].log| < v
    requires 2 * QuorumOf(cfg, l) > |c.nodes[l].matchIndex| && Frequent(c.nodes[l].matchIndex, QuorumOf(cfg, l), v)
    ensures var c', s := Apply(cfg, c, CommitRule(l)), c.nodes[l];
            && c'.aborted == c.aborted + {Ticker(l)}
            && c'.nodes == c.nodes[l := s.(outbox := s.outbox + s.log[s.commit..])]
  {
    FrequentIsUnique(c.nodes[l].matchIndex, QuorumOf(cfg, l), v, v);
  }

  /** Where the fold finds nothing, or nothing new, nothing is committed. */
  lemma NothingFoundNothingCommitted<V>(cfg: Config, c: Cluster<V>, l: NodeId)
    requires Ticks(c, l)
    requires 2 * QuorumOf(cfg, l) > |c.nodes[l].matchIndex|
    requires forall v: nat :: Frequent(c.nodes[l].matchIndex, QuorumOf(cfg, l), v) ==> v <= c.nodes[l].commit
    ensures Apply(cfg, c, CommitRule(l)) == c
  {
    assert c.nodes[l := c.nodes[l]] == c.nodes;
  }

  /** Three nodes, a leader of term 3 and one entry of term 1 on two of them: the source commits it. */
  lemma OldEntryIsCommitted<V>(e: Entry<V>, s: NodeState<V>)
    requires s.role.Leader? && s.term == 3 && e.term == 1 && s.log == [e] && s.commit == 0 && s.outbox == []
    requires s.matchIndex == map[1 := 1, 2 := 1, 3 := 0]
    ensures CommitEntries(s, QuorumLength(2), false).0.outbox == [e]
    ensures CommitEntries(s, QuorumLength(2), true).0 == s
  {
    QuorumIsMajority(2);
    assert Holders(s.matchIndex, 1) == {1, 2};
    FrequentIsUnique(s.matchIndex, 2, 1, 1);
  }
}
