/** One Raft node, whose methods update its fields as the source does. Every
    contract gives the whole new state through the functions of `Handlers`. */
module RaftNode {
  import opened Types
  import opened Quorum
  import opened Handlers

  class Node<V> {
    const id: NodeId
    const peers: seq<NodeId>

    var role: Role
    var term: Term
    var votedFor: Option<NodeId>
    var log: Log<V>
    var votes: seq<NodeId>
    var commit: nat
    var nextIndex: map<NodeId, nat>
    var matchIndex: map<NodeId, nat>
    var heard: bool
    var isLeader: bool
    var outbox: Log<V>

    ghost function Snapshot(): NodeState<V>
      reads this
    {
      NodeState(role, term, votedFor, log, votes, commit, nextIndex, matchIndex, heard, isLeader, outbox)
    }

    /** The leader's bookkeeping is about members of the cluster only. */
    ghost predicate Valid()
      reads this
    {
      matchIndex.Keys <= Elements(peers) + {id}
    }

    function QuorumSize(): int {
      QuorumLength(|peers|)
    }

    /** Start from the persisted fields, or from a fresh state when there is no file. */
    constructor (id: NodeId, peers: seq<NodeId>, file: Option<PersistentState<V>>)
      ensures Valid() && this.id == id && this.peers == peers
      ensures Snapshot() == StartState(peers, file)
    {
      this.id, this.peers := id, peers;
      match file {
        case Some(p) => term, votedFor, log := p.term, p.votedFor, p.log;
        case None => term, votedFor, log := 0, None, [];
      }
      role, votes, commit := Follower, [], 0;
      nextIndex := map p | p in peers :: 0;
      matchIndex := map p | p in peers :: 0;
      heard, isLeader, outbox := false, false, [];
    }

    /** The committed part of the state; None when the commit index is out of range. */
    method Persist() returns (file: Option<PersistentState<V>>)
      ensures file == if commit <= |log| then Some(PersistentState(term, votedFor, log[..commit])) else None
    {
      var kept: Log<V> := [];
      if commit > 0 {
        if commit > |log| {
          return None;
        }
        kept := log[0..commit];
      }
      file := Some(PersistentState(term, votedFor, kept));
    }

    /** `State::transition_to_term`: the handlers use this one, and the leader flag stays. */
    method StateTransitionToTerm(role: Role, term: Term)
      modifies this`role, this`term
      ensures this.role == role && this.term == term
    {
      this.role, this.term := role, term;
    }

    method StateTransition(role: Role, increase: Term)
      modifies this`role, this`term
      ensures this.role == role && this.term == old(this.term) + increase
    {
      this.role, this.term := role, this.term + increase;
    }

    /** `Raft::transition_to_term`: as above, and the leader flag follows the role. */
    method TransitionToTerm(role: Role, term: Term)
      modifies this`role, this`term, this`isLeader
      ensures this.role == role && this.term == term && isLeader == (role == Leader)
    {
      isLeader := role == Leader;
      StateTransitionToTerm(role, term);
    }

    method TransitionWrapper(role: Role, increase: Term)
      modifies this`role, this`term, this`isLeader
      ensures this.role == role && this.term == old(this.term) + increase && isLeader == (role == Leader)
    {
      isLeader := role == Leader;
      StateTransition(role, increase);
    }

    method RequestVote(req: VoteRequest) returns (reply: VoteReply)
      modifies this
      ensures Snapshot() == Handlers.RequestVote(old(Snapshot()), req)
      ensures reply == VoteAnswer(id, old(Snapshot()), req)
    {
      if req.term < term {
        return VoteReply(id, term, false);
      }
      if votedFor !in {Some(req.candidate), None} && req.term == term {
        return VoteReply(id, term, false);
      }
      var grant := false;
      if |log| > 0 {
        var last := log[|log| - 1];
        if last.term > req.lastTerm {
          grant := false;
        } else if last.term < req.lastTerm {
          grant := true;
        } else if |log| <= req.lastIndex {
          grant := true;
        }
      } else if votedFor.None? {
        grant := true;
      }
      if grant {
        votedFor := Some(req.candidate);
        StateTransitionToTerm(Follower, req.term);
        heard := true;
      }
      reply := VoteReply(id, term, grant);
    }

    /** None: an index out of range aborted the handler. */
    method AppendEntries(req: AppendRequest<V>) returns (reply: Option<AppendReply>)
      modifies this
      ensures reply.None? ==> AppendLiteral(id, old(Snapshot()), req) == Panicked(Snapshot())
      ensures reply.Some? ==> AppendLiteral(id, old(Snapshot()), req) == Replied(Snapshot(), reply.value)
    {
      if req.term < term && role == Leader {
        return Some(AppendReply(id, term, false));
      }
      var logLen := |log|;
      if logLen > 0 {
        if req.prevIndex == 0 {
          return None;
        }
        if req.prevIndex <= logLen && log[req.prevIndex - 1].term != req.prevTerm {
          return Some(AppendReply(id, term, false));
        }
        if req.prevIndex > logLen {
          return Some(AppendReply(id, term, false));
        }
      }
      if req.prevIndex > logLen {
        return Some(AppendReply(id, term, false));
      }
      if req.term > term {
        StateTransitionToTerm(Follower, req.term);
        votedFor := Some(req.leader);
      }
      heard := true;
      StateTransitionToTerm(Follower, req.term);

      var newSize := |req.entries| + req.prevIndex;
      if newSize < logLen {
        log := log[..req.prevIndex - 1];
        log := log + req.entries;
      } else {
        log := log + req.entries;
      }

      if req.leaderCommit > commit {
        var ok := DeliverUpTo(req.leaderCommit);
        if !ok {
          return None;
        }
      }
      reply := Some(AppendReply(id, term, true));
    }

    /** The delivery loop of the append handler and of the commit rule; false: an
        index was out of range. */
    method DeliverUpTo(upTo: nat) returns (ok: bool)
      requires upTo > commit
      modifies this`outbox, this`commit
      ensures (Snapshot(), ok) == DeliverOrPanic(old(Snapshot()), upTo)
    {
      for i := commit to upTo
        invariant commit == old(commit) && (i > commit ==> i <= |log|)
        invariant outbox == old(outbox) + if i > commit then log[commit..i] else []
      {
        if i >= |log| {
          assert i <= |log| ==> outbox == old(outbox) + log[commit..];
          return false;
        }
        outbox := outbox + [log[i]];
        assert log[old(commit)..i + 1] == log[old(commit)..i] + [log[i]];
      }
      commit := upTo;
      ok := true;
    }

    method AppendEntry(value: V)
      modifies this
      ensures Snapshot() == Handlers.AppendEntry(old(Snapshot()), value)
    {
      if role != Leader {
        return;
      }
      log := log + [Entry(value, term)];
    }

    /** The request for one peer; None: an index was out of range. */
    method PrepareHeartbeat(conn: NodeId) returns (request: Option<AppendRequest<V>>)
      ensures request == BuildRequest(id, Snapshot(), conn)
    {
      var entries: Log<V> := [];
      var prevTerm, prevIndex := 0, 0;
      if |log| > 0 && conn in nextIndex {
        var next := nextIndex[conn];
        if next >= 2 {
          prevIndex := next - 1;
          if prevIndex > |log| {
            return None;
          }
          prevTerm := log[prevIndex - 1].term;
          entries := log[prevIndex..];
        }
        if next == 1 {
          prevIndex, prevTerm := 0, 0;
          entries := log[0..];
        }
      }
      request := Some(AppendRequest(term, id, prevIndex, prevTerm, entries, commit));
    }

    /** The books after one peer's reply. */
    method RecordReply(conn: NodeId, success: bool)
      requires Valid() && conn in peers
      modifies this`nextIndex, this`matchIndex
      ensures Valid() && Snapshot() == OnAppendReply(old(Snapshot()), conn, success)
    {
      if success {
        nextIndex := nextIndex[conn := |log| + 1];
        if |log| > 0 {
          matchIndex := matchIndex[conn := |log|];
        }
      } else if conn in nextIndex && nextIndex[conn] > 1 {
        nextIndex := nextIndex[conn := nextIndex[conn] - 1];
      }
    }

    /** One round of heartbeats, if it is due; `replies` is what the network gives
        back for each peer. False: an index was out of range. */
    method MaybeSendHeartbeat(due: bool, replies: seq<Option<AppendReply>>)
      returns (sent: seq<AppendRequest<V>>, ok: bool)
      requires Valid() && |replies| == |peers|
      modifies this`nextIndex, this`matchIndex
      ensures Valid()
      ensures !(old(role).Leader? && due) ==> unchanged(this) && sent == [] && ok
      ensures old(role).Leader? && due ==>
                var (s, reqs, fine) := HeartbeatRound(id, old(Snapshot()), peers, replies);
                sent == reqs && ok == fine && Snapshot() == if fine then CloseRound(id, s) else s
    {
      sent, ok := [], true;
      if role != Leader || !due {
        return;
      }
      ghost var start := Snapshot();
      for i := 0 to |peers|
        invariant Valid() && (Snapshot(), sent, true) == HeartbeatRound(id, start, peers[..i], replies[..i])
      {
        assert peers[..i + 1][..i] == peers[..i] && replies[..i + 1][..i] == replies[..i];
        var request := PrepareHeartbeat(peers[i]);
        if request.None? {
          ok := false;
          HeartbeatAborts(id, start, peers, replies, i);
          return;
        }
        sent := sent + [request.value];
        if replies[i].Some? {
          RecordReply(peers[i], replies[i].value.success);
        }
      }
      assert peers[..|peers|] == peers && replies[..|peers|] == replies;
      nextIndex := nextIndex[id := |log| + 1];
      matchIndex := matchIndex[id := |log|];
    }

    /** False: an index was out of range. */
    method MaybeCommitLogEntries() returns (ok: bool)
      requires Valid()
      modifies this`outbox, this`commit
      ensures !old(role).Leader? ==> unchanged(this) && ok
      ensures old(role).Leader? ==> (Snapshot(), ok) == CommitEntries(old(Snapshot()), QuorumSize(), false)
    {
      ok := true;
      if role != Leader {
        return;
      }
      QuorumIsMajority(|peers|);
      FewMembers(peers, id);
      SubsetSize(matchIndex.Keys, Elements(peers) + {id});
      var best := FindFrequent(matchIndex, QuorumSize());
      if best.None? {
        return;
      }
      if best.value > commit {
        ok := DeliverUpTo(best.value);
      }
    }

    /** The body of the election loop; true: the loop ends here. */
    method PollPeer(event: PollEvent) returns (done: bool)
      requires Valid()
      modifies this
      ensures Valid()
      ensures (Snapshot(), done) == OnPoll(old(Snapshot()), QuorumSize(), peers, event)
    {
      match event {
        case TimedOut =>
          TransitionWrapper(Candidate, 1);
          return true;
        case NoAnswer =>
          return false;
        case Answered(reply) =>
          if reply.granted {
            votes := votes + [reply.node];
          } else if reply.term >= term {
            votedFor := None;
            TransitionToTerm(Follower, reply.term);
            return true;
          }
          if |votes| >= QuorumSize() {
            nextIndex := map p | p in peers :: |log| + 1;
            matchIndex := map p | p in peers :: 0;
            TransitionWrapper(Leader, 0);
            return true;
          }
          return false;
      }
    }

    /** The election loop over the peers, which all get `request` and answer with `events`. */
    method HandleCandidateElection(events: seq<PollEvent>) returns (request: VoteRequest)
      requires Valid() && |events| == |peers|
      modifies this
      ensures Valid() && request == Ballot(id, old(Snapshot()))
      ensures Snapshot() ==
              Election(old(Snapshot()).(votes := [id], votedFor := Some(id)), QuorumSize(), peers, events).0
    {
      votes := [];
      votes := votes + [id];
      votedFor := Some(id);
      assert votes == [id];
      if |log| > 0 {
        request := VoteRequest(term, id, |log|, log[|log| - 1].term);
      } else {
        request := VoteRequest(term, id, 0, 0);
      }
      ghost var start := old(Snapshot()).(votes := [id], votedFor := Some(id));
      for i := 0 to |peers|
        invariant Valid() && (Snapshot(), false) == Election(start, QuorumSize(), peers, events[..i])
      {
        assert events[..i + 1][..i] == events[..i];
        var done := PollPeer(events[i]);
        if done {
          ElectionEnds(start, QuorumSize(), peers, events, i + 1);
          return;
        }
      }
      assert events[..|events|] == events;
    }

    /** `expired`: the election timer has run out. `ballot`: what was sent, if it stood. */
    method MaybeTransitionCandidate(expired: bool, events: seq<PollEvent>) returns (ballot: Option<VoteRequest>)
      requires Valid() && |events| == |peers|
      modifies this
      ensures Valid()
      ensures old(role).Leader? || !expired || old(heard) ==> Snapshot() == old(Snapshot()) && ballot == None
      ensures !(old(role).Leader? || !expired || old(heard)) ==>
                var s := Stand(id, old(Snapshot()));
                Snapshot() == Election(s, QuorumSize(), peers, events).0 && ballot == Some(Ballot(id, s))
    {
      ballot := None;
      if role == Leader {
        return;
      }
      if expired && !heard {
        TransitionWrapper(Candidate, 1);
        var request := HandleCandidateElection(events);
        ballot := Some(request);
      }
    }
  }

  lemma FewMembers(peers: seq<NodeId>, id: NodeId)
    ensures |Elements(peers) + {id}| <= |peers| + 1
  {
    if peers == [] {
      assert Elements(peers) + {id} == {id};
    } else {
      var init := peers[..|peers| - 1];
      FewMembers(init, id);
      assert peers == init + [peers[|peers| - 1]];
      assert Elements(peers) + {id} == Elements(init) + {id} + {peers[|peers| - 1]};
    }
  }

  /** Once a request cannot be built, the round ends there. */
  lemma {:induction false} HeartbeatAborts<V>(me: NodeId, s: NodeState<V>, peers: seq<NodeId>,
                                              replies: seq<Option<AppendReply>>, i: nat)
    requires |replies| == |peers| && i < |peers|
    requires var r := HeartbeatRound(me, s, peers[..i], replies[..i]);
             r.2 && BuildRequest(me, r.0, peers[i]).None?
    ensures var r := HeartbeatRound(me, s, peers[..i], replies[..i]);
            HeartbeatRound(me, s, peers, replies) == (r.0, r.1, false)
    decreases |peers| - i
  {
    var last := |peers| - 1;
    assert peers[..last][..i] == peers[..i] && replies[..last][..i] == replies[..i];
    if i < last {
      HeartbeatAborts(me, s, peers[..last], replies[..last], i);
    }
  }

  /** Once the loop has ended, later events are not seen. */
  lemma {:induction false} ElectionEnds<V>(s: NodeState<V>, quorum: int, peers: seq<NodeId>,
                                           events: seq<PollEvent>, i: nat)
    requires i <= |events| && Election(s, quorum, peers, events[..i]).1
    ensures Election(s, quorum, peers, events) == Election(s, quorum, peers, events[..i])
    decreases |events| - i
  {
    if i < |events| {
      var init := events[..|events| - 1];
      assert init[..i] == events[..i];
      ElectionEnds(s, quorum, peers, init, i);
    } else {
      assert events[..i] == events;
    }
  }
}
