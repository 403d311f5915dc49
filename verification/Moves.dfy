/** Every step of the cluster is, at each node, one operation of that node. What is
    proved of the operations is thereby proved of steps, whatever the handlers are. */
module Moves {
  import opened Types
  import opened Handlers
  import opened Cluster

  datatype Move<V> =
    | Idles
    | Appends(value: V)
    | Takes(request: AppendRequest<V>)
    | Votes(ballot: VoteRequest)
    | Hears(peer: NodeId, success: bool)
    | Closes
    | Commits
    | Stands
    | Turns(event: PollEvent)
    | Quiets

  /** The state of node `n` after the operation. */
  ghost function Moved<V>(cfg: Config, n: NodeId, s: NodeState<V>, move: Move<V>): NodeState<V> {
    match move
    case Idles => s
    case Appends(value) => AppendEntry(s, value)
    case Takes(req) => Handle(cfg, n, s, req).state
    case Votes(ballot) => RequestVote(s, ballot)
    case Hears(peer, success) => OnAppendReply(s, peer, success)
    case Closes => CloseRound(n, s)
    case Commits => CommitEntries(s, QuorumOf(cfg, n), cfg.mode.Intended?).0
    case Stands => Stand(n, s)
    case Turns(event) => OnPoll(s, QuorumOf(cfg, n), PeersOf(cfg, n), event).0
    case Quiets => s.(heard := false)
  }

  /** Only this has changed: role, term, vote, log, commit index, deliveries and what was heard. */
  ghost predicate TouchesAsFollower<V>(s: NodeState<V>, s': NodeState<V>) {
    s' == s.(role := s'.role, term := s'.term, votedFor := s'.votedFor, log := s'.log, commit := s'.commit,
             heard := s'.heard, outbox := s'.outbox)
  }

  /** Only this has changed: role, term, vote, tally, leader flag and books. */
  ghost predicate TouchesAsCandidate<V>(s: NodeState<V>, s': NodeState<V>) {
    s' == s.(role := s'.role, term := s'.term, votedFor := s'.votedFor, votes := s'.votes, isLeader := s'.isLeader,
             nextIndex := s'.nextIndex, matchIndex := s'.matchIndex)
  }

  lemma TakingTouches<V>(cfg: Config, n: NodeId, s: NodeState<V>, req: AppendRequest<V>)
    ensures TouchesAsFollower(s, Handle(cfg, n, s, req).state)
  {
  }

  lemma PollingTouches<V>(s: NodeState<V>, quorum: int, peers: seq<NodeId>, event: PollEvent)
    ensures TouchesAsCandidate(s, OnPoll(s, quorum, peers, event).0)
  {
  }

  lemma CommittingTouches<V>(s: NodeState<V>, quorum: int, currentTermOnly: bool)
    ensures var s' := CommitEntries(s, quorum, currentTermOnly).0;
            s' == s.(commit := s'.commit, outbox := s'.outbox)
  {
  }

  /** What each operation can touch; every other field stays as it was. */
  lemma MoveTouches<V>(cfg: Config, n: NodeId, s: NodeState<V>, move: Move<V>)
    ensures var s' := Moved(cfg, n, s, move);
            match move
            case Idles => s' == s
            case Appends(_) => s' == s.(log := s'.log)
            case Takes(_) => TouchesAsFollower(s, s')
            case Votes(_) => TouchesAsFollower(s, s') && s'.log == s.log && s'.commit == s.commit && s'.outbox == s.outbox
            case Hears(_, _) => s' == s.(nextIndex := s'.nextIndex, matchIndex := s'.matchIndex)
            case Closes => s' == s.(nextIndex := s'.nextIndex, matchIndex := s'.matchIndex)
            case Commits => s' == s.(commit := s'.commit, outbox := s'.outbox)
            case Stands => TouchesAsCandidate(s, s') && s'.nextIndex == s.nextIndex && s'.matchIndex == s.matchIndex
            case Turns(_) => TouchesAsCandidate(s, s')
            case Quiets => s' == s.(heard := s'.heard)
  {
    match move {
      case Takes(req) => TakingTouches(cfg, n, s, req);
      case Turns(event) => PollingTouches(s, QuorumOf(cfg, n), PeersOf(cfg, n), event);
      case Commits => CommittingTouches(s, QuorumOf(cfg, n), cfg.mode.Intended?);
      case _ =>
    }
  }

  /** No index was out of range. */
  ghost predicate Completes<V>(cfg: Config, n: NodeId, s: NodeState<V>, move: Move<V>) {
    match move
    case Takes(req) => Handle(cfg, n, s, req).Replied?
    case Commits => CommitEntries(s, QuorumOf(cfg, n), cfg.mode.Intended?).1
    case _ => true
  }

  /** Neither task of node `n` has been aborted. */
  ghost predicate Intact<V>(c: Cluster<V>, n: NodeId) {
    Listener(n) !in c.aborted && Ticker(n) !in c.aborted
  }

  ghost predicate SamePolling(p: map<NodeId, seq<NodeId>>, p': map<NodeId, seq<NodeId>>, n: NodeId) {
    (n in p <==> n in p') && (n in p ==> p'[n] == p[n])
  }

  /** The append request that the step makes some node handle. */
  ghost function Arriving<V>(cfg: Config, c: Cluster<V>, a: Action<V>): Option<(NodeId, AppendRequest<V>)> {
    match a
    case Heartbeat(l, f, delivery) =>
      if && Ticks(c, l) && c.nodes[l].role.Leader? && f in PeersOf(cfg, l)
         && BuildRequest(l, c.nodes[l], f).Some? && !delivery.Dropped? && Listens(c, f)
      then
        Some((f, BuildRequest(l, c.nodes[l], f).value))
      else None
    case LateAppend(f, i) => if Listens(c, f) && i < |c.sent| then Some((f, c.sent[i])) else None
    case _ => None
  }

  /** `n` asks the first of the peers left to it, which grants its vote. */
  ghost predicate HearsGrant<V>(c: Cluster<V>, a: Action<V>, c': Cluster<V>, n: NodeId, reply: VoteReply)
    requires n in c.nodes && n in c.polling && c.polling[n] != []
  {
    var v := c.polling[n][0];
    && a == Poll(n, Exchanged) && v != n && reply.node == v
    && Listens(c, v) && Grants(c.nodes[v], Ballot(n, c.nodes[n]))
    && Free(c', v) && c'.nodes[v] == Granted(c.nodes[v], Ballot(n, c.nodes[n]))
  }

  /** `n` hears what `peer` replies to its heartbeat. */
  ghost predicate HearsReply<V>(cfg: Config, c: Cluster<V>, a: Action<V>, n: NodeId, peer: NodeId, success: bool) {
    && a == Heartbeat(n, peer, Exchanged) && Arriving(cfg, c, a).Some?
    && var (f, req) := Arriving(cfg, c, a).value;
    && f == peer && Handle(cfg, peer, c.nodes[peer], req).Replied?
    && Handle(cfg, peer, c.nodes[peer], req).reply.success == success
  }

  /** What the operation says of the node's election loop. */
  ghost predicate LoopMoves<V>(cfg: Config, c: Cluster<V>, a: Action<V>, c': Cluster<V>, n: NodeId, move: Move<V>)
    requires n in c.nodes
  {
    match move
    case Idles => SamePolling(c.polling, c'.polling, n)
    case Stands =>
      && a == Candidacy(n) && n !in c.polling && !c.nodes[n].role.Leader?
      && (n in c'.polling ==> c'.polling[n] != [] && c'.polling[n] == PeersOf(cfg, n))
    case Turns(event) =>
      && n in c.polling && c.polling[n] != []
      && SamePolling(StopPolling(c.polling, n, c.polling[n][1..],
                                 OnPoll(c.nodes[n], QuorumOf(cfg, n), PeersOf(cfg, n), event).1), c'.polling, n)
      && (event.Answered? && event.reply.granted ==> HearsGrant(c, a, c', n, event.reply))
    case _ =>
      && n !in c.polling && n !in c'.polling
      && (move.Hears? || move.Closes? || move.Commits? ==> c.nodes[n].role.Leader?)
      && (move.Appends? ==> a.ClientAppend?) && (move.Closes? ==> a.EndRound?) && (move.Commits? ==> a.CommitRule?)
      && (move.Quiets? ==> a == Tick(n))
  }

  /** In the step `a` from `c` to c', node `n` makes this move. */
  ghost predicate MovesBy<V>(cfg: Config, c: Cluster<V>, a: Action<V>, c': Cluster<V>, n: NodeId, move: Move<V>) {
    && n in c.nodes && c'.nodes.Keys == c.nodes.Keys && c.aborted <= c'.aborted
    && c'.nodes[n] == Moved(cfg, n, c.nodes[n], move)
    && (Intact(c', n) ==> Completes(cfg, n, c.nodes[n], move))
    && (move.Takes? ==> Arriving(cfg, c, a) == Some((n, move.request)))
    && (Arriving(cfg, c, a).Some? && Arriving(cfg, c, a).value.0 == n ==> move.Takes?)
    && (move.Hears? ==> HearsReply(cfg, c, a, n, move.peer, move.success))
    && LoopMoves(cfg, c, a, c', n, move)
  }

  // ---------------------------------------------------------------- one action at a time

  lemma ClientAppendMove<V>(cfg: Config, c: Cluster<V>, m: NodeId, value: V, n: NodeId) returns (move: Move<V>)
    requires n in c.nodes
    ensures var a := ClientAppend(m, value);
            MovesBy(cfg, c, a, Apply(cfg, c, a), n, move)
  {
    move := if m == n && Free(c, n) then Appends(value) else Idles;
  }

  lemma EndRoundMove<V>(cfg: Config, c: Cluster<V>, l: NodeId, n: NodeId) returns (move: Move<V>)
    requires n in c.nodes
    ensures MovesBy(cfg, c, EndRound(l), Apply(cfg, c, EndRound(l)), n, move)
  {
    move := if l == n && Ticks(c, n) && c.nodes[n].role.Leader? then Closes else Idles;
  }

  lemma CommitRuleMove<V>(cfg: Config, c: Cluster<V>, l: NodeId, n: NodeId) returns (move: Move<V>)
    requires n in c.nodes
    ensures MovesBy(cfg, c, CommitRule(l), Apply(cfg, c, CommitRule(l)), n, move)
  {
    move := if l == n && Ticks(c, n) && c.nodes[n].role.Leader? then Commits else Idles;
  }

  lemma CandidacyMove<V>(cfg: Config, c: Cluster<V>, m: NodeId, n: NodeId) returns (move: Move<V>)
    requires n in c.nodes
    ensures MovesBy(cfg, c, Candidacy(m), Apply(cfg, c, Candidacy(m)), n, move)
  {
    move := if m == n && Ticks(c, n) && !c.nodes[n].role.Leader? && !c.nodes[n].heard then Stands else Idles;
  }

  lemma LateAppendMove<V>(cfg: Config, c: Cluster<V>, f: NodeId, i: nat, n: NodeId) returns (move: Move<V>)
    requires n in c.nodes
    ensures MovesBy(cfg, c, LateAppend(f, i), Apply(cfg, c, LateAppend(f, i)), n, move)
  {
    move := if f == n && Listens(c, n) && i < |c.sent| then Takes(c.sent[i]) else Idles;
  }

  lemma LateVoteMove<V>(cfg: Config, c: Cluster<V>, v: NodeId, i: nat, n: NodeId) returns (move: Move<V>)
    requires n in c.nodes
    ensures MovesBy(cfg, c, LateVote(v, i), Apply(cfg, c, LateVote(v, i)), n, move)
  {
    move := if v == n && Listens(c, n) && i < |c.ballots| then Votes(c.ballots[i]) else Idles;
  }

  lemma TickMove<V>(cfg: Config, c: Cluster<V>, m: NodeId, n: NodeId) returns (move: Move<V>)
    requires n in c.nodes
    ensures MovesBy(cfg, c, Tick(m), Apply(cfg, c, Tick(m)), n, move)
  {
    move := if m == n && Ticks(c, n) then Quiets else Idles;
  }

  lemma PollTimeoutMove<V>(cfg: Config, c: Cluster<V>, m: NodeId, n: NodeId) returns (move: Move<V>)
    requires n in c.nodes
    ensures MovesBy(cfg, c, PollTimeout(m), Apply(cfg, c, PollTimeout(m)), n, move)
  {
    move := if m == n && n in c.polling && c.polling[n] != [] then Turns(TimedOut) else Idles;
  }

  /** In an exchange the peer takes the request and the leader hears the reply. */
  lemma HeartbeatMove<V>(cfg: Config, c: Cluster<V>, l: NodeId, f: NodeId, delivery: Delivery, n: NodeId)
    returns (move: Move<V>)
    requires ValidConfig(cfg) && c.nodes.Keys == cfg.members && n in c.nodes
    ensures var a := Heartbeat(l, f, delivery);
            MovesBy(cfg, c, a, Apply(cfg, c, a), n, move)
  {
    move := Idles;
    if Ticks(c, l) && c.nodes[l].role.Leader? && f in PeersOf(cfg, l) {
      PeerIsOther(cfg, l, f);
      var built := BuildRequest(l, c.nodes[l], f);
      if built.Some? && !delivery.Dropped? && Listens(c, f) {
        var outcome := Handle(cfg, f, c.nodes[f], built.value);
        if n == f {
          move := Takes(built.value);
        } else if n == l && delivery.Exchanged? && outcome.Replied? {
          move := Hears(f, outcome.reply.success);
        }
      }
    }
  }

  /** In a poll the candidate takes a turn of its loop. */
  lemma PollMove<V>(cfg: Config, c: Cluster<V>, n: NodeId, delivery: Delivery) returns (move: Move<V>)
    requires n in c.nodes && n in c.polling && c.polling[n] != []
    ensures MovesBy(cfg, c, Poll(n, delivery), Apply(cfg, c, Poll(n, delivery)), n, move)
  {
    var v, ballot := c.polling[n][0], Ballot(n, c.nodes[n]);
    var arrives := !delivery.Dropped? && Listens(c, v);
    move := Turns(if arrives && delivery.Exchanged? then Answered(VoteAnswer(v, c.nodes[v], ballot)) else NoAnswer);
  }

  /** In a poll by another node, `n` votes if it is the one that is asked. */
  lemma PolledMove<V>(cfg: Config, c: Cluster<V>, m: NodeId, delivery: Delivery, n: NodeId) returns (move: Move<V>)
    requires n in c.nodes && !(m == n && n in c.polling && c.polling[n] != [])
    ensures var a := Poll(m, delivery);
            MovesBy(cfg, c, a, Apply(cfg, c, a), n, move)
  {
    move := Idles;
    if m in c.nodes && m in c.polling && c.polling[m] != [] {
      if n == c.polling[m][0] && !delivery.Dropped? && Listens(c, n) {
        move := Votes(Ballot(m, c.nodes[m]));
      }
    }
  }

  /** The move that a node makes in a step. */
  lemma MoveOf<V>(cfg: Config, c: Cluster<V>, a: Action<V>, n: NodeId) returns (move: Move<V>)
    requires ValidConfig(cfg) && c.nodes.Keys == cfg.members && n in c.nodes
    ensures MovesBy(cfg, c, a, Apply(cfg, c, a), n, move)
  {
    match a {
      case ClientAppend(m, value) => move := ClientAppendMove(cfg, c, m, value, n);
      case Heartbeat(l, f, delivery) => move := HeartbeatMove(cfg, c, l, f, delivery, n);
      case EndRound(l) => move := EndRoundMove(cfg, c, l, n);
      case CommitRule(m) => move := CommitRuleMove(cfg, c, m, n);
      case Candidacy(m) => move := CandidacyMove(cfg, c, m, n);
      case Poll(m, delivery) =>
        if m == n && n in c.polling && c.polling[n] != [] {
          move := PollMove(cfg, c, n, delivery);
        } else {
          move := PolledMove(cfg, c, m, delivery, n);
        }
      case PollTimeout(m) => move := PollTimeoutMove(cfg, c, m, n);
      case LateAppend(f, i) => move := LateAppendMove(cfg, c, f, i, n);
      case LateVote(v, i) => move := LateVoteMove(cfg, c, v, i, n);
      case Tick(m) => move := TickMove(cfg, c, m, n);
    }
  }
}
