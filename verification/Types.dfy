/** The records of a Raft node: its state, its log and the messages it exchanges. */
module Types {

  /** A node is known by one number, which stands for its id and for its address. */
  type NodeId = nat

  type Term = nat

  datatype Option<+T> = None | Some(value: T)

  datatype Role = Follower | Candidate | Leader

  datatype Entry<V> = Entry(value: V, term: Term)

  /** The source counts log positions from 1; position p is `log[p - 1]` here. */
  type Log<V> = seq<Entry<V>>

  /** The fields behind the state lock of one node, the leader flag it shares
      with its clients, and everything it has sent to its delivery channel. */
  datatype NodeState<V> = NodeState(
    role: Role,
    term: Term,
    votedFor: Option<NodeId>,
    log: Log<V>,
    votes: seq<NodeId>,
    commit: nat,
    nextIndex: map<NodeId, nat>,
    matchIndex: map<NodeId, nat>,
    heard: bool,
    isLeader: bool,
    outbox: Log<V>)

  /** What a node writes to its file. */
  datatype PersistentState<V> = PersistentState(term: Term, votedFor: Option<NodeId>, log: Log<V>)

  /** A node that starts, from its file or without one. */
  function StartState<V>(peers: seq<NodeId>, file: Option<PersistentState<V>>): NodeState<V> {
    var kept := if file.Some? then file.value else PersistentState(0, None, []);
    NodeState(Follower, kept.term, kept.votedFor, kept.log, [], 0,
              map p | p in peers :: 0, map p | p in peers :: 0, false, false, [])
  }

  datatype VoteRequest = VoteRequest(term: Term, candidate: NodeId, lastIndex: nat, lastTerm: Term)

  datatype VoteReply = VoteReply(node: NodeId, term: Term, granted: bool)

  datatype AppendRequest<V> = AppendRequest(
    term: Term,
    leader: NodeId,
    prevIndex: nat,
    prevTerm: Term,
    entries: Log<V>,
    leaderCommit: nat)

  datatype AppendReply = AppendReply(node: NodeId, term: Term, success: bool)

  /** `a` and `b` hold the same first `n` entries. */
  ghost predicate Agree<V>(a: Log<V>, b: Log<V>, n: nat) {
    n <= |a| && n <= |b| && forall i :: 0 <= i < n ==> a[i] == b[i]
  }

  function LastTerm<V>(log: Log<V>): Term {
    if log == [] then 0 else log[|log| - 1].term
  }

  ghost predicate InOrder<V>(log: Log<V>, i: nat, j: nat)
    requires i <= j < |log|
  {
    log[i].term <= log[j].term
  }

  /** Terms never fall along the log. */
  ghost predicate NonDecreasing<V>(log: Log<V>) {
    forall i, j {:trigger InOrder(log, i, j)} :: 0 <= i <= j < |log| ==> InOrder(log, i, j)
  }
}
