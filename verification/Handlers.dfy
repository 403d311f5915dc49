/** What each operation of a node does to its state, as functions.
    `AppendLiteral` is the source's append handler; `AppendIntended` is the one
    its comments describe, under either reading of how conflicts are resolved. */
module Handlers {
  import opened Types
  import opened Quorum

  // ---------------------------------------------------------------- votes

  /** The comparison of last entries: (lastTerm, lastIndex) is at least as recent as `log`. */
  predicate UpToDate<V>(lastTerm: Term, lastIndex: nat, log: Log<V>) {
    LastTerm(log) < lastTerm || (LastTerm(log) == lastTerm && |log| <= lastIndex)
  }

  /** The state of a node that has granted its vote. */
  function Granted<V>(s: NodeState<V>, req: VoteRequest): NodeState<V> {
    s.(votedFor := Some(req.candidate), role := Follower, term := req.term, heard := true)
  }

  predicate Grants<V>(s: NodeState<V>, req: VoteRequest) {
    && req.term >= s.term
    && (req.term == s.term ==> s.votedFor in {None, Some(req.candidate)})
    && if s.log == [] then s.votedFor.None? else UpToDate(req.lastTerm, req.lastIndex, s.log)
  }

  function RequestVote<V>(s: NodeState<V>, req: VoteRequest): NodeState<V> {
    if Grants(s, req) then Granted(s, req) else s
  }

  function VoteAnswer<V>(me: NodeId, s: NodeState<V>, req: VoteRequest): VoteReply {
    VoteReply(me, RequestVote(s, req).term, Grants(s, req))
  }

  // ---------------------------------------------------------------- append entries

  /** An append handler replies, or an index out of range aborts it midway. */
  datatype AppendOutcome<V> =
    | Replied(state: NodeState<V>, reply: AppendReply)
    | Panicked(state: NodeState<V>)

  /** Send the entries in positions commit + 1 .. upTo to the delivery channel. */
  function Deliver<V>(s: NodeState<V>, upTo: nat): NodeState<V>
    requires s.commit <= upTo <= |s.log|
  {
    s.(outbox := s.outbox + s.log[s.commit..upTo], commit := upTo)
  }

  /** The delivery loop, up to the index that is out of range if there is one. */
  function DeliverOrPanic<V>(s: NodeState<V>, upTo: nat): (NodeState<V>, bool) {
    if upTo <= s.commit then
      (s, true)
    else if upTo <= |s.log| then
      (Deliver(s, upTo), true)
    else if s.commit <= |s.log| then
      (s.(outbox := s.outbox + s.log[s.commit..]), false)
    else
      (s, false)
  }

  /** The sender is taken as the leader of its term. */
  function Adopt<V>(s: NodeState<V>, req: AppendRequest<V>): NodeState<V> {
    s.(votedFor := if req.term > s.term then Some(req.leader) else s.votedFor,
       role := Follower, term := req.term, heard := true)
  }

  /** The source's truncation and extension of the log. */
  function LiteralSplice<V>(log: Log<V>, prev: nat, entries: Log<V>): Log<V>
    requires prev == 0 ==> log == []
  {
    if prev + |entries| < |log| then log[..prev - 1] + entries else log + entries
  }

  function AppendLiteral<V>(me: NodeId, s: NodeState<V>, req: AppendRequest<V>): AppendOutcome<V> {
    var refusal := Replied(s, AppendReply(me, s.term, false));
    if req.term < s.term && s.role.Leader? then
      refusal
    else if |s.log| > 0 && req.prevIndex == 0 then
      Panicked(s)  // the position before the first is looked up
    else if |s.log| > 0 && req.prevIndex <= |s.log| && s.log[req.prevIndex - 1].term != req.prevTerm then
      refusal
    else if req.prevIndex > |s.log| then
      refusal
    else
      var adopted := Adopt(s, req).(log := LiteralSplice(s.log, req.prevIndex, req.entries));
      var (delivered, ok) := DeliverOrPanic(adopted, req.leaderCommit);
      if ok then
        Replied(delivered, AppendReply(me, req.term, true))
      else
        Panicked(delivered)
  }

  /** Two readings of the comments on the splice: the suffix after `prev` is
      replaced, or it is only cut where an entry conflicts. */
  datatype Splice = Replace | Merge

  predicate Conflict<V>(log: Log<V>, prev: nat, entries: Log<V>) {
    exists i :: 0 <= i < |entries| && prev + i < |log| && log[prev + i].term != entries[i].term
  }

  function IntendedSplice<V>(rule: Splice, log: Log<V>, prev: nat, entries: Log<V>): Log<V>
    requires prev <= |log|
  {
    if rule == Merge && !Conflict(log, prev, entries) && prev + |entries| <= |log| then
      log
    else
      log[..prev] + entries
  }

  /** `log` has the entry before the request's entries; position 0 always matches. */
  predicate Matches<V>(log: Log<V>, req: AppendRequest<V>) {
    req.prevIndex <= |log| && (req.prevIndex > 0 ==> log[req.prevIndex - 1].term == req.prevTerm)
  }

  function Min(a: nat, b: nat): nat {
    if a <= b then a else b
  }

  predicate Accepts<V>(s: NodeState<V>, req: AppendRequest<V>) {
    req.term >= s.term && Matches(s.log, req)
  }

  /** The state of a follower after an accepted request, before any delivery. */
  function Spliced<V>(rule: Splice, s: NodeState<V>, req: AppendRequest<V>): NodeState<V>
    requires Accepts(s, req)
  {
    Adopt(s, req).(log := IntendedSplice(rule, s.log, req.prevIndex, req.entries))
  }

  function AppendIntended<V>(rule: Splice, me: NodeId, s: NodeState<V>, req: AppendRequest<V>): AppendOutcome<V> {
    if !Accepts(s, req) then
      Replied(s, AppendReply(me, s.term, false))
    else
      var s1 := Spliced(rule, s, req);
      var upTo := Min(req.leaderCommit, req.prevIndex + |req.entries|);
      var s2 := if upTo > s.commit then Deliver(s1, upTo) else s1;
      Replied(s2, AppendReply(me, req.term, true))
  }

  // ---------------------------------------------------------------- the leader

  function AppendEntry<V>(s: NodeState<V>, value: V): NodeState<V> {
    if s.role.Leader? then s.(log := s.log + [Entry(value, s.term)]) else s
  }

  /** The request a leader builds for one peer; None when an index is out of range. */
  function BuildRequest<V>(me: NodeId, s: NodeState<V>, peer: NodeId): Option<AppendRequest<V>> {
    if |s.log| > 0 && peer in s.nextIndex && s.nextIndex[peer] >= 2 then
      var prev := s.nextIndex[peer] - 1;
      if prev <= |s.log| then
        Some(AppendRequest(s.term, me, prev, s.log[prev - 1].term, s.log[prev..], s.commit))
      else
        None
    else if |s.log| > 0 && peer in s.nextIndex && s.nextIndex[peer] == 1 then
      Some(AppendRequest(s.term, me, 0, 0, s.log, s.commit))
    else
      Some(AppendRequest(s.term, me, 0, 0, [], s.commit))
  }

  function OnAppendReply<V>(s: NodeState<V>, peer: NodeId, success: bool): NodeState<V> {
    if success then
      s.(nextIndex := s.nextIndex[peer := |s.log| + 1],
         matchIndex := if |s.log| > 0 then s.matchIndex[peer := |s.log|] else s.matchIndex)
    else if peer in s.nextIndex && s.nextIndex[peer] > 1 then
      s.(nextIndex := s.nextIndex[peer := s.nextIndex[peer] - 1])
    else
      s
  }

  /** The leader's own entry in its bookkeeping, written after every round of heartbeats. */
  function CloseRound<V>(me: NodeId, s: NodeState<V>): NodeState<V> {
    s.(nextIndex := s.nextIndex[me := |s.log| + 1], matchIndex := s.matchIndex[me := |s.log|])
  }

  /** A whole round of heartbeats, answered by `replies` (None: no answer came):
      the state, the requests sent, and whether every index was in range. */
  function HeartbeatRound<V>(me: NodeId, s: NodeState<V>, peers: seq<NodeId>, replies: seq<Option<AppendReply>>)
    : (r: (NodeState<V>, seq<AppendRequest<V>>, bool))
    requires |replies| == |peers|
  {
    if peers == [] then
      (s, [], true)
    else
      var last := |peers| - 1;
      var (before, sent, ok) := HeartbeatRound(me, s, peers[..last], replies[..last]);
      if !ok || BuildRequest(me, before, peers[last]).None? then
        (before, sent, false)
      else
        var after := if replies[last].Some?
                     then OnAppendReply(before, peers[last], replies[last].value.success)
                     else before;
        (after, sent + [BuildRequest(me, before, peers[last]).value], true)
  }

  /** The leader's search for an index to commit, and the deliveries that follow.
      With `currentTermOnly` an entry of an older term is not committed directly. */
  ghost function CommitEntries<V>(s: NodeState<V>, quorum: int, currentTermOnly: bool): (NodeState<V>, bool) {
    match CommitCandidate(s.matchIndex, quorum)
    case None => (s, true)
    case Some(v) =>
      if currentTermOnly && s.commit < v <= |s.log| && s.log[v - 1].term != s.term then
        (s, true)
      else
        DeliverOrPanic(s, v)
  }

  // ---------------------------------------------------------------- elections

  /** The step into candidacy: a new term, a vote for oneself, an empty tally. */
  function Stand<V>(me: NodeId, s: NodeState<V>): NodeState<V> {
    s.(role := Candidate, term := s.term + 1, isLeader := false, votes := [me], votedFor := Some(me))
  }

  function Ballot<V>(me: NodeId, s: NodeState<V>): VoteRequest {
    VoteRequest(s.term, me, |s.log|, LastTerm(s.log))
  }

  /** What the candidate sees when it turns to the next peer: its own timer has
      run out, no readable answer came, or an answer. */
  datatype PollEvent = TimedOut | NoAnswer | Answered(reply: VoteReply)

  function Retire<V>(s: NodeState<V>): NodeState<V> {
    s.(role := Candidate, term := s.term + 1, isLeader := false)
  }

  function Release<V>(s: NodeState<V>, term: Term): NodeState<V> {
    s.(votedFor := None, role := Follower, term := term, isLeader := false)
  }

  function Win<V>(s: NodeState<V>, peers: seq<NodeId>): NodeState<V> {
    s.(role := Leader, isLeader := true,
       nextIndex := map p | p in peers :: |s.log| + 1,
       matchIndex := map p | p in peers :: 0)
  }

  function Count<V>(s: NodeState<V>, reply: VoteReply): NodeState<V> {
    if reply.granted then s.(votes := s.votes + [reply.node]) else s
  }

  /** One turn of the election loop: the state, and whether the loop ends. */
  function OnPoll<V>(s: NodeState<V>, quorum: int, peers: seq<NodeId>, event: PollEvent): (NodeState<V>, bool) {
    match event
    case TimedOut => (Retire(s), true)
    case NoAnswer => (s, false)
    case Answered(reply) =>
      if !reply.granted && reply.term >= s.term then
        (Release(s, reply.term), true)
      else
        var counted := Count(s, reply);
        if |counted.votes| >= quorum then (Win(counted, peers), true) else (counted, false)
  }

  /** The election loop over the first peers, which see `events`. */
  function Election<V>(s: NodeState<V>, quorum: int, peers: seq<NodeId>, events: seq<PollEvent>): (NodeState<V>, bool) {
    if events == [] then
      (s, false)
    else
      var last := |events| - 1;
      var (before, done) := Election(s, quorum, peers, events[..last]);
      if done then (before, true) else OnPoll(before, quorum, peers, events[last])
  }
}
