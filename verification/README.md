# quaso: Raft and the replicated map, modelled in Dafny

This project models the Raft node of `quaso` (`raft/src/server/state.rs`,
`raft/src/server/rpc.rs`) and the map it replicates (`kv/src/storage/kv.rs`), and
proves what the protocol promises about them. `dafny verify dfyconfig.toml` checks
everything.

## What is modelled

A node is a class, `RaftNode.Node`, with the fields that the source keeps behind its
state lock (`raft/src/server/state.rs:124-188`) and methods that update them as the
source does. Each method's contract gives the whole new state as a function in module
`Handlers`. The cluster (module `Cluster`) is the set of node states together with
every request ever sent; a schedule of actions (client appends, one heartbeat exchange,
the end of a round, the commit rule, the start of a candidacy, one turn of an election
loop, a late request, a tick) leads it through a run. What the source leaves to timers
and the network is a choice of the schedule: an exchange may be lost on the way there,
lost on the way back, or answered. The modules build on one another:

- `Types`, `Quorum`, `Handlers`, `RaftNode`: the records, the quorum formula and the
  frequency fold, the operations as functions, the node as a class.
- `Cluster`, `Loops`: steps and runs; the node's loops are stretches of a schedule.
- `Moves`, `Progress`: every step is at each node one operation of that node; what every
  run keeps, with the source's own handlers as with the intended ones.
- `LogOrder`, `Elections`: who gets elected, in every run whatever the append handlers do,
  and one leader a term as long as no term falls.
- `History`, `Invariant`, `Replication`, `Voting`, `Leading`, `Steps`: the invariant of all
  runs with the intended handlers, one step of one node at a time. The history is the
  proof's own account of who won, voted for and acknowledged what.
- `Safety`: the theorems, about two moments of one run, without the history.
- `StablePhase`, `Failover`: the source's own handlers under one leader, and one change of leader.
- `Campaign`: when a vote is given, when an election succeeds, and who stays quiet.
- `Service`: in how many rounds a stable leader's entries are delivered by a quorum that answers.
- `HandlerLaws`, `Refinement`, `AppendOnly`, `SplitBrain`: exactly where the source's handlers
  do what their comments say, the runs of the source that are therefore safe, and a run
  that is not.
- `CatchUp`: how many heartbeats bring a follower up to date.
- `KvStore`, `Agreement`: the store, map agreement, persistence.

## Where the code and its comments differ

The code is modelled as it is (`AppendLiteral`, `CommitEntries` without the term test)
beside what the comments and sections 5.1 to 5.4 of the Raft paper (Ongaro and
Ousterhout, 2014) describe (`AppendIntended`, `CommitEntries` with it).

- A request of an older term is to be refused, but only a leader refuses it
  (`raft/src/server/rpc.rs:267-270`). A follower or candidate may lower its term
  (`raft/src/server/rpc.rs:353`) and then vote twice in one term: `TermFallsIff`,
  `StaleHeartbeatFreesVote`. `TwoLeadersDisagree` is a whole run of three nodes that
  ends with two leaders in one term who have committed different entries. Whatever else
  the source does, a run without such a request has one leader a term: `SourceElectionSafety`.
- The log is to be cut at the first conflict, but it is cut one entry too early or
  extended without being cut (`raft/src/server/rpc.rs:366-375`). The result is right if
  and only if the follower's log ends where the request begins: `SpliceIsIntendedIff`.
  A request that is handled twice is therefore applied twice, or aborts the handler:
  `RedeliveryIff`. As long as every request that is taken does begin there, and is not
  stale, the source is safe over any number of terms: `SourceStateMachineSafety`. The
  comments have two readings, and both are modelled: `Replace` takes the request's
  entries for all that follows the previous one, `Merge` keeps what does not conflict.
- Position 0 always matches, but with a log that is not empty the position before the
  first is looked up (`raft/src/server/rpc.rs:286-290`), which aborts the handler: `PanicsIff`.
- A follower's commit index is to be the smaller of the leader's and the last new entry,
  but the leader's is taken as it is (`raft/src/server/rpc.rs:377-390`): `LiteralIsIntendedIff`.
- Only entries of the leader's own term are to be committed by counting (section 5.4.2 of
  the paper), but the term is not looked at (`raft/src/server/state.rs:469-480`):
  `CommitIsIntendedIff`, `OldEntryIsReached`. By itself this makes no deliveries disagree:
  `SourceStateMachineSafety` does not ask for the term test, because where no log is cut
  an entry that a quorum holds stays there.
- A handler that unseats a leader does not clear the flag that its clients read
  (`raft/src/server/rpc.rs:236-242`, `raft/src/server/rpc.rs:353`): `FlagStaysExactIff`.

## What else the code does

- A node without peers never leads, because its own vote is only counted when an answer
  comes (`raft/src/server/state.rs:598-633`): `LoneNodeNeverLeads`.
- A node whose log is empty does not vote while it has a vote given, in whatever term, not
  even for the same candidate (`raft/src/server/rpc.rs:225-228`): `VoteGivenIff`, `VoteIsGivenOnce`.
- A candidate that is refused in its own term takes its vote for itself back
  (`raft/src/server/state.rs:619-628`) and may vote again in that term: `RefusalFreesVote`.
- The file holds the log up to the commit index, which itself is not in the file
  (`raft/src/server/state.rs:88-96`). A node that restarts keeps its term, its vote and what
  it had committed, but the next file that it writes, unless it has heard of a commit
  by then, holds an empty log: `EarlyFileIsEmptyIff`. It may vote for a candidate that
  it refused before because of its uncommitted entries: `RestartYieldsIff`.

## Assumptions

- Membership is fixed; a node's id stands for its address; nobody is connected to itself.
- A node holds its state lock while it waits for a reply, so the reply is processed in
  the step in which the peer handled the request. The places where the source gives the
  lock up and takes it again (`raft/src/server/state.rs:603-604`, `625-627`, `648-649`,
  `693-695`) are taken as one step. If another request were handled in between, a node
  could become leader in a term that it did not win.
- An index out of range ends the task in which it occurs: the listener, and then the node
  is deaf but still sends, commits and stands; or the ticker, and then it only listens. A
  sender whose peer aborts while it waits gets an empty reply, on which its ticker ends too
  (`raft/src/server/state.rs:380`). With the intended handlers, and in a stable phase, no
  task is ever aborted (`NothingStops`, `StableRun`).
- The stable phase has no lost replies and no late requests; `RedeliveryIff` says why.
- Under the reading `Replace` no request is handled after its sender has stopped
  waiting for it, because an old request would then cut off entries that a newer one
  brought; under `Merge` every request may be handled at any time, any number of times.
- No run over several nodes contains a restart.

## Model

| member | source | states |
|---|---|---|
| Quorum.QuorumIsMajority | raft/src/server/state.rs:484-487 | the float formula is n div 2 + 1 for n = connections + 1, more than half of n |
| Quorum.QuorumsIntersect | raft/src/server/state.rs:484-487 | any two sets of members of that size share a member |
| Quorum.DistinctSize | raft/src/server/state.rs:633-633 | the length of a tally without repetition is the number of voters in it |
| Quorum.CountFrequencies | raft/src/server/state.rs:445-453 | the fold, in whatever order the map is iterated, gives each value the number of peers that hold it |
| Quorum.FindFrequent | raft/src/server/state.rs:445-462 | the filter and maximum find a value if and only if some value is held by a quorum; over a map of fewer than two quorums the result is the same in every iteration order |
| Quorum.FrequentIsUnique | raft/src/server/state.rs:454-456 | no two values are each held by a quorum |
| Quorum.FrequentIsQuorumth | raft/src/server/state.rs:445-480 | over the full membership the value found is the quorum-th largest match index: a quorum has reached it, and no quorum has reached more |
| RaftNode.Node.constructor | raft/src/server/state.rs:47-86 | a node starts from its file, or in term 0 with an empty log |
| RaftNode.Node.Persist | raft/src/server/state.rs:88-101 | the file holds the term, the vote and the committed part of the log; it is not written when the commit index is out of range |
| RaftNode.Node.RequestVote | raft/src/server/rpc.rs:144-256 | the whole new state and the reply of the vote handler, early returns included |
| RaftNode.Node.AppendEntries | raft/src/server/rpc.rs:258-398 | the whole new state and the reply of the append handler as written, and where an index out of range aborts it |
| RaftNode.Node.DeliverUpTo | raft/src/server/rpc.rs:380-391 | the delivery loop sends the entries after the commit index in order, and stops at an index out of range |
| RaftNode.Node.AppendEntry | raft/src/server/state.rs:271-288 | a leader appends the value in its term; any other node does nothing |
| RaftNode.Node.PrepareHeartbeat | raft/src/server/state.rs:311-370 | the request for one peer, or an index out of range |
| RaftNode.Node.RecordReply | raft/src/server/state.rs:381-410 | the books after a success or a refusal |
| RaftNode.Node.MaybeSendHeartbeat | raft/src/server/state.rs:290-428 | a round: the requests sent, the books after every reply, the leader's own entry at the end |
| RaftNode.HeartbeatAborts | raft/src/server/state.rs:310-330 | an index out of range ends the round, and later peers are not served |
| RaftNode.Node.MaybeCommitLogEntries | raft/src/server/state.rs:430-482 | the imperative rule delivers up to the value that a quorum holds, whatever the iteration order |
| RaftNode.Node.PollPeer | raft/src/server/state.rs:601-659 | one turn of the election loop: the timer, no answer, a refusal of this term or later, a vote, the quorum |
| RaftNode.Node.HandleCandidateElection | raft/src/server/state.rs:565-661 | the request that all peers get, and the election loop over them, which ends at the first deciding turn |
| RaftNode.ElectionEnds | raft/src/server/state.rs:601-652 | after a deciding turn no later answer is seen |
| RaftNode.Node.MaybeTransitionCandidate | raft/src/server/state.rs:664-702 | a node stands exactly when it does not lead, its timer has run out and nobody has been heard |
| Loops.HeartbeatRoundIsSchedule | raft/src/server/state.rs:310-414 | a round run exchange by exchange in a cluster, if it is not aborted, leaves the leader where the loop of the method leaves it |
| Loops.ElectionIsSchedule | raft/src/server/state.rs:598-660 | an election run turn by turn in a cluster leaves the candidate where the loop of the method leaves it |
| Moves.MoveTouches | raft/src/server/state.rs:727-784 | which fields each operation can touch; all others stay as they were |
| Moves.MoveOf | raft/src/server/state.rs:727-784 | every step of the cluster is, at each node, one operation of that node, at a moment when the node can do it; a counted vote is one that the asked peer grants in that step |
| Progress.StepForward | raft/src/server/rpc.rs:258-398 | every step of every node, with either handler, keeps deliveries, commit index, books and flag |
| Progress.RunSound | raft/src/server/state.rs:311-425 | in every run, books are in range from election to step-down, a leader's flag is up, and a node has delivered at least as much as it counts as committed, exactly as much unless one of its tasks was aborted |
| Progress.OnlyForward | raft/src/server/rpc.rs:380-391 | in every run deliveries are never taken back and the commit index never falls; with the intended guard neither does the term |
| Progress.LeaderOnlyAppends | raft/src/server/state.rs:271-288 | while a node leads, its term stays and its log is only extended |
| Progress.AppendedIff | raft/src/server/state.rs:271-288 | a client's entry goes to the end of the log, in the node's term, exactly when the node leads; nothing else changes |
| Progress.RequestFailsIff | raft/src/server/state.rs:311-330 | exactly when a request cannot be built; without a log or a next index it is an empty heartbeat |
| Progress.BooksAfterReply | raft/src/server/state.rs:381-410 | a success sets the peer's books to the end of the log, a refusal takes its next index back by one but never below 1, and every other peer's books stay |
| Progress.BooksAfterRound | raft/src/server/state.rs:416-425 | a round ends with the leader's own books at the end of its log, and nobody else's moved |
| Progress.BuiltRequest | raft/src/server/state.rs:320-370 | a request for a peer in range is defined, names the term before it and carries the whole suffix |
| Progress.LeaderRequestsAreWhole | raft/src/server/state.rs:311-370 | so does every request that a leader builds in any run |
| LogOrder.AsRecentIsPreorder | raft/src/server/rpc.rs:193-222 | the comparison of logs is reflexive, total and transitive |
| LogOrder.GrantMeansAsRecent | raft/src/server/rpc.rs:193-247 | a grant means that the candidate's log is at least as recent as the voter's |
| Elections.TallyIsGiven | raft/src/server/state.rs:571-651 | in every run, a node inside its election loop is a candidate whose tally holds members, each once, whose votes were given to it in its term for its log |
| Elections.LeaderWon | raft/src/server/state.rs:633-651 | every leader won, in a turn of its election loop since which it has led in the same term with the same tally and only extended its log |
| Elections.LeaderDominatesQuorum | raft/src/server/state.rs:571-651 | in every run, with either handler, a leader's tally is a quorum of members without repetition, and the log it had when it was elected is at least as recent as each one's was when it gave this leader its vote of this term |
| Elections.PledgeKept | raft/src/server/rpc.rs:167-179 | while no term falls, only a later term releases a node that is outside its election loop from its vote, the release on a refusal included |
| Elections.OneLeaderPerTerm | raft/src/server/state.rs:565-661 | in every run in which no step lowers a term, at most one node ever leads in a term, whatever the append handlers and the commit rule do |
| Campaign.VoteGivenIff | raft/src/server/rpc.rs:144-256 | a vote is given if and only if the voter is in no later term, its vote of this term is free or already the candidate's, and the candidate's log is as recent as its own or, if its own is empty, it never voted; what a vote changes |
| Campaign.VoteIsGivenOnce | raft/src/server/rpc.rs:166-234 | after a vote everybody else is refused up to that term; the same candidate gets it again if and only if the log is not empty |
| Campaign.SilentPeerIsSkipped | raft/src/server/state.rs:608-659 | a peer that does not answer leaves the candidate with the next one, and nothing else changes |
| Campaign.EarlierRefusalIsSkipped | raft/src/server/state.rs:616-633 | so does a refusal from an earlier term |
| Campaign.ElectionSucceeds | raft/src/server/state.rs:565-661 | a node that stands leads at the end of its loop, in the next term, with its log as it was, its flag up and its books fresh, if a quorum of peers listens, answers and is willing, whatever peers between them are silent |
| Campaign.LoneNodeNeverLeads | raft/src/server/state.rs:598-652 | in no run does a node without peers ever lead |
| Campaign.StandsIff | raft/src/server/state.rs:664-702 | a node stands if and only if it does not lead and has heard nobody since its last tick; what it is then |
| Campaign.SilenceMakesCandidates | raft/src/server/state.rs:766-782 | a node that does not lead and hears nobody after a tick stands |
| Campaign.HeedingHoldsOff | raft/src/server/state.rs:685-689 | in every run, with either handler, a node that has taken a request or given its vote does not stand before the next of its ticks has ended |
| Campaign.TimeoutKeepsVote | raft/src/server/state.rs:601-606 | a candidate whose timer runs out is in the next term with its vote still its own, and refuses everybody else there |
| Campaign.RefusalFreesVote | raft/src/server/state.rs:619-628 | a refusal of the same or a later term makes the candidate follow in that term with its vote free for the next |
| History.Completeness | raft/src/server/rpc.rs:193-247 | what a quorum acknowledged to the leader of one term is in the log with which any later leader was elected |
| Voting.TermIsNotWon | raft/src/server/state.rs:633-651 | a candidate with a quorum of votes is the first to win its term |
| Voting.ReleaseKeeps | raft/src/server/state.rs:619-628 | the vote withdrawn on a refusal in the same term belonged to a candidacy that cannot win any more |
| Voting.WinKeeps | raft/src/server/state.rs:633-651 | an elected candidate satisfies the invariant of leaders |
| Replication.AppendKeeps | raft/src/server/rpc.rs:258-398 | an accepted request keeps the invariant under both readings of the splice, and is acknowledged by what it says |
| Leading.BuiltRequestIsGood | raft/src/server/state.rs:311-370 | a leader's requests are stretches of its log with a committed prefix |
| Leading.CommitKeeps | raft/src/server/state.rs:443-480 | the commit rule restricted to the leader's term delivers only what a quorum has acknowledged |
| Steps.StepKeeps | raft/src/server/state.rs:727-784 | every step keeps the invariant, and the history only grows |
| Safety.ElectionSafety | raft/src/server/state.rs:565-661 | with the intended stale-term guard at most one node ever leads in a term, in every run of either reading, with any late, lost or repeated request |
| Safety.ElectedLogIsOlder | raft/src/server/state.rs:633-651 | the log a leader was elected with is its log without the entries of its own term, and dominates the quorum that elected it |
| Safety.LogMatching | raft/src/server/rpc.rs:283-375 | two logs with one term at a position are identical up to it |
| Safety.TermDiscipline | raft/src/server/rpc.rs:333-353 | terms only rise, log terms never fall along a log, and the last is at most the node's |
| Safety.LeaderCompleteness | raft/src/server/rpc.rs:191-247 | whatever a node knows to be committed is in the log of every leader of a later term |
| Safety.StateMachineSafety | raft/src/server/rpc.rs:377-391 | no two nodes ever deliver different entries at one position |
| Safety.DeliveredIsCommittedLog | raft/src/server/state.rs:469-480 | what a node has delivered is its log up to its commit index |
| Safety.NothingStops | raft/src/server/state.rs:320-330 | no index is ever out of range with the intended handlers |
| StablePhase.StableHandling | raft/src/server/rpc.rs:283-391 | in a stable state a heartbeat is taken exactly when it begins at the end of the follower's log, and makes the logs equal; otherwise nothing changes |
| StablePhase.StableStep | raft/src/server/rpc.rs:283-391 | every action of the phase keeps it stable, with the source's own handlers |
| StablePhase.StableRun | raft/src/server/state.rs:271-482 | in every state of the phase followers' logs are prefixes of the leader's, next indexes lie beyond them, match indexes within them, and no handler aborts |
| StablePhase.StableDeliveries | raft/src/server/state.rs:443-480 | in the phase every node has delivered its log up to its commit index, and all deliveries are comparable |
| Service.ExchangeBringsCloser | raft/src/server/state.rs:320-410 | every exchange of a stable leader serves the peer or brings it one closer; the one that serves it tells it the commit index |
| Service.RoundServes | raft/src/server/state.rs:290-482 | a round brings every answering peer one exchange closer; when a quorum is served in it, its commit rule commits the whole log |
| Service.RoundsServe | raft/src/server/state.rs:290-482 | g + 1 rounds, for a quorum at most g exchanges behind, leave the leader's whole log delivered by all of it |
| Service.EntryIsServed | raft/src/server/state.rs:271-482 | a client's entry is delivered by all of an answering quorum after g + 1 rounds, behind all that was in the log before |
| Service.EveryEntryIsServed | raft/src/server/state.rs:271-482 | however far behind the quorum is, the length of the log plus two is enough rounds |
| Service.FirstElection | raft/src/server/state.rs:565-661 | in a fresh cluster whoever stands is elected in term 1 by any quorum that answers, and is a stable leader |
| Service.FreshClusterServes | raft/src/server/state.rs:727-784 | from a fresh cluster an election, a client's append and two rounds, with a quorum answering, leave the entry delivered by all of it |
| Failover.AsRecentIsLonger | raft/src/server/rpc.rs:193-222 | among prefixes of one log whose terms never fall, being as recent is being as long |
| Failover.FailoverKeepsCommits | raft/src/server/state.rs:578-651 | elections after a stable phase elect only nodes whose log has all that was committed in it; each voter's log is a prefix of the winner's |
| Failover.VoteRunTerms | raft/src/server/rpc.rs:154-238 | elections by themselves never lower a term or touch a log |
| Failover.FirstElectionIsStable | raft/src/server/state.rs:633-649 | the first election of a fresh cluster leaves it stable |
| Failover.OneFailover | raft/src/server/state.rs:565-651 | from a fresh cluster: an election, a stable phase, elections; whatever anyone delivered is in the next leader's log |
| HandlerLaws.SpliceIsIntendedIff | raft/src/server/rpc.rs:357-375 | the source's splice is the intended one if and only if the log ends where the request begins |
| HandlerLaws.SpliceLosesOrRepeats | raft/src/server/rpc.rs:366-375 | what the splice leaves elsewhere: a request that ends before the log loses the previous entry, any other is added behind entries that are already there |
| HandlerLaws.LiteralIsIntendedIff | raft/src/server/rpc.rs:267-391 | the whole handler does what is intended, reply included, if and only if a test on its input holds |
| HandlerLaws.PanicsIff | raft/src/server/rpc.rs:286-390 | exactly when the handler meets an index out of range |
| HandlerLaws.AnswerIff | raft/src/server/rpc.rs:267-397 | success is answered if and only if the request is not of an earlier term at a leader and passes the log test; a refusal changes nothing |
| HandlerLaws.TakenMeans | raft/src/server/rpc.rs:333-391 | a node that takes a request follows in its term, has heard somebody, has the log spliced, and delivers and counts what is newly committed; tally, books and leader flag stay |
| HandlerLaws.TakenBindsVote | raft/src/server/rpc.rs:333-353 | after a request of a later term every other candidate of that term is refused; any other leaves the node to its vote |
| HandlerLaws.AbortedHandlerLeaves | raft/src/server/rpc.rs:286-390 | what an aborted handler leaves: nothing changed, or everything but the commit index |
| HandlerLaws.AbortedDeliveryRepeats | raft/src/server/rpc.rs:380-391 | entries that an aborted handler delivered are delivered again |
| HandlerLaws.TermFallsIff | raft/src/server/rpc.rs:267-353 | exactly when the handler lowers the term |
| HandlerLaws.StaleHeartbeatFreesVote | raft/src/server/rpc.rs:267-353 | a node that votes for two candidates in one term |
| HandlerLaws.RedeliveryIff | raft/src/server/rpc.rs:286-375 | handling a request twice is handling it once if and only if it has no entries; otherwise the log has them twice or, for the first request, the handler aborts |
| HandlerLaws.FlagStaysExactIff | raft/src/server/rpc.rs:236-242 | the leader flag stays exact if and only if the handler does not unseat a leader |
| HandlerLaws.StableRequestsAreIntended | raft/src/server/rpc.rs:285-391 | heartbeats of a stable phase pass the test |
| HandlerLaws.CommitIsIntendedIff | raft/src/server/state.rs:469-480 | the source's commit rule is the restricted one exactly when the value found is no news or of the leader's term |
| HandlerLaws.FoundIsCommitted | raft/src/server/state.rs:445-480 | a value that a quorum holds, above the commit index and within the log, is committed and exactly the entries up to it are delivered; with the restricted rule if its term is the leader's |
| HandlerLaws.FoundBeyondLogAborts | raft/src/server/state.rs:469-480 | a value beyond the log aborts the rule after the rest of the log was delivered |
| HandlerLaws.NothingFoundNothingCommitted | raft/src/server/state.rs:458-469 | where no value is held by a quorum, or none is news, nothing changes |
| HandlerLaws.OldEntryIsCommitted | raft/src/server/state.rs:469-480 | an entry of an older term that the source commits and the restricted rule does not |
| SplitBrain.TwoLeadersDisagree | raft/src/server/rpc.rs:267-353 | a run of the source from a fresh cluster of three, no message lost or late, to two leaders of one term that have delivered different entries at one position |
| SplitBrain.OldEntryIsReached | raft/src/server/state.rs:469-480 | such a run to a leader that commits an entry of an older term, which the restricted rule would not |
| Refinement.StepRefines | raft/src/server/rpc.rs:267-391 | a step of the source that passes the test on the state before it is the intended step |
| Refinement.LiteralRunIsIntended | raft/src/server/rpc.rs:258-398 | a run of the source whose steps pass the test is a run with the intended handlers |
| Refinement.LiteralSafety | raft/src/server/rpc.rs:258-398 | over any number of terms, such a run of the source has comparable deliveries and no index out of range |
| Refinement.TermsFallIff | raft/src/server/rpc.rs:267-353 | a step lowers some node's term if and only if a node that does not lead handles a stale request that passes the log test |
| Refinement.SourceElectionSafety | raft/src/server/rpc.rs:144-398 | a run of the source without such a step has one leader a term, whatever its splices, commits, lost replies and aborted handlers |
| AppendOnly.LogsGrow | raft/src/server/rpc.rs:366-375 | where every request taken begins at the end of the log and is not stale, no log of the source is ever cut |
| AppendOnly.SourceLogMatching | raft/src/server/rpc.rs:283-375 | there, two logs with one term at a position are identical up to it, over any number of terms |
| AppendOnly.BooksAreHeld | raft/src/server/state.rs:381-397 | there, what a leader counts as matching at a peer is in that peer's log |
| AppendOnly.SourceDeliversLog | raft/src/server/rpc.rs:380-391 | there, each node has delivered exactly its log up to its commit index, and the logs of a quorum begin with that |
| AppendOnly.SourceStateMachineSafety | raft/src/server/state.rs:443-480 | there, no two nodes ever deliver different entries at one position, although the commit rule does not look at terms, replies may be lost, requests come late and handlers abort |
| CatchUp.CatchUpIsExact | raft/src/server/state.rs:320-409 | from next index k + 1, a follower with the first m entries refuses exactly k - m heartbeats and takes the next, which makes the logs equal, while clients append |
| CatchUp.DivergentFollowerConverges | raft/src/server/rpc.rs:283-375 | with the intended handler any follower takes a heartbeat after at most as many as the next index, if and only if it is not ahead in term, and then has the leader's log |
| CatchUp.EveryFollowerConverges | raft/src/server/state.rs:399-409 | in every state of every run, any peer not ahead in term has the leader's log after at most its length + 1 exchanges |
| KvStore.ReplayIsLastWrite | kv/src/storage/kv.rs:96-106 | replaying a log leaves under each key what was written there last |
| KvStore.ReplayAppends | kv/src/storage/kv.rs:156-162 | applying a delivery after another is applying both |
| KvStore.SubmitAppendsWrites | kv/src/storage/kv.rs:250-262 | a leader's log gets the writes among clients' operations in order, any other node loses them |
| KvStore.KvStore.Apply | kv/src/storage/kv.rs:156-162 | writes and deletions change the map; other operations do not |
| KvStore.KvStore.HandleCmd | kv/src/storage/kv.rs:250-262 | a read looks its key up and changes nothing; writes and deletions go to the log |
| KvStore.KvStore.GenericHandlerInterface | kv/src/storage/kv.rs:179-196 | in any order of turns, each turn with a message to take takes one: clients' operations reach the log in their order, and the map is the replay of the deliveries read |
| KvStore.KvStore.Drain | kv/src/storage/kv.rs:186-195 | once the delivery queue is empty the map is the replay of all that was delivered |
| Agreement.MapsAgree | kv/src/storage/kv.rs:156-196 | two nodes with one commit index hold the same map, which is the replay of either's log up to there, in every run |
| Agreement.StableMapsAgree | kv/src/storage/kv.rs:156-196 | the same in a stable phase with the source's own handlers |
| Agreement.WriteIsVisible | kv/src/storage/kv.rs:156-196 | a write that a stable leader takes is, after enough answered rounds, in the maps of all of the quorum, the other keys as earlier writes left them |
| Agreement.FilesOnlyGrow | raft/src/server/state.rs:88-101 | a node's later files extend its earlier ones, in every run |
| Agreement.StableFilesOnlyGrow | raft/src/server/state.rs:88-101 | the same in a stable phase with the source's own handlers |
| Agreement.StartsFromFile | raft/src/server/state.rs:47-86 | a node that starts from a file has its term, vote and log, follows, and counts nothing as delivered, committed or matched |
| Agreement.RestartKeepsVote | raft/src/server/state.rs:47-98 | what a node refuses because of its term or vote it refuses after a restart from its file |
| Agreement.RestartYieldsIff | raft/src/server/state.rs:88-98 | exactly when a restart turns a refusal into a vote: it was for the uncommitted entries only |
| Agreement.EarlyFileIsEmptyIff | raft/src/server/state.rs:88-98 | the next file, written before anything is committed again, holds no log; it is the same file if and only if nothing was committed |
| Agreement.RestartRebuildsMap | raft/src/server/state.rs:47-98 | a node restarted from its file and told again of any commit index up to the old one delivers the same entries, and rebuilds the map of that moment |

## Left out

- TCP, framing and bincode (`raft/src/server/rpc.rs:401-523`): an exchange is a step, and the only reply that cannot be read is that of a peer whose handler aborts.
- Timers, random durations, atomic memory orderings and logging: they only enable steps, and the schedule chooses.
- Integer widths: terms are unbounded, and the quorum formula is over `real`, which the source's `f32` matches while the number of nodes is exact in it.
- Crash safety of votes and of uncommitted entries: the source writes the committed part every five seconds only (`raft/src/server/state.rs:526-539`), so a restart may forget a vote; only the single-node restart is modelled, and writing the file is not a step of the cluster.
- Liveness under a fair network, and lock cycles: elections and service are proved for given answers, round by round.
- Campaign.ElectionSucceeds: the peers outside the quorum are silent; a refusal from a node of the same or a later term would end the election, as `RefusalFreesVote` says.
- Multi-term safety of the source as written: it fails (`SplitBrain.TwoLeadersDisagree`); it is proved for the runs that pass the tests of `AppendOnly` and `Refinement`, and for one failover.
- Failover.OneFailover: speaks of one change of leader; a second stable phase need not begin, because a follower's log may be longer than the new leader's.
- KvStore.KvStore.GenericHandlerInterface: takes a finite list of turns, because the source's loop does not end; the delivery channel is the node's outbox and the store's reading position.
- `ping_node`, `ping_nodes`, `maybe_transition_leader`, `start_consensus`, `start_deliver_interface` and `reset_persist_timeout`: no protocol content, or not called.
- `last_applied`: never read or changed by the source.
- The client side of the store (`handle_client`, `parse_command`, `validate`, `Display`), `kv/src/bin/client.rs`, `kv/src/main.rs` and `raft/src/utils.rs`: terminal and socket handling.
