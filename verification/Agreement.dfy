/** What replication and persistence give the map. */
module Agreement {
  import opened Types
  import opened Handlers
  import opened Cluster
  import opened Progress
  import opened Safety
  import opened StablePhase
  import opened Quorum
  import opened LogOrder
  import opened Campaign
  import opened Service
  import opened KvStore

  /** The map of a store that has read everything its node has delivered. */
  function MapOf(s: NodeState<Operation>): Contents {
    Replay(map[], s.outbox)
  }

  lemma ComparableOfEqualLength<V>(a: Log<V>, b: Log<V>)
    requires Comparable(a, b) && |a| == |b|
    ensures a == b
  {
  }

  /** Replicated map agreement: in every run with the intended handlers, two nodes with
      the same commit index, at any two moments, hold the same map once their queues are
      drained, and it is the replay of either's log up to there. */
  lemma MapsAgree(cfg: Config, run: seq<Cluster<Operation>>, schedule: seq<Action<Operation>>,
                  i: nat, j: nat, a: NodeId, b: NodeId)
    requires SafeRun(cfg, run, schedule) && i < |run| && j < |run| && a in run[i].nodes && b in run[j].nodes
    requires run[i].nodes[a].commit == run[j].nodes[b].commit
    ensures MapOf(run[i].nodes[a]) == MapOf(run[j].nodes[b])
    ensures var s := run[i].nodes[a];
            s.commit <= |s.log| && MapOf(s) == Replay(map[], s.log[..s.commit])
  {
    DeliveredIsCommittedLog(cfg, run, schedule, i, a);
    DeliveredIsCommittedLog(cfg, run, schedule, j, b);
    StateMachineSafety(cfg, run, schedule, i, j, a, b);
    ComparableOfEqualLength(run[i].nodes[a].outbox, run[j].nodes[b].outbox);
  }

  /** The same in a stable phase with the source's own handler. */
  lemma StableMapsAgree(cfg: Config, run: seq<Cluster<Operation>>, schedule: seq<Action<Operation>>,
                        l: NodeId, i: nat, j: nat, a: NodeId, b: NodeId)
    requires Run(cfg, run, schedule) && i <= j < |run| && StableBetween(schedule, i, j) && Stable(cfg, run[i], l)
    requires a in cfg.members && b in cfg.members
    ensures a in run[i].nodes && b in run[j].nodes
    ensures run[i].nodes[a].commit == run[j].nodes[b].commit ==> MapOf(run[i].nodes[a]) == MapOf(run[j].nodes[b])
    ensures var s := run[i].nodes[a];
            s.commit <= |s.log| && MapOf(s) == Replay(map[], s.log[..s.commit])
  {
    StableDeliveries(cfg, run, schedule, l, i, j, a, b);
    if run[i].nodes[a].commit == run[j].nodes[b].commit {
      ComparableOfEqualLength(run[i].nodes[a].outbox, run[j].nodes[b].outbox);
    }
  }

  /** A write becomes visible: once a stable leader has taken it, as many rounds with a quorum
      answering as its log is long, plus two, leave it in the maps of all of the quorum, and
      the other keys as all writes before it left them. */
  lemma WriteIsVisible(cfg: Config, run: seq<Cluster<Operation>>, schedule: seq<Action<Operation>>, s: nat,
                       l: NodeId, op: Operation, a: set<NodeId>, n: NodeId)
    requires Run(cfg, run, schedule) && s < |schedule| && Stable(cfg, run[s], l) && (op.Set? || op.Delete?)
    requires schedule[s] == ClientAppend(l, op) && Rounds(cfg, schedule, s + 1, l, a, |run[s].nodes[l].log| + 2)
    requires |a| + 1 >= |cfg.members| / 2 + 1 && a <= Elements(PeersOf(cfg, l)) && n in a + {l}
    ensures var e, before := RoundsEnd(cfg, s + 1, l, |run[s].nodes[l].log| + 2), Replay(map[], run[s].nodes[l].log);
            && e < |run| && n in run[e].nodes
            && MapOf(run[e].nodes[n]) == if op.Set? then before[op.key := op.value] else before - {op.key}
  {
    EveryEntryIsServed(cfg, run, schedule, s, l, op, a);
    var log, entry := run[s].nodes[l].log, Entry(op, run[s].nodes[l].term);
    assert (log + [entry])[..|log|] == log;
  }

  // ---------------------------------------------------------------- persistence

  /** The contents of a node's file. */
  function FileOf<V>(s: NodeState<V>): PersistentState<V>
    requires s.commit <= |s.log|
  {
    PersistentState(s.term, s.votedFor, s.log[..s.commit])
  }

  /** Successive files of one node hold logs of which each extends the one before. */
  lemma FilesOnlyGrow<V>(cfg: Config, run: seq<Cluster<V>>, schedule: seq<Action<V>>, i: nat, j: nat, n: NodeId)
    requires SafeRun(cfg, run, schedule) && i <= j < |run| && n in cfg.members
    ensures n in run[i].nodes && run[i].nodes[n].commit <= |run[i].nodes[n].log|
    ensures n in run[j].nodes && run[j].nodes[n].commit <= |run[j].nodes[n].log|
    ensures FileOf(run[i].nodes[n]).log <= FileOf(run[j].nodes[n]).log
  {
    OnlyForward(cfg, run, schedule, i, j, n);
    DeliveredIsCommittedLog(cfg, run, schedule, i, n);
    DeliveredIsCommittedLog(cfg, run, schedule, j, n);
  }

  lemma StableOutboxGrows<V>(cfg: Config, c: Cluster<V>, l: NodeId, a: Action<V>, n: NodeId)
    requires Stable(cfg, c, l) && n in cfg.members
    ensures n in Apply(cfg, c, a).nodes && c.nodes[n].outbox <= Apply(cfg, c, a).nodes[n].outbox
  {
    StepForward(cfg, c, a, n);
  }

  /** The same in a stable phase with the source's own handler. */
  lemma {:induction false} StableFilesOnlyGrow<V>(cfg: Config, run: seq<Cluster<V>>, schedule: seq<Action<V>>,
                                                  l: NodeId, i: nat, j: nat, n: NodeId)
    requires Run(cfg, run, schedule) && i <= j < |run| && StableBetween(schedule, i, j) && Stable(cfg, run[i], l)
    requires n in cfg.members
    ensures n in run[i].nodes && Delivered(run[i].nodes[n]) && n in run[j].nodes && Delivered(run[j].nodes[n])
    ensures FileOf(run[i].nodes[n]).log <= FileOf(run[j].nodes[n]).log
    decreases j
  {
    StableDeliveries(cfg, run, schedule, l, i, j, n, n);
    if i < j {
      StableFilesOnlyGrow(cfg, run, schedule, l, i, j - 1, n);
      StableRun(cfg, run, schedule, l, i, j - 1);
      assert Step(cfg, run, schedule, j - 1);
      StableOutboxGrows(cfg, run[j - 1], l, schedule[j - 1], n);
    }
  }

  /** What a node that starts from a file knows: term, vote and log are those of the file; it
      follows, has delivered nothing, and counts nothing as committed or matched. */
  lemma StartsFromFile<V>(peers: seq<NodeId>, file: PersistentState<V>, p: NodeId)
    requires p in peers
    ensures var r := StartState(peers, Some(file));
            && FileOf(r.(commit := |r.log|)) == file
            && r.role.Follower? && r.votes == [] && r.outbox == [] && r.commit == 0 && !r.heard && !r.isLeader
            && p in r.nextIndex && r.nextIndex[p] == 0 && p in r.matchIndex && r.matchIndex[p] == 0
  {
  }

  lemma FreshStart<V>(peers: seq<NodeId>)
    ensures StartState<V>(peers, None) == StartState(peers, Some(PersistentState(0, None, [])))
  {
  }

  /** A restart does not free the vote in the file: the node refuses every other candidate of
      that term, and everybody of an earlier one, as it did before. */
  lemma RestartKeepsVote<V>(s: NodeState<V>, peers: seq<NodeId>, n: NodeId, cs: NodeState<V>)
    requires s.commit <= |s.log|
    ensures var r := StartState(peers, Some(FileOf(s)));
            && (cs.term < s.term ==> !VoteAnswer(0, r, Ballot(n, cs)).granted)
            && (cs.term == s.term && s.votedFor.Some? && s.votedFor.value != n ==> !VoteAnswer(0, r, Ballot(n, cs)).granted)
            && VoteAnswer(0, r, Ballot(n, cs)).term == (if Willing(r, n, cs) then cs.term else s.term)
  {
    VoteGivenIff(0, StartState(peers, Some(FileOf(s))), n, cs);
  }

  /** Exactly when a restart turns a refusal into a vote: the terms and the vote allow it, and
      the candidate's log is as recent as the committed part of the log but not as all of it;
      with nothing committed, no vote may ever have been given. */
  lemma RestartYieldsIff<V>(s: NodeState<V>, peers: seq<NodeId>, n: NodeId, cs: NodeState<V>)
    requires s.commit <= |s.log|
    requires !VoteAnswer(0, s, Ballot(n, cs)).granted
    ensures VoteAnswer(0, StartState(peers, Some(FileOf(s))), Ballot(n, cs)).granted <==>
              && s.term <= cs.term && (s.term == cs.term ==> s.votedFor.None? || s.votedFor.value == n)
              && s.log != [] && !AsRecent(cs.log, s.log)
              && (if s.commit == 0 then s.votedFor.None? else AsRecent(cs.log, s.log[..s.commit]))
  {
    VoteGivenIff(0, s, n, cs);
    VoteGivenIff(0, StartState(peers, Some(FileOf(s))), n, cs);
  }

  /** The file holds the log only up to the commit index, and a node starts with commit index 0:
      a file written before anything is committed again keeps the whole log if and only if
      nothing had been committed. */
  lemma EarlyFileIsEmptyIff<V>(s: NodeState<V>, peers: seq<NodeId>)
    requires s.commit <= |s.log|
    ensures var file := FileOf(s);
            var again := FileOf(StartState(peers, Some(file)));
            && again.term == file.term && again.votedFor == file.votedFor && again.log == []
            && (again == file <==> s.commit == 0)
  {
  }

  /** Persist, reload and replay: a node restarted from its file, told again of any
      commit index c up to the old one, delivers the same entries, and an empty map
      becomes the one of that moment. */
  lemma RestartRebuildsMap(s: NodeState<Operation>, peers: seq<NodeId>, c: nat)
    requires Delivered(s) && c <= s.commit
    ensures var (r', ok) := DeliverOrPanic(StartState(peers, Some(FileOf(s))), c);
            && ok && r'.outbox == s.outbox[..c] && Delivered(r')
            && MapOf(r') == Replay(map[], s.log[..c])
            && (c == s.commit ==> MapOf(r') == MapOf(s))
  {
    var r := StartState(peers, Some(FileOf(s)));
    assert s.outbox[..c] == s.log[..c] && r.log[..c] == s.log[..c];
    if c > 0 {
      assert r.log[0..c] == s.outbox[..c];
    }
    assert c == s.commit ==> s.outbox[..c] == s.outbox;
  }
}
