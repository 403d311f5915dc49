/** The safety theorems of the protocol with the intended handlers, over every run of
    any length and any number of terms. Each compares two moments i and j of one run
    and speaks of the nodes' states alone. */
module Safety {
  import opened Types
  import opened Cluster
  import opened Elections
  import opened Progress
  import opened History
  import opened Invariant
  import opened Steps

  /** A run from a fresh cluster, in which every action is admissible. */
  ghost predicate SafeRun<V>(cfg: Config, run: seq<Cluster<V>>, schedule: seq<Action<V>>) {
    Run(cfg, run, schedule) && Initial(cfg, run[0]) && AllAdmissible(cfg, schedule)
  }

  /** The histories of two moments of a run. */
  lemma TwoMoments<V>(cfg: Config, run: seq<Cluster<V>>, schedule: seq<Action<V>>, i: nat, j: nat)
    returns (hi: History<V>, hj: History<V>)
    requires SafeRun(cfg, run, schedule) && i <= j < |run|
    ensures Inv(cfg, run[i], hi) && Inv(cfg, run[j], hj) && Extends(hi, hj)
  {
    hi := RunKeeps(cfg, run, schedule, 0, NoHistory(), i);
    hj := RunKeeps(cfg, run, schedule, i, hi, j);
  }

  /** What the invariant says of node a at moment i and of node b at moment j. */
  lemma TwoNodes<V>(cfg: Config, run: seq<Cluster<V>>, schedule: seq<Action<V>>, i: nat, j: nat, a: NodeId, b: NodeId)
    returns (hi: History<V>, hj: History<V>)
    requires SafeRun(cfg, run, schedule) && i <= j < |run| && a in run[i].nodes && b in run[j].nodes
    ensures HistoryOk(cfg, hi) && HistoryOk(cfg, hj) && Extends(hi, hj)
    ensures NodeOk(cfg, a, run[i].nodes[a], hi) && NodeOk(cfg, b, run[j].nodes[b], hj)
  {
    hi, hj := TwoMoments(cfg, run, schedule, i, j);
  }

  // ---------------------------------------------------------------- election safety

  /** With the intended guard no term ever falls. */
  lemma IntendedTermsRise<V>(cfg: Config, run: seq<Cluster<V>>, schedule: seq<Action<V>>)
    requires Run(cfg, run, schedule) && Initial(cfg, run[0]) && cfg.mode.Intended?
    ensures NoTermFalls(run)
  {
    forall i | 0 <= i < |run| - 1 ensures TermsRise(run[i], run[i + 1]) {
      NodesAreMembers(cfg, run, schedule, i);
      forall n | n in run[i].nodes && n in run[i + 1].nodes ensures run[i].nodes[n].term <= run[i + 1].nodes[n].term {
        NextForward(cfg, run, schedule, i, n);
      }
    }
  }

  /** Election Safety: with the intended guard at most one node ever leads in a term, in
      every run, whichever way the splice is read and however late requests are handled. */
  lemma ElectionSafety<V>(cfg: Config, run: seq<Cluster<V>>, schedule: seq<Action<V>>, i: nat, j: nat, a: NodeId, b: NodeId)
    requires Run(cfg, run, schedule) && Initial(cfg, run[0]) && cfg.mode.Intended? && i < |run| && j < |run|
    requires Leads(run[i], a) && Leads(run[j], b) && run[i].nodes[a].term == run[j].nodes[b].term
    ensures a == b
  {
    IntendedTermsRise(cfg, run, schedule);
    OneLeaderPerTerm(cfg, run, schedule, i, j, a, b);
  }

  lemma OlderThanOwn<V>(cfg: Config, c: Cluster<V>, h: History<V>, h': History<V>, n: NodeId)
    requires Inv(cfg, c, h) && Extends(h, h') && n in c.nodes && n in c.polling
    requires c.nodes[n].term in h'.wins && h'.wins[c.nodes[n].term].leader == n
    ensures forall x :: 0 <= x < |c.nodes[n].log| ==> c.nodes[n].log[x].term < c.nodes[n].term
  {
    var s := c.nodes[n];
    assert NodeOk(cfg, n, s, h) && PollOk(cfg, n, s, c.polling[n], h);
    forall x | 0 <= x < |s.log| ensures s.log[x].term < s.term {
      assert TracedAt(s.log, h, x);
      assert s.log[x].term == s.term ==> WinGrows(h.wins[s.term], h'.wins[s.term], s.term);
    }
  }

  /** The log with which a leader was elected is its log without the entries of its own
      term, and dominates the quorum that elected it. */
  lemma ElectedLogIsOlder<V>(cfg: Config, run: seq<Cluster<V>>, schedule: seq<Action<V>>, i: nat, n: NodeId)
    returns (won: nat)
    requires SafeRun(cfg, run, schedule) && i < |run| && Leads(run[i], n)
    ensures won < i && n in run[won].nodes
    ensures var s, base := run[i].nodes[n], run[won].nodes[n].log;
            && base <= s.log
            && (forall x :: 0 <= x < |base| ==> s.log[x].term < s.term)
            && (forall x :: |base| <= x < |s.log| ==> s.log[x].term == s.term)
            && Distinct(s.votes) && |s.votes| >= |cfg.members| / 2 + 1
            && forall v :: v in s.votes ==>
                             v in cfg.members && Dominated(run, schedule, won + 1, v, s.term, n, base)
  {
    won := LeaderDominatesQuorum(cfg, run, schedule, i, n);
    var h, h' := TwoMoments(cfg, run, schedule, won, i);
    assert NodeOk(cfg, n, run[i].nodes[n], h');
    OlderThanOwn(cfg, run[won], h, h', n);
  }

  // ---------------------------------------------------------------- logs

  /** Log Matching: two logs with the same term at a position are the same up to it. */
  lemma LogMatching<V>(cfg: Config, run: seq<Cluster<V>>, schedule: seq<Action<V>>, i: nat, j: nat, a: NodeId,
                       b: NodeId, x: nat)
    requires SafeRun(cfg, run, schedule) && i < |run| && j < |run| && a in run[i].nodes && b in run[j].nodes
    requires x < |run[i].nodes[a].log| && x < |run[j].nodes[b].log|
    requires run[i].nodes[a].log[x].term == run[j].nodes[b].log[x].term
    ensures run[i].nodes[a].log[..x + 1] == run[j].nodes[b].log[..x + 1]
    decreases i > j
  {
    if i > j {
      LogMatching(cfg, run, schedule, j, i, b, a, x);
    } else {
      var hi, hj := TwoNodes(cfg, run, schedule, i, j, a, b);
      TracedGrows(run[i].nodes[a].log, hi, hj);
      SameTermSamePrefix(run[i].nodes[a].log, run[j].nodes[b].log, hj, x);
    }
  }

  /** Terms only rise, log terms never fall along a log, and none is beyond the node's term. */
  lemma TermDiscipline<V>(cfg: Config, run: seq<Cluster<V>>, schedule: seq<Action<V>>, i: nat, j: nat, n: NodeId)
    requires SafeRun(cfg, run, schedule) && cfg.mode.Intended? && i <= j < |run| && n in cfg.members
    ensures n in run[i].nodes && n in run[j].nodes
    ensures run[i].nodes[n].term <= run[j].nodes[n].term
    ensures NonDecreasing(run[j].nodes[n].log) && LastTerm(run[j].nodes[n].log) <= run[j].nodes[n].term
  {
    OnlyForward(cfg, run, schedule, i, j, n);
    var h, h2 := TwoNodes(cfg, run, schedule, j, j, n, n);
    TracedTermsGrow(cfg, run[j].nodes[n].log, h);
  }

  // ---------------------------------------------------------------- committed entries

  /** What a node has delivered is its log up to its commit index, each entry once and
      in order, in every state of every run. */
  lemma DeliveredIsCommittedLog<V>(cfg: Config, run: seq<Cluster<V>>, schedule: seq<Action<V>>, i: nat, n: NodeId)
    requires SafeRun(cfg, run, schedule) && i < |run| && n in run[i].nodes
    ensures var s := run[i].nodes[n];
            s.commit <= |s.log| && s.outbox == s.log[..s.commit]
  {
    var h, h2 := TwoNodes(cfg, run, schedule, i, i, n, n);
  }

  lemma EarlierLeaderHolds<V>(cfg: Config, h: History<V>, h': History<V>, log: Log<V>, u: Term, t: Term)
    requires HistoryOk(cfg, h) && HistoryOk(cfg, h') && Extends(h, h')
    requires CommittedLog(cfg, h', log, u) && u < t && t in h.wins
    ensures Agree(log, h.wins[t].log, |log|)
  {
    if log != [] {
      var x: Term, k: nat :| x <= u && CoveredBy(cfg, h', log, x, k);
      assert WinGrows(h.wins[t], h'.wins[t], t);
      Completeness(cfg, h', x, k, t);
      assert WinOk(cfg, h, t);
    }
  }

  /** Leader Completeness: what any node knows to be committed is in the log of every
      leader of a later term, whichever of the two is observed first. */
  lemma LeaderCompleteness<V>(cfg: Config, run: seq<Cluster<V>>, schedule: seq<Action<V>>, i: nat, j: nat, a: NodeId,
                              b: NodeId)
    requires SafeRun(cfg, run, schedule) && i < |run| && j < |run| && a in run[i].nodes
    requires Leads(run[j], b) && run[i].nodes[a].term < run[j].nodes[b].term
    ensures var sa, sb := run[i].nodes[a], run[j].nodes[b];
            sa.commit <= |sa.log| && sa.log[..sa.commit] <= sb.log
  {
    var sa, sb := run[i].nodes[a], run[j].nodes[b];
    if i <= j {
      var hi, hj := TwoNodes(cfg, run, schedule, i, j, a, b);
      CommittedLogGrows(cfg, hi, hj, sa.outbox, sa.term, sa.term);
      LeaderHoldsCommitted(cfg, hj, sa.outbox, sa.term, sb.term);
    } else {
      var hj, hi := TwoNodes(cfg, run, schedule, j, i, b, a);
      EarlierLeaderHolds(cfg, hj, hi, sa.outbox, sa.term, sb.term);
    }
  }

  ghost predicate Comparable<V>(a: Log<V>, b: Log<V>) {
    a <= b || b <= a
  }

  lemma CoveredLogsComparable<V>(cfg: Config, h: History<V>, a: Log<V>, t: Term, k: nat, b: Log<V>, u: Term, m: nat)
    requires HistoryOk(cfg, h) && CoveredBy(cfg, h, a, t, k) && CoveredBy(cfg, h, b, u, m)
    ensures Comparable(a, b)
  {
    if t <= u {
      LeaderHoldsCovered(cfg, h, a, t, k, u);
    } else {
      LeaderHoldsCovered(cfg, h, b, u, m, t);
    }
  }

  lemma CommittedLogsComparable<V>(cfg: Config, h: History<V>, a: Log<V>, t: Term, b: Log<V>, u: Term)
    requires HistoryOk(cfg, h) && CommittedLog(cfg, h, a, t) && CommittedLog(cfg, h, b, u)
    ensures Comparable(a, b)
  {
    if a != [] && b != [] {
      var x: Term, k: nat :| x <= t && CoveredBy(cfg, h, a, x, k);
      var y: Term, m: nat :| y <= u && CoveredBy(cfg, h, b, y, m);
      CoveredLogsComparable(cfg, h, a, x, k, b, y, m);
    }
  }

  /** State Machine Safety: no two nodes ever deliver different entries at one position. */
  lemma StateMachineSafety<V>(cfg: Config, run: seq<Cluster<V>>, schedule: seq<Action<V>>, i: nat, j: nat, a: NodeId,
                              b: NodeId)
    requires SafeRun(cfg, run, schedule) && i < |run| && j < |run| && a in run[i].nodes && b in run[j].nodes
    ensures Comparable(run[i].nodes[a].outbox, run[j].nodes[b].outbox)
    decreases i > j
  {
    if i > j {
      StateMachineSafety(cfg, run, schedule, j, i, b, a);
    } else {
      var hi, hj := TwoNodes(cfg, run, schedule, i, j, a, b);
      var sa, sb := run[i].nodes[a], run[j].nodes[b];
      CommittedLogGrows(cfg, hi, hj, sa.outbox, sa.term, sa.term);
      CommittedLogsComparable(cfg, hj, sa.outbox, sa.term, sb.outbox, sb.term);
    }
  }

  /** No intended handler ever meets an index out of range. */
  lemma NothingStops<V>(cfg: Config, run: seq<Cluster<V>>, schedule: seq<Action<V>>, i: nat)
    requires SafeRun(cfg, run, schedule) && i < |run|
    ensures run[i].aborted == {}
  {
    var h, h2 := TwoMoments(cfg, run, schedule, i, i);
  }
}
