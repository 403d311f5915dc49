/** How many heartbeats bring one follower up to date. */
module CatchUp {
  import opened Types
  import opened Handlers
  import opened Cluster
  import opened Progress
  import opened Safety
  import opened StablePhase

  function AppendAll<V>(l: NodeState<V>, values: seq<V>): NodeState<V>
    decreases |values|
  {
    if values == [] then l else AppendAll(AppendEntry(l, values[0]), values[1..])
  }

  /** One answered heartbeat from the leader `me` to the follower `f`, with the source's handler. */
  function Exchange<V>(me: NodeId, f: NodeId, l: NodeState<V>, s: NodeState<V>): (r: (NodeState<V>, NodeState<V>, bool)) {
    var built := BuildRequest(me, l, f);
    if built.None? then
      (l, s, false)
    else
      var out := AppendLiteral(f, s, built.value);
      if out.Panicked? then
        (l, out.state, false)
      else
        (OnAppendReply(l, f, out.reply.success), out.state, out.reply.success)
  }

  /** Rounds of client appends followed by a heartbeat: the two states, and the replies. */
  function Rounds<V>(me: NodeId, f: NodeId, l: NodeState<V>, s: NodeState<V>, appends: seq<seq<V>>)
    : (r: (NodeState<V>, NodeState<V>, seq<bool>))
    decreases |appends|
  {
    if appends == [] then
      (l, s, [])
    else
      var (l1, s1, ok) := Exchange(me, f, AppendAll(l, appends[0]), s);
      var (l2, s2, replies) := Rounds(me, f, l1, s1, appends[1..]);
      (l2, s2, [ok] + replies)
  }

  lemma {:induction false} AppendAllGrows<V>(l: NodeState<V>, values: seq<V>)
    requires Delivered(l)
    ensures var l' := AppendAll(l, values);
            l.log <= l'.log && Delivered(l') && l'.commit == l.commit
            && l'.nextIndex == l.nextIndex && l'.matchIndex == l.matchIndex
    decreases |values|
  {
    if values != [] {
      var l1 := AppendEntry(l, values[0]);
      assert l1.log[..l.commit] == l.log[..l.commit];
      AppendAllGrows(l1, values[1..]);
    }
  }

  lemma ExchangeWithFollower<V>(me: NodeId, f: NodeId, l: NodeState<V>, s: NodeState<V>)
    requires FollowerOk(l, f, s) && Delivered(l)
    ensures var (l', s', ok) := Exchange(me, f, l, s);
            && FollowerOk(l', f, s') && Delivered(l') && l'.log == l.log
            && (if l.nextIndex[f] == |s.log| + 1 then
                  ok && s'.log == l.log && l'.nextIndex[f] == |l.log| + 1
                else
                  !ok && s' == s && l'.nextIndex[f] == l.nextIndex[f] - 1)
  {
    StableHandling(me, l, f, s);
    FollowerAfterExchange(me, l, f, s);
  }

  /** From next index k + 1, a follower that holds the first m entries refuses exactly
      k - m heartbeats and takes the next, which makes the logs equal; clients may
      append all the while. */
  lemma {:induction false} CatchUpIsExact<V>(me: NodeId, f: NodeId, l: NodeState<V>, s: NodeState<V>, appends: seq<seq<V>>)
    requires FollowerOk(l, f, s) && Delivered(l)
    requires |appends| == l.nextIndex[f] - |s.log|
    ensures var (l', s', replies) := Rounds(me, f, l, s, appends);
            && |replies| == |appends|
            && (forall i :: 0 <= i < |replies| - 1 ==> !replies[i]) && replies[|replies| - 1]
            && s'.log == l'.log && l.log <= l'.log && FollowerOk(l', f, s')
    decreases |appends|
  {
    var l0 := AppendAll(l, appends[0]);
    AppendAllGrows(l, appends[0]);
    OtherFollower(l, l0, f, s);
    ExchangeWithFollower(me, f, l0, s);
    var (l1, s1, ok) := Exchange(me, f, l0, s);
    if |appends| == 1 {
      assert appends[1..] == [];
    } else {
      CatchUpIsExact(me, f, l1, s1, appends[1..]);
    }
  }

  // ---------------------------------------------------------------- the intended handler

  ghost predicate MatchAt<V>(a: Log<V>, b: Log<V>, i: nat)
    requires i < |a| && i < |b|
  {
    a[i].term == b[i].term ==> Agree(a, b, i + 1)
  }

  /** Positions with the same term have the same entries up to there. */
  ghost predicate LogsMatch<V>(a: Log<V>, b: Log<V>) {
    forall i {:trigger MatchAt(a, b, i)} :: 0 <= i < |a| && i < |b| ==> MatchAt(a, b, i)
  }

  /** One answered heartbeat with the intended handler. */
  function IntendedExchange<V>(rule: Splice, me: NodeId, f: NodeId, l: NodeState<V>, s: NodeState<V>)
    : (r: (NodeState<V>, NodeState<V>, bool))
  {
    var built := BuildRequest(me, l, f);
    if built.None? then
      (l, s, false)
    else
      var out := AppendIntended(rule, f, s, built.value);
      (OnAppendReply(l, f, out.reply.success), out.state, out.reply.success)
  }

  /** Heartbeats up to the first that is taken, at most n: the follower, and how many were sent. */
  function UntilTaken<V>(rule: Splice, me: NodeId, f: NodeId, l: NodeState<V>, s: NodeState<V>, n: nat)
    : (r: (NodeState<V>, nat, bool))
    decreases n
  {
    if n == 0 then
      (s, 0, false)
    else
      var (l1, s1, ok) := IntendedExchange(rule, me, f, l, s);
      if ok then
        (s1, 1, true)
      else
        var (s2, sent, taken) := UntilTaken(rule, me, f, l1, s1, n - 1);
        (s2, sent + 1, taken)
  }

  /** A heartbeat is taken, and gives the follower the leader's log, or it is refused and
      moves the leader's next index one down. */
  ghost predicate TakenOrRefused<V>(rule: Splice, f: NodeId, l: NodeState<V>, s: NodeState<V>,
                                    l': NodeState<V>, s': NodeState<V>, taken: bool)
    requires f in l.nextIndex
  {
    if taken then
      s.term <= l.term && l.log <= s'.log && (rule.Replace? ==> s'.log == l.log)
    else
      && s' == s && l'.log == l.log && l'.term == l.term && f in l'.nextIndex
      && (if l.nextIndex[f] > 1 then l'.nextIndex[f] == l.nextIndex[f] - 1 else s.term > l.term)
  }

  lemma HeartbeatRefused<V>(rule: Splice, me: NodeId, f: NodeId, l: NodeState<V>, s: NodeState<V>, req: AppendRequest<V>)
    requires f in l.nextIndex && BuildRequest(me, l, f) == Some(req) && !Accepts(s, req)
    requires l.nextIndex[f] > 1 || s.term > l.term
    ensures var (l', s', taken) := IntendedExchange(rule, me, f, l, s);
            !taken && TakenOrRefused(rule, f, l, s, l', s', taken)
  {
  }

  lemma IntendedHeartbeat<V>(rule: Splice, me: NodeId, f: NodeId, l: NodeState<V>, s: NodeState<V>)
    requires LogsMatch(l.log, s.log)
    requires f in l.nextIndex && 1 <= l.nextIndex[f] <= |l.log| + 1
    ensures var (l', s', taken) := IntendedExchange(rule, me, f, l, s);
            TakenOrRefused(rule, f, l, s, l', s', taken)
  {
    BuiltRequest(me, l, f);
    var req := BuildRequest(me, l, f).value;
    if Accepts(s, req) {
      MatchedFollowerHolds(rule, l.log, s.log, req);
    } else {
      HeartbeatRefused(rule, me, f, l, s, req);
    }
  }

  /** The follower holds the leader's log in the end exactly when it was not ahead in term. */
  ghost predicate Converged<V>(rule: Splice, l: NodeState<V>, s: NodeState<V>, s': NodeState<V>, taken: bool) {
    && (taken <==> s.term <= l.term)
    && (taken && rule.Replace? ==> s'.log == l.log)
    && (if taken then l.log <= s'.log else s' == s)
  }

  /** A follower takes a heartbeat after at most as many as the leader's next index for
      it, whatever its log is, if and only if it is not ahead in term; it then holds the
      leader's log: exactly that under the first reading of the splice, at least that
      under the second. */
  lemma {:induction false} DivergentFollowerConverges<V>(rule: Splice, me: NodeId, f: NodeId, l: NodeState<V>,
                                                         s: NodeState<V>)
    requires LogsMatch(l.log, s.log)
    requires f in l.nextIndex && 1 <= l.nextIndex[f] <= |l.log| + 1
    ensures var (s', sent, taken) := UntilTaken(rule, me, f, l, s, l.nextIndex[f]);
            Converged(rule, l, s, s', taken) && sent <= l.nextIndex[f]
    decreases l.nextIndex[f]
  {
    IntendedHeartbeat(rule, me, f, l, s);
    var (l1, s1, taken) := IntendedExchange(rule, me, f, l, s);
    if !taken && l.nextIndex[f] > 1 {
      DivergentFollowerConverges(rule, me, f, l1, s1);
    }
  }

  lemma MatchedPrefix<V>(log: Log<V>, old_log: Log<V>, prev: nat)
    requires LogsMatch(log, old_log) && prev <= |log| && prev <= |old_log|
    requires prev > 0 ==> old_log[prev - 1].term == log[prev - 1].term
    ensures Agree(log, old_log, prev) && old_log[..prev] + log[prev..] == log
  {
    if prev > 0 {
      assert MatchAt(log, old_log, prev - 1);
    }
  }

  /** A log that has the leader's whole suffix without a conflict has the leader's log. */
  lemma NoConflictHolds<V>(log: Log<V>, old_log: Log<V>, prev: nat)
    requires LogsMatch(log, old_log) && prev <= |log| <= |old_log| && Agree(log, old_log, prev)
    requires !Conflict(old_log, prev, log[prev..])
    ensures log <= old_log
  {
    if prev < |log| {
      var i := |log| - 1 - prev;
      assert log[prev..][i] == log[prev + i] && old_log[prev + i].term == log[prev..][i].term;
      assert MatchAt(log, old_log, |log| - 1);
    }
  }

  lemma MatchedFollowerHolds<V>(rule: Splice, log: Log<V>, old_log: Log<V>, req: AppendRequest<V>)
    requires LogsMatch(log, old_log) && Matches(old_log, req) && req.prevIndex <= |log|
    requires req.prevTerm == LastTerm(log[..req.prevIndex]) && req.entries == log[req.prevIndex..]
    ensures var r := IntendedSplice(rule, old_log, req.prevIndex, req.entries);
            log <= r && (rule.Replace? ==> r == log)
  {
    MatchedPrefix(log, old_log, req.prevIndex);
    if rule.Merge? && !Conflict(old_log, req.prevIndex, req.entries) && |log| <= |old_log| {
      NoConflictHolds(log, old_log, req.prevIndex);
    }
  }

  lemma ReachedLogsMatch<V>(cfg: Config, run: seq<Cluster<V>>, schedule: seq<Action<V>>, i: nat, a: NodeId, b: NodeId)
    requires SafeRun(cfg, run, schedule) && i < |run| && a in run[i].nodes && b in run[i].nodes
    ensures LogsMatch(run[i].nodes[a].log, run[i].nodes[b].log)
  {
    var la, lb := run[i].nodes[a].log, run[i].nodes[b].log;
    forall x | 0 <= x < |la| && x < |lb| ensures MatchAt(la, lb, x) {
      if la[x].term == lb[x].term {
        LogMatching(cfg, run, schedule, i, i, a, b, x);
        assert forall y :: 0 <= y <= x ==> la[..x + 1][y] == la[y] && lb[..x + 1][y] == lb[y];
      }
    }
  }

  /** In every state of every run, the heartbeats of a leader bring any peer that is not
      ahead in term up to its log within |log| + 1 exchanges. */
  lemma EveryFollowerConverges<V>(cfg: Config, run: seq<Cluster<V>>, schedule: seq<Action<V>>, i: nat,
                                  rule: Splice, l: NodeId, f: NodeId)
    requires SafeRun(cfg, run, schedule) && cfg.mode == Intended(rule) && i < |run|
    requires Leads(run[i], l) && f in PeersOf(cfg, l) && f in run[i].nodes
    requires run[i].nodes[f].term <= run[i].nodes[l].term
    ensures var leader := run[i].nodes[l];
            f in leader.nextIndex && leader.nextIndex[f] <= |leader.log| + 1
    ensures var leader := run[i].nodes[l];
            var (s', sent, taken) := UntilTaken(rule, l, f, leader, run[i].nodes[f], leader.nextIndex[f]);
            taken && sent <= |leader.log| + 1 && leader.log <= s'.log && (rule.Replace? ==> s'.log == leader.log)
  {
    var leader, follower := run[i].nodes[l], run[i].nodes[f];
    var h, h2 := TwoMoments(cfg, run, schedule, i, i);
    RunSound(cfg, run, schedule, i, l);
    assert BooksInRange(cfg, l, leader);
    ReachedLogsMatch(cfg, run, schedule, i, l, f);
    DivergentFollowerConverges(rule, l, f, leader, follower);
  }
}
