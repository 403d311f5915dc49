/** The loops of a node's methods are stretches of a schedule: a round of heartbeats
    and an election, run turn by turn in the cluster, leave the node in the state
    that the loop computes from the answers it gets. */
module Loops {
  import opened Types
  import opened Handlers
  import opened Cluster
  import opened Progress

  // ---------------------------------------------------------------- heartbeats

  /** The first n actions are the leader's exchanges with its peers, in order. */
  ghost predicate RoundOfHeartbeats<V>(cfg: Config, schedule: seq<Action<V>>, l: NodeId) {
    && |schedule| == |PeersOf(cfg, l)|
    && forall i :: 0 <= i < |schedule| ==>
                     schedule[i].Heartbeat? && schedule[i].leader == l && schedule[i].peer == PeersOf(cfg, l)[i]
  }

  ghost predicate CanLead<V>(cfg: Config, c: Cluster<V>, l: NodeId) {
    Ticks(c, l) && c.nodes[l].role.Leader? && Sound(cfg, l, c.nodes[l]) && c.nodes.Keys == cfg.members
  }

  /** One exchange of the loop, with the answer that it brings, unless it aborts the loop. */
  lemma ExchangeIsTurn<V>(cfg: Config, c: Cluster<V>, l: NodeId, f: NodeId, delivery: Delivery)
    returns (reply: Option<AppendReply>)
    requires ValidConfig(cfg) && CanLead(cfg, c, l) && f in PeersOf(cfg, l)
    requires Ticker(l) !in Apply(cfg, c, Heartbeat(l, f, delivery)).aborted
    ensures var c' := Apply(cfg, c, Heartbeat(l, f, delivery));
            && CanLead(cfg, c', l) && BuildRequest(l, c.nodes[l], f).Some?
            && c'.sent == c.sent + [BuildRequest(l, c.nodes[l], f).value]
            && c'.nodes[l] == if reply.Some? then OnAppendReply(c.nodes[l], f, reply.value.success) else c.nodes[l]
  {
    PeerIsOther(cfg, l, f);
    var s := c.nodes[l];
    assert f in s.nextIndex && 1 <= s.nextIndex[f] <= |s.log| + 1;
    var req := BuildRequest(l, s, f).value;
    reply := None;
    if delivery.Exchanged? && Listens(c, f) && Handle(cfg, f, c.nodes[f], req).Replied? {
      reply := Some(Handle(cfg, f, c.nodes[f], req).reply);
    }
    StepForward(cfg, c, Heartbeat(l, f, delivery), l);
  }

  lemma AbortedStays<V>(cfg: Config, c: Cluster<V>, l: NodeId, f: NodeId, delivery: Delivery)
    ensures c.aborted <= Apply(cfg, c, Heartbeat(l, f, delivery)).aborted
  {
  }

  /** Turn n of a round that is not aborted by then. */
  lemma RoundTurn<V>(cfg: Config, run: seq<Cluster<V>>, schedule: seq<Action<V>>, l: NodeId, n: nat)
    returns (reply: Option<AppendReply>)
    requires ValidConfig(cfg) && Run(cfg, run, schedule) && RoundOfHeartbeats(cfg, schedule, l)
    requires n < |schedule| && Ticker(l) !in run[n + 1].aborted
    ensures Ticker(l) !in run[n].aborted
    ensures CanLead(cfg, run[n], l) ==>
              var s := run[n].nodes[l];
              && CanLead(cfg, run[n + 1], l) && BuildRequest(l, s, PeersOf(cfg, l)[n]).Some?
              && run[n + 1].sent == run[n].sent + [BuildRequest(l, s, PeersOf(cfg, l)[n]).value]
              && run[n + 1].nodes[l]
                 == if reply.Some? then OnAppendReply(s, PeersOf(cfg, l)[n], reply.value.success) else s
  {
    reply := None;
    assert Step(cfg, run, schedule, n);
    AbortedStays(cfg, run[n], l, PeersOf(cfg, l)[n], schedule[n].delivery);
    if CanLead(cfg, run[n], l) {
      reply := ExchangeIsTurn(cfg, run[n], l, PeersOf(cfg, l)[n], schedule[n].delivery);
    }
  }

  /** A round of heartbeats that is not aborted, as a stretch of a schedule and as the loop
      of the method: the state of the leader and the requests that were sent. */
  lemma {:induction false} HeartbeatRoundIsSchedule<V>(cfg: Config, run: seq<Cluster<V>>, schedule: seq<Action<V>>,
                                                       l: NodeId, n: nat)
    returns (replies: seq<Option<AppendReply>>)
    requires ValidConfig(cfg) && Run(cfg, run, schedule) && RoundOfHeartbeats(cfg, schedule, l)
    requires CanLead(cfg, run[0], l) && n <= |schedule| && Ticker(l) !in run[n].aborted
    ensures |replies| == n && CanLead(cfg, run[n], l)
    ensures var r := HeartbeatRound(l, run[0].nodes[l], PeersOf(cfg, l)[..n], replies);
            r.2 && run[n].nodes[l] == r.0 && run[n].sent == run[0].sent + r.1
  {
    var peers := PeersOf(cfg, l);
    if n == 0 {
      replies := [];
    } else {
      var reply := RoundTurn(cfg, run, schedule, l, n - 1);
      var before := HeartbeatRoundIsSchedule(cfg, run, schedule, l, n - 1);
      replies := before + [reply];
      assert peers[..n][..n - 1] == peers[..n - 1] && replies[..n - 1] == before;
    }
  }

  // ---------------------------------------------------------------- elections

  /** A candidacy, and then a turn of the election loop for each peer. */
  ghost predicate WholeElection<V>(cfg: Config, schedule: seq<Action<V>>, n: NodeId) {
    && |schedule| == |PeersOf(cfg, n)| + 1 && schedule[0] == Candidacy(n)
    && forall i :: 1 <= i < |schedule| ==>
                     (schedule[i].Poll? && schedule[i].node == n) || schedule[i] == PollTimeout(n)
  }

  ghost predicate InLoop<V>(c: Cluster<V>, n: NodeId, rest: seq<NodeId>, done: bool) {
    && n in c.nodes
    && if done || rest == [] then n !in c.polling else n in c.polling && c.polling[n] == rest
  }

  lemma TurnOfLoop<V>(cfg: Config, c: Cluster<V>, n: NodeId, a: Action<V>) returns (event: PollEvent)
    requires n in c.nodes && n in c.polling && c.polling[n] != []
    requires (a.Poll? && a.node == n) || a == PollTimeout(n)
    ensures var (s', done) := OnPoll(c.nodes[n], QuorumOf(cfg, n), PeersOf(cfg, n), event);
            var c' := Apply(cfg, c, a);
            InLoop(c', n, c.polling[n][1..], done) && c'.nodes[n] == s'
  {
    if a.PollTimeout? {
      event := TimedOut;
    } else {
      var v := c.polling[n][0];
      event := if a.delivery.Exchanged? && Listens(c, v)
               then Answered(VoteAnswer(v, c.nodes[v], Ballot(n, c.nodes[n]))) else NoAnswer;
    }
  }

  /** An election, as a stretch of a schedule and as the loop of the method. */
  lemma {:induction false} ElectionIsSchedule<V>(cfg: Config, run: seq<Cluster<V>>, schedule: seq<Action<V>>,
                                                 n: NodeId, k: nat)
    returns (events: seq<PollEvent>)
    requires Run(cfg, run, schedule) && WholeElection(cfg, schedule, n) && k <= |PeersOf(cfg, n)|
    requires Ticks(run[0], n) && !run[0].nodes[n].role.Leader? && !run[0].nodes[n].heard
    ensures |events| == k
    ensures var r := Election(Stand(n, run[0].nodes[n]), QuorumOf(cfg, n), PeersOf(cfg, n), events);
            InLoop(run[k + 1], n, PeersOf(cfg, n)[k..], r.1) && run[k + 1].nodes[n] == r.0
  {
    var peers := PeersOf(cfg, n);
    if k == 0 {
      assert Step(cfg, run, schedule, 0);
      events := [];
    } else {
      var before := ElectionIsSchedule(cfg, run, schedule, n, k - 1);
      var r := Election(Stand(n, run[0].nodes[n]), QuorumOf(cfg, n), peers, before);
      assert Step(cfg, run, schedule, k);
      var event := NoAnswer;
      if !r.1 {
        event := TurnOfLoop(cfg, run[k], n, schedule[k]);
      }
      events := before + [event];
      assert events[..k - 1] == before && peers[k - 1..][1..] == peers[k..];
    }
  }
}
