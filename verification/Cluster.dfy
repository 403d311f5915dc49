/** The nodes of a cluster and the steps they take together. A schedule is a list
    of actions; timers, lost messages and lost replies are choices of the schedule. */
module Cluster {
  import opened Types
  import opened Quorum
  import opened Handlers

  /** The append handler and commit rule in force: the source's, or the commented ones. */
  datatype Mode = Literal | Intended(rule: Splice)

  datatype Config = Config(members: set<NodeId>, peers: map<NodeId, seq<NodeId>>, mode: Mode)

  function PeersOf(cfg: Config, n: NodeId): seq<NodeId> {
    if n in cfg.peers then cfg.peers[n] else []
  }

  function QuorumOf(cfg: Config, n: NodeId): int {
    QuorumLength(|PeersOf(cfg, n)|)
  }

  ghost predicate Distinct(s: seq<NodeId>) {
    forall i, j :: 0 <= i < j < |s| ==> s[i] != s[j]
  }

  /** `n` is connected to every other member, once, and not to itself. */
  ghost predicate PeersFine(cfg: Config, n: NodeId) {
    n in cfg.peers && Distinct(cfg.peers[n]) && Elements(cfg.peers[n]) == cfg.members - {n}
  }

  ghost predicate ValidConfig(cfg: Config) {
    && cfg.peers.Keys == cfg.members
    && forall n {:trigger PeersFine(cfg, n)} :: n in cfg.members ==> PeersFine(cfg, n)
  }

  lemma PeerIsOther(cfg: Config, n: NodeId, p: NodeId)
    requires ValidConfig(cfg) && n in cfg.members && p in PeersOf(cfg, n)
    ensures p in cfg.members && p != n
  {
    assert PeersFine(cfg, n) && p in Elements(cfg.peers[n]);
  }

  lemma QuorumFits(cfg: Config, n: NodeId)
    requires ValidConfig(cfg) && n in cfg.members
    ensures |PeersOf(cfg, n)| == |cfg.members| - 1
    ensures QuorumOf(cfg, n) == |cfg.members| / 2 + 1
    ensures 2 * QuorumOf(cfg, n) > |cfg.members|
  {
    assert PeersFine(cfg, n);
    DistinctSize(cfg.peers[n]);
    assert cfg.members == (cfg.members - {n}) + {n};
    QuorumIsMajority(|cfg.peers[n]|);
  }

  /** The two tasks of a node, of which an index out of range aborts the one it occurs in:
      the listener handles requests, the ticker sends heartbeats, commits and stands. */
  datatype Task = Listener(node: NodeId) | Ticker(node: NodeId)

  /** `polling`: the nodes inside their election loop, which holds their state
      lock, and the peers they still have to ask. `sent` and `ballots`: every
      request ever sent. `aborted`: the tasks that have ended. */
  datatype Cluster<V> = Cluster(
    nodes: map<NodeId, NodeState<V>>,
    polling: map<NodeId, seq<NodeId>>,
    sent: seq<AppendRequest<V>>,
    ballots: seq<VoteRequest>,
    aborted: set<Task>)

  /** A request never arrives, or is handled without its reply coming back, or is
      handled and answered while the sender waits. */
  datatype Delivery = Dropped | Handled | Exchanged

  datatype Action<V> =
    | ClientAppend(node: NodeId, value: V)
    | Heartbeat(leader: NodeId, peer: NodeId, delivery: Delivery)
    | EndRound(leader: NodeId)
    | CommitRule(node: NodeId)
    | Candidacy(node: NodeId)
    | Poll(node: NodeId, delivery: Delivery)
    | PollTimeout(node: NodeId)
    | LateAppend(node: NodeId, message: nat)
    | LateVote(node: NodeId, message: nat)
    | Tick(node: NodeId)

  /** Elections and the tick alone. */
  predicate VoteAction<V>(a: Action<V>) {
    a.Candidacy? || a.Poll? || a.PollTimeout? || a.LateVote? || a.Tick?
  }

  /** The state lock of node `n` can be taken. */
  ghost predicate Free<V>(c: Cluster<V>, n: NodeId) {
    n in c.nodes && n !in c.polling
  }

  ghost predicate Listens<V>(c: Cluster<V>, n: NodeId) {
    Free(c, n) && Listener(n) !in c.aborted
  }

  ghost predicate Ticks<V>(c: Cluster<V>, n: NodeId) {
    Free(c, n) && Ticker(n) !in c.aborted
  }

  ghost function Handle<V>(cfg: Config, me: NodeId, s: NodeState<V>, req: AppendRequest<V>): AppendOutcome<V> {
    match cfg.mode
    case Literal => AppendLiteral(me, s, req)
    case Intended(rule) => AppendIntended(rule, me, s, req)
  }

  /** `f` handles an append request. */
  ghost function Receive<V>(cfg: Config, c: Cluster<V>, f: NodeId, req: AppendRequest<V>): Cluster<V>
    requires f in c.nodes
  {
    match Handle(cfg, f, c.nodes[f], req)
    case Replied(s, _) => c.(nodes := c.nodes[f := s])
    case Panicked(s) => c.(nodes := c.nodes[f := s], aborted := c.aborted + {Listener(f)})
  }

  /** One exchange of the heartbeat loop. A peer whose handler aborts leaves the sender
      with an empty reply, on which the sender's own loop aborts. */
  ghost function SendHeartbeat<V>(cfg: Config, c: Cluster<V>, l: NodeId, f: NodeId, delivery: Delivery): Cluster<V>
    requires Ticks(c, l)
  {
    var built := BuildRequest(l, c.nodes[l], f);
    if built.None? then
      c.(aborted := c.aborted + {Ticker(l)})
    else
      var c1 := c.(sent := c.sent + [built.value]);
      if delivery.Dropped? || !Listens(c, f) then
        c1
      else
        var c2 := Receive(cfg, c1, f, built.value);
        var outcome := Handle(cfg, f, c.nodes[f], built.value);
        if !delivery.Exchanged? then
          c2
        else if outcome.Replied? then
          c2.(nodes := c2.nodes[l := OnAppendReply(c.nodes[l], f, outcome.reply.success)])
        else
          c2.(aborted := c2.aborted + {Ticker(l)})
  }

  ghost function StopPolling(polling: map<NodeId, seq<NodeId>>, n: NodeId, rest: seq<NodeId>, done: bool)
    : map<NodeId, seq<NodeId>>
  {
    if done || rest == [] then polling - {n} else polling[n := rest]
  }

  /** One turn of the election loop of `n`, which sees `event`. */
  ghost function TakeTurn<V>(cfg: Config, c: Cluster<V>, n: NodeId, event: PollEvent): Cluster<V>
    requires n in c.nodes && n in c.polling && c.polling[n] != []
  {
    var (s, done) := OnPoll(c.nodes[n], QuorumOf(cfg, n), PeersOf(cfg, n), event);
    c.(nodes := c.nodes[n := s], polling := StopPolling(c.polling, n, c.polling[n][1..], done))
  }

  /** `n` asks the next peer for its vote. */
  ghost function AskNext<V>(cfg: Config, c: Cluster<V>, n: NodeId, delivery: Delivery): Cluster<V>
    requires n in c.nodes && n in c.polling && c.polling[n] != []
  {
    var v, req := c.polling[n][0], Ballot(n, c.nodes[n]);
    var c1 := c.(ballots := c.ballots + [req]);
    if delivery.Dropped? || !Listens(c, v) then
      TakeTurn(cfg, c1, n, NoAnswer)
    else
      var c2 := c1.(nodes := c1.nodes[v := RequestVote(c.nodes[v], req)]);
      TakeTurn(cfg, c2, n,
               if delivery.Exchanged? then Answered(VoteAnswer(v, c.nodes[v], req)) else NoAnswer)
  }

  ghost function RunCommitRule<V>(cfg: Config, c: Cluster<V>, n: NodeId): Cluster<V>
    requires Ticks(c, n)
  {
    var (s, ok) := CommitEntries(c.nodes[n], QuorumOf(cfg, n), cfg.mode.Intended?);
    c.(nodes := c.nodes[n := s], aborted := if ok then c.aborted else c.aborted + {Ticker(n)})
  }

  /** One step; an action that is not enabled changes nothing. */
  ghost function Apply<V>(cfg: Config, c: Cluster<V>, a: Action<V>): Cluster<V> {
    match a
    case ClientAppend(n, value) =>
      if Free(c, n) then c.(nodes := c.nodes[n := AppendEntry(c.nodes[n], value)]) else c
    case Heartbeat(l, f, delivery) =>
      if Ticks(c, l) && c.nodes[l].role.Leader? && f in PeersOf(cfg, l) then
        SendHeartbeat(cfg, c, l, f, delivery)
      else c
    case EndRound(l) =>
      if Ticks(c, l) && c.nodes[l].role.Leader? then
        c.(nodes := c.nodes[l := CloseRound(l, c.nodes[l])])
      else c
    case CommitRule(n) =>
      if Ticks(c, n) && c.nodes[n].role.Leader? then RunCommitRule(cfg, c, n) else c
    case Candidacy(n) =>
      if Ticks(c, n) && !c.nodes[n].role.Leader? && !c.nodes[n].heard then
        c.(nodes := c.nodes[n := Stand(n, c.nodes[n])],
           polling := if PeersOf(cfg, n) == [] then c.polling else c.polling[n := PeersOf(cfg, n)])
      else c
    case Poll(n, delivery) =>
      if n in c.nodes && n in c.polling && c.polling[n] != [] then AskNext(cfg, c, n, delivery) else c
    case PollTimeout(n) =>
      if n in c.nodes && n in c.polling && c.polling[n] != [] then TakeTurn(cfg, c, n, TimedOut) else c
    case LateAppend(f, i) =>
      if Listens(c, f) && i < |c.sent| then Receive(cfg, c, f, c.sent[i]) else c
    case LateVote(v, i) =>
      if Listens(c, v) && i < |c.ballots| then
        c.(nodes := c.nodes[v := RequestVote(c.nodes[v], c.ballots[i])])
      else c
    case Tick(n) =>
      if Ticks(c, n) then c.(nodes := c.nodes[n := c.nodes[n].(heard := false)]) else c
  }

  /** A member that has just been started without a file. */
  ghost predicate FreshNode<V>(cfg: Config, n: NodeId, s: NodeState<V>) {
    s == StartState(PeersOf(cfg, n), None)
  }

  ghost predicate Initial<V>(cfg: Config, c: Cluster<V>) {
    && ValidConfig(cfg)
    && c.nodes.Keys == cfg.members
    && (forall n :: n in c.nodes ==> FreshNode(cfg, n, c.nodes[n]))
    && c.polling == map[] && c.sent == [] && c.ballots == [] && c.aborted == {}
  }

  ghost predicate Step<V>(cfg: Config, run: seq<Cluster<V>>, schedule: seq<Action<V>>, i: nat)
    requires i < |schedule| && |run| == |schedule| + 1
  {
    run[i + 1] == Apply(cfg, run[i], schedule[i])
  }

  /** `run` is the sequence of states that the schedule leads through. */
  ghost predicate Run<V>(cfg: Config, run: seq<Cluster<V>>, schedule: seq<Action<V>>) {
    && |run| == |schedule| + 1
    && forall i {:trigger Step(cfg, run, schedule, i)} :: 0 <= i < |schedule| ==> Step(cfg, run, schedule, i)
  }

  /** Every schedule leads through some run, from any state. */
  lemma {:induction false} EveryScheduleRuns<V>(cfg: Config, c: Cluster<V>, schedule: seq<Action<V>>)
    returns (run: seq<Cluster<V>>)
    ensures Run(cfg, run, schedule) && run[0] == c
  {
    if schedule == [] {
      run := [c];
    } else {
      var last := |schedule| - 1;
      var init := EveryScheduleRuns(cfg, c, schedule[..last]);
      run := init + [Apply(cfg, init[last], schedule[last])];
      forall i | 0 <= i < |schedule| ensures Step(cfg, run, schedule, i) {
        if i < last {
          assert Step(cfg, init, schedule[..last], i);
        }
      }
    }
  }
}
