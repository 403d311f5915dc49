/** The replicated map: a store applies what its Raft node delivers, in order. */
module KvStore {
  import opened Types
  import opened Handlers
  import opened RaftNode

  datatype Operation =
    | Set(key: string, value: string)
    | Get(key: string)
    | Delete(key: string)
    | Invalid

  type Contents = map<string, string>

  function ApplyTo(m: Contents, op: Operation): Contents {
    match op
    case Set(key, value) => m[key := value]
    case Delete(key) => m - {key}
    case _ => m
  }

  /** The map after the operations of a log, first to last. */
  function Replay(m: Contents, log: Log<Operation>): Contents {
    if log == [] then m else ApplyTo(Replay(m, log[..|log| - 1]), log[|log| - 1].value)
  }

  /** What the last operation on `key` left there. */
  function LastWrite(log: Log<Operation>, key: string): Option<string> {
    if log == [] then
      None
    else
      match log[|log| - 1].value
      case Set(k, v) => if k == key then Some(v) else LastWrite(log[..|log| - 1], key)
      case Delete(k) => if k == key then None else LastWrite(log[..|log| - 1], key)
      case _ => LastWrite(log[..|log| - 1], key)
  }

  /** Replaying from nothing leaves under each key what was last written there. */
  lemma {:induction false} ReplayIsLastWrite(log: Log<Operation>, key: string)
    ensures LastWrite(log, key)
            == if key in Replay(map[], log) then Some(Replay(map[], log)[key]) else None
  {
    if log != [] {
      ReplayIsLastWrite(log[..|log| - 1], key);
    }
  }

  lemma {:induction false} ReplayAppends(m: Contents, a: Log<Operation>, b: Log<Operation>)
    ensures Replay(m, a + b) == Replay(Replay(m, a), b)
  {
    if b == [] {
      assert a + b == a;
    } else {
      var last := |b| - 1;
      ReplayAppends(m, a, b[..last]);
      assert (a + b)[..|a + b| - 1] == a + b[..last];
    }
  }

  /** The node after clients' operations have been handed to it, first to last. */
  function Submit(s: NodeState<Operation>, ops: seq<Operation>): NodeState<Operation> {
    if ops == [] then
      s
    else
      var before, op := Submit(s, ops[..|ops| - 1]), ops[|ops| - 1];
      if op.Set? || op.Delete? then AppendEntry(before, op) else before
  }

  lemma {:induction false} SubmitDelivers(s: NodeState<Operation>, ops: seq<Operation>)
    ensures Submit(s, ops).outbox == s.outbox && s.log <= Submit(s, ops).log
    ensures |Submit(s, ops).log| <= |s.log| + |ops|
  {
    if ops != [] {
      SubmitDelivers(s, ops[..|ops| - 1]);
    }
  }

  /** The writes among clients' operations, as entries of one term. */
  function WritesOf(ops: seq<Operation>, term: Term): Log<Operation> {
    if ops == [] then
      []
    else
      var op := ops[|ops| - 1];
      WritesOf(ops[..|ops| - 1], term) + if op.Set? || op.Delete? then [Entry(op, term)] else []
  }

  /** A leader's log gets the writes, in the order in which clients sent them; any other
      node loses them. */
  lemma {:induction false} SubmitAppendsWrites(s: NodeState<Operation>, ops: seq<Operation>)
    ensures Submit(s, ops) == if s.role.Leader? then s.(log := s.log + WritesOf(ops, s.term)) else s
  {
    if ops != [] {
      SubmitAppendsWrites(s, ops[..|ops| - 1]);
    }
  }

  class StorageLayer {
    var contents: Contents

    constructor ()
      ensures contents == map[]
    {
      contents := map[];
    }

    method Set(key: string, value: string)
      modifies this
      ensures contents == old(contents)[key := value]
    {
      contents := contents[key := value];
    }

    method Get(key: string) returns (value: Option<string>)
      ensures value == if key in contents then Some(contents[key]) else None
    {
      value := if key in contents then Some(contents[key]) else None;
    }

    method Delete(key: string)
      modifies this
      ensures contents == old(contents) - {key}
    {
      contents := contents - {key};
    }
  }

  /** Which of its two queues the handler loop finds ready first. */
  datatype Turn = Client | Delivery

  /** How many of the turns are of one kind. */
  function TurnsOf(turns: seq<Turn>, kind: Turn): nat {
    if turns == [] then
      0
    else
      TurnsOf(turns[..|turns| - 1], kind) + if turns[|turns| - 1] == kind then 1 else 0
  }

  class KvStore {
    const storage: StorageLayer
    const raft: Node<Operation>
    var requests: seq<Operation>  // what clients have sent and the store has not read
    var taken: nat                // how much of the raft node's outbox has been read

    /** The map reflects what has been read of the delivery channel. */
    ghost predicate Valid()
      reads this, storage, raft
    {
      && taken <= |raft.outbox|
      && storage.contents == Replay(map[], raft.outbox[..taken])
    }

    constructor (raft: Node<Operation>)
      ensures Valid() && this.raft == raft && fresh(storage) && requests == [] && taken == 0
    {
      this.raft := raft;
      storage := new StorageLayer();
      requests, taken := [], 0;
    }

    method Apply(message: Entry<Operation>)
      modifies storage
      ensures storage.contents == ApplyTo(old(storage.contents), message.value)
    {
      match message.value {
        case Set(key, value) => storage.Set(key, value);
        case Delete(key) => storage.Delete(key);
        case _ =>
      }
    }

    /** A read looks its key up; writes go to the log, if this node leads. */
    method HandleCmd(cmd: Operation) returns (value: Option<string>)
      modifies raft
      ensures cmd.Set? || cmd.Delete? ==> raft.Snapshot() == AppendEntry(old(raft.Snapshot()), cmd)
      ensures cmd.Get? || cmd.Invalid? ==> raft.Snapshot() == old(raft.Snapshot())
      ensures value == if cmd.Get? && cmd.key in storage.contents then Some(storage.contents[cmd.key]) else None
    {
      value := None;
      match cmd {
        case Get(key) => value := storage.Get(key);
        case Invalid =>
        case _ => raft.AppendEntry(cmd);
      }
    }

    /** The next delivered entry is applied. */
    method TakeDelivery()
      requires Valid() && taken < |raft.outbox|
      modifies this`taken, storage
      ensures Valid() && taken == old(taken) + 1
    {
      Apply(raft.outbox[taken]);
      assert raft.outbox[..taken + 1][..taken] == raft.outbox[..taken];
      taken := taken + 1;
    }

    /** The handler loop over any sequence of turns; a turn for an empty queue waits, and
        any other takes one message. Clients' operations reach the log in their order,
        deliveries reach the map in theirs. */
    method GenericHandlerInterface(turns: seq<Turn>)
      requires Valid()
      modifies this`requests, this`taken, storage, raft
      ensures Valid() && raft.outbox == old(raft.outbox)
      ensures taken == old(taken) + Min(TurnsOf(turns, Delivery), |old(raft.outbox)| - old(taken))
      ensures var n := Min(TurnsOf(turns, Client), |old(requests)|);
              requests == old(requests)[n..] && raft.Snapshot() == Submit(old(raft.Snapshot()), old(requests)[..n])
    {
      ghost var queue, start, n := requests, raft.Snapshot(), 0;
      assert queue[..0] == [];
      for i := 0 to |turns|
        invariant Valid() && raft.outbox == start.outbox && 0 <= n <= |queue|
        invariant n == Min(TurnsOf(turns[..i], Client), |queue|)
        invariant taken == old(taken) + Min(TurnsOf(turns[..i], Delivery), |start.outbox| - old(taken))
        invariant requests == queue[n..] && raft.Snapshot() == Submit(start, queue[..n])
      {
        assert turns[..i + 1][..i] == turns[..i];
        match turns[i] {
          case Client =>
            if requests != [] {
              assert queue[..n + 1][..n] == queue[..n] && queue[..n + 1][n] == requests[0];
              SubmitDelivers(start, queue[..n]);
              SubmitDelivers(start, queue[..n + 1]);
              assert raft.outbox == start.outbox;
              var _ := HandleCmd(requests[0]);
              assert raft.Snapshot() == Submit(start, queue[..n + 1]);
              assert raft.Snapshot().outbox == start.outbox;
              requests, n := requests[1..], n + 1;
            }
          case Delivery =>
            if taken < |raft.outbox| {
              TakeDelivery();
            }
        }
      }
      assert turns[..|turns|] == turns;
    }

    /** Once the delivery queue is empty, the map is the replay of everything delivered. */
    method Drain()
      requires Valid()
      modifies this`taken, storage
      ensures Valid() && taken == |raft.outbox| && storage.contents == Replay(map[], raft.outbox)
    {
      while taken < |raft.outbox|
        invariant Valid()
        decreases |raft.outbox| - taken
      {
        TakeDelivery();
      }
      assert raft.outbox[..taken] == raft.outbox;
    }
  }
}
