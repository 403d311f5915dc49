/** Quorum sizes, and the frequency fold with which a leader looks for an index to commit. */
module Quorum {
  import opened Types

  /** The float formula, over `real`. */
  function QuorumLength(connections: nat): int {
    ((connections + 1) as real / 2.0).Floor + 1
  }

  lemma QuorumIsMajority(connections: nat)
    ensures QuorumLength(connections) == (connections + 1) / 2 + 1
    ensures 2 * QuorumLength(connections) > connections + 1
  {
    var n := connections + 1;
    assert (n / 2) as real <= n as real / 2.0 < (n / 2) as real + 1.0;
  }

  lemma {:induction false} SubsetSize<T>(a: set<T>, b: set<T>)
    requires a <= b
    ensures |a| <= |b|
  {
    if a != {} {
      var x :| x in a;
      SubsetSize(a - {x}, b - {x});
    }
  }

  /** Two sets of more than half of the members share a member. */
  lemma QuorumsIntersect<T>(members: set<T>, a: set<T>, b: set<T>, quorum: int) returns (x: T)
    requires a <= members && b <= members
    requires |a| >= quorum && |b| >= quorum && 2 * quorum > |members|
    ensures x in a && x in b
  {
    SubsetSize(a + b, members);
    assert a * b != {};
    x :| x in a * b;
  }

  function Elements<T>(s: seq<T>): set<T> {
    set x | x in s
  }

  /** A duplicate-free list has as many members as its length says. */
  lemma {:induction false} DistinctSize<T>(s: seq<T>)
    requires forall i, j :: 0 <= i < j < |s| ==> s[i] != s[j]
    ensures |Elements(s)| == |s|
  {
    if s == [] {
      assert Elements(s) == {};
    } else {
      var init, last := s[..|s| - 1], s[|s| - 1];
      DistinctSize(init);
      assert s == init + [last];
      assert Elements(s) == Elements(init) + {last};
    }
  }

  /** The peers whose match index is exactly `v`. */
  function Holders(m: map<NodeId, nat>, v: nat): set<NodeId> {
    set k | k in m && m[k] == v
  }

  /** The peers whose match index is at least `v`. */
  function AtLeast(m: map<NodeId, nat>, v: nat): set<NodeId> {
    set k | k in m && m[k] >= v
  }

  ghost predicate Frequent(m: map<NodeId, nat>, quorum: int, v: nat) {
    |Holders(m, v)| >= quorum
  }

  /** The index that the fold finds, as a value. */
  ghost function CommitCandidate(m: map<NodeId, nat>, quorum: int): Option<nat> {
    if exists v :: Frequent(m, quorum, v) then
      var v :| Frequent(m, quorum, v); Some(v)
    else
      None
  }

  /** No two values are both frequent, so the order of the map's iteration is invisible. */
  lemma FrequentIsUnique(m: map<NodeId, nat>, quorum: int, v: nat, w: nat)
    requires 2 * quorum > |m|
    requires Frequent(m, quorum, v) && Frequent(m, quorum, w)
    ensures v == w
    ensures CommitCandidate(m, quorum) == Some(v)
  {
    if v != w {
      var x := QuorumsIntersect(m.Keys, Holders(m, v), Holders(m, w), quorum);
      assert false;
    }
    var u := CommitCandidate(m, quorum).value;
    if u != v {
      var x := QuorumsIntersect(m.Keys, Holders(m, v), Holders(m, u), quorum);
      assert false;
    }
  }

  /** A frequent value over the full membership is the quorum-th largest match index:
      a quorum has reached it, and no quorum has reached anything beyond it. */
  lemma FrequentIsQuorumth(m: map<NodeId, nat>, connections: nat, v: nat)
    requires |m| == connections + 1
    requires Frequent(m, QuorumLength(connections), v)
    ensures |AtLeast(m, v)| >= QuorumLength(connections)
    ensures forall w :: w > v ==> |AtLeast(m, w)| < QuorumLength(connections)
  {
    QuorumIsMajority(connections);
    SubsetSize(Holders(m, v), AtLeast(m, v));
    forall w | w > v ensures |AtLeast(m, w)| < QuorumLength(connections) {
      if |AtLeast(m, w)| >= QuorumLength(connections) {
        var x := QuorumsIntersect(m.Keys, Holders(m, v), AtLeast(m, w), QuorumLength(connections));
        assert false;
      }
    }
  }

  /** How many of the keys seen so far map to `v`. */
  ghost function Seen(m: map<NodeId, nat>, seen: set<NodeId>, v: nat): nat {
    |Holders(m, v) * seen|
  }

  /** `frequency` counts the values of the keys seen so far, and only those. */
  ghost predicate Tallied(m: map<NodeId, nat>, seen: set<NodeId>, frequency: map<nat, nat>) {
    forall v :: (if v in frequency then frequency[v] else 0) == Seen(m, seen, v)
  }

  lemma SeenOneMore(m: map<NodeId, nat>, seen: set<NodeId>, k: NodeId, v: nat)
    requires k in m && k !in seen
    ensures Seen(m, seen + {k}, v) == Seen(m, seen, v) + if v == m[k] then 1 else 0
  {
    if v == m[k] {
      assert Holders(m, v) * (seen + {k}) == Holders(m, v) * seen + {k};
    } else {
      assert Holders(m, v) * (seen + {k}) == Holders(m, v) * seen;
    }
  }

  lemma TallyOneMore(m: map<NodeId, nat>, seen: set<NodeId>, frequency: map<nat, nat>, k: NodeId)
    requires k in m && k !in seen && Tallied(m, seen, frequency)
    ensures Tallied(m, seen + {k}, frequency[m[k] := if m[k] in frequency then frequency[m[k]] + 1 else 1])
  {
    forall v ensures Seen(m, seen + {k}, v) == Seen(m, seen, v) + if v == m[k] then 1 else 0 {
      SeenOneMore(m, seen, k, v);
    }
  }

  lemma SeenEnds(m: map<NodeId, nat>, v: nat)
    ensures Seen(m, {}, v) == 0
    ensures Seen(m, m.Keys, v) == |Holders(m, v)|
  {
    assert Holders(m, v) * {} == {};
    assert Holders(m, v) * m.Keys == Holders(m, v);
  }

  lemma TallyEnds(m: map<NodeId, nat>, frequency: map<nat, nat>)
    ensures Tallied(m, {}, map[])
    ensures Tallied(m, m.Keys, frequency) ==>
              forall v :: |Holders(m, v)| == if v in frequency then frequency[v] else 0
  {
    forall v ensures Seen(m, {}, v) == 0 && Seen(m, m.Keys, v) == |Holders(m, v)| {
      SeenEnds(m, v);
    }
  }

  /** The fold of the match indexes into a table of frequencies, in no given order. */
  method CountFrequencies(m: map<NodeId, nat>) returns (frequency: map<nat, nat>)
    ensures forall v :: |Holders(m, v)| == if v in frequency then frequency[v] else 0
  {
    frequency := map[];
    var left := m.Keys;
    ghost var seen: set<NodeId> := {};
    TallyEnds(m, frequency);
    while left != {}
      invariant left <= m.Keys && seen == m.Keys - left
      invariant Tallied(m, seen, frequency)
      decreases left
    {
      var k :| k in left;
      var val := m[k];
      TallyOneMore(m, seen, frequency, k);
      frequency := frequency[val := if val in frequency then frequency[val] + 1 else 1];
      left, seen := left - {k}, seen + {k};
    }
    assert seen == m.Keys;
    TallyEnds(m, frequency);
  }

  /** The filter on the quorum and the maximum by frequency, in no given order. */
  method FindFrequent(m: map<NodeId, nat>, quorum: int) returns (best: Option<nat>)
    requires quorum > 0
    ensures best.Some? <==> exists v :: Frequent(m, quorum, v)
    ensures best.Some? ==> forall v :: |Holders(m, v)| <= |Holders(m, best.value)|
    ensures 2 * quorum > |m| ==> best == CommitCandidate(m, quorum)
  {
    var frequency := CountFrequencies(m);
    best := None;
    var rest := frequency.Keys;
    while rest != {}
      invariant rest <= frequency.Keys
      invariant best.Some? ==> best.value in frequency && frequency[best.value] >= quorum
      invariant forall v :: v in frequency.Keys - rest && frequency[v] >= quorum ==>
                              best.Some? && frequency[v] <= frequency[best.value]
      decreases rest
    {
      var v :| v in rest;
      if frequency[v] >= quorum && (best.None? || frequency[best.value] <= frequency[v]) {
        best := Some(v);
      }
      rest := rest - {v};
    }
    if best.Some? {
      assert Frequent(m, quorum, best.value);
      if 2 * quorum > |m| {
        FrequentIsUnique(m, quorum, best.value, best.value);
      }
    }
  }
}
