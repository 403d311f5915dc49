/** The order in which a voter compares its log with a candidate's. */
module LogOrder {
  import opened Types
  import opened Handlers

  /** A candidate with the log `a` may be granted a vote by a node with the log `b`. */
  predicate AsRecent<V>(a: Log<V>, b: Log<V>) {
    UpToDate(LastTerm(a), |a|, b)
  }

  /** The order on logs is a total preorder. */
  lemma AsRecentIsPreorder<V>(a: Log<V>, b: Log<V>, c: Log<V>)
    ensures AsRecent(a, a)
    ensures AsRecent(a, b) || AsRecent(b, a)
    ensures AsRecent(a, b) && AsRecent(b, c) ==> AsRecent(a, c)
  {
  }

  /** A grant implies that the candidate's log is at least the voter's; a node with an
      empty log grants exactly when it has not voted, and is then below every candidate. */
  lemma GrantMeansAsRecent<V>(c: NodeId, cs: NodeState<V>, s: NodeState<V>)
    requires Grants(s, Ballot(c, cs))
    ensures AsRecent(cs.log, s.log)
  {
  }
}
