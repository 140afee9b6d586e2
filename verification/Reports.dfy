/** What a caller may conclude from being told that its write has succeeded.

    ProposalTracker::advance looks at the index of a request alone, and a dispatch that deposes the leader
    can replace the record and raise the commit index before the pass.  The term of the record at that
    index decides: it is the one the request was placed in exactly if the caller's record is the one that
    is committed, here and on every replica from then on. */
module Reports {
  import opened Types
  import opened Replica
  import opened Consensus
  import opened Cluster
  import opened ClusterInvariant
  import opened ClusterSafety
  import opened RaftLogClass
  import opened Proposals

  /** A run from the beginning and one that continues it, both prudent. */
  ghost predicate Continues(g: Group, w: World, before: seq<Step>, between: seq<Step>) {
    && Start(g, w) && Run(g, w, before) && Prudent(g, w, before, {})
    && Run(g, After(g, w, before), between)
    && Prudent(g, After(g, w, before), between, ShunnedIn(g, w, before))
  }

  /** One that continues both. */
  ghost predicate GoesOn(g: Group, w: World, before: seq<Step>, between: seq<Step>, after: seq<Step>) {
    && Continues(g, w, before, between)
    && Run(g, After(g, After(g, w, before), between), after)
    && Prudent(g, After(g, After(g, w, before), between), after,
               ShunnedIn(g, w, before) + ShunnedIn(g, After(g, w, before), between))
  }

  /** The pass has reached the request: its index is committed on this replica. */
  lemma ReachedIsCommitted(records: map<Bytes, Record>, id: Bytes, t: Tracked, commit: int, applied: int)
    requires Verdict(records, id, t, commit, applied).Some? && applied <= commit
    ensures 1 <= t.index <= commit
  {
  }

  /** A request was placed in i's log at w1, and a pass of the tracker at w2 tells its callers the result.
      Whatever replica has committed that index, then or at any later time w3, has the caller's own record
      there if and only if i's record at w2 still has the term the request was placed in. */
  lemma SuccessExactly(g: Group, w: World, before: seq<Step>, between: seq<Step>, after: seq<Step>, i: ReplicaId,
                       j: ReplicaId, id: Bytes, t: Tracked, records: map<Bytes, Record>, applied: int)
    requires GoesOn(g, w, before, between, after) && i in g.replicas && j in g.replicas
    requires i in After(g, w, before).replicas && Stays(Full(After(g, w, before).replicas[i]), id, t)
    requires var w2 := After(g, After(g, w, before), between);
             && i in w2.replicas && applied <= w2.replicas[i].commit
             && Verdict(records, id, t, w2.replicas[i].commit, applied).Some?
    requires var w3 := After(g, After(g, After(g, w, before), between), after);
             j in w3.replicas && t.index <= w3.replicas[j].commit
    ensures var w1 := After(g, w, before);
            var w2 := After(g, w1, between);
            var w3 := After(g, w2, after);
            && t.index <= |Full(w3.replicas[j])|
            && (Full(w3.replicas[j])[t.index - 1] == Full(w1.replicas[i])[t.index - 1]
                <==> TermIn(Full(w2.replicas[i]), t.index) == t.term)
  {
    var w1 := After(g, w, before);
    var w2 := After(g, w1, between);
    var w3 := After(g, w2, after);
    ReachedIsCommitted(records, id, t, w2.replicas[i].commit, applied);
    var c1 := Reachable(g, w, before);
    var c2 := RunKeeps(g, w1, c1, between);
    var c3 := RunKeeps(g, w2, c2, after);
    assert ReplicaOk(g, w1, c1, i) && ReplicaOk(g, w2, c2, i) && ReplicaOk(g, w3, c3, j);
    PlacedExactly(g, c1, c2, c3, i, w1.replicas[i], w2.replicas[i], j, w3.replicas[j], t.index);
  }

  lemma PlacedExactly(g: Group, c1: Chronicle, c2: Chronicle, c3: Chronicle, i: ReplicaId, r1: State, r2: State,
                      j: ReplicaId, r3: State, n: int)
    requires Inv(g, c1.h) && Inv(g, c2.h) && Inv(g, c3.h) && Overlapping(g) && Since(c1, c2) && Since(c2, c3)
    requires LogRel(c1.h, i, r1) && LogRel(c2.h, i, r2) && LogRel(c3.h, j, r3)
    requires 1 <= n <= |Full(r1)| && n <= r2.commit && n <= r3.commit
    ensures n <= |Full(r2)| && n <= |Full(r3)|
    ensures Full(r3)[n - 1] == Full(r1)[n - 1] <==> TermIn(Full(r2), n) == Full(r1)[n - 1].term
  {
    FullLog(c2.h, i, r2);
    FullLog(c3.h, j, r3);
    CommittedTogether(g, c2, c3, i, r2, j, r3);
    MatchLater(g, c1, c2, i, r1, i, r2, n);
  }

  /** While a replica leads the term in which its requests were placed, all of them stay in place, so
      every success that a pass reports is the truth (Justified in ProposalTracker.Advance). */
  lemma LeaderKeepsPlace(g: Group, w: World, before: seq<Step>, between: seq<Step>, i: ReplicaId, entries: Entries)
    requires Continues(g, w, before, between)
    requires i in After(g, w, before).replicas && i in After(g, After(g, w, before), between).replicas
    requires var r, q := After(g, w, before).replicas[i], After(g, After(g, w, before), between).replicas[i];
             r.role.Leader? && q.role.Leader? && q.term == r.term && InPlace(Full(r), entries, [])
    ensures InPlace(Full(After(g, After(g, w, before), between).replicas[i]), entries, [])
    ensures forall id :: id in entries ==>
              TermIn(Full(After(g, After(g, w, before), between).replicas[i]), entries[id].index) == entries[id].term
  {
    LeaderOnlyAppends(g, w, before, between, i);
    var r, q := After(g, w, before).replicas[i], After(g, After(g, w, before), between).replicas[i];
    forall id | id in entries ensures Stays(Full(q), id, entries[id]) { assert Stays(Full(r), id, entries[id]); }
  }
}
