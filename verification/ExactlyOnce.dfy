/** No request id is in a log twice.

    A leader proposes a write only after looking its request id up in the applied records, among the tracked
    requests and in its log (submit_batch).  Over a whole run this is enough, whatever leaders come and go:
    no log ever holds two writes with one id. */
module ExactlyOnce {
  import opened Types
  import opened Replica
  import opened Consensus
  import opened Cluster
  import opened ClusterInvariant
  import opened ClusterSafety
  import opened RaftLogClass
  import opened Proposals

  /** A write is proposed only if its id is nowhere in the leader's whole log. */
  ghost predicate Novel(w: World, s: Step) {
    s.Submit? && s.i in w.replicas ==> Absent(Full(w.replicas[s.i]), s.payload.requestId)
  }

  ghost predicate AllNovel(g: Group, w: World, steps: seq<Step>)
    requires Run(g, w, steps)
    decreases |steps|
  {
    steps == [] || (Novel(w, steps[0]) && AllNovel(g, Exec(g, w, steps[0]), steps[1..]))
  }

  /** No leader has written an id twice. */
  ghost predicate OnceLed(h: History) {
    forall t :: t in h.led ==> DistinctIds(h.led[t])
  }

  lemma PrefixDistinct(l: Log, p: Log)
    requires DistinctIds(l) && Agree(p, l, |p|)
    ensures DistinctIds(p)
  {
    forall i, j | 0 <= i < j < |p| ensures !SameId(p[i], p[j]) { assert !SameId(l[i], l[j]); }
  }

  /** Every log is the beginning of a leader's. */
  lemma BackedOnce(h: History, l: Log)
    requires OnceLed(h) && Backed(h, l)
    ensures DistinctIds(l)
  {
    if l != [] {
      BackedLast(h, l);
      PrefixDistinct(h.led[Consensus.LastTerm(l)], l);
    }
  }

  lemma ReplicaOnce(g: Group, w: World, c: Chronicle, i: ReplicaId)
    requires Good(g, w, c) && OnceLed(c.h) && i in w.replicas
    ensures Full(w.replicas[i]) == c.h.log[i] && DistinctIds(c.h.log[i])
  {
    assert ReplicaOk(g, w, c, i) && LogAt(c.h, i);
    FullLog(c.h, i, w.replicas[i]);
    BackedOnce(c.h, c.h.log[i]);
  }

  /** The record a winner or a proposer adds carries no id that is in its log. */
  lemma AddedOnce(g: Group, w: World, s: Step) returns (e: LogEntry)
    requires Enabled(g, w, s) && Novel(w, s) && (s.Win? || s.Submit?)
    ensures s.i in Exec(g, w, s).replicas && Full(Exec(g, w, s).replicas[s.i]) == Full(w.replicas[s.i]) + [e]
    ensures Absent(Full(w.replicas[s.i]), e.requestId)
  {
    var r, r' := w.replicas[s.i], Exec(g, w, s).replicas[s.i];
    e := r'.log.entries[|r'.log.entries| - 1];
    assert r'.log.entries == r.log.entries + [e] && r'.snapshot == r.snapshot;
  }

  lemma NextOnce(g: Group, w: World, c: Chronicle, s: Step, c': Chronicle)
    requires Good(g, w, c) && OnceLed(c.h) && Enabled(g, w, s) && Novel(w, s)
    requires Good(g, Exec(g, w, s), c') && LedPasses(c.h, c'.h, s)
    ensures OnceLed(c'.h)
  {
    if s.Win? || s.Submit? {
      ReplicaOnce(g, w, c, s.i);
      var e := AddedOnce(g, w, s);
      WrittenLog(g, Exec(g, w, s), c', s.i);
      AppendDistinct(c.h.log[s.i], e);
    }
  }

  lemma WrittenLog(g: Group, w: World, c: Chronicle, i: ReplicaId)
    requires Good(g, w, c) && i in w.replicas
    ensures i in c.h.log && Full(w.replicas[i]) == c.h.log[i]
  {
    assert ReplicaOk(g, w, c, i);
    FullLog(c.h, i, w.replicas[i]);
  }

  lemma {:induction false} RunOnce(g: Group, w: World, c: Chronicle, steps: seq<Step>) returns (c': Chronicle)
    requires Good(g, w, c) && OnceLed(c.h) && Run(g, w, steps) && Prudent(g, w, steps, c.h.shunned)
    requires AllNovel(g, w, steps)
    ensures Good(g, After(g, w, steps), c') && OnceLed(c'.h)
    decreases |steps|
  {
    c' := c;
    if steps != [] {
      var c1 := NextKeeps(g, w, c, steps[0]);
      NextOnce(g, w, c, steps[0], c1);
      c' := RunOnce(g, Exec(g, w, steps[0]), c1, steps[1..]);
    }
  }

  /** In every reachable state every replica's whole log holds each request id at most once. */
  lemma IdsAreUnique(g: Group, w: World, steps: seq<Step>, i: ReplicaId)
    requires Start(g, w) && Run(g, w, steps) && Prudent(g, w, steps, {}) && AllNovel(g, w, steps) && i in g.replicas
    ensures i in After(g, w, steps).replicas && DistinctIds(Full(After(g, w, steps).replicas[i]))
  {
    var c := StartIsGood(g, w);
    var c' := RunOnce(g, w, c, steps);
    ReplicaOnce(g, After(g, w, steps), c', i);
  }
}
