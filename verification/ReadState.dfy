/** What a read sees: the records the state machine has really been given, drain by drain, rather than
    how far it is counted as applied (src/storage/replica/read_tracker.cpp and the drain loop of
    src/storage/replica/replica_loop.cpp). */
module ReadState {
  import opened Types
  import opened RaftLog
  import opened Replica
  import opened Consensus
  import opened Cluster
  import opened Apply
  import opened ClusterSafety

  /** The applied cursor after each drain, from the snapshot to where it is now. */
  ghost predicate Drains(l: View, cuts: seq<int>) {
    && cuts != [] && l.snapIndex <= cuts[0] && cuts[|cuts| - 1] <= LastIndex(l)
    && forall i, j :: 0 <= i < j < |cuts| ==> cuts[i] <= cuts[j]
  }

  /** What those drains have handed to the state machine. */
  ghost function Given(l: View, cuts: seq<int>): Log
    requires WellFormed(l) && Drains(l, cuts)
    decreases |cuts|
  {
    if |cuts| == 1 then [] else Drained(l, cuts[0], cuts[1]) + Given(l, cuts[1..])
  }

  /** No drain has passed over a write. */
  ghost predicate Complete(l: View, cuts: seq<int>) {
    forall i :: 0 < i < |cuts| ==> NothingSkipped(l, cuts[i - 1], cuts[i])
  }

  lemma {:induction false} GivenAll(l: View, cuts: seq<int>)
    requires WellFormed(l) && Drains(l, cuts) && Complete(l, cuts)
    ensures Given(l, cuts) == Slice(l, cuts[0], cuts[|cuts| - 1])
    decreases |cuts|
  {
    if |cuts| == 1 {
      assert Slice(l, cuts[0], cuts[0]) == [];
    } else {
      DrainIsExact(l, cuts[0], cuts[1]);
      GivenAll(l, cuts[1..]);
      SliceJoin(l, cuts[0], cuts[1], cuts[|cuts| - 1], Given(l, cuts[1..]));
    }
  }

  /** The state machine: what the snapshot restored and what was drained since. */
  ghost function Machine(r: State, cuts: seq<int>): Log
    requires WellFormed(r.log) && Drains(r.log, cuts)
  {
    r.snapshot + Given(r.log, cuts)
  }

  lemma MachineIsPrefix(r: State, cuts: seq<int>)
    requires WellFormed(r.log) && Drains(r.log, cuts) && Complete(r.log, cuts)
    requires |r.snapshot| == r.log.snapIndex == cuts[0] && cuts[|cuts| - 1] == r.applied
    ensures |Machine(r, cuts)| == r.applied <= |Full(r)| && Agree(Machine(r, cuts), Full(r), r.applied)
  {
    GivenAll(r.log, cuts);
  }

  /** When a read is answered, the state machine holds everything any replica had committed when the read
      began, provided no drain has passed over a write. */
  lemma ReadsSeeCommitted(g: Group, w: World, before: seq<Step>, i: ReplicaId, between: seq<Step>, j: ReplicaId,
                          cuts: seq<int>)
    requires Start(g, w) && Run(g, w, before) && Prudent(g, w, before, {}) && i in g.replicas && j in g.replicas
    requires Enabled(g, After(g, w, before), BeginRead(i))
    requires Run(g, Exec(g, After(g, w, before), BeginRead(i)), between)
    requires Prudent(g, Exec(g, After(g, w, before), BeginRead(i)), between, ShunnedIn(g, w, before))
    requires var w1 := After(g, w, before);
             var w2 := After(g, Exec(g, w1, BeginRead(i)), between);
             && i in w2.replicas && MayAnswer(w2.replicas[i], w1.replicas[i].nextSeq)
             && var r := w2.replicas[i];
                && WellFormed(r.log) && |r.snapshot| == r.log.snapIndex && Drains(r.log, cuts) && Complete(r.log, cuts)
                && cuts[0] == r.log.snapIndex && cuts[|cuts| - 1] == r.applied
    ensures var w1 := After(g, w, before);
            var w2 := After(g, Exec(g, w1, BeginRead(i)), between);
            j in w1.replicas && Agree(Full(w1.replicas[j]), Machine(w2.replicas[i], cuts), w1.replicas[j].commit)
  {
    ReadsAreLinearizable(g, w, before, i, between, j);
    MachineIsPrefix(After(g, Exec(g, After(g, w, before), BeginRead(i)), between).replicas[i], cuts);
  }
}
