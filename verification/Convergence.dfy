/** The reconcilers can always bring a group to where it should be, whatever has happened before: a table
    that is kept gets its replicas, a table that is dropped leaves nothing behind. */
module Convergence {
  import opened Types
  import opened MetaIndex
  import opened Lifecycle

  lemma {:induction false} RunFurther(s: State, a: seq<Step>, b: seq<Step>)
    ensures Run(s, a + b) == Run(Run(s, a), b)
    decreases |a|
  {
    if a == [] {
      assert a + b == b;
    } else {
      assert (a + b)[0] == a[0] && (a + b)[1..] == a[1..] + b;
      RunFurther(Exec(s, a[0]), a[1..], b);
    }
  }

  lemma RunOne(s: State, step: Step)
    ensures Run(s, [step]) == Exec(s, step)
  {
    assert [step][1..] == [];
    assert Run(Exec(s, step), []) == Exec(s, step);
  }

  /** These steps lead from one state to another. */
  ghost predicate Reaches(s: State, steps: seq<Step>, s': State) { Run(s, steps) == s' }

  lemma Then(s: State, a: seq<Step>, s1: State, b: seq<Step>, s2: State)
    requires Reaches(s, a, s1) && Reaches(s1, b, s2)
    ensures Reaches(s, a + b, s2)
  {
    RunFurther(s, a, b);
  }

  // ---------------------------------------------------------------- heartbeats

  function SetAll<K, V>(m: map<K, V>, keys: set<K>, v: V): map<K, V> { m + map k | k in keys :: v }

  lemma SetMore<K, V>(m: map<K, V>, keys: set<K>, k: K, v: V)
    requires k in keys
    ensures SetAll(m[k := v], keys - {k}, v) == SetAll(m, keys, v)
  {
  }

  lemma SetNone<K, V>(m: map<K, V>, v: V)
    ensures SetAll(m, {}, v) == m
  {
  }

  function Heard(s: State, ids: set<ReplicaId>, seen: Seen): State {
    s.(seen := SetAll(s.seen, ids, seen))
  }

  /** The same is reported of all these replicas. */
  lemma {:induction false} HeartbeatsOf(s: State, ids: set<ReplicaId>, seen: Seen) returns (steps: seq<Step>)
    requires ids <= s.replicas.Keys
    ensures Reaches(s, steps, Heard(s, ids, seen))
    decreases ids
  {
    if ids == {} {
      steps := [];
      SetNone(s.seen, seen);
    } else {
      var id :| id in ids;
      var s1 := Exec(s, Heartbeat(id, seen));
      RunOne(s, Heartbeat(id, seen));
      var rest := HeartbeatsOf(s1, ids - {id}, seen);
      SetMore(s.seen, ids, id, seen);
      Then(s, [Heartbeat(id, seen)], s1, rest, Heard(s, ids, seen));
      steps := [Heartbeat(id, seen)] + rest;
    }
  }

  function AllUp(s: State, nodes: set<Bytes>): State { s.(online := SetAll(s.online, nodes, true)) }

  lemma {:induction false} NodesCome(s: State, nodes: set<Bytes>) returns (steps: seq<Step>)
    ensures Reaches(s, steps, AllUp(s, nodes))
    decreases nodes
  {
    if nodes == {} {
      steps := [];
      SetNone(s.online, true);
    } else {
      var n :| n in nodes;
      var s1 := Exec(s, NodeStatus(n, true));
      RunOne(s, NodeStatus(n, true));
      var rest := NodesCome(s1, nodes - {n});
      SetMore(s.online, nodes, n, true);
      Then(s, [NodeStatus(n, true)], s1, rest, AllUp(s, nodes));
      steps := [NodeStatus(n, true)] + rest;
    }
  }

  // ---------------------------------------------------------------- emptying a group

  /** A group without members, whose remaining records are all on their way out. */
  ghost predicate Emptied(s: State, shard: ShardId) {
    && shard in s.groups && s.groups[shard].members == []
    && forall id :: id in s.replicas && ShardOf(id) == shard ==> IsAbsent(s.replicas[id].phase)
  }

  lemma MembersAreOfShard(s: State, shard: ShardId)
    requires Inv(s) && shard in s.groups
    ensures OfShard(shard, s.groups[shard].members)
  {
    assert GroupOk(s, shard);
    forall id | id in s.groups[shard].members ensures ShardOf(id) == shard { assert MemberOk(s.replicas, shard, id); }
  }

  lemma NoneKept(members: seq<ReplicaId>)
    requires Distinct(members)
    ensures Kept(members, members) == []
  {
    KeptIs(members, members);
    if Kept(members, members) != [] { assert Kept(members, members)[0] in Kept(members, members); }
  }

  /** Retiring all members empties the group. */
  lemma Empties(s: State, shard: ShardId) returns (steps: seq<Step>, s': State)
    requires Inv(s) && shard in s.groups
    ensures Reaches(s, steps, s') && Inv(s') && Emptied(s', shard) && s'.tables == s.tables
    ensures s'.groups[shard] == s.groups[shard].(members := [])
  {
    var members := s.groups[shard].members;
    MembersAreOfShard(s, shard);
    assert GroupOk(s, shard);
    NoneKept(members);
    var step := Remove(shard, members);
    steps, s' := [step], Exec(s, step);
    RunOne(s, step);
    RetireKeeps(s, shard, members);
    forall id | id in s'.replicas && ShardOf(id) == shard ensures IsAbsent(s'.replicas[id].phase) {
      assert RecordOk(s', id);
    }
  }

  const GONE := Seen(Initializing, false, true)

  function Departing(s: State, shard: ShardId): set<ReplicaId> {
    set id | id in s.replicas && ShardOf(id) == shard && IsAbsent(s.replicas[id].phase)
  }

  /** Once the nodes report that the replicas are gone, one pass and a clean-up remove their records. */
  lemma Cleared(s: State, shard: ShardId)
    requires Inv(s) && Emptied(s, shard)
    ensures var s2 := Cleanup(PhasePass(Heard(s, Departing(s, shard), GONE)), shard);
            && ShardReplicas(s2, shard) == {} && shard in s2.groups && s2.tables == s.tables
            && s2.groups[shard] == s.groups[shard].(mode := s2.groups[shard].mode)
  {
    var s1 := PhasePass(Heard(s, Departing(s, shard), GONE));
    forall id | id in s1.replicas && ShardOf(id) == shard ensures s1.replicas[id].phase == Deleted {
      assert id in Departing(s, shard);
    }
  }

  /** A shard of a table that is being dropped: whatever its replicas are doing, there is a run after which
      neither the group nor any record of it is left. */
  lemma DroppedLeavesNothing(before: seq<Step>, shard: ShardId) returns (after: seq<Step>)
    requires var s := Run(Start(), before); shard.tableId in s.tables && s.tables[shard.tableId].phase == Dropping
    ensures var s' := Run(Start(), before + after); shard !in s'.groups && ShardReplicas(s', shard) == {}
  {
    StartInv();
    RunKeeps(Start(), before);
    var s := Run(Start(), before);
    if shard in s.groups {
      after := Dismantle(s, shard);
    } else {
      after := [];
      forall id | id in s.replicas ensures ShardOf(id) != shard { assert RecordOk(s, id); }
    }
    RunFurther(Start(), before, after);
  }

  lemma Dismantle(s: State, shard: ShardId) returns (steps: seq<Step>)
    requires Inv(s) && shard in s.groups && shard.tableId in s.tables && s.tables[shard.tableId].phase == Dropping
    ensures var s' := Run(s, steps); shard !in s'.groups && ShardReplicas(s', shard) == {}
  {
    var s0 := s.(groups := s.groups[shard := s.groups[shard].(target := 0)]);
    var first := if s.groups[shard].target == 0 then [] else [Plan(shard)];
    if s.groups[shard].target == 0 { assert s0 == s; } else { RunOne(s, Plan(shard)); }
    GroupChange(s, shard, s.groups[shard].(target := 0));
    var second, s1 := Empties(s0, shard);
    Then(s, first, s0, second, s1);
    var third, s2 := ClearsOut(s1, shard);
    Then(s, first + second, s1, third, s2);
    var s3 := Exec(s2, Plan(shard));
    RunOne(s2, Plan(shard));
    Then(s, first + second + third, s2, [Plan(shard)], s3);
    steps := first + second + third + [Plan(shard)];
  }

  lemma ClearsOut(s: State, shard: ShardId) returns (steps: seq<Step>, s': State)
    requires Inv(s) && Emptied(s, shard)
    ensures Reaches(s, steps, s') && ShardReplicas(s', shard) == {} && shard in s'.groups && s'.tables == s.tables
    ensures s'.groups[shard] == s.groups[shard].(mode := s'.groups[shard].mode)
  {
    var beats := HeartbeatsOf(s, Departing(s, shard), GONE);
    var s1 := Heard(s, Departing(s, shard), GONE);
    RunOne(s1, Phases);
    Then(s, beats, s1, [Phases], PhasePass(s1));
    s' := Cleanup(PhasePass(s1), shard);
    RunOne(PhasePass(s1), CleanUp(shard));
    Then(s, beats + [Phases], PhasePass(s1), [CleanUp(shard)], s');
    steps := beats + [Phases] + [CleanUp(shard)];
    Cleared(s, shard);
  }

  // ---------------------------------------------------------------- filling a group

  /** All records of the shard are those of replicas being created on these nodes. */
  ghost predicate Starting(s: State, shard: ShardId, nodes: set<Bytes>) {
    forall id :: id in s.replicas && ShardOf(id) == shard ==>
      s.replicas[id].phase == Creating && s.replicas[id].node in nodes
  }

  lemma {:induction false} AddFills(s: State, shard: ShardId, nodes: seq<Bytes>, all: set<Bytes>)
    requires Inv(s) && shard in s.groups && s.groups[shard].target > 0 && Starting(s, shard, all)
    requires forall n :: n in nodes ==> n in all
    ensures var s' := AddMembers(s, shard, nodes);
            && Inv(s') && Starting(s', shard, all) && shard in s'.groups
            && |s'.groups[shard].members| == |s.groups[shard].members| + |nodes|
            && s'.groups[shard].target == s.groups[shard].target && s'.groups[shard].mode == s.groups[shard].mode
    decreases |nodes|
  {
    if nodes != [] {
      var s1 := AddOne(s, shard, nodes[0]);
      AddOneKeeps(s, shard, nodes[0]);
      assert nodes[0] in nodes;
      AddFills(s1, shard, nodes[1..], all);
    }
  }

  const SERVING := Seen(Serving, true, false)

  /** Every member is ready and votes, and the shard has no other records. */
  ghost predicate Settled(s: State, shard: ShardId, count: int) {
    && shard in s.groups && |s.groups[shard].members| == count == s.groups[shard].target
    && s.groups[shard].mode == RaftReconfig && AllReady(s, s.groups[shard])
    && forall id :: id in s.replicas && ShardOf(id) == shard ==> id in s.groups[shard].members
  }

  /** The pass after the nodes are up and report the new replicas as serving. */
  lemma AllComeUp(s: State, shard: ShardId, nodes: set<Bytes>, id: ReplicaId)
    requires Starting(s, shard, nodes) && id in s.replicas && ShardOf(id) == shard
    ensures var s2 := PhasePass(Heard(AllUp(s, nodes), ShardReplicas(s, shard), SERVING));
            && s2.replicas.Keys == s.replicas.Keys && s2.replicas[id].phase == Ready
            && id in s2.seen && s2.seen[id] == SERVING
  {
    assert id in ShardReplicas(s, shard);
  }

  /** A clean-up that finds nothing to clean up. */
  lemma CleansNothing(s: State, shard: ShardId, count: int)
    requires shard in s.groups && count > 0 && |s.groups[shard].members| == count == s.groups[shard].target
    requires forall id :: id in s.replicas && ShardOf(id) == shard ==>
               s.replicas[id].phase == Ready && id in s.groups[shard].members
    requires forall id :: id in s.groups[shard].members ==>
               id in s.replicas && s.replicas[id].phase == Ready && id in s.seen && s.seen[id].voter
    ensures Settled(Cleanup(s, shard), shard, count)
  {
    var gone := set id | id in s.replicas && ShardOf(id) == shard && s.replicas[id].phase == Deleted;
    assert gone == {};
    assert s.replicas - gone == s.replicas && s.seen - gone == s.seen;
  }

  /** One pass and a clean-up settle the group. */
  lemma Settles(s: State, shard: ShardId, nodes: set<Bytes>, count: int)
    requires Inv(s) && Starting(s, shard, nodes) && shard in s.groups && count > 0
    requires |s.groups[shard].members| == count == s.groups[shard].target
    ensures Settled(Cleanup(PhasePass(Heard(AllUp(s, nodes), ShardReplicas(s, shard), SERVING)), shard), shard, count)
  {
    var s2 := PhasePass(Heard(AllUp(s, nodes), ShardReplicas(s, shard), SERVING));
    assert GroupOk(s, shard);
    forall id | id in s.groups[shard].members
      ensures id in s2.replicas && s2.replicas[id].phase == Ready && id in s2.seen && s2.seen[id].voter
    {
      assert MemberOk(s.replicas, shard, id);
      AllComeUp(s, shard, nodes, id);
    }
    forall id | id in s2.replicas && ShardOf(id) == shard
      ensures s2.replicas[id].phase == Ready && id in s.groups[shard].members
    {
      assert RecordOk(s, id);
      AllComeUp(s, shard, nodes, id);
    }
    CleansNothing(s2, shard, count);
  }

  lemma Fill(s: State, shard: ShardId, nodes: seq<Bytes>) returns (steps: seq<Step>, s': State)
    requires Inv(s) && shard in s.groups && s.groups[shard].members == [] && ShardReplicas(s, shard) == {}
    requires s.groups[shard].target == |nodes| > 0
    ensures Reaches(s, steps, s') && Settled(s', shard, |nodes|)
  {
    var all := set n | n in nodes;
    forall id | id in s.replicas ensures ShardOf(id) == shard <==> id in ShardReplicas(s, shard) {}
    AddFills(s, shard, nodes, all);
    RunOne(s, Add(shard, nodes));
    var s1 := AddMembers(s, shard, nodes);
    var rest;
    rest, s' := Serve(s1, shard, all, |nodes|);
    Then(s, [Add(shard, nodes)], s1, rest, s');
    steps := [Add(shard, nodes)] + rest;
  }

  lemma Serve(s: State, shard: ShardId, nodes: set<Bytes>, count: int) returns (steps: seq<Step>, s': State)
    requires Inv(s) && Starting(s, shard, nodes) && shard in s.groups && count > 0
    requires |s.groups[shard].members| == count == s.groups[shard].target
    ensures Reaches(s, steps, s') && Settled(s', shard, count)
  {
    var up := NodesCome(s, nodes);
    var s1 := AllUp(s, nodes);
    var beats := HeartbeatsOf(s1, ShardReplicas(s, shard), SERVING);
    var s2 := Heard(s1, ShardReplicas(s, shard), SERVING);
    Then(s, up, s1, beats, s2);
    RunOne(s2, Phases);
    Then(s, up + beats, s2, [Phases], PhasePass(s2));
    s' := Cleanup(PhasePass(s2), shard);
    RunOne(PhasePass(s2), CleanUp(shard));
    Then(s, up + beats + [Phases], PhasePass(s2), [CleanUp(shard)], s');
    steps := up + beats + [Phases] + [CleanUp(shard)];
    Settles(s, shard, nodes, count);
  }

  /** A shard of a table that is kept: whatever has become of its replicas, and for any choice of as many nodes
      as the table wants replicas, there is a run after which the group has that many members, all of them
      ready, and no other records. */
  lemma PresentSettles(before: seq<Step>, shard: ShardId, nodes: seq<Bytes>) returns (after: seq<Step>)
    requires var s := Run(Start(), before);
             IsPresent(s, shard.tableId) && s.tables[shard.tableId].target == |nodes| > 0
    ensures Settled(Run(Start(), before + after), shard, |nodes|)
  {
    StartInv();
    RunKeeps(Start(), before);
    var s := Run(Start(), before);
    var s0 := EnsureGroup(s, shard);
    EnsureKeeps(s, shard);
    RunOne(s, Ensure(shard));
    var rest, s' := Refill(s0, shard, nodes);
    Then(s, [Ensure(shard)], s0, rest, s');
    after := [Ensure(shard)] + rest;
    RunFurther(Start(), before, after);
  }

  lemma Refill(s: State, shard: ShardId, nodes: seq<Bytes>) returns (steps: seq<Step>, s': State)
    requires Inv(s) && shard in s.groups && s.groups[shard].target == |nodes| > 0
    ensures Reaches(s, steps, s') && Settled(s', shard, |nodes|)
  {
    var first, s1 := Empties(s, shard);
    var second, s2 := ClearsOut(s1, shard);
    Then(s, first, s1, second, s2);
    RunKeeps(s1, second);
    var third;
    third, s' := Fill(s2, shard, nodes);
    Then(s, first + second, s2, third, s');
    steps := first + second + third;
  }
}
