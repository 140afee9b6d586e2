/** Replica groups and the phases of their replicas, as the meta server's reconcilers change them
    (src/meta/reconcile/replica_group_membership_reconciler.cpp,
    src/meta/reconcile/replica_group_plan_reconciler.cpp,
    src/meta/reconcile/replica_phase_reconciler.cpp, src/meta/service/node_service.cpp).

    Every transaction of the meta store is one step; steps of different reconcilers, of heartbeats and
    of clients interleave freely. */
module Lifecycle {
  import opened Types
  import opened MetaIndex

  datatype TablePhase = Present | Dropping | Dropped

  datatype TableState = TableState(phase: TablePhase, target: int)

  datatype Phase = Creating | Ready | Lost | Error | Deleting | Deleted

  predicate IsAbsent(p: Phase) { p == Deleting || p == Deleted }

  datatype Mode = Bootstrap | RaftReconfig

  datatype Group = Group(members: seq<ReplicaId>, target: int, mode: Mode, nextSeq: int)

  datatype Replica = Replica(node: Bytes, phase: Phase)

  datatype StorageStatus = Initializing | Recovering | Serving | Faulted

  /** What heartbeats have reported of a replica. */
  datatype Seen = Seen(status: StorageStatus, voter: bool, noExist: bool)

  datatype State = State(
    tables: map<int, TableState>,
    nextTable: int,
    groups: map<ShardId, Group>,
    replicas: map<ReplicaId, Replica>,
    seen: map<ReplicaId, Seen>,
    online: map<Bytes, bool>,
    // History: every replica id ever handed out.
    issued: set<ReplicaId>)

  // ---------------------------------------------------------------- the transactions

  /** project_phase_from_observed_facts. */
  function Project(s: State, id: ReplicaId): Phase
    requires id in s.replicas
  {
    var r := s.replicas[id];
    if r.phase == Deleted then Deleted
    else if r.phase == Deleting then
      if id in s.seen && s.seen[id].noExist then Deleted else Deleting
    else if r.phase == Error then Error
    else if r.node !in s.online then r.phase
    else if !s.online[r.node] then Lost
    else if r.phase == Lost then Creating
    else if id !in s.seen then r.phase
    else match s.seen[id].status
      case Initializing => Creating
      case Recovering => Creating
      case Serving => Ready
      case Faulted => Error
  }

  /** One pass of the phase reconciler over all replicas. */
  function PhasePass(s: State): State {
    s.(replicas := map id | id in s.replicas :: s.replicas[id].(phase := Project(s, id)))
  }

  /** The phase agrees with what is observed of the replica and its node. */
  ghost predicate Reflects(s: State, id: ReplicaId)
    requires id in s.replicas
  {
    var r := s.replicas[id];
    match r.phase
    case Deleted => true
    case Error => true
    case Deleting => id in s.seen ==> !s.seen[id].noExist
    case _ =>
      r.node in s.online ==>
        && (r.phase == Lost <==> !s.online[r.node])
        && (s.online[r.node] && id in s.seen ==>
              s.seen[id].status != Faulted && (r.phase == Ready <==> s.seen[id].status == Serving))
  }

  /** While observations stay the same, two passes bring every phase into agreement with them, and
      further passes change nothing. */
  lemma PhasesSettle(s: State)
    ensures var s2 := PhasePass(PhasePass(s));
            PhasePass(s2) == s2 && forall id :: id in s2.replicas ==> Reflects(s2, id)
  {
    var s1 := PhasePass(s);
    var s2 := PhasePass(s1);
    forall id | id in s.replicas
      ensures Project(s2, id) == s2.replicas[id].phase && Reflects(s2, id)
    {
      assert s1.replicas[id] == s.replicas[id].(phase := Project(s, id));
      assert s2.replicas[id] == s1.replicas[id].(phase := Project(s1, id));
    }
    assert PhasePass(s2).replicas == s2.replicas;
  }

  predicate IsPresent(s: State, table: int) { table in s.tables && s.tables[table].phase == Present }

  /** ensure_group_for_shard. */
  function EnsureGroup(s: State, shard: ShardId): State {
    if !IsPresent(s, shard.tableId) then s
    else
      var target := s.tables[shard.tableId].target;
      if shard !in s.groups then s.(groups := s.groups[shard := Group([], target, Bootstrap, 0)])
      else s.(groups := s.groups[shard := s.groups[shard].(target := target)])
  }

  function ShardReplicas(s: State, shard: ShardId): set<ReplicaId> {
    set id | id in s.replicas && ShardOf(id) == shard
  }

  /** reconcile_absent_table, for one shard of a table that is being dropped. */
  function PlanAbsent(s: State, shard: ShardId): State {
    if shard.tableId !in s.tables || s.tables[shard.tableId].phase != Dropping || shard !in s.groups then s
    else
      var g := s.groups[shard];
      if g.target != 0 then s.(groups := s.groups[shard := g.(target := 0)])
      else if g.members == [] && ShardReplicas(s, shard) == {} then s.(groups := s.groups - {shard})
      else s
  }

  function NewId(shard: ShardId, n: int): ReplicaId { ReplicaId(shard.tableId, shard.shardIndex, n) }

  /** add_members, one node after the other. */
  function AddMembers(s: State, shard: ShardId, nodes: seq<Bytes>): State
    decreases |nodes|
  {
    if nodes == [] || shard !in s.groups || s.groups[shard].target <= 0 then s
    else AddMembers(AddOne(s, shard, nodes[0]), shard, nodes[1..])
  }

  function AddOne(s: State, shard: ShardId, node: Bytes): State
    requires shard in s.groups
  {
    var g := s.groups[shard];
    var id := NewId(shard, g.nextSeq);
    s.(groups := s.groups[shard := g.(members := g.members + [id], nextSeq := g.nextSeq + 1)],
       replicas := s.replicas[id := Replica(node, Creating)],
       seen := s.seen[id := Seen(Initializing, false, false)],
       issued := s.issued + {id})
  }

  function Kept(members: seq<ReplicaId>, victims: seq<ReplicaId>): seq<ReplicaId> {
    if members == [] then []
    else (if members[0] in victims then [] else [members[0]]) + Kept(members[1..], victims)
  }

  function Marked(replicas: map<ReplicaId, Replica>, victims: seq<ReplicaId>): map<ReplicaId, Replica> {
    map id | id in replicas ::
      if id in victims && !IsAbsent(replicas[id].phase) then replicas[id].(phase := Deleting) else replicas[id]
  }

  /** retire_members: the victims leave the group and are marked, in one transaction, unless none of
      them is a member. */
  function Retire(s: State, shard: ShardId, victims: seq<ReplicaId>): State {
    if shard !in s.groups then s
    else
      var g := s.groups[shard];
      var kept := Kept(g.members, victims);
      if |kept| == |g.members| then s
      else s.(groups := s.groups[shard := g.(members := kept)], replicas := Marked(s.replicas, victims))
  }

  predicate OfShard(shard: ShardId, ids: seq<ReplicaId>) {
    forall id | id in ids :: ShardOf(id) == shard
  }

  predicate AllReady(s: State, g: Group) {
    g.members != [] && forall id | id in g.members ::
      id in s.replicas && s.replicas[id].phase == Ready && id in s.seen && s.seen[id].voter
  }

  /** cleanup_group: records of deleted replicas go, and the mode follows the group's state. */
  function Cleanup(s: State, shard: ShardId): State {
    if shard !in s.groups then s
    else
      var gone := set id | id in s.replicas && ShardOf(id) == shard && s.replicas[id].phase == Deleted;
      var s1 := s.(replicas := s.replicas - gone, seen := s.seen - gone);
      var g := s.groups[shard];
      if g.mode == RaftReconfig then
        if g.target == 0 then s1.(groups := s.groups[shard := g.(mode := Bootstrap)]) else s1
      else if |g.members| == g.target && AllReady(s1, g) then s1.(groups := s.groups[shard := g.(mode := RaftReconfig)])
      else s1
  }

  datatype Step =
    | CreateTable(target: int)
    | DropTable(table: int)
    | FinishDrop(table: int)
    | Resize(table: int, target: int)
    | Ensure(shard: ShardId)
    | Plan(shard: ShardId)
    | Add(shard: ShardId, nodes: seq<Bytes>)
    | Remove(shard: ShardId, victims: seq<ReplicaId>)
    | CleanUp(shard: ShardId)
    | Phases
    | Heartbeat(id: ReplicaId, seen: Seen)
    | NodeStatus(node: Bytes, up: bool)
    | Restart

  function Exec(s: State, step: Step): State {
    match step
    case CreateTable(target) => s.(tables := s.tables[s.nextTable := TableState(Present, target)],
      nextTable := s.nextTable + 1)
    case DropTable(t) =>
      if t in s.tables && s.tables[t].phase == Present
      then s.(tables := s.tables[t := s.tables[t].(phase := Dropping)])
      else s
    case FinishDrop(t) =>
      if t in s.tables && s.tables[t].phase == Dropping
      then s.(tables := s.tables[t := s.tables[t].(phase := Dropped)])
      else s
    case Resize(t, target) =>
      if t in s.tables && s.tables[t].phase == Present
      then s.(tables := s.tables[t := s.tables[t].(target := target)])
      else s
    case Ensure(shard) => EnsureGroup(s, shard)
    case Plan(shard) => PlanAbsent(s, shard)
    case Add(shard, nodes) => AddMembers(s, shard, nodes)
    // Victims are chosen among the group's members, but at an earlier moment.
    case Remove(shard, victims) => if OfShard(shard, victims) then Retire(s, shard, victims) else s
    case CleanUp(shard) => Cleanup(s, shard)
    case Phases => PhasePass(s)
    case Heartbeat(id, seen) => if id in s.replicas then s.(seen := s.seen[id := seen]) else s
    case NodeStatus(node, up) => s.(online := s.online[node := up])
    // What is only observed is lost with the process.
    case Restart => s.(seen := map[], online := map[])
  }

  function Run(s: State, steps: seq<Step>): State
    decreases |steps|
  {
    if steps == [] then s else Run(Exec(s, steps[0]), steps[1..])
  }

  // ---------------------------------------------------------------- what every step keeps

  ghost predicate Distinct(ids: seq<ReplicaId>) {
    forall i, j :: 0 <= i < j < |ids| ==> ids[i] != ids[j]
  }

  ghost predicate MemberOk(replicas: map<ReplicaId, Replica>, shard: ShardId, id: ReplicaId) {
    ShardOf(id) == shard && id in replicas && !IsAbsent(replicas[id].phase)
  }

  /** Members are distinct, and each has a record that is not on its way out. */
  ghost predicate GroupOk(s: State, shard: ShardId) {
    shard in s.groups ==>
      && Distinct(s.groups[shard].members) && shard.tableId < s.nextTable
      && forall id :: id in s.groups[shard].members ==> MemberOk(s.replicas, shard, id)
  }

  /** An id handed out is below its group's next number, or its group is gone for good. */
  ghost predicate IssuedOk(s: State, id: ReplicaId) {
    id in s.issued ==>
      && id.tableId < s.nextTable
      && if ShardOf(id) in s.groups then id.replicaSeq < s.groups[ShardOf(id)].nextSeq else !IsPresent(s, id.tableId)
  }

  /** A record belongs to a group, as that of a member or of a replica on its way out. */
  ghost predicate RecordOk(s: State, id: ReplicaId) {
    id in s.replicas ==>
      && ShardOf(id) in s.groups
      && (id in s.groups[ShardOf(id)].members || IsAbsent(s.replicas[id].phase))
  }

  ghost predicate Inv(s: State) {
    && (forall id :: RecordOk(s, id))
    && (forall shard :: GroupOk(s, shard))
    && (forall id :: IssuedOk(s, id))
    && (forall id :: id in s.replicas ==> id in s.issued)
    && (forall t :: t in s.tables ==> t < s.nextTable)
  }

  /** The two last phases are never left while the record exists. */
  ghost predicate PhaseLater(a: State, b: State, id: ReplicaId) {
    id in a.replicas && id in b.replicas ==>
      && (a.replicas[id].phase == Deleting ==> IsAbsent(b.replicas[id].phase))
      && (a.replicas[id].phase == Deleted ==> b.replicas[id].phase == Deleted)
  }

  /** A record appears only with an id that was never handed out before. */
  ghost predicate FreshRecord(a: State, b: State, id: ReplicaId) {
    id in b.replicas && id !in a.replicas ==> id !in a.issued
  }

  /** How a state may look later in a run. */
  ghost predicate Later(a: State, b: State) {
    && a.issued <= b.issued
    && (forall id :: PhaseLater(a, b, id))
    && (forall id :: FreshRecord(a, b, id))
  }

  /** One transaction: besides, a record goes only if it was in the last phase. */
  ghost predicate StepOk(a: State, b: State) {
    Later(a, b) && forall id :: id in a.replicas && id !in b.replicas ==> a.replicas[id].phase == Deleted
  }

  lemma NothingNew(s: State, s': State)
    requires Inv(s) && s'.groups == s.groups && s'.replicas == s.replicas && s'.issued == s.issued
    requires s'.nextTable >= s.nextTable && forall t :: t in s'.tables ==> t < s'.nextTable
    requires forall t :: t < s.nextTable && IsPresent(s', t) ==> IsPresent(s, t)
    ensures Inv(s') && StepOk(s, s')
  {
    forall shard ensures GroupOk(s', shard) { assert GroupOk(s, shard); }
    forall id ensures IssuedOk(s', id) && RecordOk(s', id) { assert IssuedOk(s, id) && RecordOk(s, id); }
  }

  /** Changing groups only: members stay, numbers do not fall. */
  lemma GroupChange(s: State, shard: ShardId, g: Group)
    requires Inv(s) && shard in s.groups && g.members == s.groups[shard].members && g.nextSeq == s.groups[shard].nextSeq
    ensures Inv(s.(groups := s.groups[shard := g])) && StepOk(s, s.(groups := s.groups[shard := g]))
  {
    var s' := s.(groups := s.groups[shard := g]);
    forall sh ensures GroupOk(s', sh) { assert GroupOk(s, sh); }
    forall id ensures IssuedOk(s', id) && RecordOk(s', id) { assert IssuedOk(s, id) && RecordOk(s, id); }
  }

  lemma EnsureKeeps(s: State, shard: ShardId)
    requires Inv(s)
    ensures Inv(EnsureGroup(s, shard)) && StepOk(s, EnsureGroup(s, shard))
  {
    var s' := EnsureGroup(s, shard);
    if shard in s.groups {
      if s' != s { GroupChange(s, shard, s.groups[shard].(target := s.tables[shard.tableId].target)); }
    } else {
      forall sh ensures GroupOk(s', sh) { assert GroupOk(s, sh); }
      forall id ensures IssuedOk(s', id) && RecordOk(s', id) { assert IssuedOk(s, id) && RecordOk(s, id); }
    }
  }

  lemma PlanKeeps(s: State, shard: ShardId)
    requires Inv(s)
    ensures Inv(PlanAbsent(s, shard)) && StepOk(s, PlanAbsent(s, shard))
  {
    var s' := PlanAbsent(s, shard);
    if shard in s.groups && shard in s'.groups {
      if s' != s { GroupChange(s, shard, s.groups[shard].(target := 0)); }
    } else {
      forall sh ensures GroupOk(s', sh) { assert GroupOk(s, sh); }
      forall id ensures IssuedOk(s', id) && RecordOk(s', id) {
        assert IssuedOk(s, id) && RecordOk(s, id);
        assert id in s.replicas && ShardOf(id) == shard ==> id in ShardReplicas(s, shard);
      }
    }
  }

  /** A new number has never been used: neither the group nor its predecessors handed it out. */
  lemma NewIdIsFresh(s: State, shard: ShardId)
    requires Inv(s) && shard in s.groups
    ensures NewId(shard, s.groups[shard].nextSeq) !in s.issued
  {
    assert IssuedOk(s, NewId(shard, s.groups[shard].nextSeq));
  }

  lemma AddOneKeeps(s: State, shard: ShardId, node: Bytes)
    requires Inv(s) && shard in s.groups
    ensures Inv(AddOne(s, shard, node)) && StepOk(s, AddOne(s, shard, node))
  {
    var s' := AddOne(s, shard, node);
    NewIdIsFresh(s, shard);
    forall sh ensures GroupOk(s', sh) { AddOneGroup(s, shard, node, sh); }
    forall i ensures IssuedOk(s', i) && RecordOk(s', i) {
      assert IssuedOk(s, i) && RecordOk(s, i) && GroupOk(s, shard);
    }
  }

  lemma AddOneGroup(s: State, shard: ShardId, node: Bytes, sh: ShardId)
    requires Inv(s) && shard in s.groups
    ensures GroupOk(AddOne(s, shard, node), sh)
  {
    var s' := AddOne(s, shard, node);
    var id := NewId(shard, s.groups[shard].nextSeq);
    NewIdIsFresh(s, shard);
    assert GroupOk(s, sh);
    if sh in s.groups {
      forall m | m in s.groups[sh].members ensures m != id && MemberOk(s'.replicas, sh, m) {
        assert MemberOk(s.replicas, sh, m);
      }
      if sh == shard {
        assert s'.groups[sh].members == s.groups[sh].members + [id];
        assert MemberOk(s'.replicas, sh, id);
      }
    }
  }

  lemma {:induction false} AddKeeps(s: State, shard: ShardId, nodes: seq<Bytes>)
    requires Inv(s)
    ensures Inv(AddMembers(s, shard, nodes)) && StepOk(s, AddMembers(s, shard, nodes))
    ensures s.replicas.Keys <= AddMembers(s, shard, nodes).replicas.Keys
    decreases |nodes|
  {
    if nodes != [] && shard in s.groups && s.groups[shard].target > 0 {
      var s1 := AddOne(s, shard, nodes[0]);
      AddOneKeeps(s, shard, nodes[0]);
      AddKeeps(s1, shard, nodes[1..]);
      LaterTwice(s, s1, AddMembers(s1, shard, nodes[1..]));
    }
  }

  lemma LaterTwice(a: State, b: State, c: State)
    requires Later(a, b) && Later(b, c) && forall id :: id in a.replicas ==> id in a.issued
    ensures Later(a, c)
  {
    forall id ensures PhaseLater(a, c, id) && FreshRecord(a, c, id) {
      assert PhaseLater(a, b, id) && PhaseLater(b, c, id) && FreshRecord(a, b, id) && FreshRecord(b, c, id);
    }
  }

  lemma {:induction false} KeptIs(members: seq<ReplicaId>, victims: seq<ReplicaId>)
    requires Distinct(members)
    ensures Distinct(Kept(members, victims))
    ensures forall id :: id in Kept(members, victims) <==> id in members && id !in victims
    decreases |members|
  {
    if members != [] {
      KeptIs(members[1..], victims);
      assert members == [members[0]] + members[1..];
      var rest := Kept(members[1..], victims);
      forall j | 0 <= j < |rest| ensures rest[j] != members[0] {
        assert rest[j] in members[1..];
      }
    }
  }

  /** The members of the group among the victims have left it and are on their way out; nobody else is touched, and
      nothing is if there is no such member. */
  ghost predicate Retired(s: State, s': State, shard: ShardId, victims: seq<ReplicaId>) {
    && (shard in s.groups ==>
          && shard in s'.groups
          && (forall id :: id in s'.groups[shard].members <==> id in s.groups[shard].members && id !in victims)
          && (forall id :: id in s.groups[shard].members && id in victims && id in s.replicas ==>
                id in s'.replicas && IsAbsent(s'.replicas[id].phase)))
    && (forall id :: id in s.replicas && id !in victims ==> id in s'.replicas && s'.replicas[id] == s.replicas[id])
    && ((shard !in s.groups || forall id :: id in s.groups[shard].members ==> id !in victims) ==> s' == s)
  }

  lemma RetireMarks(s: State, shard: ShardId, victims: seq<ReplicaId>)
    ensures Retired(s, Retire(s, shard, victims), shard, victims)
  {
    if shard in s.groups {
      KeptAll(s.groups[shard].members, victims);
    }
  }

  /** Keeping as many as there were means that none of them is a victim. */
  lemma {:induction false} KeptAll(members: seq<ReplicaId>, victims: seq<ReplicaId>)
    ensures |Kept(members, victims)| <= |members|
    ensures forall id :: id in Kept(members, victims) <==> id in members && id !in victims
    ensures |Kept(members, victims)| == |members| <==> forall id :: id in members ==> id !in victims
    decreases |members|
  {
    if members != [] {
      KeptAll(members[1..], victims);
      assert members == [members[0]] + members[1..];
    }
  }

  lemma RetireKeeps(s: State, shard: ShardId, victims: seq<ReplicaId>)
    requires Inv(s) && OfShard(shard, victims)
    ensures Inv(Retire(s, shard, victims)) && StepOk(s, Retire(s, shard, victims))
    ensures Retired(s, Retire(s, shard, victims), shard, victims)
  {
    var s' := Retire(s, shard, victims);
    RetireMarks(s, shard, victims);
    forall sh ensures GroupOk(s', sh) { RetireGroup(s, shard, victims, sh); }
    forall id ensures IssuedOk(s', id) && RecordOk(s', id) {
      assert IssuedOk(s, id);
      RetireRecord(s, shard, victims, id);
    }
  }

  /** A member that leaves is marked. */
  lemma RetireRecord(s: State, shard: ShardId, victims: seq<ReplicaId>, id: ReplicaId)
    requires Inv(s) && OfShard(shard, victims)
    ensures RecordOk(Retire(s, shard, victims), id)
  {
    assert RecordOk(s, id) && GroupOk(s, shard);
    if shard in s.groups { KeptIs(s.groups[shard].members, victims); }
  }

  lemma RetireGroup(s: State, shard: ShardId, victims: seq<ReplicaId>, sh: ShardId)
    requires Inv(s) && OfShard(shard, victims)
    ensures GroupOk(Retire(s, shard, victims), sh)
  {
    var s' := Retire(s, shard, victims);
    assert GroupOk(s, sh);
    if sh in s'.groups && s' != s {
      assert GroupOk(s, shard);
      KeptIs(s.groups[shard].members, victims);
      forall id | id in s'.groups[sh].members ensures MemberOk(s'.replicas, sh, id) {
        assert id in s.groups[sh].members && MemberOk(s.replicas, sh, id);
        assert id !in victims;
      }
    }
  }

  lemma DropDeleted(s: State, gone: set<ReplicaId>)
    requires Inv(s) && forall id :: id in gone ==> id in s.replicas && s.replicas[id].phase == Deleted
    ensures var s' := s.(replicas := s.replicas - gone, seen := s.seen - gone); Inv(s') && StepOk(s, s')
  {
    var s' := s.(replicas := s.replicas - gone, seen := s.seen - gone);
    forall sh ensures GroupOk(s', sh) {
      assert GroupOk(s, sh);
      if sh in s'.groups {
        forall id | id in s'.groups[sh].members ensures MemberOk(s'.replicas, sh, id) {
          assert MemberOk(s.replicas, sh, id);
        }
      }
    }
    forall id ensures IssuedOk(s', id) && RecordOk(s', id) { assert IssuedOk(s, id) && RecordOk(s, id); }
  }

  lemma CleanupKeeps(s: State, shard: ShardId)
    requires Inv(s)
    ensures Inv(Cleanup(s, shard)) && StepOk(s, Cleanup(s, shard))
  {
    var gone := set id | id in s.replicas && ShardOf(id) == shard && s.replicas[id].phase == Deleted;
    var s1 := s.(replicas := s.replicas - gone, seen := s.seen - gone);
    var s' := Cleanup(s, shard);
    if shard in s.groups {
      DropDeleted(s, gone);
      if s' != s1 {
        GroupChange(s1, shard, s'.groups[shard]);
        LaterTwice(s, s1, s');
      }
    } else {
      NothingNew(s, s);
    }
  }

  lemma PhasesKeep(s: State)
    requires Inv(s)
    ensures Inv(PhasePass(s)) && StepOk(s, PhasePass(s))
  {
    var s' := PhasePass(s);
    forall sh ensures GroupOk(s', sh) {
      assert GroupOk(s, sh);
      if sh in s'.groups {
        forall id | id in s'.groups[sh].members ensures MemberOk(s'.replicas, sh, id) {
          assert MemberOk(s.replicas, sh, id);
        }
      }
    }
    forall id ensures IssuedOk(s', id) && RecordOk(s', id) { assert IssuedOk(s, id) && RecordOk(s, id); }
  }

  lemma StepKeeps(s: State, step: Step)
    requires Inv(s)
    ensures Inv(Exec(s, step)) && StepOk(s, Exec(s, step))
  {
    match step
    case Ensure(shard) => EnsureKeeps(s, shard);
    case Plan(shard) => PlanKeeps(s, shard);
    case Add(shard, nodes) => AddKeeps(s, shard, nodes);
    case Remove(shard, victims) =>
      if OfShard(shard, victims) { RetireKeeps(s, shard, victims); } else { NothingNew(s, s); }
    case CleanUp(shard) => CleanupKeeps(s, shard);
    case Phases => PhasesKeep(s);
    case _ => NothingNew(s, Exec(s, step));
  }

  // ---------------------------------------------------------------- over whole runs

  function Start(): State { State(map[], 0, map[], map[], map[], map[], {}) }

  lemma {:induction false} RunKeeps(s: State, steps: seq<Step>)
    requires Inv(s)
    ensures Inv(Run(s, steps)) && Later(s, Run(s, steps))
    decreases |steps|
  {
    if steps == [] {
      NothingNew(s, s);
    } else {
      var s1 := Exec(s, steps[0]);
      StepKeeps(s, steps[0]);
      RunKeeps(s1, steps[1..]);
      LaterTwice(s, s1, Run(s1, steps[1..]));
    }
  }

  lemma StartInv()
    ensures Inv(Start())
  {
  }

  /** In every reachable state the members of a group are distinct and have records that are neither
      being deleted nor deleted. */
  lemma MembersAreAlive(steps: seq<Step>, shard: ShardId)
    requires shard in Run(Start(), steps).groups
    ensures var s := Run(Start(), steps);
            Distinct(s.groups[shard].members)
              && forall id :: id in s.groups[shard].members ==> MemberOk(s.replicas, shard, id)
  {
    StartInv();
    RunKeeps(Start(), steps);
    assert GroupOk(Run(Start(), steps), shard);
  }

  /** The converse: in every reachable state every record belongs to a group that exists, and is that of a
      member or of a replica that is being deleted or deleted. */
  lemma NobodyIsForgotten(steps: seq<Step>, id: ReplicaId)
    requires id in Run(Start(), steps).replicas
    ensures var s := Run(Start(), steps);
            && ShardOf(id) in s.groups
            && (id in s.groups[ShardOf(id)].members <==> !IsAbsent(s.replicas[id].phase))
  {
    StartInv();
    RunKeeps(Start(), steps);
    var s := Run(Start(), steps);
    assert RecordOk(s, id) && GroupOk(s, ShardOf(id));
  }

  /** Whatever happens afterwards, a replica on its way out stays on its way out, and once its record
      is gone its id is never seen again. */
  lemma NoWayBack(before: seq<Step>, after: seq<Step>, id: ReplicaId)
    requires id in Run(Start(), before).replicas
    ensures var a := Run(Start(), before);
            var b := Run(a, after);
            && (IsAbsent(a.replicas[id].phase) && id in b.replicas ==> IsAbsent(b.replicas[id].phase))
            && (a.replicas[id].phase == Deleted && id in b.replicas ==> b.replicas[id].phase == Deleted)
            && (id !in b.replicas ==> forall more :: id !in Run(b, more).replicas)
  {
    StartInv();
    RunKeeps(Start(), before);
    var a := Run(Start(), before);
    RunKeeps(a, after);
    var b := Run(a, after);
    assert PhaseLater(a, b, id);
    if id !in b.replicas {
      forall more ensures id !in Run(b, more).replicas {
        RunKeeps(b, more);
        assert FreshRecord(b, Run(b, more), id);
      }
    }
  }

  /** Ids are never handed out twice: adding n members adds n ids to all those ever handed out. */
  lemma {:induction false} NeverIssuedTwice(s: State, shard: ShardId, nodes: seq<Bytes>)
    requires Inv(s) && shard in s.groups && s.groups[shard].target > 0
    ensures |AddMembers(s, shard, nodes).issued| == |s.issued| + |nodes|
    decreases |nodes|
  {
    if nodes != [] {
      NewIdIsFresh(s, shard);
      AddOneKeeps(s, shard, nodes[0]);
      NeverIssuedTwice(AddOne(s, shard, nodes[0]), shard, nodes[1..]);
    }
  }

  // ---------------------------------------------------------------- the transactions, in place

  class Reconciler {
    var s: State

    constructor ()
      ensures s == Start() && Inv(s)
    {
      s := Start();
      new;
      StartInv();
    }

    method AddReplicas(shard: ShardId, nodes: seq<Bytes>)
      modifies this
      ensures s == AddMembers(old(s), shard, nodes)
    {
      if shard !in s.groups || s.groups[shard].target <= 0 {
        return;
      }
      for k := 0 to |nodes|
        invariant shard in s.groups && s.groups[shard].target > 0
        invariant AddMembers(s, shard, nodes[k..]) == AddMembers(old(s), shard, nodes)
      {
        assert nodes[k..][0] == nodes[k] && nodes[k..][1..] == nodes[k + 1..];
        var g := s.groups[shard];
        var id := NewId(shard, g.nextSeq);
        s := s.(groups := s.groups[shard := g.(members := g.members + [id], nextSeq := g.nextSeq + 1)],
                replicas := s.replicas[id := Replica(nodes[k], Creating)],
                seen := s.seen[id := Seen(Initializing, false, false)],
                issued := s.issued + {id});
      }
    }

    method RetireMembers(shard: ShardId, victims: seq<ReplicaId>)
      modifies this
      ensures s == Retire(old(s), shard, victims) && Retired(old(s), s, shard, victims)
    {
      RetireMarks(s, shard, victims);
      if shard !in s.groups {
        return;
      }
      var g := s.groups[shard];
      var kept := KeepMembers(g.members, victims);
      if |kept| == |g.members| {
        return;
      }
      var replicas := MarkReplicas(s.replicas, victims);
      s := s.(groups := s.groups[shard := g.(members := kept)], replicas := replicas);
    }

    /** The pass writes phases back one by one; each depends only on its own record and on what has
        been observed, so the order of the list does not matter. */
    method ReconcilePhases(order: seq<ReplicaId>)
      requires (forall id :: id in s.replicas <==> id in order)
               && forall i, j :: 0 <= i < j < |order| ==> order[i] != order[j]
      modifies this
      ensures s == PhasePass(old(s))
    {
      var replicas := s.replicas;
      assert PassedOver(s, order[..0]) == s.replicas;
      for k := 0 to |order|
        invariant s == old(s) && replicas == PassedOver(s, order[..k])
      {
        PassedMore(s, order, k);
        replicas := replicas[order[k] := s.replicas[order[k]].(phase := Project(s, order[k]))];
      }
      PassedAll(s, order);
      s := s.(replicas := replicas);
    }
  }

  method KeepMembers(members: seq<ReplicaId>, victims: seq<ReplicaId>) returns (kept: seq<ReplicaId>)
    ensures kept == Kept(members, victims)
  {
    kept := [];
    for k := 0 to |members|
      invariant kept == Kept(members[..k], victims)
    {
      KeptMore(members, k, victims);
      if members[k] !in victims {
        kept := kept + [members[k]];
      }
    }
    assert members[..|members|] == members;
  }

  method MarkReplicas(start: map<ReplicaId, Replica>, victims: seq<ReplicaId>)
    returns (replicas: map<ReplicaId, Replica>)
    ensures replicas == Marked(start, victims)
  {
    replicas := start;
    assert Marked(start, victims[..0]) == start;
    for k := 0 to |victims|
      invariant replicas == Marked(start, victims[..k])
    {
      assert victims[..k + 1] == victims[..k] + [victims[k]];
      var id := victims[k];
      if id in replicas && !IsAbsent(replicas[id].phase) {
        replicas := replicas[id := replicas[id].(phase := Deleting)];
      }
    }
    assert victims[..|victims|] == victims;
  }

  lemma PassedMore(s: State, order: seq<ReplicaId>, k: nat)
    requires k < |order| && forall id :: id in s.replicas <==> id in order
    ensures order[k] in s.replicas
    ensures PassedOver(s, order[..k + 1])
            == PassedOver(s, order[..k])[order[k] := s.replicas[order[k]].(phase := Project(s, order[k]))]
  {
    assert order[..k + 1] == order[..k] + [order[k]];
    assert order[k] in order;
  }

  lemma PassedAll(s: State, order: seq<ReplicaId>)
    requires forall id :: id in s.replicas <==> id in order
    ensures PassedOver(s, order[..|order|]) == PhasePass(s).replicas
  {
    assert order[..|order|] == order;
  }

  /** The records after the pass has dealt with these replicas. */
  function PassedOver(s: State, ids: seq<ReplicaId>): map<ReplicaId, Replica> {
    map id | id in s.replicas :: if id in ids then s.replicas[id].(phase := Project(s, id)) else s.replicas[id]
  }

  lemma KeptMore(members: seq<ReplicaId>, k: nat, victims: seq<ReplicaId>)
    requires k < |members|
    ensures Kept(members[..k + 1], victims)
            == Kept(members[..k], victims) + if members[k] in victims then [] else [members[k]]
    decreases k
  {
    if k == 0 {
      assert members[..1] == [members[0]] && members[..0] == [];
    } else {
      assert members[..k + 1][1..] == members[1..][..k] && members[..k][1..] == members[1..][..k - 1];
      KeptMore(members[1..], k - 1, victims);
    }
  }
}
