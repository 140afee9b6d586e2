/** Transactions of the meta store: copy-on-write records with incrementally kept indexes
    (src/meta/store/meta_index.cpp, src/meta/store/meta_store_txn.cpp, src/meta/store/meta_store.cpp). */
module MetaStore {
  import opened Types
  import opened MetaIndex

  datatype Data = Data(databases: map<int, Database>, tables: map<int, Table>, nodes: map<Bytes, Node>,
                       replicas: map<ReplicaId, Assignment>)

  /** The five index maps. */
  datatype Index = Index(tableNames: map<TableName, int>, dbNames: map<Bytes, int>, poolNodes: map<Bytes, set<Bytes>>,
                         shardReplicas: map<ShardId, set<ReplicaId>>, nodeReplicas: map<Bytes, set<ReplicaId>>)

  const EMPTY_INDEX := Index(map[], map[], map[], map[], map[])

  function LiveNames(tables: map<int, Table>): map<int, TableName> {
    map id | id in tables && !tables[id].deleted :: NameOf(tables[id])
  }

  function DbNames(databases: map<int, Database>): map<int, Bytes> { map id | id in databases :: databases[id].name }

  function PoolsOf(nodes: map<Bytes, Node>): map<Bytes, Bytes> { map id | id in nodes :: nodes[id].pool }

  function ShardsOf(replicas: map<ReplicaId, Assignment>): map<ReplicaId, ShardId> {
    map id | id in replicas :: ShardOf(id)
  }

  function NodesOf(replicas: map<ReplicaId, Assignment>): map<ReplicaId, Bytes> {
    map id | id in replicas && replicas[id].node != [] :: replicas[id].node
  }

  ghost predicate TablesIndexed(d: Data, x: Index) { ExactNames(x.tableNames, LiveNames(d.tables)) }

  ghost predicate DbsIndexed(d: Data, x: Index) { ExactNames(x.dbNames, DbNames(d.databases)) }

  ghost predicate NodesIndexed(d: Data, x: Index) { Exact(x.poolNodes, PoolsOf(d.nodes)) }

  ghost predicate ForReplicas(x: Index, replicas: map<ReplicaId, Assignment>) {
    Exact(x.shardReplicas, ShardsOf(replicas)) && Exact(x.nodeReplicas, NodesOf(replicas))
  }

  ghost predicate ReplicasIndexed(d: Data, x: Index) { ForReplicas(x, d.replicas) }

  predicate SameOtherwise(x: Index, y: Index) {
    x.tableNames == y.tableNames && x.dbNames == y.dbNames && x.poolNodes == y.poolNodes
  }

  /** All five maps are what the records determine. */
  ghost predicate Indexed(d: Data, x: Index) {
    TablesIndexed(d, x) && DbsIndexed(d, x) && NodesIndexed(d, x) && ReplicasIndexed(d, x)
  }

  /** Only one index belongs to given records: an incrementally kept index and a rebuilt one are equal. */
  lemma IndexIsDetermined(d: Data, a: Index, b: Index)
    requires Indexed(d, a) && Indexed(d, b)
    ensures a == b
  {
    ExactNamesIsUnique(a.tableNames, b.tableNames, LiveNames(d.tables));
    ExactNamesIsUnique(a.dbNames, b.dbNames, DbNames(d.databases));
    ExactIsUnique(a.poolNodes, b.poolNodes, PoolsOf(d.nodes));
    ExactIsUnique(a.shardReplicas, b.shardReplicas, ShardsOf(d.replicas));
    ExactIsUnique(a.nodeReplicas, b.nodeReplicas, NodesOf(d.replicas));
  }

  // ---------------------------------------------------------------- when an operation keeps the index exact

  function OldName(d: Data, id: int): Option<TableName> {
    if id in d.tables then Some(NameOf(d.tables[id])) else None
  }

  function LiveName(t: Table): Option<TableName> { if t.deleted then None else Some(NameOf(t)) }

  /** The name a table gives up is not another live table's, nor is the name it takes. */
  ghost predicate MayPutTable(d: Data, id: int, t: Table) {
    && (id in d.tables ==> Free(LiveNames(d.tables), id, NameOf(d.tables[id])))
    && (!t.deleted ==> Free(LiveNames(d.tables), id, NameOf(t)))
  }

  ghost predicate MayPutDatabase(d: Data, id: int, db: Database) { Free(DbNames(d.databases), id, db.name) }

  // ---------------------------------------------------------------- transactions

  class MetaStoreTxn {
    var data: Data
    var index: Index
    var dirty: bool

    constructor (data: Data, index: Index)
      ensures this.data == data && this.index == index && !dirty
    {
      this.data, this.index, dirty := data, index, false;
    }

    method OnTableUpsert(was: Option<Table>, id: int, t: Table)
      modifies this`index
      ensures index == old(index).(tableNames :=
                Renamed(old(index.tableNames), if was.Some? then Some(NameOf(was.value)) else None, LiveName(t), id))
    {
      if was.Some? {
        index := index.(tableNames := index.tableNames - {NameOf(was.value)});
      }
      if t.deleted {
        return;
      }
      index := index.(tableNames := index.tableNames[NameOf(t) := id]);
    }

    /** put_table keeps the index exact if and only if MayPutTable held before. */
    method PutTable(id: int, t: Table)
      requires Indexed(data, index)
      modifies this
      ensures data == old(data).(tables := old(data.tables)[id := t]) && dirty
      ensures Indexed(data, index) <==> MayPutTable(old(data), id, t)
    {
      var was := if id in data.tables then Some(data.tables[id]) else None;
      ghost var d, x := data, index;
      data := data.(tables := data.tables[id := t]);
      OnTableUpsert(was, id, t);
      dirty := true;
      assert LiveNames(data.tables) == NamesAfter(LiveNames(d.tables), LiveName(t), id);
      RenamedIsExact(x.tableNames, LiveNames(d.tables), OldName(d, id), LiveName(t), id);
    }

    /** Dropping a table takes its name out, whoever it belongs to by now. */
    method DeleteTable(id: int)
      requires Indexed(data, index)
      modifies this
      ensures data == old(data).(tables := old(data.tables) - {id})
      ensures dirty == (old(dirty) || id in old(data.tables))
      ensures Indexed(data, index) <==>
              (id in old(data.tables) ==> Free(LiveNames(old(data.tables)), id, NameOf(old(data.tables)[id])))
    {
      if id !in data.tables {
        assert data.tables - {id} == data.tables;
        return;
      }
      ghost var d, x := data, index;
      var was := data.tables[id];
      data := data.(tables := data.tables - {id});
      index := index.(tableNames := index.tableNames - {NameOf(was)});
      dirty := true;
      assert LiveNames(data.tables) == NamesAfter(LiveNames(d.tables), None, id);
      RenamedIsExact(x.tableNames, LiveNames(d.tables), Some(NameOf(was)), None, id);
    }

    method PutDatabase(id: int, db: Database)
      requires Indexed(data, index)
      modifies this
      ensures data == old(data).(databases := old(data.databases)[id := db]) && dirty
      ensures Indexed(data, index) <==> MayPutDatabase(old(data), id, db)
    {
      ghost var d, x := data, index;
      if id in data.databases {
        index := index.(dbNames := index.dbNames - {data.databases[id].name});
      }
      index := index.(dbNames := index.dbNames[db.name := id]);
      data := data.(databases := data.databases[id := db]);
      dirty := true;
      var was := if id in d.databases then Some(d.databases[id].name) else None;
      assert DbNames(data.databases) == NamesAfter(DbNames(d.databases), Some(db.name), id);
      RenamedIsExact(x.dbNames, DbNames(d.databases), was, Some(db.name), id);
      if was.Some? { UniqueName(x.dbNames, DbNames(d.databases), id); }
    }

    method DeleteDatabase(id: int)
      requires Indexed(data, index)
      modifies this
      ensures Indexed(data, index) && data == old(data).(databases := old(data.databases) - {id})
      ensures dirty == (old(dirty) || id in old(data.databases))
    {
      if id !in data.databases {
        assert data.databases - {id} == data.databases;
        return;
      }
      ghost var d, x := data, index;
      index := index.(dbNames := index.dbNames - {data.databases[id].name});
      data := data.(databases := data.databases - {id});
      dirty := true;
      assert DbNames(data.databases) == NamesAfter(DbNames(d.databases), None, id);
      RenamedIsExact(x.dbNames, DbNames(d.databases), Some(d.databases[id].name), None, id);
      UniqueName(x.dbNames, DbNames(d.databases), id);
    }

    method PutNode(id: Bytes, node: Node)
      requires Indexed(data, index)
      modifies this
      ensures Indexed(data, index) && data == old(data).(nodes := old(data.nodes)[id := node]) && dirty == old(dirty)
    {
      NodeMoves(index.poolNodes, data.nodes, id, node);
      if id in data.nodes {
        index := index.(poolNodes := Erased(index.poolNodes, data.nodes[id].pool, id));
      }
      index := index.(poolNodes := Inserted(index.poolNodes, node.pool, id));
      data := data.(nodes := data.nodes[id := node]);
    }

    method OnReplicaDelete(id: ReplicaId, was: Assignment)
      modifies this`index
      ensures index == old(index).(shardReplicas := Erased(old(index.shardReplicas), ShardOf(id), id),
                                   nodeReplicas := if was.node == [] then old(index.nodeReplicas)
                                                   else Erased(old(index.nodeReplicas), was.node, id))
    {
      index := index.(shardReplicas := Erased(index.shardReplicas, ShardOf(id), id));
      if was.node != [] {
        index := index.(nodeReplicas := Erased(index.nodeReplicas, was.node, id));
      }
    }

    /** on_replica_upsert; `replicas` are the records the index was exact for. */
    method OnReplicaUpsert(ghost replicas: map<ReplicaId, Assignment>, was: Option<Assignment>, id: ReplicaId,
                           a: Assignment)
      requires ForReplicas(index, replicas) && was == Lookup(replicas, id)
      modifies this`index
      ensures ForReplicas(index, replicas[id := a]) && SameOtherwise(index, old(index))
    {
      ghost var without := replicas - {id};
      if was.Some? {
        EraseReplica(index, replicas, id);
        OnReplicaDelete(id, was.value);
      }
      assert replicas[id := a] == without[id := a];
      assert was.None? ==> without == replicas;
      InsertReplica(index, without, id, a);
      index := index.(shardReplicas := Inserted(index.shardReplicas, ShardOf(id), id));
      if a.node != [] {
        index := index.(nodeReplicas := Inserted(index.nodeReplicas, a.node, id));
      }
    }

    method PutReplica(id: ReplicaId, a: Assignment)
      requires Indexed(data, index)
      modifies this
      ensures Indexed(data, index) && data == old(data).(replicas := old(data.replicas)[id := a]) && dirty
    {
      var was := Lookup(data.replicas, id);
      OnReplicaUpsert(data.replicas, was, id, a);
      data := data.(replicas := data.replicas[id := a]);
      dirty := true;
    }

    method DeleteReplica(id: ReplicaId)
      requires Indexed(data, index)
      modifies this
      ensures Indexed(data, index) && data == old(data).(replicas := old(data.replicas) - {id})
      ensures dirty == (old(dirty) || id in old(data.replicas))
    {
      if id !in data.replicas {
        assert data.replicas - {id} == data.replicas;
        return;
      }
      EraseReplica(index, data.replicas, id);
      OnReplicaDelete(id, data.replicas[id]);
      data := data.(replicas := data.replicas - {id});
      dirty := true;
    }

    method LookupAll(batch: seq<(ReplicaId, Assignment)>) returns (olds: seq<Option<Assignment>>)
      ensures |olds| == |batch| && forall j :: 0 <= j < |batch| ==> olds[j] == Lookup(data.replicas, batch[j].0)
    {
      olds := [];
      for k := 0 to |batch|
        invariant |olds| == k && forall j :: 0 <= j < k ==> olds[j] == Lookup(data.replicas, batch[j].0)
      {
        olds := olds + [Lookup(data.replicas, batch[k].0)];
      }
    }

    method WriteAll(batch: seq<(ReplicaId, Assignment)>)
      modifies this`data
      ensures data == old(data).(replicas := PutFirst(old(data.replicas), batch, |batch|))
    {
      for k := 0 to |batch|
        invariant data == old(data).(replicas := PutFirst(old(data.replicas), batch, k))
      {
        data := data.(replicas := data.replicas[batch[k].0 := batch[k].1]);
      }
    }

    method IndexAll(ghost start: map<ReplicaId, Assignment>, batch: seq<(ReplicaId, Assignment)>,
                    olds: seq<Option<Assignment>>)
      requires DistinctReplicas(batch) && |olds| == |batch| && ForReplicas(index, start)
      requires forall j :: 0 <= j < |batch| ==> olds[j] == Lookup(start, batch[j].0)
      modifies this`index
      ensures ForReplicas(index, PutFirst(start, batch, |batch|)) && SameOtherwise(index, old(index))
    {
      ghost var now := start;
      for k := 0 to |batch|
        invariant ForReplicas(index, now) && SameOtherwise(index, old(index)) && now == PutFirst(start, batch, k)
      {
        PutFirstElsewhere(start, batch, k, batch[k].0);
        OnReplicaUpsert(now, olds[k], batch[k].0, batch[k].1);
        now := now[batch[k].0 := batch[k].1];
      }
    }

    /** put_replicas looks all old records up before it writes any, which is right for a batch that
        names each replica once. */
    method PutReplicas(batch: seq<(ReplicaId, Assignment)>)
      requires Indexed(data, index) && DistinctReplicas(batch)
      modifies this
      ensures Indexed(data, index) && data == old(data).(replicas := PutFirst(old(data.replicas), batch, |batch|))
      ensures dirty == (old(dirty) || batch != [])
    {
      var olds := LookupAll(batch);
      WriteAll(batch);
      IndexAll(old(data.replicas), batch, olds);
      if batch != [] { dirty := true; }
    }
  }

  function Lookup(replicas: map<ReplicaId, Assignment>, id: ReplicaId): Option<Assignment> {
    if id in replicas then Some(replicas[id]) else None
  }

  function PutFirst(replicas: map<ReplicaId, Assignment>, batch: seq<(ReplicaId, Assignment)>,
                    n: nat): map<ReplicaId, Assignment>
    requires n <= |batch|
  {
    if n == 0 then replicas else PutFirst(replicas, batch, n - 1)[batch[n - 1].0 := batch[n - 1].1]
  }

  ghost predicate DistinctReplicas(batch: seq<(ReplicaId, Assignment)>) {
    forall i, j :: 0 <= i < j < |batch| ==> batch[i].0 != batch[j].0
  }

  lemma {:induction false} PutFirstElsewhere(replicas: map<ReplicaId, Assignment>,
                                             batch: seq<(ReplicaId, Assignment)>, n: nat, id: ReplicaId)
    requires n <= |batch| && forall k :: 0 <= k < n ==> batch[k].0 != id
    ensures Lookup(PutFirst(replicas, batch, n), id) == Lookup(replicas, id)
  {
    if n > 0 { PutFirstElsewhere(replicas, batch, n - 1, id); }
  }

  lemma NodeMoves(index: map<Bytes, set<Bytes>>, nodes: map<Bytes, Node>, id: Bytes, node: Node)
    requires Exact(index, PoolsOf(nodes))
    ensures var index' := if id in nodes then Erased(index, nodes[id].pool, id) else index;
            Exact(Inserted(index', node.pool, id), PoolsOf(nodes[id := node]))
  {
    var pools := PoolsOf(nodes);
    if id in nodes {
      ErasedIsExact(index, pools, id);
      InsertedIsExact(Erased(index, nodes[id].pool, id), pools - {id}, node.pool, id);
      assert PoolsOf(nodes[id := node]) == (pools - {id})[id := node.pool];
    } else {
      InsertedIsExact(index, pools, node.pool, id);
      assert PoolsOf(nodes[id := node]) == pools[id := node.pool];
    }
  }

  lemma EraseReplica(x: Index, replicas: map<ReplicaId, Assignment>, id: ReplicaId)
    requires Exact(x.shardReplicas, ShardsOf(replicas)) && Exact(x.nodeReplicas, NodesOf(replicas)) && id in replicas
    ensures Exact(Erased(x.shardReplicas, ShardOf(id), id), ShardsOf(replicas - {id}))
    ensures var node := replicas[id].node;
            Exact(if node == [] then x.nodeReplicas else Erased(x.nodeReplicas, node, id), NodesOf(replicas - {id}))
  {
    ErasedIsExact(x.shardReplicas, ShardsOf(replicas), id);
    assert ShardsOf(replicas - {id}) == ShardsOf(replicas) - {id};
    if replicas[id].node == [] {
      assert NodesOf(replicas - {id}) == NodesOf(replicas);
    } else {
      ErasedIsExact(x.nodeReplicas, NodesOf(replicas), id);
      assert NodesOf(replicas - {id}) == NodesOf(replicas) - {id};
    }
  }

  lemma InsertReplica(x: Index, replicas: map<ReplicaId, Assignment>, id: ReplicaId, a: Assignment)
    requires Exact(x.shardReplicas, ShardsOf(replicas)) && Exact(x.nodeReplicas, NodesOf(replicas)) && id !in replicas
    ensures Exact(Inserted(x.shardReplicas, ShardOf(id), id), ShardsOf(replicas[id := a]))
    ensures Exact(if a.node == [] then x.nodeReplicas else Inserted(x.nodeReplicas, a.node, id),
                  NodesOf(replicas[id := a]))
  {
    InsertedIsExact(x.shardReplicas, ShardsOf(replicas), ShardOf(id), id);
    assert ShardsOf(replicas[id := a]) == ShardsOf(replicas)[id := ShardOf(id)];
    if a.node == [] {
      assert NodesOf(replicas[id := a]) == NodesOf(replicas);
    } else {
      InsertedIsExact(x.nodeReplicas, NodesOf(replicas), a.node, id);
      assert NodesOf(replicas[id := a]) == NodesOf(replicas)[id := a.node];
    }
  }

  lemma UniqueName<N(!new), V(!new)>(index: map<N, V>, nameOf: map<V, N>, v: V)
    requires ExactNames(index, nameOf) && v in nameOf
    ensures Free(nameOf, v, nameOf[v])
  {
    forall u | u in nameOf && u != v ensures nameOf[u] != nameOf[v] {
      assert index[nameOf[u]] == u && index[nameOf[v]] == v;
    }
  }

  // ---------------------------------------------------------------- whole transactions

  datatype Op =
    | OpPutDatabase(dbId: int, db: Database)
    | OpDeleteDatabase(dbId: int)
    | OpPutTable(tableId: int, table: Table)
    | OpDeleteTable(tableId: int)
    | OpPutNode(nodeId: Bytes, node: Node)
    | OpPutReplicas(batch: seq<(ReplicaId, Assignment)>)
    | OpDeleteReplica(replicaId: ReplicaId)

  function Effect(d: Data, op: Op): Data {
    match op
    case OpPutDatabase(id, db) => d.(databases := d.databases[id := db])
    case OpDeleteDatabase(id) => d.(databases := d.databases - {id})
    case OpPutTable(id, t) => d.(tables := d.tables[id := t])
    case OpDeleteTable(id) => d.(tables := d.tables - {id})
    case OpPutNode(id, node) => d.(nodes := d.nodes[id := node])
    case OpPutReplicas(batch) => d.(replicas := PutFirst(d.replicas, batch, |batch|))
    case OpDeleteReplica(id) => d.(replicas := d.replicas - {id})
  }

  /** What the callers of the store see to: names are unique among live records, a name given up by a
      dead table is not in use, and a batch names each replica once. */
  ghost predicate Allowed(d: Data, op: Op) {
    match op
    case OpPutDatabase(id, db) => MayPutDatabase(d, id, db)
    case OpPutTable(id, t) => MayPutTable(d, id, t)
    case OpDeleteTable(id) => id in d.tables ==> Free(LiveNames(d.tables), id, NameOf(d.tables[id]))
    case OpPutReplicas(batch) => DistinctReplicas(batch)
    case _ => true
  }

  ghost predicate AllowedAll(d: Data, ops: seq<Op>)
    decreases |ops|
  {
    ops == [] || (Allowed(d, ops[0]) && AllowedAll(Effect(d, ops[0]), ops[1..]))
  }

  function EffectAll(d: Data, ops: seq<Op>): Data
    decreases |ops|
  {
    if ops == [] then d else EffectAll(Effect(d, ops[0]), ops[1..])
  }

  /** The operation writes to a record that has to survive a restart; nodes do not. */
  predicate Touches(d: Data, op: Op) {
    match op
    case OpPutDatabase(_, _) => true
    case OpDeleteDatabase(id) => id in d.databases
    case OpPutTable(_, _) => true
    case OpDeleteTable(id) => id in d.tables
    case OpPutNode(_, _) => false
    case OpPutReplicas(batch) => batch != []
    case OpDeleteReplica(id) => id in d.replicas
  }

  predicate TouchesAny(d: Data, ops: seq<Op>)
    decreases |ops|
  {
    ops != [] && (Touches(d, ops[0]) || TouchesAny(Effect(d, ops[0]), ops[1..]))
  }

  /** A transaction that touches nothing durable leaves everything durable as it was. */
  lemma {:induction false} UntouchedIsSame(d: Data, ops: seq<Op>)
    requires !TouchesAny(d, ops)
    ensures EffectAll(d, ops) == d.(nodes := EffectAll(d, ops).nodes)
    decreases |ops|
  {
    if ops != [] {
      var d1 := Effect(d, ops[0]);
      assert d.databases - {} == d.databases && d1 == d.(nodes := d1.nodes);
      UntouchedIsSame(d1, ops[1..]);
    }
  }

  method Perform(txn: MetaStoreTxn, op: Op)
    requires Indexed(txn.data, txn.index) && Allowed(txn.data, op)
    modifies txn
    ensures Indexed(txn.data, txn.index) && txn.data == Effect(old(txn.data), op)
    ensures txn.dirty == (old(txn.dirty) || Touches(old(txn.data), op))
  {
    match op {
      case OpPutDatabase(id, db) => txn.PutDatabase(id, db);
      case OpDeleteDatabase(id) => txn.DeleteDatabase(id);
      case OpPutTable(id, t) => txn.PutTable(id, t);
      case OpDeleteTable(id) => txn.DeleteTable(id);
      case OpPutNode(id, node) => txn.PutNode(id, node);
      case OpPutReplicas(batch) => txn.PutReplicas(batch);
      case OpDeleteReplica(id) => txn.DeleteReplica(id);
    }
  }

  class Store {
    var data: Data
    var index: Index

    ghost predicate Valid()
      reads this
    {
      Indexed(data, index)
    }

    constructor ()
      ensures Valid() && data == Data(map[], map[], map[], map[])
    {
      data, index := Data(map[], map[], map[], map[]), EMPTY_INDEX;
    }

    /** write_with: a transaction is published as a whole, with an index that is exact again, or not
        at all. */
    method WriteWith(ops: seq<Op>, succeeds: bool, persists: bool) returns (ok: bool)
      requires Valid() && AllowedAll(data, ops)
      modifies this
      ensures Valid() && data == if ok then EffectAll(old(data), ops) else old(data)
      ensures ok <==> succeeds && (persists || !TouchesAny(old(data), ops))
      // What is durable changes only if it has been saved.
      ensures data == old(data).(nodes := data.nodes) || persists
    {
      var txn := new MetaStoreTxn(data, index);
      for k := 0 to |ops|
        invariant Valid() && data == old(data)
        invariant Indexed(txn.data, txn.index) && AllowedAll(txn.data, ops[k..])
        invariant EffectAll(txn.data, ops[k..]) == EffectAll(old(data), ops)
        invariant (txn.dirty || TouchesAny(txn.data, ops[k..])) == TouchesAny(old(data), ops)
      {
        assert ops[k..][0] == ops[k] && ops[k..][1..] == ops[k + 1..];
        Perform(txn, ops[k]);
      }
      if !succeeds {
        return false;
      }
      if txn.dirty && !persists {
        return false;
      }
      if !txn.dirty { UntouchedIsSame(data, ops); }
      data, index := txn.data, txn.index;
      ok := true;
    }
  }

  // ---------------------------------------------------------------- rebuilding

  /** The keys of a map in the order in which it is walked. */
  ghost predicate Walks<K(!new)>(order: seq<K>, keys: set<K>) {
    && (forall i, j :: 0 <= i < j < |order| ==> order[i] != order[j])
    && (forall k :: k in keys <==> k in order)
  }

  ghost predicate UniqueNames<N(!new), V(!new)>(nameOf: map<V, N>) {
    forall u, v :: u in nameOf && v in nameOf && nameOf[u] == nameOf[v] ==> u == v
  }

  /** The first n of the walked keys that have a name. */
  function Part<K, N>(order: seq<K>, nameOf: map<K, N>, n: nat): map<K, N>
    requires n <= |order|
  {
    map k | k in nameOf && k in order[..n] :: nameOf[k]
  }

  lemma PartGrows<K(!new), N(!new)>(order: seq<K>, nameOf: map<K, N>, n: nat)
    requires n < |order| && forall i, j :: 0 <= i < j < |order| ==> order[i] != order[j]
    ensures var k := order[n];
            k !in Part(order, nameOf, n)
            && Part(order, nameOf, n + 1)
               == if k in nameOf then Part(order, nameOf, n)[k := nameOf[k]] else Part(order, nameOf, n)
  {
    assert order[..n + 1] == order[..n] + [order[n]];
  }

  lemma PartWhole<K(!new), N(!new)>(order: seq<K>, nameOf: map<K, N>)
    requires forall k :: k in nameOf ==> k in order
    ensures Part(order, nameOf, |order|) == nameOf
  {
    assert order[..|order|] == order;
  }

  /** Every name is found, and what it leads to has that name. */
  ghost predicate Resolves<N(!new), V(!new)>(index: map<N, V>, nameOf: map<V, N>) {
    && (forall v :: v in nameOf ==> nameOf[v] in index)
    && (forall n :: n in index ==> index[n] in nameOf && nameOf[index[n]] == n)
  }

  lemma ResolvesMore<N(!new), V(!new)>(index: map<N, V>, nameOf: map<V, N>, v: V, n: N)
    requires Resolves(index, nameOf) && v !in nameOf
    ensures Resolves(index[n := v], nameOf[v := n])
  {
  }

  /** A name that is shared leads to only one of its owners, so the index is exact only without such names. */
  lemma ExactIfUnique<N(!new), V(!new)>(index: map<N, V>, nameOf: map<V, N>)
    requires Resolves(index, nameOf)
    ensures ExactNames(index, nameOf) <==> UniqueNames(nameOf)
  {
    if UniqueNames(nameOf) {
      forall v | v in nameOf ensures index[nameOf[v]] == v { assert nameOf[index[nameOf[v]]] == nameOf[v]; }
    }
  }

  method IndexTables(tables: map<int, Table>, order: seq<int>) returns (names: map<TableName, int>)
    requires Walks(order, tables.Keys)
    ensures Resolves(names, LiveNames(tables))
  {
    names := map[];
    for n := 0 to |order|
      invariant Resolves(names, Part(order, LiveNames(tables), n))
    {
      var t := tables[order[n]];
      PartGrows(order, LiveNames(tables), n);
      if !t.deleted {
        ResolvesMore(names, Part(order, LiveNames(tables), n), order[n], NameOf(t));
        names := names[NameOf(t) := order[n]];
      }
    }
    PartWhole(order, LiveNames(tables));
  }

  method IndexDatabases(databases: map<int, Database>, order: seq<int>) returns (names: map<Bytes, int>)
    requires Walks(order, databases.Keys)
    ensures Resolves(names, DbNames(databases))
  {
    names := map[];
    for n := 0 to |order|
      invariant Resolves(names, Part(order, DbNames(databases), n))
    {
      PartGrows(order, DbNames(databases), n);
      ResolvesMore(names, Part(order, DbNames(databases), n), order[n], databases[order[n]].name);
      names := names[databases[order[n]].name := order[n]];
    }
    PartWhole(order, DbNames(databases));
  }

  method IndexSets<K(==, !new), V(==, !new)>(keyOf: map<V, K>, order: seq<V>) returns (index: map<K, set<V>>)
    requires (forall i, j :: 0 <= i < j < |order| ==> order[i] != order[j]) && forall v :: v in keyOf ==> v in order
    ensures Exact(index, keyOf)
  {
    index := map[];
    for n := 0 to |order|
      invariant Exact(index, Part(order, keyOf, n))
    {
      PartGrows(order, keyOf, n);
      if order[n] in keyOf {
        InsertedIsExact(index, Part(order, keyOf, n), keyOf[order[n]], order[n]);
        index := Inserted(index, keyOf[order[n]], order[n]);
      }
    }
    PartWhole(order, keyOf);
  }

  /** rebuild_index: in whatever order the records are walked, every name resolves, and the result is the
      exact index if and only if no name is shared. */
  method RebuildIndex(d: Data, dbs: seq<int>, tables: seq<int>, nodes: seq<Bytes>, replicas: seq<ReplicaId>)
    returns (x: Index)
    requires Walks(dbs, d.databases.Keys) && Walks(tables, d.tables.Keys)
    requires Walks(nodes, d.nodes.Keys) && Walks(replicas, d.replicas.Keys)
    ensures Resolves(x.tableNames, LiveNames(d.tables)) && Resolves(x.dbNames, DbNames(d.databases))
    ensures Indexed(d, x) <==> UniqueNames(LiveNames(d.tables)) && UniqueNames(DbNames(d.databases))
  {
    var dbNames := IndexDatabases(d.databases, dbs);
    var tableNames := IndexTables(d.tables, tables);
    var pools := IndexSets(PoolsOf(d.nodes), nodes);
    var shards := IndexSets(ShardsOf(d.replicas), replicas);
    var onNodes := IndexSets(NodesOf(d.replicas), replicas);
    x := Index(tableNames, dbNames, pools, shards, onNodes);
    ExactIfUnique(x.tableNames, LiveNames(d.tables));
    ExactIfUnique(x.dbNames, DbNames(d.databases));
  }

  // ---------------------------------------------------------------- why the conditions are needed

  /** Writing a dead table again after its name has been given away takes the name from its owner. */
  lemma DeadTableTakesName()
    ensures exists d: Data, x: Index, id: int, t: Table ::
              Indexed(d, x) && UniqueNames(LiveNames(d.tables[id := t])) && id in d.tables && d.tables[id] == t
              && !MayPutTable(d, id, t)
  {
    var dead, live := Table([1], [1], true), Table([1], [1], false);
    var d := Data(map[], map[1 := dead, 2 := live], map[], map[]);
    var x := EMPTY_INDEX.(tableNames := map[NameOf(live) := 2]);
    assert LiveNames(d.tables) == map[2 := NameOf(live)];
    assert LiveNames(d.tables)[2] == NameOf(dead);
    assert d.tables[1 := dead] == d.tables;
    assert ExactNames(x.tableNames, LiveNames(d.tables));
    assert Exact(x.poolNodes, PoolsOf(d.nodes)) && ForReplicas(x, d.replicas) && DbsIndexed(d, x);
    assert Indexed(d, x) && !MayPutTable(d, 1, dead);
  }
}
