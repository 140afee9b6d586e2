/** The meta server's records and the indexes kept beside them
    (src/meta/store/meta_index.cpp, src/meta/store/meta_store_txn.cpp, src/meta/store/meta_store.cpp). */
module MetaIndex {
  import opened Types

  datatype Database = Database(name: Bytes)

  datatype Table = Table(db: Bytes, name: Bytes, deleted: bool)

  datatype Node = Node(pool: Bytes)

  /** The node a replica is assigned to; empty while there is none. */
  datatype Assignment = Assignment(node: Bytes)

  datatype TableName = TableName(db: Bytes, name: Bytes)

  datatype ShardId = ShardId(tableId: int, shardIndex: int)

  function NameOf(t: Table): TableName { TableName(t.db, t.name) }

  function ShardOf(id: ReplicaId): ShardId { ShardId(id.tableId, id.shardIndex) }

  // ---------------------------------------------------------------- indexes from a key to a set

  /** An index is exact for an assignment of keys to values: it holds the assigned pairs and no empty
      sets, so there is only one exact index. */
  ghost predicate Exact<K(!new), V(!new)>(index: map<K, set<V>>, keyOf: map<V, K>) {
    && (forall k :: k in index ==> index[k] != {})
    && (forall k, v :: Listed(index, k, v) ==> v in keyOf && keyOf[v] == k)
    && (forall v :: v in keyOf ==> Listed(index, keyOf[v], v))
  }

  ghost predicate Listed<K(!new), V(!new)>(index: map<K, set<V>>, k: K, v: V) { k in index && v in index[k] }

  lemma ExactIsUnique<K(!new), V(!new)>(a: map<K, set<V>>, b: map<K, set<V>>, keyOf: map<V, K>)
    requires Exact(a, keyOf) && Exact(b, keyOf)
    ensures a == b
  {
    forall k ensures k in a <==> k in b {
      SameKeys(a, b, keyOf, k);
      SameKeys(b, a, keyOf, k);
    }
    forall k | k in a ensures a[k] == b[k] {
      forall v ensures v in a[k] <==> v in b[k] {
        assert v in a[k] ==> Listed(a, k, v);
        assert v in b[k] ==> Listed(b, k, v);
        if v in keyOf { assert Listed(a, keyOf[v], v) && Listed(b, keyOf[v], v); }
      }
    }
  }

  lemma SameKeys<K(!new), V(!new)>(a: map<K, set<V>>, b: map<K, set<V>>, keyOf: map<V, K>, k: K)
    requires Exact(a, keyOf) && Exact(b, keyOf)
    ensures k in a ==> k in b
  {
    if k in a {
      var v :| v in a[k];
      assert Listed(a, k, v);
      assert Listed(b, keyOf[v], v);
    }
  }

  /** erase and cleanup_empty_*_set. */
  function Erased<K, V>(index: map<K, set<V>>, k: K, v: V): map<K, set<V>> {
    if k !in index then index
    else if index[k] - {v} == {} then index - {k}
    else index[k := index[k] - {v}]
  }

  function Inserted<K, V>(index: map<K, set<V>>, k: K, v: V): map<K, set<V>> {
    index[k := (if k in index then index[k] else {}) + {v}]
  }

  lemma ErasedIsExact<K(!new), V(!new)>(index: map<K, set<V>>, keyOf: map<V, K>, v: V)
    requires Exact(index, keyOf) && v in keyOf
    ensures Exact(Erased(index, keyOf[v], v), keyOf - {v})
  {
    var k := keyOf[v];
    var index' := Erased(index, k, v);
    forall j, u ensures Listed(index', j, u) <==> Listed(index, j, u) && u != v {
      if u == v && Listed(index, j, u) { assert j == k; }
      if j == k && Listed(index, k, u) && u != v { assert u in index[k] - {v}; }
    }
  }

  lemma InsertedIsExact<K(!new), V(!new)>(index: map<K, set<V>>, keyOf: map<V, K>, k: K, v: V)
    requires Exact(index, keyOf) && v !in keyOf
    ensures Exact(Inserted(index, k, v), keyOf[v := k])
  {
    var index' := Inserted(index, k, v);
    forall j, u ensures Listed(index', j, u) <==> Listed(index, j, u) || (j == k && u == v) {}
  }

  // ---------------------------------------------------------------- indexes from a unique name

  /** A name index is exact: every live record is found under its name, and nothing else is. */
  ghost predicate ExactNames<N(!new), V(!new)>(index: map<N, V>, nameOf: map<V, N>) {
    && (forall v :: v in nameOf ==> nameOf[v] in index && index[nameOf[v]] == v)
    && (forall n :: n in index ==> index[n] in nameOf && nameOf[index[n]] == n)
  }

  lemma ExactNamesIsUnique<N(!new), V(!new)>(a: map<N, V>, b: map<N, V>, nameOf: map<V, N>)
    requires ExactNames(a, nameOf) && ExactNames(b, nameOf)
    ensures a == b
  {
    forall n | n in a ensures n in b && a[n] == b[n] { assert nameOf[a[n]] == n; }
    forall n | n in b ensures n in a { assert nameOf[b[n]] == n; }
  }

  /** Nobody else has this name. */
  ghost predicate Free<N(!new), V(!new)>(nameOf: map<V, N>, v: V, n: N) {
    forall u :: u in nameOf && u != v ==> nameOf[u] != n
  }

  /** What an upsert does to a name index: drop the old record's name, then enter the new one unless
      the record is dead. */
  function Renamed<N, V>(index: map<N, V>, was: Option<N>, becomes: Option<N>, v: V): map<N, V> {
    var dropped := if was.Some? then index - {was.value} else index;
    if becomes.Some? then dropped[becomes.value := v] else dropped
  }

  function NamesAfter<N, V>(nameOf: map<V, N>, becomes: Option<N>, v: V): map<V, N> {
    if becomes.Some? then nameOf[v := becomes.value] else nameOf - {v}
  }

  /** An upsert keeps a name index exact if and only if the new name is not in use and the old name,
      which is dropped even when the old record was dead, has not been given to somebody else. */
  lemma RenamedIsExact<N(!new), V(!new)>(index: map<N, V>, nameOf: map<V, N>, was: Option<N>, becomes: Option<N>, v: V)
    requires ExactNames(index, nameOf) && (v in nameOf ==> was == Some(nameOf[v]))
    ensures ExactNames(Renamed(index, was, becomes, v), NamesAfter(nameOf, becomes, v)) <==>
            (was.Some? ==> Free(nameOf, v, was.value)) && (becomes.Some? ==> Free(nameOf, v, becomes.value))
  {
    var index', names := Renamed(index, was, becomes, v), NamesAfter(nameOf, becomes, v);
    if ExactNames(index', names) {
      forall u | u in nameOf && u != v
        ensures (was.Some? ==> nameOf[u] != was.value) && (becomes.Some? ==> nameOf[u] != becomes.value)
      {
        assert u in names && names[u] == nameOf[u];
        assert index'[nameOf[u]] == u;
      }
    } else {
    }
  }
}
