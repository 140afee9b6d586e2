/** Choosing nodes for the replicas of a table, spread over data centres
    (src/meta/placement/node_selector.cpp). */
module Placement {
  import opened Types

  datatype Node = Node(id: Bytes, dc: Bytes, ip: Bytes, port: int, online: bool)

  datatype View = View(node: Node, owned: int)

  /** The order of node ids; any strict total order will do. */
  type Order = (Bytes, Bytes) -> bool

  ghost predicate StrictTotal(less: Order) {
    && (forall a, b, c :: less(a, b) && less(b, c) ==> less(a, c))
    && (forall a, b :: less(a, b) ==> !less(b, a))
    && (forall a, b :: a == b || less(a, b) || less(b, a))
  }

  predicate IsValid(n: Node) { n.ip != [] && n.port > 0 && n.online }

  predicate Eligible(n: Node, excluded: set<Bytes>) { IsValid(n) && n.id !in excluded }

  function CountOf(counts: map<Bytes, int>, dc: Bytes): int { if dc in counts then counts[dc] else 0 }

  /** better_candidate: fewer selected in its data centre, then fewer replicas, then the smaller id. */
  predicate Better(less: Order, a: View, b: View, counts: map<Bytes, int>) {
    var ca, cb := CountOf(counts, a.node.dc), CountOf(counts, b.node.dc);
    if ca != cb then ca < cb
    else if a.owned != b.owned then a.owned < b.owned
    else less(a.node.id, b.node.id)
  }

  lemma BetterIsTransitive(less: Order, a: View, b: View, c: View, counts: map<Bytes, int>)
    requires StrictTotal(less) && !Better(less, a, b, counts) && Better(less, c, b, counts)
    ensures !Better(less, a, c, counts)
  {
    if a.node.id == b.node.id || less(a.node.id, b.node.id) || less(b.node.id, a.node.id) {}
    if a.node.id == c.node.id || less(a.node.id, c.node.id) || less(c.node.id, a.node.id) {}
  }

  /** The best unselected candidate, or None if all are selected. */
  method SelectOne(less: Order, views: seq<View>, selected: set<Bytes>, counts: map<Bytes, int>)
    returns (best: Option<nat>)
    requires StrictTotal(less)
    ensures best.None? <==> forall k :: 0 <= k < |views| ==> views[k].node.id in selected
    ensures best.Some? ==> best.value < |views| && views[best.value].node.id !in selected
    ensures best.Some? ==> forall k :: 0 <= k < |views| && views[k].node.id !in selected ==>
                             !Better(less, views[k], views[best.value], counts)
  {
    best := None;
    for i := 0 to |views|
      invariant best.None? <==> forall k :: 0 <= k < i ==> views[k].node.id in selected
      invariant best.Some? ==> best.value < i && views[best.value].node.id !in selected
      invariant best.Some? ==> forall k :: 0 <= k < i && views[k].node.id !in selected ==>
                                 !Better(less, views[k], views[best.value], counts)
    {
      if views[i].node.id !in selected {
        if best.None? || Better(less, views[i], views[best.value], counts) {
          if best.Some? {
            forall k | 0 <= k < i && views[k].node.id !in selected ensures !Better(less, views[k], views[i], counts) {
              BetterIsTransitive(less, views[k], views[best.value], views[i], counts);
            }
          }
          best := Some(i);
        }
      }
    }
  }

  // ---------------------------------------------------------------- the spread over data centres

  /** The chosen positions in one data centre. */
  function InDc(nodes: seq<Node>, chosen: set<nat>, dc: Bytes): set<nat> {
    set k | k in chosen && k < |nodes| && nodes[k].dc == dc
  }

  ghost predicate Counts(nodes: seq<Node>, chosen: set<nat>, counts: map<Bytes, int>) {
    forall dc :: CountOf(counts, dc) == |InDc(nodes, chosen, dc)|
  }

  /** A data centre from which more could have been chosen has at most one less than any other. */
  ghost predicate Spread(nodes: seq<Node>, chosen: set<nat>) {
    forall k, dc :: 0 <= k < |nodes| && k !in chosen ==> SpreadAt(nodes, chosen, k, dc)
  }

  ghost predicate SpreadAt(nodes: seq<Node>, chosen: set<nat>, k: nat, dc: Bytes)
    requires k < |nodes|
  {
    |InDc(nodes, chosen, dc)| <= |InDc(nodes, chosen, nodes[k].dc)| + 1
  }

  lemma InDcOneMore(nodes: seq<Node>, chosen: set<nat>, k: nat, dc: Bytes)
    requires k < |nodes| && k !in chosen
    ensures |InDc(nodes, chosen + {k}, dc)| == |InDc(nodes, chosen, dc)| + if nodes[k].dc == dc then 1 else 0
  {
    var before, after := InDc(nodes, chosen, dc), InDc(nodes, chosen + {k}, dc);
    if nodes[k].dc == dc {
      assert after == before + {k};
    } else {
      assert after == before;
    }
  }

  lemma CountsOneMore(nodes: seq<Node>, chosen: set<nat>, counts: map<Bytes, int>, k: nat)
    requires Counts(nodes, chosen, counts) && k < |nodes| && k !in chosen
    ensures Counts(nodes, chosen + {k}, counts[nodes[k].dc := CountOf(counts, nodes[k].dc) + 1])
  {
    forall d ensures CountOf(counts[nodes[k].dc := CountOf(counts, nodes[k].dc) + 1], d)
           == |InDc(nodes, chosen + {k}, d)| {
      InDcOneMore(nodes, chosen, k, d);
    }
  }

  /** Choosing in a data centre with the fewest chosen, among those that have a candidate left. */
  lemma SpreadOneMore(nodes: seq<Node>, chosen: set<nat>, k: nat)
    requires Spread(nodes, chosen) && k < |nodes| && k !in chosen
    requires forall j :: 0 <= j < |nodes| && j !in chosen ==>
               |InDc(nodes, chosen, nodes[k].dc)| <= |InDc(nodes, chosen, nodes[j].dc)|
    ensures Spread(nodes, chosen + {k})
  {
    forall j, d | 0 <= j < |nodes| && j !in chosen + {k} ensures SpreadAt(nodes, chosen + {k}, j, d) {
      assert SpreadAt(nodes, chosen, j, d);
      InDcOneMore(nodes, chosen, k, d);
      InDcOneMore(nodes, chosen, k, nodes[j].dc);
    }
  }

  // ---------------------------------------------------------------- one shard

  ghost predicate ViewsOf(views: seq<View>, nodes: seq<Node>) {
    |views| == |nodes| && forall k :: 0 <= k < |views| ==> views[k].node == nodes[k]
  }

  ghost predicate DistinctNodes(nodes: seq<Node>) {
    forall i, j :: 0 <= i < j < |nodes| ==> nodes[i].id != nodes[j].id
  }

  /** What a shard is given: that many different positions, spread over the data centres. */
  ghost predicate GoodPlacement(nodes: seq<Node>, chosen: seq<nat>, count: int) {
    && |chosen| == count
    && (forall i :: 0 <= i < |chosen| ==> chosen[i] < |nodes|)
    && (forall i, j :: 0 <= i < j < |chosen| ==> chosen[i] != chosen[j])
    && Spread(nodes, Positions(chosen))
  }

  function Positions(chosen: seq<nat>): set<nat> { set k | k in chosen }

  lemma {:induction false} PositionsSize(chosen: seq<nat>)
    requires forall i, j :: 0 <= i < j < |chosen| ==> chosen[i] != chosen[j]
    ensures |Positions(chosen)| == |chosen|
    decreases |chosen|
  {
    if chosen != [] {
      var n := |chosen| - 1;
      var rest := chosen[..n];
      PositionsSize(rest);
      assert chosen == rest + [chosen[n]];
      assert Positions(chosen) == Positions(rest) + {chosen[n]};
      assert chosen[n] !in Positions(rest);
    }
  }

  function Below(n: nat): set<nat> { if n == 0 then {} else Below(n - 1) + {n - 1} }

  lemma {:induction false} BelowSize(n: nat)
    ensures |Below(n)| == n && forall k: nat :: k in Below(n) <==> k < n
  {
    if n > 0 { BelowSize(n - 1); }
  }

  /** If everything is chosen, there are as many chosen positions as nodes. */
  lemma AllChosen(nodes: seq<Node>, chosen: seq<nat>)
    requires (forall i :: 0 <= i < |chosen| ==> chosen[i] < |nodes|)
    requires forall i, j :: 0 <= i < j < |chosen| ==> chosen[i] != chosen[j]
    ensures |chosen| <= |nodes|
    ensures Below(|nodes|) <= Positions(chosen) ==> |chosen| == |nodes|
  {
    PositionsSize(chosen);
    BelowSize(|nodes|);
    SubsetSize(Positions(chosen), Below(|nodes|));
    if Below(|nodes|) <= Positions(chosen) { assert Positions(chosen) == Below(|nodes|); }
  }

  lemma {:induction false} SubsetSize(a: set<nat>, b: set<nat>)
    requires a <= b
    ensures |a| <= |b|
  {
    assert b == a + (b - a);
    assert |b| == |a| + |b - a|;
  }

  /** The views after k has been given another replica. */
  function Loaded(views: seq<View>, k: nat): seq<View>
    requires k < |views|
  {
    views[k := views[k].(owned := views[k].owned + 1)]
  }

  /** The views after all these positions have been given another replica. */
  function LoadedAll(views: seq<View>, chosen: seq<nat>): (r: seq<View>)
    requires forall i :: 0 <= i < |chosen| ==> chosen[i] < |views|
    ensures |r| == |views|
  {
    if chosen == [] then views else Loaded(LoadedAll(views, chosen[..|chosen| - 1]), chosen[|chosen| - 1])
  }

  ghost predicate FairAt(views: seq<View>, c: nat, k: nat)
    requires c < |views| && k < |views|
  {
    views[c].node.dc == views[k].node.dc ==> views[c].owned <= views[k].owned
  }

  /** In no data centre has a node been passed over for one with more replicas. */
  ghost predicate Fair(views: seq<View>, chosen: set<nat>) {
    forall c, k :: c in chosen && c < |views| && 0 <= k < |views| && k !in chosen ==> FairAt(views, c, k)
  }

  /** Only the loads of chosen nodes have changed. */
  ghost predicate Elsewhere(start: seq<View>, views: seq<View>, chosen: set<nat>) {
    |views| == |start| && forall k :: 0 <= k < |start| && k !in chosen ==> views[k] == start[k]
  }

  lemma FairOneMore(less: Order, start: seq<View>, views: seq<View>, chosen: set<nat>, selected: set<Bytes>,
                    counts: map<Bytes, int>, k: nat)
    requires Fair(start, chosen) && Elsewhere(start, views, chosen) && k < |views| && k !in chosen
    requires forall j :: 0 <= j < |views| ==> (views[j].node.id in selected <==> j in chosen)
    requires forall j :: 0 <= j < |views| && views[j].node.id !in selected ==> !Better(less, views[j], views[k], counts)
    ensures Fair(start, chosen + {k}) && Elsewhere(start, Loaded(views, k), chosen + {k})
  {
    forall c, j | c in chosen + {k} && c < |start| && 0 <= j < |start| && j !in chosen + {k}
      ensures FairAt(start, c, j)
    {
      if c == k { assert !Better(less, views[j], views[k], counts); }
    }
  }

  /** One shard: succeeds exactly when there are enough nodes, and counts the new replicas. */
  method SelectShard(less: Order, nodes: seq<Node>, start: seq<View>, count: nat)
    returns (ok: bool, chosen: seq<nat>, views: seq<View>)
    requires StrictTotal(less) && ViewsOf(start, nodes) && DistinctNodes(nodes)
    ensures ViewsOf(views, nodes) && (ok <==> count <= |nodes|)
    ensures ok ==> GoodPlacement(nodes, chosen, count) && views == LoadedAll(start, chosen)
    ensures Fair(start, Positions(chosen))
  {
    chosen, views := [], start;
    var selected: set<Bytes>, counts: map<Bytes, int> := {}, map[];
    StartSpread(nodes);
    for i := 0 to count
      invariant ViewsOf(views, nodes) && GoodPlacement(nodes, chosen, i) && views == LoadedAll(start, chosen)
      invariant Counts(nodes, Positions(chosen), counts)
      invariant Fair(start, Positions(chosen)) && Elsewhere(start, views, Positions(chosen))
      invariant forall k :: 0 <= k < |nodes| ==> (nodes[k].id in selected <==> k in Positions(chosen))
    {
      var best := SelectOne(less, views, selected, counts);
      AllChosen(nodes, chosen);
      if best.None? {
        AllSelected(nodes, views, chosen, selected);
        return false, chosen, views;
      }
      var k := best.value;
      FewestInDc(less, nodes, views, chosen, selected, counts, k);
      FairOneMore(less, start, views, Positions(chosen), selected, counts, k);
      ChooseOne(nodes, chosen, counts, k, i);
      assert (chosen + [k])[..|chosen|] == chosen;
      chosen := chosen + [k];
      selected := selected + {views[k].node.id};
      counts := counts[views[k].node.dc := CountOf(counts, views[k].node.dc) + 1];
      views := Loaded(views, k);
    }
    AllChosen(nodes, chosen);
    ok := true;
  }

  lemma StartSpread(nodes: seq<Node>)
    ensures GoodPlacement(nodes, [], 0) && Counts(nodes, Positions([]), map[])
  {
    assert Positions([]) == {};
    forall dc ensures InDc(nodes, {}, dc) == {} {}
    forall k, dc | 0 <= k < |nodes| ensures SpreadAt(nodes, {}, k, dc) {}
  }

  lemma AllSelected(nodes: seq<Node>, views: seq<View>, chosen: seq<nat>, selected: set<Bytes>)
    requires ViewsOf(views, nodes) && forall k :: 0 <= k < |views| ==> views[k].node.id in selected
    requires forall k :: 0 <= k < |nodes| ==> (nodes[k].id in selected <==> k in Positions(chosen))
    ensures Below(|nodes|) <= Positions(chosen)
  {
    BelowSize(|nodes|);
    forall k: nat | k in Below(|nodes|) ensures k in Positions(chosen) { assert views[k].node == nodes[k]; }
  }

  /** The best candidate is in a data centre with the fewest chosen. */
  lemma FewestInDc(less: Order, nodes: seq<Node>, views: seq<View>, chosen: seq<nat>, selected: set<Bytes>,
                   counts: map<Bytes, int>, k: nat)
    requires ViewsOf(views, nodes) && k < |nodes| && Counts(nodes, Positions(chosen), counts)
    requires forall j :: 0 <= j < |nodes| ==> (nodes[j].id in selected <==> j in Positions(chosen))
    requires forall j :: 0 <= j < |views| && views[j].node.id !in selected ==> !Better(less, views[j], views[k], counts)
    ensures forall j :: 0 <= j < |nodes| && j !in Positions(chosen) ==>
              |InDc(nodes, Positions(chosen), nodes[k].dc)| <= |InDc(nodes, Positions(chosen), nodes[j].dc)|
  {
    forall j | 0 <= j < |nodes| && j !in Positions(chosen)
      ensures |InDc(nodes, Positions(chosen), nodes[k].dc)| <= |InDc(nodes, Positions(chosen), nodes[j].dc)|
    {
      assert views[j].node == nodes[j];
      assert !Better(less, views[j], views[k], counts);
    }
  }

  lemma ChooseOne(nodes: seq<Node>, chosen: seq<nat>, counts: map<Bytes, int>, k: nat, i: int)
    requires GoodPlacement(nodes, chosen, i) && Counts(nodes, Positions(chosen), counts)
    requires k < |nodes| && k !in Positions(chosen)
    requires forall j :: 0 <= j < |nodes| && j !in Positions(chosen) ==>
               |InDc(nodes, Positions(chosen), nodes[k].dc)| <= |InDc(nodes, Positions(chosen), nodes[j].dc)|
    ensures GoodPlacement(nodes, chosen + [k], i + 1) && Positions(chosen + [k]) == Positions(chosen) + {k}
    ensures Counts(nodes, Positions(chosen + [k]), counts[nodes[k].dc := CountOf(counts, nodes[k].dc) + 1])
  {
    assert Positions(chosen + [k]) == Positions(chosen) + {k};
    SpreadOneMore(nodes, Positions(chosen), k);
    CountsOneMore(nodes, Positions(chosen), counts, k);
    forall j | 0 <= j < |chosen| ensures chosen[j] != k { assert chosen[j] in Positions(chosen); }
  }

  // ---------------------------------------------------------------- a whole table

  function EligibleNodes(nodes: seq<Node>, excluded: set<Bytes>): seq<Node> {
    if nodes == [] then []
    else (if Eligible(nodes[0], excluded) then [nodes[0]] else []) + EligibleNodes(nodes[1..], excluded)
  }

  lemma {:induction false} EligibleOnes(nodes: seq<Node>, excluded: set<Bytes>)
    requires DistinctNodes(nodes)
    ensures DistinctNodes(EligibleNodes(nodes, excluded))
    ensures forall n :: n in EligibleNodes(nodes, excluded) <==> n in nodes && Eligible(n, excluded)
    decreases |nodes|
  {
    if nodes != [] {
      EligibleOnes(nodes[1..], excluded);
      var rest := EligibleNodes(nodes[1..], excluded);
      forall j | 0 <= j < |rest| ensures rest[j].id != nodes[0].id {
        assert rest[j] in nodes[1..];
        var k :| 0 <= k < |nodes[1..]| && nodes[1..][k] == rest[j];
        assert nodes[k + 1] == rest[j];
      }
      assert nodes == [nodes[0]] + nodes[1..];
    }
  }

  /** The loads once these shards have been placed. */
  ghost function LoadsAfter(start: seq<View>, placement: seq<seq<nat>>): (r: seq<View>)
    requires forall s, i :: 0 <= s < |placement| && 0 <= i < |placement[s]| ==> placement[s][i] < |start|
    ensures |r| == |start|
  {
    if placement == [] then start
    else LoadedAll(LoadsAfter(start, placement[..|placement| - 1]), placement[|placement| - 1])
  }

  /** What is known of the loads of these nodes. */
  ghost predicate Loads(views: seq<View>, nodes: seq<Node>, owned: map<Bytes, int>) {
    |views| == |nodes| && forall k :: 0 <= k < |nodes| ==> views[k] == View(nodes[k], CountOf(owned, nodes[k].id))
  }

  /** Every shard is placed fairly, given where the ones before it went. */
  ghost predicate AllFair(start: seq<View>, placement: seq<seq<nat>>) {
    && (forall s, i :: 0 <= s < |placement| && 0 <= i < |placement[s]| ==> placement[s][i] < |start|)
    && forall s :: 0 <= s < |placement| ==> Fair(LoadsAfter(start, placement[..s]), Positions(placement[s]))
  }

  lemma AllFairOneMore(start: seq<View>, placement: seq<seq<nat>>, chosen: seq<nat>)
    requires AllFair(start, placement) && (forall i :: 0 <= i < |chosen| ==> chosen[i] < |start|)
    requires Fair(LoadsAfter(start, placement), Positions(chosen))
    ensures AllFair(start, placement + [chosen])
    ensures LoadsAfter(start, placement + [chosen]) == LoadedAll(LoadsAfter(start, placement), chosen)
  {
    var p := placement + [chosen];
    assert p[..|placement|] == placement;
    forall s | 0 <= s < |p| ensures Fair(LoadsAfter(start, p[..s]), Positions(p[s])) {
      if s < |placement| { assert p[..s] == placement[..s]; }
    }
  }

  /** Placement never fails when there are enough eligible nodes, and then every shard gets the asked
      number of different eligible nodes, spread over the data centres. */
  method SelectTableNodes(less: Order, nodes: seq<Node>, excluded: set<Bytes>, owned: map<Bytes, int>, shards: nat,
                          replicas: nat)
    returns (ok: bool, placement: seq<seq<nat>>)
    requires StrictTotal(less) && DistinctNodes(nodes)
    ensures ok <==> replicas <= |EligibleNodes(nodes, excluded)|
    ensures ok ==> |placement| == shards
                   && forall s :: 0 <= s < shards ==>
                        GoodPlacement(EligibleNodes(nodes, excluded), placement[s], replicas)
    ensures ok ==> forall views :: Loads(views, EligibleNodes(nodes, excluded), owned) ==> AllFair(views, placement)
  {
    var candidates := EligibleNodes(nodes, excluded);
    EligibleOnes(nodes, excluded);
    placement := [];
    if |candidates| < replicas {
      return false, [];
    }
    var views: seq<View> := [];
    for k := 0 to |candidates|
      invariant |views| == k
      invariant forall j :: 0 <= j < k ==> views[j] == View(candidates[j], CountOf(owned, candidates[j].id))
    {
      views := views + [View(candidates[k], CountOf(owned, candidates[k].id))];
    }
    ghost var start := views;
    for s := 0 to shards
      invariant |placement| == s && ViewsOf(views, candidates)
      invariant AllFair(start, placement) && views == LoadsAfter(start, placement)
      invariant forall j :: 0 <= j < s ==> GoodPlacement(candidates, placement[j], replicas)
    {
      var _, chosen, after := SelectShard(less, candidates, views, replicas);
      AllFairOneMore(start, placement, chosen);
      placement := placement + [chosen];
      views := after;
    }
    assert forall v :: Loads(v, candidates, owned) ==> v == start;
    ok := true;
  }
}
