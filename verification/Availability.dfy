/** What a quorum can always do: elect one of its members, whatever has happened before. */
module Availability {
  import opened Types
  import opened Replica
  import opened Consensus
  import opened Cluster
  import opened Core
  import opened CoreRuns
  import opened Runs
  import L = RaftLog

  /** The replica can vote, and the quorum q is a quorum of its voters. */
  ghost predicate Able(w: World, q: set<ReplicaId>, v: ReplicaId) {
    && v in w.replicas
    && var r := w.replicas[v];
       r.id == v && !r.recovering && L.WellFormed(r.log) && q <= r.voters && |q| >= QuorumSize(r.voters)
  }

  ghost predicate AllAble(w: World, q: set<ReplicaId>) { forall v :: v in q ==> Able(w, q, v) }

  /** No member refuses i for its log. */
  ghost predicate UpToDate(w: World, q: set<ReplicaId>, i: ReplicaId) {
    && i in w.replicas
    && forall v :: v in q && v in w.replicas ==>
         !LaterThan(w.replicas[v], L.LastTerm(w.replicas[i].log), L.LastIndex(w.replicas[i].log))
  }

  /** Logs are compared by a total order, so some member is not behind any other. */
  lemma {:induction false} SomeoneIsUpToDate(w: World, q: set<ReplicaId>) returns (i: ReplicaId)
    requires q != {} && q <= w.replicas.Keys
    ensures i in q && UpToDate(w, q, i)
    decreases q
  {
    var v :| v in q;
    if q == {v} {
      i := v;
    } else {
      assert q == {v} + (q - {v});
      var j := SomeoneIsUpToDate(w, q - {v});
      i := if LaterThan(w.replicas[v], L.LastTerm(w.replicas[j].log), L.LastIndex(w.replicas[j].log)) then v else j;
      forall u | u in q
        ensures !LaterThan(w.replicas[u], L.LastTerm(w.replicas[i].log), L.LastIndex(w.replicas[i].log))
      {
        assert u == v || u in q - {v};
      }
    }
  }

  lemma {:induction false} HighestTerm(w: World, q: set<ReplicaId>) returns (t: int)
    requires q <= w.replicas.Keys
    ensures forall v :: v in q ==> w.replicas[v].term <= t
    decreases q
  {
    t := 0;
    if q != {} {
      var v :| v in q;
      t := HighestTerm(w, q - {v});
      t := Max(t, w.replicas[v].term);
      forall u | u in q ensures w.replicas[u].term <= t { assert u == v || u in q - {v}; }
    }
  }

  /** The member that wins term t with the votes of q, and one that votes for it. */
  function Winner(r: State, t: int, q: set<ReplicaId>): State
    requires CanLead(Standing(BecomeFollower(r, t - 1), q))
  {
    Lead(Standing(BecomeFollower(r, t - 1), q))
  }

  function Elector(r: State, t: int, i: ReplicaId): State { BecomeFollower(r, t).(votedFor := Some(i)) }

  /** In term t, which is new to all of them, i has the votes of all of q and leads. */
  ghost predicate LedBy(w: World, w': World, q: set<ReplicaId>, i: ReplicaId, t: int) {
    && i in q && i in w.replicas && i in w'.replicas && CanLead(Standing(BecomeFollower(w.replicas[i], t - 1), q))
    && w'.replicas[i] == Winner(w.replicas[i], t, q)
    && (forall v :: v in q ==> v in w.replicas && w.replicas[v].term < t)
    && forall v :: v in q && v != i ==> v in w'.replicas && w'.replicas[v] == Elector(w.replicas[v], t, i)
  }

  lemma MemberMayGrant(w: World, w1: World, q: set<ReplicaId>, i: ReplicaId, t: int, v: ReplicaId)
    requires AllAble(w, q) && i in q && v in q && i != v && UpToDate(w, q, i) && w.replicas[v].term <= t
    requires i in w1.replicas && w1.replicas[i] == BecomeFollower(w.replicas[i], t)
    requires v in w1.replicas && w1.replicas[v] == w.replicas[v]
    ensures Willing(w1, w1.replicas[i], v)
  {
    assert Able(w, q, i) && Able(w, q, v);
  }

  lemma Listens(g: Group, w: World, q: set<ReplicaId>, i: ReplicaId, t: int, vs: seq<ReplicaId>) returns (w': World)
    requires AllAble(w, q) && i in q && UpToDate(w, q, i) && (forall v :: v in q ==> w.replicas[v].term <= t)
    requires forall v :: v in vs ==> v in q - {i}
    ensures i in w.replicas && Gets(g, w, [HearTerm(i, t)], w', w.replicas[i := BecomeFollower(w.replicas[i], t)])
    ensures forall v :: v in vs ==> Willing(w', w'.replicas[i], v)
  {
    assert Able(w, q, i);
    w' := Step1(g, w, HearTerm(i, t), i, BecomeFollower(w.replicas[i], t), {});
    forall v | v in vs ensures Willing(w', w'.replicas[i], v) {
      assert Able(w, q, v);
      MemberMayGrant(w, w', q, i, t, v);
    }
  }

  lemma Both(q: set<ReplicaId>, i: ReplicaId, vs: seq<ReplicaId>)
    requires i in q && SetOf(vs) == q - {i}
    ensures {i} + SetOf(vs) == q && SetOf(vs) + {i} == q
  {
  }

  /** i hears of term t and is then voted for by the rest of q. */
  lemma Campaigns(g: Group, w: World, q: set<ReplicaId>, i: ReplicaId, t: int, vs: seq<ReplicaId>)
    returns (steps: seq<Step>, w': World)
    requires AllAble(w, q) && i in q && UpToDate(w, q, i) && (forall v :: v in q ==> w.replicas[v].term <= t)
    requires NoneTwice(vs) && SetOf(vs) == q - {i} && forall v :: v in vs <==> v in q - {i}
    ensures Gets(g, w, steps, w', w'.replicas) && AllElectoral(steps) && Apart(w, w', q)
    ensures i in w'.replicas && w'.replicas[i] == Standing(BecomeFollower(w.replicas[i], t), q)
    ensures forall v :: v in q && v != i ==>
              v in w.replicas && v in w'.replicas && w'.replicas[v] == Elector(w.replicas[v], t + 1, i)
  {
    assert Able(w, q, i);
    var w1 := Listens(g, w, q, i, t, vs);
    var rest;
    rest, w' := Canvass(g, w1, i, vs);
    Then(g, w, [HearTerm(i, t)], w1, rest, w', w1.replicas, w'.replicas);
    steps := [HearTerm(i, t)] + rest;
    Both(q, i, vs);
    Electors(w, w1, w', q, i, t, w1.replicas[i], vs);
  }

  lemma Electors(w: World, w1: World, w': World, q: set<ReplicaId>, i: ReplicaId, t: int, r: State, vs: seq<ReplicaId>)
    requires i in q && i in w.replicas && w1.replicas == w.replicas[i := r] && r.term == t && r.id == i
    requires Apart(w1, w', q) && HaveVoted(w1, w', r, vs) && forall v :: v in vs <==> v in q - {i}
    ensures Apart(w, w', q)
    ensures forall v :: v in q && v != i ==>
              v in w.replicas && v in w'.replicas && w'.replicas[v] == Elector(w.replicas[v], t + 1, i)
  {
    forall v | v in q && v != i
      ensures v in w.replicas && v in w'.replicas && w'.replicas[v] == Elector(w.replicas[v], t + 1, i)
    {
      assert v in vs && v in w1.replicas;
    }
  }

  lemma TakesLead(g: Group, w: World, w1: World, q: set<ReplicaId>, i: ReplicaId, t: int) returns (w': World)
    requires Able(w, q, i) && i in q && i in w1.replicas
    requires w1.replicas[i] == Standing(BecomeFollower(w.replicas[i], t), q)
    ensures CanLead(w1.replicas[i]) && Gets(g, w1, [Win(i)], w', w1.replicas[i := Lead(w1.replicas[i])])
  {
    w' := Step1(g, w1, Win(i), i, Lead(w1.replicas[i]), {});
  }

  /** A quorum that can vote can elect: in every world some member has a run in which it is given the votes of
      all the others, in a term that is new to them, and leads. */
  lemma SomeoneCanLead(g: Group, w: World, q: set<ReplicaId>)
    returns (i: ReplicaId, t: int, steps: seq<Step>, w': World)
    requires q != {} && AllAble(w, q)
    ensures Reaches(g, w, steps, w') && AllElectoral(steps) && Apart(w, w', q) && LedBy(w, w', q, i, t)
    ensures w.net <= w'.net
  {
    forall v | v in q ensures v in w.replicas { assert Able(w, q, v); }
    i := SomeoneIsUpToDate(w, q);
    var high := HighestTerm(w, q);
    t := high + 1;
    var vs := Listed(q - {i});
    var first, w1 := Campaigns(g, w, q, i, high, vs);
    w' := TakesLead(g, w, w1, q, i, high);
    Then(g, w, first, w1, [Win(i)], w', w1.replicas, w'.replicas);
    steps := first + [Win(i)];
  }
}
