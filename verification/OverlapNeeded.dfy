/** Voter sets change on each replica when it applies the change, so several may be in force at once.
    One leader per term holds for all runs if and only if any two quorums of those voter sets meet:
    ClusterVotes has one direction, this module the other. */
module OverlapNeeded {
  import opened Types
  import opened Replica
  import opened Cluster
  import opened Consensus
  import opened CoreRuns
  import opened Runs
  import Votes = ClusterVotes
  import L = RaftLog

  function Unstarted(g: Group, v: ReplicaId, voters: set<ReplicaId>): State {
    State(v, 0, None, Follower, {}, L.View([], 0, 0), [], 0, 0, g.replicas, voters, map[], map[], map[], false,
      map[], 1)
  }

  lemma WouldVote(g: Group, w: World, i: ReplicaId, v: ReplicaId, c: set<ReplicaId>)
    requires i in c && v in c && i != v && i in w.replicas && v in w.replicas
    requires w.replicas[i] == Unstarted(g, i, c) && w.replicas[v] == Unstarted(g, v, c)
    ensures Willing(w, w.replicas[i], v)
  {
  }

  /** A quorum of unstarted replicas can elect any of its members. */
  lemma Elect(g: Group, w: World, i: ReplicaId, c: set<ReplicaId>, votes: set<ReplicaId>)
    returns (steps: seq<Step>, w': World)
    requires i in votes && votes <= c && |votes| >= |c| / 2 + 1
    requires forall v :: v in votes ==> v in w.replicas && w.replicas[v] == Unstarted(g, v, c)
    ensures Reaches(g, w, steps, w') && Apart(w, w', votes)
    ensures i in w'.replicas && w'.replicas[i].role.Leader? && w'.replicas[i].term == 1
  {
    var vs := Listed(votes - {i});
    forall v | v in vs ensures Willing(w, w.replicas[i], v) { WouldVote(g, w, i, v, c); }
    assert (votes - {i}) + {i} == votes;
    steps, w' := Election(g, w, i, 0, Tale([], 0, 0, g.replicas, c), vs);
  }

  ghost predicate Meet(p: set<ReplicaId>, q: set<ReplicaId>) { exists v :: v in p && v in q }

  /** Two leaders in one term are possible. */
  ghost predicate TwoLeaders(g: Group) {
    exists w, steps, i, j :: i != j && LeadTogether(g, w, steps, i, j)
  }

  ghost predicate LeadTogether(g: Group, w: World, steps: seq<Step>, i: ReplicaId, j: ReplicaId) {
    && Initial(g, w) && Run(g, w, steps) && i in g.replicas && j in g.replicas
    && i in After(g, w, steps).replicas && j in After(g, w, steps).replicas
    && After(g, w, steps).replicas[i].role.Leader? && After(g, w, steps).replicas[j].role.Leader?
    && After(g, w, steps).replicas[i].term == After(g, w, steps).replicas[j].term
  }

  lemma DisjointQuorumsElectTwo(g: Group, c: set<ReplicaId>, d: set<ReplicaId>, p: set<ReplicaId>, q: set<ReplicaId>)
    requires c in g.configs && d in g.configs && c <= g.replicas && d <= g.replicas
    requires p <= c && q <= d && p !! q && |p| >= |c| / 2 + 1 && |q| >= |d| / 2 + 1
    ensures TwoLeaders(g)
  {
    var w := World(map v | v in g.replicas :: Unstarted(g, v, if v in p then c else d), {});
    var i :| i in p;
    var j :| j in q;
    var steps, w' := ElectBoth(g, w, i, c, p, j, d, q);
    LeadingTogether(g, w, steps, w', i, j);
  }

  lemma ElectBoth(g: Group, w: World, i: ReplicaId, c: set<ReplicaId>, p: set<ReplicaId>, j: ReplicaId,
                  d: set<ReplicaId>, q: set<ReplicaId>)
    returns (steps: seq<Step>, w': World)
    requires i in p && j in q && p <= c && q <= d && p !! q && |p| >= |c| / 2 + 1 && |q| >= |d| / 2 + 1
    requires forall v :: v in p ==> v in w.replicas && w.replicas[v] == Unstarted(g, v, c)
    requires forall v :: v in q ==> v in w.replicas && w.replicas[v] == Unstarted(g, v, d)
    ensures Reaches(g, w, steps, w') && i in w'.replicas && j in w'.replicas
    ensures w'.replicas[i].role.Leader? && w'.replicas[i].term == 1 && w'.replicas[j].role.Leader?
            && w'.replicas[j].term == 1
  {
    var first, w1 := Elect(g, w, i, c, p);
    var second;
    second, w' := Elect(g, w1, j, d, q);
    ReachesFurther(g, w, first, w1, second, w');
    assert i !in q;
    steps := first + second;
  }

  lemma LeadingTogether(g: Group, w: World, steps: seq<Step>, w': World, i: ReplicaId, j: ReplicaId)
    requires Initial(g, w) && Reaches(g, w, steps, w') && i != j && i in g.replicas && j in g.replicas
    requires i in w'.replicas && j in w'.replicas && w'.replicas[i].role.Leader? && w'.replicas[j].role.Leader?
    requires w'.replicas[i].term == w'.replicas[j].term
    ensures TwoLeaders(g)
  {
    assert LeadTogether(g, w, steps, i, j);
  }

  lemma MeetingIsEnough(g: Group)
    requires Overlapping(g)
    ensures !TwoLeaders(g)
  {
    forall w, steps, i, j | LeadTogether(g, w, steps, i, j) ensures i == j {
      Votes.OneLeaderPerTerm(g, w, steps, i, j);
    }
  }

  lemma Disjoint(p: set<ReplicaId>, q: set<ReplicaId>)
    requires !Meet(p, q)
    ensures p !! q
  {
  }

  lemma MeetingIsNeeded(g: Group)
    requires !Overlapping(g) && forall c :: c in g.configs ==> c <= g.replicas
    ensures TwoLeaders(g)
  {
    var p, q :| Quorum(g, p) && Quorum(g, q) && !Meet(p, q);
    var c :| c in g.configs && IsMajority(c, p);
    var d :| d in g.configs && IsMajority(d, q);
    Disjoint(p, q);
    DisjointQuorumsElectTwo(g, c, d, c * p, d * q);
  }

  /** One leader per term, in all runs, exactly when all quorums in force meet. */
  lemma ElectionSafetyExactly(g: Group)
    requires forall c :: c in g.configs ==> c <= g.replicas
    ensures !TwoLeaders(g) <==> Overlapping(g)
  {
    if Overlapping(g) { MeetingIsEnough(g); } else { MeetingIsNeeded(g); }
  }
}
