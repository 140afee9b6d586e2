/** The member list of a group and its quorums (src/storage/raft/raft_membership.cpp). */
module Membership {
  import opened Types
  import opened Consensus

  datatype MemberType = NonMember | Voter | Learner

  datatype Member = Member(peer: PeerMember, kind: MemberType)

  type Members = seq<Member>

  ghost predicate UniqueIds(ms: Members) {
    forall i, j :: 0 <= i < j < |ms| ==> ms[i].peer.replicaId != ms[j].peer.replicaId
  }

  function Voters(ms: Members): seq<PeerMember> {
    if ms == [] then []
    else (if ms[0].kind.Voter? then [ms[0].peer] else []) + Voters(ms[1..])
  }

  function VoterIds(ms: Members): set<ReplicaId> {
    set m | m in ms && m.kind.Voter? :: m.peer.replicaId
  }

  function Ids(ms: Members): set<ReplicaId> {
    set m | m in ms :: m.peer.replicaId
  }

  /** With unique ids, counting the voter list counts the voter set. */
  lemma {:induction false} VotersCounted(ms: Members)
    requires UniqueIds(ms)
    ensures |Voters(ms)| == |VoterIds(ms)|
    decreases |ms|
  {
    if ms != [] {
      var rest := ms[1..];
      VotersCounted(rest);
      if ms[0].kind.Voter? {
        assert ms[0].peer.replicaId !in VoterIds(rest);
        assert VoterIds(ms) == VoterIds(rest) + {ms[0].peer.replicaId};
      } else {
        assert VoterIds(ms) == VoterIds(rest);
      }
    }
  }

  /** The members of a group, updated as committed configuration entries are applied. */
  class RaftMembership {
    var members: Members

    ghost predicate Valid()
      reads this
    {
      UniqueIds(members)
    }

    constructor (voters: seq<PeerMember>)
      requires forall i, j :: 0 <= i < j < |voters| ==> voters[i].replicaId != voters[j].replicaId
      ensures Valid() && members == seq(|voters|, i requires 0 <= i < |voters| => Member(voters[i], Voter))
    {
      var ms: Members := [];
      for k := 0 to |voters|
        invariant ms == seq(k, i requires 0 <= i < k => Member(voters[i], Voter))
      {
        ms := ms + [Member(voters[k], Voter)];
      }
      members := ms;
    }

    /** The position of the first member with this id, or the number of members. */
    method Find(id: ReplicaId) returns (k: nat)
      ensures k <= |members|
      ensures k < |members| ==> members[k].peer.replicaId == id
      ensures id in Ids(members) <==> k < |members|
      ensures forall j :: 0 <= j < k ==> members[j].peer.replicaId != id
    {
      k := 0;
      while k < |members| && members[k].peer.replicaId != id
        invariant k <= |members|
        invariant forall j :: 0 <= j < k ==> members[j].peer.replicaId != id
      {
        k := k + 1;
      }
      if k < |members| { assert members[k] in members; }
    }

    /** Adding a learner never touches the voters and is a no-op for a present member. */
    method AddLearner(peer: PeerMember)
      requires Valid()
      modifies this
      ensures Valid() && VoterIds(members) == old(VoterIds(members))
      ensures Ids(members) == old(Ids(members)) + {peer.replicaId}
      ensures members ==
              if peer.replicaId in old(Ids(members)) then old(members) else old(members) + [Member(peer, Learner)]
    {
      var k := Find(peer.replicaId);
      if k == |members| {
        members := members + [Member(peer, Learner)];
      }
    }

    /** Promotion makes at most one more replica a voter and fails exactly for an unknown id. */
    method PromoteVoter(id: ReplicaId) returns (ok: bool)
      requires Valid()
      modifies this
      ensures Valid() && Ids(members) == old(Ids(members))
      ensures ok <==> id in old(Ids(members))
      ensures VoterIds(members) == old(VoterIds(members)) + (if ok then {id} else {})
      ensures |members| == old(|members|)
      ensures forall i :: 0 <= i < |members| ==>
                members[i] ==
                if old(members)[i].peer.replicaId == id then old(members)[i].(kind := Voter) else old(members)[i]
    {
      var k := Find(id);
      ok := k < |members|;
      if ok {
        ghost var before := members;
        members := members[k := members[k].(kind := Voter)];
        PromotedSets(before, k);
      }
    }

    /** Removal drops exactly the member with this id. */
    method RemoveMember(id: ReplicaId)
      requires Valid()
      modifies this
      ensures Valid() && Ids(members) == old(Ids(members)) - {id}
      ensures VoterIds(members) == old(VoterIds(members)) - {id}
      ensures members == Without(old(members), id)
    {
      var ms: Members := [];
      var before := members;
      for k := 0 to |before|
        invariant ms == Without(before[..k], id)
      {
        assert before[..k + 1] == before[..k] + [before[k]];
        WithoutAppend(before[..k], before[k], id);
        if before[k].peer.replicaId != id { ms := ms + [before[k]]; }
      }
      assert before[..|before|] == before;
      members := ms;
      WithoutSets(before, id);
      WithoutUnique(before, id);
    }

    method HasQuorum(acks: int) returns (yes: bool)
      requires Valid()
      ensures yes <==> acks >= |VoterIds(members)| / 2 + 1
    {
      VotersCounted(members);
      yes := acks >= |Voters(members)| / 2 + 1;
    }
  }

  function Without(ms: Members, id: ReplicaId): Members {
    if ms == [] then []
    else (if ms[0].peer.replicaId == id then [] else [ms[0]]) + Without(ms[1..], id)
  }

  lemma {:induction false} WithoutAppend(ms: Members, m: Member, id: ReplicaId)
    ensures Without(ms + [m], id) == Without(ms, id) + (if m.peer.replicaId == id then [] else [m])
    decreases |ms|
  {
    if ms == [] {
      assert ms + [m] == [m];
    } else {
      assert (ms + [m])[1..] == ms[1..] + [m];
      WithoutAppend(ms[1..], m, id);
    }
  }

  lemma {:induction false} WithoutContains(ms: Members, id: ReplicaId, m: Member)
    ensures m in Without(ms, id) <==> m in ms && m.peer.replicaId != id
    decreases |ms|
  {
    if ms != [] { WithoutContains(ms[1..], id, m); }
  }

  lemma WithoutSets(ms: Members, id: ReplicaId)
    ensures Ids(Without(ms, id)) == Ids(ms) - {id}
    ensures VoterIds(Without(ms, id)) == VoterIds(ms) - {id}
  {
    forall m ensures m in Without(ms, id) <==> m in ms && m.peer.replicaId != id {
      WithoutContains(ms, id, m);
    }
  }

  lemma {:induction false} WithoutUnique(ms: Members, id: ReplicaId)
    requires UniqueIds(ms)
    ensures UniqueIds(Without(ms, id))
    decreases |ms|
  {
    if ms != [] {
      WithoutUnique(ms[1..], id);
      forall m | m in Without(ms[1..], id) ensures m.peer.replicaId != ms[0].peer.replicaId {
        WithoutContains(ms[1..], id, m);
      }
    }
  }

  lemma PromotedSets(ms: Members, k: nat)
    requires UniqueIds(ms) && k < |ms|
    ensures var ms' := ms[k := ms[k].(kind := Voter)];
            && UniqueIds(ms') && Ids(ms') == Ids(ms)
            && VoterIds(ms') == VoterIds(ms) + {ms[k].peer.replicaId}
  {
    var ms' := ms[k := ms[k].(kind := Voter)];
    forall id ensures id in Ids(ms) <==> id in Ids(ms') {
      if m :| m in ms && m.peer.replicaId == id {
        var j :| 0 <= j < |ms| && ms[j] == m;
        assert ms'[j] in ms';
      }
      if m :| m in ms' && m.peer.replicaId == id {
        var j :| 0 <= j < |ms'| && ms'[j] == m;
        assert ms[j] in ms;
      }
    }
    forall id ensures id in VoterIds(ms') <==> id in VoterIds(ms) || id == ms[k].peer.replicaId {
      assert ms'[k] in ms';
      if m :| m in ms && m.kind.Voter? && m.peer.replicaId == id {
        var j :| 0 <= j < |ms| && ms[j] == m;
        assert ms'[j] in ms';
      }
      if m :| m in ms' && m.kind.Voter? && m.peer.replicaId == id {
        var j :| 0 <= j < |ms'| && ms'[j] == m;
        assert ms[j] in ms;
      }
    }
  }

  // ---------------------------------------------------------------- overlapping quorums

  lemma InUnion(a: set<ReplicaId>, b: set<ReplicaId>, c: set<ReplicaId>)
    requires a <= c && b <= c && |a| + |b| > |c|
    ensures exists v :: v in a && v in b
  {
    assert |a + b| == |a| + |b| - |a * b|;
    SubsetSize(a + b, c);
    assert |a * b| > 0;
    var v :| v in a * b;
  }

  lemma {:induction false} SubsetSize(a: set<ReplicaId>, b: set<ReplicaId>)
    requires a <= b
    ensures |a| <= |b|
    decreases |a|
  {
    if a != {} {
      var x :| x in a;
      SubsetSize(a - {x}, b - {x});
    }
  }

  /** Majorities of one voter set, and majorities on either side of one promotion or removal, share
      a voter (section 4.1 of Ongaro's Raft dissertation). */
  lemma AdjacentMajoritiesMeet(c: set<ReplicaId>, d: set<ReplicaId>, p: set<ReplicaId>, q: set<ReplicaId>)
    requires c <= d && |d| <= |c| + 1 && IsMajority(c, p) && IsMajority(d, q)
    ensures exists v :: v in p && v in q
  {
    InUnion(c * p, d * q, d);
  }

  /** A run in which every replica uses one of two adjacent voter sets satisfies the overlap
      condition of the cluster theorems; so does a run with a single voter set. */
  lemma AdjacentConfigsOverlap(replicas: set<ReplicaId>, c: set<ReplicaId>, d: set<ReplicaId>)
    requires c <= d && |d| <= |c| + 1
    ensures Overlapping(Group(replicas, {c, d}))
  {
    var g := Group(replicas, {c, d});
    forall p, q | Quorum(g, p) && Quorum(g, q) ensures exists v :: v in p && v in q {
      var a :| a in g.configs && IsMajority(a, p);
      var b :| b in g.configs && IsMajority(b, q);
      if a == c { AdjacentMajoritiesMeet(c, b, p, q); } else { AdjacentMajoritiesMeet(b, d, q, p); }
    }
  }
}
