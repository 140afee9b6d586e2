/** Term, vote and role of one replica (src/storage/raft/raft_election.cpp). */
module Election {
  import opened Types
  import opened Replica

  /** What RaftMetaStore keeps on disk. */
  datatype HardState = HardState(term: int, votedFor: Option<ReplicaId>)

  /** Terms never fall, and a vote once cast stands for the rest of its term. */
  ghost predicate Succeeds(before: HardState, after: HardState) {
    before.term <= after.term &&
      (before.term == after.term && before.votedFor.Some? ==> after.votedFor == before.votedFor)
  }

  class RaftElection {
    const self: ReplicaId
    var role: Role
    var term: int
    var votedFor: Option<ReplicaId>
    var granted: set<ReplicaId>
    var preGranted: set<ReplicaId>

    function Hard(): HardState
      reads this
    {
      HardState(term, votedFor)
    }

    constructor (self: ReplicaId)
      ensures this.self == self && role == Follower && Hard() == HardState(0, None) && granted == {} && preGranted == {}
    {
      this.self := self;
      role, term, votedFor, granted, preGranted := Follower, 0, None, {}, {};
    }

    /** Reloading what was saved loses no vote: a saved state is reloaded as it was. */
    method UpdateMeta(saved: HardState)
      modifies this`term, this`votedFor
      ensures Hard() == saved
    {
      term, votedFor := saved.term, saved.votedFor;
    }

    method BecomeCandidate()
      modifies this
      ensures Succeeds(old(Hard()), Hard()) && Hard() == HardState(old(term) + 1, Some(self))
      ensures role == Candidate && granted == {self} && preGranted == {}
    {
      preGranted := {};
      role := Candidate;
      term := term + 1;
      votedFor := Some(self);
      granted := {self};
    }

    method BecomeFollower(later: int) returns (changed: bool)
      requires later >= term
      modifies this
      ensures Succeeds(old(Hard()), Hard()) && (changed <==> later > old(term)) && (!changed ==> Hard() == old(Hard()))
      ensures Hard() == if changed then HardState(later, None) else old(Hard())
      ensures role == Follower && granted == {} && preGranted == {}
    {
      role := Follower;
      granted, preGranted := {}, {};
      changed := later != term;
      if changed {
        term, votedFor := later, None;
      }
    }

    method BecomeLeader()
      modifies this`role, this`granted
      ensures role == Leader && granted == {}
    {
      role, granted := Leader, {};
    }

    method BecomePreCandidate()
      modifies this`role, this`granted, this`preGranted
      ensures role == PreCandidate && granted == {} && preGranted == {self}
    {
      role, granted, preGranted := PreCandidate, {}, {self};
    }

    method GrantVoteTo(candidate: ReplicaId) returns (ok: bool)
      modifies this`votedFor
      ensures Succeeds(old(Hard()), Hard())
      ensures ok <==> old(votedFor).None? || old(votedFor).value == candidate
      ensures votedFor == if ok then Some(candidate) else old(votedFor)
    {
      ok := votedFor.None? || votedFor.value == candidate;
      if ok { votedFor := Some(candidate); }
    }

    method RecordVoteGrantedFrom(voter: ReplicaId) returns (added: bool)
      modifies this`granted
      ensures granted == old(granted) + {voter} && (added <==> voter !in old(granted))
    {
      added := voter !in granted;
      granted := granted + {voter};
    }
  }
}
