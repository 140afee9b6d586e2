/** The replica object: RaftCore's handlers working in place on their parts, proved to perform the
    steps of module Replica and to leave the disk able to reproduce the result
    (the files of src/storage/raft/core and src/storage/replica/raft_step.cpp). */
module Core {
  import opened Types
  import opened RaftLog
  import opened RaftLogClass
  import opened Membership
  import opened Apply
  import opened Replication
  import opened Election
  import opened Replica

  // ---------------------------------------------------------------- effects and the disk

  /** What a handler asks for: state to save, records to append or a log to rewrite, messages to send. */
  datatype Effects = Effects(hardState: Option<HardState>, toAppend: Log, toRewrite: Option<Log>,
    messages: set<Message>)

  const NO_EFFECTS := Effects(None, [], None, {})

  datatype Disk = Disk(hard: HardState, wal: Log)

  /** persist_effects; None is its refusal to both rewrite and append. */
  function Persist(d: Disk, fx: Effects): Option<Disk> {
    if fx.toRewrite.Some? && fx.toAppend != [] then None
    else
      var hard := if fx.hardState.Some? then fx.hardState.value else d.hard;
      var wal := if fx.toRewrite.Some? then fx.toRewrite.value else d.wal;
      Some(Disk(hard, wal + fx.toAppend))
  }

  function Durable(s: State): Disk { Disk(HardState(s.term, s.votedFor), s.log.entries) }

  /** Carrying out the effects takes a disk that reflects the state before to one that reflects the
      state after. */
  ghost predicate Saves(before: State, after: State, fx: Effects) {
    Persist(Durable(before), fx) == Some(Durable(after))
  }

  class RaftCore {
    const self: ReplicaId
    const election: RaftElection
    const log: LogStore
    const replication: RaftReplication
    const apply: RaftApply
    const membership: RaftMembership
    var snapshot: Log
    var recovering: bool

    ghost predicate Valid()
      reads this, election, log, replication, apply, membership
    {
      && log.Valid() && membership.Valid() && replication.Valid()
      && self == election.self == replication.self
    }

    /** The object is in the state s; pending reads are kept elsewhere. */
    ghost predicate In(s: State)
      reads this, election, log, replication, apply, membership
    {
      && s.id == self && s.term == election.term && s.votedFor == election.votedFor
      && s.role == election.role && s.granted == election.granted
      && s.log == log.Window() && s.snapshot == snapshot
      && s.commit == apply.commit && s.applied == apply.applied
      && s.peers == Ids(membership.members) && s.voters == VoterIds(membership.members)
      && s.next == replication.next && s.matched == replication.matched && s.inflight == replication.inflight
      && s.recovering == recovering
    }

    constructor (self: ReplicaId, voters: seq<PeerMember>)
      requires forall i, j :: 0 <= i < j < |voters| ==> voters[i].replicaId != voters[j].replicaId
      ensures Valid() && this.self == self && !recovering
      ensures election.term == 0 && election.votedFor == None && election.role == Follower
      ensures log.Window() == View([], 0, 0) && apply.commit == 0 && apply.applied == 0
      ensures fresh(election) && fresh(log) && fresh(replication) && fresh(apply) && fresh(membership)
    {
      this.self := self;
      election := new RaftElection(self);
      log := new LogStore();
      membership := new RaftMembership(voters);
      apply := new RaftApply();
      replication := new RaftReplication(self, set v | v in voters :: v.replicaId);
      snapshot, recovering := [], false;
    }

    method StepDown(ghost s: State, later: int) returns (fx: Effects)
      requires Valid() && In(s) && later >= s.term
      modifies election
      ensures Valid() && In(BecomeFollower(s, later)) && Saves(s, BecomeFollower(s, later), fx) && fx.messages == {}
      ensures fx.toAppend == [] && fx.toRewrite == None
    {
      var changed := election.BecomeFollower(later);
      fx := if changed then NO_EFFECTS.(hardState := Some(election.Hard())) else NO_EFFECTS;
      assert s.log.entries + [] == s.log.entries;
    }

    method HandleRequestVote(ghost s: State, m: Message) returns (reply: Message, fx: Effects)
      requires Valid() && In(s) && m.RequestVote?
      modifies election
      ensures Valid() && In(OnRequestVote(s, m).state) && {reply} == OnRequestVote(s, m).sent
      ensures Saves(s, OnRequestVote(s, m).state, fx)
      ensures reply.VoteReply? && (reply.granted <==>
                && !recovering && {self, m.from} <= VoterIds(membership.members)
                && (m.term > old(election.term)
                    || (m.term == old(election.term) && old(election.votedFor) in {None, Some(m.from)}))
                && (m.lastTerm > LastTerm(log.Window())
                    || (m.lastTerm == LastTerm(log.Window()) && m.lastIndex >= LastIndex(log.Window()))))
    {
      fx := NO_EFFECTS;
      assert s.log.entries + [] == s.log.entries;
      if self !in VoterIds(membership.members) || m.from !in VoterIds(membership.members) || recovering
         || m.term < election.term {
        return VoteReply(self, m.from, election.term, false), fx;
      }
      ghost var s1 := s;
      if m.term > election.term {
        fx := StepDown(s, m.term);
        s1 := BecomeFollower(s, m.term);
      }
      var l := log.Window();
      if if LastTerm(l) != m.lastTerm then LastTerm(l) > m.lastTerm else LastIndex(l) > m.lastIndex {
        return VoteReply(self, m.from, election.term, false), fx;
      }
      var ok := election.GrantVoteTo(m.from);
      if ok {
        fx := fx.(hardState := Some(election.Hard()));
      }
      reply := VoteReply(self, m.from, election.term, ok);
    }

    method FollowLeader(ghost s: State, term: int) returns (fx: Effects)
      requires Valid() && In(s) && term >= s.term
      modifies election
      ensures Valid() && In(StepTo(s, term)) && Saves(s, StepTo(s, term), fx) && fx.messages == {}
      ensures fx.toAppend == [] && fx.toRewrite == None
    {
      fx := NO_EFFECTS;
      assert s.log.entries + [] == s.log.entries;
      if term > election.term || !election.role.Follower? {
        fx := StepDown(s, term);
      }
    }

    /** The part of handle_append_entries after the previous record has been found to agree. */
    method TakeEntries(ghost s: State, es: Log, leaderCommit: int) returns (result: MergeResult)
      requires Valid() && In(s)
      modifies log, apply`commit, this`recovering
      ensures Valid() && result == Merge(s.log, es)
      ensures result.Gap? ==> In(s)
      ensures result.Merged? ==> In(CommitFromLeader(s.(log := result.log), leaderCommit).(recovering := false))
    {
      result := log.AppendEntriesFromLeader(es);
      if result.Merged? {
        apply.AdvanceCommitFromLeader(log.Window(), leaderCommit);
        recovering := false;
      }
    }

    method HandleAppendEntries(ghost s: State, m: Message) returns (reply: Message, fx: Effects)
      requires Valid() && In(s) && m.AppendEntries?
      modifies election, log, apply`commit, this`recovering
      ensures Valid() && In(OnAppendEntries(s, m).state) && {reply} == OnAppendEntries(s, m).sent
      ensures Saves(s, OnAppendEntries(s, m).state, fx)
    {
      var last := LastIndex(log.Window());
      if m.from !in Ids(membership.members) || m.term < election.term {
        Unsaved(s);
        return Answer(self, election.term, m, false, last), NO_EFFECTS;
      }
      fx := FollowLeader(s, m.term);
      ghost var s1 := StepTo(s, m.term);
      if m.prev > 0 && (m.prev < log.snapIndex || TermAt(log.Window(), m.prev) != m.prevTerm) {
        return Answer(self, election.term, m, false, last), fx;
      }
      var result := TakeEntries(s1, m.entries, m.commit);
      if result.Gap? {
        return Answer(self, election.term, m, false, last), fx;
      }
      MergeSaves(s, s1, m.entries, result, fx);
      fx := fx.(toAppend := result.toAppend, toRewrite := result.toRewrite);
      reply := Answer(self, election.term, m, true, last);
    }

    /** try_update_commit_index: the scan over the log is the commit rule of module Replica. */
    method TryUpdateCommitIndex(ghost s: State)
      requires Valid() && In(s) && s.role.Leader?
      modifies apply`commit
      ensures Valid() && In(TryCommit(s)) && (!recovering ==> Commits(log.Window(), election.term,
                VoterIds(membership.members), self, replication.matched, old(apply.commit), apply.commit))
    {
      if recovering {
        return;
      }
      ghost var ms := membership.members;
      var _ := replication.TryAdvanceCommitIndex(membership.members, log.Window(), election.term, apply);
      if s.commit <= LastIndex(s.log) {
        CommitRuleIsOrderStatistic(s, ms);
      }
    }

    /** A peer has acknowledged everything up to this index. */
    method PeerAdvanced(ghost s: State, p: ReplicaId, prev: int, count: nat)
      requires Valid() && In(s) && s.role.Leader?
      modifies replication, apply`commit
      ensures Valid() && In(TryCommit(Advance(s, p, prev + count)))
      ensures Progress(replication.matched, p) == Max(old(Progress(replication.matched, p)), prev + count)
      ensures forall q :: q != p ==> Progress(replication.matched, q) == old(Progress(replication.matched, q))
      ensures !recovering ==> Commits(log.Window(), election.term, VoterIds(membership.members), self,
                                      replication.matched, old(apply.commit), apply.commit)
    {
      replication.HandleAppendOk(p, prev, count);
      TryUpdateCommitIndex(Advance(s, p, prev + count));
    }

    /** The reply answers what this leader last sent to that peer. */
    ghost predicate Awaits(m: Message)
      reads this, election, replication
      requires m.AppendReply?
    {
      && !recovering && election.role.Leader? && m.term <= election.term && m.sentTerm == election.term
      && m.prev + 1 == Progress(replication.next, m.from)
    }

    /** The reply belongs to the current term or an earlier one. */
    method TakeAnswer(ghost s: State, m: Message)
      requires Valid() && In(s) && m.AppendReply? && (s.recovering || m.term <= s.term)
      modifies replication, apply`commit
      ensures Valid() && In(AfterAppendReply(s, m))
      ensures old(Awaits(m)) && m.success ==>
                && Progress(replication.matched, m.from)
                   == Max(old(Progress(replication.matched, m.from)), m.prev + m.count)
                && (forall p :: p != m.from ==>
                      Progress(replication.matched, p) == old(Progress(replication.matched, p)))
                && Commits(log.Window(), election.term, VoterIds(membership.members), self, replication.matched,
                           old(apply.commit), apply.commit)
      ensures !(old(Awaits(m)) && m.success) ==> apply.commit == old(apply.commit)
    {
      if recovering || m.sentTerm != election.term || !election.role.Leader?
         || m.prev + 1 != Progress(replication.next, m.from) {
        return;
      }
      if m.success {
        PeerAdvanced(s, m.from, m.prev, m.count);
      } else {
        PeerRejected(s, m.from, m.lastIndex);
      }
    }

    method HandleAppendResponse(ghost s: State, m: Message) returns (fx: Effects)
      requires Valid() && In(s) && m.AppendReply?
      modifies election, replication, apply`commit
      ensures Valid() && Saves(s, AfterAppendReply(s, m), fx) && In(AfterAppendReply(s, m))
      ensures old(Awaits(m)) && m.success ==>
                && Progress(replication.matched, m.from)
                   == Max(old(Progress(replication.matched, m.from)), m.prev + m.count)
                && (forall p :: p != m.from ==>
                      Progress(replication.matched, p) == old(Progress(replication.matched, p)))
                && Commits(log.Window(), election.term, VoterIds(membership.members), self, replication.matched,
                           old(apply.commit), apply.commit)
      ensures !(old(Awaits(m)) && m.success) ==> apply.commit == old(apply.commit)
    {
      if !recovering && m.term > election.term {
        fx := StepDown(s, m.term);
        return;
      }
      fx := NO_EFFECTS;
      ReplySaves(s, m);
      TakeAnswer(s, m);
    }

    method PeerRejected(ghost s: State, p: ReplicaId, followerLast: int)
      requires Valid() && In(s)
      modifies replication
      ensures Valid() && In(BackOff(s, p, followerLast))
    {
      replication.HandleAppendFailed(p, followerLast, LastIndex(log.Window()));
    }

    method AppendNewEntry(ghost s: State, payload: LogEntry) returns (fx: Effects)
      requires Valid() && In(s)
      modifies log
      ensures Valid() && In(Appended(s, payload)) && Saves(s, Appended(s, payload), fx) && fx.messages == {}
      ensures fx.toRewrite == None && fx.hardState == None
    {
      var index := log.AppendNewEntry(election.term, payload);
      fx := NO_EFFECTS.(toAppend := [payload.(term := election.term, index := index)]);
    }

    /** broadcast_append_entries: one message per peer that needs records or a snapshot. */
    method Broadcast(ghost s: State) returns (sent: set<Message>)
      requires Valid() && In(s) && s.role.Leader? && 0 <= LastIndex(s.log)
      modifies replication`next, replication`inflight
      ensures Valid() && In(ReplicateEach(s, Others(membership.members, self)).state)
      ensures sent == ReplicateEach(s, Others(membership.members, self)).sent
      ensures AllSupplied(sent, s) && 0 <= LastIndex(log.Window())
    {
      EachSupplied(s, membership.members);
      var peers := Others(membership.members, self);
      sent := {};
      ghost var now := s;
      for k := 0 to |peers|
        invariant Valid() && In(now) && now.role.Leader? && now.log == s.log
        invariant ReplicateEach(s, peers) ==
                  var rest := ReplicateEach(now, peers[k..]);
                  Outcome(rest.state, sent + rest.sent)
      {
        assert peers[k..][0] == peers[k] && peers[k..][1..] == peers[k + 1..];
        var more := SendTo(now, peers[k]);
        now := Replicate(now, peers[k]).state;
        sent := sent + more;
      }
    }

    method SendTo(ghost s: State, p: ReplicaId) returns (sent: set<Message>)
      requires Valid() && In(s) && s.role.Leader? && 0 <= LastIndex(s.log)
      modifies replication`next, replication`inflight
      ensures Valid() && In(Replicate(s, p).state) && sent == Replicate(s, p).sent
    {
      var l := log.Window();
      if Progress(replication.next, p) == 0 {
        replication.InitialNext(p, LastIndex(l));
      }
      var next := Progress(replication.next, p);
      if next - 1 < l.snapIndex {
        var ok := replication.MarkSnapshotInflight(p, l.snapIndex);
        sent := if ok then {InstallSnapshot(self, p, election.term, l.snapIndex, l.snapTerm, snapshot)} else {};
      } else {
        sent := {AppendEntries(self, p, election.term, next - 1, TermAt(l, next - 1),
                               EntriesFrom(l, next, MAX_ENTRIES_PER_MESSAGE), apply.commit, 0)};
      }
    }

    /** No other vote is ever needed. */
    ghost predicate Alone()
      reads membership
    {
      |VoterIds(membership.members)| <= 1
    }

    /** A new leader's log is what it had and its first record, and every other member is sent that record. */
    ghost predicate Announced(before: View, commit: int, after: View, sent: set<Message>)
      reads this, election, membership
    {
      var first := FirstRecord(election.term, LastIndex(before) + 1);
      && after == Append(before, first)
      && forall p :: p in Ids(membership.members) && p != self ==>
           AppendEntries(self, p, election.term, LastIndex(before), TermAt(before, LastIndex(before)), [first],
                         commit, 0) in sent
    }

    /** become_leader up to its first record. */
    method TakeLead(ghost s: State) returns (fx: Effects)
      requires Valid() && In(s) && CanLead(s) && 0 <= LastIndex(s.log)
      modifies election, replication, log
      ensures Valid() && In(Lead(s)) && Saves(s, Lead(s), fx) && fx.messages == {}
      ensures fx.toRewrite == None && fx.hardState == None
      ensures log.Window() == Append(old(log.Window()), FirstRecord(election.term, LastIndex(old(log.Window())) + 1))
      ensures election.role.Leader? && election.term == old(election.term)
    {
      election.BecomeLeader();
      var last := LastIndex(log.Window());
      replication.ResetForLeader(Ids(membership.members), last);
      ghost var s1 := s.(role := Leader, granted := {}, next := replication.next, matched := replication.matched,
                         inflight := replication.inflight);
      var noop := LogEntry(0, 0, Noop, [], [], [], NoMember(), NoReplica(), []);
      fx := AppendNewEntry(s1, noop);
      LeadIs(s, s1, noop);
    }

    /** become_leader up to its first broadcast. */
    method Announce(ghost s: State) returns (fx: Effects)
      requires Valid() && In(s) && CanLead(s) && 0 <= LastIndex(s.log)
      modifies election, replication, log
      ensures Valid() && In(ReplicateEach(Lead(s), Others(membership.members, self)).state) && Saves(s, Lead(s), fx)
      ensures fx.messages == ReplicateEach(Lead(s), Others(membership.members, self)).sent && fx.hardState == None
      ensures Announced(old(log.Window()), apply.commit, log.Window(), fx.messages)
    {
      fx := TakeLead(s);
      var sent := Broadcast(Lead(s));
      fx := fx.(messages := sent);
      NewsIsSent(s, sent);
    }

    /** A leader that needs no other vote commits its last record at once. */
    method CommitAlone(ghost s: State)
      requires Valid() && In(s) && s.role.Leader? && !s.recovering && TermAt(s.log, LastIndex(s.log)) == s.term
      modifies apply`commit
      ensures Valid() && In(if QuorumSize(s.voters) <= 1 then TryCommit(s) else s)
      ensures Alone() ==> apply.commit >= LastIndex(log.Window())
    {
      var alone := membership.HasQuorum(1);
      if alone {
        TryUpdateCommitIndex(s);
        OwnIsAttested(s, VoterIds(membership.members), replication.matched);
      }
    }

    method BecomeLeader(ghost s: State) returns (fx: Effects)
      requires Valid() && In(s) && CanLead(s) && 0 <= LastIndex(s.log)
      modifies election, replication, log, apply`commit
      ensures Valid() && In(Elected(s, Others(membership.members, self)).state)
      ensures fx.messages == Elected(s, Others(membership.members, self)).sent && fx.hardState == None
      ensures Saves(s, Elected(s, Others(membership.members, self)).state, fx)
      ensures election.role.Leader? && election.term == old(election.term)
      ensures Announced(old(log.Window()), old(apply.commit), log.Window(), fx.messages)
      ensures Alone() ==> apply.commit >= LastIndex(log.Window())
    {
      fx := Announce(s);
      ghost var o := ReplicateEach(Lead(s), Others(membership.members, self));
      EachKeeps(Lead(s), Others(membership.members, self));
      FirstIsLast(s.log, FirstRecord(s.term, LastIndex(s.log) + 1));
      CommitAlone(o.state);
    }

    method StartCampaign(ghost s: State) returns (saved: HardState)
      requires Valid() && In(s) && !s.role.Leader? && s.id in s.voters && !s.recovering
      modifies election
      ensures Valid() && In(Campaign(s).state) && saved == HardState(Campaign(s).state.term, Campaign(s).state.votedFor)
    {
      election.BecomeCandidate();
      saved := election.Hard();
    }

    method BecomeCandidate(ghost s: State) returns (fx: Effects)
      requires Valid() && In(s) && !s.role.Leader? && 0 <= LastIndex(s.log)
      modifies election, replication, log, apply`commit
      ensures Valid() && In(AfterTimeout(s, Others(membership.members, self)).state)
      ensures fx.messages == AfterTimeout(s, Others(membership.members, self)).sent
      ensures Saves(s, AfterTimeout(s, Others(membership.members, self)).state, fx)
      ensures recovering || self !in VoterIds(membership.members) ==> fx == NO_EFFECTS && In(s)
      ensures !recovering && self in VoterIds(membership.members) ==>
                && election.term == old(election.term) + 1 && election.votedFor == Some(self)
                && fx.hardState == Some(HardState(election.term, Some(self)))
                && (if Alone() then
                      && election.role.Leader? && apply.commit >= LastIndex(log.Window())
                      && Announced(old(log.Window()), old(apply.commit), log.Window(), fx.messages)
                    else
                      && election.role.Candidate? && election.granted == {self}
                      && forall p :: p in VoterIds(membership.members) && p != self ==>
                           RequestVote(self, p, election.term, LastIndex(log.Window()), LastTerm(log.Window()))
                           in fx.messages)
    {
      if recovering || self !in VoterIds(membership.members) {
        Unsaved(s);
        return NO_EFFECTS;
      }
      var saved := StartCampaign(s);
      ghost var s1 := Campaign(s).state;
      var alone := membership.HasQuorum(1);
      if alone {
        fx := BecomeLeader(s1);
        AlsoSaved(s, s1, Elected(s1, Others(membership.members, self)).state, fx);
        fx := fx.(hardState := Some(saved));
      } else {
        var l := log.Window();
        var term := election.term;
        fx := Effects(Some(saved), [], None, set p | p in VoterIds(membership.members) && p != self ::
                        RequestVote(self, p, term, LastIndex(l), LastTerm(l)));
        assert s.log.entries + [] == s.log.entries;
      }
    }

    /** A vote for this candidate's election that it does not have yet. */
    ghost predicate NewVote(m: Message)
      reads this, election, membership
      requires m.VoteReply?
    {
      && !recovering && election.role.Candidate? && m.term == election.term && m.granted
      && m.from in VoterIds(membership.members) - election.granted
    }

    /** Counting one vote; the answer is whether it decides the election. */
    method CountVote(ghost s: State, m: Message) returns (won: bool)
      requires Valid() && In(s) && m.VoteReply? && (m.term <= s.term || s.recovering || !s.role.Candidate?)
      modifies election`granted
      ensures Valid() && In(OnVoteReply(s, m))
      ensures won <==> OnVoteReply(s, m).granted != s.granted && CanLead(OnVoteReply(s, m))
      ensures old(NewVote(m)) ==> election.granted == old(election.granted) + {m.from}
      ensures won <==> old(NewVote(m)) && self in VoterIds(membership.members)
                       && |old(election.granted)| + 1 > |VoterIds(membership.members)| / 2
    {
      if recovering || !election.role.Candidate? || m.term < election.term || !m.granted
         || m.from !in VoterIds(membership.members) {
        return false;
      }
      var added := election.RecordVoteGrantedFrom(m.from);
      if !added {
        return false;
      }
      assert m.from in election.granted && m.from !in s.granted;
      won := membership.HasQuorum(|election.granted|);
      won := won && self in VoterIds(membership.members);
    }

    method HandleVoteResponse(ghost s: State, m: Message) returns (fx: Effects)
      requires Valid() && In(s) && m.VoteReply? && 0 <= LastIndex(s.log)
      modifies election, replication, log, apply`commit
      ensures Valid() && In(AfterVoteReply(s, m, Others(membership.members, self)).state)
      ensures fx.messages == AfterVoteReply(s, m, Others(membership.members, self)).sent
      ensures Saves(s, AfterVoteReply(s, m, Others(membership.members, self)).state, fx)
      ensures old(NewVote(m)) ==>
                && election.term == old(election.term)
                && (if self in VoterIds(membership.members)
                         && |old(election.granted)| + 1 > |VoterIds(membership.members)| / 2 then
                      && election.role.Leader?
                      && Announced(old(log.Window()), old(apply.commit), log.Window(), fx.messages)
                    else election.role.Candidate? && election.granted == old(election.granted) + {m.from})
    {
      if !recovering && election.role.Candidate? && m.term > election.term {
        fx := StepDown(s, m.term);
        return;
      }
      Unsaved(s);
      fx := NO_EFFECTS;
      var won := CountVote(s, m);
      if won {
        fx := BecomeLeader(OnVoteReply(s, m));
      }
    }

    /** A record is appended and sent. */
    method AppendAndSend(ghost s: State, payload: LogEntry) returns (fx: Effects)
      requires Valid() && In(s) && WritableLeader(s) && 0 <= LastIndex(s.log)
      modifies log, replication
      ensures Valid() && In(ReplicateEach(Replica.Propose(s, payload), Others(membership.members, self)).state)
      ensures fx.messages == ReplicateEach(Replica.Propose(s, payload), Others(membership.members, self)).sent
      ensures Saves(s, Replica.Propose(s, payload), fx)
      ensures log.Window() == Append(s.log, payload.(term := s.term, index := LastIndex(s.log) + 1))
      ensures AllSupplied(fx.messages, s.(log := log.Window()))
    {
      fx := AppendNewEntry(s, payload);
      var sent := Broadcast(Replica.Propose(s, payload));
      fx := fx.(messages := sent);
    }

    /** propose on a writable leader; refused with no effect anywhere else. */
    method Propose(ghost s: State, payload: LogEntry) returns (ok: bool, fx: Effects)
      requires Valid() && In(s) && 0 <= LastIndex(s.log)
      modifies log, replication, apply`commit
      ensures Valid() && (ok <==> WritableLeader(s))
              && In(AfterPropose(s, payload, Others(membership.members, self)).state)
      ensures fx.messages == AfterPropose(s, payload, Others(membership.members, self)).sent
      ensures Saves(s, AfterPropose(s, payload, Others(membership.members, self)).state, fx)
      ensures ok ==>
                && log.Window() == Append(old(log.Window()), payload.(term := election.term,
                                                                      index := LastIndex(old(log.Window())) + 1))
                && AllSupplied(fx.messages, s.(log := log.Window()))
                && (Alone() ==> apply.commit >= LastIndex(log.Window()))
    {
      ok := !recovering && election.role.Leader? && self in VoterIds(membership.members);
      Unsaved(s);
      fx := NO_EFFECTS;
      if !ok {
        return;
      }
      fx := AppendAndSend(s, payload);
      ghost var s1 := Replica.Propose(s, payload);
      EachKeeps(s1, Others(membership.members, self));
      FirstIsLast(s.log, payload.(term := s.term, index := LastIndex(s.log) + 1));
      CommitAlone(ReplicateEach(s1, Others(membership.members, self)).state);
    }

    method ChangeMembers(ghost s: State, e: LogEntry) returns (ok: bool)
      requires Valid() && In(s)
      modifies membership
      ensures Valid() && (ok <==> IsConfigChange(e.op) && (e.op.PromoteVoter? ==> e.configReplica in s.peers))
      ensures In(if ok then s.(peers := PeersAfter(e, s.peers), voters := VotersAfter(e, s.peers, s.voters)) else s)
      ensures ok ==> Changed(e, old(Ids(membership.members)), old(VoterIds(membership.members)),
                             Ids(membership.members), VoterIds(membership.members))
    {
      ok := IsConfigChange(e.op);
      match e.op {
        case AddLearner => membership.AddLearner(e.configMember);
        case PromoteVoter => ok := membership.PromoteVoter(e.configReplica);
        case RemoveMember => membership.RemoveMember(e.configReplica);
        case _ =>
      }
    }

    /** A replica that is no longer a member follows. */
    method LeaveIfRemoved(ghost s: State)
      requires Valid() && In(s)
      modifies election
      ensures Valid() && In(if s.id in s.peers || s.role.Follower? then s else BecomeFollower(s, s.term))
      ensures election.role == if self in Ids(membership.members) then old(election.role) else Follower
      ensures election.term == old(election.term)
    {
      if self !in Ids(membership.members) && !election.role.Follower? {
        var changed := election.BecomeFollower(election.term);
      }
    }

    /** apply_config_entry: the member list changes, and a replica that is no longer on it steps down.
        An unknown replica cannot be promoted. */
    method ApplyConfigEntry(ghost s: State, e: LogEntry) returns (ok: bool)
      requires Valid() && In(s)
      modifies membership, election, apply`applied
      ensures Valid() && (ok <==> IsConfigChange(e.op) && (e.op.PromoteVoter? ==> e.configReplica in s.peers))
      ensures In(if ok then AfterConfig(s, e) else s)
      ensures ok ==>
                && Changed(e, old(Ids(membership.members)), old(VoterIds(membership.members)),
                           Ids(membership.members), VoterIds(membership.members))
                && apply.applied == Max(e.index, old(apply.applied)) && election.term == old(election.term)
                && election.role == if self in Ids(membership.members) then old(election.role) else Follower
    {
      ok := ChangeMembers(s, e);
      if ok {
        LeaveIfRemoved(s.(peers := PeersAfter(e, s.peers), voters := VotersAfter(e, s.peers, s.voters)));
        apply.AdvanceLastApplied(e.index);
      }
    }

    /** install_snapshot: the log is cut to what agrees with the snapshot, and its members take effect. */
    method TakeOver(ghost s: State, m: Message, members: Members) returns (retained: Log)
      requires Valid() && In(s) && m.InstallSnapshot? && 0 <= m.index && UniqueIds(members)
      modifies log, apply, membership, this
      ensures Valid() && In(TakenOver(s, m, members)) && retained == TakenOver(s, m, members).log.entries
    {
      retained := log.InstallSnapshot(m.index, m.snapTerm);
      apply.InstallSnapshot(m.index);
      snapshot, recovering := m.contents, false;
      if members != [] {
        membership.members := members;
      }
    }

    /** The last chunk of a snapshot has arrived: prepare_install_snapshot, then the installation
        itself unless the log already covers it, with the members its header names. */
    method HandleInstallSnapshot(ghost s: State, m: Message, members: Members) returns (reply: Message, fx: Effects)
      requires Valid() && In(s) && m.InstallSnapshot? && 0 <= m.index && UniqueIds(members)
      modifies election, log, apply, membership, this
      ensures Valid() && In(AfterInstall(s, m, members)) && {reply} == OnInstallSnapshot(s, m).sent
      ensures Saves(s, AfterInstall(s, m, members), fx)
    {
      Unsaved(s);
      fx := NO_EFFECTS;
      if m.from !in Ids(membership.members) || m.term < election.term {
        return SnapshotReply(self, m.from, m.term, m.index, election.term, false, 0), fx;
      }
      fx := FollowLeader(s, m.term);
      var l := log.Window();
      if !(m.index <= apply.commit || (!recovering && m.index <= LastIndex(l) && TermAt(l, m.index) == m.snapTerm)) {
        var retained := TakeOver(StepTo(s, m.term), m, members);
        fx := fx.(toRewrite := Some(retained));
        assert retained + [] == retained;
      }
      reply := SnapshotReply(self, m.from, m.term, m.index, election.term, true, Max(m.index, log.snapIndex));
    }

    method HandleSnapshotResponse(ghost s: State, m: Message) returns (fx: Effects)
      requires Valid() && In(s) && m.SnapshotReply?
      modifies election, replication
      ensures Valid() && In(OnSnapshotReply(s, m)) && Saves(s, OnSnapshotReply(s, m), fx) && fx.messages == {}
    {
      Unsaved(s);
      fx := NO_EFFECTS;
      if recovering {
        return;
      }
      if m.term > election.term {
        fx := StepDown(s, m.term);
        return;
      }
      if !election.role.Leader? || m.sentTerm != election.term {
        return;
      }
      replication.ClearSnapshotInflight(m.from, m.sentIndex);
      if m.ok {
        replication.UpdateSnapshotWatermark(m.from, Max(m.watermark, m.sentIndex));
      }
    }
  }

  /** What a config record makes of the members and the voters. */
  ghost predicate Changed(e: LogEntry, ids: set<ReplicaId>, voters: set<ReplicaId>, ids': set<ReplicaId>,
                          voters': set<ReplicaId>) {
    match e.op
    case AddLearner => ids' == ids + {e.configMember.replicaId} && voters' == voters
    case PromoteVoter => ids' == ids && voters' == voters + {e.configReplica}
    case RemoveMember => ids' == ids - {e.configReplica} && voters' == voters - {e.configReplica}
    case _ => false
  }

  function Append(l: View, e: LogEntry): View { l.(entries := l.entries + [e]) }

  /** The record without contents that a leader starts its term with. */
  function FirstRecord(term: int, index: int): LogEntry {
    LogEntry(term, index, Noop, [], [], [], NoMember(), NoReplica(), [])
  }

  /** p is sent what it lacks: the records from its next index on, or the snapshot if those are gone and none is on
      its way. A peer nothing is known about starts at the end of the log. */
  ghost predicate Supplied(sent: set<Message>, s: State, p: ReplicaId) {
    var next := if Progress(s.next, p) == 0 then LastIndex(s.log) + 1 else Progress(s.next, p);
    if next > s.log.snapIndex then
      AppendEntries(s.id, p, s.term, next - 1, TermAt(s.log, next - 1),
                    EntriesFrom(s.log, next, MAX_ENTRIES_PER_MESSAGE), s.commit, 0) in sent
    else
      Progress(s.inflight, p) <= 0 ==>
        InstallSnapshot(s.id, p, s.term, s.log.snapIndex, s.log.snapTerm, s.snapshot) in sent
  }

  ghost predicate AllSupplied(sent: set<Message>, s: State) {
    forall p :: p in s.peers && p != s.id ==> Supplied(sent, s, p)
  }

  lemma {:induction false} EachSends(s: State, ps: seq<ReplicaId>, p: ReplicaId)
    requires s.role.Leader? && p in ps
    ensures Replicate(s, p).sent <= ReplicateEach(s, ps).sent
    decreases |ps|
  {
    if ps[0] != p {
      SendsTheSame(s, ps[0], p);
      EachSends(Replicate(s, ps[0]).state, ps[1..], p);
    }
  }

  lemma SendsTheSame(s: State, q: ReplicaId, p: ReplicaId)
    requires s.role.Leader? && q != p
    ensures Replicate(s, q).state.role.Leader? && Replicate(Replicate(s, q).state, p).sent == Replicate(s, p).sent
  {
    var s' := Replicate(s, q).state;
    TouchesOne(s, q, p);
    SentAlike(s, s', p);
  }

  lemma TouchesOne(s: State, q: ReplicaId, p: ReplicaId)
    requires s.role.Leader? && q != p
    ensures SameSender(s, Replicate(s, q).state, p)
  {
  }

  ghost predicate SameSender(s: State, s': State, p: ReplicaId) {
    && s'.id == s.id && s'.role == s.role && s'.term == s.term && s'.log == s.log && s'.snapshot == s.snapshot
    && s'.commit == s.commit && NextIndex(s', p) == NextIndex(s, p) && Inflight(s', p) == Inflight(s, p)
  }

  lemma SentAlike(s: State, s': State, p: ReplicaId)
    requires s.role.Leader? && SameSender(s, s', p)
    ensures Replicate(s', p).sent == Replicate(s, p).sent
  {
  }

  lemma {:induction false} AmongOthers(ms: Members, self: ReplicaId, p: ReplicaId)
    requires p in Ids(ms) && p != self
    ensures p in Others(ms, self)
    decreases |ms|
  {
    if ms[0].peer.replicaId != p { AmongOthers(ms[1..], self, p); }
  }

  lemma EachSupplied(s: State, ms: Members)
    requires s.role.Leader? && s.peers == Ids(ms)
    ensures AllSupplied(ReplicateEach(s, Others(ms, s.id)).sent, s)
  {
    forall p | p in s.peers && p != s.id ensures Supplied(ReplicateEach(s, Others(ms, s.id)).sent, s, p) {
      AmongOthers(ms, s.id, p);
      EachSends(s, Others(ms, s.id), p);
      OneSupplied(s, p, ReplicateEach(s, Others(ms, s.id)).sent);
    }
  }

  lemma OneSupplied(s: State, p: ReplicaId, sent: set<Message>)
    requires s.role.Leader? && Replicate(s, p).sent <= sent
    ensures Supplied(sent, s, p)
  {
  }

  /** What every peer of a new leader is sent is its first record. */
  lemma NewsIsSent(s: State, sent: set<Message>)
    requires CanLead(s) && WellFormed(s.log) && AllSupplied(sent, Lead(s))
    ensures var first := FirstRecord(s.term, LastIndex(s.log) + 1);
            forall p :: p in s.peers && p != s.id ==>
              AppendEntries(s.id, p, s.term, LastIndex(s.log), TermAt(s.log, LastIndex(s.log)), [first], s.commit, 0)
              in sent
  {
    var last, first, l := LastIndex(s.log), FirstRecord(s.term, LastIndex(s.log) + 1), Lead(s).log;
    FirstIsLast(s.log, first);
    forall p | p in s.peers && p != s.id
      ensures AppendEntries(s.id, p, s.term, last, TermAt(s.log, last), [first], s.commit, 0) in sent
    {
      assert Supplied(sent, Lead(s), p);
    }
  }

  lemma FirstIsLast(l: View, e: LogEntry)
    requires WellFormed(l) && e.index == LastIndex(l) + 1
    ensures EntriesFrom(Append(l, e), LastIndex(l) + 1, MAX_ENTRIES_PER_MESSAGE) == [e]
    ensures TermAt(Append(l, e), LastIndex(l)) == TermAt(l, LastIndex(l)) && LastIndex(l) >= l.snapIndex
    ensures LastIndex(Append(l, e)) == e.index && TermAt(Append(l, e), e.index) == e.term
  {
  }

  /** Alone, a leader's own last record may be committed. */
  lemma OwnIsAttested(s: State, voters: set<ReplicaId>, matched: map<ReplicaId, int>)
    requires |voters| <= 1 && TermAt(s.log, LastIndex(s.log)) == s.term
    ensures Attested(s.log, s.term, voters, s.id, matched, LastIndex(s.log))
  {
  }

  /** A new term and vote are saved together with whatever else follows in the same step. */
  lemma AlsoSaved(s: State, s1: State, t: State, fx: Effects)
    requires Saves(s1, t, fx) && s1.log == s.log && fx.hardState == None
    ensures Saves(s, t, fx.(hardState := Some(HardState(s1.term, s1.votedFor))))
  {
  }

  /** An election timeout of a voter: a campaign, won at once if no other vote is needed. */
  ghost function AfterTimeout(s: State, peers: seq<ReplicaId>): Outcome
    requires !s.role.Leader?
  {
    if s.recovering || s.id !in s.voters then Outcome(s, {})
    else if QuorumSize(s.voters) <= 1 then Elected(Campaign(s).state, peers)
    else Campaign(s)
  }

  /** A vote reply, followed by the change of role it may bring about. */
  ghost function AfterVoteReply(s: State, m: Message, peers: seq<ReplicaId>): Outcome
    requires m.VoteReply?
  {
    var s1 := OnVoteReply(s, m);
    if s1.granted != s.granted && CanLead(s1) then Elected(s1, peers) else Outcome(s1, {})
  }

  ghost function AfterPropose(s: State, payload: LogEntry, peers: seq<ReplicaId>): Outcome {
    if !WritableLeader(s) then Outcome(s, {})
    else
      EachKeeps(Replica.Propose(s, payload), peers);
      var o := ReplicateEach(Replica.Propose(s, payload), peers);
      if QuorumSize(s.voters) <= 1 then o.(state := TryCommit(o.state)) else o
  }

  ghost predicate CanLead(s: State) {
    s.role.Candidate? && s.id in s.voters && !s.recovering && |s.granted| >= QuorumSize(s.voters)
  }

  lemma LeadIs(s: State, s1: State, noop: LogEntry)
    requires CanLead(s) && noop == LogEntry(0, 0, Noop, [], [], [], NoMember(), NoReplica(), [])
    requires s1 == s.(role := Leader, granted := {}, next := map p | p in s.peers && p != s.id :: LastIndex(s.log) + 1,
                      matched := map p | p in s.peers && p != s.id :: 0,
                      inflight := map p | p in s.peers && p != s.id :: 0)
    ensures Appended(s1, noop) == Lead(s)
  {
    assert s1.next == Lead(s).next && s1.matched == Lead(s).matched && s1.inflight == Lead(s).inflight;
  }

  /** Leading, telling every peer, and committing at once if no other vote is needed. */
  ghost function Elected(s: State, peers: seq<ReplicaId>): Outcome
    requires CanLead(s)
  {
    EachKeeps(Lead(s), peers);
    var o := ReplicateEach(Lead(s), peers);
    if QuorumSize(s.voters) <= 1 then o.(state := TryCommit(o.state)) else o
  }

  lemma {:induction false} EachKeeps(s: State, ps: seq<ReplicaId>)
    requires s.role.Leader?
    ensures var s' := ReplicateEach(s, ps).state;
            s'.role.Leader? && s'.id == s.id && s'.voters == s.voters && s'.term == s.term && s'.votedFor == s.votedFor
            && s'.log == s.log && s'.recovering == s.recovering
    decreases |ps|
  {
    if ps != [] { EachKeeps(Replicate(s, ps[0]).state, ps[1..]); }
  }

  /** A config record applied. */
  function AfterConfig(s: State, e: LogEntry): State {
    var s1 := s.(peers := PeersAfter(e, s.peers), voters := VotersAfter(e, s.peers, s.voters),
                 applied := Max(e.index, s.applied));
    if s.id in s1.peers || s.role.Follower? then s1 else BecomeFollower(s1, s.term)
  }

  /** The handler takes the snapshot over: its sender is a current leader, and the log does not cover it. */
  predicate Overtaken(s: State, m: Message)
    requires m.InstallSnapshot?
  {
    && m.from in s.peers && m.term >= s.term
    && !(m.index <= s.commit
         || (!s.recovering && m.index <= LastIndex(s.log) && TermAt(s.log, m.index) == m.snapTerm))
  }

  function TakenOver(s: State, m: Message, members: Members): State
    requires m.InstallSnapshot?
  {
    s.(log := Installed(s.log, m.index, m.snapTerm), snapshot := m.contents, commit := Max(s.commit, m.index),
       applied := Max(s.applied, m.index), recovering := false,
       peers := if members == [] then s.peers else Ids(members),
       voters := if members == [] then s.voters else VoterIds(members))
  }

  /** A snapshot installed, and with it the members in its header. */
  function AfterInstall(s: State, m: Message, members: Members): State
    requires m.InstallSnapshot?
  {
    var s1 := OnInstallSnapshot(s, m).state;
    if Overtaken(s, m) && members != [] then s1.(peers := Ids(members), voters := VoterIds(members)) else s1
  }

  /** The commit rule, for a replica whose commit index is within its log. */
  function TryCommit(s: State): State
    requires s.role.Leader?
  {
    if !s.recovering && s.commit <= LastIndex(s.log) then AdvanceCommit(s) else s
  }

  /** A reply is taken in and, if it advanced the peer, the commit index follows. */
  function AfterAppendReply(s: State, m: Message): State
    requires m.AppendReply?
  {
    var s1 := OnAppendReply(s, m);
    if !s.recovering && m.term <= s.term && m.sentTerm == s.term && s.role.Leader? && m.prev + 1 == NextIndex(s, m.from)
       && m.success then TryCommit(s1) else s1
  }

  lemma ReplySaves(s: State, m: Message)
    requires m.AppendReply? && (s.recovering || m.term <= s.term)
    ensures Saves(s, AfterAppendReply(s, m), NO_EFFECTS)
  {
    assert s.log.entries + [] == s.log.entries;
  }

  function Appended(s: State, payload: LogEntry): State {
    s.(log := s.log.(entries := s.log.entries + [payload.(term := s.term, index := LastIndex(s.log) + 1)]))
  }

  function Others(ms: Members, self: ReplicaId): seq<ReplicaId> {
    if ms == [] then []
    else (if ms[0].peer.replicaId == self then [] else [ms[0].peer.replicaId]) + Others(ms[1..], self)
  }

  /** Replicating to one peer after another. */
  function ReplicateEach(s: State, ps: seq<ReplicaId>): Outcome
    requires s.role.Leader?
    decreases |ps|
  {
    if ps == [] then Outcome(s, {})
    else
      var first := Replicate(s, ps[0]);
      var rest := ReplicateEach(first.state, ps[1..]);
      Outcome(rest.state, first.sent + rest.sent)
  }

  lemma Unsaved(s: State)
    ensures Saves(s, s, NO_EFFECTS)
  {
    assert s.log.entries + [] == s.log.entries;
  }

  lemma MergeSaves(s: State, s1: State, es: Log, result: MergeResult, fx: Effects)
    requires WellFormed(s.log) && s1.log == s.log && result == Merge(s.log, es) && result.Merged?
    requires Saves(s, s1, fx) && fx.toAppend == [] && fx.toRewrite == None
    ensures forall s2: State :: s2.term == s1.term && s2.votedFor == s1.votedFor && s2.log == result.log
                         ==> Saves(s, s2, fx.(toAppend := result.toAppend, toRewrite := result.toRewrite))
  {
    MergeMirrorsDisk(s.log, es);
    var fx' := fx.(toAppend := result.toAppend, toRewrite := result.toRewrite);
    if result.toRewrite.Some? { assert result.toRewrite.value + [] == result.toRewrite.value; }
  }
}
