/** What one replica does with each input: RaftCore's handlers as functions from a replica's state to
    its next state and the messages it sends (the files of src/storage/raft/core).

    Each function is one atomic dispatch of the replica's loop, with its effects persisted before its
    messages leave (src/storage/replica/raft_step.cpp).  A message to or from a replica carries the
    data the source's parameter and result structures carry. */
module Replica {
  import opened Types
  import opened RaftLog

  const MAX_ENTRIES_PER_MESSAGE := 256

  datatype Role = Follower | PreCandidate | Candidate | Leader

  /** A read waiting for its round of confirmations (src/storage/replica/read_tracker.h). */
  datatype PendingRead = PendingRead(index: int, term: int, voters: set<ReplicaId>, confirmed: set<ReplicaId>)

  datatype State = State(
    id: ReplicaId,
    term: int,
    votedFor: Option<ReplicaId>,
    role: Role,
    granted: set<ReplicaId>,
    log: View,
    // The snapshot file.  A state-machine state is represented by the entries that produced it.
    snapshot: Log,
    commit: int,
    applied: int,
    peers: set<ReplicaId>,
    voters: set<ReplicaId>,
    next: map<ReplicaId, int>,
    matched: map<ReplicaId, int>,
    inflight: map<ReplicaId, int>,
    recovering: bool,
    pending: map<int, PendingRead>,
    nextSeq: int)

  datatype Message =
    | RequestVote(from: ReplicaId, to: ReplicaId, term: int, lastIndex: int, lastTerm: int)
    | VoteReply(from: ReplicaId, to: ReplicaId, term: int, granted: bool)
    | AppendEntries(from: ReplicaId, to: ReplicaId, term: int, prev: int, prevTerm: int, entries: Log, commit: int,
                    readSeq: int)
    | AppendReply(from: ReplicaId, to: ReplicaId, sentTerm: int, prev: int, count: nat, term: int, success: bool,
                  lastIndex: int)
    | ReadReply(from: ReplicaId, to: ReplicaId, seqNo: int, term: int)
    | InstallSnapshot(from: ReplicaId, to: ReplicaId, term: int, index: int, snapTerm: int, contents: Log)
    | SnapshotReply(from: ReplicaId, to: ReplicaId, sentTerm: int, sentIndex: int, term: int, ok: bool, watermark: int)

  datatype Outcome = Outcome(state: State, sent: set<Message>)

  // ---------------------------------------------------------------- election state

  function QuorumSize(voters: set<ReplicaId>): int { |voters| / 2 + 1 }

  /** RaftElection::become_follower: a vote is forgotten only together with its term. */
  function BecomeFollower(r: State, t: int): State {
    var r' := r.(role := Follower, granted := {});
    if t == r.term then r' else r'.(term := t, votedFor := None)
  }

  function StepTo(r: State, t: int): State {
    if t > r.term || !r.role.Follower? then BecomeFollower(r, t) else r
  }

  predicate LaterThan(r: State, otherTerm: int, otherIndex: int) {
    if LastTerm(r.log) != otherTerm then LastTerm(r.log) > otherTerm else LastIndex(r.log) > otherIndex
  }

  /** become_pre_candidate; a pre-vote round changes no persistent state. */
  function StartPreVote(r: State): State
    requires r.id in r.voters && !r.role.Leader? && !r.recovering
  {
    r.(role := PreCandidate, granted := {})
  }

  /** become_candidate: the next term, a vote for itself, a request to every other voter. */
  function Campaign(r: State): Outcome
    requires r.id in r.voters && !r.role.Leader? && !r.recovering
  {
    var r' := r.(role := Candidate, term := r.term + 1, votedFor := Some(r.id), granted := {r.id});
    Outcome(r', set p | p in r.voters && p != r.id :: RequestVote(r.id, p, r'.term, LastIndex(r.log), LastTerm(r.log)))
  }

  function OnRequestVote(r: State, m: Message): Outcome
    requires m.RequestVote?
  {
    if r.id !in r.voters || m.from !in r.voters || r.recovering || m.term < r.term then
      Outcome(r, {VoteReply(r.id, m.from, r.term, false)})
    else
      var r1 := if m.term > r.term then BecomeFollower(r, m.term) else r;
      if LaterThan(r1, m.lastTerm, m.lastIndex) || (r1.votedFor.Some? && r1.votedFor.value != m.from) then
        Outcome(r1, {VoteReply(r.id, m.from, r1.term, false)})
      else
        Outcome(r1.(votedFor := Some(m.from)), {VoteReply(r.id, m.from, r1.term, true)})
  }

  function OnVoteReply(r: State, m: Message): State
    requires m.VoteReply?
  {
    if r.recovering || !r.role.Candidate? then r
    else if m.term > r.term then BecomeFollower(r, m.term)
    else if m.term < r.term || !m.granted || m.from !in r.voters then r
    else r.(granted := r.granted + {m.from})
  }

  /** become_leader, taken as soon as the granted votes are a quorum. */
  function Lead(r: State): State
    requires r.role.Candidate? && r.id in r.voters && !r.recovering && |r.granted| >= QuorumSize(r.voters)
  {
    var others := r.peers - {r.id};
    var noop := NewEntry(r, Noop, [], [], [], NoMember(), NoReplica(), []);
    r.(role := Leader, granted := {},
       next := map p | p in others :: LastIndex(r.log) + 1,
       matched := map p | p in others :: 0,
       inflight := map p | p in others :: 0,
       log := r.log.(entries := r.log.entries + [noop]))
  }

  function NoReplica(): ReplicaId { ReplicaId(-1, -1, -1) }

  function NoMember(): PeerMember { PeerMember([], NoReplica(), Endpoint([], 0)) }

  // ---------------------------------------------------------------- log replication

  function NewEntry(r: State, op: WriteOp, key: Bytes, value: Bytes, expected: Bytes, member: PeerMember,
                    target: ReplicaId, requestId: Bytes): LogEntry {
    LogEntry(r.term, LastIndex(r.log) + 1, op, key, value, expected, member, target, requestId)
  }

  predicate WritableLeader(r: State) {
    !r.recovering && r.role.Leader? && r.id in r.voters
  }

  /** RaftLog::append_new_entry on a writable leader, for any payload. */
  function Propose(r: State, payload: LogEntry): State
    requires WritableLeader(r)
  {
    var e := payload.(term := r.term, index := LastIndex(r.log) + 1);
    r.(log := r.log.(entries := r.log.entries + [e]))
  }

  function NextIndex(r: State, p: ReplicaId): int { if p in r.next then r.next[p] else 0 }

  function MatchIndex(r: State, p: ReplicaId): int { if p in r.matched then r.matched[p] else 0 }

  function Inflight(r: State, p: ReplicaId): int { if p in r.inflight then r.inflight[p] else 0 }

  /** broadcast_append_entries, for one peer: the records from its next index, or the snapshot if
      those are gone and none is under way. */
  function Replicate(r: State, p: ReplicaId): Outcome
    requires r.role.Leader?
  {
    var r1 := if NextIndex(r, p) == 0 then r.(next := r.next[p := LastIndex(r.log) + 1]) else r;
    var next := NextIndex(r1, p);
    var prev := next - 1;
    if prev < r.log.snapIndex then
      if Inflight(r, p) > 0 then Outcome(r1, {})
      else Outcome(r1.(inflight := r1.inflight[p := r.log.snapIndex]),
                   {InstallSnapshot(r.id, p, r.term, r.log.snapIndex, r.log.snapTerm, r.snapshot)})
    else
      Outcome(r1, {AppendEntries(r.id, p, r.term, prev, TermAt(r.log, prev),
                                 EntriesFrom(r.log, next, MAX_ENTRIES_PER_MESSAGE), r.commit, 0)})
  }

  function Answer(self: ReplicaId, term: int, m: Message, success: bool, lastIndex: int): Message
    requires m.AppendEntries?
  {
    if m.readSeq != 0 then ReadReply(self, m.from, m.readSeq, term)
    else AppendReply(self, m.from, m.term, m.prev, |m.entries|, term, success, lastIndex)
  }

  function ReplyTo(r: State, m: Message, success: bool, lastIndex: int): Message
    requires m.AppendEntries?
  {
    Answer(r.id, r.term, m, success, lastIndex)
  }

  /** RaftApply::advance_commit_index_from_leader: clamped to the last log index. */
  function CommitFromLeader(r: State, leaderCommit: int): State {
    if leaderCommit > r.commit then r.(commit := Min(leaderCommit, LastIndex(r.log))) else r
  }

  /** The consistency check on the record before the ones sent. */
  predicate Checks(r: State, m: Message)
    requires m.AppendEntries?
  {
    m.prev > 0 ==> m.prev >= r.log.snapIndex && TermAt(r.log, m.prev) == m.prevTerm
  }

  function OnAppendEntries(r: State, m: Message): Outcome
    requires m.AppendEntries? && WellFormed(r.log)
  {
    var last := LastIndex(r.log);
    if m.from !in r.peers || m.term < r.term then Outcome(r, {ReplyTo(r, m, false, last)})
    else
      var r1 := StepTo(r, m.term);
      if !Checks(r, m) then
        Outcome(r1, {ReplyTo(r1, m, false, last)})
      else
        match Merge(r.log, m.entries)
        case Gap => Outcome(r1, {ReplyTo(r1, m, false, last)})
        case Merged(log, _, _) =>
          var r2 := CommitFromLeader(r1.(log := log), m.commit).(recovering := false);
          Outcome(r2, {ReplyTo(r2, m, true, last)})
  }

  /** handle_peer_append_ok. */
  function Advance(r: State, p: ReplicaId, upTo: int): State {
    var matched := if upTo > MatchIndex(r, p) then r.matched[p := upTo] else r.matched;
    var r' := r.(matched := matched);
    r'.(next := r.next[p := MatchIndex(r', p) + 1])
  }

  /** handle_peer_append_failed: jump back to the follower's end, else one step, never below match. */
  function BackOff(r: State, p: ReplicaId, followerLast: int): State {
    var current := NextIndex(r, p);
    var jump := Min(followerLast, LastIndex(r.log)) + 1;
    var lower := if jump >= current && current > 1 then current - 1 else jump;
    r.(next := r.next[p := Max(lower, MatchIndex(r, p) + 1)])
  }

  function OnAppendReply(r: State, m: Message): State
    requires m.AppendReply?
  {
    if r.recovering then r
    else if m.term > r.term then BecomeFollower(r, m.term)
    else if m.sentTerm != r.term || !r.role.Leader? || m.prev + 1 != NextIndex(r, m.from) then r
    else if m.success then Advance(r, m.from, m.prev + m.count)
    else BackOff(r, m.from, m.lastIndex)
  }

  /** The leader, whether or not it votes, and the voters whose logs are known to reach index n. */
  function Holders(r: State, n: int): set<ReplicaId> {
    {r.id} + set p | p in r.voters && p != r.id && MatchIndex(r, p) >= n
  }

  predicate Committable(r: State, n: int) {
    TermAt(r.log, n) == r.term && |Holders(r, n)| >= QuorumSize(r.voters)
  }

  /** try_advance_commit_index: the largest current-term index a quorum of voters holds. */
  function CommitRule(r: State, n: int): int
    requires r.commit <= n
    decreases n - r.commit
  {
    if n == r.commit then r.commit
    else if Committable(r, n) then n
    else CommitRule(r, n - 1)
  }

  function AdvanceCommit(r: State): State
    requires r.role.Leader? && r.commit <= LastIndex(r.log)
  {
    r.(commit := CommitRule(r, LastIndex(r.log)))
  }

  // ---------------------------------------------------------------- snapshots

  /** RaftLog::install_snapshot: records after the snapshot are kept only if the log agrees with it. */
  function Installed(l: View, index: int, term: int): View {
    var keep := index - l.snapIndex;
    if index >= LastIndex(l) || TermAt(l, index) != term || keep < 0 || keep > |l.entries| then View([], index, term)
    else View(l.entries[keep..], index, term)
  }

  /** on_snapshot_done for a local snapshot of the state after `index` applied entries. */
  function TakeSnapshot(r: State, index: int): State
    requires r.log.snapIndex < index <= r.applied && index - r.log.snapIndex <= |r.log.entries|
  {
    r.(log := Installed(r.log, index, TermAt(r.log, index)),
       snapshot := r.snapshot + r.log.entries[..index - r.log.snapIndex])
  }

  /** What recovery makes of the log on disk and a snapshot published over it: records above the snapshot
      are kept by index alone (src/storage/persist/wal_store.cpp). */
  function Recovered(l: View, index: int, term: int): View {
    var keep := index - l.snapIndex;
    if index >= LastIndex(l) || keep < 0 || keep > |l.entries| then View([], index, term)
    else View(l.entries[keep..], index, term)
  }

  /** The replica has all that the snapshot holds. */
  predicate Has(r: State, m: Message)
    requires m.InstallSnapshot?
  {
    m.index <= r.commit || (!r.recovering && m.index <= LastIndex(r.log) && TermAt(r.log, m.index) == m.snapTerm)
  }

  /** No record above the snapshot was written over another record than the snapshot's last. */
  predicate ContinuesIt(r: State, m: Message)
    requires m.InstallSnapshot?
  {
    m.index >= LastIndex(r.log) || TermAt(r.log, m.index) == m.snapTerm
  }

  function OnInstallSnapshot(r: State, m: Message): Outcome
    requires m.InstallSnapshot?
  {
    if m.from !in r.peers || m.term < r.term then
      Outcome(r, {SnapshotReply(r.id, m.from, m.term, m.index, r.term, false, 0)})
    else
      var r1 := StepTo(r, m.term);
      var r2 := if Has(r, m) then r1
                else r1.(log := Installed(r.log, m.index, m.snapTerm), snapshot := m.contents,
                         commit := Max(r.commit, m.index), applied := Max(r.applied, m.index), recovering := false);
      Outcome(r2, {SnapshotReply(r.id, m.from, m.term, m.index, r2.term, true, Max(m.index, r2.log.snapIndex))})
  }

  function OnSnapshotReply(r: State, m: Message): State
    requires m.SnapshotReply?
  {
    if r.recovering then r
    else if m.term > r.term then BecomeFollower(r, m.term)
    else if !r.role.Leader? || m.sentTerm != r.term then r
    else
      var r1 := ClearInflight(r, m.from, m.sentIndex);
      if !m.ok then r1
      else
        var w := Max(m.watermark, m.sentIndex);
        r1.(matched := r1.matched[m.from := Max(MatchIndex(r1, m.from), w)],
            next := r1.next[m.from := Max(NextIndex(r1, m.from), w + 1)])
  }

  function ClearInflight(r: State, p: ReplicaId, index: int): State {
    if p in r.inflight && r.inflight[p] == index then r.(inflight := r.inflight[p := 0]) else r
  }

  // ---------------------------------------------------------------- applying, configuration, restart

  function Apply(r: State, n: int): State
    requires r.applied < n <= r.commit
  {
    r.(applied := n)
  }

  /** Votes are counted, not looked at again: a candidate must not lose a voter that voted for it, and
      there is no config record that makes a voter a learner. */
  predicate MayReconfigure(r: State, peers: set<ReplicaId>, voters: set<ReplicaId>) {
    && voters <= peers
    && (r.role.Candidate? && r.id in peers ==> r.granted <= voters)
    && (r.role.Leader? && r.id in peers ==> r.id in voters)
  }

  /** The members and voters after a config record (apply_config_entry). */
  function PeersAfter(e: LogEntry, peers: set<ReplicaId>): set<ReplicaId> {
    match e.op
    case AddLearner => peers + {e.configMember.replicaId}
    case RemoveMember => peers - {e.configReplica}
    case _ => peers
  }

  function VotersAfter(e: LogEntry, peers: set<ReplicaId>, voters: set<ReplicaId>): set<ReplicaId> {
    match e.op
    case PromoteVoter => if e.configReplica in peers then voters + {e.configReplica} else voters
    case RemoveMember => voters - {e.configReplica}
    case _ => voters
  }

  /** A member list taking effect; a replica that is no longer a member gives up its role. */
  function Reconfigure(r: State, peers: set<ReplicaId>, voters: set<ReplicaId>): State
    requires MayReconfigure(r, peers, voters)
  {
    var r1 := r.(peers := peers, voters := voters);
    if r.id in peers || r.role.Follower? then r1 else BecomeFollower(r1, r.term)
  }

  /** A crash and recovery: term, vote and log are durable, everything else starts over, the member
      list from the snapshot's or the one the replica was created with.  Sequence
      numbers of reads are not reused, because replies to a dead process are lost with it. */
  function Restart(r: State, peers: set<ReplicaId>, voters: set<ReplicaId>, recovering: bool): State {
    r.(role := Follower, granted := {}, commit := r.log.snapIndex, applied := r.log.snapIndex,
       peers := peers, voters := voters, next := map[], matched := map[], inflight := map[],
       recovering := recovering, pending := map[])
  }

  // ---------------------------------------------------------------- reads

  /** RaftApply::has_committed_current_term_entry. */
  predicate HasCommittedOwn(r: State) {
    || (0 < r.log.snapIndex <= r.commit && r.log.snapTerm == r.term)
    || exists n | r.log.snapIndex + 1 <= n <= r.commit :: TermAt(r.log, n) == r.term
  }

  predicate ReadableLeader(r: State) {
    !r.recovering && r.role.Leader? && HasCommittedOwn(r)
  }

  /** ReadTracker::establish with RaftCore::build_read_quorum_check. */
  function StartRead(r: State): Outcome
    requires ReadableLeader(r)
  {
    var read := PendingRead(r.commit, r.term, r.voters, if r.id in r.voters then {r.id} else {});
    Outcome(r.(pending := r.pending[r.nextSeq := read], nextSeq := r.nextSeq + 1),
            set p | p in r.voters && p != r.id ::
              AppendEntries(r.id, p, r.term, LastIndex(r.log), LastTerm(r.log), [], r.commit, r.nextSeq))
  }

  function OnReadReply(r: State, m: Message): State
    requires m.ReadReply?
  {
    if m.seqNo !in r.pending then r
    else
      var read := r.pending[m.seqNo];
      if m.term != read.term || m.from !in read.voters then r
      else r.(pending := r.pending[m.seqNo := read.(confirmed := read.confirmed + {m.from})])
  }

  /** ReadTracker::advance answers a read: still leader of the same term, a quorum of the read's own
      round confirmed, the state machine caught up. */
  predicate MayAnswer(r: State, seqNo: int) {
    && seqNo in r.pending
    && var read := r.pending[seqNo];
       && ReadableLeader(r) && r.term == read.term
       && |read.confirmed| >= |read.voters| / 2 + 1
       && read.index <= r.applied && read.index <= r.commit
  }

  function DropRead(r: State, seqNo: int): State {
    r.(pending := r.pending - {seqNo})
  }
}
