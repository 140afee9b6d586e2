/** A group of replicas and the network between them.

    The network is the set of all messages ever sent: it loses a message by never delivering it,
    duplicates it by delivering it again, and reorders freely.  A run is a sequence of steps; each
    step is one dispatch of one replica's loop, or a crash. */
module Cluster {
  import opened Types
  import opened Replica
  import opened Consensus
  import L = RaftLog

  datatype World = World(replicas: map<ReplicaId, State>, net: set<Message>)

  datatype Step =
    | Deliver(m: Message)
    | PreVoteRound(i: ReplicaId)
    | StandUp(i: ReplicaId)
    | Win(i: ReplicaId)
    | HearTerm(i: ReplicaId, term: int)
    | Submit(i: ReplicaId, payload: LogEntry)
    | Send(i: ReplicaId, p: ReplicaId)
    | Commit(i: ReplicaId)
    | Snapshot(i: ReplicaId, index: int)
    | SnapshotSendFailed(i: ReplicaId, p: ReplicaId, index: int)
    | ApplyUpTo(i: ReplicaId, n: int)
    // A config record applied, or the members of an installed snapshot.
    | Configure(i: ReplicaId, peers: set<ReplicaId>, voters: set<ReplicaId>)
    | Crash(i: ReplicaId, peers: set<ReplicaId>, voters: set<ReplicaId>, recovering: bool)
    // A crash while the records of an accepted message are being appended to the log on disk.
    | TornAppend(m: Message, kept: nat, peers: set<ReplicaId>, voters: set<ReplicaId>, recovering: bool)
    // A crash between publishing a received snapshot and rewriting the log.
    | TornInstall(m: Message, peers: set<ReplicaId>, voters: set<ReplicaId>, recovering: bool)
    | BeginRead(i: ReplicaId)
    | Answer(i: ReplicaId, seqNo: int)
    | FailRead(i: ReplicaId, seqNo: int)

  /** The whole log: what the snapshot covers and the records above it. */
  function Full(r: State): Log { r.snapshot + r.log.entries }

  function At(w: World, i: ReplicaId): State
    requires i in w.replicas
  {
    w.replicas[i]
  }

  /** A member list that may be in force: any members, with one of the group's voter sets among them. */
  ghost predicate MemberList(g: Group, peers: set<ReplicaId>, voters: set<ReplicaId>) {
    voters in g.configs && voters <= peers <= g.replicas
  }

  ghost predicate InitialState(g: Group, i: ReplicaId, r: State) {
    && MemberList(g, r.peers, r.voters)
    && r == State(i, 0, None, Follower, {}, L.View([], 0, 0), [], 0, 0, r.peers, r.voters, map[], map[], map[],
                  false, map[], 1)
  }

  ghost predicate Initial(g: Group, w: World) {
    && w.net == {}
    && w.replicas.Keys == g.replicas
    && forall i :: i in g.replicas ==> InitialState(g, i, w.replicas[i])
  }

  ghost predicate Accepts(r: State, m: Message) {
    m.AppendEntries? && m.from in r.peers && m.term >= r.term && Checks(r, m)
  }

  /** The replica takes the snapshot in. */
  predicate PublishesOver(r: State, m: Message)
    requires m.InstallSnapshot?
  {
    m.from in r.peers && m.term >= r.term && !Has(r, m)
  }

  /** The term is on disk, the snapshot is published, the log is as it was. */
  function TornInstalled(r: State, m: Message, peers: set<ReplicaId>, voters: set<ReplicaId>, recovering: bool): State
    requires m.InstallSnapshot?
  {
    Restart(StepTo(r, m.term).(log := Recovered(r.log, m.index, m.snapTerm), snapshot := m.contents),
            peers, voters, recovering)
  }

  ghost predicate Enabled(g: Group, w: World, s: Step) {
    match s
    case Deliver(m) => m in w.net && m.to in w.replicas && L.WellFormed(At(w, m.to).log)
    case PreVoteRound(i) =>
      i in w.replicas && var r := At(w, i); r.id in r.voters && !r.role.Leader? && !r.recovering
    case StandUp(i) =>
      i in w.replicas && var r := At(w, i); r.id in r.voters && !r.role.Leader? && !r.recovering
    case Win(i) =>
      && i in w.replicas
      && var r := At(w, i);
         r.role.Candidate? && r.id in r.voters && !r.recovering && |r.granted| >= QuorumSize(r.voters)
    case HearTerm(i, t) => i in w.replicas && At(w, i).term <= t
    case Submit(i, _) => i in w.replicas && WritableLeader(At(w, i))
    case Send(i, p) => i in w.replicas && At(w, i).role.Leader? && p in At(w, i).peers && p != i
    case Commit(i) => i in w.replicas && At(w, i).role.Leader? && At(w, i).commit <= L.LastIndex(At(w, i).log)
    case Snapshot(i, index) =>
      && i in w.replicas
      && var r := At(w, i); r.log.snapIndex < index <= r.applied && index - r.log.snapIndex <= |r.log.entries|
    case SnapshotSendFailed(i, _, _) => i in w.replicas
    case ApplyUpTo(i, n) => i in w.replicas && At(w, i).applied < n <= At(w, i).commit
    case Configure(i, peers, voters) =>
      i in w.replicas && MemberList(g, peers, voters) && MayReconfigure(At(w, i), peers, voters)
    case Crash(i, peers, voters, _) => i in w.replicas && MemberList(g, peers, voters)
    case TornAppend(m, kept, peers, voters, _) =>
      && m in w.net && m.to in w.replicas && MemberList(g, peers, voters)
      && Accepts(At(w, m.to), m) && kept <= |m.entries| && L.WellFormed(At(w, m.to).log)
    case TornInstall(m, peers, voters, _) =>
      && m in w.net && m.to in w.replicas && m.InstallSnapshot? && MemberList(g, peers, voters)
      && PublishesOver(At(w, m.to), m)
    case BeginRead(i) => i in w.replicas && ReadableLeader(At(w, i))
    case Answer(i, seqNo) => i in w.replicas && MayAnswer(At(w, i), seqNo)
    case FailRead(i, _) => i in w.replicas
  }

  /** Replica i moves to r and sends the messages in `sent`. */
  function Update(w: World, i: ReplicaId, r: State, sent: set<Message>): World {
    World(w.replicas[i := r], w.net + sent)
  }

  function Handle(r: State, m: Message): Outcome
    requires L.WellFormed(r.log)
  {
    match m
    case RequestVote(_, _, _, _, _) => OnRequestVote(r, m)
    case VoteReply(_, _, _, _) => Outcome(OnVoteReply(r, m), {})
    case AppendEntries(_, _, _, _, _, _, _, _) => OnAppendEntries(r, m)
    case AppendReply(_, _, _, _, _, _, _, _) => Outcome(OnAppendReply(r, m), {})
    case ReadReply(_, _, _, _) => Outcome(OnReadReply(r, m), {})
    case InstallSnapshot(_, _, _, _, _, _) => OnInstallSnapshot(r, m)
    case SnapshotReply(_, _, _, _, _, _, _) => Outcome(OnSnapshotReply(r, m), {})
  }

  ghost function Exec(g: Group, w: World, s: Step): World
    requires Enabled(g, w, s)
  {
    match s
    case Deliver(m) => var o := Handle(At(w, m.to), m); Update(w, m.to, o.state, o.sent)
    case PreVoteRound(i) => Update(w, i, StartPreVote(At(w, i)), {})
    case StandUp(i) => var o := Campaign(At(w, i)); Update(w, i, o.state, o.sent)
    case Win(i) => Update(w, i, Lead(At(w, i)), {})
    case HearTerm(i, t) => Update(w, i, BecomeFollower(At(w, i), t), {})
    case Submit(i, payload) => Update(w, i, Propose(At(w, i), payload), {})
    case Send(i, p) => var o := Replicate(At(w, i), p); Update(w, i, o.state, o.sent)
    case Commit(i) => Update(w, i, AdvanceCommit(At(w, i)), {})
    case Snapshot(i, index) => Update(w, i, TakeSnapshot(At(w, i), index), {})
    case SnapshotSendFailed(i, p, index) => Update(w, i, ClearInflight(At(w, i), p, index), {})
    case ApplyUpTo(i, n) => Update(w, i, Apply(At(w, i), n), {})
    case Configure(i, peers, voters) => Update(w, i, Reconfigure(At(w, i), peers, voters), {})
    case Crash(i, peers, voters, recovering) => Update(w, i, Restart(At(w, i), peers, voters, recovering), {})
    case TornAppend(m, kept, peers, voters, recovering) =>
      var torn := OnAppendEntries(At(w, m.to), m.(entries := m.entries[..kept])).state;
      Update(w, m.to, Restart(torn, peers, voters, recovering), {})
    case TornInstall(m, peers, voters, recovering) =>
      Update(w, m.to, TornInstalled(At(w, m.to), m, peers, voters, recovering), {})
    case BeginRead(i) => var o := StartRead(At(w, i)); Update(w, i, o.state, o.sent)
    case Answer(i, seqNo) => Update(w, i, DropRead(At(w, i), seqNo), {})
    case FailRead(i, seqNo) => Update(w, i, DropRead(At(w, i), seqNo), {})
  }

  ghost predicate Run(g: Group, w: World, steps: seq<Step>)
    decreases |steps|
  {
    steps == [] || (Enabled(g, w, steps[0]) && Run(g, Exec(g, w, steps[0]), steps[1..]))
  }

  ghost function After(g: Group, w: World, steps: seq<Step>): World
    requires Run(g, w, steps)
    decreases |steps|
  {
    if steps == [] then w else After(g, Exec(g, w, steps[0]), steps[1..])
  }

  /** A replica turns a leader away for no other reason than that it does not know it: neither is the
      leader's term over, nor would the records before the ones sent have failed the check. */
  predicate Shuns(r: State, m: Message) {
    && m.AppendEntries? && m.readSeq == 0 && m.from !in r.peers
    && (m.term > r.term || (m.term == r.term && Checks(r, m)))
  }

  /** Which replica turns which term's leader away in this step. */
  ghost function ShunnedBy(w: World, s: Step): set<Slot> {
    if s.Deliver? && s.m.to in w.replicas && Shuns(At(w, s.m.to), s.m) then {Slot(s.m.to, s.m.term)} else {}
  }

  /** The leader's commit index, clamped to the end of the follower's log, passes the end of the message. */
  predicate Overreaches(r: State, m: Message)
    requires m.AppendEntries?
  {
    m.prev + |m.entries| < Min(m.commit, L.LastIndex(r.log))
  }

  /** Of a leader it has turned away before, a replica takes no message that ends below the commit index
      it brings; and no crash after publishing a snapshot leaves a tail that was written over another
      record. */
  ghost predicate Wary(w: World, s: Step, shunned: set<Slot>) {
    match s
    case Deliver(m) =>
      m.to in w.replicas && Accepts(At(w, m.to), m) && Slot(m.to, m.term) in shunned ==> !Overreaches(At(w, m.to), m)
    case TornInstall(m, _, _, _) => m.to in w.replicas && m.InstallSnapshot? ==> ContinuesIt(At(w, m.to), m)
    case _ => true
  }

  /** So in all steps of the run; `shunned` are the leaders turned away before it. */
  ghost predicate Prudent(g: Group, w: World, steps: seq<Step>, shunned: set<Slot>)
    requires Run(g, w, steps)
    decreases |steps|
  {
    steps == [] || (&& Wary(w, steps[0], shunned)
                    && Prudent(g, Exec(g, w, steps[0]), steps[1..], shunned + ShunnedBy(w, steps[0])))
  }

  /** The leaders turned away in the course of a run. */
  ghost function ShunnedIn(g: Group, w: World, steps: seq<Step>): set<Slot>
    requires Run(g, w, steps)
    decreases |steps|
  {
    if steps == [] then {} else ShunnedBy(w, steps[0]) + ShunnedIn(g, Exec(g, w, steps[0]), steps[1..])
  }
}
