/** Votes and leaders over all runs, whatever member lists are in force and whoever knows whom: terms
    and votes alone decide who leads (src/storage/raft/core/raft_core_election.cpp,
    src/storage/raft/raft_election.cpp). */
module ClusterVotes {
  import opened Types
  import opened Replica
  import opened Consensus
  import opened Cluster
  import L = RaftLog

  datatype Mandate = Mandate(leader: ReplicaId, voters: set<ReplicaId>)

  /** Every vote ever cast, and by whose votes each term was won. */
  datatype Ballots = Ballots(vote: map<Slot, ReplicaId>, won: map<int, Mandate>)

  ghost predicate Voted(b: Ballots, v: ReplicaId, t: int, c: ReplicaId) {
    Slot(v, t) in b.vote && b.vote[Slot(v, t)] == c
  }

  ghost predicate Recorded(g: Group, b: Ballots, i: ReplicaId, r: State) {
    && r.id == i && MemberList(g, r.peers, r.voters)
    && r.votedFor == (if Slot(i, r.term) in b.vote then Some(b.vote[Slot(i, r.term)]) else None)
    && (forall s :: s in b.vote && s.who == i ==> s.term <= r.term)
    && (r.role.Candidate? ==> r.granted <= r.voters && forall v :: v in r.granted ==> Voted(b, v, r.term, i))
    && (r.role.Leader? && Overlapping(g) ==> r.term in b.won && b.won[r.term].leader == i)
  }

  ghost predicate Honest(b: Ballots, m: Message) {
    m.VoteReply? && m.granted ==> Voted(b, m.from, m.term, m.to)
  }

  ghost predicate Elected(g: Group, b: Ballots, t: int) {
    t in b.won ==> Quorum(g, b.won[t].voters) && forall v :: v in b.won[t].voters ==> Voted(b, v, t, b.won[t].leader)
  }

  ghost predicate RecordedIn(g: Group, w: World, b: Ballots, i: ReplicaId) {
    i in w.replicas ==> Recorded(g, b, i, w.replicas[i])
  }

  ghost predicate HonestIn(w: World, b: Ballots, m: Message) { m in w.net ==> Honest(b, m) }

  ghost predicate Sound(g: Group, w: World, b: Ballots) {
    && (forall i :: RecordedIn(g, w, b, i))
    && (forall m :: HonestIn(w, b, m))
    && (forall t :: Elected(g, b, t))
  }

  // ---------------------------------------------------------------- one replica acts

  /** Only replica i has voted, and nothing recorded before has changed. */
  ghost predicate Grown(b: Ballots, b': Ballots, i: ReplicaId) {
    && (forall s :: s in b.vote ==> s in b'.vote && b'.vote[s] == b.vote[s])
    && (forall s :: s in b'.vote && s.who != i ==> s in b.vote)
    && (forall t :: t in b.won ==> t in b'.won && b'.won[t] == b.won[t])
  }

  lemma OtherRecorded(g: Group, b: Ballots, b': Ballots, i: ReplicaId, j: ReplicaId, r: State)
    requires Recorded(g, b, j, r) && Grown(b, b', i) && j != i
    ensures Recorded(g, b', j, r)
  {
    var s := Slot(j, r.term);
    assert s in b.vote <==> s in b'.vote;
    if r.role.Candidate? {
      forall v | v in r.granted ensures Voted(b', v, r.term, j) { assert Voted(b, v, r.term, j); }
    }
  }

  lemma StillElected(g: Group, b: Ballots, b': Ballots, i: ReplicaId, t: int)
    requires Elected(g, b, t) && Grown(b, b', i) && t in b.won
    ensures Elected(g, b', t)
  {
    forall v | v in b'.won[t].voters ensures Voted(b', v, t, b'.won[t].leader) {
      assert Voted(b, v, t, b.won[t].leader);
    }
  }

  lemma Acted(g: Group, w: World, b: Ballots, i: ReplicaId, r': State, sent: set<Message>, b': Ballots)
    requires Sound(g, w, b) && Grown(b, b', i) && Recorded(g, b', i, r')
    requires forall m :: m in sent ==> Honest(b', m)
    requires forall t :: t in b'.won && t !in b.won ==> Elected(g, b', t)
    ensures Sound(g, Update(w, i, r', sent), b')
  {
    var w' := Update(w, i, r', sent);
    forall j ensures RecordedIn(g, w', b', j) {
      assert RecordedIn(g, w, b, j);
      if j in w.replicas && j != i { OtherRecorded(g, b, b', i, j, w.replicas[j]); }
    }
    forall m ensures HonestIn(w', b', m) { assert HonestIn(w, b, m); }
    forall t ensures Elected(g, b', t) {
      assert Elected(g, b, t);
      if t in b.won { StillElected(g, b, b', i, t); }
    }
  }

  /** A step that neither casts nor counts a vote nor wins. */
  ghost predicate Tame(r: State, r': State) {
    && r'.id == r.id && r.term <= r'.term
    && r'.votedFor == (if r'.term == r.term then r.votedFor else None)
    && (r'.role.Candidate? ==>
          && r.role.Candidate? && r'.term == r.term && r'.granted == r.granted
          && (r'.voters == r.voters || r'.granted <= r'.voters))
    && (r'.role.Leader? ==> r.role.Leader? && r'.term == r.term)
  }

  lemma TameKeeps(g: Group, w: World, b: Ballots, i: ReplicaId, r': State, sent: set<Message>)
    requires Sound(g, w, b) && i in w.replicas && Tame(w.replicas[i], r') && MemberList(g, r'.peers, r'.voters)
    requires forall m :: m in sent ==> Honest(b, m)
    ensures Sound(g, Update(w, i, r', sent), b)
  {
    assert RecordedIn(g, w, b, i);
    Acted(g, w, b, i, r', sent, b);
  }

  // ---------------------------------------------------------------- messages

  /** No vote is sent, and the member list stays. */
  ghost predicate TameOutcome(r: State, o: Outcome) {
    && Tame(r, o.state) && o.state.peers == r.peers && o.state.voters == r.voters
    && forall m :: m in o.sent ==> !m.VoteReply?
  }

  /** What a message from a leader can change besides term and role. */
  ghost predicate Fed(r: State, t: int, o: Outcome) {
    && (o.state == r
        || (r.term <= t && o.state == StepTo(r, t).(log := o.state.log, snapshot := o.state.snapshot,
                                                    commit := o.state.commit, applied := o.state.applied,
                                                    recovering := o.state.recovering)))
    && forall m :: m in o.sent ==> !m.VoteReply?
  }

  lemma FedIsTame(r: State, t: int, o: Outcome)
    requires Fed(r, t, o)
    ensures TameOutcome(r, o)
  {
  }

  lemma AppendIsFed(r: State, m: Message)
    requires m.AppendEntries? && L.WellFormed(r.log)
    ensures Fed(r, m.term, OnAppendEntries(r, m))
  {
  }

  lemma AppendIsTame(r: State, m: Message)
    requires m.AppendEntries? && L.WellFormed(r.log)
    ensures TameOutcome(r, OnAppendEntries(r, m))
  {
    AppendIsFed(r, m);
    FedIsTame(r, m.term, OnAppendEntries(r, m));
  }

  lemma InstallIsTame(r: State, m: Message)
    requires m.InstallSnapshot?
    ensures TameOutcome(r, OnInstallSnapshot(r, m))
  {
    assert Fed(r, m.term, OnInstallSnapshot(r, m));
    FedIsTame(r, m.term, OnInstallSnapshot(r, m));
  }

  lemma ReplyIsTame(r: State, m: Message)
    ensures m.AppendReply? ==> TameOutcome(r, Outcome(OnAppendReply(r, m), {}))
    ensures m.SnapshotReply? ==> TameOutcome(r, Outcome(OnSnapshotReply(r, m), {}))
    ensures m.ReadReply? ==> TameOutcome(r, Outcome(OnReadReply(r, m), {}))
  {
  }

  lemma OtherMessageIsTame(r: State, m: Message)
    requires !m.RequestVote? && !m.VoteReply? && L.WellFormed(r.log)
    ensures TameOutcome(r, Handle(r, m))
  {
    if m.AppendEntries? {
      AppendIsTame(r, m);
    } else if m.InstallSnapshot? {
      InstallIsTame(r, m);
    } else {
      ReplyIsTame(r, m);
    }
  }

  lemma OtherMessageKeeps(g: Group, w: World, b: Ballots, m: Message)
    requires Sound(g, w, b) && m in w.net && m.to in w.replicas && L.WellFormed(w.replicas[m.to].log)
    requires !m.RequestVote? && !m.VoteReply?
    ensures var o := Handle(w.replicas[m.to], m); Sound(g, Update(w, m.to, o.state, o.sent), b)
  {
    var o := Handle(w.replicas[m.to], m);
    assert RecordedIn(g, w, b, m.to);
    OtherMessageIsTame(w.replicas[m.to], m);
    TameKeeps(g, w, b, m.to, o.state, o.sent);
  }

  lemma RequestVoteKeeps(g: Group, w: World, b: Ballots, m: Message) returns (b': Ballots)
    requires Sound(g, w, b) && m.RequestVote? && m in w.net && m.to in w.replicas
    ensures var o := OnRequestVote(w.replicas[m.to], m); Sound(g, Update(w, m.to, o.state, o.sent), b')
  {
    var i, r := m.to, w.replicas[m.to];
    var o := OnRequestVote(r, m);
    assert RecordedIn(g, w, b, i);
    if VoteReply(i, m.from, m.term, true) in o.sent {
      b' := b.(vote := b.vote[Slot(i, m.term) := m.from]);
      assert o.sent == {VoteReply(i, m.from, m.term, true)};
      assert Grown(b, b', i);
      VoterRecorded(g, b, b', i, r, o.state, m.from);
      Acted(g, w, b, i, o.state, o.sent, b');
    } else {
      b' := b;
      TameKeeps(g, w, b, i, o.state, o.sent);
    }
  }

  lemma VoterRecorded(g: Group, b: Ballots, b': Ballots, i: ReplicaId, r: State, r': State, c: ReplicaId)
    requires Recorded(g, b, i, r) && b' == b.(vote := b.vote[Slot(i, r'.term) := c]) && Grown(b, b', i)
    requires r.term <= r'.term && r'.votedFor == Some(c)
    requires r'.id == r.id && r'.peers == r.peers && r'.voters == r.voters
    requires r'.role.Follower? || (r'.role == r.role && r'.term == r.term && r'.granted == r.granted)
    ensures Recorded(g, b', i, r')
  {
    if r'.role.Candidate? {
      forall v | v in r'.granted ensures Voted(b', v, r'.term, i) { assert Voted(b, v, r.term, i); }
    }
  }

  lemma VoteReplyKeeps(g: Group, w: World, b: Ballots, m: Message)
    requires Sound(g, w, b) && m.VoteReply? && m in w.net && m.to in w.replicas
    ensures Sound(g, Update(w, m.to, OnVoteReply(w.replicas[m.to], m), {}), b)
  {
    assert RecordedIn(g, w, b, m.to) && HonestIn(w, b, m);
    Acted(g, w, b, m.to, OnVoteReply(w.replicas[m.to], m), {}, b);
  }

  lemma DeliverKeeps(g: Group, w: World, b: Ballots, m: Message) returns (b': Ballots)
    requires Sound(g, w, b) && m in w.net && m.to in w.replicas && L.WellFormed(w.replicas[m.to].log)
    ensures var o := Handle(w.replicas[m.to], m); Sound(g, Update(w, m.to, o.state, o.sent), b')
  {
    b' := b;
    if m.RequestVote? {
      b' := RequestVoteKeeps(g, w, b, m);
    } else if m.VoteReply? {
      VoteReplyKeeps(g, w, b, m);
    } else {
      OtherMessageKeeps(g, w, b, m);
    }
  }

  // ---------------------------------------------------------------- standing and winning

  lemma StandUpKeeps(g: Group, w: World, b: Ballots, i: ReplicaId) returns (b': Ballots)
    requires Sound(g, w, b) && Enabled(g, w, StandUp(i))
    ensures Sound(g, Exec(g, w, StandUp(i)), b')
  {
    var r := w.replicas[i];
    assert RecordedIn(g, w, b, i);
    b' := b.(vote := b.vote[Slot(i, r.term + 1) := i]);
    Acted(g, w, b, i, Campaign(r).state, Campaign(r).sent, b');
  }

  /** Two candidates cannot both win a term: some replica would have voted for both. */
  lemma WinKeeps(g: Group, w: World, b: Ballots, i: ReplicaId) returns (b': Ballots)
    requires Sound(g, w, b) && Enabled(g, w, Win(i))
    ensures Sound(g, Exec(g, w, Win(i)), b')
  {
    var r := w.replicas[i];
    assert RecordedIn(g, w, b, i) && Elected(g, b, r.term);
    assert r.voters * r.granted == r.granted;
    assert IsMajority(r.voters, r.granted);
    assert Quorum(g, r.granted);
    b' := if r.term in b.won then b else b.(won := b.won[r.term := Mandate(i, r.granted)]);
    if r.term in b.won && Overlapping(g) {
      var v :| v in r.granted && v in b.won[r.term].voters;
      assert Voted(b, v, r.term, i);
    }
    Acted(g, w, b, i, Lead(r), {}, b');
  }

  // ---------------------------------------------------------------- every step, every run

  /** Steps of one replica that leave votes and roles alone, or give up a role. */
  lemma SendIsTame(r: State, p: ReplicaId)
    requires r.role.Leader?
    ensures TameOutcome(r, Replicate(r, p))
  {
  }

  lemma ReadIsTame(r: State)
    requires ReadableLeader(r)
    ensures TameOutcome(r, StartRead(r))
  {
  }

  lemma QuietStepIsTame(g: Group, w: World, s: Step) returns (o: Outcome)
    requires Enabled(g, w, s) && !s.Deliver? && !s.StandUp? && !s.Win? && !s.TornAppend? && !s.TornInstall?
    requires !s.Configure? && !s.Crash?
    ensures Exec(g, w, s) == Update(w, s.i, o.state, o.sent) && TameOutcome(w.replicas[s.i], o)
  {
    var r := w.replicas[s.i];
    match s {
      case PreVoteRound(_) => o := Outcome(StartPreVote(r), {});
      case HearTerm(_, t) => o := Outcome(BecomeFollower(r, t), {});
      case Submit(_, payload) => o := Outcome(Propose(r, payload), {});
      case Send(_, p) => o := Replicate(r, p); SendIsTame(r, p);
      case Commit(_) => o := Outcome(AdvanceCommit(r), {});
      case Snapshot(_, index) => o := Outcome(TakeSnapshot(r, index), {});
      case SnapshotSendFailed(_, p, index) => o := Outcome(ClearInflight(r, p, index), {});
      case ApplyUpTo(_, n) => o := Outcome(Apply(r, n), {});
      case BeginRead(_) => o := StartRead(r); ReadIsTame(r);
      case Answer(_, seqNo) => o := Outcome(DropRead(r, seqNo), {});
      case FailRead(_, seqNo) => o := Outcome(DropRead(r, seqNo), {});
    }
  }

  lemma QuietStepKeeps(g: Group, w: World, b: Ballots, s: Step)
    requires Sound(g, w, b) && Enabled(g, w, s) && !s.Deliver? && !s.StandUp? && !s.Win? && !s.TornAppend?
    requires !s.TornInstall?
    ensures Sound(g, Exec(g, w, s), b)
  {
    assert RecordedIn(g, w, b, s.i);
    if s.Configure? {
      TameKeeps(g, w, b, s.i, Reconfigure(w.replicas[s.i], s.peers, s.voters), {});
    } else if s.Crash? {
      TameKeeps(g, w, b, s.i, Restart(w.replicas[s.i], s.peers, s.voters, s.recovering), {});
    } else {
      var o := QuietStepIsTame(g, w, s);
      TameKeeps(g, w, b, s.i, o.state, o.sent);
    }
  }

  lemma TornIsTame(r: State, m: Message, peers: set<ReplicaId>, voters: set<ReplicaId>, rec: bool)
    requires m.AppendEntries? && L.WellFormed(r.log)
    ensures Tame(r, Restart(OnAppendEntries(r, m).state, peers, voters, rec))
  {
    AppendIsTame(r, m);
  }

  lemma TornKeeps(g: Group, w: World, b: Ballots, s: Step)
    requires Sound(g, w, b) && Enabled(g, w, s) && s.TornAppend?
    ensures Sound(g, Exec(g, w, s), b)
  {
    var torn := s.m.(entries := s.m.entries[..s.kept]);
    TornIsTame(w.replicas[s.m.to], torn, s.peers, s.voters, s.recovering);
    TameKeeps(g, w, b, s.m.to, Exec(g, w, s).replicas[s.m.to], {});
  }

  lemma TornInstallKeeps(g: Group, w: World, b: Ballots, s: Step)
    requires Sound(g, w, b) && Enabled(g, w, s) && s.TornInstall?
    ensures Sound(g, Exec(g, w, s), b)
  {
    assert RecordedIn(g, w, b, s.m.to);
    TameKeeps(g, w, b, s.m.to, TornInstalled(w.replicas[s.m.to], s.m, s.peers, s.voters, s.recovering), {});
  }

  lemma StepKeeps(g: Group, w: World, b: Ballots, s: Step) returns (b': Ballots)
    requires Sound(g, w, b) && Enabled(g, w, s)
    ensures Sound(g, Exec(g, w, s), b')
  {
    b' := b;
    if s.Deliver? {
      b' := DeliverKeeps(g, w, b, s.m);
    } else if s.StandUp? {
      b' := StandUpKeeps(g, w, b, s.i);
    } else if s.Win? {
      b' := WinKeeps(g, w, b, s.i);
    } else if s.TornInstall? {
      TornInstallKeeps(g, w, b, s);
    } else if s.TornAppend? {
      TornKeeps(g, w, b, s);
    } else {
      QuietStepKeeps(g, w, b, s);
    }
  }

  lemma {:induction false} RunKeeps(g: Group, w: World, b: Ballots, steps: seq<Step>) returns (b': Ballots)
    requires Sound(g, w, b) && Run(g, w, steps)
    ensures Sound(g, After(g, w, steps), b')
    decreases |steps|
  {
    b' := b;
    if steps != [] {
      var b1 := StepKeeps(g, w, b, steps[0]);
      b' := RunKeeps(g, Exec(g, w, steps[0]), b1, steps[1..]);
    }
  }

  lemma Reachable(g: Group, w: World, steps: seq<Step>) returns (b: Ballots)
    requires Initial(g, w) && Run(g, w, steps)
    ensures Sound(g, After(g, w, steps), b)
  {
    var b0 := Ballots(map[], map[]);
    forall i ensures RecordedIn(g, w, b0, i) {
      if i in g.replicas { assert InitialState(g, i, w.replicas[i]); }
    }
    forall m ensures HonestIn(w, b0, m) {}
    forall t ensures Elected(g, b0, t) {}
    b := RunKeeps(g, w, b0, steps);
  }

  // ---------------------------------------------------------------- theorems

  /** Election safety: in every reachable world a term has at most one leader. */
  lemma OneLeaderPerTerm(g: Group, w: World, steps: seq<Step>, i: ReplicaId, j: ReplicaId)
    requires Overlapping(g) && Initial(g, w) && Run(g, w, steps)
    requires i in After(g, w, steps).replicas && j in After(g, w, steps).replicas
    requires After(g, w, steps).replicas[i].role.Leader? && After(g, w, steps).replicas[j].role.Leader?
    requires After(g, w, steps).replicas[i].term == After(g, w, steps).replicas[j].term
    ensures i == j
  {
    var b := Reachable(g, w, steps);
    assert RecordedIn(g, After(g, w, steps), b, i) && RecordedIn(g, After(g, w, steps), b, j);
  }

  /** No replica ever grants two candidates its vote in one term, crashes included. */
  lemma OneVotePerTerm(g: Group, w: World, steps: seq<Step>, v: ReplicaId, t: int, a: ReplicaId, c: ReplicaId)
    requires Initial(g, w) && Run(g, w, steps)
    requires VoteReply(v, a, t, true) in After(g, w, steps).net && VoteReply(v, c, t, true) in After(g, w, steps).net
    ensures a == c
  {
    var b := Reachable(g, w, steps);
    assert HonestIn(After(g, w, steps), b, VoteReply(v, a, t, true));
    assert HonestIn(After(g, w, steps), b, VoteReply(v, c, t, true));
  }
}
