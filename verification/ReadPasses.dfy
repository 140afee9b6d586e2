/** The passes over a leader's pending reads, over whole runs: while the leader goes on leading the term in which a
    read began, the read waits until it can be answered and is answered then
    (src/storage/replica/read_tracker.cpp, src/storage/raft/core/raft_core_read.cpp). */
module ReadPasses {
  import opened Types
  import opened Consensus
  import opened Replica
  import opened Cluster
  import opened ClusterInvariant
  import opened ClusterReads
  import opened ClusterSafety
  import opened Reads
  import L = RaftLog

  // ---------------------------------------------------------------- one step

  ghost predicate Leads(w: World, i: ReplicaId, t: int) {
    i in w.replicas && w.replicas[i].role.Leader? && w.replicas[i].term == t
  }

  /** What a step leaves of a read of a leader that goes on leading. */
  ghost predicate Tends(r: State, r': State, k: int) {
    && r.commit <= r'.commit && r'.recovering == r.recovering && r.nextSeq <= r'.nextSeq
    && k in r.pending && k in r'.pending
    && r'.pending[k] == r.pending[k].(confirmed := r'.pending[k].confirmed)
    && r.pending[k].confirmed <= r'.pending[k].confirmed
  }

  /** A message either leaves the leader's reads alone, or ends its term. */
  lemma HandleTends(r: State, m: Message, k: int)
    requires L.WellFormed(r.log) && r.role.Leader? && k in r.pending
    requires Handle(r, m).state.role.Leader? && Handle(r, m).state.term == r.term
    ensures Tends(r, Handle(r, m).state, k)
  {
    match m
    case RequestVote(_, _, _, _, _) => VoteTends(r, m, k);
    case VoteReply(_, _, _, _) =>
    case AppendEntries(_, _, _, _, _, _, _, _) => AppendTends(r, m, k);
    case AppendReply(_, _, _, _, _, _, _, _) => ReplyTends(r, m, k);
    case ReadReply(_, _, _, _) =>
    case InstallSnapshot(_, _, _, _, _, _) => InstallTends(r, m, k);
    case SnapshotReply(_, _, _, _, _, _, _) => SnapshotReplyTends(r, m, k);
  }

  lemma VoteTends(r: State, m: Message, k: int)
    requires m.RequestVote? && k in r.pending
    ensures Tends(r, OnRequestVote(r, m).state, k)
  {
  }

  lemma AppendTends(r: State, m: Message, k: int)
    requires m.AppendEntries? && L.WellFormed(r.log) && k in r.pending && OnAppendEntries(r, m).state.role.Leader?
    ensures Tends(r, OnAppendEntries(r, m).state, k)
  {
    if m.from in r.peers && m.term >= r.term { HeardFollows(r, m); }
  }

  lemma HeardFollows(r: State, m: Message)
    requires m.AppendEntries? && L.WellFormed(r.log) && m.from in r.peers && m.term >= r.term
    ensures OnAppendEntries(r, m).state.role.Follower?
  {
    StepToFollows(r, m.term);
    if Checks(r, m) {
      var merged := L.Merge(r.log, m.entries);
      if merged.Merged? { CommitFollows(StepTo(r, m.term).(log := merged.log), m.commit); }
    }
  }

  lemma StepToFollows(r: State, t: int)
    ensures StepTo(r, t).role.Follower?
  {
  }

  lemma CommitFollows(r: State, commit: int)
    requires r.role.Follower?
    ensures CommitFromLeader(r, commit).role.Follower?
  {
  }

  lemma ReplyTends(r: State, m: Message, k: int)
    requires m.AppendReply? && k in r.pending
    ensures Tends(r, OnAppendReply(r, m), k)
  {
  }

  lemma InstallTends(r: State, m: Message, k: int)
    requires m.InstallSnapshot? && L.WellFormed(r.log) && k in r.pending && OnInstallSnapshot(r, m).state.role.Leader?
    ensures Tends(r, OnInstallSnapshot(r, m).state, k)
  {
  }

  lemma SnapshotReplyTends(r: State, m: Message, k: int)
    requires m.SnapshotReply? && k in r.pending
    ensures Tends(r, OnSnapshotReply(r, m), k)
  {
  }

  lemma CommitTends(r: State, k: int)
    requires r.role.Leader? && r.commit <= L.LastIndex(r.log) && k in r.pending
    ensures Tends(r, AdvanceCommit(r), k)
  {
    RuleRises(r, L.LastIndex(r.log));
  }

  lemma {:induction false} RuleRises(r: State, n: int)
    requires r.commit <= n
    ensures r.commit <= CommitRule(r, n)
    decreases n - r.commit
  {
    if n > r.commit { RuleRises(r, n - 1); }
  }

  /** One step of anybody, other than answering or failing this read. */
  lemma StepTends(g: Group, w: World, s: Step, i: ReplicaId, t: int, k: int)
    requires Enabled(g, w, s) && Leads(w, i, t) && Leads(Exec(g, w, s), i, t)
    requires k in w.replicas[i].pending && k < w.replicas[i].nextSeq && s != Step.Answer(i, k) && s != FailRead(i, k)
    ensures Tends(w.replicas[i], Exec(g, w, s).replicas[i], k)
  {
    var r, r' := w.replicas[i], Exec(g, w, s).replicas[i];
    if r' == r {
    } else {
      match s
      case Deliver(m) => HandleTends(r, m, k);
      case Commit(_) => CommitTends(r, k);
      case Send(_, p) => SendTends(r, p, k);
      case BeginRead(_) => ReadTends(g, w, s, i, k);
      case Answer(_, _) => ReadTends(g, w, s, i, k);
      case FailRead(_, _) => ReadTends(g, w, s, i, k);
      case _ => OtherTends(g, w, s, i, t, k);
    }
  }

  lemma ReadTends(g: Group, w: World, s: Step, i: ReplicaId, k: int)
    requires Enabled(g, w, s) && (s.BeginRead? || s.Answer? || s.FailRead?) && s.i == i
    requires k in w.replicas[i].pending && k < w.replicas[i].nextSeq && s != Step.Answer(i, k) && s != FailRead(i, k)
    ensures Tends(w.replicas[i], Exec(g, w, s).replicas[i], k)
  {
  }

  lemma OtherTends(g: Group, w: World, s: Step, i: ReplicaId, t: int, k: int)
    requires Enabled(g, w, s) && Leads(w, i, t) && Leads(Exec(g, w, s), i, t) && k in w.replicas[i].pending
    requires !s.Deliver? && !s.Commit? && !s.Send? && !s.BeginRead? && !s.Answer? && !s.FailRead?
    ensures Tends(w.replicas[i], Exec(g, w, s).replicas[i], k)
  {
  }

  lemma SendTends(r: State, p: ReplicaId, k: int)
    requires r.role.Leader? && k in r.pending
    ensures Tends(r, Replicate(r, p).state, k)
  {
  }

  // ---------------------------------------------------------------- runs

  /** Replica i leads term t in every world of the run. */
  ghost predicate LeadsOn(g: Group, w: World, steps: seq<Step>, i: ReplicaId, t: int)
    requires Run(g, w, steps)
    decreases |steps|
  {
    Leads(w, i, t) && (steps == [] || LeadsOn(g, Exec(g, w, steps[0]), steps[1..], i, t))
  }

  /** Reads fail only in passes. */
  ghost predicate FailsInPasses(g: Group, w: World, steps: seq<Step>)
    requires Run(g, w, steps)
    decreases |steps|
  {
    steps == [] || (&& (steps[0].FailRead? ==> Fails(w.replicas[steps[0].i], steps[0].seqNo))
                    && FailsInPasses(g, Exec(g, w, steps[0]), steps[1..]))
  }

  /** A read that its leader has begun, and the record of the leader's own term below its index. */
  ghost predicate Begun(c: Chronicle, r: State, t: int, k: int, index: int) {
    && r.role.Leader? && r.term == t && !r.recovering && k in r.pending
    && r.pending[k].term == t && r.pending[k].index == index
    && Elected(c.h, t) && c.h.won[t].start < index <= r.commit
  }

  /** A leader that has committed past its starting log has committed a record of its own term. */
  lemma PastStartIsOwn(g: Group, h: History, i: ReplicaId, r: State)
    requires Inv(g, h) && LogRel(h, i, r) && LeaderRel(g, h, i, r) && h.won[r.term].start < r.commit
    ensures HasCommittedOwn(r)
  {
    assert LedAt(h, r.term);
    if r.log.snapIndex < r.commit {
      ViewTerm(h, i, r, r.commit);
      assert L.TermAt(r.log, r.commit) == r.term;
    }
  }

  /** No pass fails such a read. */
  lemma BegunNeverFails(g: Group, w: World, c: Chronicle, i: ReplicaId, t: int, k: int, index: int)
    requires Good(g, w, c) && i in w.replicas && Begun(c, w.replicas[i], t, k, index)
    ensures !Fails(w.replicas[i], k) && ReadableLeader(w.replicas[i]) && k < w.replicas[i].nextSeq
  {
    var r := w.replicas[i];
    assert ReplicaOk(g, w, c, i) && ReadRel(g, c, i, k, r.pending[k]);
    assert ReadKey(i, k) in c.begun;
    PastStartIsOwn(g, c.h, i, r);
  }

  lemma BegunStill(c: Chronicle, c': Chronicle, r: State, r': State, t: int, k: int, index: int)
    requires Begun(c, r, t, k, index) && Tends(r, r', k) && Since(c, c') && r'.role.Leader? && r'.term == t
    ensures Begun(c', r', t, k, index)
  {
  }

  lemma {:induction false} StaysBegun(g: Group, w: World, c: Chronicle, steps: seq<Step>, i: ReplicaId, t: int, k: int,
                                      index: int)
    returns (c': Chronicle)
    requires Good(g, w, c) && Run(g, w, steps) && Prudent(g, w, steps, c.h.shunned) && FailsInPasses(g, w, steps)
    requires LeadsOn(g, w, steps, i, t) && Begun(c, w.replicas[i], t, k, index) && Step.Answer(i, k) !in steps
    ensures var w' := After(g, w, steps);
            Good(g, w', c') && Leads(w', i, t) && Begun(c', w'.replicas[i], t, k, index)
    decreases |steps|
  {
    if steps == [] {
      c' := c;
    } else {
      BegunNeverFails(g, w, c, i, t, k, index);
      var w1 := Exec(g, w, steps[0]);
      var c1 := NextKeeps(g, w, c, steps[0]);
      assert steps[0] in steps && Leads(w1, i, t);
      StepTends(g, w, steps[0], i, t, k);
      BegunStill(c, c1, w.replicas[i], w1.replicas[i], t, k, index);
      c' := StaysBegun(g, w1, c1, steps[1..], i, t, k, index);
    }
  }

  lemma BeginsRead(g: Group, w: World, c: Chronicle, i: ReplicaId) returns (c': Chronicle)
    requires Good(g, w, c) && Enabled(g, w, BeginRead(i))
    ensures var r := w.replicas[i];
            var w' := Exec(g, w, BeginRead(i));
            && Good(g, w', c') && c'.h.shunned == c.h.shunned && i in w'.replicas
            && Begun(c', w'.replicas[i], r.term, r.nextSeq, r.commit)
  {
    assert ReplicaOk(g, w, c, i);
    CommittedPastStart(g, c.h, i, w.replicas[i]);
    c' := BeginReadKeeps(g, w, c, i);
  }

  /** A read waits for its answer and gets it: as long as a leader goes on leading the term in which it began a read,
      and has not answered it, the read is pending; no pass fails it, and the first pass that finds a majority of
      the read's voters confirmed and its index applied answers it. */
  lemma ReadsAreServed(g: Group, w: World, before: seq<Step>, i: ReplicaId, between: seq<Step>)
    requires Start(g, w) && Run(g, w, before) && Prudent(g, w, before, {})
    requires Enabled(g, After(g, w, before), BeginRead(i))
    requires var wb := Exec(g, After(g, w, before), BeginRead(i));
             && Run(g, wb, between) && Prudent(g, wb, between, ShunnedIn(g, w, before)) && FailsInPasses(g, wb, between)
             && LeadsOn(g, wb, between, i, After(g, w, before).replicas[i].term)
    requires Step.Answer(i, After(g, w, before).replicas[i].nextSeq) !in between
    ensures var r1 := After(g, w, before).replicas[i];
            var w2 := After(g, Exec(g, After(g, w, before), BeginRead(i)), between);
            && i in w2.replicas
            && var r2, k := w2.replicas[i], r1.nextSeq;
               && k in r2.pending && r2.pending[k].term == r1.term && r2.pending[k].index == r1.commit
               && !Fails(r2, k)
               && (MayAnswer(r2, k) <==>
                   |r2.pending[k].confirmed| > |r2.pending[k].voters| / 2 && r1.commit <= r2.applied)
  {
    var w1 := After(g, w, before);
    var r1 := w1.replicas[i];
    var c1 := Reachable(g, w, before);
    var cb := BeginsRead(g, w1, c1, i);
    var wb := Exec(g, w1, BeginRead(i));
    var c2 := StaysBegun(g, wb, cb, between, i, r1.term, r1.nextSeq, r1.commit);
    BegunNeverFails(g, After(g, wb, between), c2, i, r1.term, r1.nextSeq, r1.commit);
  }
}
