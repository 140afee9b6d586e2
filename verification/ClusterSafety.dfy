/** Safety over whole runs: committed entries never diverge, leaders have every committed entry, match
    indices are sound, and reads are linearizable.  Member lists change freely on every replica, and a
    replica may turn away leaders it does not know.  The one condition is that of such a leader it later
    takes no message that ends below the commit index it brings; module UnknownLeader shows what happens
    otherwise. */
module ClusterSafety {
  import opened Types
  import opened Replica
  import opened Consensus
  import opened Cluster
  import opened ClusterInvariant
  import opened ClusterElection
  import opened ClusterReplication
  import opened ClusterSnapshots
  import opened ClusterReads
  import L = RaftLog

  // ---------------------------------------------------------------- every step, every run

  lemma DeliverKeeps(g: Group, w: World, c: Chronicle, m: Message) returns (c': Chronicle)
    requires Good(g, w, c) && m in w.net && m.to in w.replicas && L.WellFormed(w.replicas[m.to].log)
    requires ShunnedBy(w, Deliver(m)) <= c.h.shunned && Wary(w, Deliver(m), c.h.shunned)
    ensures var o := Handle(w.replicas[m.to], m); Good(g, Update(w, m.to, o.state, o.sent), c') && Later(c, c')
  {
    match m {
      case RequestVote(_, _, _, _, _) => c' := RequestVoteKeeps(g, w, c, m);
      case VoteReply(_, _, _, _) => c' := VoteReplyKeeps(g, w, c, m);
      case AppendEntries(_, _, _, _, _, _, _, _) => c' := AppendEntriesKeeps(g, w, c, m);
      case AppendReply(_, _, _, _, _, _, _, _) => c' := AppendReplyKeeps(g, w, c, m);
      case ReadReply(_, _, _, _) => ReadReplyKeeps(g, w, c, m); c' := c;
      case InstallSnapshot(_, _, _, _, _, _) => c' := InstallSnapshotKeeps(g, w, c, m);
      case SnapshotReply(_, _, _, _, _, _, _) => c' := SnapshotReplyKeeps(g, w, c, m);
    }
  }

  ghost predicate Unrecorded(s: Step) {
    s.PreVoteRound? || s.Snapshot? || s.SnapshotSendFailed? || s.ApplyUpTo? || s.Configure? || s.Crash? || s.Answer?
    || s.FailRead?
  }

  /** Steps that leave no trace in the history. */
  lemma UnrecordedKeeps(g: Group, w: World, c: Chronicle, s: Step)
    requires Good(g, w, c) && Enabled(g, w, s) && Unrecorded(s)
    ensures Good(g, Exec(g, w, s), c)
  {
    if s.Snapshot? || s.SnapshotSendFailed? || s.ApplyUpTo? {
      SnapshotStepKeeps(g, w, c, s);
    } else {
      RoleStepKeeps(g, w, c, s);
    }
  }

  lemma SnapshotStepKeeps(g: Group, w: World, c: Chronicle, s: Step)
    requires Good(g, w, c) && Enabled(g, w, s) && (s.Snapshot? || s.SnapshotSendFailed? || s.ApplyUpTo?)
    ensures Good(g, Exec(g, w, s), c)
  {
    match s {
      case Snapshot(i, index) => SnapshotKeeps(g, w, c, i, index);
      case SnapshotSendFailed(i, p, index) => ClearInflightKeeps(g, w, c, i, p, index);
      case ApplyUpTo(i, n) => ApplyKeeps(g, w, c, i, n);
    }
  }

  lemma RoleStepKeeps(g: Group, w: World, c: Chronicle, s: Step)
    requires Good(g, w, c) && Enabled(g, w, s)
    requires s.PreVoteRound? || s.Configure? || s.Crash? || s.Answer? || s.FailRead?
    ensures Good(g, Exec(g, w, s), c)
  {
    match s {
      case PreVoteRound(i) => PreVoteKeeps(g, w, c, i);
      case Configure(i, peers, voters) => ConfigureKeeps(g, w, c, i, peers, voters);
      case Crash(i, peers, voters, recovering) => CrashKeeps(g, w, c, i, peers, voters, recovering);
      case Answer(i, seqNo) => DropReadKeeps(g, w, c, i, seqNo);
      case FailRead(i, seqNo) => DropReadKeeps(g, w, c, i, seqNo);
    }
  }

  /** A leader writes in two steps only, when it wins and when it takes a proposal. */
  ghost predicate Passes(c: Chronicle, c': Chronicle, s: Step) {
    match s
    case Win(i) => WrittenBy(c, c', i)
    case Submit(i, _) => WrittenBy(c, c', i)
    case _ => Later(c, c')
  }

  /** The same of the leaders' logs alone. */
  ghost predicate LedPasses(h: History, h': History, s: Step) {
    match s
    case Win(i) => i in h.term && i in h'.log && h'.led == h.led[h.term[i] := h'.log[i]]
    case Submit(i, _) => i in h.term && i in h'.log && h'.led == h.led[h.term[i] := h'.log[i]]
    case _ => h'.led == h.led
  }

  lemma LaterPasses(c: Chronicle, c': Chronicle, s: Step)
    requires Later(c, c') && !s.Win? && !s.Submit?
    ensures Passes(c, c', s)
  {
  }

  lemma PassesSince(c: Chronicle, c': Chronicle, s: Step)
    requires Passes(c, c', s)
    ensures Since(c, c') && c'.h.shunned == c.h.shunned && LedPasses(c.h, c'.h, s)
  {
  }

  lemma WrittenPasses(c: Chronicle, c': Chronicle, s: Step)
    requires (s.Win? || s.Submit?) && WrittenBy(c, c', s.i)
    ensures Passes(c, c', s)
  {
  }

  lemma WritingKeeps(g: Group, w: World, c: Chronicle, s: Step) returns (c': Chronicle)
    requires Good(g, w, c) && Enabled(g, w, s) && (s.Win? || s.Submit?)
    ensures Good(g, Exec(g, w, s), c') && WrittenBy(c, c', s.i)
  {
    match s {
      case Win(i) => c' := WinKeeps(g, w, c, i);
      case Submit(i, payload) => c' := SubmitKeeps(g, w, c, i, payload);
    }
  }

  lemma TornKeeps(g: Group, w: World, c: Chronicle, s: Step) returns (c': Chronicle)
    requires Good(g, w, c) && Enabled(g, w, s) && (s.TornAppend? || s.TornInstall?) && Wary(w, s, c.h.shunned)
    ensures Good(g, Exec(g, w, s), c') && Later(c, c')
  {
    match s {
      case TornAppend(m, kept, peers, voters, recovering) =>
        c' := TornAppendKeeps(g, w, c, m, kept, peers, voters, recovering);
      case TornInstall(m, peers, voters, recovering) =>
        c' := TornInstallKeeps(g, w, c, m, peers, voters, recovering);
    }
  }

  ghost predicate Recorded(s: Step) { s.StandUp? || s.HearTerm? || s.Send? || s.Commit? || s.BeginRead? }

  /** Other steps of one replica. */
  lemma RecordedKeeps(g: Group, w: World, c: Chronicle, s: Step) returns (c': Chronicle)
    requires Good(g, w, c) && Enabled(g, w, s) && Recorded(s)
    ensures Good(g, Exec(g, w, s), c') && Later(c, c')
  {
    match s {
      case StandUp(i) => c' := StandUpKeeps(g, w, c, i);
      case HearTerm(i, t) => c' := HearTermKeeps(g, w, c, i, t);
      case Send(i, p) => assert ReplicaOk(g, w, c, i); c' := SendKeeps(g, w, c, i, p);
      case Commit(i) => c' := CommitKeeps(g, w, c, i);
      case BeginRead(i) => c' := BeginReadKeeps(g, w, c, i);
    }
  }

  lemma QuietKeeps(g: Group, w: World, c: Chronicle, s: Step) returns (c': Chronicle)
    requires Good(g, w, c) && Enabled(g, w, s) && !s.Win? && !s.Submit?
    requires ShunnedBy(w, s) <= c.h.shunned && Wary(w, s, c.h.shunned)
    ensures Good(g, Exec(g, w, s), c') && Later(c, c')
  {
    if s.Deliver? {
      c' := DeliverKeeps(g, w, c, s.m);
    } else if Unrecorded(s) {
      c' := c;
      UnrecordedKeeps(g, w, c, s);
    } else if Recorded(s) {
      c' := RecordedKeeps(g, w, c, s);
    } else {
      c' := TornKeeps(g, w, c, s);
    }
  }

  /** Every step a replica can take preserves the invariant, if the leaders it turns away are on record and
      it is wary of those. */
  lemma StepKeeps(g: Group, w: World, c: Chronicle, s: Step) returns (c': Chronicle)
    requires Good(g, w, c) && Enabled(g, w, s)
    requires ShunnedBy(w, s) <= c.h.shunned && Wary(w, s, c.h.shunned)
    ensures Good(g, Exec(g, w, s), c') && Passes(c, c', s)
  {
    if s.Win? || s.Submit? {
      c' := WritingKeeps(g, w, c, s);
      WrittenPasses(c, c', s);
    } else {
      c' := QuietKeeps(g, w, c, s);
      LaterPasses(c, c', s);
    }
  }

  /** The same, with the leaders it turns away put on record. */
  lemma NextKeeps(g: Group, w: World, c: Chronicle, s: Step) returns (c': Chronicle)
    requires Good(g, w, c) && Enabled(g, w, s) && Wary(w, s, c.h.shunned)
    ensures Good(g, Exec(g, w, s), c') && Since(c, c') && c'.h.shunned == c.h.shunned + ShunnedBy(w, s)
    ensures LedPasses(c.h, c'.h, s)
  {
    var c1 := ShunGood(g, w, c, ShunnedBy(w, s));
    WaryStill(w, s, c.h.shunned);
    c' := StepKeeps(g, w, c1, s);
    PassesSince(c1, c', s);
    SinceSince(c, c1, c');
  }

  lemma {:induction false} RunKeeps(g: Group, w: World, c: Chronicle, steps: seq<Step>) returns (c': Chronicle)
    requires Good(g, w, c) && Run(g, w, steps) && Prudent(g, w, steps, c.h.shunned)
    ensures Good(g, After(g, w, steps), c') && Since(c, c')
    ensures c'.h.shunned == c.h.shunned + ShunnedIn(g, w, steps)
    decreases |steps|
  {
    c' := c;
    if steps != [] {
      var c1 := NextKeeps(g, w, c, steps[0]);
      c' := RunKeeps(g, Exec(g, w, steps[0]), c1, steps[1..]);
      SinceSince(c, c1, c');
    }
  }

  /** A message that is turned away is not accepted. */
  lemma WaryStill(w: World, s: Step, shunned: set<Slot>)
    requires Wary(w, s, shunned)
    ensures Wary(w, s, shunned + ShunnedBy(w, s))
  {
  }

  /** A group whose voter sets always overlap, starting from empty logs. */
  ghost predicate Start(g: Group, w: World) {
    Overlapping(g) && Initial(g, w)
  }

  function Beginning(replicas: set<ReplicaId>): History {
    History(map i | i in replicas :: 0, map i | i in replicas :: [], map[], map[], map[], map[], map[], map[], {})
  }

  lemma StartIsGood(g: Group, w: World) returns (c: Chronicle)
    requires Start(g, w)
    ensures Good(g, w, c) && c.h.shunned == {} && c.h.led == map[]
  {
    var h := Beginning(g.replicas);
    c := Chronicle(h, map[], {});
    forall t ensures LedAt(h, t) && WonAt(g, h, t) && CommitAt(g, h, t) {}
    forall i ensures LogAt(h, i) {
      forall k ensures BackedAt(h, [], k) {}
    }
    forall s ensures VoteAt(h, s) && BidAt(h, s) && AckAt(h, s) {}
    forall s, t, n ensures PromiseAt(h, s, t, n) {}
    forall i, t, n ensures KeepAt(h, i, t, n) {}
    forall t, n, u ensures SucceedAt(h, t, n, u) {}
    forall i ensures ReplicaOk(g, w, c, i) {
      if i in g.replicas { assert InitialState(g, i, w.replicas[i]); }
    }
    forall m ensures MessageOk(g, w, c, m) {}
    forall k ensures BegunOk(c, k) {}
  }

  lemma Reachable(g: Group, w: World, steps: seq<Step>) returns (c: Chronicle)
    requires Start(g, w) && Run(g, w, steps) && Prudent(g, w, steps, {})
    ensures Good(g, After(g, w, steps), c) && c.h.shunned == ShunnedIn(g, w, steps)
  {
    var c0 := StartIsGood(g, w);
    c := RunKeeps(g, w, c0, steps);
  }

  lemma Whole(snapshot: Log, v: L.View, l: Log)
    requires |snapshot| == v.snapIndex && Agree(snapshot, l, v.snapIndex) && L.Completes(l, v)
    ensures snapshot + v.entries == l
  {
    var f := snapshot + v.entries;
    forall k | 0 <= k < |f| ensures f[k] == l[k] {
      if k >= v.snapIndex { assert f[k] == v.entries[k - v.snapIndex]; }
    }
  }

  lemma FullLog(h: History, i: ReplicaId, r: State)
    requires LogRel(h, i, r)
    ensures Full(r) == h.log[i]
  {
    Whole(r.snapshot, r.log, h.log[i]);
  }

  // ---------------------------------------------------------------- theorems

  /** In every reachable state the cursors of a replica are in order, and its log window is numbered
      from its snapshot on. */
  lemma CursorsInOrder(g: Group, w: World, steps: seq<Step>, i: ReplicaId)
    requires Start(g, w) && Run(g, w, steps) && Prudent(g, w, steps, {}) && i in g.replicas
    ensures var w' := After(g, w, steps);
            && i in w'.replicas && L.WellFormed(w'.replicas[i].log)
            && var r := w'.replicas[i];
               0 <= r.log.snapIndex <= r.applied <= r.commit <= L.LastIndex(r.log)
  {
    var c := Reachable(g, w, steps);
    var w' := After(g, w, steps);
    assert ReplicaOk(g, w', c, i);
    ViewEnds(c.h, i, w'.replicas[i]);
  }

  /** State-machine safety: what any replica has committed at any time agrees with what any replica
      has committed at any later time, as far as both reach. */
  lemma StateMachineSafety(g: Group, w: World, before: seq<Step>, between: seq<Step>, i: ReplicaId, j: ReplicaId)
    requires Start(g, w) && Run(g, w, before) && Run(g, After(g, w, before), between)
    requires Prudent(g, w, before, {}) && Prudent(g, After(g, w, before), between, ShunnedIn(g, w, before))
    requires i in g.replicas && j in g.replicas
    ensures var w1 := After(g, w, before);
            var w2 := After(g, w1, between);
            && i in w1.replicas && j in w2.replicas
            && var n := Min(w1.replicas[i].commit, w2.replicas[j].commit);
               Agree(Full(w1.replicas[i]), Full(w2.replicas[j]), n)
  {
    var w1 := After(g, w, before);
    var w2 := After(g, w1, between);
    var c1 := Reachable(g, w, before);
    var c2 := RunKeeps(g, w1, c1, between);
    assert ReplicaOk(g, w1, c1, i) && ReplicaOk(g, w2, c2, j);
    CommittedTogether(g, c1, c2, i, w1.replicas[i], j, w2.replicas[j]);
  }

  lemma CommittedTogether(g: Group, c1: Chronicle, c2: Chronicle, i: ReplicaId, r: State, j: ReplicaId, q: State)
    requires Inv(g, c2.h) && Overlapping(g) && Since(c1, c2) && LogRel(c1.h, i, r) && LogRel(c2.h, j, q)
    ensures Agree(Full(r), Full(q), Min(r.commit, q.commit))
  {
    var n := Min(r.commit, q.commit);
    var a, b := c1.h.log[i], c2.h.log[j];
    FullLog(c1.h, i, r);
    FullLog(c2.h, j, q);
    CommittedShorter(c1.h, r.term, a, r.commit, n);
    CommittedGrows(c1.h, c2.h, r.term, a, n, r.term, a);
    CommittedShorter(c2.h, q.term, b, q.commit, n);
    CommittedAgree(g, c2.h, r.term, a, n, q.term, b, n);
  }

  /** Leader completeness: whatever some replica had committed is in the log of every leader of the
      same or a later term from then on. */
  lemma LeadersHaveCommitted(g: Group, w: World, before: seq<Step>, between: seq<Step>, i: ReplicaId, j: ReplicaId)
    requires Start(g, w) && Run(g, w, before) && Run(g, After(g, w, before), between)
    requires Prudent(g, w, before, {}) && Prudent(g, After(g, w, before), between, ShunnedIn(g, w, before))
    requires i in After(g, w, before).replicas && j in After(g, After(g, w, before), between).replicas
    requires var w1 := After(g, w, before);
             var w2 := After(g, w1, between);
             w2.replicas[j].role.Leader? && w1.replicas[i].term <= w2.replicas[j].term
    ensures var w1 := After(g, w, before);
            var w2 := After(g, w1, between);
            Agree(Full(w1.replicas[i]), Full(w2.replicas[j]), w1.replicas[i].commit)
  {
    var w1 := After(g, w, before);
    var w2 := After(g, w1, between);
    var c1 := Reachable(g, w, before);
    var c2 := RunKeeps(g, w1, c1, between);
    assert ReplicaOk(g, w1, c1, i) && ReplicaOk(g, w2, c2, j);
    var r, q := w1.replicas[i], w2.replicas[j];
    FullLog(c1.h, i, r);
    FullLog(c2.h, j, q);
    CommittedGrows(c1.h, c2.h, r.term, c1.h.log[i], r.commit, q.term, c1.h.log[i]);
    CommittedInLed(g, c2.h, q.term, c1.h.log[i], r.commit);
  }

  /** Match soundness: while a follower is in the leader's term, the leader's match index for it
      never exceeds the prefix on which their logs agree, whatever stale messages are about. */
  lemma MatchIsSound(g: Group, w: World, steps: seq<Step>, i: ReplicaId, p: ReplicaId)
    requires Start(g, w) && Run(g, w, steps) && Prudent(g, w, steps, {}) && p != i
    requires i in After(g, w, steps).replicas && p in After(g, w, steps).replicas
    requires var w' := After(g, w, steps); w'.replicas[i].role.Leader? && w'.replicas[p].term == w'.replicas[i].term
    ensures var w' := After(g, w, steps);
            Agree(Full(w'.replicas[i]), Full(w'.replicas[p]), MatchIndex(w'.replicas[i], p))
  {
    var w' := After(g, w, steps);
    var c := Reachable(g, w, steps);
    assert ReplicaOk(g, w', c, i) && ReplicaOk(g, w', c, p);
    var r := w'.replicas[i];
    FullLog(c.h, i, r);
    FullLog(c.h, p, w'.replicas[p]);
    assert PeerRel(c.h, r.term, p, NextIndex(r, p), MatchIndex(r, p));
    assert AckAt(c.h, Slot(p, r.term));
  }

  /** Log matching over time: a record that any replica held at any time and the record any replica holds
      at that index at any later time are the same if and only if their terms are, and then so is
      everything before them. */
  lemma RecordsMatch(g: Group, w: World, before: seq<Step>, between: seq<Step>, i: ReplicaId, j: ReplicaId, n: int)
    requires Start(g, w) && Run(g, w, before) && Run(g, After(g, w, before), between)
    requires Prudent(g, w, before, {}) && Prudent(g, After(g, w, before), between, ShunnedIn(g, w, before))
    requires i in After(g, w, before).replicas && j in After(g, After(g, w, before), between).replicas
    requires var a, b := Full(After(g, w, before).replicas[i]),
                         Full(After(g, After(g, w, before), between).replicas[j]);
             1 <= n <= |a| && n <= |b|
    ensures var a, b := Full(After(g, w, before).replicas[i]),
                        Full(After(g, After(g, w, before), between).replicas[j]);
            (a[n - 1] == b[n - 1] <==> a[n - 1].term == b[n - 1].term)
            && (a[n - 1].term == b[n - 1].term ==> Agree(a, b, n))
  {
    var w1 := After(g, w, before);
    var w2 := After(g, w1, between);
    var c1 := Reachable(g, w, before);
    var c2 := RunKeeps(g, w1, c1, between);
    assert ReplicaOk(g, w1, c1, i) && ReplicaOk(g, w2, c2, j);
    MatchLater(g, c1, c2, i, w1.replicas[i], j, w2.replicas[j], n);
  }

  lemma MatchLater(g: Group, c1: Chronicle, c2: Chronicle, i: ReplicaId, r: State, j: ReplicaId, q: State, n: int)
    requires Inv(g, c1.h) && Inv(g, c2.h) && Since(c1, c2) && LogRel(c1.h, i, r) && LogRel(c2.h, j, q)
    requires 1 <= n <= |Full(r)| && n <= |Full(q)|
    ensures Full(r)[n - 1].term == Full(q)[n - 1].term ==> Agree(Full(r), Full(q), n)
  {
    FullLog(c1.h, i, r);
    FullLog(c2.h, j, q);
    assert LogAt(c1.h, i) && LogAt(c2.h, j);
    BackedGrows(c1.h, c2.h, c1.h.log[i]);
    if Full(r)[n - 1].term == Full(q)[n - 1].term { LogMatching(c2.h, Full(r), Full(q), n); }
  }

  /** While a replica leads one term, its log only grows. */
  lemma LeaderOnlyAppends(g: Group, w: World, before: seq<Step>, between: seq<Step>, i: ReplicaId)
    requires Start(g, w) && Run(g, w, before) && Run(g, After(g, w, before), between)
    requires Prudent(g, w, before, {}) && Prudent(g, After(g, w, before), between, ShunnedIn(g, w, before))
    requires i in After(g, w, before).replicas && i in After(g, After(g, w, before), between).replicas
    requires var r, q := After(g, w, before).replicas[i], After(g, After(g, w, before), between).replicas[i];
             r.role.Leader? && q.role.Leader? && q.term == r.term
    ensures var r, q := After(g, w, before).replicas[i], After(g, After(g, w, before), between).replicas[i];
            Agree(Full(r), Full(q), |Full(r)|)
  {
    var w1 := After(g, w, before);
    var w2 := After(g, w1, between);
    var c1 := Reachable(g, w, before);
    var c2 := RunKeeps(g, w1, c1, between);
    assert ReplicaOk(g, w1, c1, i) && ReplicaOk(g, w2, c2, i);
    FullLog(c1.h, i, w1.replicas[i]);
    FullLog(c2.h, i, w2.replicas[i]);
  }

  /** Linearizable reads: when a read begun at w1 may be answered at w2, its index covers everything
      any replica had committed when it began, and the state it is answered from contains all of it. */
  lemma ReadsAreLinearizable(g: Group, w: World, before: seq<Step>, i: ReplicaId, between: seq<Step>, j: ReplicaId)
    requires Start(g, w) && Run(g, w, before) && Prudent(g, w, before, {}) && i in g.replicas && j in g.replicas
    requires Enabled(g, After(g, w, before), BeginRead(i))
    requires Run(g, Exec(g, After(g, w, before), BeginRead(i)), between)
    requires Prudent(g, Exec(g, After(g, w, before), BeginRead(i)), between, ShunnedIn(g, w, before))
    requires var w1 := After(g, w, before);
             var w2 := After(g, Exec(g, w1, BeginRead(i)), between);
             i in w2.replicas && MayAnswer(w2.replicas[i], w1.replicas[i].nextSeq)
    ensures var w1 := After(g, w, before);
            var w2 := After(g, Exec(g, w1, BeginRead(i)), between);
            && j in w1.replicas
            && var n := w1.replicas[j].commit;
               && n <= w2.replicas[i].pending[w1.replicas[i].nextSeq].index <= w2.replicas[i].applied
               && Agree(Full(w1.replicas[j]), Full(w2.replicas[i]), n)
  {
    var w1 := After(g, w, before);
    var wb := Exec(g, w1, BeginRead(i));
    var c1 := Reachable(g, w, before);
    var c2 := ReadRun(g, w1, c1, i, wb, between);
    ReadConclusion(g, w1, c1, After(g, wb, between), c2, i, j);
  }

  lemma ReadConclusion(g: Group, w1: World, c1: Chronicle, w2: World, c2: Chronicle, i: ReplicaId, j: ReplicaId)
    requires Good(g, w1, c1) && Good(g, w2, c2) && Since(c1, c2) && i in g.replicas && j in g.replicas
    requires var k := ReadKey(i, w1.replicas[i].nextSeq); k in c2.begun && c2.begun[k].commit == c1.h.commit
    requires MayAnswer(w2.replicas[i], w1.replicas[i].nextSeq)
    ensures var n := w1.replicas[j].commit;
            && n <= w2.replicas[i].pending[w1.replicas[i].nextSeq].index <= w2.replicas[i].applied
            && Agree(Full(w1.replicas[j]), Full(w2.replicas[i]), n)
  {
    assert ReplicaOk(g, w1, c1, j) && ReplicaOk(g, w2, c2, i);
    ReadCovers(g, c1, c2, i, w2.replicas[i], w1.replicas[i].nextSeq, j, w1.replicas[j]);
    CommittedTogether(g, c1, c2, j, w1.replicas[j], i, w2.replicas[i]);
  }

  lemma ReadRun(g: Group, w: World, c: Chronicle, i: ReplicaId, wb: World, between: seq<Step>) returns (c': Chronicle)
    requires Good(g, w, c) && i in w.replicas && ReadableLeader(w.replicas[i])
    requires wb == Update(w, i, StartRead(w.replicas[i]).state, StartRead(w.replicas[i]).sent)
    requires Run(g, wb, between) && Prudent(g, wb, between, c.h.shunned)
    ensures Good(g, After(g, wb, between), c') && Since(c, c')
    ensures var k := ReadKey(i, w.replicas[i].nextSeq); k in c'.begun && c'.begun[k].commit == c.h.commit
  {
    var cb := BeginReadKeeps(g, w, c, i);
    c' := RunKeeps(g, wb, cb, between);
    SinceSince(c, cb, c');
  }

  lemma ReadCovers(g: Group, c1: Chronicle, c2: Chronicle, i: ReplicaId, r: State, seqNo: int, j: ReplicaId, q: State)
    requires Inv(g, c2.h) && Overlapping(g) && ReplicaRel(g, c2, i, r) && MayAnswer(r, seqNo) && LogRel(c1.h, j, q)
    requires ReadKey(i, seqNo) in c2.begun && c2.begun[ReadKey(i, seqNo)].commit == c1.h.commit
    ensures q.commit <= r.pending[seqNo].index <= r.applied
  {
    if q.commit > 0 {
      var t :| t <= q.term && CommittedIn(c1.h, t, c1.h.log[j], q.commit);
      AnswerCovers(g, c2, i, r, seqNo, t);
    } else {
      assert ReadRel(g, c2, i, seqNo, r.pending[seqNo]);
    }
  }
}
