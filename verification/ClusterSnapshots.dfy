/** Steps that take, install and acknowledge snapshots keep the invariant
    (src/storage/raft/core/raft_core_snapshot.cpp). */
module ClusterSnapshots {
  import opened Types
  import opened Replica
  import opened Consensus
  import opened Cluster
  import opened ClusterInvariant
  import opened ClusterElection
  import opened ClusterReplication
  import L = RaftLog

  // ---------------------------------------------------------------- local snapshots

  /** Installing a snapshot that agrees with the log keeps the whole log. */
  lemma InstalledView(l: Log, v: L.View, snapshot: Log, index: int)
    requires L.Completes(l, v) && L.WellFormed(v) && v.snapIndex <= index <= |l| && 1 <= index && l[index - 1].term != 0
    requires |snapshot| == index && Agree(snapshot, l, index)
    ensures var v' := Installed(v, index, TermIn(l, index));
            L.Completes(l, v') && L.WellFormed(v') && v'.snapIndex == index
  {
  }

  lemma SnapshotContents(l: Log, v: L.View, snapshot: Log, index: int)
    requires L.Completes(l, v) && |snapshot| == v.snapIndex && Agree(snapshot, l, v.snapIndex)
    requires v.snapIndex <= index <= |l|
    ensures var s := snapshot + v.entries[..index - v.snapIndex]; |s| == index && Agree(s, l, index)
  {
    var s := snapshot + v.entries[..index - v.snapIndex];
    forall k | 0 <= k < index ensures s[k] == l[k] {
      if k >= v.snapIndex { assert s[k] == v.entries[k - v.snapIndex]; }
    }
  }

  lemma LogTermPositive(g: Group, h: History, i: ReplicaId, n: int)
    requires Inv(g, h) && i in g.replicas && 1 <= n <= |h.log[i]|
    ensures h.log[i][n - 1].term >= 1
  {
    assert LogAt(h, i);
    assert BackedAt(h, h.log[i], n - 1);
    assert LedAt(h, h.log[i][n - 1].term);
  }

  lemma Snapshotted(g: Group, h: History, i: ReplicaId, r: State, index: int)
    requires Inv(g, h) && i in g.replicas && LogRel(h, i, r)
    requires r.log.snapIndex < index <= r.applied && index - r.log.snapIndex <= |r.log.entries|
    ensures LogRel(h, i, TakeSnapshot(r, index))
  {
    ViewTerm(h, i, r, index);
    LogTermPositive(g, h, i, index);
    SnapshotContents(h.log[i], r.log, r.snapshot, index);
    InstalledView(h.log[i], r.log, TakeSnapshot(r, index).snapshot, index);
  }

  lemma SnapshotKeeps(g: Group, w: World, c: Chronicle, i: ReplicaId, index: int)
    requires Good(g, w, c) && i in w.replicas
    requires var r := w.replicas[i]; r.log.snapIndex < index <= r.applied && index - r.log.snapIndex <= |r.log.entries|
    ensures Good(g, Update(w, i, TakeSnapshot(w.replicas[i], index), {}), c)
  {
    var r := w.replicas[i];
    var r' := TakeSnapshot(r, index);
    assert ReplicaOk(g, w, c, i);
    Snapshotted(g, c.h, i, r, index);
    if r.role.Leader? { LeaderRelSame(g, c.h, i, r, r'); }
    LocalStep(g, w, c, i, r');
  }

  lemma ApplyKeeps(g: Group, w: World, c: Chronicle, i: ReplicaId, n: int)
    requires Good(g, w, c) && i in w.replicas && w.replicas[i].applied < n <= w.replicas[i].commit
    ensures Good(g, Update(w, i, Apply(w.replicas[i], n), {}), c)
  {
    var r := w.replicas[i];
    assert ReplicaOk(g, w, c, i);
    if r.role.Leader? { LeaderRelSame(g, c.h, i, r, Apply(r, n)); }
    LocalStep(g, w, c, i, Apply(r, n));
  }

  lemma ClearInflightKeeps(g: Group, w: World, c: Chronicle, i: ReplicaId, p: ReplicaId, index: int)
    requires Good(g, w, c) && i in w.replicas
    ensures Good(g, Update(w, i, ClearInflight(w.replicas[i], p, index), {}), c)
  {
    var r := w.replicas[i];
    assert ReplicaOk(g, w, c, i);
    if r.role.Leader? { LeaderRelSame(g, c.h, i, r, ClearInflight(r, p, index)); }
    LocalStep(g, w, c, i, ClearInflight(r, p, index));
  }

  // ---------------------------------------------------------------- installing a leader's snapshot

  ghost predicate Installs(g: Group, h: History, i: ReplicaId, r: State, m: Message) {
    && Inv(g, h) && Overlapping(g) && i in g.replicas && LogRel(h, i, r)
    && m.InstallSnapshot? && m.to == i && SnapshotRel(h, m) && m.term == r.term && r.role.Follower?
  }

  lemma InstallCases(r: State, m: Message)
    requires m.InstallSnapshot? && m.from in r.peers && m.term == r.term && r.role.Follower?
    ensures var o := OnInstallSnapshot(r, m);
            && (Has(r, m) ==> o.state == r)
            && (!Has(r, m) ==> o.state == r.(log := Installed(r.log, m.index, m.snapTerm), snapshot := m.contents,
                                             commit := Max(r.commit, m.index), applied := Max(r.applied, m.index),
                                             recovering := false))
            && o.sent ==
               {SnapshotReply(r.id, m.from, m.term, m.index, r.term, true, Max(m.index, o.state.log.snapIndex))}
  {
  }

  /** A follower that keeps its log already agrees with the leader up to the acknowledged watermark. */
  lemma HeldAgrees(g: Group, h: History, i: ReplicaId, r: State, m: Message)
    requires Installs(g, h, i, r, m) && Has(r, m)
    ensures Agree(h.led[r.term], h.log[i], Max(m.index, r.log.snapIndex))
  {
    CommittedHeld(g, h, i, r);
    if m.index > r.commit {
      ViewEnds(h, i, r);
      ViewTerm(h, i, r, m.index);
      TermsArePositive(g, h, r.term, m.index);
      assert LedAt(h, r.term) && LogAt(h, i);
      SameTermAgrees(h, h.led[r.term], h.log[i], m.index);
    }
  }

  /** The window left by an installed snapshot is that of the log that followed the leader. */
  lemma InstalledFollows(l: Log, led: Log, v: L.View, contents: Log, index: int)
    requires L.Completes(l, v) && L.WellFormed(v) && L.Matching(l, led) && L.Contiguous(led, 0)
    requires v.snapIndex < index == |contents| && Agree(contents, led, index) && led[index - 1].term != 0
    ensures var v' := Installed(v, index, TermIn(led, index));
            && L.Completes(Follow(l, led, index), v') && L.WellFormed(v') && v'.snapIndex == index
            && Agree(contents, Follow(l, led, index), index)
  {
    assert L.MatchingAt(l, led, index - 1);
    if Agree(led, l, index) {
      InstalledView(l, v, contents, index);
    } else {
      assert index <= |l| ==> l[index - 1].term != led[index - 1].term;
      assert Follow(l, led, index)[index - 1] == led[index - 1];
    }
  }

  lemma InstalledLog(g: Group, h: History, i: ReplicaId, r: State, m: Message)
    requires Installs(g, h, i, r, m) && !Has(r, m)
    ensures var v' := Installed(r.log, m.index, m.snapTerm);
            var l' := Follow(h.log[i], h.led[r.term], m.index);
            && L.Completes(l', v') && L.WellFormed(v') && v'.snapIndex == m.index
            && Agree(m.contents, l', m.index) && Agree(h.led[r.term], l', m.index)
  {
    LogsMatch(g, h, i, r.term);
    TermsArePositive(g, h, r.term, m.index);
    InstalledFollows(h.log[i], h.led[r.term], r.log, m.contents, m.index);
  }

  lemma InstalledRel(h: History, h': History, i: ReplicaId, r: State, m: Message, r': State)
    requires LogRel(h, i, r) && m.InstallSnapshot? && SnapshotRel(h, m) && m.term == r.term && r.commit < m.index
    requires r'.term == r.term && r'.snapshot == m.contents && r'.commit == r'.applied == m.index
    requires Takes(h, h', i, m.index)
    requires L.Completes(h'.log[i], r'.log) && L.WellFormed(r'.log) && r'.log.snapIndex == m.index
    requires Agree(m.contents, h'.log[i], m.index) && Agree(h.led[r.term], h'.log[i], m.index)
    ensures LogRel(h', i, r')
  {
    CommittedGrows(h, h', r.term, h.led[r.term], m.index, r.term, h'.log[i]);
  }

  lemma InstalledState(g: Group, c: Chronicle, i: ReplicaId, r: State, m: Message, r': State) returns (c': Chronicle)
    requires Installs(g, c.h, i, r, m) && ReplicaRel(g, c, i, r) && !Has(r, m)
    requires r' == r.(log := Installed(r.log, m.index, m.snapTerm), snapshot := m.contents,
                      commit := Max(r.commit, m.index), applied := Max(r.applied, m.index), recovering := false)
    ensures Inv(g, c'.h) && Moves(c.h, c'.h, i) && c' == c.(h := c'.h) && ReplicaRel(g, c', i, r')
    ensures Acked(c'.h, i, m.term, m.index) && r'.log.snapIndex == m.index && c'.h.led == c.h.led
  {
    InstalledLog(g, c.h, i, r, m);
    var h' := Adopted(g, c.h, i, m.index);
    InstalledRel(c.h, h', i, r, m, r');
    c' := c.(h := h');
    FollowerRel(g, c, c', i, r, r');
  }

  lemma HeldState(g: Group, c: Chronicle, i: ReplicaId, r: State, m: Message) returns (c': Chronicle)
    requires Installs(g, c.h, i, r, m) && ReplicaRel(g, c, i, r) && Has(r, m)
    ensures Inv(g, c'.h) && Moves(c.h, c'.h, i) && c' == c.(h := c'.h) && ReplicaRel(g, c', i, r)
    ensures Acked(c'.h, i, m.term, Max(m.index, r.log.snapIndex)) && c'.h.led == c.h.led
  {
    HeldAgrees(g, c.h, i, r, m);
    var h' := Adopted(g, c.h, i, Max(m.index, r.log.snapIndex));
    c' := c.(h := h');
    OwnLogStays(c.h, h', i, r, r);
    FollowerRel(g, c, c', i, r, r);
  }

  lemma WatermarkReplyIsOk(g: Group, c: Chronicle, i: ReplicaId, m: Message, mark: int)
    requires Elected(c.h, m.term) && m.InstallSnapshot? && 1 <= m.index <= mark && Addressed(g, m) && m.to == i
    requires Acked(c.h, i, m.term, mark) && Slot(i, m.term) in c.probed
    ensures SentOk(g, c, {SnapshotReply(i, m.from, m.term, m.index, m.term, true, mark)})
  {
  }

  lemma InstallStep(g: Group, w: World, c: Chronicle, m: Message, r': State, mark: int, c': Chronicle)
    requires Good(g, w, c) && m.InstallSnapshot? && m in w.net && m.to in w.replicas
    requires Inv(g, c'.h) && Moves(c.h, c'.h, m.to) && c' == c.(h := c'.h) && ReplicaRel(g, c', m.to, r')
    requires Elected(c'.h, m.term) && 1 <= m.index <= mark && Acked(c'.h, m.to, m.term, mark)
    ensures Good(g, Update(w, m.to, r', {SnapshotReply(m.to, m.from, m.term, m.index, m.term, true, mark)}), c')
  {
    assert MessageOk(g, w, c, m);
    WatermarkReplyIsOk(g, c', m.to, m, mark);
    Preserved(g, w, c, m.to, r', {SnapshotReply(m.to, m.from, m.term, m.index, m.term, true, mark)}, c');
  }

  lemma InstallInTerm(g: Group, w: World, c: Chronicle, m: Message) returns (c': Chronicle)
    requires Good(g, w, c) && m.InstallSnapshot? && m in w.net && m.to in w.replicas
    requires var r := w.replicas[m.to]; m.term == r.term && r.role.Follower? && m.from in r.peers
    ensures var o := OnInstallSnapshot(w.replicas[m.to], m);
            Good(g, Update(w, m.to, o.state, o.sent), c') && Later(c, c')
  {
    var r := w.replicas[m.to];
    assert ReplicaOk(g, w, c, m.to) && MessageOk(g, w, c, m);
    InstallCases(r, m);
    var o := OnInstallSnapshot(r, m);
    if Has(r, m) {
      c' := HeldState(g, c, m.to, r, m);
      InstallStep(g, w, c, m, r, Max(m.index, r.log.snapIndex), c');
    } else {
      c' := InstalledState(g, c, m.to, r, m, o.state);
      InstallStep(g, w, c, m, o.state, m.index, c');
    }
  }

  lemma InstallAfterStep(r: State, m: Message)
    requires m.InstallSnapshot? && m.from in r.peers && m.term >= r.term
    ensures OnInstallSnapshot(r, m) == OnInstallSnapshot(StepTo(r, m.term), m)
  {
    StepToIdempotent(r, m.term);
  }

  lemma InstallLater(g: Group, w: World, c: Chronicle, m: Message, o: Outcome) returns (c': Chronicle)
    requires Good(g, w, c) && m.InstallSnapshot? && m in w.net && m.to in w.replicas
    requires var r := w.replicas[m.to];
             r.term <= m.term && m.from in r.peers && o == OnInstallSnapshot(StepTo(r, m.term), m)
    ensures Good(g, Update(w, m.to, o.state, o.sent), c') && Later(c, c')
  {
    var r1 := StepTo(w.replicas[m.to], m.term);
    var c1 := StepToKeeps(g, w, c, m.to, m.term);
    StepToIdempotent(w.replicas[m.to], m.term);
    var w1 := Update(w, m.to, r1, {});
    assert w1.replicas[m.to] == r1 && m in w1.net;
    c' := InstallInTerm(g, w1, c1, m);
    LaterLater(c, c1, c');
    UpdateTwice(w, m.to, r1, o.state, o.sent);
  }

  lemma RefusedSnapshot(g: Group, w: World, c: Chronicle, i: ReplicaId, m: Message)
    requires Good(g, w, c) && i in w.replicas && m.SnapshotReply? && !m.ok && Addressed(g, m)
    ensures Good(g, Update(w, i, w.replicas[i], {m}), c)
  {
    assert ReplicaOk(g, w, c, i);
    StillMoves(c.h, i);
    Preserved(g, w, c, i, w.replicas[i], {m}, c);
  }

  lemma InstallSnapshotKeeps(g: Group, w: World, c: Chronicle, m: Message) returns (c': Chronicle)
    requires Good(g, w, c) && m.InstallSnapshot? && m in w.net && m.to in w.replicas
    ensures var o := OnInstallSnapshot(w.replicas[m.to], m);
            Good(g, Update(w, m.to, o.state, o.sent), c') && Later(c, c')
  {
    var r := w.replicas[m.to];
    assert ReplicaOk(g, w, c, m.to) && MessageOk(g, w, c, m);
    if m.from !in r.peers || m.term < r.term {
      c' := c;
      RefusedSnapshot(g, w, c, m.to, SnapshotReply(r.id, m.from, m.term, m.index, r.term, false, 0));
    } else {
      InstallAfterStep(r, m);
      c' := InstallLater(g, w, c, m, OnInstallSnapshot(r, m));
    }
  }

  // ---------------------------------------------------------------- a crash after publishing a snapshot

  lemma Unsent(g: Group, w: World, c: Chronicle, net: set<Message>)
    requires Good(g, w, c) && net <= w.net
    ensures Good(g, World(w.replicas, net), c)
  {
    var w' := World(w.replicas, net);
    forall i ensures ReplicaOk(g, w', c, i) { assert ReplicaOk(g, w, c, i); }
    forall m ensures MessageOk(g, w', c, m) { assert MessageOk(g, w, c, m); }
  }

  /** Where nothing above the snapshot has to go, recovering is installing and restarting. */
  lemma TornIsRestart(r: State, m: Message, peers: set<ReplicaId>, voters: set<ReplicaId>, rec: bool)
    requires m.InstallSnapshot? && PublishesOver(r, m) && ContinuesIt(r, m)
    ensures TornInstalled(r, m, peers, voters, rec) == Restart(OnInstallSnapshot(r, m).state, peers, voters, rec)
  {
  }

  lemma TornInstallKeeps(g: Group, w: World, c: Chronicle, m: Message, peers: set<ReplicaId>, voters: set<ReplicaId>,
                         rec: bool)
    returns (c': Chronicle)
    requires Good(g, w, c) && m.InstallSnapshot? && m in w.net && m.to in w.replicas && MemberList(g, peers, voters)
    requires PublishesOver(w.replicas[m.to], m) && ContinuesIt(w.replicas[m.to], m)
    ensures Good(g, Update(w, m.to, TornInstalled(w.replicas[m.to], m, peers, voters, rec), {}), c') && Later(c, c')
  {
    var o := OnInstallSnapshot(w.replicas[m.to], m);
    c' := InstallSnapshotKeeps(g, w, c, m);
    RestartUnsent(g, w, c', m.to, o.state, o.sent, peers, voters, rec);
    TornIsRestart(w.replicas[m.to], m, peers, voters, rec);
  }

  /** A crash before anything is sent. */
  lemma RestartUnsent(g: Group, w: World, c: Chronicle, i: ReplicaId, r: State, sent: set<Message>,
                      peers: set<ReplicaId>, voters: set<ReplicaId>, rec: bool)
    requires Good(g, Update(w, i, r, sent), c) && MemberList(g, peers, voters)
    ensures Good(g, Update(w, i, Restart(r, peers, voters, rec), {}), c)
  {
    var w1 := Update(w, i, r, sent);
    CrashKeeps(g, w1, c, i, peers, voters, rec);
    var w2 := Update(w1, i, Restart(r, peers, voters, rec), {});
    Unsent(g, w2, c, w.net);
    assert World(w2.replicas, w.net) == Update(w, i, Restart(r, peers, voters, rec), {});
  }

  /** A tail written over another record is left standing on the snapshot, and no history accounts for it. */
  lemma ForeignTail(h: History, h': History, l: Log, l': Log, n: int)
    requires Backed(h, l) && Backed(h', l') && Grows(h, h') && 1 <= n < |l| && n < |l'| && l'[n] == l[n]
    ensures l'[n - 1] == l[n - 1]
  {
    assert BackedAt(h, l, n) && BackedAt(h', l', n);
  }

  lemma TornLogs(g: Group, c: Chronicle, i: ReplicaId, r: State, m: Message, c': Chronicle, r': State)
    requires Inv(g, c.h) && Inv(g, c'.h) && LogRel(c.h, i, r) && LogRel(c'.h, i, r')
    requires m.InstallSnapshot? && SnapshotRel(c.h, m) && r.log.snapIndex < m.index < L.LastIndex(r.log)
    requires r'.log == Recovered(r.log, m.index, m.snapTerm) && r'.snapshot == m.contents
    ensures m.index < |c.h.log[i]| && m.index < |c'.h.log[i]| && c'.h.log[i][m.index] == c.h.log[i][m.index]
    ensures L.TermAt(r.log, m.index) == c.h.log[i][m.index - 1].term
    ensures c'.h.log[i][m.index - 1].term == m.snapTerm
  {
    ViewEnds(c.h, i, r);
    ViewEnds(c'.h, i, r');
    ViewTerm(c.h, i, r, m.index);
    var k := m.index - r.log.snapIndex;
    assert r'.log.entries[0] == r.log.entries[k];
    assert m.contents[m.index - 1] == c'.h.log[i][m.index - 1];
  }

  /** After a crash between publishing a received snapshot and rewriting the log, the invariant holds, with
      some continuation of the history, if and only if no tail written over another record stays behind. */
  lemma TornInstallExactly(g: Group, w: World, c: Chronicle, m: Message, peers: set<ReplicaId>, voters: set<ReplicaId>,
                           rec: bool)
    requires Good(g, w, c) && m.InstallSnapshot? && m in w.net && m.to in w.replicas && MemberList(g, peers, voters)
    requires PublishesOver(w.replicas[m.to], m)
    ensures var w' := Update(w, m.to, TornInstalled(w.replicas[m.to], m, peers, voters, rec), {});
            (exists c' :: Since(c, c') && Good(g, w', c')) <==> ContinuesIt(w.replicas[m.to], m)
  {
    var w' := Update(w, m.to, TornInstalled(w.replicas[m.to], m, peers, voters, rec), {});
    if ContinuesIt(w.replicas[m.to], m) {
      var c' := TornInstallKeeps(g, w, c, m, peers, voters, rec);
    }
    if exists c' :: Since(c, c') && Good(g, w', c') {
      var c' :| Since(c, c') && Good(g, w', c');
      OnlyContinued(g, w, c, m, w', c');
    }
  }

  lemma OnlyContinued(g: Group, w: World, c: Chronicle, m: Message, w': World, c': Chronicle)
    requires Good(g, w, c) && m.InstallSnapshot? && m in w.net && m.to in w.replicas && m.to in w'.replicas
    requires PublishesOver(w.replicas[m.to], m) && Since(c, c') && Good(g, w', c')
    requires var r, r' := w.replicas[m.to], w'.replicas[m.to];
             r'.log == Recovered(r.log, m.index, m.snapTerm) && r'.snapshot == m.contents
    ensures ContinuesIt(w.replicas[m.to], m)
  {
    assert ReplicaOk(g, w, c, m.to) && ReplicaOk(g, w', c', m.to) && MessageOk(g, w, c, m);
    TailContinues(g, c, m.to, w.replicas[m.to], m, c', w'.replicas[m.to]);
  }

  lemma TailContinues(g: Group, c: Chronicle, i: ReplicaId, r: State, m: Message, c': Chronicle, r': State)
    requires Inv(g, c.h) && Inv(g, c'.h) && Since(c, c') && LogRel(c.h, i, r) && LogRel(c'.h, i, r')
    requires m.InstallSnapshot? && SnapshotRel(c.h, m) && r.commit < m.index
    requires r'.log == Recovered(r.log, m.index, m.snapTerm) && r'.snapshot == m.contents
    ensures ContinuesIt(r, m)
  {
    if m.index < L.LastIndex(r.log) {
      TornLogs(g, c, i, r, m, c', r');
      assert LogAt(c.h, i) && LogAt(c'.h, i);
      ForeignTail(c.h, c'.h, c.h.log[i], c'.h.log[i], m.index);
    }
  }

  // ---------------------------------------------------------------- snapshot replies

  lemma WatermarkPeer(g: Group, h: History, i: ReplicaId, r: State, p: ReplicaId, mark: int)
    requires Inv(g, h) && LeaderRel(g, h, i, r) && p in g.replicas && p != i && 1 <= mark && Acked(h, p, r.term, mark)
    requires 1 <= NextIndex(r, p)
    ensures PeerRel(h, r.term, p, Max(NextIndex(r, p), mark + 1), Max(MatchIndex(r, p), mark))
  {
    assert AckAt(h, Slot(p, r.term));
    assert PeerRel(h, r.term, p, NextIndex(r, p), MatchIndex(r, p));
    ProbeHigher(h, r.term, p, NextIndex(r, p) - 1, Max(NextIndex(r, p), mark + 1) - 1);
  }

  lemma WatermarkLeads(g: Group, h: History, i: ReplicaId, r: State, m: Message)
    requires Inv(g, h) && LeaderRel(g, h, i, r) && r.role.Leader? && !r.recovering
    requires m.SnapshotReply? && SnapshotReplyRel(h, m) && m.from in g.replicas && m.term <= r.term
    requires m.ok && m.sentTerm == r.term ==> 1 <= NextIndex(r, m.from)
    ensures LeaderRel(g, h, i, OnSnapshotReply(r, m))
  {
    var r' := OnSnapshotReply(r, m);
    if m.sentTerm == r.term && m.ok {
      if m.from != i { WatermarkPeer(g, h, i, r, m.from, Max(m.watermark, m.sentIndex)); }
      OnePeerChanged(g, h, i, r, r', m.from);
    } else {
      LeaderRelSame(g, h, i, r, r');
    }
  }

  lemma WatermarkRel(g: Group, c: Chronicle, i: ReplicaId, r: State, m: Message)
    requires Inv(g, c.h) && ReplicaRel(g, c, i, r) && m.SnapshotReply? && MessageRel(c, m) && m.from in g.replicas
    requires r.recovering || m.term <= r.term
    ensures ReplicaRel(g, c, i, OnSnapshotReply(r, m))
  {
    if r.role.Leader? && !r.recovering {
      assert m.ok && m.sentTerm == r.term ==> Slot(m.from, r.term) in c.probed;
      WatermarkLeads(g, c.h, i, r, m);
      WatermarkRaises(c, r, m);
    }
  }

  lemma WatermarkRaises(c: Chronicle, r: State, m: Message)
    requires m.SnapshotReply? && r.role.Leader? && !r.recovering && m.term <= r.term && ProbedRel(c, r)
    requires m.ok ==> 0 <= m.sentIndex
    ensures ProbedRel(c, OnSnapshotReply(r, m))
    ensures var r' := OnSnapshotReply(r, m); r' == r.(next := r'.next, matched := r'.matched, inflight := r'.inflight)
  {
  }

  lemma SnapshotReplyKeeps(g: Group, w: World, c: Chronicle, m: Message) returns (c': Chronicle)
    requires Good(g, w, c) && m.SnapshotReply? && m in w.net && m.to in w.replicas
    ensures Good(g, Update(w, m.to, OnSnapshotReply(w.replicas[m.to], m), {}), c') && Later(c, c')
  {
    var r := w.replicas[m.to];
    if !r.recovering && m.term > r.term {
      c' := HearTermKeeps(g, w, c, m.to, m.term);
    } else {
      c' := c;
      assert ReplicaOk(g, w, c, m.to) && MessageOk(g, w, c, m);
      WatermarkRel(g, c, m.to, r, m);
      LocalStep(g, w, c, m.to, OnSnapshotReply(r, m));
    }
  }
}
