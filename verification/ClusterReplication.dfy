/** Steps that replicate, acknowledge and commit entries keep the invariant
    (src/storage/raft/core/raft_core_append.cpp, src/storage/raft/raft_replication.cpp). */
module ClusterReplication {
  import opened Types
  import opened Replica
  import opened Consensus
  import opened Cluster
  import opened ClusterInvariant
  import opened ClusterElection
  import L = RaftLog

  // ---------------------------------------------------------------- proposing

  lemma Extended(g: Group, h: History, t: int, e: LogEntry) returns (h': History)
    requires Inv(g, h) && MayExtend(h, t, e)
    ensures h' == Extend(h, t, e) && Inv(g, h') && Moves(h, h', h.won[t].leader)
  {
    h' := Extend(h, t, e);
    ExtendKeeps(g, h, t, e);
    ExtendMoves(h, t, e);
  }

  lemma ProposedLeads(g: Group, h: History, h': History, i: ReplicaId, r: State, r': State, e: LogEntry)
    requires Inv(g, h) && Inv(g, h') && Moves(h, h', i) && LeaderRel(g, h, i, r)
    requires MayExtend(h, r.term, e) && h' == Extend(h, r.term, e)
    requires r'.term == r.term && r'.next == r.next && r'.matched == r.matched && r'.commit == r.commit
             && r'.voters == r.voters
    ensures LeaderRel(g, h', i, r')
  {
    PeersRelMoves(g, h, h', i, i, r);
    LeaderRelSame(g, h', i, r, r');
  }

  lemma Proposed(g: Group, c: Chronicle, i: ReplicaId, r: State, payload: LogEntry) returns (c': Chronicle)
    requires Inv(g, c.h) && i in g.replicas && ReplicaRel(g, c, i, r) && WritableLeader(r)
    ensures Inv(g, c'.h) && Moves(c.h, c'.h, i) && c' == c.(h := c'.h) && ReplicaRel(g, c', i, Propose(r, payload))
    ensures c'.h.led == c.h.led[r.term := c'.h.log[i]]
  {
    var e := payload.(term := r.term, index := L.LastIndex(r.log) + 1);
    ViewEnds(c.h, i, r);
    var h' := Extended(g, c.h, r.term, e);
    c' := c.(h := h');
    LogRelExtended(c.h, h', i, r, Propose(r, payload), e);
    ProposedLeads(g, c.h, h', i, r, Propose(r, payload), e);
    ReadsRelMoves(g, c, c', i, Propose(r, payload));
  }

  lemma SubmitKeeps(g: Group, w: World, c: Chronicle, i: ReplicaId, payload: LogEntry) returns (c': Chronicle)
    requires Good(g, w, c) && i in w.replicas && WritableLeader(w.replicas[i])
    ensures Good(g, Update(w, i, Propose(w.replicas[i], payload), {}), c') && WrittenBy(c, c', i)
  {
    assert ReplicaOk(g, w, c, i);
    c' := Proposed(g, c, i, w.replicas[i], payload);
    Preserved(g, w, c, i, Propose(w.replicas[i], payload), {}, c');
  }

  // ---------------------------------------------------------------- sending

  /** The records a leader sends are a slice of its log. */
  lemma SentSlice(h: History, i: ReplicaId, r: State, next: int)
    requires LogRel(h, i, r) && r.log.snapIndex < next <= |h.log[i]| + 1
    ensures var es := L.EntriesFrom(r.log, next, MAX_ENTRIES_PER_MESSAGE);
            && L.IsSlice(es, h.log[i], next - 1)
            && (es == [] ==> next == |h.log[i]| + 1)
  {
    ViewEnds(h, i, r);
  }

  lemma SendAppend(g: Group, h: History, i: ReplicaId, r: State, p: ReplicaId)
    requires LogRel(h, i, r) && LeaderRel(g, h, i, r) && p in g.replicas && p != i
    requires r.log.snapIndex < NextIndex(r, p) && 1 <= NextIndex(r, p)
    ensures var next := NextIndex(r, p);
            AppendRel(h, AppendEntries(i, p, r.term, next - 1, L.TermAt(r.log, next - 1),
                                       L.EntriesFrom(r.log, next, MAX_ENTRIES_PER_MESSAGE), r.commit, 0))
  {
    var next := NextIndex(r, p);
    assert PeerRel(h, r.term, p, next, MatchIndex(r, p));
    SentSlice(h, i, r, next);
    ViewTerm(h, i, r, next - 1);
  }

  lemma SendSnapshot(g: Group, h: History, i: ReplicaId, r: State, p: ReplicaId)
    requires LogRel(h, i, r) && LeaderRel(g, h, i, r) && p in g.replicas && p != i
    requires 1 <= NextIndex(r, p) <= r.log.snapIndex
    ensures SnapshotRel(h, InstallSnapshot(i, p, r.term, r.log.snapIndex, r.log.snapTerm, r.snapshot))
  {
    CommittedShorter(h, r.term, h.log[i], r.commit, r.log.snapIndex);
  }

  lemma ReplicateCases(r: State, p: ReplicaId)
    requires r.role.Leader? && 1 <= NextIndex(r, p)
    ensures var o := Replicate(r, p);
            var next := NextIndex(r, p);
            && o.state == r.(inflight := o.state.inflight)
            && if next <= r.log.snapIndex
               then o.sent <= {InstallSnapshot(r.id, p, r.term, r.log.snapIndex, r.log.snapTerm, r.snapshot)}
               else o.sent == {AppendEntries(r.id, p, r.term, next - 1, L.TermAt(r.log, next - 1),
                                             L.EntriesFrom(r.log, next, MAX_ENTRIES_PER_MESSAGE), r.commit, 0)}
  {
  }

  lemma SentIsOk(g: Group, c: Chronicle, i: ReplicaId, r: State, p: ReplicaId)
    requires LogRel(c.h, i, r) && LeaderRel(g, c.h, i, r) && r.role.Leader? && r.id == i && 1 <= NextIndex(r, p)
    requires i in g.replicas && p in g.replicas && p != i && Slot(p, r.term) in c.probed
    ensures SentOk(g, c, Replicate(r, p).sent)
    ensures Replicate(r, p).state == r.(inflight := Replicate(r, p).state.inflight)
  {
    assert PeerRel(c.h, r.term, p, NextIndex(r, p), MatchIndex(r, p));
    ReplicateCases(r, p);
    if NextIndex(r, p) <= r.log.snapIndex {
      SendSnapshot(g, c.h, i, r, p);
    } else {
      SendAppend(g, c.h, i, r, p);
    }
  }

  /** A peer that joined after the election is first probed from the end of the leader's log. */
  function Started(r: State, p: ReplicaId): State {
    if NextIndex(r, p) == 0 then r.(next := r.next[p := L.LastIndex(r.log) + 1]) else r
  }

  lemma StartedSame(r: State, p: ReplicaId)
    requires r.role.Leader? && 0 <= L.LastIndex(r.log)
    ensures Started(r, p).role.Leader? && Replicate(Started(r, p), p) == Replicate(r, p)
  {
  }

  lemma StartedLeads(g: Group, h: History, i: ReplicaId, r: State, p: ReplicaId)
    requires Inv(g, h) && LogRel(h, i, r) && LeaderRel(g, h, i, r) && p in g.replicas && p != i
    ensures LeaderRel(g, h, i, Started(r, p)) && 1 <= NextIndex(Started(r, p), p)
  {
    assert PeerRel(h, r.term, p, NextIndex(r, p), MatchIndex(r, p));
    if NextIndex(r, p) == 0 {
      ViewEnds(h, i, r);
      assert LedAt(h, r.term);
      ProbeAtStart(g, h, r.term, p, |h.led[r.term]|);
    }
    OnePeerChanged(g, h, i, r, Started(r, p), p);
  }

  /** What one send leaves behind, with the state it found prepared for the peer. */
  lemma SentRel(g: Group, c: Chronicle, c': Chronicle, i: ReplicaId, q: State, r: State, r': State, p: ReplicaId)
    requires ReplicaRel(g, c, i, q) && q.role.Leader? && LeaderRel(g, c.h, i, r)
    requires r == q.(next := r.next) && 1 <= NextIndex(r, p) && (forall v :: NextIndex(q, v) <= NextIndex(r, v))
    requires r' == r.(inflight := r'.inflight) && c' == c.(probed := c.probed + {Slot(p, r.term)})
    ensures ReplicaRel(g, c', i, r') && Later(c, c')
  {
    assert Grows(c.h, c'.h);
    LeaderRelSame(g, c.h, i, r, r');
    ReadsRelMoves(g, c, c', i, r');
    forall s | s in c'.probed && s.term == r'.term ensures 1 <= NextIndex(r', s.who) {
      if s in c.probed { assert 1 <= NextIndex(q, s.who); }
    }
  }

  lemma SendKeeps(g: Group, w: World, c: Chronicle, i: ReplicaId, p: ReplicaId) returns (c': Chronicle)
    requires Good(g, w, c) && i in w.replicas && w.replicas[i].role.Leader? && p in g.replicas && p != i
    ensures var o := Replicate(w.replicas[i], p); Good(g, Update(w, i, o.state, o.sent), c') && Later(c, c')
  {
    assert ReplicaOk(g, w, c, i);
    var r := Started(w.replicas[i], p);
    StartedSame(w.replicas[i], p);
    StartedLeads(g, c.h, i, w.replicas[i], p);
    c' := c.(probed := c.probed + {Slot(p, r.term)});
    SentIsOk(g, c', i, r, p);
    var o := Replicate(r, p);
    SentRel(g, c, c', i, w.replicas[i], r, o.state, p);
    StillMoves(c.h, i);
    Preserved(g, w, c, i, o.state, o.sent, c');
  }

  // ---------------------------------------------------------------- accepting entries

  /** The state in which an accepted AppendEntries finds its follower. */
  ghost predicate Follows(g: Group, h: History, i: ReplicaId, r: State, m: Message) {
    && Inv(g, h) && Overlapping(g) && i in g.replicas && LogRel(h, i, r)
    && m.AppendEntries? && m.to == i && AppendRel(h, m) && m.term == r.term
  }

  /** The committed part of a follower's log is in its leader's log. */
  lemma CommittedHeld(g: Group, h: History, i: ReplicaId, r: State)
    requires Inv(g, h) && Overlapping(g) && i in g.replicas && LogRel(h, i, r) && Elected(h, r.term)
    ensures Agree(h.led[r.term], h.log[i], r.commit)
  {
    CommittedInLed(g, h, r.term, h.log[i], r.commit);
  }

  lemma LogsMatch(g: Group, h: History, i: ReplicaId, t: int)
    requires Inv(g, h) && i in g.replicas && Elected(h, t)
    ensures L.Matching(h.log[i], h.led[t]) && L.Contiguous(h.led[t], 0)
  {
    assert LedAt(h, t) && LogAt(h, i);
    var a, b := h.log[i], h.led[t];
    forall k ensures L.MatchingAt(a, b, k) {
      if 0 <= k < |a| && k < |b| && a[k].term == b[k].term { LogMatching(h, a, b, k + 1); }
    }
    forall k | 0 <= k < |b| ensures b[k].index == 1 + k {
      assert BackedAt(h, b, k);
    }
  }

  lemma TermsArePositive(g: Group, h: History, t: int, n: int)
    requires Inv(g, h) && Elected(h, t) && 1 <= n <= |h.led[t]|
    ensures TermIn(h.led[t], n) >= 1
  {
    assert LedAt(h, t);
    assert BackedAt(h, h.led[t], n - 1);
    assert LedAt(h, h.led[t][n - 1].term);
  }

  lemma SameTermAgrees(h: History, a: Log, b: Log, n: int)
    requires Backed(h, a) && Backed(h, b) && 1 <= n <= |a| && TermIn(a, n) == TermIn(b, n) && TermIn(a, n) != 0
    ensures Agree(a, b, n)
  {
    LogMatching(h, a, b, n);
  }

  /** The consistency check of the source establishes agreement up to prev. */
  lemma AgreesAtPrev(g: Group, h: History, i: ReplicaId, r: State, m: Message)
    requires Follows(g, h, i, r, m)
    requires Checks(r, m)
    ensures Agree(h.led[m.term], h.log[i], m.prev)
  {
    if m.prev > 0 {
      ViewTerm(h, i, r, m.prev);
      TermsArePositive(g, h, m.term, m.prev);
      assert LedAt(h, m.term) && LogAt(h, i);
      SameTermAgrees(h, h.led[m.term], h.log[i], m.prev);
    }
  }

  /** Following the leader keeps everything committed. */
  lemma FollowKeepsCommitted(l: Log, led: Log, n: int, commit: int)
    requires 0 <= n <= |led| && Agree(led, l, commit)
    ensures Agree(led, Follow(l, led, n), commit) && Agree(l, Follow(l, led, n), commit)
  {
  }

  /** The state in which a run of the leader's records finds its follower. */
  ghost predicate Slice(h: History, i: ReplicaId, r: State, prev: int, es: Log) {
    && Elected(h, r.term) && i in h.log
    && L.IsSlice(es, h.led[r.term], prev)
    && Agree(h.led[r.term], h.log[i], prev)
  }

  /** v' is the window of a log that has followed the leader up to record n. */
  ghost predicate Followed(h: History, i: ReplicaId, r: State, n: int, v': L.View) {
    && Elected(h, r.term) && i in h.log && 0 <= n <= |h.led[r.term]|
    && L.WellFormed(v') && L.Completes(Follow(h.log[i], h.led[r.term], n), v')
    && v'.snapIndex == r.log.snapIndex
    && Agree(h.log[i], Follow(h.log[i], h.led[r.term], n), r.commit)
  }

  lemma AcceptMerges(g: Group, h: History, i: ReplicaId, r: State, prev: int, es: Log)
    requires Inv(g, h) && Overlapping(g) && i in g.replicas && LogRel(h, i, r) && Slice(h, i, r, prev, es)
    ensures L.Merge(r.log, es).Merged? && Followed(h, i, r, prev + |es|, L.Merge(r.log, es).log)
  {
    CommittedHeld(g, h, i, r);
    LogsMatch(g, h, i, r.term);
    FollowKeepsCommitted(h.log[i], h.led[r.term], prev + |es|, r.commit);
    L.MergeFollows(r.log, h.log[i], h.led[r.term], prev, es);
  }

  /** From h to h' replica i's log has followed its leader up to record n. */
  ghost predicate Takes(h: History, h': History, i: ReplicaId, n: int) {
    && i in h.term && i in h.log && i in h'.term && i in h'.log
    && Grows(h, h') && h'.term[i] == h.term[i] && h'.vote == h.vote && h'.shunned == h.shunned && h'.led == h.led
    && h.term[i] in h.led && 0 <= n <= |h.led[h.term[i]]|
    && h'.log[i] == Follow(h.log[i], h.led[h.term[i]], n)
  }

  lemma Adopted(g: Group, h: History, i: ReplicaId, n: nat) returns (h': History)
    requires Inv(g, h) && MayAdopt(h, i, n)
    ensures Inv(g, h') && Moves(h, h', i) && Takes(h, h', i, n) && Acked(h', i, h.term[i], n)
  {
    h' := Adopt(h, i, n);
    AdoptKeeps(g, h, i, n);
    AdoptMoves(h, i, n);
  }

  /** The log part of accepting records: the history adopts them, nothing new is committed yet. */
  lemma AcceptLog(h: History, h': History, i: ReplicaId, r: State, n: nat, r': State)
    requires LogRel(h, i, r) && Followed(h, i, r, n, r'.log) && Takes(h, h', i, n)
    requires r'.term == r.term && r'.snapshot == r.snapshot && r.log.snapIndex <= r'.applied <= r'.commit <= r.commit
    ensures LogRel(h', i, r')
  {
    CommittedShorter(h, r.term, h.log[i], r.commit, r'.commit);
    CommittedGrows(h, h', r.term, h.log[i], r'.commit, r.term, h'.log[i]);
  }

  /** Clamping the leader's commit index to the end of the follower's log goes wrong if and only if the
      follower holds the whole message already and has, between its end and the clamped index, a record
      that differs from the leader's. */
  lemma ClampExactly(l: Log, led: Log, prev: int, count: int, commit: int)
    requires 0 <= prev && 0 <= count && prev + count <= |led| && 0 <= commit <= |led|
    requires Agree(led, l, prev)
    ensures var n := prev + count;
            var l' := Follow(l, led, n);
            !Agree(led, l', Min(commit, |l'|)) <==>
            Agree(led, l, n) && exists d :: n <= d < |l| && d < commit && l[d] != led[d]
  {
    var n := prev + count;
    var l' := Follow(l, led, n);
    if !Agree(led, l', Min(commit, |l'|)) {
      var d :| 0 <= d < Min(commit, |l'|) && l'[d] != led[d];
      assert l' == l && n <= d;
    }
  }

  /** A probe that does not start below the point where the logs part rules that out. */
  lemma ClampIsSafe(l: Log, led: Log, prev: int, count: int, commit: int)
    requires 0 <= prev && 0 <= count && prev + count <= |led| && 0 <= commit <= |led|
    requires Agree(led, l, prev)
    requires Agree(l, led, |l|) || !Agree(l, led, prev + 1)
    requires count == 0 ==> commit <= prev
    ensures var l' := Follow(l, led, prev + count); Agree(led, l', Min(commit, |l'|))
  {
    ClampExactly(l, led, prev, count, commit);
  }

  /** The follower is wary of a leader it has turned away. */
  ghost predicate Heeds(h: History, l: Log, m: Message)
    requires m.AppendEntries?
  {
    Slot(m.to, m.term) in h.shunned ==> Min(m.commit, |l|) <= m.prev + |m.entries|
  }

  lemma ClampIsCommitted(h: History, h': History, i: ReplicaId, m: Message)
    requires m.AppendEntries? && m.to == i && AppendRel(h, m) && Takes(h, h', i, m.prev + |m.entries|)
             && h.term[i] == m.term
    requires Agree(h.led[m.term], h.log[i], m.prev) && Heeds(h, h.log[i], m)
    ensures CommittedBy(h', m.term, h'.log[i], Min(m.commit, |h'.log[i]|))
  {
    var led := h.led[m.term];
    var k := Min(m.commit, |h'.log[i]|);
    if Slot(i, m.term) in h.shunned {
      ClampExactly(h.log[i], led, m.prev, |m.entries|, m.commit);
    } else {
      ClampIsSafe(h.log[i], led, m.prev, |m.entries|, m.commit);
    }
    CommittedShorter(h, m.term, led, m.commit, k);
    CommittedGrows(h, h', m.term, led, k, m.term, h'.log[i]);
  }

  lemma LogRelCommit(h: History, i: ReplicaId, r: State, commit: int)
    requires LogRel(h, i, r) && r.applied <= commit <= |h.log[i]| && CommittedBy(h, r.term, h.log[i], commit)
    ensures LogRel(h, i, r.(commit := commit))
  {
  }

  lemma AcceptCommit(h: History, h': History, i: ReplicaId, r: State, m: Message, r': State)
    requires LogRel(h, i, r) && m.AppendEntries? && m.to == i && m.term == r.term && AppendRel(h, m)
    requires Heeds(h, h.log[i], m)
    requires Agree(h.led[r.term], h.log[i], m.prev) && Followed(h, i, r, m.prev + |m.entries|, r'.log)
    requires Takes(h, h', i, m.prev + |m.entries|)
    requires r'.term == r.term && r'.snapshot == r.snapshot && r'.applied == r.applied
    requires r'.commit == if m.commit > r.commit then Min(m.commit, L.LastIndex(r'.log)) else r.commit
    ensures LogRel(h', i, r')
  {
    var r0 := r'.(commit := r.commit);
    AcceptLog(h, h', i, r, m.prev + |m.entries|, r0);
    if m.commit > r.commit {
      ViewEnds(h', i, r0);
      ClampIsCommitted(h, h', i, m);
      LogRelCommit(h', i, r0, r'.commit);
    }
  }

  // ---------------------------------------------------------------- AppendEntries

  /** What the handler does once the sender is a member and the replica follows in its term. */
  lemma AppendCases(r: State, m: Message)
    requires m.AppendEntries? && L.WellFormed(r.log) && m.from in r.peers && m.term == r.term && r.role.Follower?
    ensures var o := OnAppendEntries(r, m);
            var last := L.LastIndex(r.log);
            && (!Checks(r, m) ==> o == Outcome(r, {ReplyTo(r, m, false, last)}))
            && (Checks(r, m) && L.Merge(r.log, m.entries).Merged? ==>
                  && o.state ==
                     CommitFromLeader(r.(log := L.Merge(r.log, m.entries).log), m.commit).(recovering := false)
                  && o.sent == {ReplyTo(o.state, m, true, last)})
  {
  }

  lemma StepToIdempotent(r: State, t: int)
    requires r.term <= t
    ensures var r1 := StepTo(r, t);
            && StepTo(r1, t) == r1 && r1.term == t && r1.role.Follower? && r1.peers == r.peers && r1.log == r.log
            && r1.commit == r.commit && r1.applied == r.applied && r1.recovering == r.recovering && r1.id == r.id
  {
  }

  /** Stepping to the sender's term first changes nothing in what the handler does. */
  lemma AppendAfterStep(r: State, m: Message)
    requires m.AppendEntries? && L.WellFormed(r.log) && m.from in r.peers && m.term >= r.term
    ensures L.WellFormed(StepTo(r, m.term).log)
    ensures OnAppendEntries(r, m) == OnAppendEntries(StepTo(r, m.term), m)
  {
    StepToIdempotent(r, m.term);
  }

  lemma ReadReplyIsOk(g: Group, c: Chronicle, i: ReplicaId, m: Message, term: int)
    requires m.AppendEntries? && m.readSeq != 0 && MessageRel(c, m) && BegunOk(c, ReadKey(m.from, m.readSeq))
    requires i in c.h.term && c.h.term[i] <= term
    ensures MessageRel(c, ReadReply(i, m.from, m.readSeq, term))
  {
  }

  lemma NoAgreementPast(l: Log, led: Log, n: int, k: int)
    requires 1 <= n && TermIn(l, n) != TermIn(led, n)
    ensures Agree(l, led, k) ==> k < n
  {
    if n <= k <= |l| && k <= |led| { assert l[n - 1] != led[n - 1]; }
  }

  /** A rejection tells the leader how far back to probe without going below the match point. */
  lemma RejectionIsOk(g: Group, h: History, i: ReplicaId, r: State, m: Message)
    requires Follows(g, h, i, r, m) && !Checks(r, m)
    ensures RejectOk(h, m.term, i, m.prev, L.LastIndex(r.log))
  {
    var l, led := h.log[i], h.led[m.term];
    ViewEnds(h, i, r);
    CommittedHeld(g, h, i, r);
    if m.prev >= r.log.snapIndex {
      ViewTerm(h, i, r, m.prev);
      forall k | Agree(l, led, k) ensures k <= |l| && k < m.prev { NoAgreementPast(l, led, m.prev, k); }
    } else {
      assert Agree(l, led, m.prev + 1);
    }
  }

  lemma RejectKeeps(g: Group, w: World, c: Chronicle, m: Message)
    requires Good(g, w, c) && m.AppendEntries? && m in w.net && m.to in w.replicas
    requires var r := w.replicas[m.to];
             || m.readSeq != 0 || (m.term == r.term && !Checks(r, m)) || m.term < r.term
             || Slot(m.to, m.term) in c.h.shunned
    ensures var r := w.replicas[m.to]; Good(g, Update(w, m.to, r, {ReplyTo(r, m, false, L.LastIndex(r.log))}), c)
  {
    var i := m.to;
    var r := w.replicas[i];
    assert ReplicaOk(g, w, c, i) && MessageOk(g, w, c, m) && BegunOk(c, ReadKey(m.from, m.readSeq));
    if m.readSeq != 0 {
      ReadReplyIsOk(g, c, i, m, r.term);
    } else if m.term == r.term && !Checks(r, m) {
      RejectionIsOk(g, c.h, i, r, m);
    }
    StillMoves(c.h, i);
    Preserved(g, w, c, i, r, {ReplyTo(r, m, false, L.LastIndex(r.log))}, c);
  }

  lemma FollowerRel(g: Group, c: Chronicle, c': Chronicle, i: ReplicaId, r: State, r': State)
    requires ReplicaRel(g, c, i, r) && Since(c, c') && c' == c.(h := c'.h) && LogRel(c'.h, i, r')
    requires r'.role.Follower? && r'.term == r.term && r'.votedFor == r.votedFor && c'.h.vote == c.h.vote
    requires r'.id == r.id && r'.peers == r.peers && r'.voters == r.voters
    requires r'.pending == r.pending && r'.nextSeq == r.nextSeq
    ensures ReplicaRel(g, c', i, r')
  {
    ReadsRelMoves(g, c, c', i, r);
  }

  /** The outcome of an accepted message, with the merged window named. */
  ghost predicate AcceptOutcome(r: State, m: Message, v': L.View, o: Outcome)
    requires m.AppendEntries?
  {
    && o.state == r.(log := v', recovering := false,
                     commit := if m.commit > r.commit then Min(m.commit, L.LastIndex(v')) else r.commit)
    && o.sent == {ReplyTo(o.state, m, true, L.LastIndex(r.log))}
  }

  lemma AcceptedOutcome(g: Group, h: History, i: ReplicaId, r: State, m: Message) returns (v': L.View)
    requires Follows(g, h, i, r, m) && r.role.Follower? && m.from in r.peers && Checks(r, m)
    ensures AcceptOutcome(r, m, v', OnAppendEntries(r, m))
    ensures Agree(h.led[r.term], h.log[i], m.prev) && Followed(h, i, r, m.prev + |m.entries|, v')
  {
    AgreesAtPrev(g, h, i, r, m);
    AcceptMerges(g, h, i, r, m.prev, m.entries);
    AppendCases(r, m);
    v' := L.Merge(r.log, m.entries).log;
  }

  lemma AcceptedRel(g: Group, c: Chronicle, c': Chronicle, i: ReplicaId, r: State, m: Message, v': L.View, o: Outcome)
    requires ReplicaRel(g, c, i, r) && r.role.Follower? && m.AppendEntries? && Heeds(c.h, c.h.log[i], m)
    requires m.to == i && m.term == r.term && AppendRel(c.h, m) && AcceptOutcome(r, m, v', o)
    requires Agree(c.h.led[r.term], c.h.log[i], m.prev) && Followed(c.h, i, r, m.prev + |m.entries|, v')
    requires Takes(c.h, c'.h, i, m.prev + |m.entries|) && c' == c.(h := c'.h)
    ensures ReplicaRel(g, c', i, o.state)
  {
    AcceptCommit(c.h, c'.h, i, r, m, o.state);
    FollowerRel(g, c, c', i, r, o.state);
  }

  lemma AcceptedState(g: Group, c: Chronicle, i: ReplicaId, r: State, m: Message, v': L.View, o: Outcome)
    returns (c': Chronicle)
    requires Inv(g, c.h) && ReplicaRel(g, c, i, r) && r.role.Follower? && m.AppendEntries?
    requires Heeds(c.h, c.h.log[i], m) && m.to == i && m.term == r.term && AppendRel(c.h, m)
    requires AcceptOutcome(r, m, v', o)
    requires Agree(c.h.led[r.term], c.h.log[i], m.prev) && Followed(c.h, i, r, m.prev + |m.entries|, v')
    ensures Inv(g, c'.h) && Moves(c.h, c'.h, i) && c' == c.(h := c'.h) && ReplicaRel(g, c', i, o.state)
    ensures Acked(c'.h, i, m.term, m.prev + |m.entries|) && c'.h.led == c.h.led
  {
    var h' := Adopted(g, c.h, i, m.prev + |m.entries|);
    c' := c.(h := h');
    AcceptedRel(g, c, c', i, r, m, v', o);
  }

  lemma AcceptReplyIsOk(g: Group, c: Chronicle, c': Chronicle, i: ReplicaId, r: State, m: Message, last: int)
    requires Inv(g, c.h) && Inv(g, c'.h) && Moves(c.h, c'.h, i) && Since(c, c') && Addressed(g, m) && m.to == i
    requires m.AppendEntries? && MessageRel(c, m) && BegunOk(c, ReadKey(m.from, m.readSeq)) && c' == c.(h := c'.h)
    requires r.id == i && r.term == c'.h.term[i] == m.term && Acked(c'.h, i, m.term, m.prev + |m.entries|)
    ensures MessageRel(c', ReplyTo(r, m, true, last))
  {
    MessageMoves(g, c, c', i, m);
    if m.readSeq != 0 { ReadReplyIsOk(g, c', i, m, r.term); }
  }

  lemma AcceptSent(g: Group, w: World, c: Chronicle, c': Chronicle, m: Message, r: State, last: int)
    requires Good(g, w, c) && m.AppendEntries? && m in w.net && m.to in w.replicas
    requires Inv(g, c'.h) && Moves(c.h, c'.h, m.to) && c' == c.(h := c'.h)
    requires r.id == m.to && m.to in c'.h.term && r.term == c'.h.term[m.to] == m.term
    requires Acked(c'.h, m.to, m.term, m.prev + |m.entries|)
    ensures SentOk(g, c', {ReplyTo(r, m, true, last)})
  {
    assert MessageOk(g, w, c, m) && BegunOk(c, ReadKey(m.from, m.readSeq));
    AcceptReplyIsOk(g, c, c', m.to, r, m, last);
  }

  /** Adopting the records of an accepted message, with the outcome given. */
  lemma AcceptStep(g: Group, w: World, c: Chronicle, m: Message, v': L.View, o: Outcome) returns (c': Chronicle)
    requires Good(g, w, c) && m.AppendEntries? && m in w.net && m.to in w.replicas
    requires var r := w.replicas[m.to];
             && m.term == r.term && r.role.Follower? && AcceptOutcome(r, m, v', o)
             && AppendRel(c.h, m) && m.to in c.h.log && Heeds(c.h, c.h.log[m.to], m)
             && Agree(c.h.led[r.term], c.h.log[m.to], m.prev)
             && Followed(c.h, m.to, r, m.prev + |m.entries|, v')
    ensures Good(g, Update(w, m.to, o.state, o.sent), c') && Later(c, c')
  {
    var i := m.to;
    assert ReplicaOk(g, w, c, i);
    c' := AcceptedState(g, c, i, w.replicas[i], m, v', o);
    AcceptSent(g, w, c, c', m, o.state, L.LastIndex(w.replicas[i].log));
    Preserved(g, w, c, i, o.state, o.sent, c');
  }

  lemma AcceptKeeps(g: Group, w: World, c: Chronicle, m: Message) returns (c': Chronicle)
    requires Good(g, w, c) && m.AppendEntries? && m in w.net && m.to in w.replicas
    requires var r := w.replicas[m.to];
             && m.term == r.term && r.role.Follower? && m.from in r.peers && L.WellFormed(r.log) && Checks(r, m)
             && (Slot(m.to, m.term) in c.h.shunned ==> !Overreaches(r, m))
    ensures var o := OnAppendEntries(w.replicas[m.to], m);
            Good(g, Update(w, m.to, o.state, o.sent), c') && Later(c, c')
  {
    var r := w.replicas[m.to];
    assert ReplicaOk(g, w, c, m.to) && MessageOk(g, w, c, m);
    ViewEnds(c.h, m.to, r);
    var v' := AcceptedOutcome(g, c.h, m.to, r, m);
    c' := AcceptStep(g, w, c, m, v', OnAppendEntries(r, m));
  }

  /** Any AppendEntries, once the replica follows in the sender's term. */
  lemma AppendInTerm(g: Group, w: World, c: Chronicle, m: Message) returns (c': Chronicle)
    requires Good(g, w, c) && m.AppendEntries? && m in w.net && m.to in w.replicas
    requires var r := w.replicas[m.to];
             && m.term == r.term && r.role.Follower? && L.WellFormed(r.log) && m.from in r.peers
             && (Slot(m.to, m.term) in c.h.shunned && Checks(r, m) ==> !Overreaches(r, m))
    ensures var o := OnAppendEntries(w.replicas[m.to], m);
            Good(g, Update(w, m.to, o.state, o.sent), c') && Later(c, c')
  {
    var r := w.replicas[m.to];
    AppendCases(r, m);
    if Checks(r, m) {
      c' := AcceptKeeps(g, w, c, m);
    } else {
      c' := c;
      RejectKeeps(g, w, c, m);
    }
  }

  /** Moving to the sender's term, as both append and snapshot handlers do first. */
  lemma StepToKeeps(g: Group, w: World, c: Chronicle, i: ReplicaId, t: int) returns (c': Chronicle)
    requires Good(g, w, c) && i in w.replicas && w.replicas[i].term <= t
    ensures Good(g, Update(w, i, StepTo(w.replicas[i], t), {}), c') && Later(c, c')
    ensures StepTo(w.replicas[i], t).role.Follower? && StepTo(w.replicas[i], t).term == t
  {
    if t > w.replicas[i].term || !w.replicas[i].role.Follower? {
      c' := HearTermKeeps(g, w, c, i, t);
    } else {
      c' := c;
      assert Update(w, i, w.replicas[i], {}) == w;
    }
  }

  lemma AppendLater(g: Group, w: World, c: Chronicle, m: Message, o: Outcome) returns (c': Chronicle)
    requires Good(g, w, c) && m.AppendEntries? && m in w.net && m.to in w.replicas
    requires var r := w.replicas[m.to];
             && r.term <= m.term && m.from in r.peers && L.WellFormed(r.log)
             && (Slot(m.to, m.term) in c.h.shunned && Checks(r, m) ==> !Overreaches(r, m))
             && o == OnAppendEntries(StepTo(r, m.term), m)
    ensures Good(g, Update(w, m.to, o.state, o.sent), c') && Later(c, c')
  {
    var r1 := StepTo(w.replicas[m.to], m.term);
    var c1 := StepToKeeps(g, w, c, m.to, m.term);
    StepToIdempotent(w.replicas[m.to], m.term);
    var w1 := Update(w, m.to, r1, {});
    assert w1.replicas[m.to] == r1 && m in w1.net && Checks(r1, m) == Checks(w.replicas[m.to], m);
    c' := AppendInTerm(g, w1, c1, m);
    LaterLater(c, c1, c');
    UpdateTwice(w, m.to, r1, o.state, o.sent);
  }

  /** A leader that is turned away is on record, and a follower is wary of one that has been. */
  lemma AppendEntriesKeeps(g: Group, w: World, c: Chronicle, m: Message) returns (c': Chronicle)
    requires Good(g, w, c) && m.AppendEntries? && m in w.net && m.to in w.replicas && L.WellFormed(w.replicas[m.to].log)
    requires Shuns(w.replicas[m.to], m) ==> Slot(m.to, m.term) in c.h.shunned
    requires Accepts(w.replicas[m.to], m) && Slot(m.to, m.term) in c.h.shunned ==> !Overreaches(w.replicas[m.to], m)
    ensures var o := OnAppendEntries(w.replicas[m.to], m);
            Good(g, Update(w, m.to, o.state, o.sent), c') && Later(c, c')
  {
    var r := w.replicas[m.to];
    if m.from !in r.peers || m.term < r.term {
      c' := c;
      RejectKeeps(g, w, c, m);
    } else {
      AppendAfterStep(r, m);
      c' := AppendLater(g, w, c, m, OnAppendEntries(r, m));
    }
  }

  // ---------------------------------------------------------------- replies to AppendEntries

  lemma ProbeHigher(h: History, t: int, f: ReplicaId, p: int, q: int)
    requires ProbeOk(h, t, f, p) && 0 <= p <= q
    ensures ProbeOk(h, t, f, q)
  {
  }

  /** A rejected probe moves next_index back, but never below the point where the logs part. */
  lemma BackOffIsSafe(h: History, t: int, f: ReplicaId, prev: int, last: int, next: int)
    requires Elected(h, t) && RejectOk(h, t, f, prev, last) && 0 <= prev <= |h.led[t]|
    requires var jump := Min(last, |h.led[t]|) + 1; next == if jump >= prev + 1 && prev > 0 then prev else jump
    ensures ProbeOk(h, t, f, next - 1)
  {
    if f in h.log && f in h.term && Slot(f, t) !in h.shunned && h.term[f] == t && !IsPrefix(h.log[f], h.led[t]) {
      var l, led := h.log[f], h.led[t];
      assert forall k :: Agree(l, led, k) ==> k <= last && k < prev;
      assert !Agree(l, led, next);
    }
  }

  lemma BackOffRel(h: History, t: int, f: ReplicaId, prev: int, last: int, matched: int, next: int)
    requires Elected(h, t) && PeerRel(h, t, f, prev + 1, matched) && 0 <= prev && 0 <= last
    requires RejectOk(h, t, f, prev, last)
    requires var jump := Min(last, |h.led[t]|) + 1;
             next == Max(if jump >= prev + 1 && prev > 0 then prev else jump, matched + 1)
    ensures PeerRel(h, t, f, next, matched)
  {
    var jump := Min(last, |h.led[t]|) + 1;
    var lower := if jump >= prev + 1 && prev > 0 then prev else jump;
    BackOffIsSafe(h, t, f, prev, last, lower);
    ProbeHigher(h, t, f, lower - 1, next - 1);
  }

  lemma BackOffPeer(g: Group, h: History, i: ReplicaId, r: State, m: Message)
    requires LogRel(h, i, r) && LeaderRel(g, h, i, r) && m.AppendReply? && AppendReplyRel(h, m) && m.sentTerm == r.term
    requires !m.success && m.term <= r.term && m.from in g.replicas && m.from != i && m.prev + 1 == NextIndex(r, m.from)
    ensures var r' := BackOff(r, m.from, m.lastIndex);
            PeerRel(h, r.term, m.from, NextIndex(r', m.from), MatchIndex(r', m.from))
  {
    ViewEnds(h, i, r);
    assert PeerRel(h, r.term, m.from, NextIndex(r, m.from), MatchIndex(r, m.from));
    var r' := BackOff(r, m.from, m.lastIndex);
    BackOffRel(h, r.term, m.from, m.prev, m.lastIndex, MatchIndex(r, m.from), NextIndex(r', m.from));
  }

  lemma AdvancePeer(g: Group, h: History, i: ReplicaId, r: State, m: Message)
    requires LeaderRel(g, h, i, r) && m.AppendReply? && AppendReplyRel(h, m) && m.sentTerm == r.term
    requires m.success && m.from in g.replicas && m.from != i && m.prev + 1 == NextIndex(r, m.from)
    ensures var r' := Advance(r, m.from, m.prev + m.count);
            PeerRel(h, r.term, m.from, NextIndex(r', m.from), MatchIndex(r', m.from))
  {
    assert PeerRel(h, r.term, m.from, NextIndex(r, m.from), MatchIndex(r, m.from));
    var r' := Advance(r, m.from, m.prev + m.count);
    ProbeHigher(h, r.term, m.from, m.prev, MatchIndex(r', m.from));
  }

  /** Changing what a leader knows about one peer. */
  lemma OnePeerChanged(g: Group, h: History, i: ReplicaId, r: State, r': State, p: ReplicaId)
    requires LeaderRel(g, h, i, r) && r'.term == r.term && r'.commit == r.commit && r'.voters == r.voters
    requires forall q :: q in g.replicas && q != p ==>
               NextIndex(r', q) == NextIndex(r, q) && MatchIndex(r', q) == MatchIndex(r, q)
    requires p in g.replicas && p != i ==> PeerRel(h, r.term, p, NextIndex(r', p), MatchIndex(r', p))
    ensures LeaderRel(g, h, i, r')
  {
    forall q | q in g.replicas && q != i ensures PeerRel(h, r'.term, q, NextIndex(r', q), MatchIndex(r', q)) {
      if q != p { assert PeerRel(h, r.term, q, NextIndex(r, q), MatchIndex(r, q)); }
    }
  }

  lemma ReplyCases(r: State, m: Message)
    requires m.AppendReply? && r.role.Leader? && !r.recovering && m.term <= r.term
    ensures OnAppendReply(r, m) ==
            if m.sentTerm != r.term || m.prev + 1 != NextIndex(r, m.from) then r
            else if m.success then Advance(r, m.from, m.prev + m.count)
            else BackOff(r, m.from, m.lastIndex)
  {
  }

  lemma ReplyLeads(g: Group, h: History, i: ReplicaId, r: State, m: Message)
    requires LogRel(h, i, r) && LeaderRel(g, h, i, r) && r.role.Leader? && !r.recovering
    requires m.AppendReply? && AppendReplyRel(h, m) && m.from in g.replicas && m.term <= r.term
    ensures LeaderRel(g, h, i, OnAppendReply(r, m))
  {
    ReplyCases(r, m);
    if m.sentTerm == r.term && m.prev + 1 == NextIndex(r, m.from) {
      if m.success {
        if m.from != i { AdvancePeer(g, h, i, r, m); }
        OnePeerChanged(g, h, i, r, Advance(r, m.from, m.prev + m.count), m.from);
      } else {
        if m.from != i { BackOffPeer(g, h, i, r, m); }
        OnePeerChanged(g, h, i, r, BackOff(r, m.from, m.lastIndex), m.from);
      }
    }
  }

  lemma ReplyRel(g: Group, c: Chronicle, i: ReplicaId, r: State, m: Message)
    requires ReplicaRel(g, c, i, r) && m.AppendReply? && AppendReplyRel(c.h, m) && m.from in g.replicas
    requires r.recovering || m.term <= r.term
    ensures ReplicaRel(g, c, i, OnAppendReply(r, m))
  {
    if r.role.Leader? && !r.recovering {
      ReplyLeads(g, c.h, i, r, m);
      ReplyCases(r, m);
    }
  }

  lemma AppendReplyKeeps(g: Group, w: World, c: Chronicle, m: Message) returns (c': Chronicle)
    requires Good(g, w, c) && m.AppendReply? && m in w.net && m.to in w.replicas
    ensures Good(g, Update(w, m.to, OnAppendReply(w.replicas[m.to], m), {}), c') && Later(c, c')
  {
    var r := w.replicas[m.to];
    if !r.recovering && m.term > r.term {
      c' := HearTermKeeps(g, w, c, m.to, m.term);
    } else {
      c' := c;
      assert ReplicaOk(g, w, c, m.to) && MessageOk(g, w, c, m);
      ReplyRel(g, c, m.to, r, m);
      LocalStep(g, w, c, m.to, OnAppendReply(r, m));
    }
  }

  // ---------------------------------------------------------------- committing

  lemma {:induction false} CommitRuleFinds(r: State, n: int)
    requires r.commit <= n
    ensures r.commit <= CommitRule(r, n) <= n
    ensures CommitRule(r, n) > r.commit ==> Committable(r, CommitRule(r, n))
    decreases n - r.commit
  {
    if n > r.commit && !Committable(r, n) { CommitRuleFinds(r, n - 1); }
  }

  /** A quorum of holders, the leader among them, has acknowledged the entry. */
  lemma HoldersChose(g: Group, h: History, i: ReplicaId, r: State, n: int)
    requires Inv(g, h) && i in g.replicas && LogRel(h, i, r) && LeaderRel(g, h, i, r) && r.id == i
    requires r.voters in g.configs && r.voters <= g.replicas && r.commit < n <= |h.log[i]| && Committable(r, n)
    ensures Own(h, r.term, n) && Chosen(g, h, r.term, n)
  {
    ViewTerm(h, i, r, n);
    assert LedAt(h, r.term);
    assert h.led[r.term][n - 1].term == r.term;
    var q := Holders(r, n);
    assert r.voters * q == q;
    assert IsMajority(r.voters, q);
    forall v | v in q ensures Acked(h, v, r.term, n) {
      if v != i { assert PeerRel(h, r.term, v, NextIndex(r, v), MatchIndex(r, v)); }
    }
    assert AllAcked(h, q, r.term, n);
  }

  lemma Committed(g: Group, c: Chronicle, i: ReplicaId, r: State, n: int) returns (c': Chronicle)
    requires Inv(g, c.h) && i in g.replicas && ReplicaRel(g, c, i, r) && r.role.Leader?
    requires r.commit < n <= |c.h.log[i]| && Committable(r, n)
    ensures Inv(g, c'.h) && Moves(c.h, c'.h, i) && c' == c.(h := c'.h) && ReplicaRel(g, c', i, r.(commit := n))
    ensures c'.h.led == c.h.led
  {
    HoldersChose(g, c.h, i, r, n);
    var h' := Settle(c.h, r.term, n);
    c' := c.(h := h');
    SettleKeeps(g, c.h, r.term, n);
    SettleMoves(c.h, r.term, n);
    var r' := r.(commit := n);
    SettledRel(g, c.h, h', i, r, n);
    ReadsRelMoves(g, c, c', i, r');
  }

  lemma SettledRel(g: Group, h: History, h': History, i: ReplicaId, r: State, n: int)
    requires Inv(g, h) && Inv(g, h') && Moves(h, h', i) && LogRel(h, i, r) && LeaderRel(g, h, i, r)
    requires r.commit < n <= |h.log[i]| && h' == Settle(h, r.term, n)
    ensures LogRel(h', i, r.(commit := n)) && LeaderRel(g, h', i, r.(commit := n))
  {
    var r' := r.(commit := n);
    assert CommittedIn(h', r.term, h'.log[i], n);
    PeersRelMoves(g, h, h', i, i, r);
    assert PeersRel(g, h', i, r') by { LeaderPeersSame(g, h', i, r, r'); }
  }

  lemma LeaderPeersSame(g: Group, h: History, i: ReplicaId, r: State, r': State)
    requires r.term in h.led && PeersRel(g, h, i, r) && r'.term == r.term && r'.next == r.next
             && r'.matched == r.matched
    ensures PeersRel(g, h, i, r')
  {
    forall p | p in g.replicas && p != i ensures PeerRel(h, r'.term, p, NextIndex(r', p), MatchIndex(r', p)) {
      assert PeerRel(h, r.term, p, NextIndex(r, p), MatchIndex(r, p));
    }
  }

  lemma CommitStep(g: Group, w: World, c: Chronicle, i: ReplicaId, n: int) returns (c': Chronicle)
    requires Good(g, w, c) && i in w.replicas && w.replicas[i].role.Leader?
    requires w.replicas[i].commit < n <= L.LastIndex(w.replicas[i].log) && Committable(w.replicas[i], n)
    ensures Good(g, Update(w, i, w.replicas[i].(commit := n), {}), c') && Later(c, c')
  {
    assert ReplicaOk(g, w, c, i);
    ViewEnds(c.h, i, w.replicas[i]);
    c' := Committed(g, c, i, w.replicas[i], n);
    Preserved(g, w, c, i, w.replicas[i].(commit := n), {}, c');
  }

  lemma CommitKeeps(g: Group, w: World, c: Chronicle, i: ReplicaId) returns (c': Chronicle)
    requires Good(g, w, c) && i in w.replicas && w.replicas[i].role.Leader?
    requires w.replicas[i].commit <= L.LastIndex(w.replicas[i].log)
    ensures Good(g, Update(w, i, AdvanceCommit(w.replicas[i]), {}), c') && Later(c, c')
  {
    var r := w.replicas[i];
    CommitRuleFinds(r, L.LastIndex(r.log));
    var n := CommitRule(r, L.LastIndex(r.log));
    if n > r.commit {
      c' := CommitStep(g, w, c, i, n);
    } else {
      c' := c;
      assert AdvanceCommit(r) == r && Update(w, i, r, {}) == w;
    }
  }

  // ---------------------------------------------------------------- a crash while appending

  ghost function Torn(m: Message, kept: nat): Message
    requires m.AppendEntries? && kept <= |m.entries|
  {
    m.(entries := m.entries[..kept])
  }

  lemma RestartRel(g: Group, c: Chronicle, c': Chronicle, i: ReplicaId, r: State, r': State)
    requires ReplicaRel(g, c, i, r) && Since(c, c') && c' == c.(h := c'.h) && LogRel(c'.h, i, r')
    requires r'.role.Follower? && r'.term == r.term && r'.votedFor == r.votedFor && c'.h.vote == c.h.vote
    requires r'.id == r.id && MemberList(g, r'.peers, r'.voters)
    requires r'.pending == map[] && r'.nextSeq == r.nextSeq
    ensures ReplicaRel(g, c', i, r')
  {
  }

  lemma TornCase(r: State, m: Message, peers: set<ReplicaId>, voters: set<ReplicaId>, rec: bool)
    requires m.AppendEntries? && L.WellFormed(r.log) && m.from in r.peers && m.term == r.term && r.role.Follower?
    requires Checks(r, m) && L.Merge(r.log, m.entries).Merged?
             && L.Merge(r.log, m.entries).log.snapIndex == r.log.snapIndex
    ensures Restart(OnAppendEntries(r, m).state, peers, voters, rec)
            == Restart(r.(log := L.Merge(r.log, m.entries).log), peers, voters, rec)
  {
    AppendCases(r, m);
  }

  /** The window on disk after the crash, and the state the replica restarts in. */
  lemma TornOutcome(g: Group, h: History, i: ReplicaId, r: State, m: Message, kept: nat,
                    peers: set<ReplicaId>, voters: set<ReplicaId>, rec: bool)
    returns (v': L.View)
    requires Follows(g, h, i, r, m) && r.role.Follower? && m.from in r.peers && Checks(r, m) && kept <= |m.entries|
    ensures Followed(h, i, r, m.prev + kept, v')
    ensures Restart(OnAppendEntries(r, Torn(m, kept)).state, peers, voters, rec)
            == Restart(r.(log := v'), peers, voters, rec)
  {
    AgreesAtPrev(g, h, i, r, m);
    var es := m.entries[..kept];
    assert Slice(h, i, r, m.prev, es);
    AcceptMerges(g, h, i, r, m.prev, es);
    v' := L.Merge(r.log, es).log;
    TornCase(r, Torn(m, kept), peers, voters, rec);
  }

  lemma TornState(g: Group, c: Chronicle, i: ReplicaId, r: State, n: nat, v': L.View,
                  peers: set<ReplicaId>, voters: set<ReplicaId>, rec: bool)
    returns (c': Chronicle)
    requires Inv(g, c.h) && ReplicaRel(g, c, i, r) && Followed(c.h, i, r, n, v')
    requires MemberList(g, peers, voters)
    ensures Inv(g, c'.h) && Moves(c.h, c'.h, i) && c' == c.(h := c'.h) && c'.h.led == c.h.led
    ensures ReplicaRel(g, c', i, Restart(r.(log := v'), peers, voters, rec))
  {
    var r' := Restart(r.(log := v'), peers, voters, rec);
    var h' := Adopted(g, c.h, i, n);
    AcceptLog(c.h, h', i, r, n, r');
    c' := c.(h := h');
    RestartRel(g, c, c', i, r, r');
  }

  lemma TornInTerm(g: Group, w: World, c: Chronicle, m: Message, kept: nat,
                   peers: set<ReplicaId>, voters: set<ReplicaId>, rec: bool, r': State)
    returns (c': Chronicle)
    requires Good(g, w, c) && m.AppendEntries? && m in w.net && m.to in w.replicas && kept <= |m.entries|
    requires MemberList(g, peers, voters)
    requires var r := w.replicas[m.to];
             && m.term == r.term && r.role.Follower? && m.from in r.peers && L.WellFormed(r.log) && Checks(r, m)
             && r' == Restart(OnAppendEntries(r, Torn(m, kept)).state, peers, voters, rec)
    ensures Good(g, Update(w, m.to, r', {}), c') && Later(c, c')
  {
    var i := m.to;
    assert ReplicaOk(g, w, c, i) && MessageOk(g, w, c, m);
    var v' := TornOutcome(g, c.h, i, w.replicas[i], m, kept, peers, voters, rec);
    c' := TornState(g, c, i, w.replicas[i], m.prev + kept, v', peers, voters, rec);
    Preserved(g, w, c, i, r', {}, c');
  }

  lemma StepToChecks(r: State, m: Message)
    requires Accepts(r, m)
    ensures var r1 := StepTo(r, m.term);
            && r1.log == r.log && r1.peers == r.peers && r1.term == m.term && r1.role.Follower?
            && Checks(r1, m)
  {
    StepToIdempotent(r, m.term);
  }

  lemma TornLater(g: Group, w: World, c: Chronicle, m: Message, kept: nat,
                  peers: set<ReplicaId>, voters: set<ReplicaId>, rec: bool, r': State)
    returns (c': Chronicle)
    requires Good(g, w, c) && m in w.net && m.to in w.replicas && MemberList(g, peers, voters)
    requires Accepts(w.replicas[m.to], m) && kept <= |m.entries| && L.WellFormed(w.replicas[m.to].log)
    requires r' == Restart(OnAppendEntries(StepTo(w.replicas[m.to], m.term), Torn(m, kept)).state, peers, voters, rec)
    ensures Good(g, Update(w, m.to, r', {}), c') && Later(c, c')
  {
    var r1 := StepTo(w.replicas[m.to], m.term);
    var c1 := StepToKeeps(g, w, c, m.to, m.term);
    StepToChecks(w.replicas[m.to], m);
    var w1 := Update(w, m.to, r1, {});
    assert w1.replicas[m.to] == r1 && m in w1.net;
    c' := TornInTerm(g, w1, c1, m, kept, peers, voters, rec, r');
    LaterLater(c, c1, c');
    UpdateTwice(w, m.to, r1, r', {});
  }

  lemma TornAppendKeeps(g: Group, w: World, c: Chronicle, m: Message, kept: nat,
                        peers: set<ReplicaId>, voters: set<ReplicaId>, rec: bool)
    returns (c': Chronicle)
    requires Good(g, w, c) && m in w.net && m.to in w.replicas && MemberList(g, peers, voters)
    requires Accepts(w.replicas[m.to], m) && kept <= |m.entries| && L.WellFormed(w.replicas[m.to].log)
    ensures var torn := OnAppendEntries(w.replicas[m.to], Torn(m, kept)).state;
            Good(g, Update(w, m.to, Restart(torn, peers, voters, rec), {}), c') && Later(c, c')
  {
    var r := w.replicas[m.to];
    AppendAfterStep(r, Torn(m, kept));
    c' := TornLater(g, w, c, m, kept, peers, voters, rec,
                    Restart(OnAppendEntries(r, Torn(m, kept)).state, peers, voters, rec));
  }
}
