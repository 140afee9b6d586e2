/** The invariant that ties a world to a history of it, and why it survives changes elsewhere. */
module ClusterInvariant {
  import opened Types
  import opened Replica
  import opened Consensus
  import opened Cluster
  import L = RaftLog

  datatype ReadKey = ReadKey(who: ReplicaId, seqNo: int)

  /** What the group looked like when a read began. */
  datatype ReadStart = ReadStart(term: map<ReplicaId, int>, commit: map<int, nat>)

  /** A history, the reads begun, and the peers to which the leader of each term has sent anything. */
  datatype Chronicle = Chronicle(h: History, begun: map<ReadKey, ReadStart>, probed: set<Slot>)

  ghost predicate IsPrefix(a: Log, b: Log) { Agree(a, b, |a|) }

  // ---------------------------------------------------------------- probing a follower

  /** A message that asks follower f of term t's leader to match at index p never lies below the
      point where their logs part: either f is still in an earlier term and p is at or above the
      leader's starting log, or f's log is a prefix of the leader's, or they differ just after p.
      Nothing is known once f has turned the leader away as a stranger. */
  ghost predicate ProbeOk(h: History, t: int, f: ReplicaId, p: int) {
    Elected(h, t) && f in h.term && f in h.log && Slot(f, t) !in h.shunned ==>
      && (h.term[f] < t ==> h.won[t].start <= p)
      && (h.term[f] == t ==> IsPrefix(h.log[f], h.led[t]) || !Agree(h.log[f], h.led[t], p + 1))
  }

  /** A rejected probe at index p by a follower whose log ended at `last`. */
  ghost predicate RejectOk(h: History, t: int, f: ReplicaId, p: int, last: int) {
    Elected(h, t) && f in h.term && f in h.log && Slot(f, t) !in h.shunned ==>
      && 1 <= p && t <= h.term[f]
      && (h.term[f] == t ==>
            IsPrefix(h.log[f], h.led[t]) || (forall k :: Agree(h.log[f], h.led[t], k) ==> k <= last && k < p))
  }

  // ---------------------------------------------------------------- one replica

  ghost predicate LogRel(h: History, i: ReplicaId, r: State) {
    && i in h.term && i in h.log
    && r.term == h.term[i]
    && |r.snapshot| == r.log.snapIndex && Agree(r.snapshot, h.log[i], r.log.snapIndex)
    && L.Completes(h.log[i], r.log) && L.WellFormed(r.log)
    && r.log.snapIndex <= r.applied <= r.commit <= |h.log[i]|
    && CommittedBy(h, r.term, h.log[i], r.commit)
  }

  ghost predicate VoteRel(h: History, i: ReplicaId, r: State) {
    r.votedFor == if Slot(i, r.term) in h.vote then Some(h.vote[Slot(i, r.term)]) else None
  }

  ghost predicate CandidateRel(h: History, i: ReplicaId, r: State) {
    && r.term >= 1 && i in h.log
    && Slot(i, r.term) in h.bid && h.bid[Slot(i, r.term)] == h.log[i]
    && r.granted <= r.voters
    && (forall v :: v in r.granted ==> VotedFor(h, v, r.term, i))
    && !(Elected(h, r.term) && h.won[r.term].leader == i)
  }

  /** A next index of zero belongs to a peer that joined later and has not been sent anything. */
  ghost predicate PeerRel(h: History, t: int, p: ReplicaId, next: int, matched: int)
    requires t in h.led
  {
    if next == 0 then matched == 0 else
    && 0 <= matched < next <= |h.led[t]| + 1
    && (matched == 0 || Acked(h, p, t, matched))
    && ProbeOk(h, t, p, next - 1)
  }

  ghost predicate PeersRel(g: Group, h: History, i: ReplicaId, r: State)
    requires r.term in h.led
  {
    forall p :: p in g.replicas && p != i ==> PeerRel(h, r.term, p, NextIndex(r, p), MatchIndex(r, p))
  }

  ghost predicate LeaderRel(g: Group, h: History, i: ReplicaId, r: State) {
    && Elected(h, r.term) && h.won[r.term].leader == i
    && i in h.log && h.log[i] == h.led[r.term] && Acked(h, i, r.term, |h.log[i]|)
    && i in r.voters
    && (r.term in h.commit ==> h.commit[r.term] <= r.commit)
    && PeersRel(g, h, i, r)
  }

  ghost predicate ProbedRel(c: Chronicle, r: State) {
    forall s :: s in c.probed && s.term == r.term ==> 1 <= NextIndex(r, s.who)
  }

  ghost predicate ReadRel(g: Group, c: Chronicle, i: ReplicaId, seqNo: int, read: PendingRead) {
    && ReadKey(i, seqNo) in c.begun
    && var b := c.begun[ReadKey(i, seqNo)];
       && 0 <= read.index && read.voters in g.configs && read.confirmed <= read.voters
       && (forall v :: v in read.confirmed ==> v in b.term && b.term[v] <= read.term)
       && (forall t :: t in b.commit ==> SeenBefore(c.h, b, read, t))
  }

  /** A commit known anywhere when the read began is covered by its index, or came from a later
      term whose electors had already left the reader's term. */
  ghost predicate SeenBefore(h: History, b: ReadStart, read: PendingRead, t: int)
    requires t in b.commit
  {
    if t <= read.term then b.commit[t] <= read.index
    else Elected(h, t) && forall v :: v in h.won[t].voters ==> v in b.term && t <= b.term[v]
  }

  ghost predicate ReadsRel(g: Group, c: Chronicle, i: ReplicaId, r: State) {
    && 1 <= r.nextSeq
    && (forall s :: s in r.pending ==> ReadRel(g, c, i, s, r.pending[s]))
    && (forall k :: k in c.begun && k.who == i ==> k.seqNo < r.nextSeq)
  }

  ghost predicate ReplicaRel(g: Group, c: Chronicle, i: ReplicaId, r: State) {
    && r.id == i && MemberList(g, r.peers, r.voters)
    && LogRel(c.h, i, r)
    && VoteRel(c.h, i, r)
    && (r.role.Candidate? ==> CandidateRel(c.h, i, r))
    && (r.role.Leader? ==> LeaderRel(g, c.h, i, r) && ProbedRel(c, r))
    && ReadsRel(g, c, i, r)
  }

  // ---------------------------------------------------------------- one message

  ghost predicate RequestVoteRel(h: History, m: Message)
    requires m.RequestVote?
  {
    && Slot(m.from, m.term) in h.bid
    && var b := h.bid[Slot(m.from, m.term)]; m.lastIndex == |b| && m.lastTerm == LastTerm(b)
  }

  ghost predicate AppendRel(h: History, m: Message)
    requires m.AppendEntries?
  {
    && m.from != m.to
    && Elected(h, m.term) && h.won[m.term].leader == m.from
    && var led := h.led[m.term];
       && L.IsSlice(m.entries, led, m.prev)
       && m.prevTerm == TermIn(led, m.prev)
       && 0 <= m.commit <= |led| && CommittedBy(h, m.term, led, m.commit)
       && (m.entries == [] ==> m.commit <= m.prev)
       && ProbeOk(h, m.term, m.to, m.prev)
  }

  ghost predicate AppendReplyRel(h: History, m: Message)
    requires m.AppendReply?
  {
    && Elected(h, m.sentTerm) && 0 <= m.prev && m.prev + m.count <= |h.led[m.sentTerm]|
    && if m.success then Acked(h, m.from, m.sentTerm, m.prev + m.count)
       else m.term <= m.sentTerm ==> 0 <= m.lastIndex && RejectOk(h, m.sentTerm, m.from, m.prev, m.lastIndex)
  }

  ghost predicate ReadReplyRel(c: Chronicle, m: Message)
    requires m.ReadReply?
  {
    && ReadKey(m.to, m.seqNo) in c.begun
    && var b := c.begun[ReadKey(m.to, m.seqNo)]; m.from in b.term && b.term[m.from] <= m.term
  }

  ghost predicate SnapshotRel(h: History, m: Message)
    requires m.InstallSnapshot?
  {
    && m.from != m.to
    && Elected(h, m.term) && h.won[m.term].leader == m.from
    && var led := h.led[m.term];
       && 1 <= m.index == |m.contents| && Agree(m.contents, led, m.index) && m.snapTerm == TermIn(led, m.index)
       && CommittedBy(h, m.term, led, m.index)
  }

  ghost predicate SnapshotReplyRel(h: History, m: Message)
    requires m.SnapshotReply?
  {
    m.ok ==> Elected(h, m.sentTerm) && 1 <= m.sentIndex && Acked(h, m.from, m.sentTerm, Max(m.watermark, m.sentIndex))
  }

  ghost predicate MessageRel(c: Chronicle, m: Message) {
    match m
    case RequestVote(_, _, _, _, _) => RequestVoteRel(c.h, m)
    case VoteReply(v, to, t, granted) => granted ==> VotedFor(c.h, v, t, to)
    case AppendEntries(_, _, _, _, _, _, _, _) =>
      AppendRel(c.h, m) && (m.readSeq != 0 ==> ReadKey(m.from, m.readSeq) in c.begun)
    case AppendReply(_, _, _, _, _, _, _, _) => AppendReplyRel(c.h, m)
    case ReadReply(_, _, _, _) => ReadReplyRel(c, m)
    case InstallSnapshot(_, _, _, _, _, _) => SnapshotRel(c.h, m) && Slot(m.to, m.term) in c.probed
    case SnapshotReply(_, _, _, _, _, _, _) =>
      SnapshotReplyRel(c.h, m) && (m.ok ==> Slot(m.from, m.sentTerm) in c.probed)
  }

  ghost predicate ReplicaOk(g: Group, w: World, c: Chronicle, i: ReplicaId) {
    i in w.replicas ==> ReplicaRel(g, c, i, w.replicas[i])
  }

  ghost predicate Addressed(g: Group, m: Message) { m.from in g.replicas && m.to in g.replicas }

  ghost predicate MessageOk(g: Group, w: World, c: Chronicle, m: Message) {
    m in w.net ==> Addressed(g, m) && MessageRel(c, m)
  }

  /** Terms recorded when a read began never exceed the terms now. */
  ghost predicate BegunOk(c: Chronicle, k: ReadKey) {
    k in c.begun ==> forall v :: v in c.h.term ==> v in c.begun[k].term && c.begun[k].term[v] <= c.h.term[v]
  }

  ghost predicate Good(g: Group, w: World, c: Chronicle) {
    && Overlapping(g)
    && w.replicas.Keys == g.replicas
    && Inv(g, c.h)
    && (forall i :: ReplicaOk(g, w, c, i))
    && (forall m :: MessageOk(g, w, c, m))
    && (forall k :: BegunOk(c, k))
    && (forall s :: s in c.probed ==> Elected(c.h, s.term))
  }

  // ---------------------------------------------------------------- what one replica's action changes

  /** Only replica i acts between h and h'. */
  ghost predicate OnlyBy(h: History, h': History, i: ReplicaId) {
    && h'.log.Keys == h.log.Keys
    && (forall j :: j in h.term && j in h'.term && j != i ==> h'.term[j] == h.term[j])
    && (forall j :: j in h.log && j in h'.log && j != i ==> h'.log[j] == h.log[j])
    && (forall s :: s in h'.vote && s.who != i ==> s in h.vote)
    && (forall t :: t in h'.won && t !in h.won ==> h'.won[t].leader == i)
    && (forall t :: t in h.led && t in h'.led && t in h'.won && h'.won[t].leader != i ==> h'.led[t] == h.led[t])
    && (forall t :: t in h'.commit && t in h'.won && h'.won[t].leader != i ==>
          t in h.commit && h'.commit[t] == h.commit[t])
  }

  /** Replica i's log is the same, or has become a prefix of the log of its current leader. */
  ghost predicate LogStep(h: History, h': History, i: ReplicaId) {
    i in h.log && i in h'.log && i in h'.term ==>
      h'.log[i] == h.log[i] || (Elected(h', h'.term[i]) && IsPrefix(h'.log[i], h'.led[h'.term[i]]))
  }

  /** Replica i acts, or leaders are turned away. */
  ghost predicate Drifts(h: History, h': History, i: ReplicaId) {
    Grows(h, h') && OnlyBy(h, h', i) && LogStep(h, h', i) && h.shunned <= h'.shunned
  }

  ghost predicate Moves(h: History, h': History, i: ReplicaId) {
    Drifts(h, h', i) && h'.shunned == h.shunned
  }

  ghost predicate Since(c: Chronicle, c': Chronicle) {
    && Grows(c.h, c'.h)
    && (forall k :: k in c.begun ==> k in c'.begun && c'.begun[k] == c.begun[k])
    && c.probed <= c'.probed
  }

  /** Since, and no leader has written anything or been turned away. */
  ghost predicate Later(c: Chronicle, c': Chronicle) {
    Since(c, c') && c'.h.shunned == c.h.shunned && c'.h.led == c.h.led
  }

  /** Since, and all that has been written is i's log as leader of its term. */
  ghost predicate WrittenBy(c: Chronicle, c': Chronicle, i: ReplicaId) {
    && Since(c, c') && c'.h.shunned == c.h.shunned && i in c.h.term && i in c'.h.log
    && c'.h.led == c.h.led[c.h.term[i] := c'.h.log[i]]
  }

  /** New entries of `probed` are of a term that replica i leads. */
  ghost predicate ProbedBy(c: Chronicle, c': Chronicle, i: ReplicaId) {
    forall s :: s in c'.probed && s !in c.probed ==> Elected(c'.h, s.term) && c'.h.won[s.term].leader == i
  }

  // ---------------------------------------------------------------- stability of probes

  /** Terms do not decrease along a backed log. */
  lemma LastDominates(h: History, l: Log, k: nat)
    requires InvLed(h) && Backed(h, l) && k < |l| && h.led.Keys == h.won.Keys
    ensures l[k].term <= LastTerm(l)
  {
    BackedLast(h, l);
    assert LedAt(h, LastTerm(l));
    assert l[k] == h.led[LastTerm(l)][k];
  }

  /** A log that agrees with the leader beyond the leader's starting log is a prefix of it. */
  lemma AgreeingBeyondStart(g: Group, h: History, t: int, f: ReplicaId, n: int)
    requires Inv(g, h) && Elected(h, t) && f in g.replicas
    requires h.term[f] <= t && h.won[t].start < n && Agree(h.log[f], h.led[t], n)
    ensures IsPrefix(h.log[f], h.led[t])
  {
    var l := h.log[f];
    assert LedAt(h, t) && LogAt(h, f);
    assert l[n - 1] == h.led[t][n - 1];
    BackedLast(h, l);
    LastDominates(h, l, n - 1);
  }

  lemma ProbeMoves(g: Group, h: History, h': History, i: ReplicaId, t: int, f: ReplicaId, p: int)
    requires Inv(g, h) && Inv(g, h') && Drifts(h, h', i) && Elected(h, t) && f in g.replicas
    requires ProbeOk(h, t, f, p)
    ensures ProbeOk(h', t, f, p)
  {
    assert LedAt(h, t);
    assert Elected(h', t);
    if Slot(f, t) !in h'.shunned && h'.term[f] == t && Agree(h'.log[f], h'.led[t], p + 1) {
      if h.won[t].start <= p {
        AgreeingBeyondStart(g, h', t, f, p + 1);
      } else {
        assert h.term[f] == t;
        assert LogStep(h, h', i);
        if h'.log[f] == h.log[f] {
          assert Agree(h.log[f], h.led[t], p + 1);
        }
      }
    }
  }

  lemma RejectMoves(g: Group, h: History, h': History, i: ReplicaId, t: int, f: ReplicaId, p: int, last: int)
    requires Inv(g, h) && Inv(g, h') && Drifts(h, h', i) && Elected(h, t) && f in g.replicas
    requires RejectOk(h, t, f, p, last)
    ensures RejectOk(h', t, f, p, last)
  {
    assert LedAt(h, t);
    assert Elected(h', t);
    if Slot(f, t) !in h'.shunned && h'.term[f] == t && !IsPrefix(h'.log[f], h'.led[t]) {
      assert h'.log[f] == h.log[f];
      forall k | Agree(h'.log[f], h'.led[t], k) ensures k <= last && k < p {
        if h.won[t].start < k {
          AgreeingBeyondStart(g, h', t, f, k);
        } else {
          assert Agree(h.log[f], h.led[t], k);
        }
      }
    }
  }

  /** A probe at or above the leader's starting log is always safe. */
  lemma ProbeAtStart(g: Group, h: History, t: int, f: ReplicaId, p: int)
    requires Inv(g, h) && Elected(h, t) && f in g.replicas && h.won[t].start <= p
    ensures ProbeOk(h, t, f, p)
  {
    if h.term[f] == t && Agree(h.log[f], h.led[t], p + 1) {
      AgreeingBeyondStart(g, h, t, f, p + 1);
    }
  }

  // ---------------------------------------------------------------- stability of messages

  lemma CommittedGrows(h: History, h': History, t: int, p: Log, n: int, t': int, p': Log)
    requires Grows(h, h') && CommittedBy(h, t, p, n) && t <= t' && 0 <= n && Agree(p, p', n)
    ensures CommittedBy(h', t', p', n)
  {
    if n > 0 {
      var u :| u <= t && CommittedIn(h, u, p, n);
      assert CommittedIn(h', u, p', n);
    }
  }

  lemma AppendMoves(g: Group, h: History, h': History, i: ReplicaId, m: Message)
    requires Inv(g, h) && Inv(g, h') && Drifts(h, h', i) && m.AppendEntries? && m.to in g.replicas
    requires AppendRel(h, m)
    ensures AppendRel(h', m)
  {
    var led, led' := h.led[m.term], h'.led[m.term];
    assert Agree(led, led', |led|);
    CommittedGrows(h, h', m.term, led, m.commit, m.term, led');
    ProbeMoves(g, h, h', i, m.term, m.to, m.prev);
  }

  lemma SnapshotMoves(h: History, h': History, m: Message)
    requires Grows(h, h') && m.InstallSnapshot? && SnapshotRel(h, m)
    ensures SnapshotRel(h', m)
  {
    var led, led' := h.led[m.term], h'.led[m.term];
    assert Agree(led, led', |led|);
    CommittedGrows(h, h', m.term, led, m.index, m.term, led');
  }

  lemma AppendReplyMoves(g: Group, h: History, h': History, i: ReplicaId, m: Message)
    requires Inv(g, h) && Inv(g, h') && Drifts(h, h', i) && m.AppendReply? && m.from in g.replicas
    requires AppendReplyRel(h, m)
    ensures AppendReplyRel(h', m)
  {
    if !m.success && m.term <= m.sentTerm {
      RejectMoves(g, h, h', i, m.sentTerm, m.from, m.prev, m.lastIndex);
    }
  }

  lemma MessageMoves(g: Group, c: Chronicle, c': Chronicle, i: ReplicaId, m: Message)
    requires Inv(g, c.h) && Inv(g, c'.h) && Drifts(c.h, c'.h, i) && Since(c, c') && Addressed(g, m)
    requires MessageRel(c, m)
    ensures MessageRel(c', m)
  {
    match m {
      case AppendEntries(_, _, _, _, _, _, _, _) => AppendMoves(g, c.h, c'.h, i, m);
      case AppendReply(_, _, _, _, _, _, _, _) => AppendReplyMoves(g, c.h, c'.h, i, m);
      case InstallSnapshot(_, _, _, _, _, _) => SnapshotMoves(c.h, c'.h, m);
      case _ =>
    }
  }

  // ---------------------------------------------------------------- stability of the other replicas

  lemma LogRelMoves(h: History, h': History, i: ReplicaId, j: ReplicaId, r: State)
    requires Drifts(h, h', i) && j != i && LogRel(h, j, r)
    ensures LogRel(h', j, r)
  {
    CommittedGrows(h, h', r.term, h.log[j], r.commit, r.term, h'.log[j]);
  }

  lemma VoteRelMoves(h: History, h': History, i: ReplicaId, j: ReplicaId, r: State)
    requires Drifts(h, h', i) && j != i && VoteRel(h, j, r)
    ensures VoteRel(h', j, r)
  {
    var s := Slot(j, r.term);
    assert s in h.vote <==> s in h'.vote;
  }

  lemma CandidateRelMoves(g: Group, h: History, h': History, i: ReplicaId, j: ReplicaId, r: State)
    requires Drifts(h, h', i) && j != i && h.led.Keys == h.won.Keys && CandidateRel(h, j, r)
    ensures CandidateRel(h', j, r)
  {
    forall v | v in r.granted ensures VotedFor(h', v, r.term, j) {
      assert VotedFor(h, v, r.term, j);
    }
  }

  lemma PeerRelMoves(g: Group, h: History, h': History, i: ReplicaId, t: int, p: ReplicaId, next: int, matched: int)
    requires Inv(g, h) && Inv(g, h') && Drifts(h, h', i) && Elected(h, t) && p in g.replicas
    requires PeerRel(h, t, p, next, matched)
    ensures t in h'.led && PeerRel(h', t, p, next, matched)
  {
    if next != 0 { ProbeMoves(g, h, h', i, t, p, next - 1); }
  }

  lemma PeersRelMoves(g: Group, h: History, h': History, i: ReplicaId, j: ReplicaId, r: State)
    requires Inv(g, h) && Inv(g, h') && Drifts(h, h', i) && Elected(h, r.term) && PeersRel(g, h, j, r)
    ensures r.term in h'.led && PeersRel(g, h', j, r)
  {
    forall p | p in g.replicas && p != j ensures PeerRel(h', r.term, p, NextIndex(r, p), MatchIndex(r, p)) {
      PeerRelMoves(g, h, h', i, r.term, p, NextIndex(r, p), MatchIndex(r, p));
    }
  }

  lemma LeaderRelMoves(g: Group, h: History, h': History, i: ReplicaId, j: ReplicaId, r: State)
    requires Inv(g, h) && Inv(g, h') && Drifts(h, h', i) && j != i && j in g.replicas && LeaderRel(g, h, j, r)
    ensures LeaderRel(g, h', j, r)
  {
    PeersRelMoves(g, h, h', i, j, r);
    assert h'.won[r.term].leader == j;
  }

  lemma ReadsRelMoves(g: Group, c: Chronicle, c': Chronicle, j: ReplicaId, r: State)
    requires Since(c, c') && ReadsRel(g, c, j, r)
    requires forall k :: k in c'.begun && k.who == j ==> k in c.begun
    ensures ReadsRel(g, c', j, r)
  {
    forall s | s in r.pending ensures ReadRel(g, c', j, s, r.pending[s]) {
      var read := r.pending[s];
      assert ReadRel(g, c, j, s, read);
      var b := c.begun[ReadKey(j, s)];
      forall t | t in b.commit ensures SeenBefore(c'.h, b, read, t) {
        assert SeenBefore(c.h, b, read, t);
      }
    }
  }

  lemma ReplicaMoves(g: Group, c: Chronicle, c': Chronicle, i: ReplicaId, j: ReplicaId, r: State)
    requires Inv(g, c.h) && Inv(g, c'.h) && Drifts(c.h, c'.h, i) && Since(c, c')
    requires forall k :: k in c'.begun && k.who == j ==> k in c.begun
    requires j in g.replicas && j != i && ReplicaRel(g, c, j, r) && ProbedBy(c, c', i)
    ensures ReplicaRel(g, c', j, r)
  {
    LogRelMoves(c.h, c'.h, i, j, r);
    VoteRelMoves(c.h, c'.h, i, j, r);
    if r.role.Candidate? { CandidateRelMoves(g, c.h, c'.h, i, j, r); }
    if r.role.Leader? { LeaderRelMoves(g, c.h, c'.h, i, j, r); }
    ReadsRelMoves(g, c, c', j, r);
  }

  // ---------------------------------------------------------------- one replica acts

  ghost predicate SentOk(g: Group, c: Chronicle, sent: set<Message>) {
    forall m :: m in sent ==> Addressed(g, m) && MessageRel(c, m)
  }

  lemma OthersPreserved(g: Group, w: World, c: Chronicle, i: ReplicaId, r': State, sent: set<Message>, c': Chronicle,
                        j: ReplicaId)
    requires Inv(g, c.h) && Inv(g, c'.h) && Drifts(c.h, c'.h, i) && Since(c, c') && ProbedBy(c, c', i)
    requires w.replicas.Keys == g.replicas && i in g.replicas && ReplicaOk(g, w, c, j)
    requires forall k :: k in c'.begun && k !in c.begun ==> k.who == i
    requires ReplicaRel(g, c', i, r')
    ensures ReplicaOk(g, Update(w, i, r', sent), c', j)
  {
    if j in g.replicas && j != i { ReplicaMoves(g, c, c', i, j, w.replicas[j]); }
  }

  lemma MessagesPreserved(g: Group, w: World, c: Chronicle, i: ReplicaId, r': State, sent: set<Message>, c': Chronicle,
                          m: Message)
    requires Inv(g, c.h) && Inv(g, c'.h) && Drifts(c.h, c'.h, i) && Since(c, c')
    requires MessageOk(g, w, c, m) && SentOk(g, c', sent)
    ensures MessageOk(g, Update(w, i, r', sent), c', m)
  {
    if m in w.net { MessageMoves(g, c, c', i, m); }
  }

  lemma BegunPreserved(c: Chronicle, i: ReplicaId, c': Chronicle, k: ReadKey)
    requires Since(c, c') && BegunOk(c, k) && (k in c'.begun && k !in c.begun ==> BegunOk(c', k))
    ensures BegunOk(c', k)
  {
  }

  lemma ProbedPreserved(c: Chronicle, i: ReplicaId, c': Chronicle)
    requires Since(c, c') && ProbedBy(c, c', i) && forall s :: s in c.probed ==> Elected(c.h, s.term)
    ensures forall s :: s in c'.probed ==> Elected(c'.h, s.term)
  {
  }

  /** To keep the invariant it is enough to check the replica that acted and what it sent. */
  lemma Preserved(g: Group, w: World, c: Chronicle, i: ReplicaId, r': State, sent: set<Message>, c': Chronicle)
    requires Good(g, w, c) && i in g.replicas
    requires Inv(g, c'.h) && Moves(c.h, c'.h, i) && Since(c, c') && ProbedBy(c, c', i)
    requires forall k :: k in c'.begun && k !in c.begun ==> k.who == i && BegunOk(c', k)
    requires ReplicaRel(g, c', i, r') && SentOk(g, c', sent)
    ensures Good(g, Update(w, i, r', sent), c')
  {
    var w' := Update(w, i, r', sent);
    forall j ensures ReplicaOk(g, w', c', j) {
      OthersPreserved(g, w, c, i, r', sent, c', j);
    }
    forall m ensures MessageOk(g, w', c', m) {
      MessagesPreserved(g, w, c, i, r', sent, c', m);
    }
    forall k ensures BegunOk(c', k) {
      BegunPreserved(c, i, c', k);
    }
    ProbedPreserved(c, i, c');
  }

  lemma ShunDrifts(h: History, more: set<Slot>, i: ReplicaId)
    ensures Drifts(h, Shun(h, more), i)
  {
  }

  lemma ShunnedReplica(g: Group, c: Chronicle, c': Chronicle, more: set<Slot>, i: ReplicaId, r: State)
    requires Inv(g, c.h) && Inv(g, c'.h) && c' == c.(h := Shun(c.h, more)) && i in g.replicas && ReplicaRel(g, c, i, r)
    ensures ReplicaRel(g, c', i, r)
  {
    var other := ReplicaId(i.tableId, i.shardIndex, i.replicaSeq + 1);
    ShunDrifts(c.h, more, other);
    ReplicaMoves(g, c, c', other, i, r);
  }

  lemma ShunnedMessage(g: Group, c: Chronicle, c': Chronicle, more: set<Slot>, m: Message)
    requires Inv(g, c.h) && Inv(g, c'.h) && c' == c.(h := Shun(c.h, more)) && Addressed(g, m) && MessageRel(c, m)
    ensures MessageRel(c', m)
  {
    ShunDrifts(c.h, more, m.from);
    MessageMoves(g, c, c', m.from, m);
  }

  /** The invariant says less of a leader that has been turned away, so turning away keeps it. */
  lemma ShunGood(g: Group, w: World, c: Chronicle, more: set<Slot>) returns (c': Chronicle)
    requires Good(g, w, c)
    ensures c' == c.(h := Shun(c.h, more)) && Good(g, w, c') && Since(c, c')
  {
    c' := c.(h := Shun(c.h, more));
    ShunKeeps(g, c.h, more);
    forall i ensures ReplicaOk(g, w, c', i) {
      assert ReplicaOk(g, w, c, i);
      if i in w.replicas { ShunnedReplica(g, c, c', more, i, w.replicas[i]); }
    }
    forall m ensures MessageOk(g, w, c', m) {
      assert MessageOk(g, w, c, m);
      if m in w.net { ShunnedMessage(g, c, c', more, m); }
    }
    forall k ensures BegunOk(c', k) { assert BegunOk(c, k); }
  }

  /** A step that records nothing and sends nothing. */
  lemma LocalStep(g: Group, w: World, c: Chronicle, i: ReplicaId, r': State)
    requires Good(g, w, c) && i in g.replicas && ReplicaRel(g, c, i, r')
    ensures Good(g, Update(w, i, r', {}), c)
  {
    StillMoves(c.h, i);
    Preserved(g, w, c, i, r', {}, c);
  }

  lemma StillMoves(h: History, i: ReplicaId)
    ensures Moves(h, h, i)
  {
  }

  lemma RaiseTermMoves(h: History, i: ReplicaId, t: int)
    requires i in h.term && h.term[i] <= t
    ensures Moves(h, RaiseTerm(h, i, t), i)
  {
  }

  lemma StandMoves(h: History, i: ReplicaId)
    requires InvVotes(h) && InvBids(h) && i in h.term && i in h.log
    ensures Moves(h, Stand(h, i), i)
  {
    StandGrows(h, i);
  }

  lemma CastVoteMoves(h: History, v: ReplicaId, k: ReplicaId)
    requires InvVotes(h) && MayVote(h, v, k)
    ensures Moves(h, CastVote(h, v, k), v)
  {
    CastVoteGrows(h, v, k);
  }

  lemma CrownMoves(g: Group, h: History, i: ReplicaId, q: set<ReplicaId>, noop: LogEntry)
    requires InvAcks(h) && MayLead(g, h, i, q, noop)
    ensures Moves(h, Crown(h, i, q, noop), i)
  {
    CrownGrows(g, h, i, q, noop);
  }

  lemma ExtendMoves(h: History, t: int, e: LogEntry)
    requires InvAcks(h) && MayExtend(h, t, e)
    ensures Moves(h, Extend(h, t, e), h.won[t].leader)
  {
    ExtendGrows(h, t, e);
  }

  lemma AdoptMoves(h: History, i: ReplicaId, n: nat)
    requires MayAdopt(h, i, n)
    ensures Moves(h, Adopt(h, i, n), i)
  {
    AdoptGrows(h, i, n);
  }

  lemma SettleMoves(h: History, t: int, n: nat)
    requires Elected(h, t)
    ensures Moves(h, Settle(h, t, n), h.won[t].leader)
  {
  }

  // ---------------------------------------------------------------- reading a view

  lemma ViewEnds(h: History, i: ReplicaId, r: State)
    requires LogRel(h, i, r)
    ensures L.LastIndex(r.log) == |h.log[i]| && L.LastTerm(r.log) == LastTerm(h.log[i])
  {
  }

  lemma ViewTerm(h: History, i: ReplicaId, r: State, n: int)
    requires LogRel(h, i, r) && r.log.snapIndex <= n
    ensures L.TermAt(r.log, n) == TermIn(h.log[i], n)
  {
  }

  lemma CommittedShorter(h: History, t: int, p: Log, n: int, k: int)
    requires CommittedBy(h, t, p, n) && 0 <= k <= n <= |p|
    ensures CommittedBy(h, t, p, k)
  {
    if k > 0 {
      var u :| u <= t && CommittedIn(h, u, p, n);
      assert CommittedIn(h, u, p, k);
    }
  }

  /** Relations of the acting replica that only mention grown facts. */
  lemma OwnLogStays(h: History, h': History, i: ReplicaId, r: State, r': State)
    requires Grows(h, h') && LogRel(h, i, r) && i in h'.log && h'.log[i] == h.log[i] && h'.term[i] == r'.term
    requires r.term <= r'.term && r'.log == r.log && r'.snapshot == r.snapshot
    requires r.log.snapIndex <= r'.applied <= r'.commit <= r.commit
    ensures LogRel(h', i, r')
  {
    CommittedShorter(h, r.term, h.log[i], r.commit, r'.commit);
    CommittedGrows(h, h', r.term, h.log[i], r'.commit, r'.term, h'.log[i]);
  }

  lemma LogRelExtended(h: History, h': History, i: ReplicaId, r: State, r': State, e: LogEntry)
    requires Grows(h, h') && LogRel(h, i, r) && i in h'.log && i in h'.term
    requires h'.log[i] == h.log[i] + [e] && h'.term[i] == r.term && e.index == |h.log[i]| + 1
    requires r'.term == r.term && r'.log == r.log.(entries := r.log.entries + [e]) && r'.snapshot == r.snapshot
    requires r'.commit == r.commit && r'.applied == r.applied
    ensures LogRel(h', i, r')
  {
    var l, l' := h.log[i], h'.log[i];
    assert Agree(l, l', r.commit);
    CommittedGrows(h, h', r.term, l, r.commit, r.term, l');
    ExtendedView(l, r.log, e);
  }

  lemma ExtendedView(l: Log, v: L.View, e: LogEntry)
    requires L.Completes(l, v) && L.WellFormed(v) && e.index == |l| + 1
    ensures var v' := v.(entries := v.entries + [e]); L.Completes(l + [e], v') && L.WellFormed(v')
  {
  }

  /** Leadership does not depend on the fields left out here. */
  lemma LeaderRelSame(g: Group, h: History, i: ReplicaId, r: State, r': State)
    requires LeaderRel(g, h, i, r)
    requires r'.term == r.term && r'.next == r.next && r'.matched == r.matched && r.commit <= r'.commit
             && i in r'.voters
    ensures LeaderRel(g, h, i, r')
  {
    forall p | p in g.replicas && p != i ensures PeerRel(h, r'.term, p, NextIndex(r', p), MatchIndex(r', p)) {
      assert PeerRel(h, r.term, p, NextIndex(r, p), MatchIndex(r, p));
    }
  }

  lemma UpdateTwice(w: World, i: ReplicaId, r1: State, r2: State, sent: set<Message>)
    ensures Update(Update(w, i, r1, {}), i, r2, sent) == Update(w, i, r2, sent)
  {
  }

  lemma LaterLater(a: Chronicle, b: Chronicle, c: Chronicle)
    requires Later(a, b) && Later(b, c)
    ensures Later(a, c)
  {
    SinceSince(a, b, c);
  }

  lemma SinceSince(a: Chronicle, b: Chronicle, c: Chronicle)
    requires Since(a, b) && Since(b, c)
    ensures Since(a, c)
  {
    GrowsGrows(a.h, b.h, c.h);
  }

  lemma GrowsGrows(a: History, b: History, c: History)
    requires Grows(a, b) && Grows(b, c)
    ensures Grows(a, c)
  {
    forall t | t in a.led ensures t in c.led && Agree(a.led[t], c.led[t], |a.led[t]|) {
      assert t in b.led;
    }
    forall s | s in c.ack ensures NewAckOk(a, c, s) {
      assert NewAckOk(b, c, s);
      if s in b.ack { assert NewAckOk(a, b, s); }
    }
  }
}
