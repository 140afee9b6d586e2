/** Steps of reads keep the invariant (src/storage/replica/read_tracker.cpp,
    src/storage/raft/core/raft_core_read.cpp). */
module ClusterReads {
  import opened Types
  import opened Replica
  import opened Consensus
  import opened Cluster
  import opened ClusterInvariant
  import L = RaftLog

  /** A leader that has committed an entry of its own term has committed past its starting log. */
  lemma CommittedPastStart(g: Group, h: History, i: ReplicaId, r: State)
    requires Inv(g, h) && LogRel(h, i, r) && LeaderRel(g, h, i, r) && HasCommittedOwn(r)
    ensures h.won[r.term].start < r.commit
  {
    assert LedAt(h, r.term);
    if !(0 < r.log.snapIndex <= r.commit && r.log.snapTerm == r.term) {
      var n :| r.log.snapIndex + 1 <= n <= r.commit && L.TermAt(r.log, n) == r.term;
      ViewTerm(h, i, r, n);
      assert h.led[r.term][n - 1].term == r.term;
    } else {
      assert h.led[r.term][r.log.snapIndex - 1].term == r.term;
    }
  }

  /** Every commit known when a read begins is covered by its index or came from a later term. */
  lemma BeginSees(g: Group, h: History, i: ReplicaId, r: State, read: PendingRead, t: int)
    requires Inv(g, h) && Overlapping(g) && LogRel(h, i, r) && LeaderRel(g, h, i, r) && HasCommittedOwn(r)
    requires t in h.commit && read.index == r.commit && read.term == r.term
    ensures SeenBefore(h, ReadStart(h.term, h.commit), read, t)
  {
    assert CommitAt(g, h, t);
    if t < r.term {
      CommittedPastStart(g, h, i, r);
      LeaderCompleteness(g, h, t, r.term);
    } else if t > r.term {
      assert WonAt(g, h, t);
      forall v | v in h.won[t].voters ensures v in h.term && t <= h.term[v] {
        assert VoteAt(h, Slot(v, t));
      }
    }
  }

  lemma BeginReadRel(g: Group, c: Chronicle, i: ReplicaId, r: State, c': Chronicle)
    requires Inv(g, c.h) && Overlapping(g) && i in g.replicas && ReplicaRel(g, c, i, r) && ReadableLeader(r)
    requires c' == c.(begun := c.begun[ReadKey(i, r.nextSeq) := ReadStart(c.h.term, c.h.commit)])
    ensures ReadsRel(g, c', i, StartRead(r).state) && Later(c, c')
  {
    var r' := StartRead(r).state;
    assert ReadKey(i, r.nextSeq) !in c.begun;
    assert Grows(c.h, c'.h);
    forall s | s in r'.pending ensures ReadRel(g, c', i, s, r'.pending[s]) {
      if s == r.nextSeq {
        forall t | t in c.h.commit
          ensures SeenBefore(c'.h, ReadStart(c.h.term, c.h.commit), r'.pending[s], t)
        {
          BeginSees(g, c.h, i, r, r'.pending[s], t);
        }
      } else {
        assert ReadRel(g, c, i, s, r.pending[s]);
      }
    }
  }

  lemma BeginReadSent(g: Group, c: Chronicle, i: ReplicaId, r: State)
    requires Inv(g, c.h) && i in g.replicas && ReadableLeader(r) && r.id == i && r.voters <= g.replicas
    requires LogRel(c.h, i, r) && LeaderRel(g, c.h, i, r) && ReadKey(i, r.nextSeq) in c.begun
    ensures SentOk(g, c, StartRead(r).sent)
  {
    ViewEnds(c.h, i, r);
    assert LedAt(c.h, r.term);
    forall m | m in StartRead(r).sent ensures Addressed(g, m) && MessageRel(c, m) {
      ProbeAtStart(g, c.h, r.term, m.to, m.prev);
    }
  }

  lemma BeginReadKeeps(g: Group, w: World, c: Chronicle, i: ReplicaId) returns (c': Chronicle)
    requires Good(g, w, c) && i in w.replicas && ReadableLeader(w.replicas[i])
    ensures var o := StartRead(w.replicas[i]); Good(g, Update(w, i, o.state, o.sent), c')
    ensures Later(c, c') && c'.h == c.h
    ensures c'.begun == c.begun[ReadKey(i, w.replicas[i].nextSeq) := ReadStart(c.h.term, c.h.commit)]
  {
    var r := w.replicas[i];
    c' := c.(begun := c.begun[ReadKey(i, r.nextSeq) := ReadStart(c.h.term, c.h.commit)]);
    assert ReplicaOk(g, w, c, i);
    BeginReadRel(g, c, i, r, c');
    LeaderRelSame(g, c.h, i, r, StartRead(r).state);
    BeginReadSent(g, c', i, r);
    StillMoves(c.h, i);
    Preserved(g, w, c, i, StartRead(r).state, StartRead(r).sent, c');
  }

  lemma ConfirmedRel(g: Group, c: Chronicle, i: ReplicaId, r: State, m: Message)
    requires ReadsRel(g, c, i, r) && m.ReadReply? && m.to == i && ReadReplyRel(c, m)
    ensures ReadsRel(g, c, i, OnReadReply(r, m))
  {
    var r' := OnReadReply(r, m);
    forall s | s in r'.pending ensures ReadRel(g, c, i, s, r'.pending[s]) {
      assert ReadRel(g, c, i, s, r.pending[s]);
      var b := c.begun[ReadKey(i, s)];
      forall t | t in b.commit ensures SeenBefore(c.h, b, r'.pending[s], t) {
        assert SeenBefore(c.h, b, r.pending[s], t);
      }
    }
  }

  lemma ReadReplyKeeps(g: Group, w: World, c: Chronicle, m: Message)
    requires Good(g, w, c) && m.ReadReply? && m in w.net && m.to in w.replicas
    ensures Good(g, Update(w, m.to, OnReadReply(w.replicas[m.to], m), {}), c)
  {
    var r := w.replicas[m.to];
    var r' := OnReadReply(r, m);
    assert ReplicaOk(g, w, c, m.to) && MessageOk(g, w, c, m);
    ConfirmedRel(g, c, m.to, r, m);
    if r.role.Leader? { LeaderRelSame(g, c.h, m.to, r, r'); }
    LocalStep(g, w, c, m.to, r');
  }

  lemma DropReadKeeps(g: Group, w: World, c: Chronicle, i: ReplicaId, seqNo: int)
    requires Good(g, w, c) && i in w.replicas
    ensures Good(g, Update(w, i, DropRead(w.replicas[i], seqNo), {}), c)
  {
    var r := w.replicas[i];
    var r' := DropRead(r, seqNo);
    assert ReplicaOk(g, w, c, i);
    forall s | s in r'.pending ensures ReadRel(g, c, i, s, r'.pending[s]) {
      assert ReadRel(g, c, i, s, r.pending[s]);
    }
    if r.role.Leader? { LeaderRelSame(g, c.h, i, r, r'); }
    LocalStep(g, w, c, i, r');
  }

  /** When a read may be answered, no commit of a later term was known when it began. */
  lemma AnswerCovers(g: Group, c: Chronicle, i: ReplicaId, r: State, seqNo: int, t: int)
    requires Inv(g, c.h) && Overlapping(g) && ReplicaRel(g, c, i, r) && MayAnswer(r, seqNo)
    requires ReadKey(i, seqNo) in c.begun && t in c.begun[ReadKey(i, seqNo)].commit
    ensures t <= r.term && c.begun[ReadKey(i, seqNo)].commit[t] <= r.pending[seqNo].index
  {
    var read := r.pending[seqNo];
    var b := c.begun[ReadKey(i, seqNo)];
    assert ReadRel(g, c, i, seqNo, read);
    assert SeenBefore(c.h, b, read, t);
    assert read.voters * read.confirmed == read.confirmed;
    assert IsMajority(read.voters, read.confirmed);
    assert Quorum(g, read.confirmed);
    if Elected(c.h, t) {
      assert WonAt(g, c.h, t);
      var v :| v in read.confirmed && v in c.h.won[t].voters;
      assert b.term[v] <= read.term;
    }
  }
}
