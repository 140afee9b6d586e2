/** Steps that change terms, votes and roles keep the invariant
    (src/storage/raft/core/raft_core_election.cpp, src/storage/raft/raft_election.cpp). */
module ClusterElection {
  import opened Types
  import opened Replica
  import opened Consensus
  import opened Cluster
  import opened ClusterInvariant

  /** become_follower on any term that is not older: also a voluntary step down. */
  lemma HearTermKeeps(g: Group, w: World, c: Chronicle, i: ReplicaId, t: int) returns (c': Chronicle)
    requires Good(g, w, c) && i in w.replicas && w.replicas[i].term <= t
    ensures Good(g, Update(w, i, BecomeFollower(w.replicas[i], t), {}), c') && Later(c, c')
  {
    var r := w.replicas[i];
    var r' := BecomeFollower(r, t);
    var h' := RaiseTerm(c.h, i, t);
    c' := c.(h := h');
    assert ReplicaOk(g, w, c, i);
    RaiseTermKeeps(g, c.h, i, t);
    RaiseTermMoves(c.h, i, t);
    OwnLogStays(c.h, h', i, r, r');
    assert VoteAt(c.h, Slot(i, t));
    ReadsRelMoves(g, c, c', i, r');
    Preserved(g, w, c, i, r', {}, c');
  }

  lemma PreVoteKeeps(g: Group, w: World, c: Chronicle, i: ReplicaId)
    requires Good(g, w, c) && i in w.replicas
    requires var r := w.replicas[i]; r.id in r.voters && !r.role.Leader? && !r.recovering
    ensures Good(g, Update(w, i, StartPreVote(w.replicas[i]), {}), c)
  {
    assert ReplicaOk(g, w, c, i);
    LocalStep(g, w, c, i, StartPreVote(w.replicas[i]));
  }

  lemma StoodUp(g: Group, c: Chronicle, i: ReplicaId, r: State)
    requires Inv(g, c.h) && i in g.replicas && ReplicaRel(g, c, i, r) && r.id in r.voters && !r.role.Leader?
             && !r.recovering
    ensures ReplicaRel(g, c.(h := Stand(c.h, i)), i, Campaign(r).state)
  {
    var o := Campaign(r);
    var h' := Stand(c.h, i);
    StandGrows(c.h, i);
    OwnLogStays(c.h, h', i, r, o.state);
    assert WonAt(g, c.h, r.term + 1) && BidAt(c.h, Slot(i, r.term + 1)) && LogAt(c.h, i);
    assert CandidateRel(h', i, o.state);
    ReadsRelMoves(g, c, c.(h := h'), i, o.state);
  }

  lemma CampaignSent(g: Group, c: Chronicle, i: ReplicaId, r: State)
    requires i in g.replicas && r.id == i && r.voters <= g.replicas && LogRel(c.h, i, r)
    requires r.id in r.voters && !r.role.Leader? && !r.recovering
    ensures SentOk(g, c.(h := Stand(c.h, i)), Campaign(r).sent)
  {
    ViewEnds(c.h, i, r);
  }

  lemma StandUpKeeps(g: Group, w: World, c: Chronicle, i: ReplicaId) returns (c': Chronicle)
    requires Good(g, w, c) && i in w.replicas
    requires var r := w.replicas[i]; r.id in r.voters && !r.role.Leader? && !r.recovering
    ensures var o := Campaign(w.replicas[i]); Good(g, Update(w, i, o.state, o.sent), c') && Later(c, c')
  {
    var r := w.replicas[i];
    c' := c.(h := Stand(c.h, i));
    assert ReplicaOk(g, w, c, i);
    StoodUp(g, c, i, r);
    CampaignSent(g, c, i, r);
    StandKeeps(g, c.h, i);
    StandMoves(c.h, i);
    Preserved(g, w, c, i, Campaign(r).state, Campaign(r).sent, c');
  }

  /** What the voter does with a request in its own term: it grants, again or for the first time, or not. */
  lemma VoteCases(r: State, m: Message)
    requires m.RequestVote? && r.id in r.voters && m.from in r.voters && !r.recovering && m.term == r.term
    ensures var o := OnRequestVote(r, m);
            var grants := !LaterThan(r, m.lastTerm, m.lastIndex) && (r.votedFor.None? || r.votedFor == Some(m.from));
            && o.state == (if grants then r.(votedFor := Some(m.from)) else r)
            && o.sent == {VoteReply(r.id, m.from, r.term, grants)}
  {
  }

  lemma VoterMay(h: History, i: ReplicaId, r: State, m: Message)
    requires LogRel(h, i, r) && VoteRel(h, i, r) && m.RequestVote? && RequestVoteRel(h, m) && m.term == r.term
    requires !LaterThan(r, m.lastTerm, m.lastIndex) && (r.votedFor.None? || r.votedFor == Some(m.from))
    ensures MayVote(h, i, m.from)
  {
    ViewEnds(h, i, r);
  }

  lemma VotedRel(g: Group, c: Chronicle, c': Chronicle, i: ReplicaId, r: State, k: ReplicaId)
    requires Inv(g, c.h) && Inv(g, c'.h) && Moves(c.h, c'.h, i) && i in g.replicas && ReplicaRel(g, c, i, r)
    requires c' == c.(h := c.h.(vote := c.h.vote[Slot(i, r.term) := k]))
    ensures ReplicaRel(g, c', i, r.(votedFor := Some(k)))
  {
    var r' := r.(votedFor := Some(k));
    OwnLogStays(c.h, c'.h, i, r, r');
    VoteKeepsRole(g, c.h, c'.h, i, r, r');
    ReadsRelMoves(g, c, c', i, r');
  }

  lemma VoteIsCast(g: Group, c: Chronicle, i: ReplicaId, r: State, m: Message) returns (c': Chronicle)
    requires Inv(g, c.h) && i in g.replicas && ReplicaRel(g, c, i, r) && m.RequestVote? && RequestVoteRel(c.h, m)
    requires m.term == r.term && !LaterThan(r, m.lastTerm, m.lastIndex)
    requires r.votedFor.None? || r.votedFor == Some(m.from)
    ensures Inv(g, c'.h) && Moves(c.h, c'.h, i) && c' == c.(h := c'.h) && VotedFor(c'.h, i, r.term, m.from)
    ensures ReplicaRel(g, c', i, r.(votedFor := Some(m.from))) && c'.h.led == c.h.led
  {
    VoterMay(c.h, i, r, m);
    c' := c.(h := CastVote(c.h, i, m.from));
    CastVoteKeeps(g, c.h, i, m.from);
    CastVoteMoves(c.h, i, m.from);
    VotedRel(g, c, c', i, r, m.from);
  }

  lemma GrantKeeps(g: Group, w: World, c: Chronicle, m: Message) returns (c': Chronicle)
    requires Good(g, w, c) && m.RequestVote? && m in w.net && m.to in w.replicas
    requires var r := w.replicas[m.to];
             && m.term == r.term && !LaterThan(r, m.lastTerm, m.lastIndex)
             && (r.votedFor.None? || r.votedFor == Some(m.from))
    ensures var r := w.replicas[m.to];
            && Good(g, Update(w, m.to, r.(votedFor := Some(m.from)), {VoteReply(m.to, m.from, r.term, true)}), c')
            && Later(c, c')
  {
    var i, r := m.to, w.replicas[m.to];
    assert ReplicaOk(g, w, c, i) && MessageOk(g, w, c, m);
    c' := VoteIsCast(g, c, i, r, m);
    Preserved(g, w, c, i, r.(votedFor := Some(m.from)), {VoteReply(i, m.from, r.term, true)}, c');
  }

  /** A request in the voter's own term. */
  lemma VoteInTerm(g: Group, w: World, c: Chronicle, m: Message) returns (c': Chronicle)
    requires Good(g, w, c) && m.RequestVote? && m in w.net && m.to in w.replicas
    requires var r := w.replicas[m.to]; r.id in r.voters && m.from in r.voters && !r.recovering && m.term == r.term
    ensures var o := OnRequestVote(w.replicas[m.to], m);
            Good(g, Update(w, m.to, o.state, o.sent), c') && Later(c, c')
  {
    var i := m.to;
    var r := w.replicas[i];
    assert ReplicaOk(g, w, c, i) && MessageOk(g, w, c, m);
    VoteCases(r, m);
    if !LaterThan(r, m.lastTerm, m.lastIndex) && (r.votedFor.None? || r.votedFor == Some(m.from)) {
      c' := GrantKeeps(g, w, c, m);
    } else {
      c' := c;
      RefusedVote(g, w, c, i, VoteReply(i, m.from, r.term, false));
    }
  }

  /** Recording a vote does not disturb the voter's own role. */
  lemma VoteKeepsRole(g: Group, h: History, h': History, i: ReplicaId, r: State, r': State)
    requires Inv(g, h) && Inv(g, h') && Moves(h, h', i) && i in g.replicas
    requires h'.won == h.won && h'.led == h.led && h'.log == h.log && h'.commit == h.commit
    requires r' == r.(votedFor := r'.votedFor)
    ensures r.role.Candidate? && CandidateRel(h, i, r) ==> CandidateRel(h', i, r')
    ensures r.role.Leader? && LeaderRel(g, h, i, r) ==> LeaderRel(g, h', i, r')
  {
    if r.role.Candidate? && CandidateRel(h, i, r) {
      forall v | v in r'.granted ensures VotedFor(h', v, r'.term, i) {
        assert VotedFor(h, v, r.term, i);
      }
    }
    if r.role.Leader? && LeaderRel(g, h, i, r) {
      PeersRelMoves(g, h, h', i, i, r);
      assert PeersRel(g, h', i, r');
    }
  }

  lemma RefusedVote(g: Group, w: World, c: Chronicle, i: ReplicaId, m: Message)
    requires Good(g, w, c) && i in w.replicas && m.VoteReply? && !m.granted && Addressed(g, m)
    ensures Good(g, Update(w, i, w.replicas[i], {m}), c)
  {
    assert ReplicaOk(g, w, c, i);
    StillMoves(c.h, i);
    Preserved(g, w, c, i, w.replicas[i], {m}, c);
  }

  lemma VoteAfterStep(r: State, m: Message)
    requires m.RequestVote? && m.term > r.term && r.id in r.voters && m.from in r.voters && !r.recovering
    ensures OnRequestVote(BecomeFollower(r, m.term), m) == OnRequestVote(r, m)
  {
  }

  lemma VoteInLaterTerm(g: Group, w: World, c: Chronicle, m: Message) returns (c': Chronicle)
    requires Good(g, w, c) && m.RequestVote? && m in w.net && m.to in w.replicas
    requires var r := w.replicas[m.to]; r.id in r.voters && m.from in r.voters && !r.recovering && r.term < m.term
    ensures var o := OnRequestVote(w.replicas[m.to], m);
            Good(g, Update(w, m.to, o.state, o.sent), c') && Later(c, c')
  {
    var r := w.replicas[m.to];
    var r1 := BecomeFollower(r, m.term);
    var c1 := HearTermKeeps(g, w, c, m.to, m.term);
    var w1 := Update(w, m.to, r1, {});
    assert m in w1.net && w1.replicas[m.to] == r1;
    VoteAfterStep(r, m);
    c' := VoteInTerm(g, w1, c1, m);
    LaterLater(c, c1, c');
    UpdateTwice(w, m.to, r1, OnRequestVote(r, m).state, OnRequestVote(r, m).sent);
  }

  lemma RequestVoteKeeps(g: Group, w: World, c: Chronicle, m: Message) returns (c': Chronicle)
    requires Good(g, w, c) && m.RequestVote? && m in w.net && m.to in w.replicas
    ensures var o := OnRequestVote(w.replicas[m.to], m);
            Good(g, Update(w, m.to, o.state, o.sent), c') && Later(c, c')
  {
    var r := w.replicas[m.to];
    assert ReplicaOk(g, w, c, m.to) && MessageOk(g, w, c, m);
    if r.id !in r.voters || m.from !in r.voters || r.recovering || m.term < r.term {
      c' := c;
      RefusedVote(g, w, c, m.to, VoteReply(m.to, m.from, r.term, false));
    } else if m.term == r.term {
      c' := VoteInTerm(g, w, c, m);
    } else {
      c' := VoteInLaterTerm(g, w, c, m);
    }
  }

  lemma VoteReplyKeeps(g: Group, w: World, c: Chronicle, m: Message) returns (c': Chronicle)
    requires Good(g, w, c) && m.VoteReply? && m in w.net && m.to in w.replicas
    ensures Good(g, Update(w, m.to, OnVoteReply(w.replicas[m.to], m), {}), c') && Later(c, c')
  {
    var i := m.to;
    var r := w.replicas[i];
    assert ReplicaOk(g, w, c, i) && MessageOk(g, w, c, m);
    if !r.recovering && r.role.Candidate? && m.term > r.term {
      c' := HearTermKeeps(g, w, c, i, m.term);
    } else {
      c' := c;
      LocalStep(g, w, c, i, OnVoteReply(r, m));
    }
  }

  lemma GrantedIsQuorum(g: Group, r: State)
    requires r.voters in g.configs && r.granted <= r.voters && |r.granted| >= QuorumSize(r.voters)
    ensures Quorum(g, r.granted)
  {
    assert r.voters * r.granted == r.granted;
    assert IsMajority(r.voters, r.granted);
  }

  /** Two replicas cannot win the same term, so the winner's term has no log yet. */
  lemma WinnerMayLead(g: Group, c: Chronicle, i: ReplicaId, r: State) returns (noop: LogEntry)
    requires Inv(g, c.h) && Overlapping(g) && i in g.replicas && ReplicaRel(g, c, i, r)
    requires r.role.Candidate? && r.id in r.voters && !r.recovering && |r.granted| >= QuorumSize(r.voters)
    ensures MayLead(g, c.h, i, r.granted, noop)
    ensures Lead(r).log == r.log.(entries := r.log.entries + [noop])
  {
    ViewEnds(c.h, i, r);
    GrantedIsQuorum(g, r);
    if Elected(c.h, r.term) { ElectionSafety(g, c.h, r.term, i, r.granted); }
    noop := Lead(r).log.entries[|r.log.entries|];
  }

  lemma WonLeads(g: Group, h: History, i: ReplicaId, r: State, noop: LogEntry)
    requires Inv(g, h) && i in g.replicas && LogRel(h, i, r) && r.id == i
    requires r.role.Candidate? && r.id in r.voters && !r.recovering && |r.granted| >= QuorumSize(r.voters)
    requires MayLead(g, h, i, r.granted, noop)
    ensures LeaderRel(g, Crown(h, i, r.granted, noop), i, Lead(r))
  {
    var h' := Crown(h, i, r.granted, noop);
    ViewEnds(h, i, r);
    CrownKeeps(g, h, i, r.granted, noop);
    assert CommitAt(g, h, r.term);
    NewLeaderPeers(g, h', i, Lead(r));
  }

  lemma Won(g: Group, c: Chronicle, i: ReplicaId, r: State, noop: LogEntry)
    requires Inv(g, c.h) && i in g.replicas && ReplicaRel(g, c, i, r)
    requires r.role.Candidate? && r.id in r.voters && !r.recovering && |r.granted| >= QuorumSize(r.voters)
    requires MayLead(g, c.h, i, r.granted, noop) && Lead(r).log == r.log.(entries := r.log.entries + [noop])
    requires forall s :: s in c.probed ==> Elected(c.h, s.term)
    ensures ReplicaRel(g, c.(h := Crown(c.h, i, r.granted, noop)), i, Lead(r))
  {
    var h' := Crown(c.h, i, r.granted, noop);
    CrownGrows(g, c.h, i, r.granted, noop);
    LogRelExtended(c.h, h', i, r, Lead(r), noop);
    WonLeads(g, c.h, i, r, noop);
    ReadsRelMoves(g, c, c.(h := h'), i, Lead(r));
  }

  lemma WinKeeps(g: Group, w: World, c: Chronicle, i: ReplicaId) returns (c': Chronicle)
    requires Good(g, w, c) && i in w.replicas
    requires var r := w.replicas[i];
             r.role.Candidate? && r.id in r.voters && !r.recovering && |r.granted| >= QuorumSize(r.voters)
    ensures Good(g, Update(w, i, Lead(w.replicas[i]), {}), c') && WrittenBy(c, c', i)
  {
    var r := w.replicas[i];
    assert ReplicaOk(g, w, c, i);
    var noop := WinnerMayLead(g, c, i, r);
    c' := c.(h := Crown(c.h, i, r.granted, noop));
    Won(g, c, i, r, noop);
    CrownKeeps(g, c.h, i, r.granted, noop);
    CrownMoves(g, c.h, i, r.granted, noop);
    Preserved(g, w, c, i, Lead(r), {}, c');
  }

  lemma NewLeaderPeers(g: Group, h: History, i: ReplicaId, r: State)
    requires Inv(g, h) && Elected(h, r.term) && h.won[r.term].start < |h.led[r.term]|
    requires forall p :: p in g.replicas && p != i ==>
               (NextIndex(r, p) == 0 || NextIndex(r, p) == h.won[r.term].start + 1) && MatchIndex(r, p) == 0
    ensures PeersRel(g, h, i, r)
  {
    forall p | p in g.replicas && p != i ensures PeerRel(h, r.term, p, NextIndex(r, p), MatchIndex(r, p)) {
      ProbeAtStart(g, h, r.term, p, h.won[r.term].start);
    }
  }

  /** A member list takes effect on one replica, whatever lists are in force on the others. */
  lemma ConfigureKeeps(g: Group, w: World, c: Chronicle, i: ReplicaId, peers: set<ReplicaId>, voters: set<ReplicaId>)
    requires Good(g, w, c) && i in w.replicas && MemberList(g, peers, voters)
    requires MayReconfigure(w.replicas[i], peers, voters)
    ensures Good(g, Update(w, i, Reconfigure(w.replicas[i], peers, voters), {}), c)
  {
    var r := w.replicas[i];
    var r' := Reconfigure(r, peers, voters);
    assert ReplicaOk(g, w, c, i);
    if r'.role.Leader? { LeaderRelSame(g, c.h, i, r, r'); }
    LocalStep(g, w, c, i, r');
  }

  lemma CrashKeeps(g: Group, w: World, c: Chronicle, i: ReplicaId, peers: set<ReplicaId>, voters: set<ReplicaId>,
                   recovering: bool)
    requires Good(g, w, c) && i in w.replicas && MemberList(g, peers, voters)
    ensures Good(g, Update(w, i, Restart(w.replicas[i], peers, voters, recovering), {}), c)
  {
    var r := w.replicas[i];
    var r' := Restart(r, peers, voters, recovering);
    assert ReplicaOk(g, w, c, i);
    OwnLogStays(c.h, c.h, i, r, r');
    LocalStep(g, w, c, i, r');
  }
}
