/** Every handler of the replica object is a run of cluster steps, so what is proved of all runs of
    the cluster holds whenever replicas are RaftCore objects. */
module CoreRuns {
  import opened Types
  import opened Replica
  import opened Cluster
  import opened Core
  import opened Membership
  import Consensus
  import L = RaftLog

  /** These steps lead from one world to another. */
  ghost predicate Reaches(g: Consensus.Group, w: World, steps: seq<Step>, w': World) {
    Run(g, w, steps) && After(g, w, steps) == w'
  }

  lemma {:induction false} ReachesFurther(g: Consensus.Group, w: World, a: seq<Step>, w1: World, b: seq<Step>,
                                          w2: World)
    requires Reaches(g, w, a, w1) && Reaches(g, w1, b, w2)
    ensures Reaches(g, w, a + b, w2)
    decreases |a|
  {
    if a == [] {
      assert a + b == b;
    } else {
      assert (a + b)[0] == a[0] && (a + b)[1..] == a[1..] + b;
      ReachesFurther(g, Exec(g, w, a[0]), a[1..], w1, b, w2);
    }
  }

  lemma OneStep(g: Consensus.Group, w: World, s: Step)
    requires Enabled(g, w, s)
    ensures Reaches(g, w, [s], Exec(g, w, s))
  {
    assert [s][1..] == [];
  }

  lemma Merged(w: World, i: ReplicaId, r: State, a: set<Message>, r': State, b: set<Message>)
    ensures Update(Update(w, i, r, a), i, r', b) == Update(w, i, r', a + b)
  {
    assert w.net + a + b == w.net + (a + b);
    assert w.replicas[i := r][i := r'] == w.replicas[i := r'];
  }

  lemma {:induction false} SendsAreRun(g: Consensus.Group, w: World, i: ReplicaId, ps: seq<ReplicaId>)
    returns (steps: seq<Step>)
    requires i in w.replicas && w.replicas[i].role.Leader?
             && (forall p :: p in ps ==> p in w.replicas[i].peers && p != i)
    ensures var o := ReplicateEach(w.replicas[i], ps); Reaches(g, w, steps, Update(w, i, o.state, o.sent))
    decreases |ps|
  {
    if ps == [] {
      steps := [];
      assert w.replicas[i := w.replicas[i]] == w.replicas && w.net + {} == w.net;
    } else {
      var s := Send(i, ps[0]);
      assert ps[0] in ps;
      OneStep(g, w, s);
      var first := Replicate(w.replicas[i], ps[0]);
      var w1 := Update(w, i, first.state, first.sent);
      forall p | p in ps[1..] ensures p in w1.replicas[i].peers && p != i { assert p in ps; }
      var rest := SendsAreRun(g, w1, i, ps[1..]);
      var o := ReplicateEach(first.state, ps[1..]);
      Merged(w, i, first.state, first.sent, o.state, o.sent);
      ReachesFurther(g, w, [s], w1, rest, Update(w1, i, o.state, o.sent));
      steps := [s] + rest;
    }
  }

  /** Replica i sends to its peers and then, if `alone`, commits. */
  lemma SpreadIsRun(g: Consensus.Group, w: World, i: ReplicaId, ps: seq<ReplicaId>, alone: bool)
    returns (steps: seq<Step>)
    requires i in w.replicas && w.replicas[i].role.Leader?
             && (forall p :: p in ps ==> p in w.replicas[i].peers && p != i)
    ensures var o := ReplicateEach(w.replicas[i], ps);
            && o.state.role.Leader?
            && Reaches(g, w, steps, Update(w, i, if alone then TryCommit(o.state) else o.state, o.sent))
  {
    steps := SendsAreRun(g, w, i, ps);
    EachKeeps(w.replicas[i], ps);
    var o := ReplicateEach(w.replicas[i], ps);
    if alone && !o.state.recovering && o.state.commit <= L.LastIndex(o.state.log) {
      var w1 := Update(w, i, o.state, o.sent);
      OneStep(g, w1, Commit(i));
      Merged(w, i, o.state, o.sent, AdvanceCommit(o.state), {});
      assert o.sent + {} == o.sent;
      ReachesFurther(g, w, steps, w1, [Commit(i)], Update(w1, i, AdvanceCommit(o.state), {}));
      steps := steps + [Commit(i)];
    }
  }

  ghost predicate Peers(r: State, i: ReplicaId, ps: seq<ReplicaId>) {
    forall p :: p in ps ==> p in r.peers && p != i
  }

  lemma AfterFirst(g: Consensus.Group, w: World, s: Step, i: ReplicaId, r: State, a: set<Message>, rest: seq<Step>,
                   r': State, b: set<Message>)
    requires Enabled(g, w, s) && Exec(g, w, s) == Update(w, i, r, a)
    requires Reaches(g, Update(w, i, r, a), rest, Update(Update(w, i, r, a), i, r', b))
    ensures Reaches(g, w, [s] + rest, Update(w, i, r', a + b))
  {
    OneStep(g, w, s);
    Merged(w, i, r, a, r', b);
    ReachesFurther(g, w, [s], Update(w, i, r, a), rest, Update(w, i, r', a + b));
  }

  /** become_leader. */
  lemma ElectedIsRun(g: Consensus.Group, w: World, i: ReplicaId, ps: seq<ReplicaId>) returns (steps: seq<Step>)
    requires i in w.replicas && CanLead(w.replicas[i]) && Peers(w.replicas[i], i, ps)
    ensures var o := Elected(w.replicas[i], ps); Reaches(g, w, steps, Update(w, i, o.state, o.sent))
  {
    var r := Lead(w.replicas[i]);
    var rest := SpreadIsRun(g, Update(w, i, r, {}), i, ps, QuorumSize(w.replicas[i].voters) <= 1);
    var o := Elected(w.replicas[i], ps);
    AfterFirst(g, w, Win(i), i, r, {}, rest, o.state, o.sent);
    assert {} + o.sent == o.sent;
    steps := [Win(i)] + rest;
  }

  lemma NobodyElse(r: State)
    requires r.id in r.voters && !r.role.Leader? && !r.recovering && |r.voters| / 2 + 1 <= 1
    ensures Campaign(r).sent == {}
  {
    assert |r.voters - {r.id}| == |r.voters| - 1;
  }

  /** become_candidate. */
  lemma TimeoutIsRun(g: Consensus.Group, w: World, i: ReplicaId, ps: seq<ReplicaId>) returns (steps: seq<Step>)
    requires i in w.replicas && !w.replicas[i].role.Leader? && Peers(w.replicas[i], i, ps)
    ensures var o := AfterTimeout(w.replicas[i], ps); Reaches(g, w, steps, Update(w, i, o.state, o.sent))
  {
    var r := w.replicas[i];
    if r.recovering || r.id !in r.voters {
      steps := [];
      assert w.replicas[i := r] == w.replicas && w.net + {} == w.net;
    } else {
      var c := Campaign(r);
      OneStep(g, w, StandUp(i));
      if QuorumSize(r.voters) <= 1 {
        var o := Elected(c.state, ps);
        var rest := ElectedIsRun(g, Update(w, i, c.state, c.sent), i, ps);
        AfterFirst(g, w, StandUp(i), i, c.state, c.sent, rest, o.state, o.sent);
        NobodyElse(r);
        assert {} + o.sent == o.sent;
        steps := [StandUp(i)] + rest;
      } else {
        steps := [StandUp(i)];
      }
    }
  }

  /** handle_vote_response. */
  lemma VoteReplyIsRun(g: Consensus.Group, w: World, m: Message, ps: seq<ReplicaId>) returns (steps: seq<Step>)
    requires m.VoteReply? && Enabled(g, w, Deliver(m)) && Peers(w.replicas[m.to], m.to, ps)
    ensures var o := AfterVoteReply(w.replicas[m.to], m, ps); Reaches(g, w, steps, Update(w, m.to, o.state, o.sent))
  {
    var i := m.to;
    var r, r1 := w.replicas[i], OnVoteReply(w.replicas[i], m);
    OneStep(g, w, Deliver(m));
    steps := [Deliver(m)];
    if r1.granted != r.granted && CanLead(r1) {
      var o := Elected(r1, ps);
      var rest := ElectedIsRun(g, Update(w, i, r1, {}), i, ps);
      AfterFirst(g, w, Deliver(m), i, r1, {}, rest, o.state, o.sent);
      assert {} + o.sent == o.sent;
      steps := steps + rest;
    }
  }

  /** propose. */
  lemma ProposeIsRun(g: Consensus.Group, w: World, i: ReplicaId, payload: LogEntry, ps: seq<ReplicaId>)
    returns (steps: seq<Step>)
    requires i in w.replicas && Peers(w.replicas[i], i, ps)
    ensures var o := AfterPropose(w.replicas[i], payload, ps); Reaches(g, w, steps, Update(w, i, o.state, o.sent))
  {
    var r := w.replicas[i];
    if !WritableLeader(r) {
      steps := [];
      assert w.replicas[i := r] == w.replicas && w.net + {} == w.net;
    } else {
      var r1 := Replica.Propose(r, payload);
      var o := AfterPropose(r, payload, ps);
      var rest := SpreadIsRun(g, Update(w, i, r1, {}), i, ps, QuorumSize(r.voters) <= 1);
      AfterFirst(g, w, Submit(i, payload), i, r1, {}, rest, o.state, o.sent);
      assert {} + o.sent == o.sent;
      steps := [Submit(i, payload)] + rest;
    }
  }

  /** No config record makes a voter that stays a member a learner. */
  lemma StaysVoter(e: LogEntry, peers: set<ReplicaId>, voters: set<ReplicaId>, i: ReplicaId)
    requires i in voters && i in PeersAfter(e, peers)
    ensures i in VotersAfter(e, peers, voters)
  {
  }

  /** apply_config_entry, on a replica that is not waiting for votes. */
  lemma ConfigIsRun(g: Consensus.Group, w: World, i: ReplicaId, e: LogEntry) returns (steps: seq<Step>)
    requires i in w.replicas && w.replicas[i].id == i
    requires var r := w.replicas[i];
             && r.applied < e.index <= r.commit && (r.role.Leader? ==> i in r.voters)
             && MemberList(g, PeersAfter(e, r.peers), VotersAfter(e, r.peers, r.voters))
             && (r.role.Candidate? && i in PeersAfter(e, r.peers) ==> r.granted <= VotersAfter(e, r.peers, r.voters))
    ensures Reaches(g, w, steps, Update(w, i, AfterConfig(w.replicas[i], e), {}))
  {
    var r := w.replicas[i];
    var peers, voters := PeersAfter(e, r.peers), VotersAfter(e, r.peers, r.voters);
    if r.role.Leader? && i in peers { StaysVoter(e, r.peers, r.voters, i); }
    var w1 := Update(w, i, Replica.Apply(r, e.index), {});
    OneStep(g, w1, Configure(i, peers, voters));
    AfterFirst(g, w, ApplyUpTo(i, e.index), i, Replica.Apply(r, e.index), {}, [Configure(i, peers, voters)],
               AfterConfig(r, e), {});
    steps := [ApplyUpTo(i, e.index)] + [Configure(i, peers, voters)];
  }

  /** The last chunk of a snapshot. */
  lemma InstallIsRun(g: Consensus.Group, w: World, m: Message, members: Members) returns (steps: seq<Step>)
    requires m.InstallSnapshot? && Enabled(g, w, Deliver(m)) && MemberList(g, Ids(members), VoterIds(members))
    ensures var r := w.replicas[m.to];
            Reaches(g, w, steps, Update(w, m.to, AfterInstall(r, m, members), OnInstallSnapshot(r, m).sent))
  {
    var i, r := m.to, w.replicas[m.to];
    var o := OnInstallSnapshot(r, m);
    OneStep(g, w, Deliver(m));
    steps := [Deliver(m)];
    if Overtaken(r, m) && members != [] {
      var s := Configure(i, Ids(members), VoterIds(members));
      var r1 := AfterInstall(r, m, members);
      OneStep(g, Update(w, i, o.state, o.sent), s);
      AfterFirst(g, w, Deliver(m), i, o.state, o.sent, [s], r1, {});
      assert o.sent + {} == o.sent;
      steps := steps + [s];
    }
  }

  /** handle_append_response. */
  lemma AppendReplyIsRun(g: Consensus.Group, w: World, m: Message) returns (steps: seq<Step>)
    requires m.AppendReply? && Enabled(g, w, Deliver(m))
    ensures Reaches(g, w, steps, Update(w, m.to, AfterAppendReply(w.replicas[m.to], m), {}))
  {
    var i := m.to;
    var r, r1 := w.replicas[i], OnAppendReply(w.replicas[i], m);
    OneStep(g, w, Deliver(m));
    steps := [Deliver(m)];
    var w1 := Update(w, i, r1, {});
    var r2 := AfterAppendReply(r, m);
    if r2 != r1 {
      OneStep(g, w1, Commit(i));
      AfterFirst(g, w, Deliver(m), i, r1, {}, [Commit(i)], r2, {});
      steps := steps + [Commit(i)];
    }
  }
}
