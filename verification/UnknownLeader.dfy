/** A replica that does not know its leader breaks agreement.

    The test for members comes before everything else in handle_append_entries, so a follower that has
    not yet learnt of a new member rejects it whatever its records are; the new leader takes each
    rejection for a mismatch and moves its probe back by one (raft_replication.cpp:125-136).  Once the
    follower learns of the member from an older leader, a message of 256 records that lies wholly below
    the point where the logs part is accepted, and the follower clamps the leader's commit index to the
    end of its own log.

    The run, without a crash: A, B, C, D and F are created together, N later with those five as voters.
    A leads term 1, adds N as a learner, and leaves a record of its own on F; B leads term 2 and promotes
    N; N applies its promotion and leads term 3.  F is cut off after term 1 and hears of N late, from a
    heartbeat of A's.  Whatever a replica learns to be committed it applies before it does anything else. */
module UnknownLeader {
  import opened Types
  import opened Replica
  import opened Consensus
  import opened Cluster
  import opened CoreRuns
  import opened ClusterReplication
  import opened Runs
  import Membership
  import Safety = ClusterSafety
  import L = RaftLog

  const A := ReplicaId(1, 1, 1)
  const B := ReplicaId(1, 1, 2)
  const C := ReplicaId(1, 1, 3)
  const D := ReplicaId(1, 1, 4)
  const F := ReplicaId(1, 1, 5)
  const N := ReplicaId(1, 1, 6)

  const FIVE := {A, B, C, D, F}
  const SIX := {A, B, C, D, F, N}

  const GROUP := Group(SIX, {FIVE, SIX})

  lemma Sizes()
    ensures |FIVE| == 5 && |SIX| == 6 && FIVE <= SIX
    ensures MemberList(GROUP, FIVE, FIVE) && MemberList(GROUP, SIX, FIVE) && MemberList(GROUP, SIX, SIX)
  {
  }

  lemma Overlaps()
    ensures Overlapping(GROUP)
  {
    Sizes();
    Membership.AdjacentConfigsOverlap(SIX, FIVE, SIX);
  }

  // ---------------------------------------------------------------- records

  function Simple(t: int, k: int, op: WriteOp): LogEntry {
    LogEntry(t, k, op, [], [], [], NoMember(), NoReplica(), [])
  }

  /** The k-th record of term 1: a no-op, writes, and the addition of N. */
  function Rec(k: int): LogEntry {
    if k == 256 then Simple(1, k, AddLearner).(configMember := PeerMember([], N, Endpoint([], 0)))
    else Simple(1, k, if k == 1 then Noop else Put)
  }

  function Common(n: nat): Log { seq(n, k => Rec(k + 1)) }

  const FORK := Simple(1, 257, Put)
  const PROMOTION := Simple(2, 258, PromoteVoter).(configReplica := N)

  /** The logs of the run: 256 records of term 1, with A's own record, with B's no-op, with N's
      promotion, with N's no-op. */
  datatype Logs = Logs(x: Log, z: Log, own: Log, full: Log, last: Log)

  function Written(): Logs {
    var x := Common(256);
    var own := x + [Simple(2, 257, Noop)];
    var full := own + [PROMOTION];
    Logs(x, x + [FORK], own, full, full + [Simple(3, 259, Noop)])
  }

  ghost predicate Fit(s: Logs) {
    && Tidy([]) && Tidy(s.x) && Tidy(s.z) && Tidy(s.own) && Tidy(s.full) && Tidy(s.last)
    && |s.x| == 256 && |s.z| == 257 && |s.own| == 257 && |s.full| == 258 && |s.last| == 259
    && s.z == s.x + [FORK] && s.own == s.x + [Simple(2, 257, Noop)] && s.full == s.own + [PROMOTION]
    && s.last == s.full + [Simple(3, 259, Noop)] && TermIn(s.x, 256) == 1
  }

  lemma CommonIsTidy(n: nat)
    ensures Tidy(Common(n)) && |Common(n)| == n && (n > 0 ==> TermIn(Common(n), n) == 1)
  {
  }

  lemma OneMore(l: Log, e: LogEntry)
    requires Tidy(l) && e.index == |l| + 1
    ensures Tidy(l + [e])
  {
  }

  lemma WrittenFits()
    ensures Fit(Written())
  {
    var s := Written();
    CommonIsTidy(0);
    CommonIsTidy(256);
    assert Common(0) == [];
    OneMore(s.x, FORK);
    OneMore(s.x, Simple(2, 257, Noop));
    OneMore(s.own, PROMOTION);
    OneMore(s.full, Simple(3, 259, Noop));
  }

  // ---------------------------------------------------------------- where everybody stands

  function Start(): World {
    World(map i | i in SIX :: Blank(i, FIVE), {})
  }

  lemma StartIsInitial()
    ensures Safety.Start(GROUP, Start())
  {
    Sizes();
    Overlaps();
  }

  function Five(l: Log, commit: int, applied: int): Tale { Tale(l, commit, applied, FIVE, FIVE) }
  function Joining(l: Log, commit: int, applied: int): Tale { Tale(l, commit, applied, SIX, FIVE) }
  function Six(l: Log, commit: int, applied: int): Tale { Tale(l, commit, applied, SIX, SIX) }

  // ---------------------------------------------------------------- term 1

  ghost predicate Opening(w: World) {
    && Behind(w, A, 0, Five([], 0, 0)) && Behind(w, B, 0, Five([], 0, 0)) && Behind(w, C, 0, Five([], 0, 0))
    && Behind(w, D, 0, Five([], 0, 0)) && Behind(w, F, 0, Five([], 0, 0)) && Behind(w, N, 0, Five([], 0, 0))
    && w.replicas[A].term == 0
  }

  lemma FirstVotes(w: World)
    requires Opening(w) && Tidy([])
    ensures Willing(w, w.replicas[A], B) && Willing(w, w.replicas[A], C)
  {
    WillVote(w, A, B, 0, Five([], 0, 0), Five([], 0, 0));
    WillVote(w, A, C, 0, Five([], 0, 0), Five([], 0, 0));
  }

  lemma FirstFollowers(w: World, w': World)
    requires Opening(w) && Apart(w, w', {A, B, C}) && HaveVoted(w, w', w.replicas[A], [B, C])
    ensures Behind(w', B, 1, Five([], 0, 0)) && Behind(w', C, 1, Five([], 0, 0)) && Behind(w', D, 1, Five([], 0, 0))
    ensures Behind(w', F, 1, Five([], 0, 0)) && Behind(w', N, 1, Five([], 0, 0))
  {
    HasVoted(w, w', w.replicas[A], [B, C], B, 0, Five([], 0, 0));
    HasVoted(w, w', w.replicas[A], [B, C], C, 0, Five([], 0, 0));
  }

  lemma FirstReached(r: State)
    requires r.id == A && StartsOver(r, Five([], 0, 0))
    ensures NextIndex(r, B) == 1 && MatchIndex(r, B) == 0 && NextIndex(r, C) == 1 && MatchIndex(r, C) == 0
    ensures NextIndex(r, D) == 1 && MatchIndex(r, D) == 0 && NextIndex(r, F) == 1 && MatchIndex(r, F) == 0
  {
  }

  lemma FirstRecord()
    ensures Newly(Five([], 0, 0), 1) == Five(Common(1), 0, 0)
  {
    assert Newly(Five([], 0, 0), 1).log == Common(1);
  }

  /** With an empty log x. */
  lemma FirstWin(w: World, x: Tale) returns (steps: seq<Step>, w': World)
    requires Behind(w, A, 0, x) && w.replicas[A].term == 0 && Tidy(x.log) && x.voters == FIVE
    requires Willing(w, w.replicas[A], B) && Willing(w, w.replicas[A], C)
    ensures Gets(GROUP, w, steps, w', w'.replicas) && Ahead(w', A, 1, Newly(x, 1)) && StartsOver(w'.replicas[A], x)
    ensures Apart(w, w', {A, B, C}) && HaveVoted(w, w', w.replicas[A], [B, C])
  {
    Sizes();
    steps, w' := ElectedByTwo(GROUP, w, A, 0, x, B, C);
  }

  /** A is elected by B and C. */
  lemma FirstElection(w: World) returns (steps: seq<Step>, w': World)
    requires Opening(w) && Tidy([])
    ensures Gets(GROUP, w, steps, w', w'.replicas) && Ahead(w', A, 1, Five(Common(1), 0, 0)) && Waiting(w')
    ensures Reached(w', A, F, 1, 0) && Behind(w', F, 1, Five([], 0, 0))
  {
    FirstVotes(w);
    steps, w' := FirstWin(w, Five([], 0, 0));
    FirstReached(w'.replicas[A]);
    FirstRecord();
    FirstFollowers(w, w');
  }

  lemma {:induction false} Submits(w: World, n: nat, k: nat) returns (steps: seq<Step>, w': World)
    requires n <= k && Ahead(w, A, 1, Five(Common(n), 0, 0))
    ensures A in w.replicas
    ensures Gets(GROUP, w, steps, w', w.replicas[A := w.replicas[A].(log := L.View(Common(k), 0, 0))])
    decreases k - n
  {
    if n == k {
      steps, w' := [], w;
      assert w.replicas[A := w.replicas[A]] == w.replicas;
    } else {
      CommonIsTidy(n);
      assert Common(n) + [Rec(n + 1)] == Common(n + 1);
      var one, w1 := Submission(GROUP, w, A, 1, Five(Common(n), 0, 0), Rec(n + 1));
      var rest;
      rest, w' := Submits(w1, n + 1, k);
      Then(GROUP, w, one, w1, rest, w', w1.replicas, w'.replicas);
      steps := one + rest;
    }
  }

  /** A writes 256 records and one more. */
  lemma Writes(w: World, s: Logs) returns (steps: seq<Step>, w': World)
    requires Ahead(w, A, 1, Five(Common(1), 0, 0)) && s == Written() && Fit(s)
    ensures A in w.replicas && Gets(GROUP, w, steps, w', w.replicas[A := w.replicas[A].(log := L.View(s.z, 0, 0))])
  {
    var many, w1 := Submits(w, 1, 256);
    var one;
    one, w' := Submission(GROUP, w1, A, 1, Five(s.x, 0, 0), FORK);
    Then(GROUP, w, many, w1, one, w', w1.replicas, w'.replicas);
    steps := many + one;
  }

  /** All that A has written reaches F, in two messages. */
  lemma FillsF(w: World, s: Logs) returns (steps: seq<Step>, w': World)
    requires Fit(s) && Ahead(w, A, 1, Five(s.z, 0, 0)) && Reached(w, A, F, 1, 0) && Behind(w, F, 1, Five([], 0, 0))
    ensures Gets(GROUP, w, steps, w', w'.replicas) && Apart(w, w', {A, F}) && Ahead(w', A, 1, Five(s.z, 0, 0))
    ensures Reached(w', A, F, 258, 257) && Behind(w', F, 1, Five(s.z, 0, 0))
    ensures SameProgress(w.replicas[A], w'.replicas[A], F)
  {
    assert s.z[..256] == s.x && s.z[..257] == s.z;
    var a, w1 := Fills(GROUP, w, A, F, 1, Five(s.z, 0, 0), Five([], 0, 0), 256);
    var b;
    b, w' := Fills(GROUP, w1, A, F, 1, Five(s.z, 0, 0), Five(s.x, 0, 0), 257);
    Then(GROUP, w, a, w1, b, w', w1.replicas, w'.replicas);
    steps := a + b;
  }

  /** The first 256 records reach p. */
  lemma FillsOne(w: World, s: Logs, p: ReplicaId, x: Tale) returns (steps: seq<Step>, w': World)
    requires Fit(s) && x.log == s.z && (x.commit == 0 || x.commit == 256) && p in FIVE - {A} && p in x.peers
    requires Ahead(w, A, 1, x) && Reached(w, A, p, 1, 0) && Behind(w, p, 1, Five([], 0, 0))
    ensures Gets(GROUP, w, steps, w', w'.replicas) && Apart(w, w', {A, p}) && Ahead(w', A, 1, x)
    ensures Reached(w', A, p, 257, 256) && Behind(w', p, 1, Five(s.x, x.commit, 0)) && w'.replicas[p].term == 1
    ensures SameProgress(w.replicas[A], w'.replicas[A], p)
  {
    assert s.z[..256] == s.x;
    steps, w' := Fills(GROUP, w, A, p, 1, x, Five([], 0, 0), 256);
  }

  lemma FillsTwo(w: World, s: Logs) returns (steps: seq<Step>, w': World)
    requires Fit(s) && Ahead(w, A, 1, Five(s.z, 0, 0)) && Reached(w, A, C, 1, 0) && Reached(w, A, D, 1, 0)
    requires Behind(w, C, 1, Five([], 0, 0)) && Behind(w, D, 1, Five([], 0, 0))
    ensures Gets(GROUP, w, steps, w', w'.replicas) && Apart(w, w', {A, C, D}) && Ahead(w', A, 1, Five(s.z, 0, 0))
    ensures Reached(w', A, C, 257, 256) && Reached(w', A, D, 257, 256)
    ensures Behind(w', C, 1, Five(s.x, 0, 0)) && Behind(w', D, 1, Five(s.x, 0, 0))
    ensures NextIndex(w'.replicas[A], B) == NextIndex(w.replicas[A], B)
    ensures MatchIndex(w'.replicas[A], B) == MatchIndex(w.replicas[A], B)
    ensures NextIndex(w'.replicas[A], F) == NextIndex(w.replicas[A], F)
    ensures MatchIndex(w'.replicas[A], F) == MatchIndex(w.replicas[A], F)
  {
    var a, w1 := FillsOne(w, s, C, Five(s.z, 0, 0));
    var b;
    b, w' := FillsOne(w1, s, D, Five(s.z, 0, 0));
    Then(GROUP, w, a, w1, b, w', w1.replicas, w'.replicas);
    steps := a + b;
  }

  /** A may commit 256 but not its own last record. */
  lemma FirstCommitRule(r: State, s: Logs)
    requires Fit(s) && Heads(r, A, 1, Five(s.z, 0, 0)) && MatchIndex(r, B) == 0 && MatchIndex(r, C) == 256
    requires MatchIndex(r, D) == 256 && MatchIndex(r, F) == 257
    ensures CommitRule(r, 257) == 256
  {
    Sizes();
    assert Holders(r, 257) == {A, F} && Holders(r, 256) == {A, C, D, F};
    assert TermIn(s.z, 256) == 1;
  }

  /** A commits and applies the addition of N. */
  lemma FirstCommit(w: World, s: Logs) returns (steps: seq<Step>, w': World)
    requires Fit(s) && Ahead(w, A, 1, Five(s.z, 0, 0)) && Reached(w, A, B, 1, 0) && Reached(w, A, C, 257, 256)
    requires Reached(w, A, D, 257, 256) && Reached(w, A, F, 258, 257)
    ensures Gets(GROUP, w, steps, w', w'.replicas) && Apart(w, w', {A}) && Ahead(w', A, 1, Joining(s.z, 256, 256))
    ensures Reached(w', A, B, 1, 0) && Reached(w', A, F, 258, 257)
  {
    Sizes();
    FirstCommitRule(w.replicas[A], s);
    var a, w1 := Commitment(GROUP, w, A, 1, Five(s.z, 0, 0), 256);
    var b;
    b, w' := Change(GROUP, w1, A, Five(s.z, 256, 0), SIX, FIVE);
    Then(GROUP, w, a, w1, b, w', w1.replicas, w'.replicas);
    steps := a + b;
  }

  /** A heartbeat of A's that F receives late. */
  function Heartbeat(): Message { AppendEntries(A, F, 1, 257, 1, [], 256, 0) }

  lemma HeartbeatIs(r: State, s: Logs)
    requires Fit(s) && Heads(r, A, 1, Joining(s.z, 256, 256)) && NextIndex(r, F) == 258
    ensures Sent(r, F) == Heartbeat()
  {
  }

  /** The addition of N reaches B, which applies it. */
  lemma TellsB(w: World, s: Logs) returns (steps: seq<Step>, w': World)
    requires Fit(s) && Ahead(w, A, 1, Joining(s.z, 256, 256)) && Reached(w, A, B, 1, 0)
    requires Behind(w, B, 1, Five([], 0, 0))
    ensures Gets(GROUP, w, steps, w', w'.replicas) && Apart(w, w', {A, B})
    ensures Behind(w', B, 1, Joining(s.x, 256, 256)) && w'.replicas[B].term == 1
  {
    Sizes();
    var a, w1 := FillsOne(w, s, B, Joining(s.z, 256, 256));
    var b;
    b, w' := Change(GROUP, w1, B, Five(s.x, 256, 0), SIX, FIVE);
    Then(GROUP, w, a, w1, b, w', w1.replicas, w'.replicas);
    steps := a + b;
  }

  lemma SendsHeartbeat(w: World, s: Logs) returns (steps: seq<Step>, w': World)
    requires Fit(s) && Ahead(w, A, 1, Joining(s.z, 256, 256)) && Reached(w, A, F, 258, 257)
    ensures Gets(GROUP, w, steps, w', w.replicas) && Heartbeat() in w'.net
  {
    HeartbeatIs(w.replicas[A], s);
    w' := Sends(GROUP, w, A, F);
    steps := [Send(A, F)];
  }

  /** After term 1. */
  ghost predicate Scene1(w: World, s: Logs) {
    && Behind(w, B, 1, Joining(s.x, 256, 256)) && w.replicas[B].term == 1
    && Behind(w, C, 1, Five(s.x, 0, 0)) && Behind(w, D, 1, Five(s.x, 0, 0))
    && Behind(w, F, 1, Five(s.z, 0, 0)) && Behind(w, N, 1, Five([], 0, 0)) && Heartbeat() in w.net
  }

  /** Nobody but A and F has been written to. */
  ghost predicate Waiting(w: World) {
    && Behind(w, B, 1, Five([], 0, 0)) && Behind(w, C, 1, Five([], 0, 0)) && Behind(w, D, 1, Five([], 0, 0))
    && Behind(w, N, 1, Five([], 0, 0)) && Reached(w, A, B, 1, 0) && Reached(w, A, C, 1, 0) && Reached(w, A, D, 1, 0)
  }

  lemma StillWaiting(w: World, w': World)
    requires Waiting(w) && Apart(w, w', {A, F}) && A in w'.replicas && SameProgress(w.replicas[A], w'.replicas[A], F)
    ensures Waiting(w')
  {
  }

  lemma WritesAndFills(w: World, s: Logs) returns (steps: seq<Step>, w': World)
    requires Ahead(w, A, 1, Five(Common(1), 0, 0)) && s == Written() && Fit(s)
    requires Reached(w, A, F, 1, 0) && Behind(w, F, 1, Five([], 0, 0))
    ensures Gets(GROUP, w, steps, w', w'.replicas) && Apart(w, w', {A, F}) && Ahead(w', A, 1, Five(s.z, 0, 0))
    ensures Reached(w', A, F, 258, 257) && Behind(w', F, 1, Five(s.z, 0, 0))
    ensures SameProgress(w.replicas[A], w'.replicas[A], F)
  {
    var a, w1 := Writes(w, s);
    var b;
    b, w' := FillsF(w1, s);
    Then(GROUP, w, a, w1, b, w', w1.replicas, w'.replicas);
    steps := a + b;
  }

  lemma TermOneFirst(w: World, s: Logs) returns (steps: seq<Step>, w': World)
    requires Opening(w) && s == Written() && Fit(s)
    ensures Gets(GROUP, w, steps, w', w'.replicas) && Ahead(w', A, 1, Five(s.z, 0, 0)) && Waiting(w')
    ensures Reached(w', A, F, 258, 257) && Behind(w', F, 1, Five(s.z, 0, 0))
  {
    var a, w1 := FirstElection(w);
    var b;
    b, w' := WritesAndFills(w1, s);
    Then(GROUP, w, a, w1, b, w', w1.replicas, w'.replicas);
    StillWaiting(w1, w');
    steps := a + b;
  }

  lemma FillsAndCommits(w: World, s: Logs) returns (steps: seq<Step>, w': World)
    requires Fit(s) && Ahead(w, A, 1, Five(s.z, 0, 0)) && Waiting(w) && Reached(w, A, F, 258, 257)
    ensures Gets(GROUP, w, steps, w', w'.replicas) && Apart(w, w', {A, C, D}) && Ahead(w', A, 1, Joining(s.z, 256, 256))
    ensures Behind(w', C, 1, Five(s.x, 0, 0)) && Behind(w', D, 1, Five(s.x, 0, 0))
    ensures Reached(w', A, B, 1, 0) && Reached(w', A, F, 258, 257)
  {
    var a, w1 := FillsTwo(w, s);
    var b;
    b, w' := FirstCommit(w1, s);
    Then(GROUP, w, a, w1, b, w', w1.replicas, w'.replicas);
    steps := a + b;
  }

  lemma TermOneSecond(w: World, s: Logs) returns (steps: seq<Step>, w': World)
    requires Fit(s) && Ahead(w, A, 1, Five(s.z, 0, 0)) && Waiting(w) && Reached(w, A, F, 258, 257)
    requires Behind(w, F, 1, Five(s.z, 0, 0))
    ensures Gets(GROUP, w, steps, w', w'.replicas) && Scene1(w', s)
  {
    var a, w1 := FillsAndCommits(w, s);
    var b, w2 := SendsHeartbeat(w1, s);
    Then(GROUP, w, a, w1, b, w2, w1.replicas, w2.replicas);
    var c;
    c, w' := TellsB(w2, s);
    Then(GROUP, w, a + b, w2, c, w', w2.replicas, w'.replicas);
    steps := a + b + c;
  }

  lemma TermOne(w: World, s: Logs) returns (steps: seq<Step>, w': World)
    requires Opening(w) && s == Written() && Fit(s)
    ensures Gets(GROUP, w, steps, w', w'.replicas) && Scene1(w', s)
  {
    var a, w1 := TermOneFirst(w, s);
    var b;
    b, w' := TermOneSecond(w1, s);
    Then(GROUP, w, a, w1, b, w', w1.replicas, w'.replicas);
    steps := a + b;
  }

  // ---------------------------------------------------------------- term 2

  lemma SecondVotes(w: World, s: Logs)
    requires Scene1(w, s) && Fit(s)
    ensures Willing(w, w.replicas[B], C) && Willing(w, w.replicas[B], D)
  {
    WillVote(w, B, C, 1, Joining(s.x, 256, 256), Five(s.x, 0, 0));
    WillVote(w, B, D, 1, Joining(s.x, 256, 256), Five(s.x, 0, 0));
  }

  lemma SecondWin(w: World, s: Logs) returns (steps: seq<Step>, w': World)
    requires Scene1(w, s) && Fit(s)
    ensures Gets(GROUP, w, steps, w', w'.replicas) && Ahead(w', B, 2, Newly(Joining(s.x, 256, 256), 2))
    ensures StartsOver(w'.replicas[B], Joining(s.x, 256, 256))
    ensures Apart(w, w', {B, C, D}) && HaveVoted(w, w', w.replicas[B], [C, D])
  {
    Sizes();
    SecondVotes(w, s);
    steps, w' := ElectedByTwo(GROUP, w, B, 1, Joining(s.x, 256, 256), C, D);
  }

  lemma SecondFollowers(w: World, w': World, s: Logs)
    requires Scene1(w, s) && Apart(w, w', {B, C, D}) && HaveVoted(w, w', w.replicas[B], [C, D])
    ensures Behind(w', C, 2, Five(s.x, 0, 0)) && Behind(w', D, 2, Five(s.x, 0, 0))
    ensures Behind(w', F, 1, Five(s.z, 0, 0)) && Behind(w', N, 2, Five([], 0, 0))
  {
    HasVoted(w, w', w.replicas[B], [C, D], C, 1, Five(s.x, 0, 0));
    HasVoted(w, w', w.replicas[B], [C, D], D, 1, Five(s.x, 0, 0));
  }

  lemma SecondReached(w: World, s: Logs)
    requires Fit(s) && B in w.replicas && w.replicas[B].id == B
    requires StartsOver(w.replicas[B], Joining(s.x, 256, 256))
    ensures Reached(w, B, C, 257, 0) && Reached(w, B, D, 257, 0) && Reached(w, B, N, 257, 0)
  {
  }

  /** B is elected by C and D. */
  lemma SecondElection(w: World, s: Logs) returns (steps: seq<Step>, w': World)
    requires Scene1(w, s) && Fit(s)
    ensures Gets(GROUP, w, steps, w', w'.replicas) && Ahead(w', B, 2, Joining(s.own, 256, 256))
    ensures Reached(w', B, C, 257, 0) && Reached(w', B, D, 257, 0) && Reached(w', B, N, 257, 0)
    ensures Behind(w', C, 2, Five(s.x, 0, 0)) && Behind(w', D, 2, Five(s.x, 0, 0))
    ensures Behind(w', F, 1, Five(s.z, 0, 0)) && Behind(w', N, 2, Five([], 0, 0)) && Heartbeat() in w'.net
  {
    steps, w' := SecondWin(w, s);
    SecondReached(w', s);
    assert Newly(Joining(s.x, 256, 256), 2).log == s.own;
    SecondFollowers(w, w', s);
  }

  /** B finds that N has nothing, and sends it 256 records. */
  lemma Greets(w: World, s: Logs) returns (steps: seq<Step>, w': World)
    requires Fit(s) && Ahead(w, B, 2, Joining(s.own, 256, 256)) && Reached(w, B, N, 257, 0)
    requires Behind(w, N, 2, Five([], 0, 0))
    ensures Gets(GROUP, w, steps, w', w'.replicas) && Apart(w, w', {B, N})
    ensures Ahead(w', B, 2, Joining(s.own, 256, 256)) && Reached(w', B, N, 257, 256)
    ensures Behind(w', N, 2, Five(s.x, 256, 0)) && SameProgress(w.replicas[B], w'.replicas[B], N)
  {
    assert s.own[..256] == s.x && TermIn(s.own, 256) == 1;
    var a, w1 := Probe(GROUP, w, B, N, 2, Joining(s.own, 256, 256), Five([], 0, 0));
    var b;
    b, w' := Fills(GROUP, w1, B, N, 2, Joining(s.own, 256, 256), Five([], 0, 0), 256);
    Then(GROUP, w, a, w1, b, w', w1.replicas, w'.replicas);
    steps := a + b;
  }

  /** N applies its own addition. */
  lemma Joins(w: World, s: Logs) returns (steps: seq<Step>, w': World)
    requires Fit(s) && Ahead(w, B, 2, Joining(s.own, 256, 256)) && Reached(w, B, N, 257, 0)
    requires Behind(w, N, 2, Five([], 0, 0))
    ensures Gets(GROUP, w, steps, w', w'.replicas) && Apart(w, w', {B, N})
    ensures Ahead(w', B, 2, Joining(s.own, 256, 256)) && Reached(w', B, N, 257, 256)
    ensures Behind(w', N, 2, Joining(s.x, 256, 256)) && SameProgress(w.replicas[B], w'.replicas[B], N)
  {
    Sizes();
    var a, w1 := Greets(w, s);
    var b;
    b, w' := Change(GROUP, w1, N, Five(s.x, 256, 0), SIX, FIVE);
    Then(GROUP, w, a, w1, b, w', w1.replicas, w'.replicas);
    steps := a + b;
  }

  /** N gets the rest. */
  lemma CatchesUp(w: World, s: Logs) returns (steps: seq<Step>, w': World)
    requires Fit(s) && Ahead(w, B, 2, Joining(s.own, 256, 256)) && Reached(w, B, N, 257, 0)
    requires Behind(w, N, 2, Five([], 0, 0))
    ensures Gets(GROUP, w, steps, w', w'.replicas) && Apart(w, w', {B, N})
    ensures Ahead(w', B, 2, Joining(s.own, 256, 256)) && Reached(w', B, N, 258, 257)
    ensures Behind(w', N, 2, Joining(s.own, 256, 256)) && SameProgress(w.replicas[B], w'.replicas[B], N)
  {
    assert s.own[..257] == s.own;
    var a, w1 := Joins(w, s);
    var b;
    b, w' := Fills(GROUP, w1, B, N, 2, Joining(s.own, 256, 256), Joining(s.x, 256, 256), 257);
    Then(GROUP, w, a, w1, b, w', w1.replicas, w'.replicas);
    steps := a + b;
  }

  lemma Promotes(w: World, s: Logs) returns (steps: seq<Step>, w': World)
    requires Fit(s) && Ahead(w, B, 2, Joining(s.own, 256, 256))
    ensures Gets(GROUP, w, steps, w', w'.replicas) && Apart(w, w', {B}) && Ahead(w', B, 2, Joining(s.full, 256, 256))
    ensures forall p :: NextIndex(w'.replicas[B], p) == NextIndex(w.replicas[B], p)
    ensures forall p :: MatchIndex(w'.replicas[B], p) == MatchIndex(w.replicas[B], p)
  {
    steps, w' := Submission(GROUP, w, B, 2, Joining(s.own, 256, 256), PROMOTION);
  }

  /** The promotion reaches p. */
  lemma SpreadsTo(w: World, s: Logs, p: ReplicaId, next: int, matched: int, y: Tale)
    returns (steps: seq<Step>, w': World)
    requires Fit(s) && Ahead(w, B, 2, Joining(s.full, 256, 256)) && Reached(w, B, p, next, matched)
    requires Behind(w, p, 2, y)
    requires p in SIX - {B} && B in y.peers && Tidy(y.log) && Agree(y.log, s.full, |y.log|) && next == |y.log| + 1
    requires 200 < next <= 259 && matched < next && |y.log| <= 258
    ensures Gets(GROUP, w, steps, w', w'.replicas) && Apart(w, w', {B, p})
    ensures Ahead(w', B, 2, Joining(s.full, 256, 256)) && Reached(w', B, p, 259, 258)
    ensures Behind(w', p, 2, Told(y, s.full, 256)) && w'.replicas[p].term == 2
    ensures SameProgress(w.replicas[B], w'.replicas[B], p)
  {
    assert s.full[..258] == s.full;
    steps, w' := Fills(GROUP, w, B, p, 2, Joining(s.full, 256, 256), y, 258);
  }

  /** C or D gets it, and applies the addition of N that is committed. */
  lemma SpreadsAndTells(w: World, s: Logs, p: ReplicaId) returns (steps: seq<Step>, w': World)
    requires Fit(s) && Ahead(w, B, 2, Joining(s.full, 256, 256)) && Reached(w, B, p, 257, 0) && p in FIVE - {B}
    requires Behind(w, p, 2, Five(s.x, 0, 0))
    ensures Gets(GROUP, w, steps, w', w'.replicas) && Apart(w, w', {B, p})
    ensures Ahead(w', B, 2, Joining(s.full, 256, 256)) && Reached(w', B, p, 259, 258)
    ensures Behind(w', p, 2, Joining(s.full, 256, 256)) && SameProgress(w.replicas[B], w'.replicas[B], p)
  {
    Sizes();
    var a, w1 := SpreadsTo(w, s, p, 257, 0, Five(s.x, 0, 0));
    var b;
    b, w' := Change(GROUP, w1, p, Five(s.full, 256, 0), SIX, FIVE);
    Then(GROUP, w, a, w1, b, w', w1.replicas, w'.replicas);
    steps := a + b;
  }

  lemma SpreadsToTwo(w: World, s: Logs) returns (steps: seq<Step>, w': World)
    requires Fit(s) && Ahead(w, B, 2, Joining(s.full, 256, 256))
    requires Reached(w, B, C, 257, 0) && Reached(w, B, D, 257, 0) && Reached(w, B, N, 258, 257)
    requires Behind(w, C, 2, Five(s.x, 0, 0)) && Behind(w, D, 2, Five(s.x, 0, 0))
    ensures Gets(GROUP, w, steps, w', w'.replicas) && Apart(w, w', {B, C, D})
    ensures Ahead(w', B, 2, Joining(s.full, 256, 256))
    ensures Reached(w', B, C, 259, 258) && Reached(w', B, D, 259, 258) && Reached(w', B, N, 258, 257)
    ensures Behind(w', C, 2, Joining(s.full, 256, 256)) && Behind(w', D, 2, Joining(s.full, 256, 256))
  {
    var a, w1 := SpreadsAndTells(w, s, C);
    var b;
    b, w' := SpreadsAndTells(w1, s, D);
    Then(GROUP, w, a, w1, b, w', w1.replicas, w'.replicas);
    steps := a + b;
  }

  lemma SecondCommitRule(r: State, s: Logs)
    requires Fit(s) && Heads(r, B, 2, Joining(s.full, 256, 256)) && MatchIndex(r, C) == 258 && MatchIndex(r, D) == 258
    ensures CommitRule(r, 258) == 258
  {
    Sizes();
    Membership.SubsetSize({B, C, D}, Holders(r, 258));
  }

  /** C, D and N have everything. */
  ghost predicate AllReached(w: World) {
    Reached(w, B, C, 259, 258) && Reached(w, B, D, 259, 258) && Reached(w, B, N, 259, 258)
  }

  /** B commits and applies the promotion. */
  lemma SecondCommit(w: World, s: Logs) returns (steps: seq<Step>, w': World)
    requires Fit(s) && Ahead(w, B, 2, Joining(s.full, 256, 256)) && AllReached(w)
    ensures Gets(GROUP, w, steps, w', w'.replicas) && Apart(w, w', {B}) && Ahead(w', B, 2, Six(s.full, 258, 258))
    ensures AllReached(w')
  {
    Sizes();
    SecondCommitRule(w.replicas[B], s);
    var a, w1 := Commitment(GROUP, w, B, 2, Joining(s.full, 256, 256), 258);
    var b;
    b, w' := Change(GROUP, w1, B, Joining(s.full, 258, 256), SIX, SIX);
    Then(GROUP, w, a, w1, b, w', w1.replicas, w'.replicas);
    steps := a + b;
  }

  /** C, D or N hears of the commit and applies the promotion. */
  lemma Hears(w: World, s: Logs, p: ReplicaId) returns (steps: seq<Step>, w': World)
    requires Fit(s) && Ahead(w, B, 2, Six(s.full, 258, 258)) && Reached(w, B, p, 259, 258) && p in SIX - {B}
    requires Behind(w, p, 2, Joining(s.full, 256, 256))
    ensures Gets(GROUP, w, steps, w', w'.replicas) && Apart(w, w', {B, p}) && Ahead(w', B, 2, Six(s.full, 258, 258))
    ensures Behind(w', p, 2, Six(s.full, 258, 258)) && w'.replicas[p].term == 2
    ensures SameProgress(w.replicas[B], w'.replicas[B], p)
  {
    Sizes();
    assert s.full[..258] == s.full;
    var a, w1 := Fills(GROUP, w, B, p, 2, Six(s.full, 258, 258), Joining(s.full, 256, 256), 258);
    var b;
    b, w' := Change(GROUP, w1, p, Joining(s.full, 258, 256), SIX, SIX);
    Then(GROUP, w, a, w1, b, w', w1.replicas, w'.replicas);
    steps := a + b;
  }

  lemma BothHear(w: World, s: Logs) returns (steps: seq<Step>, w': World)
    requires Fit(s) && Ahead(w, B, 2, Six(s.full, 258, 258)) && AllReached(w)
    requires Behind(w, C, 2, Joining(s.full, 256, 256)) && Behind(w, D, 2, Joining(s.full, 256, 256))
    ensures Gets(GROUP, w, steps, w', w'.replicas) && Apart(w, w', {B, C, D}) && Ahead(w', B, 2, Six(s.full, 258, 258))
    ensures Behind(w', C, 2, Six(s.full, 258, 258)) && Behind(w', D, 2, Six(s.full, 258, 258))
    ensures Reached(w', B, N, 259, 258)
  {
    var a, w1 := Hears(w, s, C);
    var b;
    b, w' := Hears(w1, s, D);
    Then(GROUP, w, a, w1, b, w', w1.replicas, w'.replicas);
    steps := a + b;
  }

  lemma AllHear(w: World, s: Logs) returns (steps: seq<Step>, w': World)
    requires Fit(s) && Ahead(w, B, 2, Six(s.full, 258, 258)) && AllReached(w)
    requires Behind(w, C, 2, Joining(s.full, 256, 256)) && Behind(w, D, 2, Joining(s.full, 256, 256))
    requires Behind(w, N, 2, Joining(s.full, 256, 256))
    ensures Gets(GROUP, w, steps, w', w'.replicas) && Apart(w, w', {B, C, D, N})
    ensures Ahead(w', B, 2, Six(s.full, 258, 258)) && Behind(w', C, 2, Six(s.full, 258, 258))
    ensures Behind(w', D, 2, Six(s.full, 258, 258)) && Behind(w', N, 2, Six(s.full, 258, 258))
    ensures w'.replicas[N].term == 2
  {
    var a, w1 := BothHear(w, s);
    var b;
    b, w' := Hears(w1, s, N);
    Then(GROUP, w, a, w1, b, w', w1.replicas, w'.replicas);
    steps := a + b;
  }

  /** N catches up, and the promotion is written. */
  lemma TermTwoFirst(w: World, s: Logs) returns (steps: seq<Step>, w': World)
    requires Fit(s) && Ahead(w, B, 2, Joining(s.own, 256, 256)) && Behind(w, N, 2, Five([], 0, 0))
    requires Reached(w, B, C, 257, 0) && Reached(w, B, D, 257, 0) && Reached(w, B, N, 257, 0)
    ensures Gets(GROUP, w, steps, w', w'.replicas) && Apart(w, w', {B, N}) && Ahead(w', B, 2, Joining(s.full, 256, 256))
    ensures Reached(w', B, C, 257, 0) && Reached(w', B, D, 257, 0) && Reached(w', B, N, 258, 257)
    ensures Behind(w', N, 2, Joining(s.own, 256, 256))
  {
    var a, w1 := CatchesUp(w, s);
    var b;
    b, w' := Promotes(w1, s);
    Then(GROUP, w, a, w1, b, w', w1.replicas, w'.replicas);
    steps := a + b;
  }

  /** The promotion is on C, D and N, and committed. */
  lemma TermTwoSecond(w: World, s: Logs) returns (steps: seq<Step>, w': World)
    requires Fit(s) && Ahead(w, B, 2, Joining(s.full, 256, 256))
    requires Reached(w, B, C, 257, 0) && Reached(w, B, D, 257, 0) && Reached(w, B, N, 258, 257)
    requires Behind(w, C, 2, Five(s.x, 0, 0)) && Behind(w, D, 2, Five(s.x, 0, 0))
    requires Behind(w, N, 2, Joining(s.own, 256, 256))
    ensures Gets(GROUP, w, steps, w', w'.replicas) && Apart(w, w', {B, C, D, N})
    ensures Ahead(w', B, 2, Six(s.full, 258, 258)) && AllReached(w')
    ensures Behind(w', C, 2, Joining(s.full, 256, 256)) && Behind(w', D, 2, Joining(s.full, 256, 256))
    ensures Behind(w', N, 2, Joining(s.full, 256, 256))
  {
    var a, w1 := SpreadsToTwo(w, s);
    var b, w2 := SpreadsTo(w1, s, N, 258, 257, Joining(s.own, 256, 256));
    Then(GROUP, w, a, w1, b, w2, w1.replicas, w2.replicas);
    var c;
    c, w' := SecondCommit(w2, s);
    Then(GROUP, w, a + b, w2, c, w', w2.replicas, w'.replicas);
    steps := a + b + c;
  }

  /** After term 2. */
  ghost predicate Scene2(w: World, s: Logs) {
    && Ahead(w, B, 2, Six(s.full, 258, 258)) && Behind(w, C, 2, Six(s.full, 258, 258))
    && Behind(w, D, 2, Six(s.full, 258, 258)) && Behind(w, N, 2, Six(s.full, 258, 258)) && w.replicas[N].term == 2
    && Behind(w, F, 1, Five(s.z, 0, 0)) && Heartbeat() in w.net
  }

  lemma TermTwoThird(w: World, s: Logs) returns (steps: seq<Step>, w': World)
    requires Fit(s) && Ahead(w, B, 2, Joining(s.full, 256, 256)) && Behind(w, F, 1, Five(s.z, 0, 0))
    requires Heartbeat() in w.net
    requires Reached(w, B, C, 257, 0) && Reached(w, B, D, 257, 0) && Reached(w, B, N, 258, 257)
    requires Behind(w, C, 2, Five(s.x, 0, 0)) && Behind(w, D, 2, Five(s.x, 0, 0))
    requires Behind(w, N, 2, Joining(s.own, 256, 256))
    ensures Gets(GROUP, w, steps, w', w'.replicas) && Scene2(w', s)
  {
    var a, w1 := TermTwoSecond(w, s);
    var b;
    b, w' := AllHear(w1, s);
    Then(GROUP, w, a, w1, b, w', w1.replicas, w'.replicas);
    steps := a + b;
  }

  lemma TermTwo(w: World, s: Logs) returns (steps: seq<Step>, w': World)
    requires Fit(s) && Scene1(w, s)
    ensures Gets(GROUP, w, steps, w', w'.replicas) && Scene2(w', s)
  {
    var a, w1 := SecondElection(w, s);
    var b, w2 := TermTwoFirst(w1, s);
    Then(GROUP, w, a, w1, b, w2, w1.replicas, w2.replicas);
    var c;
    c, w' := TermTwoThird(w2, s);
    Then(GROUP, w, a + b, w2, c, w', w2.replicas, w'.replicas);
    steps := a + b + c;
  }

  // ---------------------------------------------------------------- term 3

  lemma ThirdVotes(w: World, s: Logs)
    requires Scene2(w, s) && Fit(s)
    ensures Willing(w, w.replicas[N], B) && Willing(w, w.replicas[N], C) && Willing(w, w.replicas[N], D)
  {
    WillVote(w, N, B, 2, Six(s.full, 258, 258), Six(s.full, 258, 258));
    WillVote(w, N, C, 2, Six(s.full, 258, 258), Six(s.full, 258, 258));
    WillVote(w, N, D, 2, Six(s.full, 258, 258), Six(s.full, 258, 258));
  }

  lemma ThirdWin(w: World, s: Logs) returns (steps: seq<Step>, w': World)
    requires Scene2(w, s) && Fit(s)
    ensures Gets(GROUP, w, steps, w', w'.replicas) && Ahead(w', N, 3, Newly(Six(s.full, 258, 258), 3))
    ensures StartsOver(w'.replicas[N], Six(s.full, 258, 258))
    ensures Apart(w, w', {N, B, C, D}) && HaveVoted(w, w', w.replicas[N], [B, C, D])
  {
    Sizes();
    ThirdVotes(w, s);
    steps, w' := ElectedByThree(GROUP, w, N, 2, Six(s.full, 258, 258), B, C, D);
  }

  lemma ThirdFollowers(w: World, w': World, s: Logs)
    requires Scene2(w, s) && Apart(w, w', {N, B, C, D}) && HaveVoted(w, w', w.replicas[N], [B, C, D])
    ensures Behind(w', B, 3, Six(s.full, 258, 258)) && Behind(w', C, 3, Six(s.full, 258, 258))
    ensures Behind(w', D, 3, Six(s.full, 258, 258)) && Behind(w', F, 1, Five(s.z, 0, 0))
  {
    HasVoted(w, w', w.replicas[N], [B, C, D], B, 2, Six(s.full, 258, 258));
    HasVoted(w, w', w.replicas[N], [B, C, D], C, 2, Six(s.full, 258, 258));
    HasVoted(w, w', w.replicas[N], [B, C, D], D, 2, Six(s.full, 258, 258));
  }

  lemma ThirdReached(w: World, s: Logs)
    requires Fit(s) && N in w.replicas && w.replicas[N].id == N && StartsOver(w.replicas[N], Six(s.full, 258, 258))
    ensures Reached(w, N, B, 259, 0) && Reached(w, N, C, 259, 0) && Reached(w, N, D, 259, 0) && Reached(w, N, F, 259, 0)
  {
  }

  /** N is elected by B, C and D. */
  lemma ThirdElection(w: World, s: Logs) returns (steps: seq<Step>, w': World)
    requires Scene2(w, s) && Fit(s)
    ensures Gets(GROUP, w, steps, w', w'.replicas) && Ahead(w', N, 3, Six(s.last, 258, 258))
    ensures Reached(w', N, B, 259, 0) && Reached(w', N, C, 259, 0) && Reached(w', N, D, 259, 0)
    ensures Reached(w', N, F, 259, 0)
    ensures Behind(w', B, 3, Six(s.full, 258, 258)) && Behind(w', C, 3, Six(s.full, 258, 258))
    ensures Behind(w', D, 3, Six(s.full, 258, 258)) && Behind(w', F, 1, Five(s.z, 0, 0)) && Heartbeat() in w'.net
  {
    steps, w' := ThirdWin(w, s);
    ThirdReached(w', s);
    assert Newly(Six(s.full, 258, 258), 3).log == s.last;
    ThirdFollowers(w, w', s);
  }

  /** N's no-op reaches p. */
  lemma Extends(w: World, s: Logs, p: ReplicaId) returns (steps: seq<Step>, w': World)
    requires Fit(s) && Ahead(w, N, 3, Six(s.last, 258, 258)) && Reached(w, N, p, 259, 0) && p in FIVE
    requires Behind(w, p, 3, Six(s.full, 258, 258))
    ensures Gets(GROUP, w, steps, w', w'.replicas) && Apart(w, w', {N, p}) && Ahead(w', N, 3, Six(s.last, 258, 258))
    ensures Reached(w', N, p, 260, 259) && SameProgress(w.replicas[N], w'.replicas[N], p)
  {
    steps, w' := Fills(GROUP, w, N, p, 3, Six(s.last, 258, 258), Six(s.full, 258, 258), 259);
  }

  lemma ExtendsTwo(w: World, s: Logs) returns (steps: seq<Step>, w': World)
    requires Fit(s) && Ahead(w, N, 3, Six(s.last, 258, 258)) && Reached(w, N, F, 259, 0)
    requires Reached(w, N, B, 259, 0) && Reached(w, N, C, 259, 0) && Reached(w, N, D, 259, 0)
    requires Behind(w, B, 3, Six(s.full, 258, 258)) && Behind(w, C, 3, Six(s.full, 258, 258))
    ensures Gets(GROUP, w, steps, w', w'.replicas) && Apart(w, w', {N, B, C}) && Ahead(w', N, 3, Six(s.last, 258, 258))
    ensures Reached(w', N, B, 260, 259) && Reached(w', N, C, 260, 259) && Reached(w', N, D, 259, 0)
    ensures Reached(w', N, F, 259, 0)
  {
    var a, w1 := Extends(w, s, B);
    var b;
    b, w' := Extends(w1, s, C);
    Then(GROUP, w, a, w1, b, w', w1.replicas, w'.replicas);
    steps := a + b;
  }

  lemma ExtendsThree(w: World, s: Logs) returns (steps: seq<Step>, w': World)
    requires Fit(s) && Ahead(w, N, 3, Six(s.last, 258, 258)) && Reached(w, N, F, 259, 0)
    requires Reached(w, N, B, 259, 0) && Reached(w, N, C, 259, 0) && Reached(w, N, D, 259, 0)
    requires Behind(w, B, 3, Six(s.full, 258, 258)) && Behind(w, C, 3, Six(s.full, 258, 258))
    requires Behind(w, D, 3, Six(s.full, 258, 258))
    ensures Gets(GROUP, w, steps, w', w'.replicas) && Apart(w, w', {N, B, C, D})
    ensures Ahead(w', N, 3, Six(s.last, 258, 258))
    ensures Reached(w', N, B, 260, 259) && Reached(w', N, C, 260, 259) && Reached(w', N, D, 260, 259)
    ensures Reached(w', N, F, 259, 0)
  {
    var a, w1 := ExtendsTwo(w, s);
    var b;
    b, w' := Extends(w1, s, D);
    Then(GROUP, w, a, w1, b, w', w1.replicas, w'.replicas);
    steps := a + b;
  }

  lemma ThirdCommitRule(r: State, s: Logs)
    requires Fit(s) && Heads(r, N, 3, Six(s.last, 258, 258)) && MatchIndex(r, B) == 259 && MatchIndex(r, C) == 259
    requires MatchIndex(r, D) == 259
    ensures CommitRule(r, 259) == 259
  {
    Sizes();
    Membership.SubsetSize({N, B, C, D}, Holders(r, 259));
  }

  lemma ThirdCommit(w: World, s: Logs) returns (steps: seq<Step>, w': World)
    requires Fit(s) && Ahead(w, N, 3, Six(s.last, 258, 258)) && Reached(w, N, F, 259, 0)
    requires Reached(w, N, B, 260, 259) && Reached(w, N, C, 260, 259) && Reached(w, N, D, 260, 259)
    ensures Gets(GROUP, w, steps, w', w'.replicas) && Apart(w, w', {N}) && Ahead(w', N, 3, Six(s.last, 259, 259))
    ensures Reached(w', N, F, 259, 0)
  {
    ThirdCommitRule(w.replicas[N], s);
    var a, w1 := Commitment(GROUP, w, N, 3, Six(s.last, 258, 258), 259);
    var b;
    b, w' := Drain(GROUP, w1, N, Six(s.last, 259, 258));
    Then(GROUP, w, a, w1, b, w', w1.replicas, w'.replicas);
    steps := a + b;
  }

  /** N has committed record 259 and starts to probe F, which does not know N, for record k. */
  ghost predicate Scene3(w: World, s: Logs, k: int) {
    && Ahead(w, N, 3, Six(s.last, 259, 259)) && Reached(w, N, F, k, 0) && Behind(w, F, 1, Five(s.z, 0, 0))
    && Heartbeat() in w.net
  }

  lemma ExtendsAndCommits(w: World, s: Logs) returns (steps: seq<Step>, w': World)
    requires Fit(s) && Ahead(w, N, 3, Six(s.last, 258, 258)) && Reached(w, N, F, 259, 0)
    requires Reached(w, N, B, 259, 0) && Reached(w, N, C, 259, 0) && Reached(w, N, D, 259, 0)
    requires Behind(w, B, 3, Six(s.full, 258, 258)) && Behind(w, C, 3, Six(s.full, 258, 258))
    requires Behind(w, D, 3, Six(s.full, 258, 258))
    ensures Gets(GROUP, w, steps, w', w'.replicas) && Apart(w, w', {N, B, C, D})
    ensures Ahead(w', N, 3, Six(s.last, 259, 259))
    ensures Reached(w', N, F, 259, 0)
  {
    var a, w1 := ExtendsThree(w, s);
    var b;
    b, w' := ThirdCommit(w1, s);
    Then(GROUP, w, a, w1, b, w', w1.replicas, w'.replicas);
    steps := a + b;
  }

  lemma TermThree(w: World, s: Logs) returns (steps: seq<Step>, w': World)
    requires Fit(s) && Scene2(w, s)
    ensures Gets(GROUP, w, steps, w', w'.replicas) && Scene3(w', s, 259)
  {
    var a, w1 := ThirdElection(w, s);
    var b;
    b, w' := ExtendsAndCommits(w1, s);
    Then(GROUP, w, a, w1, b, w', w1.replicas, w'.replicas);
    steps := a + b;
  }

  // ---------------------------------------------------------------- rejections by a stranger

  /** F rejects whatever N sends, since it does not know N. */
  lemma Rejects(f: State, m: Message, s: Logs)
    requires Fit(s) && Trails(f, F, 1, Five(s.z, 0, 0)) && m.AppendEntries? && m.from == N && m.to == F
    requires m.readSeq == 0
    ensures L.WellFormed(f.log)
    ensures OnAppendEntries(f, m) ==
            Outcome(f, {AppendReply(F, N, m.term, m.prev, |m.entries|, f.term, false, 257)})
  {
  }

  /** N takes the rejection for a mismatch and moves back by one record. */
  lemma BacksOff(r: State, k: int, count: nat, t: int, s: Logs)
    requires Fit(s) && Heads(r, N, 3, Six(s.last, 259, 259)) && NextIndex(r, F) == k && MatchIndex(r, F) == 0
    requires 2 <= k <= 259 && t <= 1
    ensures OnAppendReply(r, AppendReply(F, N, 3, k - 1, count, t, false, 257)) == r.(next := r.next[F := k - 1])
  {
  }

  lemma ShunsOnce(w: World, s: Logs, k: int) returns (steps: seq<Step>, w': World)
    requires Fit(s) && Scene3(w, s, k) && 2 <= k <= 259
    ensures Gets(GROUP, w, steps, w', w'.replicas) && Scene3(w', s, k - 1)
  {
    var n, f := w.replicas[N], w.replicas[F];
    var m := Sent(n, F);
    var no := AppendReply(F, N, 3, k - 1, |m.entries|, f.term, false, 257);
    var w1 := Sends(GROUP, w, N, F);
    Rejects(f, m, s);
    var w2 := Deliver1(GROUP, w1, m, f, Outcome(f, {no}));
    Then(GROUP, w, [Send(N, F)], w1, [Deliver(m)], w2, w1.replicas, w2.replicas);
    BacksOff(n, k, |m.entries|, f.term, s);
    w' := Deliver1(GROUP, w2, no, n, Outcome(n.(next := n.next[F := k - 1]), {}));
    Then(GROUP, w, [Send(N, F)] + [Deliver(m)], w2, [Deliver(no)], w', w2.replicas, w'.replicas);
    steps := [Send(N, F)] + [Deliver(m)] + [Deliver(no)];
  }

  /** Rejection by rejection, N's probe of F moves back to the first record. */
  lemma {:induction false} Shunned(w: World, s: Logs, k: int) returns (steps: seq<Step>, w': World)
    requires Fit(s) && Scene3(w, s, k) && 1 <= k <= 259
    ensures Gets(GROUP, w, steps, w', w'.replicas) && Scene3(w', s, 1)
    decreases k
  {
    if k == 1 {
      steps, w' := [], w;
    } else {
      var a, w1 := ShunsOnce(w, s, k);
      var b;
      b, w' := Shunned(w1, s, k - 1);
      Then(GROUP, w, a, w1, b, w', w1.replicas, w'.replicas);
      steps := a + b;
    }
  }

  // ---------------------------------------------------------------- the wrong commit

  lemma SameLog(z: Log)
    ensures L.Matching(z, z) && Follow(z, z, |z|) == z
  {
  }

  /** A's heartbeat arrives. */
  lemma HearsLate(w: World, s: Logs) returns (steps: seq<Step>, w': World)
    requires Fit(s) && Behind(w, F, 1, Five(s.z, 0, 0)) && Heartbeat() in w.net
    ensures Gets(GROUP, w, steps, w', w'.replicas) && Apart(w, w', {F}) && Behind(w', F, 1, Five(s.z, 256, 0))
  {
    var f := w.replicas[F];
    SameLog(s.z);
    TakenIs(f, Heartbeat(), s.z, s.z);
    w' := Deliver1(GROUP, w, Heartbeat(), f, OnAppendEntries(f, Heartbeat()));
    steps := [Deliver(Heartbeat())];
  }

  /** F learns of N. */
  lemma Learns(w: World, s: Logs) returns (steps: seq<Step>, w': World)
    requires Fit(s) && Behind(w, F, 1, Five(s.z, 0, 0)) && Heartbeat() in w.net
    ensures Gets(GROUP, w, steps, w', w'.replicas) && Apart(w, w', {F}) && Behind(w', F, 1, Joining(s.z, 256, 256))
  {
    Sizes();
    var a, w1 := HearsLate(w, s);
    var b;
    b, w' := Change(GROUP, w1, F, Five(s.z, 256, 0), SIX, FIVE);
    Then(GROUP, w, a, w1, b, w', w1.replicas, w'.replicas);
    steps := a + b;
  }

  /** The two logs agree on 256 records and then part. */
  lemma LogsPart(s: Logs)
    requires Fit(s)
    ensures L.Matching(s.z, s.last) && Follow(s.z, s.last, 256) == s.z && s.z[256] != s.last[256]
  {
    assert Agree(s.last, s.z, 256);
  }

  /** The end: both have committed record 257, each its own. */
  ghost predicate Scene4(w: World, s: Logs) {
    Ahead(w, N, 3, Six(s.last, 259, 259)) && Behind(w, F, 3, Joining(s.z, 257, 256))
  }

  /** N's message lies wholly below the point where the logs part; F keeps its record 257 and commits it. */
  lemma Miscommits(w: World, s: Logs) returns (steps: seq<Step>, w': World)
    requires Fit(s) && Scene3(w, s, 1)
    ensures Gets(GROUP, w, steps, w', w'.replicas) && Scene4(w', s)
  {
    LogsPart(s);
    var a, w1 := Learns(w, s);
    var b;
    b, w' := Round(GROUP, w1, N, F, 3, Six(s.last, 259, 259), Joining(s.z, 256, 256), 256, s.z);
    Then(GROUP, w, a, w1, b, w', w1.replicas, w'.replicas);
    steps := a + b;
  }

  // ---------------------------------------------------------------- theorems

  lemma Whole(w: World, s: Logs) returns (steps: seq<Step>, w': World)
    requires Opening(w) && s == Written() && Fit(s)
    ensures Reaches(GROUP, w, steps, w') && Scene4(w', s)
  {
    var a, w1 := TermOne(w, s);
    var b, w2 := TermTwo(w1, s);
    Then(GROUP, w, a, w1, b, w2, w1.replicas, w2.replicas);
    var c, w3 := TermThree(w2, s);
    Then(GROUP, w, a + b, w2, c, w3, w2.replicas, w3.replicas);
    var d, w4 := Shunned(w3, s, 259);
    Then(GROUP, w, a + b + c, w3, d, w4, w3.replicas, w4.replicas);
    var e;
    e, w' := Miscommits(w4, s);
    Then(GROUP, w, a + b + c + d, w4, e, w', w4.replicas, w'.replicas);
    steps := a + b + c + d + e;
  }

  /** In this run, from empty logs, two replicas have committed different records at one index. */
  ghost predicate Diverges(g: Group, w: World, steps: seq<Step>, i: ReplicaId, j: ReplicaId) {
    && Safety.Start(g, w) && Run(g, w, steps) && i in g.replicas && j in g.replicas
    && var w' := After(g, w, steps);
       && i in w'.replicas && j in w'.replicas
       && !Agree(Full(w'.replicas[i]), Full(w'.replicas[j]), Min(w'.replicas[i].commit, w'.replicas[j].commit))
  }

  lemma WholeLogs(w: World, s: Logs)
    requires Scene4(w, s)
    ensures Full(w.replicas[F]) == s.z && Full(w.replicas[N]) == s.last
    ensures w.replicas[F].commit == 257 && w.replicas[N].commit == 259
  {
  }

  lemma Parted(s: Logs)
    requires Fit(s)
    ensures !Agree(s.z, s.last, 257)
  {
    LogsPart(s);
  }

  lemma Differ(w: World, steps: seq<Step>, w': World, s: Logs)
    requires Safety.Start(GROUP, w) && Reaches(GROUP, w, steps, w') && Scene4(w', s) && Fit(s)
    ensures Diverges(GROUP, w, steps, F, N)
  {
    WholeLogs(w', s);
    Parted(s);
  }

  lemma Opens()
    ensures Opening(Start())
  {
  }

  /** State-machine safety does not hold of all runs, although all quorums meet: F and N end up with
      different records committed at index 257. */
  lemma StrangersBreakAgreement() returns (steps: seq<Step>)
    ensures Diverges(GROUP, Start(), steps, F, N)
  {
    StartIsInitial();
    Opens();
    WrittenFits();
    var w;
    steps, w := Whole(Start(), Written());
    Differ(Start(), steps, w, Written());
  }

  /** Whenever committed records diverge, some replica has taken from a leader it had turned away a message
      that ends below the commit index it brings. */
  lemma OnlyStrangersDo(g: Group, w: World, steps: seq<Step>, i: ReplicaId, j: ReplicaId)
    requires Run(g, w, steps)
    ensures Diverges(g, w, steps, i, j) ==> !Prudent(g, w, steps, {})
  {
    var w' := After(g, w, steps);
    if Safety.Start(g, w) && Prudent(g, w, steps, {}) && i in g.replicas && j in g.replicas {
      assert Run(g, w', []) && Prudent(g, w', [], ShunnedIn(g, w, steps)) && After(g, w', []) == w';
      Safety.StateMachineSafety(g, w, steps, [], i, j);
    }
  }
}
