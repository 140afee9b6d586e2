/** Two leaders in one term, from a group whose members were all created with the same list.

    Every list in this run is the one a replica was created with, the one its snapshot's header holds, or
    what a committed config record makes of the list before.  A removes C and then B.  B, which has the
    records but restarts without a snapshot, comes back with the list it was created with
    (src/storage/replica/replica_manager.cpp loads the stored parameters) and is elected by C, two changes
    behind A, which restarts from its snapshot and is elected by itself. */
module LaggingMember {
  import opened Types
  import opened Replica
  import opened Consensus
  import opened Cluster
  import opened CoreRuns
  import opened ClusterReplication
  import opened Runs
  import Membership
  import Overlap = OverlapNeeded
  import L = RaftLog

  const A := ReplicaId(1, 1, 1)
  const B := ReplicaId(1, 1, 2)
  const C := ReplicaId(1, 1, 3)

  const THREE := {A, B, C}
  const TWO := {A, B}
  const ONE := {A}

  const GROUP := Group(THREE, {THREE, TWO, ONE})

  function Simple(k: int, op: WriteOp): LogEntry { LogEntry(1, k, op, [], [], [], NoMember(), NoReplica(), []) }

  const REMOVE_C := Simple(2, RemoveMember).(configReplica := C)
  const REMOVE_B := Simple(3, RemoveMember).(configReplica := B)

  lemma Sizes()
    ensures |THREE| == 3 && |TWO| == 2 && |ONE| == 1
  {
  }

  /** The lists are what the records make of them. */
  lemma Lists()
    ensures MemberList(GROUP, THREE, THREE) && MemberList(GROUP, TWO, TWO) && MemberList(GROUP, ONE, ONE)
    ensures PeersAfter(REMOVE_C, THREE) == VotersAfter(REMOVE_C, THREE, THREE) == TWO
    ensures PeersAfter(REMOVE_B, TWO) == VotersAfter(REMOVE_B, TWO, TWO) == ONE
  {
  }

  datatype Logs = Logs(one: Log, two: Log, three: Log)

  function Written(): Logs {
    Logs([Simple(1, Noop)], [Simple(1, Noop), REMOVE_C], [Simple(1, Noop), REMOVE_C, REMOVE_B])
  }

  ghost predicate Fit(s: Logs) {
    && Tidy([]) && Tidy(s.one) && Tidy(s.two) && Tidy(s.three)
    && s.one == [Simple(1, Noop)] && s.two == s.one + [REMOVE_C] && s.three == s.two + [REMOVE_B]
  }

  lemma WrittenFits()
    ensures Fit(Written())
  {
  }

  function All(l: Log, commit: int, applied: int): Tale { Tale(l, commit, applied, THREE, THREE) }
  function Both(l: Log, commit: int, applied: int): Tale { Tale(l, commit, applied, TWO, TWO) }
  function Alone(l: Log, commit: int, applied: int): Tale { Tale(l, commit, applied, ONE, ONE) }

  function Start(): World { World(map i | i in THREE :: Blank(i, THREE), {}) }

  ghost predicate Opening(w: World) {
    && Behind(w, A, 0, All([], 0, 0)) && Behind(w, B, 0, All([], 0, 0)) && Behind(w, C, 0, All([], 0, 0))
    && w.replicas[A].term == 0
  }

  lemma Opens()
    ensures Opening(Start()) && Initial(GROUP, Start())
  {
    Lists();
  }

  // ---------------------------------------------------------------- term 1

  /** A is elected by B. */
  lemma FirstElection(w: World, s: Logs) returns (steps: seq<Step>, w': World)
    requires Opening(w) && Fit(s)
    ensures Gets(GROUP, w, steps, w', w'.replicas) && Ahead(w', A, 1, All(s.one, 0, 0)) && Reached(w', A, B, 1, 0)
    ensures Behind(w', B, 1, All([], 0, 0)) && Behind(w', C, 1, All([], 0, 0))
  {
    Sizes();
    WillVote(w, A, B, 0, All([], 0, 0), All([], 0, 0));
    steps, w' := ElectedByOne(GROUP, w, A, 0, All([], 0, 0), B);
    assert Newly(All([], 0, 0), 1).log == s.one;
    HasVoted(w, w', w.replicas[A], [B], B, 0, All([], 0, 0));
  }

  lemma RuleTwo(r: State, s: Logs)
    requires Fit(s) && Heads(r, A, 1, All(s.two, 0, 0)) && MatchIndex(r, B) == 2
    ensures CommitRule(r, 2) == 2
  {
    Sizes();
    Membership.SubsetSize({A, B}, Holders(r, 2));
  }

  lemma RuleThree(r: State, s: Logs)
    requires Fit(s) && Heads(r, A, 1, Both(s.three, 2, 2)) && MatchIndex(r, B) == 3
    ensures CommitRule(r, 3) == 3
  {
    Sizes();
    Membership.SubsetSize({A, B}, Holders(r, 3));
  }

  /** The removal of C is written and reaches B. */
  lemma WritesFirst(w: World, s: Logs) returns (steps: seq<Step>, w': World)
    requires Fit(s) && Ahead(w, A, 1, All(s.one, 0, 0)) && Reached(w, A, B, 1, 0) && Behind(w, B, 1, All([], 0, 0))
    ensures Gets(GROUP, w, steps, w', w'.replicas) && Apart(w, w', {A, B}) && Ahead(w', A, 1, All(s.two, 0, 0))
    ensures Reached(w', A, B, 3, 2) && Behind(w', B, 1, All(s.two, 0, 0))
  {
    assert s.two[..2] == s.two;
    var a, w1 := Submission(GROUP, w, A, 1, All(s.one, 0, 0), REMOVE_C);
    var b;
    b, w' := Fills(GROUP, w1, A, B, 1, All(s.two, 0, 0), All([], 0, 0), 2);
    Then(GROUP, w, a, w1, b, w', w1.replicas, w'.replicas);
    steps := a + b;
  }

  /** A commits and applies it, and writes the removal of B. */
  lemma AppliesFirst(w: World, s: Logs) returns (steps: seq<Step>, w': World)
    requires Fit(s) && Ahead(w, A, 1, All(s.two, 0, 0)) && Reached(w, A, B, 3, 2)
    ensures Gets(GROUP, w, steps, w', w'.replicas) && Apart(w, w', {A}) && Ahead(w', A, 1, Both(s.three, 2, 2))
    ensures Reached(w', A, B, 3, 2)
  {
    Lists();
    RuleTwo(w.replicas[A], s);
    var a, w1 := Commitment(GROUP, w, A, 1, All(s.two, 0, 0), 2);
    var b, w2 := Change(GROUP, w1, A, All(s.two, 2, 0), TWO, TWO);
    Then(GROUP, w, a, w1, b, w2, w1.replicas, w2.replicas);
    var c;
    c, w' := Submission(GROUP, w2, A, 1, Both(s.two, 2, 2), REMOVE_B);
    Then(GROUP, w, a + b, w2, c, w', w2.replicas, w'.replicas);
    steps := a + b + c;
  }

  /** The removal of B reaches B, which applies the removal of C. */
  lemma WritesSecond(w: World, s: Logs) returns (steps: seq<Step>, w': World)
    requires Fit(s) && Ahead(w, A, 1, Both(s.three, 2, 2)) && Reached(w, A, B, 3, 2)
    requires Behind(w, B, 1, All(s.two, 0, 0))
    ensures Gets(GROUP, w, steps, w', w'.replicas) && Apart(w, w', {A, B}) && Ahead(w', A, 1, Both(s.three, 2, 2))
    ensures Reached(w', A, B, 4, 3) && Behind(w', B, 1, Both(s.three, 2, 2)) && w'.replicas[B].term == 1
  {
    Lists();
    assert s.three[..3] == s.three;
    var a, w1 := Fills(GROUP, w, A, B, 1, Both(s.three, 2, 2), All(s.two, 0, 0), 3);
    var b;
    b, w' := Change(GROUP, w1, B, All(s.three, 2, 0), TWO, TWO);
    Then(GROUP, w, a, w1, b, w', w1.replicas, w'.replicas);
    steps := a + b;
  }

  /** A commits and applies it. */
  lemma AppliesSecond(w: World, s: Logs) returns (steps: seq<Step>, w': World)
    requires Fit(s) && Ahead(w, A, 1, Both(s.three, 2, 2)) && Reached(w, A, B, 4, 3)
    ensures Gets(GROUP, w, steps, w', w'.replicas) && Apart(w, w', {A}) && Ahead(w', A, 1, Alone(s.three, 3, 3))
  {
    Lists();
    RuleThree(w.replicas[A], s);
    var a, w1 := Commitment(GROUP, w, A, 1, Both(s.three, 2, 2), 3);
    var b;
    b, w' := Change(GROUP, w1, A, Both(s.three, 3, 2), ONE, ONE);
    Then(GROUP, w, a, w1, b, w', w1.replicas, w'.replicas);
    steps := a + b;
  }

  /** A has removed everybody else; C knows of nothing. */
  ghost predicate Scene1(w: World, s: Logs) {
    && Ahead(w, A, 1, Alone(s.three, 3, 3)) && Behind(w, B, 1, Both(s.three, 2, 2)) && w.replicas[B].term == 1
    && Behind(w, C, 1, All([], 0, 0))
  }

  lemma FirstChange(w: World, s: Logs) returns (steps: seq<Step>, w': World)
    requires Opening(w) && Fit(s)
    ensures Gets(GROUP, w, steps, w', w'.replicas) && Ahead(w', A, 1, Both(s.three, 2, 2)) && Reached(w', A, B, 3, 2)
    ensures Behind(w', B, 1, All(s.two, 0, 0)) && Behind(w', C, 1, All([], 0, 0))
  {
    var a, w1 := FirstElection(w, s);
    var b, w2 := WritesFirst(w1, s);
    Then(GROUP, w, a, w1, b, w2, w1.replicas, w2.replicas);
    var c;
    c, w' := AppliesFirst(w2, s);
    Then(GROUP, w, a + b, w2, c, w', w2.replicas, w'.replicas);
    steps := a + b + c;
  }

  lemma TermOne(w: World, s: Logs) returns (steps: seq<Step>, w': World)
    requires Opening(w) && Fit(s)
    ensures Gets(GROUP, w, steps, w', w'.replicas) && Scene1(w', s)
  {
    var a, w1 := FirstChange(w, s);
    var b, w2 := WritesSecond(w1, s);
    Then(GROUP, w, a, w1, b, w2, w1.replicas, w2.replicas);
    var c;
    c, w' := AppliesSecond(w2, s);
    Then(GROUP, w, a + b, w2, c, w', w2.replicas, w'.replicas);
    steps := a + b + c;
  }

  // ---------------------------------------------------------------- term 2

  /** B restarts with the list it was created with. */
  lemma Restarts(w: World, s: Logs) returns (steps: seq<Step>, w': World)
    requires Fit(s) && Behind(w, B, 1, Both(s.three, 2, 2)) && w.replicas[B].term == 1
    ensures Gets(GROUP, w, steps, w', w'.replicas) && Apart(w, w', {B})
    ensures Behind(w', B, 1, All(s.three, 0, 0)) && w'.replicas[B].term == 1
  {
    Lists();
    steps := [Crash(B, THREE, THREE, false)];
    w' := Step1(GROUP, w, Crash(B, THREE, THREE, false), B, Restart(w.replicas[B], THREE, THREE, false), {});
  }

  /** B is elected by C. */
  lemma SecondElection(w: World, s: Logs) returns (steps: seq<Step>, w': World)
    requires Fit(s) && Scene1(w, s)
    ensures Gets(GROUP, w, steps, w', w'.replicas) && Ahead(w', A, 1, Alone(s.three, 3, 3))
    ensures B in w'.replicas && w'.replicas[B].role.Leader? && w'.replicas[B].term == 2
  {
    Sizes();
    var a, w1 := Restarts(w, s);
    WillVote(w1, B, C, 1, All(s.three, 0, 0), All([], 0, 0));
    var b;
    b, w' := ElectedByOne(GROUP, w1, B, 1, All(s.three, 0, 0), C);
    Then(GROUP, w, a, w1, b, w', w1.replicas, w'.replicas);
    steps := a + b;
  }

  /** A restarted from its snapshot. */
  ghost predicate Rebooted(r: State, s: Logs) {
    && r.id == A && r.term == 1 && r.role.Follower? && !r.recovering && r.voters == ONE && r.peers == ONE
    && r.log == L.View([], 3, 1) && r.snapshot == s.three
  }

  lemma Compacts(r: State, s: Logs)
    requires Fit(s) && Heads(r, A, 1, Alone(s.three, 3, 3))
    ensures TakeSnapshot(r, 3) == r.(log := L.View([], 3, 1), snapshot := s.three)
  {
    assert r.snapshot + r.log.entries[..3] == s.three;
  }

  lemma Reboots(w: World, s: Logs) returns (steps: seq<Step>, w': World)
    requires Fit(s) && Ahead(w, A, 1, Alone(s.three, 3, 3))
    ensures Gets(GROUP, w, steps, w', w'.replicas) && Apart(w, w', {A}) && A in w'.replicas
    ensures Rebooted(w'.replicas[A], s)
  {
    Lists();
    Compacts(w.replicas[A], s);
    var r := TakeSnapshot(w.replicas[A], 3);
    var w1 := Step1(GROUP, w, Snapshot(A, 3), A, r, {});
    w' := Step1(GROUP, w1, Crash(A, ONE, ONE, false), A, Restart(r, ONE, ONE, false), {});
    Then(GROUP, w, [Snapshot(A, 3)], w1, [Crash(A, ONE, ONE, false)], w', w1.replicas, w'.replicas);
    steps := [Snapshot(A, 3)] + [Crash(A, ONE, ONE, false)];
  }

  /** A elects itself. */
  lemma ElectsItself(w: World, s: Logs) returns (steps: seq<Step>, w': World)
    requires A in w.replicas && Rebooted(w.replicas[A], s)
    ensures Gets(GROUP, w, steps, w', w'.replicas) && Apart(w, w', {A}) && A in w'.replicas
    ensures w'.replicas[A].role.Leader? && w'.replicas[A].term == 2
  {
    Sizes();
    var o := Campaign(w.replicas[A]);
    var w1 := Step1(GROUP, w, StandUp(A), A, o.state, o.sent);
    assert |{A}| == 1;
    w' := Step1(GROUP, w1, Win(A), A, Lead(o.state), {});
    Then(GROUP, w, [StandUp(A)], w1, [Win(A)], w', w1.replicas, w'.replicas);
    steps := [StandUp(A)] + [Win(A)];
  }

  lemma ThirdElection(w: World, s: Logs) returns (steps: seq<Step>, w': World)
    requires Fit(s) && Ahead(w, A, 1, Alone(s.three, 3, 3))
    ensures Gets(GROUP, w, steps, w', w'.replicas) && Apart(w, w', {A}) && A in w'.replicas
    ensures w'.replicas[A].role.Leader? && w'.replicas[A].term == 2
  {
    var a, w1 := Reboots(w, s);
    var b;
    b, w' := ElectsItself(w1, s);
    Then(GROUP, w, a, w1, b, w', w1.replicas, w'.replicas);
    steps := a + b;
  }

  lemma TermTwo(w: World, s: Logs) returns (steps: seq<Step>, w': World)
    requires Fit(s) && Scene1(w, s)
    ensures Gets(GROUP, w, steps, w', w'.replicas) && A in w'.replicas && B in w'.replicas
    ensures w'.replicas[A].role.Leader? && w'.replicas[A].term == 2
    ensures w'.replicas[B].role.Leader? && w'.replicas[B].term == 2
  {
    var a, w1 := SecondElection(w, s);
    var b;
    b, w' := ThirdElection(w1, s);
    Then(GROUP, w, a, w1, b, w', w1.replicas, w'.replicas);
    steps := a + b;
  }

  /** A replica that comes back two changes behind leads beside the leader of the newer list. */
  lemma LaggardLeadsToo() returns (steps: seq<Step>)
    ensures Overlap.LeadTogether(GROUP, Start(), steps, A, B)
    ensures forall i :: i in THREE ==> Start().replicas[i].peers == Start().replicas[i].voters == THREE
  {
    Opens();
    WrittenFits();
    var a, w1 := TermOne(Start(), Written());
    var b, w2 := TermTwo(w1, Written());
    Then(GROUP, Start(), a, w1, b, w2, w1.replicas, w2.replicas);
    steps := a + b;
  }
}
