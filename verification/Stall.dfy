/** When a leader cannot bring a follower up to date: its probe has gone inside the follower's snapshot, where the
    follower can compare nothing (src/storage/raft/core/raft_core_append.cpp, src/storage/raft/raft_replication.cpp). */
module Stall {
  import opened Types
  import opened Replica
  import opened Consensus
  import opened Cluster
  import opened ClusterInvariant
  import opened ClusterSafety
  import opened Core
  import opened CoreRuns
  import opened Runs
  import opened Availability
  import opened CatchUp
  import opened Progress
  import L = RaftLog

  // ---------------------------------------------------------------- no way out

  /** One exchange: the leader sends what it would send next, and is answered. */
  ghost predicate Exchanged(r: State, q: State, p: ReplicaId, r': State, q': State) {
    && L.WellFormed(q.log)
    && var o := OnAppendEntries(q, Sent(r, p));
       q' == o.state && exists a :: a in o.sent && a.AppendReply? && r' == OnAppendReply(r, a)
  }

  /** At the match point a rejection moves nothing. */
  lemma BackOffStays(r: State, p: ReplicaId, last: int)
    requires 0 <= MatchIndex(r, p) == NextIndex(r, p) - 1 && 1 < NextIndex(r, p) <= last
    requires NextIndex(r, p) <= L.LastIndex(r.log)
    ensures OnlyAbout(r, BackOff(r, p, last), p) && MatchIndex(BackOff(r, p, last), p) == MatchIndex(r, p)
    ensures NextIndex(BackOff(r, p, last), p) == NextIndex(r, p)
  {
  }

  /** A blocked leader backs off at most to the match point. */
  lemma BlockedBacksOff(r: State, q: State, i: ReplicaId, p: ReplicaId, t: int, led: Log, l: Log)
    requires Near(r, q, i, p, t, led, l) && Blocked(r, q, p) && NextIndex(r, p) > 1
    ensures var r' := BackOff(r, p, |l|);
            && OnlyAbout(r, r', p) && MatchIndex(r', p) == MatchIndex(r, p)
            && MatchIndex(r, p) < NextIndex(r', p) <= NextIndex(r, p)
  {
    HoldsAll(r, led);
    if MatchIndex(r, p) == NextIndex(r, p) - 1 {
      BackOffStays(r, p, |l|);
    } else {
      BackOffIs(r, p, |l|, |led|);
    }
  }

  lemma RefusedAgain(r: State, q: State, i: ReplicaId, p: ReplicaId, t: int, led: Log, l: Log, r': State, q': State)
    requires Near(r, q, i, p, t, led, l) && Blocked(r, q, p) && NextIndex(r, p) > 1 && Exchanged(r, q, p, r', q')
    ensures Near(r', q', i, p, t, led, l) && Blocked(r', q', p)
  {
    var m := Sent(r, p);
    SendsRecords(r, p, led);
    RefusesRecords(q, m, l, led);
    NoBacksOff(r, p, q, m, |l|);
    BlockedBacksOff(r, q, i, p, t, led, l);
    ChiefSame(r, r', p, i, t, led);
    StepsInto(q, t);
    HoldsSame(q, q', l);
  }

  /** From the very start the records are taken, */
  lemma TakenAtStart(r: State, q: State, i: ReplicaId, p: ReplicaId, t: int, led: Log, l: Log, r': State, q': State)
    requires Near(r, q, i, p, t, led, l) && NextIndex(r, p) == 1 && r.log.snapIndex == 0 && Exchanged(r, q, p, r', q')
    ensures Fed(q, q', t, Follow(l, led, End(r, p, led))) && r' == Advance(r, p, End(r, p, led))
  {
    var q1 := TakesRecords(r, q, i, p, t, led, l);
    AnswersYes(r, q, p, led);
  }

  /** but those of one message do not get the leader past the snapshot. */
  lemma TakenInside(r: State, q: State, i: ReplicaId, p: ReplicaId, t: int, led: Log, l: Log, r': State, q': State)
    returns (l': Log)
    requires Near(r, q, i, p, t, led, l) && Blocked(r, q, p) && NextIndex(r, p) == 1 && Exchanged(r, q, p, r', q')
    ensures Near(r', q', i, p, t, led, l') && Blocked(r', q', p)
  {
    var n := End(r, p, led);
    TakenAtStart(r, q, i, p, t, led, l, r', q');
    AdvanceIs(r, p, n);
    ChiefSame(r, r', p, i, t, led);
    l' := Follow(l, led, n);
    FollowMatches(l, led, n);
    AgreeShorter(led, l, q.log.snapIndex, n);
    FollowKeeps(l, led, n, q.log.snapIndex);
  }

  lemma StillBlocked(r: State, q: State, i: ReplicaId, p: ReplicaId, t: int, led: Log, l: Log, r': State, q': State)
    returns (l': Log)
    requires Near(r, q, i, p, t, led, l) && Blocked(r, q, p) && Exchanged(r, q, p, r', q')
    ensures Near(r', q', i, p, t, led, l') && Blocked(r', q', p)
  {
    if NextIndex(r, p) > 1 {
      RefusedAgain(r, q, i, p, t, led, l, r', q');
      l' := l;
    } else {
      l' := TakenInside(r, q, i, p, t, led, l, r', q');
    }
  }

  /** The two after one exchange after the other. */
  ghost predicate Chain(rs: seq<State>, qs: seq<State>, p: ReplicaId) {
    && |rs| == |qs| && rs != []
    && forall k :: 0 < k < |rs| ==> Exchanged(rs[k - 1], qs[k - 1], p, rs[k], qs[k])
  }

  lemma ChainBefore(rs: seq<State>, qs: seq<State>, p: ReplicaId, n: int)
    requires Chain(rs, qs, p) && 0 < n < |rs|
    ensures Chain(rs[..n], qs[..n], p)
  {
    forall k | 0 < k < n ensures Exchanged(rs[..n][k - 1], qs[..n][k - 1], p, rs[..n][k], qs[..n][k]) {
      assert Exchanged(rs[k - 1], qs[k - 1], p, rs[k], qs[k]);
    }
  }

  /** However often they try, a blocked leader never learns that the follower holds what the follower has even put
      into its snapshot. */
  lemma {:induction false} NeverGetsOut(rs: seq<State>, qs: seq<State>, i: ReplicaId, p: ReplicaId, t: int, led: Log,
                                        l: Log)
    returns (l': Log)
    requires Chain(rs, qs, p) && Near(rs[0], qs[0], i, p, t, led, l) && Blocked(rs[0], qs[0], p)
    ensures var r, q := rs[|rs| - 1], qs[|rs| - 1];
            Near(r, q, i, p, t, led, l') && Blocked(r, q, p) && MatchIndex(r, p) < q.log.snapIndex < |led|
    decreases |rs|
  {
    var n := |rs| - 1;
    if n == 0 {
      l' := l;
    } else {
      ChainBefore(rs, qs, p, n);
      var l1 := NeverGetsOut(rs[..n], qs[..n], i, p, t, led, l);
      assert Exchanged(rs[n - 1], qs[n - 1], p, rs[n], qs[n]);
      l' := StillBlocked(rs[n - 1], qs[n - 1], i, p, t, led, l1, rs[n], qs[n]);
    }
  }

  // ---------------------------------------------------------------- how it comes about

  /** The leader's log one record longer. */
  ghost predicate Longer(r: State, r': State, e: LogEntry, t: int, led: Log) {
    r' == r.(log := r.log.(entries := r.log.entries + [e])) && e.term == t && t >= 1 && e.index == |led| + 1
  }

  ghost predicate Wrote(w: World, w': World, i: ReplicaId, e: LogEntry, t: int, led: Log) {
    && i in w.replicas && i in w'.replicas && w'.replicas == w.replicas[i := w'.replicas[i]]
    && Longer(w.replicas[i], w'.replicas[i], e, t, led)
  }

  lemma LongerChief(r: State, r': State, i: ReplicaId, t: int, led: Log, e: LogEntry)
    requires Chief(r, i, t, led) && Longer(r, r', e, t, led)
    ensures Chief(r', i, t, led + [e])
  {
  }

  lemma LongerNear(r: State, r': State, q: State, i: ReplicaId, p: ReplicaId, t: int, led: Log, l: Log, e: LogEntry)
    requires Near(r, q, i, p, t, led, l) && Longer(r, r', e, t, led)
    ensures Near(r', q, i, p, t, led + [e], l)
  {
    LongerChief(r, r', i, t, led, e);
    forall k ensures L.MatchingAt(l, led + [e], k) { assert L.MatchingAt(l, led, k); }
  }

  /** A follower that was up to date, and now is not. */
  ghost predicate Behind(w: World, i: ReplicaId, v: ReplicaId, t: int, led: Log, n: int) {
    && (exists l :: Paired(w, i, v, t, led, l))
    && MatchIndex(w.replicas[i], v) == n < |led| && NextIndex(w.replicas[i], v) == n + 1
    && w.replicas[i].log.snapIndex <= n && w.replicas[v].log.snapIndex < n
  }

  lemma CaughtBehind(w: World, w': World, i: ReplicaId, v: ReplicaId, t: int, led: Log, e: LogEntry)
    requires IsCaught(w, i, v, t, led) && Wrote(w, w', i, e, t, led) && i != v
    ensures Behind(w', i, v, t, led + [e], |led|)
  {
    var l :| Caught(w, i, v, t, led, l);
    LongerNear(w.replicas[i], w'.replicas[i], w.replicas[v], i, v, t, led, l, e);
    assert Paired(w', i, v, t, led + [e], l);
  }

  lemma BehindMore(w: World, w': World, i: ReplicaId, v: ReplicaId, t: int, led: Log, n: int, e: LogEntry)
    requires Behind(w, i, v, t, led, n) && Wrote(w, w', i, e, t, led) && i != v
    ensures Behind(w', i, v, t, led + [e], n)
  {
    var l :| Paired(w, i, v, t, led, l);
    LongerNear(w.replicas[i], w'.replicas[i], w.replicas[v], i, v, t, led, l, e);
    assert Paired(w', i, v, t, led + [e], l);
  }

  lemma WritesOne(g: Group, w: World, i: ReplicaId, t: int, led: Log, payload: LogEntry)
    returns (w': World, e: LogEntry)
    requires i in w.replicas && Chief(w.replicas[i], i, t, led) && WritableLeader(w.replicas[i]) && t >= 1
    ensures Gets(g, w, [Submit(i, payload)], w', w'.replicas) && Wrote(w, w', i, e, t, led)
  {
    HoldsAll(w.replicas[i], led);
    e := payload.(term := t, index := |led| + 1);
    w' := Step1(g, w, Submit(i, payload), i, Replica.Propose(w.replicas[i], payload), {});
  }

  lemma SnapshotHolds(q: State, l: Log, index: int)
    requires Holds(q, l) && q.log.snapIndex < index <= q.applied && index <= |l|
    ensures index - q.log.snapIndex <= |q.log.entries|
    ensures Holds(TakeSnapshot(q, index), l) && TakeSnapshot(q, index).log.snapIndex == index
  {
    TermsAre(q.log, l, index);
    CutView(q.log, l, index);
    CutSnapshot(q.snapshot, q.log, l, index);
  }

  lemma CutSnapshot(snapshot: Log, v: L.View, l: Log, index: int)
    requires L.Completes(l, v) && |snapshot| == v.snapIndex && Agree(snapshot, l, v.snapIndex)
    requires v.snapIndex < index <= |l|
    ensures var s := snapshot + v.entries[..index - v.snapIndex]; |s| == index && Agree(s, l, index)
  {
    var s := snapshot + v.entries[..index - v.snapIndex];
    forall k | 0 <= k < index ensures s[k] == l[k] {
      if k >= v.snapIndex { assert s[k] == v.entries[k - v.snapIndex]; }
    }
  }

  lemma CutView(v: L.View, l: Log, index: int)
    requires L.WellFormed(v) && L.Completes(l, v) && v.snapIndex < index <= |l| && L.Contiguous(l, 0)
    requires L.TermAt(v, index) == TermIn(l, index)
    ensures var v' := Installed(v, index, L.TermAt(v, index));
            L.WellFormed(v') && L.Completes(l, v') && v'.snapIndex == index
  {
  }

  /** The rest of the log is sent and taken, and the answer is lost. */
  lemma AnswerLost(g: Group, w: World, i: ReplicaId, v: ReplicaId, t: int, led: Log, n: int)
    returns (steps: seq<Step>, w': World)
    requires Behind(w, i, v, t, led, n) && |led| <= n + MAX_ENTRIES_PER_MESSAGE
    ensures v in w.replicas && v in w'.replicas && Gets(g, w, steps, w', w.replicas[v := w'.replicas[v]])
    ensures i in w'.replicas && Behind(w', i, v, t, led, n) && Holder(w', i, v, t, led)
    ensures w'.replicas[v].commit >= Min(w.replicas[i].commit, |led|)
  {
    var l :| Paired(w, i, v, t, led, l);
    var r, q := w.replicas[i], w.replicas[v];
    var q' := TakesRecords(r, q, i, v, t, led, l);
    AnswersYes(r, q, v, led);
    steps, w' := SentAndHandled(g, w, i, v, r, Sent(r, v), q', CatchUp.Yes(q, Sent(r, v)));
    assert w.replicas[i := r] == w.replicas;
    FedBehind(r, q, q', i, v, t, led, l, n);
    assert Paired(w', i, v, t, led, Follow(l, led, |led|));
    assert Fellow(w'.replicas[v], v, i, t, led, Follow(l, led, |led|)) && Agree(led, Follow(l, led, |led|), |led|);
  }

  lemma FedBehind(r: State, q: State, q': State, i: ReplicaId, v: ReplicaId, t: int, led: Log, l: Log, n: int)
    requires Pair(r, q, i, v, t, led, l) && Fed(q, q', t, Follow(l, led, |led|)) && MatchIndex(r, v) == n < |led|
    requires r.log.snapIndex <= n && q.log.snapIndex < n && NextIndex(r, v) == n + 1
    ensures Pair(r, q', i, v, t, led, Follow(l, led, |led|))
  {
    FollowMatches(l, led, |led|);
    AgreeShorter(led, Follow(l, led, |led|), |led|, n);
    AgreeShorter(led, Follow(l, led, |led|), |led|, q.log.snapIndex);
  }

  /** The follower commits and applies what it has been given, and puts it into a snapshot. */
  lemma Compacts(g: Group, w: World, i: ReplicaId, v: ReplicaId, t: int, led: Log, n: int)
    returns (steps: seq<Step>, w': World, l: Log)
    requires Behind(w, i, v, t, led, n) && Holder(w, i, v, t, led) && 0 < n && |led| == n + 2
    requires w.replicas[v].commit >= |led|
    ensures Gets(g, w, steps, w', w'.replicas) && i in w'.replicas && v in w'.replicas
    ensures Near(w'.replicas[i], w'.replicas[v], i, v, t, led, l) && Blocked(w'.replicas[i], w'.replicas[v], v)
  {
    l :| Fellow(w.replicas[v], v, i, t, led, l) && Agree(led, l, |led|);
    steps, w' := CutsLog(g, w, v, l, n + 1);
    CompactedBlocks(w.replicas[i], w.replicas[v], w'.replicas[v], i, v, t, led, l, n);
  }

  lemma CutsLog(g: Group, w: World, v: ReplicaId, l: Log, index: int) returns (steps: seq<Step>, w': World)
    requires v in w.replicas && Holds(w.replicas[v], l) && w.replicas[v].log.snapIndex < index <= |l|
    requires index <= w.replicas[v].commit
    ensures v in w'.replicas && Gets(g, w, steps, w', w.replicas[v := w'.replicas[v]])
    ensures var q, q' := w.replicas[v], w'.replicas[v];
            q'.id == q.id && q'.peers == q.peers && q'.term == q.term && Holds(q', l) && q'.log.snapIndex == index
  {
    var first, w1 := AppliesTo(g, w, v, index);
    var q1 := w1.replicas[v];
    HoldsSame(w.replicas[v], q1, l);
    SnapshotHolds(q1, l, index);
    w' := Step1(g, w1, Snapshot(v, index), v, TakeSnapshot(q1, index), {});
    Then(g, w, first, w1, [Snapshot(v, index)], w', w1.replicas, w'.replicas);
    steps := first + [Snapshot(v, index)];
  }

  lemma CompactedBlocks(r: State, q: State, q': State, i: ReplicaId, v: ReplicaId, t: int, led: Log, l: Log, n: int)
    requires Chief(r, i, t, led) && v in r.peers && Fellow(q, v, i, t, led, l) && Agree(led, l, |led|)
    requires MatchIndex(r, v) == n && NextIndex(r, v) == n + 1 && r.log.snapIndex <= n && 0 < n && |led| == n + 2
    requires q'.id == q.id && q'.peers == q.peers && q'.term == q.term && Holds(q', l) && q'.log.snapIndex == n + 1
    ensures Near(r, q', i, v, t, led, l) && Blocked(r, q', v)
  {
    AgreeShorter(led, l, |led|, n);
    AgreeShorter(led, l, |led|, n + 1);
  }

  lemma AppliesTo(g: Group, w: World, v: ReplicaId, n: int) returns (steps: seq<Step>, w': World)
    requires v in w.replicas && n <= w.replicas[v].commit
    ensures Gets(g, w, steps, w', w.replicas[v := w.replicas[v].(applied := Max(w.replicas[v].applied, n))])
  {
    var q := w.replicas[v];
    if q.applied < n {
      steps := [ApplyUpTo(v, n)];
      w' := Step1(g, w, ApplyUpTo(v, n), v, q.(applied := n), {});
    } else {
      steps, w' := [], w;
      assert w.replicas[v := q] == w.replicas;
    }
  }

  // ---------------------------------------------------------------- the whole run

  ghost predicate AllBehind(w: World, i: ReplicaId, vs: seq<ReplicaId>, t: int, led: Log, n: int) {
    forall v :: v in vs ==> Behind(w, i, v, t, led, n)
  }

  /** Everybody is brought up to date, and then the leader takes two more records. */
  lemma TwoMore(g: Group, w: World, i: ReplicaId, q: set<ReplicaId>, vs: seq<ReplicaId>, t: int, led: Log,
                payload: LogEntry)
    returns (steps: seq<Step>, w': World, led': Log)
    requires i in w.replicas && Serving(w.replicas[i], i, q, t, led) && Rest(q, i, vs)
    requires forall v :: v in vs ==> Lags(w, i, v, t, led)
    ensures Gets(g, w, steps, w', w'.replicas) && i in w'.replicas && Serving(w'.replicas[i], i, q, t, led')
    ensures |led'| == |led| + 2 && AllBehind(w', i, vs, t, led', |led|)
    ensures w'.replicas[i].voters == w.replicas[i].voters
  {
    var first, w1 := CatchesUpAll(g, w, i, vs, t, led);
    assert Serving(w1.replicas[i], i, q, t, led) && t >= 1;
    var w2, e := WritesOne(g, w1, i, t, led, payload);
    LongerChief(w1.replicas[i], w2.replicas[i], i, t, led, e);
    var e';
    w', e' := WritesOne(g, w2, i, t, led + [e], payload);
    LongerChief(w2.replicas[i], w'.replicas[i], i, t, led + [e], e');
    led' := led + [e] + [e'];
    Then(g, w, first, w1, [Submit(i, payload)], w2, w1.replicas, w2.replicas);
    Then(g, w, first + [Submit(i, payload)], w2, [Submit(i, payload)], w', w2.replicas, w'.replicas);
    steps := first + [Submit(i, payload)] + [Submit(i, payload)];
    forall v | v in vs ensures Behind(w', i, v, t, led', |led|) {
      CaughtBehind(w1, w2, i, v, t, led, e);
      BehindMore(w2, w', i, v, t, led + [e], |led|, e');
    }
  }

  lemma BehindLags(w: World, i: ReplicaId, v: ReplicaId, t: int, led: Log, n: int)
    requires Behind(w, i, v, t, led, n)
    ensures Lags(w, i, v, t, led)
  {
    var l :| Paired(w, i, v, t, led, l);
  }

  lemma StillBehind(w: World, w': World, i: ReplicaId, v: ReplicaId, t: int, led: Log, n: int)
    requires Untouched(w, w', i, v) && Behind(w, i, v, t, led, n)
    ensures Behind(w', i, v, t, led, n)
  {
    var l :| Paired(w, i, v, t, led, l);
    StillPaired(w, w', i, v, t, led, l);
  }

  lemma BehindCommitted(w: World, w': World, i: ReplicaId, v: ReplicaId, t: int, led: Log, n: int, commit: int)
    requires Behind(w, i, v, t, led, n) && i in w.replicas && i != v
    requires w'.replicas == w.replicas[i := w.replicas[i].(commit := commit)]
    ensures Behind(w', i, v, t, led, n)
  {
    var l :| Paired(w, i, v, t, led, l);
    assert Chief(w'.replicas[i], i, t, led);
    assert Paired(w', i, v, t, led, l);
  }

  /** All but v are brought up to date, and that is enough to commit. */
  lemma WithoutOne(g: Group, w: World, i: ReplicaId, q: set<ReplicaId>, vs: seq<ReplicaId>, t: int, led: Log, n: int)
    returns (steps: seq<Step>, w': World)
    requires i in w.replicas && Serving(w.replicas[i], i, q, t, led) && Rest(q, i, vs) && vs != []
    requires AllBehind(w, i, vs, t, led, n) && |q| > QuorumSize(w.replicas[i].voters)
    ensures Gets(g, w, steps, w', w'.replicas) && i in w'.replicas && w'.replicas[i].commit == |led|
    ensures Behind(w', i, vs[0], t, led, n)
  {
    var v := vs[0];
    assert v in vs;
    forall u | u in vs[1..] ensures u in vs && u != v && Lags(w, i, u, t, led) {
      Remaining(vs, u);
      assert Behind(w, i, u, t, led, n);
      BehindLags(w, i, u, t, led, n);
    }
    var first, w1 := CatchesUpAll(g, w, i, vs[1..], t, led);
    assert v !in vs[1..] && v !in SetOf(vs[1..]) + {i};
    StillBehind(w, w1, i, v, t, led, n);
    var second;
    forall u | u in q - {v} && u != i ensures IsCaught(w1, i, u, t, led) {
      assert u in vs;
      InRest(vs, u);
    }
    second, w' := CommitsAll(g, w1, i, q - {v}, t, led);
    Then(g, w, first, w1, second, w', w1.replicas, w'.replicas);
    steps := first + second;
    BehindCommitted(w1, w', i, v, t, led, n, |led|);
  }

  lemma InRest(vs: seq<ReplicaId>, u: ReplicaId)
    requires u in vs && u != vs[0]
    ensures u in vs[1..]
  {
    assert vs == [vs[0]] + vs[1..];
  }

  /** From a leader's first record to a blocked follower. */
  lemma Blocks(g: Group, w: World, i: ReplicaId, q: set<ReplicaId>, vs: seq<ReplicaId>, t: int, led: Log,
               payload: LogEntry)
    returns (steps: seq<Step>, w': World, led': Log, l: Log)
    requires i in w.replicas && Serving(w.replicas[i], i, q, t, led) && Rest(q, i, vs) && vs != [] && led != []
    requires (forall v :: v in vs ==> Lags(w, i, v, t, led)) && |q| > QuorumSize(w.replicas[i].voters)
    ensures Gets(g, w, steps, w', w'.replicas) && i in w'.replicas && vs[0] in w'.replicas
    ensures Near(w'.replicas[i], w'.replicas[vs[0]], i, vs[0], t, led', l)
    ensures Blocked(w'.replicas[i], w'.replicas[vs[0]], vs[0])
  {
    var first, w1;
    first, w1, led' := TwoMore(g, w, i, q, vs, t, led, payload);
    var second, w2 := WithoutOne(g, w1, i, q, vs, t, led', |led|);
    Then(g, w, first, w1, second, w2, w1.replicas, w2.replicas);
    var third, w3 := AnswerLost(g, w2, i, vs[0], t, led', |led|);
    Then(g, w, first + second, w2, third, w3, w2.replicas, w3.replicas);
    var fourth;
    fourth, w', l := Compacts(g, w3, i, vs[0], t, led', |led|);
    Then(g, w, first + second + third, w3, fourth, w', w3.replicas, w'.replicas);
    steps := first + second + third + fourth;
  }

  lemma Stalls(g: Group, w: World, c: Chronicle, q: set<ReplicaId>, payload: LogEntry)
    returns (i: ReplicaId, v: ReplicaId, t: int, led: Log, l: Log, steps: seq<Step>, w': World)
    requires Good(g, w, c) && q != {} && AllAble(w, q)
    requires forall v :: v in q && v in w.replicas ==> |q| > QuorumSize(w.replicas[v].voters)
    ensures Gets(g, w, steps, w', w'.replicas) && {i, v} <= q && i in w'.replicas && v in w'.replicas
    ensures Near(w'.replicas[i], w'.replicas[v], i, v, t, led, l) && Blocked(w'.replicas[i], w'.replicas[v], v)
  {
    var led0, vs, first, w1;
    i, t, led0, vs, first, w1 := StartsOff(g, w, c, q, payload);
    MoreThanOne(q, i, vs, w1.replicas[i].voters);
    v := vs[0];
    var second;
    second, w', led, l := Blocks(g, w1, i, q, vs, t, led0, payload);
    Then(g, w, first, w1, second, w', w1.replicas, w'.replicas);
    steps := first + second;
  }

  /** The property that a leader can always bring a follower up to date fails in every group: whatever has happened,
      if one member more than a quorum is ready, there is a run after which a leader is blocked, though the follower
      has all it sent.  By NeverGetsOut no exchange between the two helps; what does is a snapshot of the leader's
      own above what it knows the follower to hold. */
  lemma CanStall(g: Group, w: World, before: seq<Step>, q: set<ReplicaId>, payload: LogEntry)
    returns (i: ReplicaId, v: ReplicaId, t: int, led: Log, l: Log, steps: seq<Step>, w': World)
    requires Start(g, w) && Run(g, w, before) && Prudent(g, w, before, {}) && q != {} && q <= g.replicas
    requires var w1 := After(g, w, before);
             forall v :: v in q && v in w1.replicas ==>
               !w1.replicas[v].recovering && q <= w1.replicas[v].voters && |q| > QuorumSize(w1.replicas[v].voters)
    ensures Run(g, w, before + steps) && After(g, w, before + steps) == w'
    ensures {i, v} <= q && i in w'.replicas && v in w'.replicas
    ensures Near(w'.replicas[i], w'.replicas[v], i, v, t, led, l) && Blocked(w'.replicas[i], w'.replicas[v], v)
  {
    var c := Reachable(g, w, before);
    var w1 := After(g, w, before);
    forall v | v in q ensures Able(w1, q, v) { assert ReplicaOk(g, w1, c, v); }
    i, v, t, led, l, steps, w' := Stalls(g, w1, c, q, payload);
    ReachesFurther(g, w, before, w1, steps, w');
  }

  lemma MoreThanOne(q: set<ReplicaId>, i: ReplicaId, vs: seq<ReplicaId>, voters: set<ReplicaId>)
    requires Rest(q, i, vs) && i in q && |q| > QuorumSize(voters)
    ensures vs != [] && vs[0] in q
  {
    assert q == {i} + (q - {i});
    assert q - {i} != {};
    var u :| u in q - {i};
    assert u in vs && vs[0] in vs;
  }
}
