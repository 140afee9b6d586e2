/** No prudent run leaves a group stuck: whatever has happened, a quorum that can vote can elect a leader, have a
    new record committed on all its members, and have a read answered that began after that. */
module Progress {
  import opened Types
  import opened Replica
  import opened Consensus
  import opened Cluster
  import opened ClusterInvariant
  import opened ClusterReplication
  import opened ClusterSafety
  import opened Core
  import opened CoreRuns
  import opened Runs
  import opened Availability
  import opened CatchUp
  import Membership
  import L = RaftLog

  // ---------------------------------------------------------------- committing

  lemma QuorumHolds(r: State, q: set<ReplicaId>, n: int)
    requires q <= r.voters && |q| >= QuorumSize(r.voters) && forall v :: v in q && v != r.id ==> MatchIndex(r, v) >= n
    ensures |Holders(r, n)| >= QuorumSize(r.voters)
  {
    Membership.SubsetSize(q, Holders(r, n));
  }

  lemma LastIsOwn(r: State, i: ReplicaId, t: int, led: Log)
    requires Chief(r, i, t, led) && TermIn(led, |led|) == t
    ensures L.TermAt(r.log, |led|) == t && L.LastIndex(r.log) == |led|
  {
  }

  /** A leader whose own last record a quorum holds commits its whole log. */
  lemma CommitsAll(g: Group, w: World, i: ReplicaId, q: set<ReplicaId>, t: int, led: Log)
    returns (steps: seq<Step>, w': World)
    requires i in w.replicas && Chief(w.replicas[i], i, t, led) && TermIn(led, |led|) == t
    requires w.replicas[i].commit <= |led| && q <= w.replicas[i].voters && |q| >= QuorumSize(w.replicas[i].voters)
    requires forall v :: v in q && v != i ==> IsCaught(w, i, v, t, led)
    ensures Gets(g, w, steps, w', w.replicas[i := w.replicas[i].(commit := |led|)])
  {
    var r := w.replicas[i];
    forall v | v in q && v != r.id ensures MatchIndex(r, v) >= |led| { assert IsCaught(w, i, v, t, led); }
    QuorumHolds(r, q, |led|);
    LastIsOwn(r, i, t, led);
    steps := [Commit(i)];
    w' := Step1(g, w, Commit(i), i, r.(commit := |led|), {});
  }

  // ---------------------------------------------------------------- reading

  /** The message of a read's round. */
  function Asking(r: State, v: ReplicaId, seqNo: int): Message {
    AppendEntries(r.id, v, r.term, L.LastIndex(r.log), L.LastTerm(r.log), [], r.commit, seqNo)
  }

  lemma Keeps(l: Log, led: Log)
    requires Agree(led, l, |led|)
    ensures Follow(l, led, |led|) == l
  {
  }

  /** A follower that holds the whole log, asked in a read's round: it confirms, and hears of the commit. */
  lemma Confirms(r: State, q: State, i: ReplicaId, v: ReplicaId, t: int, led: Log, l: Log, seqNo: int)
    returns (q': State)
    requires Chief(r, i, t, led) && Fellow(q, v, i, t, led, l) && Agree(led, l, |led|) && seqNo != 0
    requires r.commit <= |led|
    ensures L.WellFormed(q.log)
    ensures OnAppendEntries(q, Asking(r, v, seqNo)) == Outcome(q', {ReadReply(v, i, seqNo, t)})
    ensures Fed(q, q', t, l) && q'.commit >= r.commit
  {
    var m := Asking(r, v, seqNo);
    assert m.prev == |led| && m.prevTerm == TermIn(led, |led|);
    q' := AcceptsRecords(q, m, l, led, m.prev);
    Keeps(l, led);
  }

  /** The read with these confirmations. */
  function Confirmed(r: State, seqNo: int, read: PendingRead, c: set<ReplicaId>): State {
    r.(pending := r.pending[seqNo := read.(confirmed := c)])
  }

  /** One voter is asked, and its answer counted. */
  lemma ConfirmedBy(g: Group, w: World, i: ReplicaId, v: ReplicaId, t: int, led: Log, l: Log, r: State, seqNo: int,
                    read: PendingRead, c: set<ReplicaId>)
    returns (steps: seq<Step>, w': World, q': State)
    requires i != v && i in w.replicas && v in w.replicas && w.replicas[i] == Confirmed(r, seqNo, read, c)
    requires Chief(r, i, t, led) && Fellow(w.replicas[v], v, i, t, led, l) && Agree(led, l, |led|) && seqNo != 0
    requires r.commit <= |led| && read.term == t && v in read.voters && Asking(r, v, seqNo) in w.net
    ensures Gets(g, w, steps, w', w.replicas[v := q'][i := Confirmed(r, seqNo, read, c + {v})])
    ensures Fed(w.replicas[v], q', t, l) && q'.commit >= r.commit
  {
    var q := w.replicas[v];
    q' := Confirms(r, q, i, v, t, led, l, seqNo);
    var m, yes := Asking(r, v, seqNo), ReadReply(v, i, seqNo, t);
    var w1 := Deliver1(g, w, m, q, Outcome(q', {yes}));
    var r' := Confirmed(r, seqNo, read, c + {v});
    Counts(r, seqNo, read, c, yes);
    w' := Deliver1(g, w1, yes, w.replicas[i], Outcome(r', {}));
    Then(g, w, [Deliver(m)], w1, [Deliver(yes)], w', w1.replicas, w'.replicas);
    steps := [Deliver(m)] + [Deliver(yes)];
  }

  lemma Counts(r: State, seqNo: int, read: PendingRead, c: set<ReplicaId>, m: Message)
    requires m.ReadReply? && m.seqNo == seqNo && m.term == read.term && m.from in read.voters
    ensures OnReadReply(Confirmed(r, seqNo, read, c), m) == Confirmed(r, seqNo, read, c + {m.from})
  {
    assert r.pending[seqNo := read.(confirmed := c)][seqNo := read.(confirmed := c + {m.from})]
           == r.pending[seqNo := read.(confirmed := c + {m.from})];
  }

  /** v knows the leader i and holds its whole log. */
  ghost predicate Holder(w: World, i: ReplicaId, v: ReplicaId, t: int, led: Log) {
    v in w.replicas && exists l :: Fellow(w.replicas[v], v, i, t, led, l) && Agree(led, l, |led|)
  }

  /** v holds the whole log and has committed it. */
  ghost predicate Committed(w: World, v: ReplicaId, led: Log) {
    v in w.replicas && w.replicas[v].commit >= |led| && exists l :: Holds(w.replicas[v], l) && Agree(led, l, |led|)
  }

  ghost predicate Asked(w: World, i: ReplicaId, v: ReplicaId, t: int, led: Log, r: State, seqNo: int,
                        read: PendingRead) {
    Holder(w, i, v, t, led) && v in read.voters && Asking(r, v, seqNo) in w.net
  }

  lemma ConfirmedByOne(g: Group, w: World, i: ReplicaId, v: ReplicaId, t: int, led: Log, r: State, seqNo: int,
                       read: PendingRead, c: set<ReplicaId>)
    returns (steps: seq<Step>, w': World)
    requires i != v && i in w.replicas && w.replicas[i] == Confirmed(r, seqNo, read, c) && Chief(r, i, t, led)
    requires r.commit == |led| && read.term == t && seqNo != 0 && Asked(w, i, v, t, led, r, seqNo, read)
    ensures Gets(g, w, steps, w', w'.replicas) && Apart(w, w', {i, v}) && i in w'.replicas
    ensures w'.replicas[i] == Confirmed(r, seqNo, read, c + {v}) && Committed(w', v, led)
  {
    var l :| Fellow(w.replicas[v], v, i, t, led, l) && Agree(led, l, |led|);
    var q';
    steps, w', q' := ConfirmedBy(g, w, i, v, t, led, l, r, seqNo, read, c);
  }

  lemma {:induction false} ConfirmedByAll(g: Group, w: World, i: ReplicaId, vs: seq<ReplicaId>, t: int, led: Log,
                                          r: State, seqNo: int, read: PendingRead, c: set<ReplicaId>)
    returns (steps: seq<Step>, w': World)
    requires i in w.replicas && w.replicas[i] == Confirmed(r, seqNo, read, c) && Chief(r, i, t, led)
    requires r.commit == |led| && read.term == t && seqNo != 0 && NoneTwice(vs) && i !in vs
    requires forall v :: v in vs ==> Asked(w, i, v, t, led, r, seqNo, read)
    ensures Gets(g, w, steps, w', w'.replicas) && Apart(w, w', SetOf(vs) + {i}) && i in w'.replicas
    ensures w'.replicas[i] == Confirmed(r, seqNo, read, c + SetOf(vs))
    ensures forall v :: v in vs ==> Committed(w', v, led)
    decreases |vs|
  {
    if vs == [] {
      steps, w' := [], w;
      assert c + SetOf(vs) == c;
    } else {
      assert vs[0] in vs;
      var first, w1 := ConfirmedByOne(g, w, i, vs[0], t, led, r, seqNo, read, c);
      forall v | v in vs[1..] ensures Asked(w1, i, v, t, led, r, seqNo, read) {
        Remaining(vs, v);
        assert Asked(w, i, v, t, led, r, seqNo, read) && w1.replicas[v] == w.replicas[v];
      }
      var rest;
      rest, w' := ConfirmedByAll(g, w1, i, vs[1..], t, led, r, seqNo, read, c + {vs[0]});
      Then(g, w, first, w1, rest, w', w1.replicas, w'.replicas);
      steps := first + rest;
      ConfirmedMore(w, w1, w', i, vs, led, c);
    }
  }

  lemma ConfirmedMore(w: World, w1: World, w': World, i: ReplicaId, vs: seq<ReplicaId>, led: Log, c: set<ReplicaId>)
    requires vs != [] && NoneTwice(vs) && i !in vs && Apart(w, w1, {i, vs[0]}) && Committed(w1, vs[0], led)
    requires Apart(w1, w', SetOf(vs[1..]) + {i}) && forall v :: v in vs[1..] ==> Committed(w', v, led)
    ensures Apart(w, w', SetOf(vs) + {i}) && forall v :: v in vs ==> Committed(w', v, led)
    ensures c + {vs[0]} + SetOf(vs[1..]) == c + SetOf(vs)
  {
    assert vs == [vs[0]] + vs[1..];
    assert vs[0] !in vs[1..];
    assert SetOf(vs) == {vs[0]} + SetOf(vs[1..]);
    assert w'.replicas[vs[0]] == w1.replicas[vs[0]];
  }

  lemma OwnIsCommitted(r: State, n: int)
    requires r.log.snapIndex < n <= r.commit && L.TermAt(r.log, n) == r.term
    ensures HasCommittedOwn(r)
  {
  }

  lemma MayRead(r: State, i: ReplicaId, t: int, led: Log)
    requires Chief(r, i, t, led) && TermIn(led, |led|) == t && r.commit == |led|
    ensures ReadableLeader(r)
  {
    LastIsOwn(r, i, t, led);
    OwnIsCommitted(r, |led|);
  }

  /** The read that a leader begins, and the leader with it. */
  function Opened(r: State): PendingRead {
    PendingRead(r.commit, r.term, r.voters, if r.id in r.voters then {r.id} else {})
  }

  lemma OpensRead(g: Group, w: World, i: ReplicaId, t: int, led: Log) returns (w': World)
    requires i in w.replicas && Chief(w.replicas[i], i, t, led) && TermIn(led, |led|) == t
    requires w.replicas[i].commit == |led| && i in w.replicas[i].voters
    ensures var r := w.replicas[i];
            var r1 := r.(nextSeq := r.nextSeq + 1);
            && ReadableLeader(r) && Enabled(g, w, BeginRead(i)) && w' == Exec(g, w, BeginRead(i))
            && Gets(g, w, [BeginRead(i)], w', w.replicas[i := Confirmed(r1, r.nextSeq, Opened(r), {i})])
            && forall v :: v in r.voters && v != i ==> Asking(r1, v, r.nextSeq) in w'.net
  {
    var r := w.replicas[i];
    MayRead(r, i, t, led);
    var o := StartRead(r);
    var r1 := r.(nextSeq := r.nextSeq + 1);
    assert o.state == Confirmed(r1, r.nextSeq, Opened(r), {i});
    w' := Exec(g, w, BeginRead(i));
    OneStep(g, w, BeginRead(i));
    forall v | v in r.voters && v != i ensures Asking(r1, v, r.nextSeq) in w'.net {
      assert Asking(r1, v, r.nextSeq) in o.sent;
    }
  }

  /** Everything committed is applied. */
  lemma AppliesAll(g: Group, w: World, i: ReplicaId) returns (steps: seq<Step>, w': World)
    requires i in w.replicas && w.replicas[i].applied <= w.replicas[i].commit
    ensures Gets(g, w, steps, w', w.replicas[i := w.replicas[i].(applied := w.replicas[i].commit)])
  {
    var r := w.replicas[i];
    if r.applied == r.commit {
      steps, w' := [], w;
      assert w.replicas[i := r] == w.replicas;
    } else {
      steps := [ApplyUpTo(i, r.commit)];
      w' := Step1(g, w, ApplyUpTo(i, r.commit), i, r.(applied := r.commit), {});
    }
  }

  /** The read that i began last is ready to be answered, all of q confirmed it and has committed led. */
  ghost predicate Served(w: World, i: ReplicaId, q: set<ReplicaId>, seqNo: int, led: Log) {
    && i in w.replicas && w.replicas[i].role.Leader? && MayAnswer(w.replicas[i], seqNo)
    && w.replicas[i].pending[seqNo].index == |led|
    && forall v :: v in q ==> Committed(w, v, led)
  }

  lemma Answerable(r: State, i: ReplicaId, t: int, led: Log, seqNo: int, read: PendingRead, q: set<ReplicaId>)
    requires Chief(r, i, t, led) && TermIn(led, |led|) == t && r.commit == |led| && |q| >= QuorumSize(r.voters)
    requires read == PendingRead(|led|, t, r.voters, read.confirmed)
    ensures MayAnswer(Confirmed(r, seqNo, read, q).(applied := |led|), seqNo)
  {
    var r' := Confirmed(r, seqNo, read, q).(applied := |led|);
    assert Chief(r', i, t, led);
    MayRead(r', i, t, led);
  }

  /** A leader that has committed its whole log, with a quorum that holds it, gets a read through. */
  lemma ReadsThrough(g: Group, w: World, i: ReplicaId, q: set<ReplicaId>, vs: seq<ReplicaId>, t: int, led: Log)
    returns (steps: seq<Step>, w': World)
    requires i in w.replicas && Chief(w.replicas[i], i, t, led) && TermIn(led, |led|) == t
    requires w.replicas[i].applied <= w.replicas[i].commit == |led| && w.replicas[i].nextSeq != 0
    requires i in q && q <= w.replicas[i].voters && |q| >= QuorumSize(w.replicas[i].voters)
    requires NoneTwice(vs) && SetOf(vs) == q - {i} && (forall v :: v in vs <==> v in q - {i})
    requires forall v :: v in vs ==> Holder(w, i, v, t, led)
    ensures Gets(g, w, steps, w', w'.replicas) && Served(w', i, q, w.replicas[i].nextSeq, led)
    ensures Full(w'.replicas[i]) == Full(w.replicas[i])
    ensures steps != [] && steps[0] == BeginRead(i)
  {
    var r := w.replicas[i];
    var r1, seqNo, read := r.(nextSeq := r.nextSeq + 1), r.nextSeq, Opened(r);
    var w1 := OpensRead(g, w, i, t, led);
    forall v | v in vs ensures Asked(w1, i, v, t, led, r1, seqNo, read) {
      assert Holder(w, i, v, t, led) && w1.replicas[v] == w.replicas[v];
    }
    assert Chief(r1, i, t, led);
    var second, w2 := ConfirmedByAll(g, w1, i, vs, t, led, r1, seqNo, read, {i});
    Then(g, w, [BeginRead(i)], w1, second, w2, w1.replicas, w2.replicas);
    Both(q, i, vs);
    var third;
    third, w' := AppliesAll(g, w2, i);
    Then(g, w, [BeginRead(i)] + second, w2, third, w', w2.replicas, w'.replicas);
    steps := [BeginRead(i)] + second + third;
    ServedAtLast(w2, w', i, q, vs, t, led, r1, seqNo, read);
  }

  lemma ServedAtLast(w: World, w': World, i: ReplicaId, q: set<ReplicaId>, vs: seq<ReplicaId>, t: int, led: Log,
                     r: State, seqNo: int, read: PendingRead)
    requires i in w.replicas && w.replicas[i] == Confirmed(r, seqNo, read, q) && Chief(r, i, t, led)
    requires TermIn(led, |led|) == t && r.commit == |led| && i in q && |q| >= QuorumSize(r.voters)
    requires read == PendingRead(|led|, t, r.voters, read.confirmed) && (forall v :: v in vs <==> v in q - {i})
    requires w'.replicas == w.replicas[i := w.replicas[i].(applied := |led|)]
    requires forall v :: v in vs ==> Committed(w, v, led)
    ensures Served(w', i, q, seqNo, led) && Full(w'.replicas[i]) == Full(r)
  {
    Answerable(r, i, t, led, seqNo, read, q);
    forall v | v in q ensures Committed(w', v, led) {
      if v == i {
        assert Holds(w'.replicas[i], led);
      } else {
        assert v in vs && Committed(w, v, led) && w'.replicas[v] == w.replicas[v];
      }
    }
  }

  // ---------------------------------------------------------------- a new leader and its quorum

  lemma {:induction false} ElectoralIsPrudent(g: Group, w: World, steps: seq<Step>, shunned: set<Slot>)
    requires Run(g, w, steps) && AllElectoral(steps)
    ensures Prudent(g, w, steps, shunned) && ShunnedIn(g, w, steps) == {}
    decreases |steps|
  {
    if steps != [] {
      assert steps[0] in steps && Electoral(steps[0]);
      assert shunned + ShunnedBy(w, steps[0]) == shunned;
      ElectoralIsPrudent(g, Exec(g, w, steps[0]), steps[1..], shunned);
    }
  }

  lemma Elects(g: Group, w: World, c: Chronicle, q: set<ReplicaId>)
    returns (i: ReplicaId, t: int, steps: seq<Step>, w': World, c': Chronicle)
    requires Good(g, w, c) && q != {} && AllAble(w, q)
    ensures Reaches(g, w, steps, w') && w.net <= w'.net && LedBy(w, w', q, i, t) && Good(g, w', c') && Apart(w, w', q)
  {
    i, t, steps, w' := SomeoneCanLead(g, w, q);
    ElectoralIsPrudent(g, w, steps, c.h.shunned);
    c' := RunKeeps(g, w, c, steps);
  }

  /** A leader that has just been elected has taken a record. */
  ghost predicate Launched(w: World, w': World, q: set<ReplicaId>, i: ReplicaId, t: int, payload: LogEntry) {
    && i in q && i in w.replicas && i in w'.replicas && CanLead(Standing(BecomeFollower(w.replicas[i], t - 1), q))
    && WritableLeader(Winner(w.replicas[i], t, q))
    && w'.replicas[i] == Propose(Winner(w.replicas[i], t, q), payload)
    && (forall v :: v in q ==> v in w.replicas && w.replicas[v].term < t)
    && forall v :: v in q && v != i ==> v in w'.replicas && w'.replicas[v] == Elector(w.replicas[v], t, i)
  }

  lemma WinnerWrites(r: State, t: int, q: set<ReplicaId>)
    requires CanLead(Standing(BecomeFollower(r, t - 1), q))
    ensures WritableLeader(Winner(r, t, q))
  {
  }

  lemma Launches(g: Group, w: World, c: Chronicle, q: set<ReplicaId>, payload: LogEntry)
    returns (i: ReplicaId, t: int, steps: seq<Step>, w': World, c': Chronicle)
    requires Good(g, w, c) && q != {} && AllAble(w, q)
    ensures Gets(g, w, steps, w', w'.replicas) && Launched(w, w', q, i, t, payload) && Good(g, w', c')
  {
    var first, w1, c1;
    i, t, first, w1, c1 := Elects(g, w, c, q);
    WinnerWrites(w.replicas[i], t, q);
    w', c' := Submits(g, w1, c1, i, payload);
    Then(g, w, first, w1, [Submit(i, payload)], w', w1.replicas, w'.replicas);
    steps := first + [Submit(i, payload)];
  }

  lemma Submits(g: Group, w: World, c: Chronicle, i: ReplicaId, payload: LogEntry) returns (w': World, c': Chronicle)
    requires Good(g, w, c) && i in w.replicas && WritableLeader(w.replicas[i])
    ensures Gets(g, w, [Submit(i, payload)], w', w.replicas[i := Propose(w.replicas[i], payload)]) && Good(g, w', c')
  {
    w' := Update(w, i, Propose(w.replicas[i], payload), {});
    c' := SubmitKeeps(g, w, c, i, payload);
    OneStep(g, w, Submit(i, payload));
  }

  /** A replica of a good world holds the log its history says it has. */
  lemma HoldsItsLog(g: Group, h: History, i: ReplicaId, r: State)
    requires Inv(g, h) && i in g.replicas && LogRel(h, i, r)
    ensures Holds(r, h.log[i]) && Full(r) == h.log[i]
  {
    FullLog(h, i, r);
    assert LogAt(h, i);
    Numbered(h, h.log[i]);
  }

  lemma Numbered(h: History, l: Log)
    requires Backed(h, l)
    ensures L.Contiguous(l, 0)
  {
    forall k | 0 <= k < |l| ensures l[k].index == k + 1 { assert BackedAt(h, l, k); }
  }

  lemma LeaderIsChief(g: Group, h: History, i: ReplicaId, r: State)
    requires Inv(g, h) && i in g.replicas && r.id == i && LogRel(h, i, r) && LeaderRel(g, h, i, r)
    requires r.role.Leader? && !r.recovering && r.log.entries != []
    ensures Chief(r, i, r.term, h.led[r.term]) && Full(r) == h.led[r.term]
  {
    HoldsItsLog(g, h, i, r);
    AllPositive(g, h, r.term);
  }

  lemma AllPositive(g: Group, h: History, t: int)
    requires Inv(g, h) && Consensus.Elected(h, t)
    ensures forall k :: 0 <= k < |h.led[t]| ==> h.led[t][k].term >= 1
  {
    forall k | 0 <= k < |h.led[t]| ensures h.led[t][k].term >= 1 { TermsArePositive(g, h, t, k + 1); }
  }

  lemma FollowerIsFellow(g: Group, h: History, v: ReplicaId, q: State, i: ReplicaId)
    requires Inv(g, h) && v in g.replicas && q.id == v && i in q.peers && LogRel(h, v, q)
    requires Consensus.Elected(h, q.term) && q.log.snapIndex < |h.led[q.term]|
    requires Agree(h.led[q.term], h.log[v], q.commit)
    ensures Fellow(q, v, i, q.term, h.led[q.term], h.log[v])
  {
    HoldsItsLog(g, h, v, q);
    LogsMatch(g, h, v, q.term);
    AgreeShorter(h.led[q.term], h.log[v], q.commit, q.log.snapIndex);
    assert LogAt(h, v);
    forall k | |h.led[q.term]| <= k < |h.log[v]| ensures h.log[v][k].term != q.term { assert BackedAt(h, h.log[v], k); }
  }

  /** What a follower without records of term t has committed ends before the leader's first one. */
  lemma CommitBelow(l: Log, led: Log, commit: int, n: int, t: int)
    requires Agree(led, l, commit) && 0 <= n < |led| && led[n].term == t && forall k :: 0 <= k < |l| ==> l[k].term < t
    ensures commit <= n
  {
  }

  /** A new leader: its first record, and nothing known of its peers. */
  lemma WinnerIs(r: State, t: int, q: set<ReplicaId>)
    requires CanLead(Standing(BecomeFollower(r, t - 1), q)) && r.term < t
    ensures var r' := Winner(r, t, q);
            && r'.log == r.log.(entries := r.log.entries + [FirstRecord(t, L.LastIndex(r.log) + 1)])
            && r' == r.(role := Leader, granted := {}, term := t, votedFor := Some(r.id), log := r'.log,
                        next := r'.next, matched := r'.matched, inflight := r'.inflight)
            && forall p :: p in r.peers && p != r.id ==>
                 NextIndex(r', p) == L.LastIndex(r.log) + 1 && MatchIndex(r', p) == 0
  {
  }

  /** The new leader's log: what it had, its first record, and the one it was given. */
  lemma LaunchedLog(r: State, t: int, q: set<ReplicaId>, payload: LogEntry, l: Log)
    requires CanLead(Standing(BecomeFollower(r, t - 1), q)) && WritableLeader(Winner(r, t, q)) && Holds(r, l)
    requires r.term < t
    ensures var r' := Propose(Winner(r, t, q), payload);
            && Full(r') == l + [FirstRecord(t, |l| + 1)] + [payload.(term := t, index := |l| + 2)]
            && r'.log.entries != []
            && r' == Winner(r, t, q).(log := r'.log)
  {
    WinnerIs(r, t, q);
    HoldsAll(r, l);
    var r1 := Winner(r, t, q);
    Appends(r, r1, FirstRecord(t, |l| + 1));
    Appends(r1, Propose(r1, payload), payload.(term := t, index := |l| + 2));
  }

  lemma HoldsAll(r: State, l: Log)
    requires Holds(r, l)
    ensures L.LastIndex(r.log) == |l| && Full(r) == l
  {
  }

  lemma Appends(r: State, r': State, e: LogEntry)
    requires r'.log == r.log.(entries := r.log.entries + [e]) && r'.snapshot == r.snapshot
    ensures Full(r') == Full(r) + [e]
  {
  }

  /** A follower of a new leader, which has no record of its term yet, can be caught up. */
  lemma FreshLag(g: Group, h: History, i: ReplicaId, r: State, v: ReplicaId, q: State, n: int)
    requires Inv(g, h) && Overlapping(g) && i in g.replicas && v in g.replicas && q.id == v && i in q.peers
    requires v in r.peers && q.term == r.term && LogRel(h, v, q) && Consensus.Elected(h, r.term)
    requires Chief(r, i, r.term, h.led[r.term]) && 0 <= n < |h.led[r.term]| && h.led[r.term][n].term == r.term
    requires (forall k :: 0 <= k < |h.log[v]| ==> h.log[v][k].term < r.term)
    requires NextIndex(r, v) == n + 1 && MatchIndex(r, v) == 0
    ensures Pair(r, q, i, v, r.term, h.led[r.term], h.log[v])
  {
    CommittedInLed(g, h, q.term, h.log[v], q.commit);
    CommitBelow(h.log[v], h.led[r.term], q.commit, n, r.term);
    FollowerIsFellow(g, h, v, q, i);
  }

  lemma SameFull(r: State, r': State)
    requires r'.log == r.log && r'.snapshot == r.snapshot
    ensures Full(r') == Full(r)
  {
  }

  /** The log of a voter holds no record of a term it had not reached. */
  lemma OldTerms(g: Group, w: World, c: Chronicle, c': Chronicle, v: ReplicaId, q: State, t: int)
    requires Good(g, w, c) && v in w.replicas && w.replicas[v].term < t && v in g.replicas && LogRel(c'.h, v, q)
    requires q.log == w.replicas[v].log && q.snapshot == w.replicas[v].snapshot
    ensures forall k :: 0 <= k < |c'.h.log[v]| ==> c'.h.log[v][k].term < t
  {
    assert ReplicaOk(g, w, c, v) && LogAt(c.h, v);
    FullLog(c.h, v, w.replicas[v]);
    FullLog(c'.h, v, q);
    SameFull(w.replicas[v], q);
  }

  /** What a new leader that has taken a record is. */
  ghost predicate Fresh(r: State, i: ReplicaId, t: int, led: Log, n: int) {
    && Chief(r, i, t, led) && r.term == t && Full(r) == led && 0 <= n && |led| == n + 2 && led[n].term == t
    && forall p :: p in r.peers && p != i ==> NextIndex(r, p) == n + 1 && MatchIndex(r, p) == 0
  }

  lemma LaunchedIsFresh(g: Group, h: History, r: State, t: int, q: set<ReplicaId>, payload: LogEntry, i: ReplicaId,
                        r': State, l: Log)
    requires CanLead(Standing(BecomeFollower(r, t - 1), q)) && WritableLeader(Winner(r, t, q)) && Holds(r, l)
    requires r.term < t && r' == Propose(Winner(r, t, q), payload) && Inv(g, h) && i in g.replicas
    requires r'.id == i && LogRel(h, i, r') && LeaderRel(g, h, i, r')
    ensures Consensus.Elected(h, t) && Fresh(r', i, t, h.led[t], |l|)
    ensures h.led[t][|l| + 1] == payload.(term := t, index := |l| + 2)
  {
    WinnerIs(r, t, q);
    HoldsAll(r, l);
    LaunchedLog(r, t, q, payload, l);
    LeaderIsChief(g, h, i, r');
  }

  /** A voter that has just been asked for its vote. */
  lemma ElectorIs(r: State, t: int, i: ReplicaId)
    requires r.term < t
    ensures var r' := Elector(r, t, i);
            && r'.term == t && r'.log == r.log && r'.snapshot == r.snapshot && r'.peers == r.peers
  {
  }

  lemma LaunchedLags(g: Group, w: World, c: Chronicle, w': World, c': Chronicle, i: ReplicaId, t: int, v: ReplicaId,
                     n: int)
    requires Good(g, w, c) && Good(g, w', c') && i in w'.replicas && v in w'.replicas && v in w.replicas && v != i
    requires Consensus.Elected(c'.h, t) && Fresh(w'.replicas[i], i, t, c'.h.led[t], n)
    requires w.replicas[v].term < t && w'.replicas[v] == Elector(w.replicas[v], t, i)
    requires v in w'.replicas[i].peers && i in w.replicas[v].peers
    ensures Lags(w', i, v, t, c'.h.led[t])
  {
    var r, q := w'.replicas[i], w'.replicas[v];
    assert ReplicaOk(g, w', c', i) && ReplicaOk(g, w', c', v);
    ElectorIs(w.replicas[v], t, i);
    OldTerms(g, w, c, c', v, q, t);
    FreshLag(g, c'.h, i, r, v, q, n);
    assert Paired(w', i, v, t, c'.h.led[t], c'.h.log[v]);
  }

  // ---------------------------------------------------------------- all together

  lemma CaughtHolds(w: World, i: ReplicaId, v: ReplicaId, t: int, led: Log, w': World)
    requires IsCaught(w, i, v, t, led) && v in w'.replicas && w'.replicas[v] == w.replicas[v]
    ensures Holder(w', i, v, t, led)
  {
    var l :| Caught(w, i, v, t, led, l);
    assert Fellow(w'.replicas[v], v, i, t, led, l) && Agree(led, l, |led|);
  }

  /** A leader that can go on to serve: its own last record, and a quorum of voters. */
  ghost predicate Serving(r: State, i: ReplicaId, q: set<ReplicaId>, t: int, led: Log) {
    && Chief(r, i, t, led) && TermIn(led, |led|) == t && r.applied <= r.commit <= |led| && r.nextSeq != 0
    && i in q && q <= r.voters && |q| >= QuorumSize(r.voters)
  }

  ghost predicate Rest(q: set<ReplicaId>, i: ReplicaId, vs: seq<ReplicaId>) {
    NoneTwice(vs) && SetOf(vs) == q - {i} && forall v :: v in vs <==> v in q - {i}
  }

  /** It brings the quorum up to date and commits its log. */
  lemma Spreads(g: Group, w: World, i: ReplicaId, q: set<ReplicaId>, vs: seq<ReplicaId>, t: int, led: Log)
    returns (steps: seq<Step>, w': World)
    requires i in w.replicas && Serving(w.replicas[i], i, q, t, led) && Rest(q, i, vs)
    requires forall v :: v in vs ==> Lags(w, i, v, t, led)
    ensures Gets(g, w, steps, w', w'.replicas) && i in w'.replicas && Serving(w'.replicas[i], i, q, t, led)
    ensures w'.replicas[i].commit == |led| && forall v :: v in vs ==> Holder(w', i, v, t, led)
  {
    var first, w1 := CatchesUpAll(g, w, i, vs, t, led);
    assert Serving(w1.replicas[i], i, q, t, led);
    var second;
    second, w' := CommitsAll(g, w1, i, q, t, led);
    Then(g, w, first, w1, second, w', w1.replicas, w'.replicas);
    steps := first + second;
    forall v | v in vs ensures Holder(w', i, v, t, led) { CaughtHolds(w1, i, v, t, led, w'); }
  }

  /** And it gets a read through. */
  lemma Serves(g: Group, w: World, i: ReplicaId, q: set<ReplicaId>, vs: seq<ReplicaId>, t: int, led: Log)
    returns (steps: seq<Step>, w': World, seqNo: int)
    requires i in w.replicas && Serving(w.replicas[i], i, q, t, led) && Rest(q, i, vs)
    requires forall v :: v in vs ==> Lags(w, i, v, t, led)
    ensures Gets(g, w, steps, w', w'.replicas) && Served(w', i, q, seqNo, led)
  {
    var first, w1 := Spreads(g, w, i, q, vs, t, led);
    seqNo := w1.replicas[i].nextSeq;
    var second;
    second, w' := ReadsThrough(g, w1, i, q, vs, t, led);
    Then(g, w, first, w1, second, w', w1.replicas, w'.replicas);
    steps := first + second;
  }

  lemma LaunchedFields(r: State, t: int, q: set<ReplicaId>, payload: LogEntry, l: Log)
    requires CanLead(Standing(BecomeFollower(r, t - 1), q)) && WritableLeader(Winner(r, t, q)) && Holds(r, l)
    requires r.term < t
    ensures var r' := Propose(Winner(r, t, q), payload);
            && r'.id == r.id && r'.peers == r.peers && r'.voters == r.voters
            && r'.commit == r.commit && r'.applied == r.applied && r'.nextSeq == r.nextSeq
            && Full(r') == l + [FirstRecord(t, |l| + 1)] + [payload.(term := t, index := |l| + 2)]
  {
    WinnerIs(r, t, q);
    LaunchedLog(r, t, q, payload, l);
  }

  /** The leader is in the history as what it is. */
  lemma LaunchedLed(g: Group, c: Chronicle, c': Chronicle, r: State, r': State, q: set<ReplicaId>, i: ReplicaId,
                    t: int, payload: LogEntry)
    returns (led: Log)
    requires Inv(g, c.h) && Inv(g, c'.h) && i in g.replicas && ReplicaRel(g, c, i, r) && ReplicaRel(g, c', i, r')
    requires CanLead(Standing(BecomeFollower(r, t - 1), q)) && WritableLeader(Winner(r, t, q)) && r.term < t
    requires r' == Propose(Winner(r, t, q), payload)
    ensures Consensus.Elected(c'.h, t) && led == c'.h.led[t] && Fresh(r', i, t, led, |led| - 2)
    ensures led != [] && led[|led| - 1] == payload.(term := t, index := |led|)
    ensures r'.peers == r.peers && r'.voters == r.voters && r'.applied <= r'.commit <= |led| && r'.nextSeq != 0
  {
    HoldsItsLog(g, c.h, i, r);
    LaunchedFields(r, t, q, payload, c.h.log[i]);
    LaunchedLeads(r, t, q, payload);
    LaunchedIsFresh(g, c'.h, r, t, q, payload, i, r', c.h.log[i]);
    led := c'.h.led[t];
  }

  lemma LaunchedLeads(r: State, t: int, q: set<ReplicaId>, payload: LogEntry)
    requires CanLead(Standing(BecomeFollower(r, t - 1), q)) && WritableLeader(Winner(r, t, q))
    ensures Propose(Winner(r, t, q), payload).role.Leader?
  {
  }

  lemma LaunchedServes(g: Group, w: World, c: Chronicle, w': World, c': Chronicle, q: set<ReplicaId>, i: ReplicaId,
                       t: int, payload: LogEntry)
    returns (led: Log)
    requires Good(g, w, c) && Good(g, w', c') && Launched(w, w', q, i, t, payload) && Able(w, q, i)
    ensures Consensus.Elected(c'.h, t) && led == c'.h.led[t] && led != []
    ensures led[|led| - 1] == payload.(term := t, index := |led|)
    ensures Fresh(w'.replicas[i], i, t, led, |led| - 2) && Serving(w'.replicas[i], i, q, t, led)
    ensures w'.replicas[i].peers == w.replicas[i].peers && w'.replicas[i].voters == w.replicas[i].voters
  {
    assert ReplicaOk(g, w, c, i) && ReplicaOk(g, w', c', i);
    led := LaunchedLed(g, c, c', w.replicas[i], w'.replicas[i], q, i, t, payload);
  }

  lemma AllLag(g: Group, w: World, c: Chronicle, w': World, c': Chronicle, q: set<ReplicaId>, i: ReplicaId, t: int,
               payload: LogEntry, vs: seq<ReplicaId>, n: int)
    requires Good(g, w, c) && Good(g, w', c') && Launched(w, w', q, i, t, payload) && AllAble(w, q) && Rest(q, i, vs)
    requires Consensus.Elected(c'.h, t) && Fresh(w'.replicas[i], i, t, c'.h.led[t], n)
    requires w'.replicas[i].peers == w.replicas[i].peers
    ensures forall v :: v in vs ==> Lags(w', i, v, t, c'.h.led[t])
  {
    assert Able(w, q, i) && ReplicaOk(g, w, c, i);
    forall v | v in vs ensures Lags(w', i, v, t, c'.h.led[t]) {
      assert v in q - {i} && Able(w, q, v) && ReplicaOk(g, w, c, v);
      LaunchedLags(g, w, c, w', c', i, t, v, n);
    }
  }

  /** A new leader with a record to spread, and the rest of its quorum. */
  lemma StartsOff(g: Group, w: World, c: Chronicle, q: set<ReplicaId>, payload: LogEntry)
    returns (i: ReplicaId, t: int, led: Log, vs: seq<ReplicaId>, steps: seq<Step>, w': World)
    requires Good(g, w, c) && q != {} && AllAble(w, q)
    ensures i in q && led != [] && led[|led| - 1] == payload.(term := t, index := |led|)
    ensures Gets(g, w, steps, w', w'.replicas) && i in w'.replicas && Serving(w'.replicas[i], i, q, t, led)
    ensures Rest(q, i, vs) && forall v :: v in vs ==> Lags(w', i, v, t, led)
    ensures i in w.replicas && w'.replicas[i].voters == w.replicas[i].voters
  {
    var c';
    i, t, steps, w', c' := Launches(g, w, c, q, payload);
    assert Able(w, q, i);
    led := LaunchedServes(g, w, c, w', c', q, i, t, payload);
    vs := Listed(q - {i});
    AllLag(g, w, c, w', c', q, i, t, payload, vs, |led| - 2);
  }

  /** From every world a quorum gets on: it elects a leader, which takes the record, brings the others up to date,
      commits its log and answers a read. */
  lemma GetsOn(g: Group, w: World, c: Chronicle, q: set<ReplicaId>, payload: LogEntry)
    returns (i: ReplicaId, t: int, led: Log, steps: seq<Step>, w': World, seqNo: int)
    requires Good(g, w, c) && q != {} && AllAble(w, q)
    ensures i in q && led != [] && led[|led| - 1] == payload.(term := t, index := |led|)
    ensures Gets(g, w, steps, w', w'.replicas) && Served(w', i, q, seqNo, led)
  {
    var first, w1, vs;
    i, t, led, vs, first, w1 := StartsOff(g, w, c, q, payload);
    var second;
    second, w', seqNo := Serves(g, w1, i, q, vs, t, led);
    Then(g, w, first, w1, second, w', w1.replicas, w'.replicas);
    steps := first + second;
  }

  /** A group is never stuck: whatever has happened, if the members of a quorum have come through their recovery
      and count each other as voters, one of them can be elected, have a record that it is given committed by them
      all, and then answer a read of everything up to that record. */
  lemma NeverStuck(g: Group, w: World, before: seq<Step>, q: set<ReplicaId>, payload: LogEntry)
    returns (i: ReplicaId, t: int, led: Log, steps: seq<Step>, w': World, seqNo: int)
    requires Start(g, w) && Run(g, w, before) && Prudent(g, w, before, {}) && q != {} && q <= g.replicas
    requires var w1 := After(g, w, before);
             forall v :: v in q && v in w1.replicas ==>
               !w1.replicas[v].recovering && q <= w1.replicas[v].voters
               && |q| >= QuorumSize(w1.replicas[v].voters)
    ensures i in q && Run(g, w, before + steps) && After(g, w, before + steps) == w'
    ensures led != [] && led[|led| - 1] == payload.(term := t, index := |led|)
    ensures forall v :: v in q ==>
              v in w'.replicas && w'.replicas[v].commit >= |led| && Agree(led, Full(w'.replicas[v]), |led|)
    ensures w'.replicas[i].role.Leader? && MayAnswer(w'.replicas[i], seqNo)
    ensures w'.replicas[i].pending[seqNo].index == |led|
  {
    var c := Reachable(g, w, before);
    var w1 := After(g, w, before);
    forall v | v in q ensures Able(w1, q, v) { assert ReplicaOk(g, w1, c, v); }
    i, t, led, steps, w', seqNo := GetsOn(g, w1, c, q, payload);
    ReachesFurther(g, w, before, w1, steps, w');
    forall v | v in q ensures v in w'.replicas && Agree(led, Full(w'.replicas[v]), |led|) {
      assert Committed(w', v, led);
      var l :| Holds(w'.replicas[v], l) && Agree(led, l, |led|);
      HoldsAll(w'.replicas[v], l);
    }
  }
}
