/** Building runs of the cluster step by step: replication rounds, elections, commits and changes of
    members with given outcomes, for replicas that have no snapshot yet. */
module Runs {
  import opened Types
  import opened Replica
  import opened Consensus
  import opened Cluster
  import opened Core
  import opened CoreRuns
  import opened ClusterReplication
  import L = RaftLog

  /** Records are numbered from one, and terms are found by index. */
  ghost predicate Tidy(l: Log) {
    && L.Contiguous(l, 0) && L.LastIndex(L.View(l, 0, 0)) == |l|
    && L.LastTerm(L.View(l, 0, 0)) == TermIn(l, |l|)
    && forall k :: 0 <= k ==> L.TermAt(L.View(l, 0, 0), k) == TermIn(l, k)
  }

  // ---------------------------------------------------------------- short runs

  /** The run exists and has changed these replicas only. */
  ghost predicate Gets(g: Group, w: World, steps: seq<Step>, w': World, replicas: map<ReplicaId, State>) {
    Reaches(g, w, steps, w') && w'.replicas == replicas && w.net <= w'.net
  }

  lemma Step1(g: Group, w: World, s: Step, i: ReplicaId, r: State, sent: set<Message>) returns (w': World)
    requires Enabled(g, w, s) && Exec(g, w, s) == Update(w, i, r, sent)
    ensures Gets(g, w, [s], w', w.replicas[i := r]) && sent <= w'.net
  {
    w' := Exec(g, w, s);
    OneStep(g, w, s);
  }

  lemma Then(g: Group, w: World, a: seq<Step>, w1: World, b: seq<Step>, w2: World, rs: map<ReplicaId, State>,
             rs2: map<ReplicaId, State>)
    requires Gets(g, w, a, w1, rs) && Gets(g, w1, b, w2, rs2)
    ensures Gets(g, w, a + b, w2, rs2)
  {
    ReachesFurther(g, w, a, w1, b, w2);
  }

  // ---------------------------------------------------------------- one handler at a time

  /** The log a follower is left with when it takes a slice of a log that matches its own. */
  lemma Merges(l: Log, led: Log, prev: int, es: Log)
    requires L.Contiguous(l, 0) && L.Contiguous(led, 0) && L.Matching(l, led)
    requires L.IsSlice(es, led, prev) && Agree(led, l, prev)
    ensures var l' := Follow(l, led, prev + |es|);
            && L.Merge(L.View(l, 0, 0), es).Merged? && L.Merge(L.View(l, 0, 0), es).log == L.View(l', 0, 0)
            && L.LastIndex(L.View(l', 0, 0)) == |l'|
  {
    L.MergeFollows(L.View(l, 0, 0), l, led, prev, es);
    var l' := Follow(l, led, prev + |es|);
    assert L.Merge(L.View(l, 0, 0), es).log.entries == l';
  }

  /** The handler's outcome on an accepted message, the merged log given. */
  function Accept(r: State, m: Message, l': Log): Outcome
    requires m.AppendEntries?
  {
    Outcome(r.(log := L.View(l', 0, 0), recovering := false,
               commit := if m.commit > r.commit then Min(m.commit, |l'|) else r.commit),
            {AppendReply(r.id, m.from, m.term, m.prev, |m.entries|, m.term, true, L.LastIndex(r.log))})
  }

  lemma AcceptedInTerm(r: State, m: Message, l': Log)
    requires m.AppendEntries? && m.readSeq == 0 && m.from in r.peers && r.term == m.term && r.role.Follower?
    requires L.WellFormed(r.log) && Checks(r, m)
    requires L.Merge(r.log, m.entries).Merged? && L.Merge(r.log, m.entries).log == L.View(l', 0, 0)
    requires L.LastIndex(L.View(l', 0, 0)) == |l'|
    ensures OnAppendEntries(r, m) == Accept(r, m, l')
  {
    AppendCases(r, m);
  }

  lemma Accepted(r: State, m: Message, l: Log, led: Log)
    requires m.AppendEntries? && m.readSeq == 0 && m.from in r.peers && r.term <= m.term && r.log == L.View(l, 0, 0)
    requires L.Contiguous(l, 0) && L.Contiguous(led, 0) && L.Matching(l, led)
    requires L.IsSlice(m.entries, led, m.prev) && Agree(led, l, m.prev) && m.prevTerm == TermIn(led, m.prev)
    ensures L.WellFormed(r.log)
    ensures OnAppendEntries(r, m) == Accept(StepTo(r, m.term), m, Follow(l, led, m.prev + |m.entries|))
  {
    AppendAfterStep(r, m);
    Merges(l, led, m.prev, m.entries);
    StepToIdempotent(r, m.term);
    AcceptedInTerm(StepTo(r, m.term), m, Follow(l, led, m.prev + |m.entries|));
  }

  lemma Deliver1(g: Group, w: World, m: Message, r: State, o: Outcome) returns (w': World)
    requires m in w.net && m.to in w.replicas && w.replicas[m.to] == r && L.WellFormed(r.log) && Handle(r, m) == o
    ensures Gets(g, w, [Deliver(m)], w', w.replicas[m.to := o.state]) && o.sent <= w'.net
  {
    w' := Step1(g, w, Deliver(m), m.to, o.state, o.sent);
  }

  function Taken(q: State, t: int, l': Log, commit: int): State {
    q.(term := t, votedFor := if t == q.term then q.votedFor else None, log := L.View(l', 0, 0), recovering := false,
       commit := if commit > q.commit then Min(commit, |l'|) else q.commit)
  }

  /** The message a leader without a snapshot sends next. */
  function Sent(r: State, p: ReplicaId): Message {
    AppendEntries(r.id, p, r.term, NextIndex(r, p) - 1, L.TermAt(r.log, NextIndex(r, p) - 1),
                  L.EntriesFrom(r.log, NextIndex(r, p), MAX_ENTRIES_PER_MESSAGE), r.commit, 0)
  }

  lemma Sends(g: Group, w: World, i: ReplicaId, p: ReplicaId) returns (w': World)
    requires i in w.replicas && p != i
    requires var r := w.replicas[i];
             r.id == i && r.role.Leader? && p in r.peers && r.log.snapIndex == 0 && 1 <= NextIndex(r, p)
    ensures Gets(g, w, [Send(i, p)], w', w.replicas) && Sent(w.replicas[i], p) in w'.net
  {
    var r := w.replicas[i];
    assert Replicate(r, p) == Outcome(r, {Sent(r, p)});
    w' := Step1(g, w, Send(i, p), i, r, {Sent(r, p)});
    assert w.replicas[i := r] == w.replicas;
  }

  function Reply(m: Message, last: int): Message
    requires m.AppendEntries?
  {
    AppendReply(m.to, m.from, m.term, m.prev, |m.entries|, m.term, true, last)
  }

  lemma TakenIs(q: State, m: Message, l: Log, led: Log)
    requires m.AppendEntries? && m.readSeq == 0 && q.id == m.to && q.role.Follower? && q.granted == {}
    requires m.from in q.peers && q.term <= m.term && q.log == L.View(l, 0, 0)
    requires L.Contiguous(l, 0) && L.Contiguous(led, 0) && L.Matching(l, led)
    requires L.IsSlice(m.entries, led, m.prev) && Agree(led, l, m.prev) && m.prevTerm == TermIn(led, m.prev)
    ensures L.WellFormed(q.log)
    ensures OnAppendEntries(q, m) == Outcome(Taken(q, m.term, Follow(l, led, m.prev + |m.entries|), m.commit),
                                             {Reply(m, L.LastIndex(q.log))})
  {
    Accepted(q, m, l, led);
  }

  lemma Acks(g: Group, w: World, m: Message, last: int) returns (w': World)
    requires m.AppendEntries? && Reply(m, last) in w.net && m.from in w.replicas
    requires var r := w.replicas[m.from];
             && r.role.Leader? && !r.recovering && r.term == m.term && NextIndex(r, m.to) == m.prev + 1
             && L.WellFormed(r.log)
    ensures Gets(g, w, [Deliver(Reply(m, last))], w',
                 w.replicas[m.from := Advance(w.replicas[m.from], m.to, m.prev + |m.entries|)])
  {
    w' := Step1(g, w, Deliver(Reply(m, last)), m.from, Advance(w.replicas[m.from], m.to, m.prev + |m.entries|), {});
  }

  /** A message of the leader's records is accepted, and its reply taken in. */
  lemma Takes(g: Group, w: World, m: Message, l: Log, led: Log) returns (steps: seq<Step>, w': World)
    requires m in w.net && m.AppendEntries? && m.readSeq == 0 && m.to in w.replicas && m.from in w.replicas
    requires m.to != m.from
    requires var q := w.replicas[m.to];
             && q.id == m.to && q.role.Follower? && q.granted == {} && m.from in q.peers && q.term <= m.term
             && q.log == L.View(l, 0, 0)
    requires L.Contiguous(l, 0) && L.Contiguous(led, 0) && L.Matching(l, led)
    requires L.IsSlice(m.entries, led, m.prev) && Agree(led, l, m.prev) && m.prevTerm == TermIn(led, m.prev)
    requires var r := w.replicas[m.from];
             && r.role.Leader? && !r.recovering && r.term == m.term && NextIndex(r, m.to) == m.prev + 1
             && L.WellFormed(r.log)
    ensures var n := m.prev + |m.entries|;
            Gets(g, w, steps, w', w.replicas[m.to := Taken(w.replicas[m.to], m.term, Follow(l, led, n), m.commit)]
                                         [m.from := Advance(w.replicas[m.from], m.to, n)])
  {
    var q := w.replicas[m.to];
    TakenIs(q, m, l, led);
    var w1 := Deliver1(g, w, m, q, OnAppendEntries(q, m));
    var last := L.LastIndex(q.log);
    w' := Acks(g, w1, m, last);
    Then(g, w, [Deliver(m)], w1, [Deliver(Reply(m, last))], w', w1.replicas, w'.replicas);
    steps := [Deliver(m)] + [Deliver(Reply(m, last))];
  }

  lemma Slices(led: Log, k: int, n: int)
    requires L.LastIndex(L.View(led, 0, 0)) == |led| && 1 <= k <= |led| + 1
    requires n == Min(k - 1 + MAX_ENTRIES_PER_MESSAGE, |led|)
    ensures L.EntriesFrom(L.View(led, 0, 0), k, MAX_ENTRIES_PER_MESSAGE) == led[k - 1..n]
  {
  }

  lemma SentIs(r: State, p: ReplicaId, led: Log, n: int)
    requires r.log == L.View(led, 0, 0) && L.LastIndex(r.log) == |led| && 1 <= NextIndex(r, p) <= |led| + 1
    requires L.TermAt(r.log, NextIndex(r, p) - 1) == TermIn(led, NextIndex(r, p) - 1)
    requires n == Min(NextIndex(r, p) - 1 + MAX_ENTRIES_PER_MESSAGE, |led|)
    ensures var m := Sent(r, p);
            L.IsSlice(m.entries, led, m.prev) && m.prev + |m.entries| == n && m.prevTerm == TermIn(led, m.prev)
  {
    Slices(led, NextIndex(r, p), n);
  }

  ghost predicate Leads(w: World, i: ReplicaId, p: ReplicaId, led: Log) {
    && i in w.replicas && p in w.replicas && p != i
    && var r := w.replicas[i];
       && r.id == i && r.role.Leader? && !r.recovering && p in r.peers && r.log == L.View(led, 0, 0)
       && 1 <= NextIndex(r, p) <= |led| + 1
  }

  ghost predicate Listens(w: World, i: ReplicaId, p: ReplicaId, l: Log) {
    && i in w.replicas && p in w.replicas
    && var q := w.replicas[p];
       && q.id == p && q.role.Follower? && q.granted == {} && i in q.peers && q.term <= w.replicas[i].term
       && q.log == L.View(l, 0, 0)
  }

  /** One round of replication: records sent, accepted and acknowledged. */
  lemma Feeds(g: Group, w: World, i: ReplicaId, p: ReplicaId, l: Log, led: Log, n: int)
    returns (steps: seq<Step>, w': World)
    requires Leads(w, i, p, led) && Listens(w, i, p, l) && Tidy(l) && Tidy(led) && L.Matching(l, led)
    requires Agree(led, l, NextIndex(w.replicas[i], p) - 1)
    requires n == Min(NextIndex(w.replicas[i], p) - 1 + MAX_ENTRIES_PER_MESSAGE, |led|)
    ensures var r, q := w.replicas[i], w.replicas[p];
            Gets(g, w, steps, w', w.replicas[p := Taken(q, r.term, Follow(l, led, n), r.commit)][i := Advance(r, p, n)])
  {
    var w1 := Sends(g, w, i, p);
    var m := Sent(w.replicas[i], p);
    SentIs(w.replicas[i], p, led, n);
    var rest;
    rest, w' := Takes(g, w1, m, l, led);
    Then(g, w, [Send(i, p)], w1, rest, w', w1.replicas, w'.replicas);
    steps := [Send(i, p)] + rest;
  }

  /** Records are applied, the last of them a change of members. */
  lemma Learns(g: Group, w: World, i: ReplicaId, n: int, peers: set<ReplicaId>, voters: set<ReplicaId>)
    returns (steps: seq<Step>, w': World)
    requires i in w.replicas && MemberList(g, peers, voters)
    requires var r := w.replicas[i];
             && r.id == i && i in peers && !r.role.Candidate? && r.applied < n <= r.commit
             && (r.role.Leader? ==> i in voters)
    ensures Gets(g, w, steps, w', w.replicas[i := w.replicas[i].(applied := n, peers := peers, voters := voters)])
  {
    var r := w.replicas[i];
    var w1 := Step1(g, w, ApplyUpTo(i, n), i, r.(applied := n), {});
    w' := Step1(g, w1, Configure(i, peers, voters), i, r.(applied := n, peers := peers, voters := voters), {});
    Then(g, w, [ApplyUpTo(i, n)], w1, [Configure(i, peers, voters)], w', w1.replicas, w'.replicas);
    steps := [ApplyUpTo(i, n)] + [Configure(i, peers, voters)];
  }

  lemma SubmitsOne(g: Group, w: World, i: ReplicaId, led: Log, e: LogEntry) returns (w': World)
    requires i in w.replicas && WritableLeader(w.replicas[i]) && w.replicas[i].log == L.View(led, 0, 0) && Tidy(led)
    requires e.term == w.replicas[i].term && e.index == |led| + 1
    ensures Gets(g, w, [Submit(i, e)], w', w.replicas[i := w.replicas[i].(log := L.View(led + [e], 0, 0))])
  {
    w' := Step1(g, w, Submit(i, e), i, w.replicas[i].(log := L.View(led + [e], 0, 0)), {});
  }

  // ---------------------------------------------------------------- what replicas are doing

  /** Only the replicas in `moved` differ. */
  ghost predicate Apart(w: World, w': World, moved: set<ReplicaId>) {
    w'.replicas.Keys == w.replicas.Keys &&
      forall v :: v in w.replicas && v !in moved ==> w'.replicas[v] == w.replicas[v]
  }

  /** Log, cursors and member list of a replica without a snapshot. */
  datatype Tale = Tale(log: Log, commit: int, applied: int, peers: set<ReplicaId>, voters: set<ReplicaId>)

  ghost predicate Tells(r: State, id: ReplicaId, x: Tale) {
    && r.id == id && !r.recovering && r.log == L.View(x.log, 0, 0) && r.snapshot == []
    && r.commit == x.commit && r.applied == x.applied && r.peers == x.peers && r.voters == x.voters
  }

  ghost predicate Trails(r: State, id: ReplicaId, t: int, x: Tale) {
    Tells(r, id, x) && r.role.Follower? && r.granted == {} && r.term <= t
  }

  ghost predicate Heads(r: State, id: ReplicaId, t: int, x: Tale) {
    Tells(r, id, x) && r.role.Leader? && r.term == t
  }

  ghost predicate Ahead(w: World, i: ReplicaId, t: int, x: Tale) { i in w.replicas && Heads(w.replicas[i], i, t, x) }

  ghost predicate Behind(w: World, p: ReplicaId, t: int, x: Tale) { p in w.replicas && Trails(w.replicas[p], p, t, x) }

  /** How far the leader i has come with p. */
  ghost predicate Reached(w: World, i: ReplicaId, p: ReplicaId, next: int, matched: int) {
    i in w.replicas && NextIndex(w.replicas[i], p) == next && MatchIndex(w.replicas[i], p) == matched
  }

  /** What a follower makes of a message that leaves it with log l. */
  function Told(x: Tale, l: Log, commit: int): Tale {
    x.(log := l, commit := if commit > x.commit then Min(commit, |l|) else x.commit)
  }

  /** The leader's progress with everybody but p is the same. */
  ghost predicate SameProgress(r: State, r': State, p: ReplicaId) {
    forall q :: q != p ==> NextIndex(r', q) == NextIndex(r, q) && MatchIndex(r', q) == MatchIndex(r, q)
  }

  /** A replication round between a leader and a follower. */
  lemma Round(g: Group, w: World, i: ReplicaId, p: ReplicaId, t: int, x: Tale, y: Tale, n: int, l': Log)
    returns (steps: seq<Step>, w': World)
    requires i in w.replicas && p in w.replicas && i != p
    requires Heads(w.replicas[i], i, t, x) && Trails(w.replicas[p], p, t, y)
    requires p in x.peers && i in y.peers && Tidy(x.log) && Tidy(y.log) && L.Matching(y.log, x.log)
    requires 1 <= NextIndex(w.replicas[i], p) <= |x.log| + 1 && Agree(x.log, y.log, NextIndex(w.replicas[i], p) - 1)
    requires n == Min(NextIndex(w.replicas[i], p) - 1 + MAX_ENTRIES_PER_MESSAGE, |x.log|)
    requires l' == Follow(y.log, x.log, n) && MatchIndex(w.replicas[i], p) <= n
    ensures Gets(g, w, steps, w', w'.replicas) && Apart(w, w', {i, p}) && i in w'.replicas && p in w'.replicas
    ensures Heads(w'.replicas[i], i, t, x) && Trails(w'.replicas[p], p, t, Told(y, l', x.commit))
    ensures w'.replicas[p].term == t
    ensures SameProgress(w.replicas[i], w'.replicas[i], p)
    ensures NextIndex(w'.replicas[i], p) == n + 1 && MatchIndex(w'.replicas[i], p) == n
  {
    steps, w' := Feeds(g, w, i, p, y.log, x.log, n);
  }

  lemma PrefixGrows(l: Log, led: Log, n: int)
    requires Agree(l, led, |l|) && |l| <= n <= |led|
    ensures Follow(l, led, n) == led[..n] && L.Matching(l, led)
  {
    if Agree(led, l, n) { assert l == led[..n]; }
  }

  /** The same, the follower's log being the beginning of the leader's. */
  lemma Fills(g: Group, w: World, i: ReplicaId, p: ReplicaId, t: int, x: Tale, y: Tale, n: int)
    returns (steps: seq<Step>, w': World)
    requires i in w.replicas && p in w.replicas && i != p
    requires Heads(w.replicas[i], i, t, x) && Trails(w.replicas[p], p, t, y)
    requires p in x.peers && i in y.peers && Tidy(x.log) && Tidy(y.log) && Agree(y.log, x.log, |y.log|)
    requires 1 <= NextIndex(w.replicas[i], p) <= |y.log| + 1 && |y.log| <= n && MatchIndex(w.replicas[i], p) <= n
    requires n == Min(NextIndex(w.replicas[i], p) - 1 + MAX_ENTRIES_PER_MESSAGE, |x.log|)
    ensures Gets(g, w, steps, w', w'.replicas) && Apart(w, w', {i, p}) && i in w'.replicas && p in w'.replicas
    ensures Heads(w'.replicas[i], i, t, x) && Trails(w'.replicas[p], p, t, Told(y, x.log[..n], x.commit))
    ensures w'.replicas[p].term == t
    ensures SameProgress(w.replicas[i], w'.replicas[i], p)
    ensures NextIndex(w'.replicas[i], p) == n + 1 && MatchIndex(w'.replicas[i], p) == n
  {
    PrefixGrows(y.log, x.log, n);
    steps, w' := Round(g, w, i, p, t, x, y, n, x.log[..n]);
  }

  /** A leader probes a follower beyond its end, is rejected and goes back to it. */
  lemma Probe(g: Group, w: World, i: ReplicaId, p: ReplicaId, t: int, x: Tale, y: Tale)
    returns (steps: seq<Step>, w': World)
    requires i in w.replicas && p in w.replicas && i != p
    requires Heads(w.replicas[i], i, t, x) && Trails(w.replicas[p], p, t, y)
    requires p in x.peers && i in y.peers && Tidy(x.log) && Tidy(y.log) && MatchIndex(w.replicas[i], p) == 0
    requires |y.log| < NextIndex(w.replicas[i], p) - 1 <= |x.log|
    requires TermIn(x.log, NextIndex(w.replicas[i], p) - 1) != 0
    ensures Gets(g, w, steps, w', w'.replicas) && Apart(w, w', {i, p}) && i in w'.replicas && p in w'.replicas
    ensures Heads(w'.replicas[i], i, t, x) && Trails(w'.replicas[p], p, t, y) && w'.replicas[p].term == t
    ensures SameProgress(w.replicas[i], w'.replicas[i], p)
    ensures NextIndex(w'.replicas[i], p) == |y.log| + 1 && MatchIndex(w'.replicas[i], p) == 0
  {
    var r, q := w.replicas[i], w.replicas[p];
    var w1 := Sends(g, w, i, p);
    var m := Sent(r, p);
    Misses(q, m, y.log);
    var w2 := Deliver1(g, w1, m, q, OnAppendEntries(q, m));
    Then(g, w, [Send(i, p)], w1, [Deliver(m)], w2, w1.replicas, w2.replicas);
    var no := AppendReply(p, i, t, m.prev, |m.entries|, t, false, |y.log|);
    w' := Deliver1(g, w2, no, r, Outcome(BackOff(r, p, |y.log|), {}));
    Then(g, w, [Send(i, p)] + [Deliver(m)], w2, [Deliver(no)], w', w2.replicas, w'.replicas);
    steps := [Send(i, p)] + [Deliver(m)] + [Deliver(no)];
  }

  lemma Misses(q: State, m: Message, l: Log)
    requires m.AppendEntries? && m.readSeq == 0 && q.log == L.View(l, 0, 0) && Tidy(l) && m.from in q.peers
    requires q.role.Follower? && q.granted == {} && q.term <= m.term && |l| < m.prev && m.prevTerm != 0
    ensures L.WellFormed(q.log)
    ensures OnAppendEntries(q, m) ==
            Outcome(q.(term := m.term, votedFor := if m.term == q.term then q.votedFor else None),
                    {AppendReply(q.id, m.from, m.term, m.prev, |m.entries|, m.term, false, |l|)})
  {
  }

  /** A leader commits up to n. */
  lemma Commitment(g: Group, w: World, i: ReplicaId, t: int, x: Tale, n: int) returns (steps: seq<Step>, w': World)
    requires i in w.replicas && Heads(w.replicas[i], i, t, x) && Tidy(x.log)
    requires x.commit < n <= |x.log| && CommitRule(w.replicas[i], |x.log|) == n
    ensures Gets(g, w, steps, w', w'.replicas) && Apart(w, w', {i}) && i in w'.replicas
    ensures Heads(w'.replicas[i], i, t, x.(commit := n)) && SameProgress(w.replicas[i], w'.replicas[i], i)
  {
    steps := [Commit(i)];
    w' := Step1(g, w, Commit(i), i, w.replicas[i].(commit := n), {});
  }

  /** A leader or follower applies what is committed, the last record a change of members. */
  lemma Change(g: Group, w: World, i: ReplicaId, x: Tale, peers: set<ReplicaId>, voters: set<ReplicaId>)
    returns (steps: seq<Step>, w': World)
    requires i in w.replicas && Tells(w.replicas[i], i, x) && !w.replicas[i].role.Candidate? && x.applied < x.commit
    requires MemberList(g, peers, voters) && i in peers && (w.replicas[i].role.Leader? ==> i in voters)
    ensures var r' := w.replicas[i].(applied := x.commit, peers := peers, voters := voters);
            && Gets(g, w, steps, w', w.replicas[i := r'])
            && Tells(r', i, x.(applied := x.commit, peers := peers, voters := voters))
  {
    steps, w' := Learns(g, w, i, x.commit, peers, voters);
  }

  /** A replica applies what is committed. */
  lemma Drain(g: Group, w: World, i: ReplicaId, x: Tale) returns (steps: seq<Step>, w': World)
    requires i in w.replicas && Tells(w.replicas[i], i, x) && x.applied < x.commit
    ensures var r' := w.replicas[i].(applied := x.commit);
            Gets(g, w, steps, w', w.replicas[i := r']) && Tells(r', i, x.(applied := x.commit))
  {
    steps := [ApplyUpTo(i, x.commit)];
    w' := Step1(g, w, ApplyUpTo(i, x.commit), i, w.replicas[i].(applied := x.commit), {});
  }

  /** A leader takes one more record. */
  lemma Submission(g: Group, w: World, i: ReplicaId, t: int, x: Tale, e: LogEntry) returns (steps: seq<Step>, w': World)
    requires i in w.replicas && Heads(w.replicas[i], i, t, x) && i in x.voters && Tidy(x.log)
    requires e.term == t && e.index == |x.log| + 1
    ensures var r' := w.replicas[i].(log := L.View(x.log + [e], 0, 0));
            Gets(g, w, steps, w', w.replicas[i := r']) && Heads(r', i, t, x.(log := x.log + [e]))
  {
    steps := [Submit(i, e)];
    w' := SubmitsOne(g, w, i, x.log, e);
  }

  // ---------------------------------------------------------------- elections

  /** The candidate with the votes it has. */
  function Standing(r: State, granted: set<ReplicaId>): State {
    r.(role := Candidate, term := r.term + 1, votedFor := Some(r.id), granted := granted)
  }

  function Ask(r: State, v: ReplicaId): Message {
    RequestVote(r.id, v, r.term + 1, L.LastIndex(r.log), L.LastTerm(r.log))
  }

  function Yes(r: State, v: ReplicaId): Message { VoteReply(v, r.id, r.term + 1, true) }

  /** A voter in an earlier term whose log is not ahead. */
  ghost predicate MayGrant(q: State, r: State) {
    && !q.recovering && q.id in q.voters && r.id in q.voters && q.term <= r.term && L.WellFormed(q.log)
    && !LaterThan(q, L.LastTerm(r.log), L.LastIndex(r.log))
  }

  function Voted(q: State, r: State): State { BecomeFollower(q, r.term + 1).(votedFor := Some(r.id)) }

  lemma Granted(q: State, r: State)
    requires MayGrant(q, r)
    ensures OnRequestVote(q, Ask(r, q.id)) == Outcome(Voted(q, r), {Yes(r, q.id)})
  {
  }

  /** A step of an election. */
  ghost predicate Electoral(s: Step) {
    s.HearTerm? || s.StandUp? || s.Win? || (s.Deliver? && (s.m.RequestVote? || s.m.VoteReply?))
  }

  ghost predicate AllElectoral(steps: seq<Step>) { forall s :: s in steps ==> Electoral(s) }

  /** One voter is asked, and its vote counted. */
  lemma OneVote(g: Group, w: World, i: ReplicaId, r: State, v: ReplicaId, granted: set<ReplicaId>)
    returns (steps: seq<Step>, w': World)
    requires i in w.replicas && v in w.replicas && i != v && r.id == i && w.replicas[v].id == v && !r.recovering
    requires L.WellFormed(r.log) && w.replicas[i] == Standing(r, granted) && v in r.voters
    requires MayGrant(w.replicas[v], r) && Ask(r, v) in w.net
    ensures Gets(g, w, steps, w', w.replicas[v := Voted(w.replicas[v], r)][i := Standing(r, granted + {v})])
    ensures AllElectoral(steps)
  {
    var q := w.replicas[v];
    Granted(q, r);
    var w1 := Deliver1(g, w, Ask(r, v), q, OnRequestVote(q, Ask(r, v)));
    assert OnVoteReply(Standing(r, granted), Yes(r, v)) == Standing(r, granted + {v});
    w' := Deliver1(g, w1, Yes(r, v), Standing(r, granted), Outcome(Standing(r, granted + {v}), {}));
    Then(g, w, [Deliver(Ask(r, v))], w1, [Deliver(Yes(r, v))], w', w1.replicas, w'.replicas);
    steps := [Deliver(Ask(r, v))] + [Deliver(Yes(r, v))];
  }

  ghost predicate Willing(w: World, r: State, v: ReplicaId) {
    v in w.replicas && w.replicas[v].id == v && v != r.id && v in r.voters && MayGrant(w.replicas[v], r)
  }

  /** The voters named have moved to the candidate's term. */
  ghost predicate HaveVoted(w: World, w': World, r: State, vs: seq<ReplicaId>) {
    forall v :: v in vs ==> v in w.replicas && v in w'.replicas && w'.replicas[v] == Voted(w.replicas[v], r)
  }

  ghost predicate NoneTwice(vs: seq<ReplicaId>) { forall j, k :: 0 <= j < k < |vs| ==> vs[j] != vs[k] }

  function SetOf(vs: seq<ReplicaId>): set<ReplicaId> { set v | v in vs }

  lemma {:induction false} Poll(g: Group, w: World, i: ReplicaId, r: State, vs: seq<ReplicaId>, granted: set<ReplicaId>)
    returns (steps: seq<Step>, w': World)
    requires i in w.replicas && r.id == i && !r.recovering && L.WellFormed(r.log)
    requires w.replicas[i] == Standing(r, granted)
    requires NoneTwice(vs) && forall v :: v in vs ==> Willing(w, r, v) && Ask(r, v) in w.net
    ensures Gets(g, w, steps, w', w'.replicas) && Apart(w, w', SetOf(vs) + {i}) && HaveVoted(w, w', r, vs)
    ensures i in w'.replicas && w'.replicas[i] == Standing(r, granted + SetOf(vs)) && AllElectoral(steps)
    decreases |vs|
  {
    if vs == [] {
      steps, w' := [], w;
      assert granted + SetOf(vs) == granted;
    } else {
      assert vs[0] in vs;
      var first, w1 := OneVote(g, w, i, r, vs[0], granted);
      forall v | v in vs[1..] ensures v in vs && v != vs[0] && Willing(w1, r, v) && w1.replicas[v] == w.replicas[v] {
        var k :| 0 <= k < |vs[1..]| && vs[1..][k] == v;
        assert vs[k + 1] == v;
      }
      var rest;
      rest, w' := Poll(g, w1, i, r, vs[1..], granted + {vs[0]});
      Then(g, w, first, w1, rest, w', w1.replicas, w'.replicas);
      steps := first + rest;
      PollEnds(w, w1, w', i, r, vs, granted);
    }
  }

  lemma PollEnds(w: World, w1: World, w': World, i: ReplicaId, r: State, vs: seq<ReplicaId>, granted: set<ReplicaId>)
    requires vs != [] && NoneTwice(vs) && vs[0] in w.replicas && i in w.replicas && i !in vs
    requires w1.replicas == w.replicas[vs[0] := Voted(w.replicas[vs[0]], r)][i := Standing(r, granted + {vs[0]})]
    requires Apart(w1, w', SetOf(vs[1..]) + {i}) && HaveVoted(w1, w', r, vs[1..])
    ensures Apart(w, w', SetOf(vs) + {i}) && HaveVoted(w, w', r, vs)
    ensures granted + {vs[0]} + SetOf(vs[1..]) == granted + SetOf(vs)
  {
    assert vs == [vs[0]] + vs[1..];
    assert SetOf(vs) == {vs[0]} + SetOf(vs[1..]);
    assert vs[0] !in vs[1..];
    forall v | v in vs ensures v in w'.replicas && v in w.replicas && w'.replicas[v] == Voted(w.replicas[v], r) {
      if v != vs[0] { assert v in vs[1..] && w1.replicas[v] == w.replicas[v]; }
    }
  }

  /** The members of a set, one after the other. */
  lemma {:induction false} Listed(s: set<ReplicaId>) returns (vs: seq<ReplicaId>)
    ensures NoneTwice(vs) && SetOf(vs) == s && |vs| == |s| && forall v :: v in vs <==> v in s
    decreases s
  {
    if s == {} {
      vs := [];
    } else {
      var v :| v in s;
      var rest := Listed(s - {v});
      vs := [v] + rest;
      CountOf(vs);
    }
  }

  lemma {:induction false} CountOf(vs: seq<ReplicaId>)
    requires NoneTwice(vs)
    ensures |SetOf(vs)| == |vs|
    decreases |vs|
  {
    if vs != [] {
      CountOf(vs[1..]);
      assert vs == [vs[0]] + vs[1..] && vs[0] !in vs[1..];
      assert SetOf(vs) == SetOf(vs[1..]) + {vs[0]};
    }
  }

  /** The new leader: its first record, and nothing known of its peers yet. */
  function Newly(x: Tale, t: int): Tale {
    x.(log := x.log + [LogEntry(t, |x.log| + 1, Noop, [], [], [], NoMember(), NoReplica(), [])])
  }

  ghost predicate StartsOver(r: State, x: Tale) {
    forall p :: p in x.peers && p != r.id ==> NextIndex(r, p) == |x.log| + 1 && MatchIndex(r, p) == 0
  }

  lemma Crowned(r: State, id: ReplicaId, x: Tale, granted: set<ReplicaId>)
    requires Tells(r, id, x) && id in x.voters && Tidy(x.log) && |granted| >= QuorumSize(x.voters)
    ensures var c := Standing(r, granted);
            CanLead(c) && Heads(Lead(c), id, r.term + 1, Newly(x, r.term + 1)) && StartsOver(Lead(c), x)
  {
  }

  lemma StandsUp(g: Group, w: World, i: ReplicaId, vs: seq<ReplicaId>) returns (w': World)
    requires i in w.replicas && w.replicas[i].id == i && w.replicas[i].role.Follower? && !w.replicas[i].recovering
    requires i in w.replicas[i].voters && forall v :: v in vs ==> Willing(w, w.replicas[i], v)
    ensures Gets(g, w, [StandUp(i)], w', w.replicas[i := Standing(w.replicas[i], {i})])
    ensures forall v :: v in vs ==> Willing(w', w.replicas[i], v) && Ask(w.replicas[i], v) in w'.net
  {
    var r := w.replicas[i];
    var c := Campaign(r);
    w' := Step1(g, w, StandUp(i), i, c.state, c.sent);
    forall v | v in vs ensures Willing(w', r, v) && Ask(r, v) in w'.net {
      assert Willing(w, r, v);
      assert Ask(r, v) in c.sent;
    }
  }

  lemma Wins(g: Group, w: World, i: ReplicaId, r: State, t: int, x: Tale, granted: set<ReplicaId>)
    returns (w': World)
    requires i in w.replicas && w.replicas[i] == Standing(r, granted)
    requires Tells(r, i, x) && i in x.voters && Tidy(x.log)
    requires |granted| >= QuorumSize(x.voters) && r.term == t
    ensures Gets(g, w, [Win(i)], w', w'.replicas) && i in w'.replicas && w'.replicas == w.replicas[i := w'.replicas[i]]
    ensures Heads(w'.replicas[i], i, t + 1, Newly(x, t + 1)) && StartsOver(w'.replicas[i], x)
  {
    Crowned(r, i, x, granted);
    w' := Step1(g, w, Win(i), i, Lead(Standing(r, granted)), {});
  }

  /** A follower stands for election and is voted for by the replicas named. */
  lemma Canvass(g: Group, w: World, i: ReplicaId, vs: seq<ReplicaId>) returns (steps: seq<Step>, w': World)
    requires i in w.replicas && w.replicas[i].id == i && w.replicas[i].role.Follower? && !w.replicas[i].recovering
    requires i in w.replicas[i].voters && L.WellFormed(w.replicas[i].log) && NoneTwice(vs) && i !in vs
    requires forall v :: v in vs ==> Willing(w, w.replicas[i], v)
    ensures Gets(g, w, steps, w', w'.replicas) && Apart(w, w', SetOf(vs) + {i})
    ensures HaveVoted(w, w', w.replicas[i], vs)
    ensures i in w'.replicas && w'.replicas[i] == Standing(w.replicas[i], {i} + SetOf(vs)) && AllElectoral(steps)
  {
    var r := w.replicas[i];
    var w1 := StandsUp(g, w, i, vs);
    var poll;
    poll, w' := Poll(g, w1, i, r, vs, {i});
    Then(g, w, [StandUp(i)], w1, poll, w', w1.replicas, w'.replicas);
    steps := [StandUp(i)] + poll;
    CanvassEnds(w, w1, w', i, r, vs);
  }

  lemma CanvassEnds(w: World, w1: World, w': World, i: ReplicaId, r: State, vs: seq<ReplicaId>)
    requires i in w.replicas && i !in vs && i in w1.replicas && w1.replicas == w.replicas[i := w1.replicas[i]]
    requires Apart(w1, w', SetOf(vs) + {i}) && HaveVoted(w1, w', r, vs)
    ensures Apart(w, w', SetOf(vs) + {i}) && HaveVoted(w, w', r, vs)
  {
    forall v | v in vs ensures v in w.replicas && v in w'.replicas && w'.replicas[v] == Voted(w.replicas[v], r) {
      assert v in w1.replicas && v != i;
    }
  }

  /** It wins, if they are enough. */
  lemma Election(g: Group, w: World, i: ReplicaId, t: int, x: Tale, vs: seq<ReplicaId>)
    returns (steps: seq<Step>, w': World)
    requires i in w.replicas && Tells(w.replicas[i], i, x) && w.replicas[i].role.Follower? && w.replicas[i].term == t
    requires i in x.voters && Tidy(x.log) && NoneTwice(vs) && i !in vs && |vs| + 1 >= QuorumSize(x.voters)
    requires forall v :: v in vs ==> Willing(w, w.replicas[i], v)
    ensures Gets(g, w, steps, w', w'.replicas) && Apart(w, w', SetOf(vs) + {i}) && HaveVoted(w, w', w.replicas[i], vs)
    ensures i in w'.replicas && Heads(w'.replicas[i], i, t + 1, Newly(x, t + 1)) && StartsOver(w'.replicas[i], x)
  {
    var r := w.replicas[i];
    var canvass, w1 := Canvass(g, w, i, vs);
    CountVotes(i, vs);
    w' := Wins(g, w1, i, r, t, x, {i} + SetOf(vs));
    Then(g, w, canvass, w1, [Win(i)], w', w1.replicas, w'.replicas);
    steps := canvass + [Win(i)];
    WinEnds(w, w1, w', i, r, vs);
  }

  /** One vote besides its own is enough. */
  lemma ElectedByOne(g: Group, w: World, i: ReplicaId, t: int, x: Tale, v: ReplicaId)
    returns (steps: seq<Step>, w': World)
    requires i in w.replicas && Tells(w.replicas[i], i, x) && w.replicas[i].role.Follower? && w.replicas[i].term == t
    requires i in x.voters && Tidy(x.log) && i != v && QuorumSize(x.voters) == 2 && Willing(w, w.replicas[i], v)
    ensures Gets(g, w, steps, w', w'.replicas) && Apart(w, w', {i, v}) && HaveVoted(w, w', w.replicas[i], [v])
    ensures i in w'.replicas && Heads(w'.replicas[i], i, t + 1, Newly(x, t + 1)) && StartsOver(w'.replicas[i], x)
  {
    assert SetOf([v]) + {i} == {i, v};
    steps, w' := Election(g, w, i, t, x, [v]);
  }

  /** So are two, or three. */
  lemma ElectedByTwo(g: Group, w: World, i: ReplicaId, t: int, x: Tale, v: ReplicaId, u: ReplicaId)
    returns (steps: seq<Step>, w': World)
    requires i in w.replicas && Tells(w.replicas[i], i, x) && w.replicas[i].role.Follower? && w.replicas[i].term == t
    requires i in x.voters && Tidy(x.log) && i != v && i != u && u != v && QuorumSize(x.voters) == 3
    requires Willing(w, w.replicas[i], v) && Willing(w, w.replicas[i], u)
    ensures Gets(g, w, steps, w', w'.replicas) && Apart(w, w', {i, v, u}) && HaveVoted(w, w', w.replicas[i], [v, u])
    ensures i in w'.replicas && Heads(w'.replicas[i], i, t + 1, Newly(x, t + 1)) && StartsOver(w'.replicas[i], x)
  {
    assert SetOf([v, u]) + {i} == {i, v, u};
    steps, w' := Election(g, w, i, t, x, [v, u]);
  }

  lemma ElectedByThree(g: Group, w: World, i: ReplicaId, t: int, x: Tale, v: ReplicaId, u: ReplicaId, z: ReplicaId)
    returns (steps: seq<Step>, w': World)
    requires i in w.replicas && Tells(w.replicas[i], i, x) && w.replicas[i].role.Follower? && w.replicas[i].term == t
    requires i in x.voters && Tidy(x.log) && i != v && i != u && i != z && u != v && u != z && v != z
    requires QuorumSize(x.voters) == 4
    requires Willing(w, w.replicas[i], v) && Willing(w, w.replicas[i], u) && Willing(w, w.replicas[i], z)
    ensures Gets(g, w, steps, w', w'.replicas) && Apart(w, w', {i, v, u, z})
    ensures HaveVoted(w, w', w.replicas[i], [v, u, z])
    ensures i in w'.replicas && Heads(w'.replicas[i], i, t + 1, Newly(x, t + 1)) && StartsOver(w'.replicas[i], x)
  {
    assert SetOf([v, u, z]) + {i} == {i, v, u, z};
    steps, w' := Election(g, w, i, t, x, [v, u, z]);
  }

  lemma WinEnds(w: World, w1: World, w': World, i: ReplicaId, r: State, vs: seq<ReplicaId>)
    requires Apart(w, w1, SetOf(vs) + {i}) && HaveVoted(w, w1, r, vs) && i in w1.replicas && i !in vs
    requires i in w'.replicas && w'.replicas == w1.replicas[i := w'.replicas[i]]
    ensures Apart(w, w', SetOf(vs) + {i}) && HaveVoted(w, w', r, vs)
  {
  }

  lemma CountVotes(i: ReplicaId, vs: seq<ReplicaId>)
    requires NoneTwice(vs) && i !in vs
    ensures |{i} + SetOf(vs)| == |vs| + 1
  {
    CountOf(vs);
    assert i !in SetOf(vs);
  }

  /** A replica that knows the candidate votes for it, unless its log is ahead. */
  lemma WillVote(w: World, i: ReplicaId, v: ReplicaId, t: int, x: Tale, y: Tale)
    requires i in w.replicas && Tells(w.replicas[i], i, x) && w.replicas[i].term == t && i != v && v in x.voters
    requires v in w.replicas && Tells(w.replicas[v], v, y) && w.replicas[v].term <= t && i in y.voters && v in y.voters
    requires Tidy(x.log) && Tidy(y.log) && |y.log| <= |x.log| && TermIn(y.log, |y.log|) <= TermIn(x.log, |x.log|)
    ensures Willing(w, w.replicas[i], v)
  {
  }

  lemma HasVoted(w: World, w': World, r: State, vs: seq<ReplicaId>, v: ReplicaId, t: int, y: Tale)
    requires HaveVoted(w, w', r, vs) && v in vs && v in w.replicas && Tells(w.replicas[v], v, y) && r.term == t
    ensures Behind(w', v, t + 1, y)
  {
  }

  /** A replica as it is created. */
  function Blank(i: ReplicaId, members: set<ReplicaId>): State {
    State(i, 0, None, Follower, {}, L.View([], 0, 0), [], 0, 0, members, members, map[], map[], map[], false, map[], 1)
  }
}
