/** A leader brings a follower up to date, from whatever state the two are in: it probes, goes back when it is
    rejected, sends its snapshot where its log begins later, and sends records until it knows that the follower
    has them all. */
module CatchUp {
  import opened Types
  import opened Replica
  import opened Consensus
  import opened Cluster
  import opened CoreRuns
  import opened ClusterReplication
  import opened ClusterSnapshots
  import opened Runs
  import L = RaftLog

  // ---------------------------------------------------------------- where the two stand

  /** l is the replica's whole log, the part that only its snapshot holds included. */
  ghost predicate Holds(r: State, l: Log) {
    && L.WellFormed(r.log) && L.Completes(l, r.log) && L.Contiguous(l, 0)
    && |r.snapshot| == r.log.snapIndex && Agree(r.snapshot, l, r.log.snapIndex)
  }

  ghost predicate Chief(r: State, i: ReplicaId, t: int, led: Log) {
    && r.id == i && r.role.Leader? && !r.recovering && r.term == t && Holds(r, led)
    && r.log.snapIndex < |led| && forall k :: 0 <= k < |led| ==> led[k].term >= 1
  }

  /** The follower knows the leader, what it has in its snapshot is the leader's, and so is what it has of the
      leader's term. */
  ghost predicate Fellow(q: State, p: ReplicaId, i: ReplicaId, t: int, led: Log, l: Log) {
    && q.id == p && i in q.peers && q.term <= t && Holds(q, l)
    && L.Matching(l, led) && Agree(led, l, q.log.snapIndex) && q.log.snapIndex < |led|
    && NoMore(l, led, t)
  }

  /** Beyond the leader's log there is no record of its term. */
  ghost predicate NoMore(l: Log, led: Log, t: int) { forall k :: |led| <= k < |l| ==> l[k].term != t }

  /** The leader probes inside the follower's snapshot, where nothing can be compared, and cannot get out of it: the
      follower is known to hold a record there, or too many of them, and the leader's own snapshot is not above. */
  ghost predicate Blocked(r: State, q: State, p: ReplicaId) {
    && NextIndex(r, p) <= q.log.snapIndex && r.log.snapIndex <= MatchIndex(r, p)
    && (MatchIndex(r, p) > 0 || q.log.snapIndex > MAX_ENTRIES_PER_MESSAGE)
  }

  /** The leader's progress with the follower is sound. */
  ghost predicate Sound(r: State, q: State, p: ReplicaId, led: Log, l: Log) {
    var next, matched := NextIndex(r, p), MatchIndex(r, p);
    && 0 <= matched < next <= |led| + 1 && Agree(led, l, matched)
    && (matched < r.log.snapIndex ==> q.log.snapIndex <= q.commit && Agree(led, l, q.commit))
  }

  ghost predicate Near(r: State, q: State, i: ReplicaId, p: ReplicaId, t: int, led: Log, l: Log) {
    Chief(r, i, t, led) && Fellow(q, p, i, t, led, l) && p in r.peers && Sound(r, q, p, led, l)
  }

  ghost predicate Pair(r: State, q: State, i: ReplicaId, p: ReplicaId, t: int, led: Log, l: Log) {
    Near(r, q, i, p, t, led, l) && !Blocked(r, q, p)
  }

  /** The leader is as it was, but for what it knows of p. */
  ghost predicate OnlyAbout(r: State, r': State, p: ReplicaId) {
    && r' == r.(next := r'.next, matched := r'.matched, inflight := r'.inflight)
    && SameProgress(r, r', p)
  }

  /** The follower is as it was, but for its log and what comes with it. */
  ghost predicate OnlyFed(q: State, q': State) {
    q'.id == q.id && q'.peers == q.peers && q'.voters == q.voters && q'.nextSeq == q.nextSeq && q'.pending == q.pending
  }

  // ---------------------------------------------------------------- sending records

  /** Where the next message ends. */
  function End(r: State, p: ReplicaId, led: Log): int { Min(NextIndex(r, p) - 1 + MAX_ENTRIES_PER_MESSAGE, |led|) }

  lemma SendsRecords(r: State, p: ReplicaId, led: Log)
    requires r.role.Leader? && Holds(r, led) && 1 <= NextIndex(r, p) <= |led| + 1 && r.log.snapIndex < NextIndex(r, p)
    ensures var m := Sent(r, p);
            && Replicate(r, p) == Outcome(r, {m}) && L.IsSlice(m.entries, led, m.prev)
            && m.prev + |m.entries| == End(r, p, led) && m.prevTerm == TermIn(led, m.prev)
  {
    EntriesAre(r.log, led, NextIndex(r, p));
  }

  lemma EntriesAre(v: L.View, led: Log, next: int)
    requires L.WellFormed(v) && L.Completes(led, v) && v.snapIndex < next <= |led| + 1
    ensures var es := L.EntriesFrom(v, next, MAX_ENTRIES_PER_MESSAGE);
            && L.IsSlice(es, led, next - 1) && next - 1 + |es| == Min(next - 1 + MAX_ENTRIES_PER_MESSAGE, |led|)
            && L.TermAt(v, next - 1) == TermIn(led, next - 1)
  {
    EndsAt(v, led);
    TermsAre(v, led, next - 1);
    var offset := next - v.snapIndex - 1;
    if next <= |led| {
      assert L.EntriesFrom(v, next, MAX_ENTRIES_PER_MESSAGE)
          == v.entries[offset..Min(offset + MAX_ENTRIES_PER_MESSAGE, |v.entries|)];
    }
  }

  lemma EndsAt(v: L.View, l: Log)
    requires L.WellFormed(v) && L.Completes(l, v)
    ensures L.LastIndex(v) == |l|
  {
  }

  lemma TermsAre(v: L.View, l: Log, k: int)
    requires L.WellFormed(v) && L.Completes(l, v) && v.snapIndex <= k <= |l|
    ensures L.TermAt(v, k) == TermIn(l, k)
  {
  }

  /** What a message that is accepted leaves behind. */
  ghost predicate Fed(q: State, q': State, t: int, l': Log) {
    && OnlyFed(q, q') && q'.role.Follower? && q'.term == t && !q'.recovering
    && Holds(q', l') && q'.log.snapIndex == q.log.snapIndex
  }

  /** The handler's outcome, the merged window and the length of the log given. */
  function Accepted(q: State, m: Message, v': L.View, last: int): State
    requires m.AppendEntries?
  {
    q.(log := v', recovering := false, commit := if m.commit > q.commit then Min(m.commit, last) else q.commit)
  }

  function Yes(q: State, m: Message): Message
    requires m.AppendEntries?
  {
    Replica.Answer(q.id, m.term, m, true, L.LastIndex(q.log))
  }

  lemma AcceptsInTerm(q: State, m: Message, v': L.View)
    requires m.AppendEntries? && m.from in q.peers && q.term == m.term && q.role.Follower?
    requires L.WellFormed(q.log) && Checks(q, m)
    requires L.Merge(q.log, m.entries).Merged? && L.Merge(q.log, m.entries).log == v'
    ensures OnAppendEntries(q, m) == Outcome(Accepted(q, m, v', L.LastIndex(v')), {Yes(q, m)})
  {
    AppendCases(q, m);
  }

  lemma ChecksOut(q: State, m: Message, l: Log, led: Log)
    requires m.AppendEntries? && Holds(q, l) && Agree(led, l, m.prev) && m.prevTerm == TermIn(led, m.prev)
    requires m.prev > 0 ==> q.log.snapIndex <= m.prev
    ensures Checks(q, m)
  {
  }

  lemma MergesTo(q: State, m: Message, l: Log, led: Log) returns (v': L.View)
    requires m.AppendEntries? && Holds(q, l) && L.Contiguous(led, 0) && L.Matching(l, led)
    requires Agree(led, l, q.log.snapIndex) && L.IsSlice(m.entries, led, m.prev) && Agree(led, l, m.prev)
    ensures var l' := Follow(l, led, m.prev + |m.entries|);
            && L.Merge(q.log, m.entries).Merged? && L.Merge(q.log, m.entries).log == v'
            && v'.snapIndex == q.log.snapIndex && Holds(q.(log := v'), l') && L.LastIndex(v') == |l'|
  {
    L.MergeFollows(q.log, l, led, m.prev, m.entries);
    v' := L.Merge(q.log, m.entries).log;
    FollowHolds(q, l, led, m.prev + |m.entries|, v');
  }

  lemma AcceptsFollowing(q: State, m: Message, l: Log, led: Log) returns (q': State)
    requires m.AppendEntries? && m.from in q.peers && q.term == m.term && q.role.Follower?
    requires Holds(q, l) && L.Contiguous(led, 0) && L.Matching(l, led) && Agree(led, l, q.log.snapIndex)
    requires L.IsSlice(m.entries, led, m.prev) && Agree(led, l, m.prev) && m.prevTerm == TermIn(led, m.prev)
    requires m.prev > 0 ==> q.log.snapIndex <= m.prev
    ensures OnAppendEntries(q, m) == Outcome(q', {Yes(q, m)})
    ensures var l' := Follow(l, led, m.prev + |m.entries|);
            && Fed(q, q', m.term, l')
            && q'.commit == (if m.commit > q.commit then Min(m.commit, |l'|) else q.commit) >= Min(m.commit, |l'|)
  {
    var v' := MergesTo(q, m, l, led);
    ChecksOut(q, m, l, led);
    AcceptsInTerm(q, m, v');
    q' := Accepted(q, m, v', L.LastIndex(v'));
  }

  lemma HoldsSame(q: State, q1: State, l: Log)
    requires Holds(q, l) && q1.log == q.log && q1.snapshot == q.snapshot
    ensures Holds(q1, l)
  {
  }

  /** Stepping into a leader's term changes nothing that matters here. */
  lemma StepsInto(q: State, t: int)
    requires q.term <= t
    ensures var q1 := StepTo(q, t);
            && q1 == q.(term := t, role := Follower, granted := q1.granted, votedFor := q1.votedFor)
  {
  }

  lemma AcceptsRecords(q: State, m: Message, l: Log, led: Log, n: int) returns (q': State)
    requires m.AppendEntries? && m.from in q.peers && q.term <= m.term && Holds(q, l)
    requires L.Contiguous(led, 0) && L.Matching(l, led) && Agree(led, l, q.log.snapIndex)
    requires L.IsSlice(m.entries, led, m.prev) && Agree(led, l, m.prev) && m.prevTerm == TermIn(led, m.prev)
    requires (m.prev > 0 ==> q.log.snapIndex <= m.prev) && n == m.prev + |m.entries|
    ensures L.WellFormed(q.log) && OnAppendEntries(q, m) == Outcome(q', {Yes(q, m)})
    ensures var l' := Follow(l, led, n);
            && Fed(q, q', m.term, l')
            && q'.commit == (if m.commit > q.commit then Min(m.commit, |l'|) else q.commit) >= Min(m.commit, |l'|)
  {
    AppendAfterStep(q, m);
    StepsInto(q, m.term);
    HoldsSame(q, StepTo(q, m.term), l);
    q' := AcceptsFollowing(StepTo(q, m.term), m, l, led);
  }

  lemma FollowHolds(q: State, l: Log, led: Log, n: int, v': L.View)
    requires Holds(q, l) && L.Contiguous(led, 0) && 0 <= n <= |led| && Agree(led, l, q.log.snapIndex)
    requires L.Completes(Follow(l, led, n), v') && L.WellFormed(v') && v'.snapIndex == q.log.snapIndex
    ensures Holds(q.(log := v'), Follow(l, led, n)) && L.LastIndex(v') == |Follow(l, led, n)|
  {
  }

  lemma RefusesRecords(q: State, m: Message, l: Log, led: Log)
    requires m.AppendEntries? && m.readSeq == 0 && m.from in q.peers && q.term <= m.term && Holds(q, l)
    requires L.Matching(l, led) && 0 < m.prev <= |led| && m.prevTerm == TermIn(led, m.prev)
    requires forall k :: 0 <= k < |led| ==> led[k].term >= 1
    requires m.prev < q.log.snapIndex || !Agree(led, l, m.prev)
    ensures L.WellFormed(q.log)
    ensures OnAppendEntries(q, m) ==
            Outcome(StepTo(q, m.term),
                    {AppendReply(q.id, m.from, m.term, m.prev, |m.entries|, m.term, false, |l|)})
  {
    AppendAfterStep(q, m);
    StepToIdempotent(q, m.term);
    AppendCases(StepTo(q, m.term), m);
    assert L.MatchingAt(l, led, m.prev - 1);
    assert L.LastIndex(q.log) == |l|;
    if q.log.snapIndex <= m.prev { assert L.TermAt(q.log, m.prev) == TermIn(l, m.prev); }
  }

  // ---------------------------------------------------------------- one exchange

  /** A message is sent and handled. */
  lemma SentAndHandled(g: Group, w: World, i: ReplicaId, p: ReplicaId, r1: State, m: Message, q': State, reply: Message)
    returns (steps: seq<Step>, w': World)
    requires i in w.replicas && p in w.replicas && i != p && m.to == p
    requires w.replicas[i].role.Leader? && p in w.replicas[i].peers && Replicate(w.replicas[i], p) == Outcome(r1, {m})
    requires L.WellFormed(w.replicas[p].log) && Handle(w.replicas[p], m) == Outcome(q', {reply})
    ensures Gets(g, w, steps, w', w.replicas[i := r1][p := q']) && reply in w'.net
  {
    var w1 := Step1(g, w, Send(i, p), i, r1, {m});
    w' := Deliver1(g, w1, m, w.replicas[p], Outcome(q', {reply}));
    Then(g, w, [Send(i, p)], w1, [Deliver(m)], w', w1.replicas, w'.replicas);
    steps := [Send(i, p)] + [Deliver(m)];
  }

  lemma Overwritten(rs: map<ReplicaId, State>, i: ReplicaId, p: ReplicaId, r1: State, q': State, r': State)
    requires i != p
    ensures rs[i := r1][p := q'][i := r'] == rs[p := q'][i := r']
  {
  }

  /** Its answer is taken in. */
  lemma Exchange(g: Group, w: World, i: ReplicaId, p: ReplicaId, r1: State, m: Message, q': State, reply: Message,
                 r': State)
    returns (steps: seq<Step>, w': World)
    requires i in w.replicas && p in w.replicas && i != p && m.to == p && reply.to == i
    requires w.replicas[i].role.Leader? && p in w.replicas[i].peers && Replicate(w.replicas[i], p) == Outcome(r1, {m})
    requires L.WellFormed(w.replicas[p].log) && Handle(w.replicas[p], m) == Outcome(q', {reply})
    requires L.WellFormed(r1.log) && Handle(r1, reply) == Outcome(r', {})
    ensures Gets(g, w, steps, w', w.replicas[p := q'][i := r'])
  {
    var first, w1 := SentAndHandled(g, w, i, p, r1, m, q', reply);
    w' := Deliver1(g, w1, reply, r1, Outcome(r', {}));
    Then(g, w, first, w1, [Deliver(reply)], w', w1.replicas, w'.replicas);
    steps := first + [Deliver(reply)];
    Overwritten(w.replicas, i, p, r1, q', r');
  }

  // ---------------------------------------------------------------- one round

  /** The leader has got further with the follower: it knows more of it, or has gone back to look for it. */
  ghost predicate Closer(r: State, r': State, p: ReplicaId) {
    || MatchIndex(r, p) < MatchIndex(r', p)
    || (MatchIndex(r', p) == MatchIndex(r, p) && NextIndex(r', p) < NextIndex(r, p))
  }

  lemma AdvanceIs(r: State, p: ReplicaId, n: int)
    requires MatchIndex(r, p) < n
    ensures OnlyAbout(r, Advance(r, p, n), p)
    ensures MatchIndex(Advance(r, p, n), p) == n && NextIndex(Advance(r, p, n), p) == n + 1
  {
  }

  lemma BackOffIs(r: State, p: ReplicaId, last: int, len: int)
    requires L.LastIndex(r.log) == len && 0 <= MatchIndex(r, p) < NextIndex(r, p) - 1 <= len && 0 <= last
    ensures OnlyAbout(r, BackOff(r, p, last), p) && MatchIndex(BackOff(r, p, last), p) == MatchIndex(r, p)
    ensures NextIndex(BackOff(r, p, last), p) ==
            if last < NextIndex(r, p) - 1 then Max(last, MatchIndex(r, p)) + 1 else NextIndex(r, p) - 1
  {
  }

  /** Leadership does not depend on progress. */
  lemma ChiefSame(r: State, r': State, p: ReplicaId, i: ReplicaId, t: int, led: Log)
    requires Chief(r, i, t, led) && OnlyAbout(r, r', p)
    ensures Chief(r', i, t, led)
  {
  }

  lemma FollowMatches(l: Log, led: Log, n: int)
    requires L.Matching(l, led) && 0 <= n <= |led|
    ensures L.Matching(Follow(l, led, n), led) && Agree(led, Follow(l, led, n), n)
  {
    var l' := Follow(l, led, n);
    forall k ensures L.MatchingAt(l', led, k) { assert L.MatchingAt(l, led, k); }
  }

  lemma FollowKeeps(l: Log, led: Log, n: int, k: int)
    requires Agree(led, l, k) && 0 <= n <= |led| && (k <= n || Agree(led, l, n))
    ensures Agree(led, Follow(l, led, n), k)
  {
  }

  /** The state of the pair after records have been accepted. */
  lemma FedPair(r: State, r': State, q: State, q': State, i: ReplicaId, p: ReplicaId, t: int, led: Log, l: Log, n: int)
    requires Pair(r, q, i, p, t, led, l) && OnlyAbout(r, r', p) && 0 <= n <= |led| && r.log.snapIndex <= n
    requires q.log.snapIndex <= n && Fed(q, q', t, Follow(l, led, n))
    requires MatchIndex(r', p) == n && NextIndex(r', p) == n + 1
    ensures Pair(r', q', i, p, t, led, Follow(l, led, n))
  {
    ChiefSame(r, r', p, i, t, led);
    FollowMatches(l, led, n);
    FollowKeeps(l, led, n, q.log.snapIndex);
  }

  /** The two in a world. */
  ghost predicate Paired(w: World, i: ReplicaId, p: ReplicaId, t: int, led: Log, l: Log) {
    i != p && i in w.replicas && p in w.replicas && Pair(w.replicas[i], w.replicas[p], i, p, t, led, l)
  }

  /** Between two worlds only these two have moved, and only in what concerns catching up. */
  ghost predicate Together(w: World, w': World, i: ReplicaId, p: ReplicaId) {
    && Apart(w, w', {i, p}) && i in w.replicas && p in w.replicas && i in w'.replicas && p in w'.replicas
    && OnlyAbout(w.replicas[i], w'.replicas[i], p) && OnlyFed(w.replicas[p], w'.replicas[p])
  }

  lemma YesAdvances(r: State, p: ReplicaId, q: State, m: Message)
    requires r.role.Leader? && !r.recovering && m.AppendEntries? && m.readSeq == 0 && m.term == r.term && q.id == p
    requires m.prev + 1 == NextIndex(r, p)
    ensures Yes(q, m).AppendReply? && OnAppendReply(r, Yes(q, m)) == Advance(r, p, m.prev + |m.entries|)
  {
  }

  /** Sending them, and what the leader makes of the answer. */
  lemma AnswersYes(r: State, q: State, p: ReplicaId, led: Log)
    requires r.role.Leader? && !r.recovering && Holds(r, led) && q.id == p
    requires 1 <= NextIndex(r, p) <= |led| + 1 && r.log.snapIndex < NextIndex(r, p)
    ensures var m := Sent(r, p);
            && Replicate(r, p) == Outcome(r, {m})
            && Yes(q, m).AppendReply? && OnAppendReply(r, Yes(q, m)) == Advance(r, p, End(r, p, led))
  {
    SendsRecords(r, p, led);
    YesAdvances(r, p, q, Sent(r, p));
  }

  /** What the follower makes of records that it can compare. */
  lemma TakesRecords(r: State, q: State, i: ReplicaId, p: ReplicaId, t: int, led: Log, l: Log) returns (q': State)
    requires r.id == i && r.role.Leader? && r.term == t && Holds(r, led)
    requires r.log.snapIndex < NextIndex(r, p) <= |led| + 1
    requires i in q.peers && q.term <= t && Holds(q, l) && L.Matching(l, led) && Agree(led, l, q.log.snapIndex)
    requires 1 <= NextIndex(r, p) && Agree(led, l, NextIndex(r, p) - 1)
    requires NextIndex(r, p) > 1 ==> q.log.snapIndex <= NextIndex(r, p) - 1
    ensures var m, n := Sent(r, p), End(r, p, led);
            && OnAppendEntries(q, m) == Outcome(q', {Yes(q, m)})
            && Fed(q, q', t, Follow(l, led, n)) && q'.commit >= Min(r.commit, |Follow(l, led, n)|)
  {
    SendsRecords(r, p, led);
    q' := AcceptsRecords(q, Sent(r, p), l, led, End(r, p, led));
  }

  /** A round in which the follower takes the records. */
  lemma AcceptRound(g: Group, w: World, i: ReplicaId, p: ReplicaId, t: int, led: Log, l: Log)
    returns (steps: seq<Step>, w': World)
    requires Paired(w, i, p, t, led, l) && w.replicas[i].log.snapIndex < NextIndex(w.replicas[i], p)
    requires MatchIndex(w.replicas[i], p) < |led| && Agree(led, l, NextIndex(w.replicas[i], p) - 1)
    requires NextIndex(w.replicas[i], p) > 1 ==> w.replicas[p].log.snapIndex <= NextIndex(w.replicas[i], p) - 1
    ensures Gets(g, w, steps, w', w'.replicas) && Together(w, w', i, p)
    ensures MatchIndex(w'.replicas[i], p) == End(w.replicas[i], p, led) > MatchIndex(w.replicas[i], p)
    ensures NextIndex(w'.replicas[i], p) == End(w.replicas[i], p, led) + 1
    ensures Fed(w.replicas[p], w'.replicas[p], t, Follow(l, led, End(w.replicas[i], p, led)))
    ensures w'.replicas[p].commit >= Min(w.replicas[i].commit, |Follow(l, led, End(w.replicas[i], p, led))|)
  {
    var r, q := w.replicas[i], w.replicas[p];
    var m := Sent(r, p);
    var q' := TakesRecords(r, q, i, p, t, led, l);
    AnswersYes(r, q, p, led);
    AdvanceIs(r, p, End(r, p, led));
    steps, w' := Exchange(g, w, i, p, r, m, q', Yes(q, m), Advance(r, p, End(r, p, led)));
  }

  function No(q: State, m: Message, last: int): Message
    requires m.AppendEntries?
  {
    AppendReply(q.id, m.from, m.term, m.prev, |m.entries|, m.term, false, last)
  }

  lemma NoBacksOff(r: State, p: ReplicaId, q: State, m: Message, last: int)
    requires r.role.Leader? && !r.recovering && m.AppendEntries? && m.term == r.term && q.id == p
    requires m.prev + 1 == NextIndex(r, p)
    ensures OnAppendReply(r, No(q, m, last)) == BackOff(r, p, last)
  {
  }

  /** What the follower refuses: what it cannot compare and what differs. */
  ghost predicate Refuses(r: State, q: State, p: ReplicaId, led: Log, l: Log) {
    var prev := NextIndex(r, p) - 1;
    r.log.snapIndex <= prev && 0 < prev && (prev < q.log.snapIndex || !Agree(led, l, prev))
  }

  /** What is refused lies above what is known to match, and above the follower's snapshot if it can be compared. */
  lemma RefusedAbove(r: State, q: State, p: ReplicaId, led: Log, l: Log)
    requires Sound(r, q, p, led, l) && Refuses(r, q, p, led, l) && !Blocked(r, q, p)
    requires Agree(led, l, q.log.snapIndex)
    ensures MatchIndex(r, p) < NextIndex(r, p) - 1 && q.log.snapIndex != NextIndex(r, p) - 1
  {
  }

  /** A round in which it refuses them. */
  lemma RejectRound(g: Group, w: World, i: ReplicaId, p: ReplicaId, t: int, led: Log, l: Log)
    returns (steps: seq<Step>, w': World)
    requires Paired(w, i, p, t, led, l) && Refuses(w.replicas[i], w.replicas[p], p, led, l)
    ensures Gets(g, w, steps, w', w.replicas[p := StepTo(w.replicas[p], t)][i := BackOff(w.replicas[i], p, |l|)])
  {
    var r, q := w.replicas[i], w.replicas[p];
    var m := Sent(r, p);
    SendsRecords(r, p, led);
    RefusesRecords(q, m, l, led);
    NoBacksOff(r, p, q, m, |l|);
    steps, w' := Exchange(g, w, i, p, r, m, StepTo(q, t), No(q, m, |l|), BackOff(r, p, |l|));
  }

  lemma RejectedPair(r: State, q: State, i: ReplicaId, p: ReplicaId, t: int, led: Log, l: Log)
    requires Pair(r, q, i, p, t, led, l) && Refuses(r, q, p, led, l)
    ensures var r' := BackOff(r, p, |l|);
            && Pair(r', StepTo(q, t), i, p, t, led, l) && OnlyAbout(r, r', p) && OnlyFed(q, StepTo(q, t))
            && MatchIndex(r', p) == MatchIndex(r, p) && NextIndex(r', p) < NextIndex(r, p)
  {
    RefusedAbove(r, q, p, led, l);
    BackOffIs(r, p, |l|, |led|);
    ChiefSame(r, BackOff(r, p, |l|), p, i, t, led);
    StepsInto(q, t);
    HoldsSame(q, StepTo(q, t), l);
  }

  // ---------------------------------------------------------------- sending the snapshot

  /** A transfer that is still counted as under way is given up. */
  lemma GivesUp(g: Group, w: World, i: ReplicaId, p: ReplicaId) returns (steps: seq<Step>, w': World, r': State)
    requires i in w.replicas
    ensures Gets(g, w, steps, w', w.replicas[i := r']) && OnlyAbout(w.replicas[i], r', p) && Inflight(r', p) <= 0
    ensures NextIndex(r', p) == NextIndex(w.replicas[i], p) && MatchIndex(r', p) == MatchIndex(w.replicas[i], p)
  {
    var r := w.replicas[i];
    if Inflight(r, p) <= 0 {
      steps, w', r' := [], w, r;
      assert w.replicas[i := r] == w.replicas;
    } else {
      var s := SnapshotSendFailed(i, p, Inflight(r, p));
      r' := ClearInflight(r, p, Inflight(r, p));
      w' := Step1(g, w, s, i, r', {});
      steps := [s];
    }
  }

  function Shipped(r: State, p: ReplicaId): Message {
    InstallSnapshot(r.id, p, r.term, r.log.snapIndex, r.log.snapTerm, r.snapshot)
  }

  lemma ShipsSnapshot(r: State, p: ReplicaId)
    requires r.role.Leader? && 1 <= NextIndex(r, p) <= r.log.snapIndex && Inflight(r, p) <= 0
    ensures Replicate(r, p) == Outcome(r.(inflight := r.inflight[p := r.log.snapIndex]), {Shipped(r, p)})
  {
  }

  function Done(q: State, m: Message, mark: int): Message
    requires m.InstallSnapshot?
  {
    SnapshotReply(q.id, m.from, m.term, m.index, m.term, true, mark)
  }

  /** The follower has the snapshot, or takes it over. */
  lemma TakesSnapshot(q: State, m: Message)
    requires m.InstallSnapshot? && m.from in q.peers && q.term <= m.term
    ensures var q1 := StepTo(q, m.term);
            var q' := if Has(q, m) then q1
                      else q1.(log := Installed(q.log, m.index, m.snapTerm), snapshot := m.contents,
                               commit := Max(q.commit, m.index), applied := Max(q.applied, m.index),
                               recovering := false);
            OnInstallSnapshot(q, m) == Outcome(q', {Done(q, m, Max(m.index, q'.log.snapIndex))})
  {
    StepsInto(q, m.term);
  }

  /** Whoever has it agrees with the leader that far. */
  lemma HasAgrees(q: State, m: Message, l: Log, led: Log)
    requires m.InstallSnapshot? && Has(q, m) && Holds(q, l) && L.Matching(l, led) && 1 <= m.index <= |led|
    requires m.snapTerm == TermIn(led, m.index) >= 1 && Agree(led, l, q.commit) && Agree(led, l, q.log.snapIndex)
    ensures Agree(led, l, Max(m.index, q.log.snapIndex))
  {
    if m.index > q.commit && q.log.snapIndex < m.index {
      assert L.TermAt(q.log, m.index) == TermIn(l, m.index);
      assert L.MatchingAt(l, led, m.index - 1);
    }
  }

  lemma InstallHolds(q: State, m: Message, l: Log, led: Log)
    requires m.InstallSnapshot? && Holds(q, l) && L.Matching(l, led) && L.Contiguous(led, 0)
    requires q.log.snapIndex < m.index == |m.contents| && Agree(m.contents, led, m.index)
    requires m.snapTerm == TermIn(led, m.index) >= 1
    ensures var q' := q.(log := Installed(q.log, m.index, m.snapTerm), snapshot := m.contents);
            Holds(q', Follow(l, led, m.index)) && q'.log.snapIndex == m.index
  {
    InstalledFollows(l, led, q.log, m.contents, m.index);
    FollowContiguous(l, led, m.index);
  }

  lemma FollowContiguous(l: Log, led: Log, n: int)
    requires L.Contiguous(l, 0) && L.Contiguous(led, 0) && 0 <= n <= |led|
    ensures L.Contiguous(Follow(l, led, n), 0)
  {
  }

  lemma DoneAdvances(r: State, p: ReplicaId, q: State, m: Message, mark: int) returns (r': State)
    requires r.role.Leader? && !r.recovering && m.InstallSnapshot? && m.term == r.term && q.id == p
    requires m.index <= mark && MatchIndex(r, p) < mark && NextIndex(r, p) <= mark + 1
    ensures OnSnapshotReply(r, Done(q, m, mark)) == r' && OnlyAbout(r, r', p)
    ensures MatchIndex(r', p) == mark && NextIndex(r', p) == mark + 1
  {
    r' := OnSnapshotReply(r, Done(q, m, mark));
  }

  /** What the follower makes of the leader's snapshot. */
  ghost predicate TookOver(q: State, q': State, r: State, t: int, led: Log, l': Log, mark: int) {
    && OnlyFed(q, q') && q'.term == t && Holds(q', l') && L.Matching(l', led)
    && q'.log.snapIndex <= mark < |led| && r.log.snapIndex <= mark && Agree(led, l', mark)
  }

  lemma ShippedIs(r: State, p: ReplicaId, led: Log)
    requires Holds(r, led) && 1 <= r.log.snapIndex < |led| && forall k :: 0 <= k < |led| ==> led[k].term >= 1
    ensures var m := Shipped(r, p);
            && m.index == |m.contents| && Agree(m.contents, led, m.index) && m.snapTerm == TermIn(led, m.index) >= 1
  {
  }

  lemma KeepsOwn(r: State, q: State, i: ReplicaId, p: ReplicaId, t: int, led: Log, l: Log)
    requires Pair(r, q, i, p, t, led, l) && 1 <= r.log.snapIndex && MatchIndex(r, p) < r.log.snapIndex
    requires Has(q, Shipped(r, p))
    ensures TookOver(q, StepTo(q, t), r, t, led, l, Max(r.log.snapIndex, q.log.snapIndex))
  {
    ShippedIs(r, p, led);
    HasAgrees(q, Shipped(r, p), l, led);
    StepsInto(q, t);
    HoldsSame(q, StepTo(q, t), l);
  }

  lemma TakesIts(r: State, q: State, i: ReplicaId, p: ReplicaId, t: int, led: Log, l: Log, q': State)
    requires Pair(r, q, i, p, t, led, l) && 1 <= r.log.snapIndex && MatchIndex(r, p) < r.log.snapIndex
    requires var m := Shipped(r, p);
             && !Has(q, m)
             && q' == StepTo(q, t).(log := Installed(q.log, m.index, m.snapTerm), snapshot := m.contents,
                                    commit := Max(q.commit, m.index), applied := Max(q.applied, m.index),
                                    recovering := false)
    ensures TookOver(q, q', r, t, led, Follow(l, led, r.log.snapIndex), r.log.snapIndex)
    ensures q'.log.snapIndex == r.log.snapIndex
  {
    var m := Shipped(r, p);
    ShippedIs(r, p, led);
    StepsInto(q, t);
    TakesGiven(q, q', m, l, led);
  }

  lemma TakesGiven(q: State, q': State, m: Message, l: Log, led: Log)
    requires m.InstallSnapshot? && Holds(q, l) && L.Matching(l, led) && L.Contiguous(led, 0)
    requires q.log.snapIndex < m.index == |m.contents| <= |led| && Agree(m.contents, led, m.index)
    requires m.snapTerm == TermIn(led, m.index) >= 1
    requires q'.log == Installed(q.log, m.index, m.snapTerm) && q'.snapshot == m.contents
    ensures var l' := Follow(l, led, m.index);
            Holds(q', l') && q'.log.snapIndex == m.index && L.Matching(l', led) && Agree(led, l', m.index)
  {
    InstallHolds(q, m, l, led);
    HoldsSame(q.(log := q'.log, snapshot := q'.snapshot), q', Follow(l, led, m.index));
    FollowMatches(l, led, m.index);
  }

  lemma SnapshotTaken(r: State, q: State, i: ReplicaId, p: ReplicaId, t: int, led: Log, l: Log)
    returns (q': State, l': Log, mark: int)
    requires Pair(r, q, i, p, t, led, l) && 1 <= r.log.snapIndex && MatchIndex(r, p) < r.log.snapIndex
    ensures OnInstallSnapshot(q, Shipped(r, p)) == Outcome(q', {Done(q, Shipped(r, p), mark)})
    ensures TookOver(q, q', r, t, led, l', mark) && NoMore(l', led, t)
  {
    var m := Shipped(r, p);
    TakesSnapshot(q, m);
    if Has(q, m) {
      q', l', mark := StepTo(q, t), l, Max(m.index, q.log.snapIndex);
      KeepsOwn(r, q, i, p, t, led, l);
      StepsInto(q, t);
    } else {
      q' := StepTo(q, t).(log := Installed(q.log, m.index, m.snapTerm), snapshot := m.contents,
                          commit := Max(q.commit, m.index), applied := Max(q.applied, m.index), recovering := false);
      l', mark := Follow(l, led, m.index), m.index;
      TakesIts(r, q, i, p, t, led, l, q');
    }
  }

  lemma SameShipment(r: State, r': State, q: State, i: ReplicaId, p: ReplicaId, t: int, led: Log, l: Log)
    requires Pair(r, q, i, p, t, led, l) && OnlyAbout(r, r', p)
    requires NextIndex(r', p) == NextIndex(r, p) && MatchIndex(r', p) == MatchIndex(r, p)
    ensures Pair(r', q, i, p, t, led, l) && Shipped(r', p) == Shipped(r, p)
  {
    ChiefSame(r, r', p, i, t, led);
  }

  lemma TookOverPair(r: State, r': State, q: State, q': State, i: ReplicaId, p: ReplicaId, t: int, led: Log, l: Log,
                     l': Log, mark: int)
    requires Pair(r, q, i, p, t, led, l) && OnlyAbout(r, r', p) && TookOver(q, q', r, t, led, l', mark)
    requires NoMore(l', led, t) && MatchIndex(r', p) == mark && NextIndex(r', p) == mark + 1
    ensures Pair(r', q', i, p, t, led, l')
  {
    ChiefSame(r, r', p, i, t, led);
    AgreeShorter(led, l', mark, q'.log.snapIndex);
  }

  lemma AgreeShorter(a: Log, b: Log, n: int, k: int)
    requires Agree(a, b, n) && 0 <= k <= n
    ensures Agree(a, b, k)
  {
  }

  lemma OnlyAboutTwice(a: State, b: State, c: State, p: ReplicaId)
    requires OnlyAbout(a, b, p) && OnlyAbout(b, c, p)
    ensures OnlyAbout(a, c, p)
  {
  }

  /** The snapshot is sent, with no other transfer under way. */
  lemma ShipRound(g: Group, w: World, i: ReplicaId, p: ReplicaId, t: int, led: Log, l: Log)
    returns (steps: seq<Step>, w': World, l': Log)
    requires Paired(w, i, p, t, led, l) && NextIndex(w.replicas[i], p) <= w.replicas[i].log.snapIndex
    requires Inflight(w.replicas[i], p) <= 0
    ensures Gets(g, w, steps, w', w'.replicas) && Together(w, w', i, p) && Paired(w', i, p, t, led, l')
    ensures MatchIndex(w.replicas[i], p) < MatchIndex(w'.replicas[i], p) < |led|
  {
    var r, q := w.replicas[i], w.replicas[p];
    var m := Shipped(r, p);
    ShipsSnapshot(r, p);
    var q', mark;
    q', l', mark := SnapshotTaken(r, q, i, p, t, led, l);
    var r1 := r.(inflight := r.inflight[p := r.log.snapIndex]);
    var r' := DoneAdvances(r1, p, q, m, mark);
    steps, w' := Exchange(g, w, i, p, r1, m, q', Done(q, m, mark), r');
    OnlyAboutTwice(r, r1, r', p);
    TookOverPair(r, r', q, q', i, p, t, led, l, l', mark);
  }

  lemma SnapshotRound(g: Group, w: World, i: ReplicaId, p: ReplicaId, t: int, led: Log, l: Log)
    returns (steps: seq<Step>, w': World, l': Log)
    requires Paired(w, i, p, t, led, l) && NextIndex(w.replicas[i], p) <= w.replicas[i].log.snapIndex
    ensures Gets(g, w, steps, w', w'.replicas) && Together(w, w', i, p) && Paired(w', i, p, t, led, l')
    ensures MatchIndex(w.replicas[i], p) < MatchIndex(w'.replicas[i], p) < |led|
  {
    var first, w1, r1 := GivesUp(g, w, i, p);
    SameShipment(w.replicas[i], r1, w.replicas[p], i, p, t, led, l);
    var rest;
    rest, w', l' := ShipRound(g, w1, i, p, t, led, l);
    Then(g, w, first, w1, rest, w', w1.replicas, w'.replicas);
    steps := first + rest;
    OnlyAboutTwice(w.replicas[i], r1, w'.replicas[i], p);
  }

  // ---------------------------------------------------------------- until it is done

  lemma TogetherTwice(a: World, b: World, c: World, i: ReplicaId, p: ReplicaId)
    requires Together(a, b, i, p) && Together(b, c, i, p)
    ensures Together(a, c, i, p)
  {
    OnlyAboutTwice(a.replicas[i], b.replicas[i], c.replicas[i], p);
  }

  /** The leader knows that the follower holds its whole log, and the follower follows it. */
  ghost predicate Caught(w: World, i: ReplicaId, p: ReplicaId, t: int, led: Log, l: Log) {
    && Paired(w, i, p, t, led, l) && MatchIndex(w.replicas[i], p) == |led| && NextIndex(w.replicas[i], p) == |led| + 1
    && w.replicas[p].role.Follower? && w.replicas[p].term == t && !w.replicas[p].recovering
  }

  lemma AcceptedOnce(g: Group, w: World, i: ReplicaId, p: ReplicaId, t: int, led: Log, l: Log)
    returns (steps: seq<Step>, w': World, l': Log)
    requires Paired(w, i, p, t, led, l) && w.replicas[i].log.snapIndex < NextIndex(w.replicas[i], p)
    requires MatchIndex(w.replicas[i], p) < |led| && !Refuses(w.replicas[i], w.replicas[p], p, led, l)
    ensures Gets(g, w, steps, w', w'.replicas) && Together(w, w', i, p) && Paired(w', i, p, t, led, l')
    ensures MatchIndex(w.replicas[i], p) < MatchIndex(w'.replicas[i], p) <= |led|
    ensures MatchIndex(w'.replicas[i], p) == |led| ==> Caught(w', i, p, t, led, l')
  {
    var n := End(w.replicas[i], p, led);
    steps, w' := AcceptRound(g, w, i, p, t, led, l);
    l' := Follow(l, led, n);
    FedPair(w.replicas[i], w'.replicas[i], w.replicas[p], w'.replicas[p], i, p, t, led, l, n);
  }

  lemma RejectedOnce(g: Group, w: World, i: ReplicaId, p: ReplicaId, t: int, led: Log, l: Log)
    returns (steps: seq<Step>, w': World)
    requires Paired(w, i, p, t, led, l) && Refuses(w.replicas[i], w.replicas[p], p, led, l)
    ensures Gets(g, w, steps, w', w'.replicas) && Together(w, w', i, p) && Paired(w', i, p, t, led, l)
    ensures MatchIndex(w'.replicas[i], p) == MatchIndex(w.replicas[i], p)
    ensures NextIndex(w'.replicas[i], p) < NextIndex(w.replicas[i], p)
  {
    steps, w' := RejectRound(g, w, i, p, t, led, l);
    RejectedPair(w.replicas[i], w.replicas[p], i, p, t, led, l);
  }

  /** One round gets the leader further. */
  lemma OneRound(g: Group, w: World, i: ReplicaId, p: ReplicaId, t: int, led: Log, l: Log)
    returns (steps: seq<Step>, w': World, l': Log)
    requires Paired(w, i, p, t, led, l) && MatchIndex(w.replicas[i], p) < |led|
    ensures Gets(g, w, steps, w', w'.replicas) && Together(w, w', i, p) && Paired(w', i, p, t, led, l')
    ensures Closer(w.replicas[i], w'.replicas[i], p) && MatchIndex(w'.replicas[i], p) <= |led|
    ensures MatchIndex(w'.replicas[i], p) == |led| ==> Caught(w', i, p, t, led, l')
  {
    if NextIndex(w.replicas[i], p) <= w.replicas[i].log.snapIndex {
      steps, w', l' := SnapshotRound(g, w, i, p, t, led, l);
    } else if Refuses(w.replicas[i], w.replicas[p], p, led, l) {
      steps, w' := RejectedOnce(g, w, i, p, t, led, l);
      l' := l;
    } else {
      steps, w', l' := AcceptedOnce(g, w, i, p, t, led, l);
    }
  }

  /** Whatever the two logs are, wherever the leader's probe stands and whether or not its log still reaches
      that far, there is a run after which the leader knows that the follower holds its whole log. */
  lemma {:induction false} CatchesUp(g: Group, w: World, i: ReplicaId, p: ReplicaId, t: int, led: Log, l: Log)
    returns (steps: seq<Step>, w': World, l': Log)
    requires Paired(w, i, p, t, led, l) && MatchIndex(w.replicas[i], p) < |led|
    ensures Gets(g, w, steps, w', w'.replicas) && Together(w, w', i, p) && Caught(w', i, p, t, led, l')
    decreases |led| - MatchIndex(w.replicas[i], p), NextIndex(w.replicas[i], p)
  {
    var first, w1, l1 := OneRound(g, w, i, p, t, led, l);
    if MatchIndex(w1.replicas[i], p) == |led| {
      steps, w', l' := first, w1, l1;
    } else {
      var rest;
      rest, w', l' := CatchesUp(g, w1, i, p, t, led, l1);
      Then(g, w, first, w1, rest, w', w1.replicas, w'.replicas);
      steps := first + rest;
      TogetherTwice(w, w1, w', i, p);
    }
  }

  // ---------------------------------------------------------------- several followers

  /** What the leader knows of anybody but these is as it was. */
  ghost predicate OnlyAboutThese(r: State, r': State, vs: seq<ReplicaId>) {
    && r' == r.(next := r'.next, matched := r'.matched, inflight := r'.inflight)
    && forall p :: p !in vs ==> NextIndex(r', p) == NextIndex(r, p) && MatchIndex(r', p) == MatchIndex(r, p)
  }

  /** A follower that can be caught up, and one that has been. */
  ghost predicate Lags(w: World, i: ReplicaId, v: ReplicaId, t: int, led: Log) {
    exists l :: Paired(w, i, v, t, led, l) && MatchIndex(w.replicas[i], v) < |led|
  }

  ghost predicate IsCaught(w: World, i: ReplicaId, v: ReplicaId, t: int, led: Log) {
    exists l :: Caught(w, i, v, t, led, l)
  }

  /** Nothing that matters to v has changed. */
  ghost predicate Untouched(w: World, w': World, i: ReplicaId, v: ReplicaId) {
    && i in w.replicas && i in w'.replicas && v in w.replicas && v in w'.replicas
    && w'.replicas[v] == w.replicas[v]
    && var r, r' := w.replicas[i], w'.replicas[i];
       && r' == r.(next := r'.next, matched := r'.matched, inflight := r'.inflight)
       && NextIndex(r', v) == NextIndex(r, v) && MatchIndex(r', v) == MatchIndex(r, v)
  }

  lemma StillPaired(w: World, w': World, i: ReplicaId, v: ReplicaId, t: int, led: Log, l: Log)
    requires Untouched(w, w', i, v) && Paired(w, i, v, t, led, l)
    ensures Paired(w', i, v, t, led, l)
  {
  }

  lemma StillLags(w: World, w': World, i: ReplicaId, v: ReplicaId, t: int, led: Log)
    requires Untouched(w, w', i, v) && Lags(w, i, v, t, led)
    ensures Lags(w', i, v, t, led)
  {
    var l :| Paired(w, i, v, t, led, l) && MatchIndex(w.replicas[i], v) < |led|;
    StillPaired(w, w', i, v, t, led, l);
  }

  lemma StillCaught(w: World, w': World, i: ReplicaId, v: ReplicaId, t: int, led: Log)
    requires Untouched(w, w', i, v) && IsCaught(w, i, v, t, led)
    ensures IsCaught(w', i, v, t, led)
  {
    var l :| Caught(w, i, v, t, led, l);
    StillPaired(w, w', i, v, t, led, l);
    assert Caught(w', i, v, t, led, l);
  }

  lemma CatchesUpOne(g: Group, w: World, i: ReplicaId, v: ReplicaId, t: int, led: Log)
    returns (steps: seq<Step>, w': World)
    requires Lags(w, i, v, t, led)
    ensures Gets(g, w, steps, w', w'.replicas) && Together(w, w', i, v) && IsCaught(w', i, v, t, led)
  {
    var l :| Paired(w, i, v, t, led, l) && MatchIndex(w.replicas[i], v) < |led|;
    var l';
    steps, w', l' := CatchesUp(g, w, i, v, t, led, l);
  }

  /** After these have been caught up, one after the other. */
  ghost predicate AllCaught(w: World, w': World, i: ReplicaId, vs: seq<ReplicaId>, t: int, led: Log) {
    && Apart(w, w', SetOf(vs) + {i}) && i in w.replicas && i in w'.replicas
    && OnlyAboutThese(w.replicas[i], w'.replicas[i], vs)
    && forall v :: v in vs ==> IsCaught(w', i, v, t, led) && v in w.replicas && OnlyFed(w.replicas[v], w'.replicas[v])
  }

  lemma CaughtMore(w: World, w1: World, w': World, i: ReplicaId, vs: seq<ReplicaId>, t: int, led: Log)
    requires vs != [] && NoneTwice(vs) && i !in vs && Together(w, w1, i, vs[0]) && IsCaught(w1, i, vs[0], t, led)
    requires AllCaught(w1, w', i, vs[1..], t, led)
    ensures AllCaught(w, w', i, vs, t, led)
  {
    assert vs == [vs[0]] + vs[1..];
    assert vs[0] !in vs[1..];
    assert SetOf(vs) == {vs[0]} + SetOf(vs[1..]);
    StillCaught(w1, w', i, vs[0], t, led);
    forall v | v in vs ensures IsCaught(w', i, v, t, led) && v in w.replicas && OnlyFed(w.replicas[v], w'.replicas[v]) {
      if v != vs[0] { assert v in vs[1..] && w1.replicas[v] == w.replicas[v]; }
    }
  }

  lemma {:induction false} CatchesUpAll(g: Group, w: World, i: ReplicaId, vs: seq<ReplicaId>, t: int, led: Log)
    returns (steps: seq<Step>, w': World)
    requires i in w.replicas && NoneTwice(vs) && i !in vs && forall v :: v in vs ==> Lags(w, i, v, t, led)
    ensures Gets(g, w, steps, w', w'.replicas) && AllCaught(w, w', i, vs, t, led)
    decreases |vs|
  {
    if vs == [] {
      steps, w' := [], w;
    } else {
      assert vs[0] in vs;
      var first, w1 := CatchesUpOne(g, w, i, vs[0], t, led);
      forall v | v in vs[1..] ensures Lags(w1, i, v, t, led) {
        Remaining(vs, v);
        StillLags(w, w1, i, v, t, led);
      }
      var rest;
      rest, w' := CatchesUpAll(g, w1, i, vs[1..], t, led);
      Then(g, w, first, w1, rest, w', w1.replicas, w'.replicas);
      steps := first + rest;
      CaughtMore(w, w1, w', i, vs, t, led);
    }
  }

  lemma Remaining(vs: seq<ReplicaId>, v: ReplicaId)
    requires vs != [] && NoneTwice(vs) && v in vs[1..]
    ensures v in vs && v != vs[0]
  {
    var k :| 0 <= k < |vs[1..]| && vs[1..][k] == v;
    assert vs[k + 1] == v;
  }
}
