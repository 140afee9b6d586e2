/** The safety core of Raft, stated over a history of the run rather than over messages.

    A history remembers, for every term, the log its leader built (`led`), how the leader was
    elected (`won`), who voted for whom (`vote`) on the strength of which candidate log (`bid`),
    and how much of a leader's log each replica has held durably while in that leader's term
    (`ack`).  Every handler of the replica amounts to at most a few of the actions below, and each
    action preserves `Inv`.  The consequences at the end of the module are election safety, log
    matching, leader completeness and agreement of committed prefixes.

    Every part of the invariant has the form `forall x :: P(h, x)`, with the hypotheses inside P,
    so that a proof uses exactly the instances it mentions. */
module Consensus {
  import opened Types

  /** The replicas of one group and the voter sets that may be in force on some replica. */
  datatype Group = Group(replicas: set<ReplicaId>, configs: set<set<ReplicaId>>)

  /** At least quorum_size() members of c are in q. */
  predicate IsMajority(c: set<ReplicaId>, q: set<ReplicaId>) {
    |c * q| >= |c| / 2 + 1
  }

  ghost predicate Quorum(g: Group, q: set<ReplicaId>) {
    exists c :: c in g.configs && IsMajority(c, q)
  }

  /** Any two quorums of any two voter sets in force share a replica. */
  ghost predicate Overlapping(g: Group) {
    forall p, q :: Quorum(g, p) && Quorum(g, q) ==> exists v :: v in p && v in q
  }

  datatype Slot = Slot(who: ReplicaId, term: int)

  datatype Victory = Victory(leader: ReplicaId, voters: set<ReplicaId>, start: nat)

  datatype History = History(
    term: map<ReplicaId, int>,
    log: map<ReplicaId, Log>,
    led: map<int, Log>,
    won: map<int, Victory>,
    vote: map<Slot, ReplicaId>,
    bid: map<Slot, Log>,
    ack: map<Slot, nat>,
    commit: map<int, nat>,
    // The replicas that have turned away the leader of a term because they did not know it.
    shunned: set<Slot>)

  // ---------------------------------------------------------------- vocabulary

  ghost predicate Acked(h: History, i: ReplicaId, t: int, n: int) {
    Slot(i, t) in h.ack && n <= h.ack[Slot(i, t)]
  }

  ghost predicate Elected(h: History, t: int) {
    t in h.led && t in h.won
  }

  /** Entry n of term t's log is a term-t entry, so it is one the commit rule may count. */
  ghost predicate Own(h: History, t: int, n: int) {
    Elected(h, t) && h.won[t].start < n <= |h.led[t]|
  }

  /** None of the voters that elected the leader of term u acknowledged entry n of term t. */
  ghost predicate ShutOut(h: History, u: int, t: int, n: int) {
    Elected(h, u) && forall v :: v in h.won[u].voters ==> !Acked(h, v, t, n)
  }

  /** Entry n of term t can never gather a quorum any more. */
  ghost predicate Sealed(h: History, t: int, n: int) {
    exists u :: t < u && ShutOut(h, u, t, n)
  }

  /** l[k] is the k-th entry of the log of the leader that created it, together with all before it. */
  ghost predicate BackedAt(h: History, l: Log, k: int) {
    0 <= k < |l| ==>
      && l[k].index == k + 1
      && l[k].term in h.led
      && Agree(l, h.led[l[k].term], k + 1)
  }

  ghost predicate Backed(h: History, l: Log) {
    forall k :: BackedAt(h, l, k)
  }

  ghost predicate TermsUpTo(l: Log, t: int) {
    forall k :: 0 <= k < |l| ==> l[k].term <= t
  }

  function LastTerm(l: Log): int {
    if l == [] then 0 else l[|l| - 1].term
  }

  /** The voter's later_than_other test does not reject: `mine` is not ahead of (term, index). */
  predicate NotAhead(mine: Log, term: int, index: int) {
    LastTerm(mine) < term || (LastTerm(mine) == term && |mine| <= index)
  }

  // ---------------------------------------------------------------- invariant

  ghost predicate Shape(g: Group, h: History) {
    && h.term.Keys == g.replicas
    && h.log.Keys == g.replicas
    && h.led.Keys == h.won.Keys
  }

  ghost predicate LedAt(h: History, t: int) {
    Elected(h, t) ==>
      && t >= 1
      && h.won[t].start < |h.led[t]|
      && Backed(h, h.led[t])
      && (forall k :: 0 <= k < |h.led[t]| ==>
            if k < h.won[t].start then h.led[t][k].term < t else h.led[t][k].term == t)
  }

  ghost predicate LogAt(h: History, i: ReplicaId) {
    i in h.log && i in h.term ==> 0 <= h.term[i] && Backed(h, h.log[i]) && TermsUpTo(h.log[i], h.term[i])
  }

  ghost predicate VoteAt(h: History, s: Slot) {
    s in h.vote ==>
      && s.who in h.term && s.term <= h.term[s.who]
      && Slot(h.vote[s], s.term) in h.bid
  }

  ghost predicate BidAt(h: History, s: Slot) {
    s in h.bid ==>
      && s.who in h.term && s.term <= h.term[s.who]
      && Backed(h, h.bid[s])
      && TermsUpTo(h.bid[s], s.term - 1)
  }

  /** What a voter had acknowledged in earlier terms is in the log of the candidate it voted for. */
  ghost predicate PromiseAt(h: History, s: Slot, t: int, n: int) {
    s in h.vote && Slot(h.vote[s], s.term) in h.bid && t < s.term && Own(h, t, n) && Acked(h, s.who, t, n) ==>
      Agree(h.led[t], h.bid[Slot(h.vote[s], s.term)], n) || Sealed(h, t, n)
  }

  ghost predicate WonAt(g: Group, h: History, t: int) {
    Elected(h, t) ==>
      && h.won[t].leader in g.replicas
      && Quorum(g, h.won[t].voters)
      && (forall v :: v in h.won[t].voters ==> Slot(v, t) in h.vote && h.vote[Slot(v, t)] == h.won[t].leader)
      && Slot(h.won[t].leader, t) in h.bid
      && |h.bid[Slot(h.won[t].leader, t)]| == h.won[t].start
      && Agree(h.bid[Slot(h.won[t].leader, t)], h.led[t], h.won[t].start)
  }

  ghost predicate AckAt(h: History, s: Slot) {
    s in h.ack ==>
      && s.who in h.term && s.who in h.log
      && s.term in h.led
      && s.term <= h.term[s.who]
      && h.ack[s] <= |h.led[s.term]|
      && (s.term == h.term[s.who] ==> Agree(h.led[s.term], h.log[s.who], h.ack[s]))
  }

  /** An acknowledged entry is still in the replica's log, unless it can never be chosen. */
  ghost predicate KeepAt(h: History, i: ReplicaId, t: int, n: int) {
    i in h.log && Own(h, t, n) && Acked(h, i, t, n) ==> Agree(h.led[t], h.log[i], n) || Sealed(h, t, n)
  }

  /** A later leader starts from every entry that might still be chosen. */
  ghost predicate SucceedAt(h: History, t: int, n: int, u: int) {
    Own(h, t, n) && t < u && Elected(h, u) ==> Agree(h.led[t], h.led[u], n) || Sealed(h, t, n)
  }

  ghost predicate AllAcked(h: History, q: set<ReplicaId>, t: int, n: int) {
    forall v :: v in q ==> Acked(h, v, t, n)
  }

  ghost predicate Chosen(g: Group, h: History, t: int, n: int) {
    exists q :: Quorum(g, q) && AllAcked(h, q, t, n)
  }

  ghost predicate CommitAt(g: Group, h: History, t: int) {
    t in h.commit ==> Own(h, t, h.commit[t]) && Chosen(g, h, t, h.commit[t])
  }

  ghost predicate InvLed(h: History) { forall t :: LedAt(h, t) }
  ghost predicate InvLogs(h: History) { forall i :: LogAt(h, i) }
  ghost predicate InvVotes(h: History) { forall s :: VoteAt(h, s) }
  ghost predicate InvBids(h: History) { forall s :: BidAt(h, s) }
  ghost predicate InvPromise(h: History) { forall s, t, n :: PromiseAt(h, s, t, n) }
  ghost predicate InvWon(g: Group, h: History) { forall t :: WonAt(g, h, t) }
  ghost predicate InvAcks(h: History) { forall s :: AckAt(h, s) }
  ghost predicate InvKeep(h: History) { forall i, t, n :: KeepAt(h, i, t, n) }
  ghost predicate InvSucceed(h: History) { forall t, n, u :: SucceedAt(h, t, n, u) }
  ghost predicate InvCommit(g: Group, h: History) { forall t :: CommitAt(g, h, t) }

  ghost predicate Inv(g: Group, h: History) {
    && Shape(g, h)
    && InvLed(h)
    && InvLogs(h)
    && InvVotes(h)
    && InvBids(h)
    && InvPromise(h)
    && InvWon(g, h)
    && InvAcks(h)
    && InvKeep(h)
    && InvSucceed(h)
    && InvCommit(g, h)
  }

  // ---------------------------------------------------------------- log matching

  /** Log matching (section 5.3 of the Raft paper): equal terms at one index mean equal prefixes. */
  lemma LogMatching(h: History, a: Log, b: Log, n: int)
    requires Backed(h, a) && Backed(h, b)
    requires 0 <= n <= |a| && n <= |b| && (n == 0 || a[n - 1].term == b[n - 1].term)
    ensures Agree(a, b, n)
  {
    assert BackedAt(h, a, n - 1) && BackedAt(h, b, n - 1);
  }

  /** A nonempty backed log is a prefix of the log of the leader that created its last entry. */
  lemma BackedLast(h: History, l: Log)
    requires Backed(h, l) && l != []
    ensures LastTerm(l) in h.led && Agree(l, h.led[LastTerm(l)], |l|)
  {
    assert BackedAt(h, l, |l| - 1);
  }

  lemma BackedPrefix(h: History, l: Log, p: Log, n: int)
    requires Backed(h, l) && Agree(l, p, n) && |p| == n
    ensures Backed(h, p)
  {
    forall k ensures BackedAt(h, p, k) {
      assert BackedAt(h, l, k);
    }
  }

  // ---------------------------------------------------------------- growth

  /** Histories only grow, and acknowledgements only arrive in a replica's current term. */
  ghost predicate Grows(h: History, h': History) {
    && h.term.Keys == h'.term.Keys
    && (forall i :: i in h.term ==> h.term[i] <= h'.term[i])
    && (forall t :: t in h.led ==> t in h'.led && Agree(h.led[t], h'.led[t], |h.led[t]|))
    && (forall t :: t in h.won ==> t in h'.won && h'.won[t] == h.won[t])
    && (forall s :: s in h.vote ==> s in h'.vote && h'.vote[s] == h.vote[s])
    && (forall s :: s in h.bid ==> s in h'.bid && h'.bid[s] == h.bid[s])
    && (forall s :: s in h.ack ==> s in h'.ack && h.ack[s] <= h'.ack[s])
    && (forall s :: s in h'.ack ==> NewAckOk(h, h', s))
    && (forall t :: t in h.commit ==> t in h'.commit && h.commit[t] <= h'.commit[t])
  }

  ghost predicate NewAckOk(h: History, h': History, s: Slot)
    requires s in h'.ack
  {
    (s in h.ack && h'.ack[s] == h.ack[s]) || (s.who in h.term && h.term[s.who] <= s.term)
  }

  lemma BackedGrows(h: History, h': History, l: Log)
    requires Grows(h, h') && Backed(h, l)
    ensures Backed(h', l)
  {
    forall k ensures BackedAt(h', l, k) {
      assert BackedAt(h, l, k);
    }
  }

  lemma ShutOutGrows(g: Group, h: History, h': History, u: int, t: int, n: int)
    requires InvVotes(h) && InvWon(g, h) && Grows(h, h')
    requires t < u && ShutOut(h, u, t, n)
    ensures ShutOut(h', u, t, n)
  {
    assert WonAt(g, h, u);
    forall v | v in h'.won[u].voters ensures !Acked(h', v, t, n) {
      assert !Acked(h, v, t, n);
      assert VoteAt(h, Slot(v, u));
      assert Slot(v, t) in h'.ack ==> NewAckOk(h, h', Slot(v, t));
    }
  }

  lemma SealedGrows(g: Group, h: History, h': History, t: int, n: int)
    requires InvVotes(h) && InvWon(g, h) && Grows(h, h')
    requires Sealed(h, t, n)
    ensures Sealed(h', t, n)
  {
    var u :| t < u && ShutOut(h, u, t, n);
    ShutOutGrows(g, h, h', u, t, n);
  }

  lemma ChosenGrows(g: Group, h: History, h': History, t: int, n: int)
    requires Grows(h, h') && Chosen(g, h, t, n)
    ensures Chosen(g, h', t, n)
  {
    var q :| Quorum(g, q) && AllAcked(h, q, t, n);
    assert AllAcked(h', q, t, n);
  }

  /** A chosen entry is never sealed: the two quorums would share a replica. */
  lemma ChosenNotSealed(g: Group, h: History, t: int, n: int)
    requires InvWon(g, h) && Overlapping(g) && Chosen(g, h, t, n)
    ensures !Sealed(h, t, n)
  {
    var q :| Quorum(g, q) && AllAcked(h, q, t, n);
    forall u | t < u ensures !ShutOut(h, u, t, n) {
      if Elected(h, u) {
        assert WonAt(g, h, u);
        var v :| v in q && v in h.won[u].voters;
        assert Acked(h, v, t, n);
      }
    }
  }

  /** A disjunction "still there or sealed" survives growth of the history and of the target log. */
  lemma Inherit(g: Group, h: History, h': History, t: int, n: int, target: Log, target': Log)
    requires InvVotes(h) && InvWon(g, h) && Grows(h, h')
    requires Own(h, t, n) && (Agree(h.led[t], target, n) || Sealed(h, t, n)) && Agree(target, target', |target|)
    ensures Own(h', t, n)
    ensures Agree(h'.led[t], target', n) || Sealed(h', t, n)
  {
    if Sealed(h, t, n) { SealedGrows(g, h, h', t, n); }
  }

  // ---------------------------------------------------------------- parts an action leaves alone

  lemma LedKept(h: History, h': History)
    requires InvLed(h) && Grows(h, h') && h'.led == h.led && h'.won == h.won
    ensures InvLed(h')
  {
    forall t ensures LedAt(h', t) {
      assert LedAt(h, t);
      if Elected(h, t) { BackedGrows(h, h', h.led[t]); }
    }
  }

  lemma VotesKept(h: History, h': History)
    requires InvVotes(h) && Grows(h, h') && h'.vote == h.vote
    ensures InvVotes(h')
  {
    forall s ensures VoteAt(h', s) { assert VoteAt(h, s); }
  }

  lemma BidsKept(h: History, h': History)
    requires InvBids(h) && Grows(h, h') && h'.bid == h.bid
    ensures InvBids(h')
  {
    forall s ensures BidAt(h', s) {
      assert BidAt(h, s);
      if s in h.bid { BackedGrows(h, h', h.bid[s]); }
    }
  }

  lemma LogsKept(h: History, h': History)
    requires InvLogs(h) && Grows(h, h') && h'.log == h.log
    ensures InvLogs(h')
  {
    forall i ensures LogAt(h', i) {
      assert LogAt(h, i);
      if i in h.log && i in h.term { BackedGrows(h, h', h.log[i]); }
    }
  }

  lemma WonKept(g: Group, h: History, h': History)
    requires InvWon(g, h) && Grows(h, h') && h'.won == h.won && h'.led.Keys == h.led.Keys
    ensures InvWon(g, h')
  {
    forall t ensures WonAt(g, h', t) {
      assert WonAt(g, h, t);
    }
  }

  lemma AcksKept(h: History, h': History)
    requires InvAcks(h) && Grows(h, h') && h'.ack == h.ack && h'.log == h.log && h'.led == h.led
    ensures InvAcks(h')
  {
    forall s ensures AckAt(h', s) { assert AckAt(h, s); }
  }

  lemma PromiseKept(g: Group, h: History, h': History)
    requires InvVotes(h) && InvWon(g, h) && InvPromise(h) && Grows(h, h')
    requires h'.led == h.led && h'.won == h.won && h'.vote == h.vote && h'.ack == h.ack
    ensures InvPromise(h')
  {
    forall s, t, n ensures PromiseAt(h', s, t, n) {
      assert PromiseAt(h, s, t, n) && VoteAt(h, s);
      if s in h.vote && t < s.term && Own(h, t, n) && Acked(h, s.who, t, n) {
        var b := h.bid[Slot(h.vote[s], s.term)];
        Inherit(g, h, h', t, n, b, b);
      }
    }
  }

  lemma KeepKept(g: Group, h: History, h': History)
    requires InvVotes(h) && InvWon(g, h) && InvKeep(h) && Grows(h, h')
    requires h'.led == h.led && h'.won == h.won && h'.ack == h.ack && h'.log == h.log
    ensures InvKeep(h')
  {
    forall i, t, n ensures KeepAt(h', i, t, n) {
      assert KeepAt(h, i, t, n);
      if i in h.log && Own(h, t, n) && Acked(h, i, t, n) {
        Inherit(g, h, h', t, n, h.log[i], h.log[i]);
      }
    }
  }

  lemma SucceedKept(g: Group, h: History, h': History)
    requires InvVotes(h) && InvWon(g, h) && InvSucceed(h) && Grows(h, h')
    requires h'.led == h.led && h'.won == h.won
    ensures InvSucceed(h')
  {
    forall t, n, u ensures SucceedAt(h', t, n, u) {
      assert SucceedAt(h, t, n, u);
      if Own(h, t, n) && t < u && Elected(h, u) {
        Inherit(g, h, h', t, n, h.led[u], h.led[u]);
      }
    }
  }

  lemma CommitKept(g: Group, h: History, h': History)
    requires InvCommit(g, h) && Grows(h, h') && h'.commit == h.commit
    ensures InvCommit(g, h')
  {
    forall t ensures CommitAt(g, h', t) {
      assert CommitAt(g, h, t);
      if t in h.commit { ChosenGrows(g, h, h', t, h.commit[t]); }
    }
  }

  // ---------------------------------------------------------------- action: a later term

  /** Moving to a later term, as become_follower does on a higher term. */
  function RaiseTerm(h: History, i: ReplicaId, t: int): History {
    h.(term := h.term[i := t])
  }

  lemma RaiseTermKeeps(g: Group, h: History, i: ReplicaId, t: int)
    requires Inv(g, h) && i in g.replicas && h.term[i] <= t
    ensures Inv(g, RaiseTerm(h, i, t)) && Grows(h, RaiseTerm(h, i, t))
  {
    var h' := RaiseTerm(h, i, t);
    assert Grows(h, h');
    LedKept(h, h');
    VotesKept(h, h');
    BidsKept(h, h');
    LogsKept(h, h');
    WonKept(g, h, h');
    AcksKept(h, h');
    PromiseKept(g, h, h');
    KeepKept(g, h, h');
    SucceedKept(g, h, h');
    CommitKept(g, h, h');
  }

  // ---------------------------------------------------------------- action: standing for election

  /** become_candidate: the next term, a vote for itself, and the log it campaigns with. */
  function Stand(h: History, i: ReplicaId): History
    requires i in h.term && i in h.log
  {
    var s := Slot(i, h.term[i] + 1);
    h.(term := h.term[i := s.term], vote := h.vote[s := i], bid := h.bid[s := h.log[i]])
  }

  lemma StandGrows(h: History, i: ReplicaId)
    requires InvVotes(h) && InvBids(h) && i in h.term && i in h.log
    ensures Grows(h, Stand(h, i))
  {
    assert VoteAt(h, Slot(i, h.term[i] + 1)) && BidAt(h, Slot(i, h.term[i] + 1));
  }

  lemma StandVotesBids(h: History, i: ReplicaId)
    requires InvVotes(h) && InvBids(h) && InvLogs(h) && i in h.term && i in h.log
    ensures InvBids(Stand(h, i)) && InvVotes(Stand(h, i))
  {
    var h' := Stand(h, i);
    StandGrows(h, i);
    assert LogAt(h, i);
    forall s ensures BidAt(h', s) {
      assert BidAt(h, s);
      if s in h'.bid { BackedGrows(h, h', h'.bid[s]); }
    }
    forall s ensures VoteAt(h', s) { assert VoteAt(h, s); }
  }

  lemma StandPromise(g: Group, h: History, i: ReplicaId)
    requires Shape(g, h) && InvVotes(h) && InvBids(h) && InvWon(g, h) && InvPromise(h) && InvKeep(h) && i in g.replicas
    ensures InvPromise(Stand(h, i))
  {
    var h' := Stand(h, i);
    StandGrows(h, i);
    forall s, t, n ensures PromiseAt(h', s, t, n) {
      assert PromiseAt(h, s, t, n) && KeepAt(h, i, t, n) && VoteAt(h, s);
      if s in h'.vote && Slot(h'.vote[s], s.term) in h'.bid && t < s.term && Own(h, t, n) && Acked(h, s.who, t, n) {
        var b := h'.bid[Slot(h'.vote[s], s.term)];
        Inherit(g, h, h', t, n, b, b);
      }
    }
  }

  lemma StandKeeps(g: Group, h: History, i: ReplicaId)
    requires Inv(g, h) && i in g.replicas
    ensures Inv(g, Stand(h, i)) && Grows(h, Stand(h, i))
  {
    var h' := Stand(h, i);
    StandGrows(h, i);
    StandVotesBids(h, i);
    StandPromise(g, h, i);
    LedKept(h, h');
    LogsKept(h, h');
    WonKept(g, h, h');
    AcksKept(h, h');
    KeepKept(g, h, h');
    SucceedKept(g, h, h');
    CommitKept(g, h, h');
  }

  // ---------------------------------------------------------------- action: granting a vote

  /** grant_vote_to: the voter's one vote of its current term. */
  function CastVote(h: History, v: ReplicaId, c: ReplicaId): History
    requires v in h.term
  {
    h.(vote := h.vote[Slot(v, h.term[v]) := c])
  }

  ghost predicate MayVote(h: History, v: ReplicaId, c: ReplicaId) {
    && v in h.term && v in h.log
    && (Slot(v, h.term[v]) in h.vote ==> h.vote[Slot(v, h.term[v])] == c)
    && Slot(c, h.term[v]) in h.bid
    && var b := h.bid[Slot(c, h.term[v])];
       NotAhead(h.log[v], LastTerm(b), |b|)
  }

  /** The heart of leader completeness: the log comparison of a vote transfers what the voter holds
      to the candidate (section 5.4.1 of the Raft paper). */
  lemma VoteTransfers(h: History, v: ReplicaId, b: Log, t: int, n: int)
    requires InvLed(h) && InvLogs(h) && InvKeep(h) && InvSucceed(h) && h.led.Keys == h.won.Keys
    requires v in h.log && v in h.term && Backed(h, b) && NotAhead(h.log[v], LastTerm(b), |b|)
    requires Own(h, t, n) && Acked(h, v, t, n)
    ensures Agree(h.led[t], b, n) || Sealed(h, t, n)
  {
    if !Sealed(h, t, n) {
      var l := h.log[v];
      assert KeepAt(h, v, t, n) && LedAt(h, t) && LogAt(h, v);
      assert l[n - 1] == h.led[t][n - 1];
      BackedLast(h, l);
      var u := LastTerm(l);
      assert LedAt(h, u);
      assert l[n - 1] == h.led[u][n - 1];
      assert t <= u;
      assert b != [];
      BackedLast(h, b);
      var w := LastTerm(b);
      if w != t {
        assert SucceedAt(h, t, n, w) && LedAt(h, w);
        assert h.led[w][n - 1].term == t;
        assert b[|b| - 1] == h.led[w][|b| - 1];
      }
    }
  }

  lemma CastVoteGrows(h: History, v: ReplicaId, c: ReplicaId)
    requires InvVotes(h) && MayVote(h, v, c)
    ensures Grows(h, CastVote(h, v, c)) && InvVotes(CastVote(h, v, c))
  {
    var h' := CastVote(h, v, c);
    forall s ensures VoteAt(h', s) { assert VoteAt(h, s); }
  }

  lemma CastVotePromise(g: Group, h: History, v: ReplicaId, c: ReplicaId)
    requires Inv(g, h) && MayVote(h, v, c)
    ensures InvPromise(CastVote(h, v, c))
  {
    var h' := CastVote(h, v, c);
    CastVoteGrows(h, v, c);
    forall s, t, n ensures PromiseAt(h', s, t, n) {
      assert PromiseAt(h, s, t, n);
      if s in h'.vote && Slot(h'.vote[s], s.term) in h'.bid && t < s.term && Own(h, t, n) && Acked(h, s.who, t, n) {
        var b := h'.bid[Slot(h'.vote[s], s.term)];
        if s == Slot(v, h.term[v]) {
          assert BidAt(h, Slot(c, s.term));
          VoteTransfers(h, v, b, t, n);
        }
        Inherit(g, h, h', t, n, b, b);
      }
    }
  }

  lemma CastVoteKeeps(g: Group, h: History, v: ReplicaId, c: ReplicaId)
    requires Inv(g, h) && MayVote(h, v, c)
    ensures Inv(g, CastVote(h, v, c)) && Grows(h, CastVote(h, v, c))
  {
    var h' := CastVote(h, v, c);
    CastVoteGrows(h, v, c);
    CastVotePromise(g, h, v, c);
    LedKept(h, h');
    LogsKept(h, h');
    BidsKept(h, h');
    WonKept(g, h, h');
    AcksKept(h, h');
    KeepKept(g, h, h');
    SucceedKept(g, h, h');
    CommitKept(g, h, h');
  }

  // ---------------------------------------------------------------- action: winning an election

  /** become_leader: the leader's log for its term is its campaign log plus a no-op entry. */
  function Crown(h: History, c: ReplicaId, q: set<ReplicaId>, noop: LogEntry): History
    requires c in h.term && c in h.log
  {
    var t := h.term[c];
    var l := h.log[c] + [noop];
    h.(log := h.log[c := l],
       led := h.led[t := l],
       won := h.won[t := Victory(c, q, |h.log[c]|)],
       ack := h.ack[Slot(c, t) := |l|])
  }

  ghost predicate VotedFor(h: History, v: ReplicaId, t: int, c: ReplicaId) {
    Slot(v, t) in h.vote && h.vote[Slot(v, t)] == c
  }

  ghost predicate MayLead(g: Group, h: History, c: ReplicaId, q: set<ReplicaId>, noop: LogEntry) {
    && c in g.replicas && c in h.term && c in h.log
    && var t := h.term[c];
       && t >= 1 && !(t in h.led) && !(t in h.won)
       && Slot(c, t) in h.bid && h.bid[Slot(c, t)] == h.log[c]
       && Quorum(g, q) && (forall v :: v in q ==> VotedFor(h, v, t, c))
       && noop.term == t && noop.index == |h.log[c]| + 1
  }

  lemma CrownGrows(g: Group, h: History, c: ReplicaId, q: set<ReplicaId>, noop: LogEntry)
    requires InvAcks(h) && MayLead(g, h, c, q, noop)
    ensures Grows(h, Crown(h, c, q, noop)) && Slot(c, h.term[c]) !in h.ack
  {
    assert AckAt(h, Slot(c, h.term[c]));
  }

  lemma CrownLed(g: Group, h: History, c: ReplicaId, q: set<ReplicaId>, noop: LogEntry)
    requires Shape(g, h) && InvAcks(h) && InvLed(h) && InvBids(h) && MayLead(g, h, c, q, noop)
    ensures InvLed(Crown(h, c, q, noop))
  {
    var h' := Crown(h, c, q, noop);
    var u := h.term[c];
    CrownGrows(g, h, c, q, noop);
    assert BidAt(h, Slot(c, u));
    forall t ensures LedAt(h', t) {
      assert LedAt(h, t);
      if Elected(h', t) && t != u {
        BackedGrows(h, h', h.led[t]);
      } else if t == u {
        forall k ensures BackedAt(h', h'.led[u], k) { assert BackedAt(h, h.log[c], k); }
      }
    }
  }

  lemma CrownLogs(g: Group, h: History, c: ReplicaId, q: set<ReplicaId>, noop: LogEntry)
    requires Shape(g, h) && InvAcks(h) && InvLed(h) && InvBids(h) && InvLogs(h) && MayLead(g, h, c, q, noop)
    ensures InvLogs(Crown(h, c, q, noop))
  {
    var h' := Crown(h, c, q, noop);
    CrownGrows(g, h, c, q, noop);
    CrownLed(g, h, c, q, noop);
    assert LedAt(h', h.term[c]);
    forall i ensures LogAt(h', i) {
      assert LogAt(h, i);
      if i in h'.log && i in h.term && i != c { BackedGrows(h, h', h.log[i]); }
    }
  }

  lemma CrownWonAcks(g: Group, h: History, c: ReplicaId, q: set<ReplicaId>, noop: LogEntry)
    requires Shape(g, h) && InvAcks(h) && InvWon(g, h) && MayLead(g, h, c, q, noop)
    ensures InvWon(g, Crown(h, c, q, noop)) && InvAcks(Crown(h, c, q, noop))
  {
    var h' := Crown(h, c, q, noop);
    CrownGrows(g, h, c, q, noop);
    forall t ensures WonAt(g, h', t) {
      assert WonAt(g, h, t);
      if t == h.term[c] {
        forall v | v in q ensures Slot(v, t) in h'.vote && h'.vote[Slot(v, t)] == c {
          assert VotedFor(h, v, t, c);
        }
      }
    }
    forall s ensures AckAt(h', s) { assert AckAt(h, s); }
  }

  lemma CrownPromise(g: Group, h: History, c: ReplicaId, q: set<ReplicaId>, noop: LogEntry)
    requires Inv(g, h) && MayLead(g, h, c, q, noop)
    ensures InvPromise(Crown(h, c, q, noop))
  {
    var h' := Crown(h, c, q, noop);
    CrownGrows(g, h, c, q, noop);
    forall s, t, n ensures PromiseAt(h', s, t, n) {
      assert PromiseAt(h, s, t, n) && VoteAt(h, s) && AckAt(h, Slot(s.who, t));
      if s in h.vote && t < s.term && Own(h', t, n) && Acked(h', s.who, t, n) {
        var b := h.bid[Slot(h.vote[s], s.term)];
        Inherit(g, h, h', t, n, b, b);
      }
    }
  }

  lemma CrownKeep(g: Group, h: History, c: ReplicaId, q: set<ReplicaId>, noop: LogEntry)
    requires Inv(g, h) && MayLead(g, h, c, q, noop)
    ensures InvKeep(Crown(h, c, q, noop))
  {
    var h' := Crown(h, c, q, noop);
    CrownGrows(g, h, c, q, noop);
    forall i, t, n ensures KeepAt(h', i, t, n) {
      assert KeepAt(h, i, t, n) && AckAt(h, Slot(i, t));
      if i in h.log && Own(h', t, n) && Acked(h', i, t, n) && t != h.term[c] {
        Inherit(g, h, h', t, n, h.log[i], h'.log[i]);
      }
    }
  }

  /** Either some voter carries the entry to the new leader, or the voters shut it out. */
  lemma CrownSucceed(g: Group, h: History, c: ReplicaId, q: set<ReplicaId>, noop: LogEntry)
    requires Inv(g, h) && MayLead(g, h, c, q, noop)
    ensures InvSucceed(Crown(h, c, q, noop))
  {
    var h' := Crown(h, c, q, noop);
    CrownGrows(g, h, c, q, noop);
    forall t, n, u ensures SucceedAt(h', t, n, u) {
      if Own(h', t, n) && t < u && Elected(h', u) {
        if t == h.term[c] {
          CrownShutsOut(g, h, c, q, noop, u, n);
        } else if u == h.term[c] {
          CrownCarries(g, h, c, q, noop, t, n);
        } else {
          assert SucceedAt(h, t, n, u);
          Inherit(g, h, h', t, n, h.led[u], h.led[u]);
        }
      }
    }
  }

  lemma CrownShutsOut(g: Group, h: History, c: ReplicaId, q: set<ReplicaId>, noop: LogEntry, u: int, n: int)
    requires InvVotes(h) && InvWon(g, h) && InvAcks(h) && MayLead(g, h, c, q, noop)
    requires h.term[c] < u && Elected(h, u)
    ensures Sealed(Crown(h, c, q, noop), h.term[c], n)
  {
    var h' := Crown(h, c, q, noop);
    var t := h.term[c];
    assert WonAt(g, h, u);
    forall v | v in h'.won[u].voters ensures !Acked(h', v, t, n) {
      assert VoteAt(h, Slot(v, u)) && AckAt(h, Slot(v, t));
    }
    assert ShutOut(h', u, t, n);
  }

  lemma CrownCarries(g: Group, h: History, c: ReplicaId, q: set<ReplicaId>, noop: LogEntry, t: int, n: int)
    requires Inv(g, h) && MayLead(g, h, c, q, noop) && t < h.term[c] && Own(h, t, n)
    ensures var h' := Crown(h, c, q, noop); Agree(h'.led[t], h'.led[h.term[c]], n) || Sealed(h', t, n)
  {
    var h' := Crown(h, c, q, noop);
    var u := h.term[c];
    CrownGrows(g, h, c, q, noop);
    if v :| v in q && Acked(h, v, t, n) {
      assert VotedFor(h, v, u, c);
      assert PromiseAt(h, Slot(v, u), t, n);
      Inherit(g, h, h', t, n, h.log[c], h'.log[c]);
    } else {
      assert ShutOut(h', u, t, n);
    }
  }

  lemma CrownKeeps(g: Group, h: History, c: ReplicaId, q: set<ReplicaId>, noop: LogEntry)
    requires Inv(g, h) && MayLead(g, h, c, q, noop)
    ensures Inv(g, Crown(h, c, q, noop)) && Grows(h, Crown(h, c, q, noop))
  {
    var h' := Crown(h, c, q, noop);
    CrownGrows(g, h, c, q, noop);
    CrownLed(g, h, c, q, noop);
    CrownLogs(g, h, c, q, noop);
    CrownWonAcks(g, h, c, q, noop);
    CrownPromise(g, h, c, q, noop);
    CrownKeep(g, h, c, q, noop);
    CrownSucceed(g, h, c, q, noop);
    VotesKept(h, h');
    BidsKept(h, h');
    CommitKept(g, h, h');
  }

  // ---------------------------------------------------------------- action: leader appends

  /** append_new_entry on a leader: its log and the log of its term grow together. */
  function Extend(h: History, t: int, e: LogEntry): History
    requires t in h.won && t in h.led
  {
    var i := h.won[t].leader;
    var l := h.led[t] + [e];
    h.(log := h.log[i := l], led := h.led[t := l], ack := h.ack[Slot(i, t) := |l|])
  }

  ghost predicate MayExtend(h: History, t: int, e: LogEntry) {
    && Elected(h, t)
    && var i := h.won[t].leader;
       && i in h.term && i in h.log && h.term[i] == t && h.log[i] == h.led[t]
       && e.term == t && e.index == |h.led[t]| + 1
  }

  lemma ExtendGrows(h: History, t: int, e: LogEntry)
    requires InvAcks(h) && MayExtend(h, t, e)
    ensures Grows(h, Extend(h, t, e))
  {
    assert AckAt(h, Slot(h.won[t].leader, t));
  }

  lemma ExtendLed(h: History, t: int, e: LogEntry)
    requires InvAcks(h) && InvLed(h) && MayExtend(h, t, e)
    ensures InvLed(Extend(h, t, e))
  {
    var h' := Extend(h, t, e);
    ExtendGrows(h, t, e);
    forall u ensures LedAt(h', u) {
      assert LedAt(h, u);
      if Elected(h, u) && u != t {
        BackedGrows(h, h', h.led[u]);
      } else if u == t {
        forall k ensures BackedAt(h', h'.led[t], k) { assert BackedAt(h, h.led[t], k); }
      }
    }
  }

  lemma ExtendLogsAcks(h: History, t: int, e: LogEntry)
    requires InvAcks(h) && InvLed(h) && InvLogs(h) && MayExtend(h, t, e)
    ensures InvLogs(Extend(h, t, e)) && InvAcks(Extend(h, t, e))
  {
    var h' := Extend(h, t, e);
    ExtendGrows(h, t, e);
    ExtendLed(h, t, e);
    assert LedAt(h', t);
    forall i ensures LogAt(h', i) {
      assert LogAt(h, i);
      if i in h.log && i in h.term && i != h.won[t].leader { BackedGrows(h, h', h.log[i]); }
    }
    forall s ensures AckAt(h', s) { assert AckAt(h, s); }
  }

  lemma ExtendPromiseKeep(g: Group, h: History, t: int, e: LogEntry)
    requires Inv(g, h) && MayExtend(h, t, e)
    ensures InvPromise(Extend(h, t, e)) && InvKeep(Extend(h, t, e))
  {
    var h' := Extend(h, t, e);
    ExtendGrows(h, t, e);
    forall s, u, n ensures PromiseAt(h', s, u, n) {
      assert PromiseAt(h, s, u, n) && VoteAt(h, s) && AckAt(h, Slot(s.who, u));
      if s in h.vote && u < s.term && Own(h', u, n) && Acked(h', s.who, u, n) {
        var b := h.bid[Slot(h.vote[s], s.term)];
        Inherit(g, h, h', u, n, b, b);
      }
    }
    forall i, u, n ensures KeepAt(h', i, u, n) {
      assert KeepAt(h, i, u, n) && AckAt(h, Slot(i, u));
      if i in h.log && Own(h', u, n) && Acked(h', i, u, n) && Slot(i, u) != Slot(h.won[t].leader, t) {
        Inherit(g, h, h', u, n, h.log[i], h'.log[i]);
      }
    }
  }

  lemma ExtendSucceed(g: Group, h: History, t: int, e: LogEntry)
    requires Inv(g, h) && MayExtend(h, t, e)
    ensures InvSucceed(Extend(h, t, e))
  {
    var h' := Extend(h, t, e);
    ExtendGrows(h, t, e);
    forall w, n, u ensures SucceedAt(h', w, n, u) {
      if Own(h', w, n) && w < u && Elected(h', u) {
        if Own(h, w, n) {
          assert SucceedAt(h, w, n, u);
          Inherit(g, h, h', w, n, h.led[u], h'.led[u]);
        } else {
          assert WonAt(g, h, u);
          forall v | v in h'.won[u].voters ensures !Acked(h', v, w, n) {
            assert VoteAt(h, Slot(v, u)) && AckAt(h, Slot(v, w));
          }
          assert ShutOut(h', u, w, n);
        }
      }
    }
  }

  lemma ExtendKeeps(g: Group, h: History, t: int, e: LogEntry)
    requires Inv(g, h) && MayExtend(h, t, e)
    ensures Inv(g, Extend(h, t, e)) && Grows(h, Extend(h, t, e))
  {
    var h' := Extend(h, t, e);
    ExtendGrows(h, t, e);
    ExtendLed(h, t, e);
    ExtendLogsAcks(h, t, e);
    ExtendPromiseKeep(g, h, t, e);
    ExtendSucceed(g, h, t, e);
    VotesKept(h, h');
    BidsKept(h, h');
    WonKept(g, h, h');
    CommitKept(g, h, h');
  }

  // ---------------------------------------------------------------- action: following the leader

  ghost function Adopt(h: History, i: ReplicaId, m: nat): History
    requires i in h.term && i in h.log && h.term[i] in h.led && m <= |h.led[h.term[i]]|
  {
    var t := h.term[i];
    var s := Slot(i, t);
    var before := if s in h.ack then h.ack[s] else 0;
    h.(log := h.log[i := Follow(h.log[i], h.led[t], m)], ack := h.ack[s := if before >= m then before else m])
  }

  ghost predicate MayAdopt(h: History, i: ReplicaId, m: nat) {
    i in h.term && i in h.log && Elected(h, h.term[i]) && m <= |h.led[h.term[i]]|
  }

  lemma AdoptGrows(h: History, i: ReplicaId, m: nat)
    requires MayAdopt(h, i, m)
    ensures Grows(h, Adopt(h, i, m))
  {
  }

  lemma AdoptLogs(h: History, i: ReplicaId, m: nat)
    requires InvLed(h) && InvLogs(h) && MayAdopt(h, i, m)
    ensures InvLogs(Adopt(h, i, m))
  {
    var h' := Adopt(h, i, m);
    var t := h.term[i];
    AdoptGrows(h, i, m);
    assert LedAt(h, t) && LogAt(h, i);
    BackedPrefix(h, h.led[t], h.led[t][..m], m);
    forall j ensures LogAt(h', j) {
      assert LogAt(h, j);
      if j in h.log && j in h.term { BackedGrows(h, h', h'.log[j]); }
    }
  }

  lemma AdoptAcks(h: History, i: ReplicaId, m: nat)
    requires InvAcks(h) && MayAdopt(h, i, m)
    ensures InvAcks(Adopt(h, i, m))
  {
    var h' := Adopt(h, i, m);
    assert AckAt(h, Slot(i, h.term[i]));
    forall s ensures AckAt(h', s) { assert AckAt(h, s); }
  }

  lemma AdoptPromise(g: Group, h: History, i: ReplicaId, m: nat)
    requires Inv(g, h) && MayAdopt(h, i, m)
    ensures InvPromise(Adopt(h, i, m))
  {
    var h' := Adopt(h, i, m);
    AdoptGrows(h, i, m);
    forall s, t, n ensures PromiseAt(h', s, t, n) {
      assert PromiseAt(h, s, t, n) && VoteAt(h, s);
      if s in h.vote && t < s.term && Own(h, t, n) && Acked(h', s.who, t, n) {
        var b := h.bid[Slot(h.vote[s], s.term)];
        Inherit(g, h, h', t, n, b, b);
      }
    }
  }

  /** Following a later leader never drops an acknowledged entry that might still be chosen. */
  lemma AdoptKeep(g: Group, h: History, i: ReplicaId, m: nat)
    requires Inv(g, h) && MayAdopt(h, i, m)
    ensures InvKeep(Adopt(h, i, m))
  {
    var h' := Adopt(h, i, m);
    var u := h.term[i];
    AdoptGrows(h, i, m);
    AdoptAcks(h, i, m);
    forall j, t, n ensures KeepAt(h', j, t, n) {
      assert KeepAt(h, j, t, n) && AckAt(h', Slot(j, t)) && SucceedAt(h, t, n, u);
      if j in h.log && Own(h, t, n) && Acked(h', j, t, n) && Slot(j, t) != Slot(i, u) {
        if Sealed(h, t, n) {
          SealedGrows(g, h, h', t, n);
        } else if j == i {
          assert Agree(h.led[t], h.log[i], n) && Agree(h.led[t], h.led[u], n);
          assert Agree(h.led[t], h'.log[i], n);
        }
      }
    }
  }

  lemma AdoptKeeps(g: Group, h: History, i: ReplicaId, m: nat)
    requires Inv(g, h) && MayAdopt(h, i, m)
    ensures Inv(g, Adopt(h, i, m)) && Grows(h, Adopt(h, i, m))
  {
    var h' := Adopt(h, i, m);
    AdoptGrows(h, i, m);
    AdoptLogs(h, i, m);
    AdoptAcks(h, i, m);
    AdoptPromise(g, h, i, m);
    AdoptKeep(g, h, i, m);
    LedKept(h, h');
    VotesKept(h, h');
    BidsKept(h, h');
    WonKept(g, h, h');
    SucceedKept(g, h, h');
    CommitKept(g, h, h');
  }

  // ---------------------------------------------------------------- action: committing

  /** try_advance_commit_index on the leader of term t. */
  function Settle(h: History, t: int, n: nat): History {
    h.(commit := h.commit[t := if t in h.commit && h.commit[t] >= n then h.commit[t] else n])
  }

  lemma SettleKeeps(g: Group, h: History, t: int, n: nat)
    requires Inv(g, h) && Own(h, t, n) && Chosen(g, h, t, n)
    ensures Inv(g, Settle(h, t, n)) && Grows(h, Settle(h, t, n))
  {
    var h' := Settle(h, t, n);
    assert Grows(h, h');
    LedKept(h, h');
    VotesKept(h, h');
    BidsKept(h, h');
    LogsKept(h, h');
    WonKept(g, h, h');
    AcksKept(h, h');
    PromiseKept(g, h, h');
    KeepKept(g, h, h');
    SucceedKept(g, h, h');
    forall u ensures CommitAt(g, h', u) {
      assert CommitAt(g, h, u);
      if u in h'.commit { ChosenGrows(g, h, h', u, h'.commit[u]); }
    }
  }

  // ---------------------------------------------------------------- action: turning a leader away

  function Shun(h: History, more: set<Slot>): History { h.(shunned := h.shunned + more) }

  lemma ShunKeeps(g: Group, h: History, more: set<Slot>)
    requires Inv(g, h)
    ensures Inv(g, Shun(h, more)) && Grows(h, Shun(h, more))
  {
    var h' := Shun(h, more);
    assert Grows(h, h');
    LedKept(h, h');
    VotesKept(h, h');
    BidsKept(h, h');
    LogsKept(h, h');
    WonKept(g, h, h');
    AcksKept(h, h');
    PromiseKept(g, h, h');
    KeepKept(g, h, h');
    SucceedKept(g, h, h');
    CommitKept(g, h, h');
  }

  // ---------------------------------------------------------------- consequences

  /** Election safety (section 5.2 of the Raft paper): a term that has a leader has no other one. */
  lemma ElectionSafety(g: Group, h: History, t: int, c: ReplicaId, q: set<ReplicaId>)
    requires Inv(g, h) && Overlapping(g)
    requires Elected(h, t) && Quorum(g, q) && forall v :: v in q ==> VotedFor(h, v, t, c)
    ensures h.won[t].leader == c
  {
    assert WonAt(g, h, t);
    var v :| v in q && v in h.won[t].voters;
    assert VotedFor(h, v, t, c);
  }

  /** Leader completeness (section 5.4.3): every later leader's log contains every committed entry. */
  lemma LeaderCompleteness(g: Group, h: History, t: int, u: int)
    requires Inv(g, h) && Overlapping(g) && t in h.commit && t < u && Elected(h, u)
    ensures t in h.led && Agree(h.led[t], h.led[u], h.commit[t]) && h.commit[t] <= h.won[u].start
  {
    assert CommitAt(g, h, t);
    ChosenNotSealed(g, h, t, h.commit[t]);
    assert SucceedAt(h, t, h.commit[t], u) && LedAt(h, u) && LedAt(h, t);
    assert h.led[t][h.commit[t] - 1] == h.led[u][h.commit[t] - 1];
  }

  /** The log p is part of what term t committed. */
  ghost predicate CommittedIn(h: History, t: int, p: Log, n: int) {
    t in h.commit && t in h.led && n <= h.commit[t] && Agree(h.led[t], p, n)
  }

  /** The first n entries of p are committed by some term up to t. */
  ghost predicate CommittedBy(h: History, t: int, p: Log, n: int) {
    n == 0 || exists u :: u <= t && CommittedIn(h, u, p, n)
  }

  /** Any two committed prefixes agree: no two replicas ever apply different entries at one index. */
  lemma CommittedAgree(g: Group, h: History, t: int, p: Log, n: nat, u: int, q: Log, m: nat)
    requires Inv(g, h) && Overlapping(g) && n <= |p| && m <= |q| && n <= m
    requires CommittedBy(h, t, p, n) && CommittedBy(h, u, q, m)
    ensures Agree(p, q, n)
  {
    if n > 0 {
      var a :| a <= t && CommittedIn(h, a, p, n);
      var b :| b <= u && CommittedIn(h, b, q, m);
      assert CommitAt(g, h, a) && CommitAt(g, h, b);
      if a < b { LeaderCompleteness(g, h, a, b); }
      if b < a { LeaderCompleteness(g, h, b, a); }
    }
  }

  /** What was committed by term t or earlier is in the log of the leader of term t. */
  lemma CommittedInLed(g: Group, h: History, t: int, p: Log, n: nat)
    requires Inv(g, h) && Overlapping(g) && n <= |p| && Elected(h, t) && CommittedBy(h, t, p, n)
    ensures Agree(h.led[t], p, n)
  {
    if n > 0 {
      var a :| a <= t && CommittedIn(h, a, p, n);
      if a < t { LeaderCompleteness(g, h, a, t); }
    }
  }
}
