/** A leader's record of how far each peer has got, and the commit rule
    (src/storage/raft/raft_replication.cpp). */
module Replication {
  import opened Types
  import opened RaftLog
  import opened Membership
  import opened Apply
  import Replica

  // ---------------------------------------------------------------- the k-th largest of a list

  function AtLeast(s: seq<int>, n: int): nat {
    if s == [] then 0 else (if s[0] >= n then 1 else 0) + AtLeast(s[1..], n)
  }

  function Insert(x: int, s: seq<int>): seq<int> {
    if s == [] || x >= s[0] then [x] + s else [s[0]] + Insert(x, s[1..])
  }

  function Descending(s: seq<int>): (d: seq<int>)
    ensures |d| == |s|
  {
    if s == [] then [] else InsertLength(s[0], Descending(s[1..])); Insert(s[0], Descending(s[1..]))
  }

  /** Position k of the list sorted in descending order, counting from one. */
  function KthLargest(s: seq<int>, k: nat): int
    requires 1 <= k <= |s|
  {
    Descending(s)[k - 1]
  }

  ghost predicate IsDescending(s: seq<int>) {
    forall i, j :: 0 <= i < j < |s| ==> s[i] >= s[j]
  }

  lemma {:induction false} InsertLength(x: int, s: seq<int>)
    ensures |Insert(x, s)| == |s| + 1
    decreases |s|
  {
    if s != [] { InsertLength(x, s[1..]); }
  }

  lemma {:induction false} InsertCounts(x: int, s: seq<int>, n: int)
    ensures AtLeast(Insert(x, s), n) == AtLeast(s, n) + if x >= n then 1 else 0
    decreases |s|
  {
    if s == [] || x >= s[0] {
      assert ([x] + s)[1..] == s;
    } else {
      InsertCounts(x, s[1..], n);
      assert ([s[0]] + Insert(x, s[1..]))[1..] == Insert(x, s[1..]);
    }
  }

  lemma {:induction false} InsertDescends(x: int, s: seq<int>)
    requires IsDescending(s)
    ensures IsDescending(Insert(x, s))
    ensures forall y :: y in Insert(x, s) <==> y == x || y in s
    decreases |s|
  {
    if s == [] || x >= s[0] {
      assert Insert(x, s) == [x] + s;
    } else {
      InsertDescends(x, s[1..]);
      var t := Insert(x, s[1..]);
      assert Insert(x, s) == [s[0]] + t && s == [s[0]] + s[1..];
      forall y | y in t ensures y <= s[0] {
        if y != x { assert y in s[1..]; }
      }
      assert forall j :: 0 <= j < |t| ==> t[j] in t;
    }
  }

  lemma {:induction false} Sorted(s: seq<int>)
    ensures IsDescending(Descending(s))
    ensures forall n :: AtLeast(Descending(s), n) == AtLeast(s, n)
    decreases |s|
  {
    if s != [] {
      Sorted(s[1..]);
      InsertDescends(s[0], Descending(s[1..]));
      forall n ensures AtLeast(Descending(s), n) == AtLeast(s, n) {
        InsertCounts(s[0], Descending(s[1..]), n);
      }
    }
  }

  lemma {:induction false} CountSorted(s: seq<int>, n: int, k: nat)
    requires IsDescending(s) && 1 <= k <= |s|
    ensures AtLeast(s, n) >= k <==> s[k - 1] >= n
    decreases |s|
  {
    if s[0] < n {
      forall y | y in s ensures y < n {
        var j :| 0 <= j < |s| && s[j] == y;
      }
      NoneAtLeast(s, n);
    } else if k > 1 {
      CountSorted(s[1..], n, k - 1);
    }
  }

  lemma {:induction false} NoneAtLeast(s: seq<int>, n: int)
    requires forall y :: y in s ==> y < n
    ensures AtLeast(s, n) == 0
    decreases |s|
  {
    if s != [] {
      assert s[0] in s && forall y :: y in s[1..] ==> y in s;
      NoneAtLeast(s[1..], n);
    }
  }

  /** At least k members of a list reach n exactly when its k-th largest member does. */
  lemma QuorumMark(s: seq<int>, n: int, k: nat)
    requires 1 <= k <= |s|
    ensures AtLeast(s, n) >= k <==> KthLargest(s, k) >= n
  {
    Sorted(s);
    CountSorted(Descending(s), n, k);
  }

  // ---------------------------------------------------------------- the commit rule

  function Progress(m: map<ReplicaId, int>, p: ReplicaId): int { if p in m then m[p] else 0 }

  /** How far each voter other than the leader is known to have got. */
  function Marks(voters: seq<PeerMember>, self: ReplicaId, matched: map<ReplicaId, int>): seq<int> {
    if voters == [] then []
    else (if voters[0].replicaId == self then [] else [Progress(matched, voters[0].replicaId)])
         + Marks(voters[1..], self, matched)
  }

  lemma {:induction false} MarksAppend(vs: seq<PeerMember>, v: PeerMember, self: ReplicaId, matched: map<ReplicaId,
                                       int>, n: int)
    ensures AtLeast(Marks(vs + [v], self, matched), n)
         == AtLeast(Marks(vs, self, matched), n) + if v.replicaId != self
           && Progress(matched, v.replicaId) >= n then 1 else 0
    decreases |vs|
  {
    if vs == [] {
      assert vs + [v] == [v];
    } else {
      assert (vs + [v])[1..] == vs[1..] + [v];
      MarksAppend(vs[1..], v, self, matched, n);
      MarksInFront(vs, self, matched, n);
      MarksInFront(vs + [v], self, matched, n);
    }
  }

  lemma {:induction false} MarksLength(ms: Members, self: ReplicaId, matched: map<ReplicaId, int>)
    requires UniqueIds(ms)
    ensures |Marks(Voters(ms), self, matched)| == |Voters(ms)| - if self in VoterIds(ms) then 1 else 0
    decreases |ms|
  {
    if ms != [] {
      MarksLength(ms[1..], self, matched);
      assert forall m :: m in ms[1..] ==> m.peer.replicaId != ms[0].peer.replicaId;
      assert VoterIds(ms) == VoterIds(ms[1..]) + if ms[0].kind.Voter? then {ms[0].peer.replicaId} else {};
      if ms[0].kind.Voter? {
        assert Voters(ms)[1..] == Voters(ms[1..]);
      } else {
        assert Voters(ms) == Voters(ms[1..]);
      }
    }
  }

  /** The largest index in (from, upTo] whose record is of this term, or `from`. */
  function LastOfTerm(l: View, term: int, from: int, upTo: int): int
    decreases upTo - from
  {
    if upTo <= from then from
    else if TermAt(l, upTo) == term then upTo
    else LastOfTerm(l, term, from, upTo - 1)
  }

  /** The commit index of a leader with these marks: the largest current-term index that is not above
      the quorum-th largest of its own last index and its peers' match indices (section 5.4.2 of the
      Raft paper). */
  function Committed(l: View, term: int, commit: int, marks: seq<int>, quorum: nat): int
    requires 1 <= quorum <= |marks| + 1
  {
    LastOfTerm(l, term, commit, Min(LastIndex(l), KthLargest([LastIndex(l)] + marks, quorum)))
  }

  lemma {:induction false} LastOfTermStep(l: View, term: int, from: int, n: int, limit: int)
    requires from < n
    ensures LastOfTerm(l, term, from, Min(n, limit)) ==
            if n <= limit && TermAt(l, n) == term then n else LastOfTerm(l, term, from, Min(n - 1, limit))
  {
  }

  // ---------------------------------------------------------------- the objects

  /** RaftReplication: per-peer progress, meaningful while its replica leads. */
  class RaftReplication {
    const self: ReplicaId
    var next: map<ReplicaId, int>
    var matched: map<ReplicaId, int>
    var watermark: map<ReplicaId, int>
    var inflight: map<ReplicaId, int>

    /** The next record to send lies above everything the peer is known to hold, except for a peer
        nothing is known about. */
    ghost predicate Valid()
      reads this
    {
      forall p :: ProgressOk(next, matched, p)
    }

    constructor (self: ReplicaId, peers: set<ReplicaId>)
      ensures Valid() && this.self == self && next == map[]
      ensures matched == (map p | p in peers && p != self :: 0) && inflight == matched && watermark == matched
    {
      this.self := self;
      next := map[];
      matched := map p | p in peers && p != self :: 0;
      watermark := map p | p in peers && p != self :: 0;
      inflight := map p | p in peers && p != self :: 0;
    }

    method ResetForLeader(peers: set<ReplicaId>, last: int)
      requires 0 <= last
      modifies this
      ensures Valid() && next == map p | p in peers && p != self :: last + 1
      ensures matched == (map p | p in peers && p != self :: 0) && inflight == matched && watermark == matched
    {
      next := map p | p in peers && p != self :: last + 1;
      matched := map p | p in peers && p != self :: 0;
      watermark := map p | p in peers && p != self :: 0;
      inflight := map p | p in peers && p != self :: 0;
    }

    /** broadcast_append_entries gives a peer nothing is known about the end of the log to start from. */
    method InitialNext(p: ReplicaId, last: int)
      requires Valid() && 0 <= last && Progress(next, p) == 0
      modifies this`next
      ensures Valid() && next == old(next)[p := last + 1]
    {
      assert ProgressOk(next, matched, p);
      next := next[p := last + 1];
      OthersUnchanged(old(next), old(matched), next, matched, p);
    }

    /** The peer never loses ground, and is asked next for the record after its match. */
    method HandleAppendOk(p: ReplicaId, prev: int, count: nat)
      requires Valid()
      modifies this`next, this`matched
      ensures Valid() && Progress(matched, p) == Max(old(Progress(matched, p)), prev + count)
      ensures matched == if prev + count > old(Progress(matched,
              p)) then old(matched)[p := prev + count] else old(matched)
      ensures next == old(next)[p := Progress(matched, p) + 1]
    {
      assert ProgressOk(next, matched, p);
      if prev + count > Progress(matched, p) {
        matched := matched[p := prev + count];
      }
      next := next[p := Progress(matched, p) + 1];
      OthersUnchanged(old(next), old(matched), next, matched, p);
    }

    /** A failed probe moves strictly back until it reaches the match point, and never below it. */
    method HandleAppendFailed(p: ReplicaId, followerLast: int, last: int)
      requires Valid()
      modifies this`next
      ensures Valid()
      ensures Progress(next, p) == Progress(matched, p) + 1
              || Progress(matched, p) + 1 < Progress(next, p) < old(Progress(next, p)) || old(Progress(next, p)) <= 1
      ensures next == old(next)[p := ProbeAfter(old(Progress(next, p)), Progress(matched, p), followerLast, last)]
    {
      assert ProgressOk(next, matched, p);
      var current := Progress(next, p);
      var n := Min(followerLast, last) + 1;
      if n >= current && current > 1 {
        n := current - 1;
      }
      n := Max(n, Progress(matched, p) + 1);
      next := next[p := n];
      OthersUnchanged(old(next), old(matched), next, matched, p);
    }

    method UpdateSnapshotWatermark(p: ReplicaId, mark: int)
      requires Valid()
      modifies this`next, this`matched, this`watermark
      ensures Valid() && watermark == old(watermark)[p := Max(old(Progress(watermark, p)), mark)]
      ensures matched == old(matched)[p := Max(old(Progress(matched, p)), mark)]
      ensures next == old(next)[p := Max(old(Progress(next, p)), mark + 1)]
    {
      assert ProgressOk(next, matched, p);
      watermark := watermark[p := Max(Progress(watermark, p), mark)];
      matched := matched[p := Max(Progress(matched, p), mark)];
      next := next[p := Max(Progress(next, p), mark + 1)];
      OthersUnchanged(old(next), old(matched), next, matched, p);
    }

    /** At most one snapshot is on its way to a peer. */
    method MarkSnapshotInflight(p: ReplicaId, index: int) returns (ok: bool)
      modifies this`inflight
      ensures ok <==> old(Progress(inflight, p)) <= 0
      ensures inflight == if ok then old(inflight)[p := index] else old(inflight)
    {
      ok := Progress(inflight, p) <= 0;
      if ok { inflight := inflight[p := index]; }
    }

    method ClearSnapshotInflight(p: ReplicaId, index: int)
      modifies this`inflight
      ensures inflight == if p in old(inflight)
              && old(inflight)[p] == index then old(inflight)[p := 0] else old(inflight)
    {
      if p in inflight && inflight[p] == index { inflight := inflight[p := 0]; }
    }

    /** The voters that hold the record at n, the leader counted once whether or not it votes. */
    method CountHolders(ms: Members, n: int) returns (count: int)
      ensures count == 1 + AtLeast(Marks(Voters(ms), self, matched), n)
    {
      var voters := Voters(ms);
      count := 1;
      for k := 0 to |voters|
        invariant count == 1 + AtLeast(Marks(voters[..k], self, matched), n)
      {
        assert voters[..k + 1] == voters[..k] + [voters[k]];
        MarksAppend(voters[..k], voters[k], self, matched, n);
        if voters[k].replicaId != self && Progress(matched, voters[k].replicaId) >= n {
          count := count + 1;
        }
      }
      assert voters[..|voters|] == voters;
    }

    /** The scan over uncommitted indices computes the order-statistic rule. */
    method TryAdvanceCommitIndex(ms: Members, l: View, term: int, apply: RaftApply) returns (advanced: bool)
      requires UniqueIds(ms) && WellFormed(l)
      modifies apply`commit
      ensures |Voters(ms)| / 2 + 1 <= |Marks(Voters(ms), self, matched)| + 1
      ensures apply.commit
              == old(Committed(l, term, apply.commit, Marks(Voters(ms), self, matched), |Voters(ms)| / 2 + 1))
      ensures Commits(l, term, VoterIds(ms), self, matched, old(apply.commit), apply.commit)
      ensures advanced <==> apply.commit > old(apply.commit)
    {
      MarksLength(ms, self, matched);
      VotersCounted(ms);
      var last := LastIndex(l);
      ghost var marks := Marks(Voters(ms), self, matched);
      ghost var quorum := |Voters(ms)| / 2 + 1;
      ghost var limit := KthLargest([last] + marks, quorum);
      var start := apply.commit;
      var n := start + 1;
      while n <= last
        invariant start < n && (n <= last + 1 || n == start + 1)
        invariant apply.commit == LastOfTerm(l, term, start, Min(n - 1, limit))
      {
        if TermAt(l, n) == term {
          var count := CountHolders(ms, n);
          assert ([last] + marks)[1..] == marks;
          QuorumMark([last] + marks, n, quorum);
          if count >= |Voters(ms)| / 2 + 1 {
            apply.commit := n;
          }
        }
        LastOfTermStep(l, term, start, n, limit);
        n := n + 1;
      }
      LimitTwice(l, term, start, n - 1, last, limit);
      LastOfTermAbove(l, term, start, Min(last, limit));
      CommittedByCount(ms, l, term, self, matched, start);
      advanced := apply.commit > start;
    }
  }

  /** The record at n may be committed: it is of the leader's term, and the leader together with the other voters
      whose match index reaches n are a majority. */
  ghost predicate Attested(l: View, term: int, voters: set<ReplicaId>, self: ReplicaId, matched: map<ReplicaId, int>,
                           n: int) {
    n <= LastIndex(l) && TermAt(l, n) == term && 1 + |OthersAt(voters, self, matched, n)| > |voters| / 2
  }

  /** A commit index that covers everything that may be committed, and has moved only to such a record. */
  ghost predicate Commits(l: View, term: int, voters: set<ReplicaId>, self: ReplicaId, matched: map<ReplicaId, int>,
                          before: int, commit: int) {
    && (forall n :: Attested(l, term, voters, self, matched, n) ==> n <= commit)
    && (commit == before || (before < commit && Attested(l, term, voters, self, matched, commit)))
  }

  lemma AttestedBelow(ms: Members, l: View, term: int, self: ReplicaId, matched: map<ReplicaId, int>, n: int)
    requires UniqueIds(ms) && |Voters(ms)| / 2 + 1 <= |Marks(Voters(ms), self, matched)| + 1
    ensures var marks := [LastIndex(l)] + Marks(Voters(ms), self, matched);
            Attested(l, term, VoterIds(ms), self, matched, n) <==>
            n <= Min(LastIndex(l), KthLargest(marks, |Voters(ms)| / 2 + 1)) && TermAt(l, n) == term
  {
    var marks := [LastIndex(l)] + Marks(Voters(ms), self, matched);
    QuorumMark(marks, n, |Voters(ms)| / 2 + 1);
    VotersCounted(ms);
    HoldersCounted(ms, self, matched, n);
    assert marks[1..] == Marks(Voters(ms), self, matched);
  }

  lemma {:induction false} LastOfTermIs(l: View, term: int, from: int, upTo: int)
    ensures var c := LastOfTerm(l, term, from, upTo);
            && (c == from || (from < c <= upTo && TermAt(l, c) == term))
            && forall n :: n <= upTo && TermAt(l, n) == term ==> n <= c
    decreases upTo - from
  {
    if upTo > from && TermAt(l, upTo) != term { LastOfTermIs(l, term, from, upTo - 1); }
  }

  /** The order statistic commits exactly what a majority holds. */
  lemma CommittedByCount(ms: Members, l: View, term: int, self: ReplicaId, matched: map<ReplicaId, int>, commit: int)
    requires UniqueIds(ms) && |Voters(ms)| / 2 + 1 <= |Marks(Voters(ms), self, matched)| + 1
    ensures Commits(l, term, VoterIds(ms), self, matched, commit,
                    Committed(l, term, commit, Marks(Voters(ms), self, matched), |Voters(ms)| / 2 + 1))
  {
    var marks, quorum := Marks(Voters(ms), self, matched), |Voters(ms)| / 2 + 1;
    var upTo := Min(LastIndex(l), KthLargest([LastIndex(l)] + marks, quorum));
    var c := Committed(l, term, commit, marks, quorum);
    LastOfTermIs(l, term, commit, upTo);
    AttestedBelow(ms, l, term, self, matched, c);
    forall n | Attested(l, term, VoterIds(ms), self, matched, n) ensures n <= c {
      AttestedBelow(ms, l, term, self, matched, n);
    }
  }

  lemma LimitTwice(l: View, term: int, from: int, n: int, last: int, limit: int)
    requires n == last || (last <= from && n == from)
    ensures LastOfTerm(l, term, from, Min(n, limit)) == LastOfTerm(l, term, from, Min(last, limit))
  {
  }

  lemma {:induction false} LastOfTermAbove(l: View, term: int, from: int, upTo: int)
    ensures LastOfTerm(l, term, from, upTo) >= from
    decreases upTo - from
  {
    if upTo > from { LastOfTermAbove(l, term, from, upTo - 1); }
  }

  ghost predicate ProgressOk(next: map<ReplicaId, int>, matched: map<ReplicaId, int>, p: ReplicaId) {
    0 <= Progress(matched, p) && (Progress(next, p) >= Progress(matched, p) + 1 || (Progress(next, p) == 0
      && Progress(matched, p) == 0))
  }

  lemma OthersUnchanged(next: map<ReplicaId, int>, matched: map<ReplicaId, int>, next': map<ReplicaId, int>,
                        matched': map<ReplicaId, int>, p: ReplicaId)
    requires forall q :: ProgressOk(next, matched, q)
    requires forall q :: q != p ==>
               Progress(next', q) == Progress(next, q) && Progress(matched', q) == Progress(matched, q)
    requires ProgressOk(next', matched', p)
    ensures forall q :: ProgressOk(next', matched', q)
  {
    forall q ensures ProgressOk(next', matched', q) {
      if q != p { assert ProgressOk(next, matched, q); }
    }
  }

  /** Where to probe after a rejection: the follower's end if that is lower, one step back if not. */
  function ProbeAfter(current: int, matched: int, followerLast: int, last: int): int {
    var jump := Min(followerLast, last) + 1;
    Max(if jump >= current && current > 1 then current - 1 else jump, matched + 1)
  }

  // ---------------------------------------------------------------- agreement with the replica model

  /** The voters other than `self` whose match index reaches n. */
  ghost function OthersAt(voters: set<ReplicaId>, self: ReplicaId, matched: map<ReplicaId, int>,
                          n: int): set<ReplicaId> {
    set p | p in voters && p != self && Progress(matched, p) >= n
  }

  lemma {:induction false} HoldersCounted(ms: Members, self: ReplicaId, matched: map<ReplicaId, int>, n: int)
    requires UniqueIds(ms)
    ensures |OthersAt(VoterIds(ms), self, matched, n)| == AtLeast(Marks(Voters(ms), self, matched), n)
    decreases |ms|
  {
    if ms != [] {
      HoldersCounted(ms[1..], self, matched, n);
      if ms[0].kind.Voter? {
        VoterInFront(ms, self, matched, n);
      } else {
        assert VoterIds(ms) == VoterIds(ms[1..]);
        assert Voters(ms) == Voters(ms[1..]);
      }
    }
  }

  lemma VoterInFront(ms: Members, self: ReplicaId, matched: map<ReplicaId, int>, n: int)
    requires UniqueIds(ms) && ms != [] && ms[0].kind.Voter?
    ensures var p := ms[0].peer.replicaId;
            var more := if p != self && Progress(matched, p) >= n then 1 else 0;
            && |OthersAt(VoterIds(ms), self, matched, n)| == |OthersAt(VoterIds(ms[1..]), self, matched, n)| + more
            && AtLeast(Marks(Voters(ms), self, matched), n) == AtLeast(Marks(Voters(ms[1..]), self, matched), n) + more
  {
    VoterIdsFront(ms);
    OneMoreAt(VoterIds(ms[1..]), ms[0].peer.replicaId, self, matched, n);
    assert Voters(ms)[1..] == Voters(ms[1..]);
    MarksInFront(Voters(ms), self, matched, n);
  }

  lemma VoterIdsFront(ms: Members)
    requires UniqueIds(ms) && ms != [] && ms[0].kind.Voter?
    ensures VoterIds(ms) == VoterIds(ms[1..]) + {ms[0].peer.replicaId}
    ensures ms[0].peer.replicaId !in VoterIds(ms[1..])
  {
  }

  lemma OneMoreAt(voters: set<ReplicaId>, p: ReplicaId, self: ReplicaId, matched: map<ReplicaId, int>, n: int)
    requires p !in voters
    ensures |OthersAt(voters + {p}, self, matched, n)|
         == |OthersAt(voters, self, matched, n)| + if p != self && Progress(matched, p) >= n then 1 else 0
  {
    var held := OthersAt(voters, self, matched, n);
    assert OthersAt(voters + {p}, self, matched, n) == held + if p != self
           && Progress(matched, p) >= n then {p} else {};
  }

  lemma MarksInFront(vs: seq<PeerMember>, self: ReplicaId, matched: map<ReplicaId, int>, n: int)
    requires vs != []
    ensures AtLeast(Marks(vs, self, matched), n) == AtLeast(Marks(vs[1..], self, matched), n)
            + if vs[0].replicaId != self && Progress(matched, vs[0].replicaId) >= n then 1 else 0
  {
    var marks := Marks(vs[1..], self, matched);
    if vs[0].replicaId == self {
      assert [] + marks == marks;
    } else {
      assert ([Progress(matched, vs[0].replicaId)] + marks)[1..] == marks;
    }
  }

  /** The scan is the rule the cluster theorems are about. */
  lemma CommitRuleIsOrderStatistic(r: Replica.State, ms: Members)
    requires UniqueIds(ms) && VoterIds(ms) == r.voters && r.commit <= LastIndex(r.log)
    ensures |Voters(ms)| / 2 + 1 <= |Marks(Voters(ms), r.id, r.matched)| + 1
    ensures Replica.CommitRule(r, LastIndex(r.log))
         == Committed(r.log, r.term, r.commit, Marks(Voters(ms), r.id, r.matched), |Voters(ms)| / 2 + 1)
  {
    MarksLength(ms, r.id, r.matched);
    VotersCounted(ms);
    var last := LastIndex(r.log);
    RuleUpTo(r, ms, last, KthLargest([last] + Marks(Voters(ms), r.id, r.matched), |Voters(ms)| / 2 + 1));
  }

  lemma HoldersSplit(r: Replica.State, n: int)
    ensures |Replica.Holders(r, n)| == |OthersAt(r.voters, r.id, r.matched, n)| + 1
  {
    assert Replica.Holders(r, n) == OthersAt(r.voters, r.id, r.matched, n) + {r.id};
  }

  lemma HoldersReach(r: Replica.State, ms: Members, n: int)
    requires UniqueIds(ms) && VoterIds(ms) == r.voters && n <= LastIndex(r.log)
    ensures |Voters(ms)| == |r.voters|
            && |Replica.Holders(r, n)| == AtLeast([LastIndex(r.log)] + Marks(Voters(ms), r.id, r.matched), n)
  {
    VotersCounted(ms);
    HoldersCounted(ms, r.id, r.matched, n);
    HoldersSplit(r, n);
    var marks := Marks(Voters(ms), r.id, r.matched);
    assert ([LastIndex(r.log)] + marks)[1..] == marks;
  }

  /** At one index: committable means not above the order statistic. */
  lemma RuleAt(r: Replica.State, ms: Members, n: int, limit: int)
    requires UniqueIds(ms) && VoterIds(ms) == r.voters && n <= LastIndex(r.log)
    requires |Voters(ms)| / 2 + 1 <= |Marks(Voters(ms), r.id, r.matched)| + 1
    requires limit == KthLargest([LastIndex(r.log)] + Marks(Voters(ms), r.id, r.matched), |Voters(ms)| / 2 + 1)
    ensures Replica.Committable(r, n) <==> n <= limit && TermAt(r.log, n) == r.term
  {
    HoldersReach(r, ms, n);
    QuorumMark([LastIndex(r.log)] + Marks(Voters(ms), r.id, r.matched), n, |Voters(ms)| / 2 + 1);
  }

  lemma {:induction false} RuleUpTo(r: Replica.State, ms: Members, n: int, limit: int)
    requires UniqueIds(ms) && VoterIds(ms) == r.voters && r.commit <= n <= LastIndex(r.log)
    requires |Voters(ms)| / 2 + 1 <= |Marks(Voters(ms), r.id, r.matched)| + 1
    requires limit == KthLargest([LastIndex(r.log)] + Marks(Voters(ms), r.id, r.matched), |Voters(ms)| / 2 + 1)
    ensures Replica.CommitRule(r, n) == LastOfTerm(r.log, r.term, r.commit, Min(n, limit))
    decreases n - r.commit
  {
    if n > r.commit {
      RuleAt(r, ms, n, limit);
      RuleUpTo(r, ms, n - 1, limit);
      LastOfTermStep(r.log, r.term, r.commit, n, limit);
    }
  }
}
