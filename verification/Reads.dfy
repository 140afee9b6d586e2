/** Pending linearizable reads of a leader (src/storage/replica/read_tracker.cpp). */
module Reads {
  import opened Types
  import opened Replica

  datatype Verdict = Wait | Value | Fail

  /** What one pass decides about a pending read. */
  function Decide(r: State, read: PendingRead): Verdict {
    if !r.role.Leader? || r.term != read.term then Fail
    else if |read.confirmed| < |read.voters| / 2 + 1 then Wait
    else if r.applied < read.index then Wait
    else if !ReadableLeader(r) || r.commit < read.index then Fail
    else Value
  }

  /** The replica leads the read's term, a majority of the read's voters has confirmed that, and the state machine
      has everything that was committed when the read began. */
  ghost predicate Leading(r: State, read: PendingRead) { r.role.Leader? && r.term == read.term }

  ghost predicate Ripe(r: State, read: PendingRead) {
    |read.confirmed| > |read.voters| / 2 && read.index <= r.applied
  }

  /** confirm_read_index: the leader has committed a record of its own term, and the read's index. */
  ghost predicate Confirms(r: State, read: PendingRead) { ReadableLeader(r) && read.index <= r.commit }

  /** A pass fails the read: the replica no longer leads its term, or is asked too late. */
  ghost predicate Fails(r: State, seqNo: int) {
    && seqNo in r.pending
    && var read := r.pending[seqNo]; !Leading(r, read) || (Ripe(r, read) && !Confirms(r, read))
  }

  /** The reads still pending when a pass has reached sequence number n. */
  function Left(r: State, n: int): map<int, PendingRead> {
    map k | k in r.pending && (n <= k || Decide(r, r.pending[k]) == Wait) :: r.pending[k]
  }

  function Done(r: State, v: Verdict, n: int): set<int> {
    set k | k in r.pending && k < n && Decide(r, r.pending[k]) == v
  }

  lemma PassOne(r: State, n: int)
    ensures n in Left(r, n) <==> n in r.pending
    ensures n in r.pending ==> Left(r, n)[n] == r.pending[n]
    ensures Left(r, n + 1) == if n in r.pending && Decide(r, r.pending[n]) != Wait then Left(r, n) - {n} else Left(r, n)
    ensures Done(r, Value, n + 1) == Done(r, Value, n) + if n in r.pending
            && Decide(r, r.pending[n]) == Value then {n} else {}
    ensures Done(r, Fail, n + 1) == Done(r, Fail, n) + if n in r.pending
            && Decide(r, r.pending[n]) == Fail then {n} else {}
  {
  }

  lemma PassEnd(r: State, n: int)
    requires forall k :: k in r.pending ==> k < n
    ensures Done(r, Value, n) == (set k | k in r.pending && MayAnswer(r, k))
    ensures Done(r, Fail, n) == (set k | k in r.pending && Fails(r, k))
    ensures Left(r, n) == map k | k in r.pending && Leading(r, r.pending[k]) && !Ripe(r, r.pending[k]) :: r.pending[k]
  {
    forall k | k in r.pending
      ensures Decide(r, r.pending[k]) == Value <==> MayAnswer(r, k)
      ensures Decide(r, r.pending[k]) == Fail <==> Fails(r, k)
      ensures Decide(r, r.pending[k]) == Wait <==> Leading(r, r.pending[k]) && !Ripe(r, r.pending[k])
    {}
    var waiting := map k | k in r.pending && Leading(r, r.pending[k]) && !Ripe(r, r.pending[k]) :: r.pending[k];
    assert forall k :: k in Left(r, n) <==> k in waiting;
  }

  class ReadTracker {
    var pending: map<int, PendingRead>
    var nextSeq: int

    /** Sequence numbers are handed out once; only voters are counted, each once. */
    ghost predicate Valid()
      reads this
    {
      && 0 < nextSeq
      && forall k :: k in pending ==> 0 < k < nextSeq && pending[k].confirmed <= pending[k].voters
    }

    constructor ()
      ensures Valid() && pending == map[] && nextSeq == 1
    {
      pending, nextSeq := map[], 1;
    }

    /** A sequence number is used up even if the replica cannot serve reads. */
    method Establish(r: State) returns (ok: bool, sent: set<Message>)
      requires Valid() && pending == r.pending && nextSeq == r.nextSeq
      modifies this
      ensures Valid() && (ok <==> ReadableLeader(r)) && nextSeq == r.nextSeq + 1
      ensures ok ==> pending == StartRead(r).state.pending && sent == StartRead(r).sent
      ensures !ok ==> pending == r.pending && sent == {}
    {
      var k := nextSeq;
      nextSeq := nextSeq + 1;
      if !ReadableLeader(r) {
        return false, {};
      }
      var o := StartRead(r);
      pending := pending[k := PendingRead(r.commit, r.term, r.voters, if r.id in r.voters then {r.id} else {})];
      return true, o.sent;
    }

    /** Only a reply to the read's own round, in its term and from one of its voters, counts. */
    method OnReadQuorumResponse(ghost r: State, m: Message)
      requires Valid() && pending == r.pending && m.ReadReply?
      modifies this`pending
      ensures Valid() && pending == OnReadReply(r, m).pending
    {
      if m.seqNo !in pending {
        return;
      }
      var read := pending[m.seqNo];
      if m.term != read.term || m.from !in read.voters {
        return;
      }
      pending := pending[m.seqNo := read.(confirmed := read.confirmed + {m.from})];
    }

    /** One pass: a read goes on waiting exactly while its term is led and a majority or a record to apply is
        missing, it is answered exactly when it may be, it fails for nothing else, and none is lost. */
    method Advance(r: State) returns (answered: set<int>, failed: set<int>)
      requires Valid() && pending == r.pending
      modifies this`pending
      ensures Valid() && answered == set k | k in r.pending && MayAnswer(r, k)
      ensures answered == set k | k in r.pending && Leading(r, r.pending[k]) && Ripe(r, r.pending[k])
                                  && Confirms(r, r.pending[k])
      ensures failed == set k | k in r.pending && Fails(r, k)
      ensures pending == map k | k in r.pending && Leading(r, r.pending[k]) && !Ripe(r, r.pending[k]) :: r.pending[k]
      ensures r.pending.Keys == pending.Keys + answered + failed
      ensures pending.Keys !! answered && pending.Keys !! failed && answered !! failed
    {
      answered, failed := {}, {};
      assert Left(r, 1) == r.pending && Done(r, Value, 1) == {} && Done(r, Fail, 1) == {};
      for n := 1 to nextSeq
        invariant pending == Left(r, n) && answered == Done(r, Value, n) && failed == Done(r, Fail, n)
      {
        PassOne(r, n);
        if n in pending {
          match Decide(r, pending[n]) {
            case Wait =>
            case Value =>
              answered := answered + {n};
              pending := pending - {n};
            case Fail =>
              failed := failed + {n};
              pending := pending - {n};
          }
        }
      }
      PassEnd(r, nextSeq);
    }

    method FailAll() returns (failed: set<int>)
      requires Valid()
      modifies this`pending
      ensures Valid() && pending == map[] && failed == old(pending.Keys)
    {
      failed := pending.Keys;
      pending := map[];
    }
  }
}
