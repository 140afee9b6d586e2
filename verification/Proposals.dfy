/** Client writes of a leader: deduplication by request id and the callers waiting for each write
    (src/storage/replica/proposal_tracker.cpp). */
module Proposals {
  import opened Types
  import opened RaftLogClass
  import L = RaftLog

  datatype Status = Success | KeyNotFound | ConditionNotMet | Invalid | NotLeader | Failed

  datatype Write = Write(op: WriteOp, key: Bytes, value: Bytes, expected: Bytes, requestId: Bytes)

  /** One queued call; `caller` identifies its completion. */
  datatype Call = Call(caller: int, write: Option<Write>)

  /** What the state machine remembers of an applied request. */
  datatype Record = Record(hash: int, status: Status)

  /** A request on its way.  `term` is the term of the record at `index`; the source does not keep it,
      and no decision here looks at it. */
  datatype Tracked = Tracked(op: WriteOp, hash: int, index: int, term: int, committed: bool, waiting: set<int>)

  type Entries = map<Bytes, Tracked>

  type Hash = (WriteOp, Bytes, Bytes, Bytes) -> int

  function HashOf(h: Hash, w: Write): int { h(w.op, w.key, w.value, w.expected) }

  function HashOfEntry(h: Hash, e: LogEntry): int { h(e.op, e.key, e.value, e.expected) }

  // ---------------------------------------------------------------- request ids in the log

  /** No two writes in the log carry the same request id. */
  ghost predicate DistinctIds(l: Log) {
    forall i, j :: 0 <= i < j < |l| ==> !SameId(l[i], l[j])
  }

  ghost predicate SameId(a: LogEntry, b: LogEntry) { IsRequest(a, a.requestId) && IsRequest(b, a.requestId) }

  ghost predicate Absent(l: Log, id: Bytes) {
    forall i :: 0 <= i < |l| ==> !IsRequest(l[i], id)
  }

  lemma AppendDistinct(l: Log, e: LogEntry)
    requires DistinctIds(l) && Absent(l, e.requestId)
    ensures DistinctIds(l + [e])
  {
  }

  /** One of the first `commit` records is the write with this id. */
  ghost predicate CommittedId(log: Log, id: Bytes, commit: int) {
    exists i :: 0 <= i < |log| && i < commit && IsRequest(log[i], id)
  }

  // ---------------------------------------------------------------- the replica as the tracker sees it

  /** The replica's log object, what only its snapshot holds, and the requests it has applied. */
  class RequestLog {
    const store: LogStore
    ghost var covered: Log
    var records: map<Bytes, Record>
    var writable: bool

    constructor (store: LogStore, writable: bool)
      requires store.Valid() && store.Window() == L.View([], 0, 0)
      ensures Valid() && Whole() == [] && records == map[] && this.store == store && this.writable == writable
    {
      this.store, this.writable := store, writable;
      covered, records := [], map[];
    }

    ghost function Whole(): Log
      reads this, store
    {
      covered + store.entries
    }

    /** Requests whose records left the log for the snapshot have been applied. */
    ghost predicate Valid()
      reads this, store
    {
      && store.Valid() && |covered| == store.snapIndex && DistinctIds(Whole())
      && (forall i :: 0 <= i < |Whole()| ==> Whole()[i].index == i + 1)
      && forall i :: 0 <= i < |covered| && IsRequest(covered[i], covered[i].requestId) ==>
           covered[i].requestId in records
    }

    /** find_request looks at what the snapshot does not cover. */
    method Find(id: Bytes) returns (found: Option<LogEntry>)
      requires Valid()
      ensures found.None? ==> Absent(store.entries, id)
      ensures found.Some? ==>
                exists i :: 0 <= i < |Whole()| && Whole()[i] == found.value && IsRequest(Whole()[i], id)
    {
      found := store.FindRequest(id);
      FirstRequestIsFirst(store.entries, id);
      if found.Some? {
        var k :| 0 <= k < |store.entries| && store.entries[k] == found.value && IsRequest(found.value, id);
        assert Whole()[|covered| + k] == found.value;
      }
    }

    /** propose_batch for one write: appended, or refused with index -1. */
    method Propose(w: Write, term: int) returns (status: Status, index: int)
      requires Valid() && Absent(Whole(), w.requestId)
      modifies store
      ensures Valid() && status == if !writable then NotLeader else if !IsKvWrite(w.op) then Invalid else Success
      ensures index == if status == Success then old(|Whole()|) + 1 else -1
      ensures status == Success ==>
                && |Whole()| == old(|Whole()|) + 1 && old(Whole()) <= Whole()
                && Holds(Whole()[old(|Whole()|)], w, index, term)
      ensures status != Success ==> Whole() == old(Whole())
    {
      if !writable {
        return NotLeader, -1;
      }
      if !IsKvWrite(w.op) {
        return Invalid, -1;
      }
      var nobody := ReplicaId(-1, -1, -1);
      var e := LogEntry(0, 0, w.op, w.key, w.value, w.expected, PeerMember([], nobody, Endpoint([], 0)), nobody,
                        w.requestId);
      ghost var before := Whole();
      status := Success;
      index := store.AppendNewEntry(term, e);
      ghost var added := e.(term := term, index := index);
      assert Whole() == before + [added];
      assert index == |before| + 1;
      AppendDistinct(before, added);
    }
  }

  ghost predicate Holds(e: LogEntry, w: Write, index: int, term: int) {
    && e.index == index && e.term == term && e.requestId == w.requestId
    && e.op == w.op && e.key == w.key && e.value == w.value && e.expected == w.expected
  }

  // ---------------------------------------------------------------- conservation

  ghost predicate Waits(entries: Entries, id: Bytes, caller: int) {
    id in entries && caller in entries[id].waiting
  }

  /** A caller is answered, or waits for exactly one request; nobody else is known. */
  ghost predicate Accounted(entries: Entries, answers: map<int, Status>, callers: set<int>) {
    && answers.Keys <= callers
    && (forall id, c :: Waits(entries, id, c) ==> c in callers && c !in answers)
    && (forall c :: c in callers && c !in answers ==> exists id :: Waits(entries, id, c))
    && (forall id, id', c :: Waits(entries, id, c) && Waits(entries, id', c) ==> id == id')
  }

  /** Answering everybody who waits for one request. */
  function AnswerAll(answers: map<int, Status>, waiting: set<int>, status: Status): map<int, Status> {
    map c | c in answers.Keys + waiting :: if c in waiting then status else answers[c]
  }

  /** Nobody waits for this request any more, and nothing else has changed for anybody. */
  ghost predicate Released(entries: Entries, id: Bytes, entries': Entries) {
    forall i, c :: Waits(entries', i, c) <==> i != id && Waits(entries, i, c)
  }

  lemma AnswerEntry(entries: Entries, answers: map<int, Status>, callers: set<int>, id: Bytes, status: Status,
                    entries': Entries)
    requires Accounted(entries, answers, callers) && id in entries && Released(entries, id, entries')
    ensures Accounted(entries', AnswerAll(answers, entries[id].waiting, status), callers)
  {
    var answers' := AnswerAll(answers, entries[id].waiting, status);
    forall c | c in answers' ensures c in callers {
      if c !in answers { assert Waits(entries, id, c); }
    }
    forall c | c in callers && c !in answers' ensures exists i :: Waits(entries', i, c) {
      var i :| Waits(entries, i, c);
      assert Waits(entries', i, c);
    }
    forall i, c | Waits(entries', i, c) ensures c !in answers' {
      assert Waits(entries, i, c);
      if c in entries[id].waiting { assert Waits(entries, id, c); }
    }
  }

  lemma AnswerOne(entries: Entries, answers: map<int, Status>, callers: set<int>, c: int, status: Status)
    requires Accounted(entries, answers, callers) && c !in callers
    ensures Accounted(entries, answers[c := status], callers + {c})
  {
    forall d | d in callers + {c} && d !in answers[c := status] ensures exists id :: Waits(entries, id, d) {
      assert d in callers;
    }
  }

  lemma JoinEntry(entries: Entries, answers: map<int, Status>, callers: set<int>, id: Bytes, c: int, t: Tracked)
    requires Accounted(entries, answers, callers) && c !in callers
    requires t.waiting == (if id in entries then entries[id].waiting else {}) + {c}
    ensures Accounted(entries[id := t], answers, callers + {c})
  {
    var entries' := entries[id := t];
    forall d | d in callers + {c} && d !in answers ensures exists i :: Waits(entries', i, d) {
      if d == c {
        assert Waits(entries', id, c);
      } else {
        var i :| Waits(entries, i, d);
        assert Waits(entries', i, d);
      }
    }
    forall i, d | Waits(entries', i, d) ensures (d in callers + {c} && d !in answers) && (d == c ==> i == id)
      && (d != c ==> Waits(entries, i, d)) {
      if i != id { assert Waits(entries, i, d); }
      else if d != c { assert Waits(entries, id, d); }
    }
  }

  // ---------------------------------------------------------------- tracked requests

  /** Nobody waits for a committed write whose answer does not depend on its result. */
  ghost predicate Quiet(t: Tracked) { t.committed && t.op != Cas ==> t.waiting == {} }

  /** Payloads of different operations have different hashes. */
  ghost predicate TellsOpsApart(h: Hash) {
    forall op, key, value, expected, op', key', value', expected' ::
      h(op, key, value, expected) == h(op', key', value', expected') ==> op == op'
  }

  /** The hash is that of some payload of the tracked operation. */
  ghost predicate HashFits(h: Hash, t: Tracked) { exists w: Write :: w.op == t.op && t.hash == HashOf(h, w) }

  ghost predicate Fits(h: Hash, t: Tracked) { Quiet(t) && HashFits(h, t) }

  /** What holds of tracked requests and callers whatever becomes of the log. */
  ghost predicate Conserved(h: Hash, entries: Entries, answers: map<int, Status>, callers: set<int>) {
    TellsOpsApart(h) && Accounted(entries, answers, callers) && forall id :: id in entries ==> Fits(h, entries[id])
  }

  lemma FitsJoined(h: Hash, t: Tracked, t': Tracked)
    requires Fits(h, t) && t' == t.(waiting := t'.waiting) && Quiet(t')
    ensures Fits(h, t')
  {
    var v: Write :| v.op == t.op && t.hash == HashOf(h, v);
    assert v.op == t'.op && t'.hash == HashOf(h, v);
  }

  /** The same hash means the same operation, so a caller never joins a request that is answered. */
  lemma SameOp(h: Hash, t: Tracked, w: Write)
    requires TellsOpsApart(h) && HashFits(h, t) && t.hash == HashOf(h, w)
    ensures t.op == w.op
  {
    var v: Write :| v.op == t.op && t.hash == HashOf(h, v);
    assert h(v.op, v.key, v.value, v.expected) == h(w.op, w.key, w.value, w.expected);
  }

  /** The record at the request's index is still the request's own. */
  ghost predicate Stays(log: Log, id: Bytes, t: Tracked) {
    0 < t.index <= |log| && IsRequest(log[t.index - 1], id) && log[t.index - 1].term == t.term
  }

  /** Every tracked request has its record, except those that are just being proposed. */
  ghost predicate InPlace(log: Log, entries: Entries, added: seq<Write>) {
    forall id :: id in entries ==> Stays(log, id, entries[id]) || Among(added, id)
  }

  ghost predicate Among(added: seq<Write>, id: Bytes) { exists k :: 0 <= k < |added| && added[k].requestId == id }

  ghost predicate IsNew(log: Log, entries: Entries, w: Write) {
    w.requestId != [] && w.requestId in entries && Absent(log, w.requestId) && entries[w.requestId].index == 0
    && !entries[w.requestId].committed
  }

  /** Requests on their way into the log: tracked, without an index yet, and different from each other. */
  ghost predicate Pending(log: Log, entries: Entries, added: seq<Write>) {
    && (forall k :: 0 <= k < |added| ==> IsNew(log, entries, added[k]))
    && DistinctWrites(added)
  }

  ghost predicate DistinctWrites(ws: seq<Write>) {
    forall j, k :: 0 <= j < k < |ws| ==> ws[j].requestId != ws[k].requestId
  }

  lemma PendingSame(log: Log, entries: Entries, added: seq<Write>, id: Bytes, t: Tracked)
    requires Pending(log, entries, added)
    requires if id in entries then t == entries[id].(waiting := t.waiting) else !Among(added, id)
    ensures Pending(log, entries[id := t], added)
  {
    forall k | 0 <= k < |added| ensures IsNew(log, entries[id := t], added[k]) {
      assert IsNew(log, entries, added[k]);
      assert Among(added, added[k].requestId);
    }
  }

  lemma NotAmong(log: Log, entries: Entries, added: seq<Write>, id: Bytes)
    requires Pending(log, entries, added) && id !in entries
    ensures !Among(added, id)
  {
    forall k | 0 <= k < |added| ensures added[k].requestId != id { assert IsNew(log, entries, added[k]); }
  }

  lemma PendingNew(log: Log, entries: Entries, added: seq<Write>, w: Write, t: Tracked)
    requires Pending(log, entries, added) && w.requestId !in entries && w.requestId != [] && Absent(log, w.requestId)
    requires t.index == 0 && !t.committed
    ensures Pending(log, entries[w.requestId := t], added + [w])
  {
    var entries', added' := entries[w.requestId := t], added + [w];
    forall k | 0 <= k < |added'| ensures IsNew(log, entries', added'[k]) {
      if k < |added| { assert IsNew(log, entries, added[k]); }
    }
    forall j, k | 0 <= j < k < |added'| ensures added'[j].requestId != added'[k].requestId {
      assert IsNew(log, entries, added[j]);
    }
  }

  lemma InPlaceNew(log: Log, entries: Entries, added: seq<Write>, w: Write, t: Tracked)
    requires InPlace(log, entries, added)
    ensures InPlace(log, entries[w.requestId := t], added + [w])
  {
    var entries', added' := entries[w.requestId := t], added + [w];
    forall id | id in entries' ensures Stays(log, id, entries'[id]) || Among(added', id) {
      if id == w.requestId {
        assert added'[|added|].requestId == id;
      } else if !Stays(log, id, entries[id]) {
        var k :| 0 <= k < |added| && added[k].requestId == id;
        assert added'[k].requestId == id;
      }
    }
  }

  /** Absent from the window and from the applied records means absent from the whole log. */
  lemma AbsentEverywhere(covered: Log, entries: Log, records: map<Bytes, Record>, id: Bytes)
    requires Absent(entries, id) && id !in records
    requires forall i :: 0 <= i < |covered| && IsRequest(covered[i], covered[i].requestId) ==>
               covered[i].requestId in records
    ensures Absent(covered + entries, id)
  {
  }

  // ---------------------------------------------------------------- answers

  ghost predicate Told(answers: map<int, Status>, caller: int, status: Status) {
    caller in answers && answers[caller] == status
  }

  /** Answers once given stand. */
  ghost predicate Stand(answers: map<int, Status>, answers': map<int, Status>) {
    forall c :: c in answers ==> Told(answers', c, answers[c])
  }

  /** The same request, perhaps with its place in the log. */
  ghost predicate Placed(t: Tracked, t': Tracked) { t' == t.(index := t'.index, term := t'.term) }

  /** A request of the batch that is to stay: all its proposals have got in. */
  ghost predicate GotIn(added: seq<Write>, results: seq<(Status, int)>, id: Bytes)
    requires |added| == |results|
  {
    forall k :: 0 <= k < |added| && added[k].requestId == id ==> results[k].0 == Success
  }

  /** When a call is answered at once, and with what. */
  ghost predicate Answered(call: Call, h: Hash, records: map<Bytes, Record>, entries: Entries, log: Log,
                           answers: map<int, Status>) {
    if call.write.None? || call.write.value.requestId == [] then Told(answers, call.caller, Invalid)
    else
      var w := call.write.value;
      if w.requestId in records then
        Told(answers, call.caller,
             if records[w.requestId].hash == HashOf(h, w) then records[w.requestId].status else Invalid)
      else if w.requestId in entries then
        if entries[w.requestId].hash != HashOf(h, w) then Told(answers, call.caller, Invalid)
        else if entries[w.requestId].committed && w.op != Cas then Told(answers, call.caller, Success)
        else call.caller !in answers
      else if Absent(log, w.requestId) then call.caller !in answers
      else call.caller in answers ==> answers[call.caller] == Invalid
  }

  /** The test by which a pass takes a request for committed: it looks at the index alone. */
  predicate CommitsNow(t: Tracked, commit: int) { !t.committed && 0 < t.index <= commit }

  predicate IsApplied(t: Tracked, commit: int, applied: int) {
    (t.committed || CommitsNow(t, commit)) && 0 < t.index <= applied
  }

  /** What the callers of a committed request are told: success, or for a compare-and-set what its
      applied record says. */
  function ResultOf(records: map<Bytes, Record>, id: Bytes, t: Tracked): Status {
    if t.op != Cas then Success
    else if id !in records then KeyNotFound
    else if records[id].hash == t.hash then records[id].status
    else Invalid
  }

  /** What a pass tells those who wait for a request, if anything. */
  function Verdict(records: map<Bytes, Record>, id: Bytes, t: Tracked, commit: int, applied: int): Option<Status> {
    if (if t.op == Cas then IsApplied(t, commit, applied) else CommitsNow(t, commit))
    then Some(ResultOf(records, id, t))
    else None
  }

  /** What a pass leaves of a request, if anything. */
  function Remains(t: Tracked, commit: int, applied: int): Option<Tracked> {
    if IsApplied(t, commit, applied) then None
    else if CommitsNow(t, commit)
    then Some(t.(committed := true, waiting := if t.op == Cas then t.waiting else {}))
    else Some(t)
  }

  ghost predicate Left(entries: Entries, id: Bytes, rest: Option<Tracked>) {
    match rest
    case None => id !in entries
    case Some(t) => id in entries && entries[id] == t
  }

  /** A pass has seen every request except those in `left`. */
  ghost predicate Passing(start: Entries, answers: map<int, Status>, records: map<Bytes, Record>, commit: int,
                          applied: int, left: set<Bytes>, entries': Entries, answers': map<int, Status>) {
    && left <= entries'.Keys <= start.Keys && Stand(answers, answers')
    && (forall id :: id in left ==> entries'[id] == start[id])
    && (forall id :: id in start && id !in left ==> Left(entries', id, Remains(start[id], commit, applied)))
    && (forall id, c :: Waits(start, id, c) ==>
          if id in left then c !in answers' else Heard(records, id, start[id], commit, applied, c, answers'))
  }

  ghost predicate Heard(records: map<Bytes, Record>, id: Bytes, t: Tracked, commit: int, applied: int, c: int,
                        answers: map<int, Status>) {
    match Verdict(records, id, t, commit, applied)
    case None => c !in answers
    case Some(status) => Told(answers, c, status)
  }

  lemma PassStep(start: Entries, answers: map<int, Status>, callers: set<int>, records: map<Bytes, Record>, commit: int,
                 applied: int, left: set<Bytes>, entries1: Entries, answers1: map<int, Status>, id: Bytes,
                 entries2: Entries, answers2: map<int, Status>)
    requires Accounted(start, answers, callers) && id in left
    requires Passing(start, answers, records, commit, applied, left, entries1, answers1)
    requires Settles(records, id, commit, applied, entries1, answers1, entries2, answers2)
    ensures Passing(start, answers, records, commit, applied, left - {id}, entries2, answers2)
  {
    forall i | i in start && i !in left - {id} ensures Left(entries2, i, Remains(start[i], commit, applied)) {
      if i != id { assert Left(entries1, i, Remains(start[i], commit, applied)); }
    }
    forall i, c | Waits(start, i, c)
      ensures if i in left - {id} then c !in answers2 else Heard(records, i, start[i], commit, applied, c, answers2)
    {
      if i != id && c in start[id].waiting { assert Waits(start, id, c); }
    }
    forall c | c in answers ensures Told(answers2, c, answers[c]) {
      assert Told(answers1, c, answers[c]);
      if c in start[id].waiting { assert Waits(start, id, c); }
    }
  }

  /** What a pass does to one request. */
  ghost predicate Settles(records: map<Bytes, Record>, id: Bytes, commit: int, applied: int, entries: Entries,
                          answers: map<int, Status>, entries': Entries, answers': map<int, Status>) {
    && id in entries
    && entries' == (match Remains(entries[id], commit, applied)
                    case None => entries - {id}
                    case Some(t) => entries[id := t])
    && answers' == (match Verdict(records, id, entries[id], commit, applied)
                    case None => answers
                    case Some(status) => AnswerAll(answers, entries[id].waiting, status))
  }

  // ---------------------------------------------------------------- when success is the truth

  /** Every caller answered since was waiting for a request that is committed, and was told its result. */
  ghost predicate Justified(entries: Entries, answers: map<int, Status>, answers': map<int, Status>,
                            records: map<Bytes, Record>, log: Log, commit: int) {
    forall c :: c in answers' && c !in answers ==>
      exists id :: Waits(entries, id, c) && CommittedId(log, id, commit)
                   && answers'[c] == ResultOf(records, id, entries[id])
  }

  lemma PassJustified(start: Entries, answers: map<int, Status>, callers: set<int>, records: map<Bytes, Record>,
                      log: Log, commit: int, applied: int, entries': Entries, answers': map<int, Status>)
    requires Accounted(start, answers, callers) && answers'.Keys <= callers && InPlace(log, start, [])
    requires applied <= commit && Passing(start, answers, records, commit, applied, {}, entries', answers')
    ensures Justified(start, answers, answers', records, log, commit) && InPlace(log, entries', [])
  {
    forall c | c in answers' && c !in answers
      ensures exists id :: Waits(start, id, c) && CommittedId(log, id, commit)
                           && answers'[c] == ResultOf(records, id, start[id])
    {
      var id :| Waits(start, id, c);
      assert Heard(records, id, start[id], commit, applied, c, answers');
      assert Stays(log, id, start[id]);
      assert IsRequest(log[start[id].index - 1], id);
    }
    forall id | id in entries' ensures Stays(log, id, entries'[id]) {
      assert Left(entries', id, Remains(start[id], commit, applied)) && Stays(log, id, start[id]);
    }
  }

  // ---------------------------------------------------------------- the tracker

  lemma ConservedWith(h: Hash, entries: Entries, answers: map<int, Status>, callers: set<int>, id: Bytes, t: Tracked,
                      answers': map<int, Status>, callers': set<int>)
    requires Conserved(h, entries, answers, callers) && Fits(h, t)
    requires Accounted(entries[id := t], answers', callers')
    ensures Conserved(h, entries[id := t], answers', callers')
  {
  }

  class ProposalTracker {
    const hash: Hash
    var entries: Entries
    var answers: map<int, Status>
    ghost var callers: set<int>

    /** Every caller is answered or waits for exactly one request, whatever the log has become. */
    ghost predicate Valid()
      reads this
    {
      Conserved(hash, entries, answers, callers)
    }

    constructor (hash: Hash)
      requires TellsOpsApart(hash)
      ensures Valid() && entries == map[] && answers == map[] && callers == {} && this.hash == hash
    {
      this.hash := hash;
      entries, answers, callers := map[], map[], {};
    }

    method FinishCall(caller: int, status: Status)
      requires Valid() && caller !in callers
      modifies this`answers, this`callers
      ensures Valid() && callers == old(callers) + {caller} && answers == old(answers)[caller := status]
    {
      AnswerOne(entries, answers, callers, caller, status);
      answers := answers[caller := status];
      callers := callers + {caller};
    }

    method Join(caller: int, id: Bytes, t: Tracked)
      requires Valid() && caller !in callers && Fits(hash, t)
      requires t.waiting == (if id in entries then entries[id].waiting else {}) + {caller}
      modifies this`entries, this`callers
      ensures Valid() && callers == old(callers) + {caller} && entries == old(entries)[id := t]
    {
      JoinEntry(entries, answers, callers, id, caller, t);
      ConservedWith(hash, entries, answers, callers, id, t, answers, callers + {caller});
      entries := entries[id := t];
      callers := callers + {caller};
    }

    /** One call of a batch.  It is proposed only if its id is in no applied record, no tracked request
        and nowhere in the log. */
    method SubmitOne(call: Call, r: RequestLog, added: seq<Write>) returns (added': seq<Write>)
      requires Valid() && r.Valid() && Pending(r.Whole(), entries, added) && call.caller !in callers
      modifies this
      ensures Valid() && Pending(r.Whole(), entries, added') && callers == old(callers) + {call.caller}
      ensures old(InPlace(r.Whole(), entries, added)) ==> InPlace(r.Whole(), entries, added')
      ensures call.caller in answers ==> answers == old(answers)[call.caller := answers[call.caller]]
      ensures call.caller !in answers ==>
                answers == old(answers) && call.write.Some? && Waits(entries, call.write.value.requestId, call.caller)
      ensures Answered(call, hash, r.records, old(entries), r.Whole(), answers)
      ensures added' == added || (call.write.Some? && added' == added + [call.write.value]
                                  && call.write.value.requestId !in r.records
                                  && call.write.value.requestId !in old(entries)
                                  && Absent(r.Whole(), call.write.value.requestId))
      ensures Stand(old(answers), answers) && Widened(call, old(entries), entries)
      ensures old(IsNewCall(call, r.records, entries, r.Whole())) ==>
                IsAwaited(hash, call, entries) && added' == added + [call.write.value]
    {
      added' := added;
      if call.write.None? || call.write.value.requestId == [] {
        FinishCall(call.caller, Invalid);
        SameWidens(call, entries);
        return;
      }
      added' := SubmitWrite(call.caller, call.write.value, r, added);
    }

    method SubmitWrite(caller: int, w: Write, r: RequestLog, added: seq<Write>) returns (added': seq<Write>)
      requires Valid() && r.Valid() && Pending(r.Whole(), entries, added) && caller !in callers && w.requestId != []
      modifies this
      ensures Valid() && Pending(r.Whole(), entries, added') && callers == old(callers) + {caller}
      ensures old(InPlace(r.Whole(), entries, added)) ==> InPlace(r.Whole(), entries, added')
      ensures if caller in answers
              then added' == added && answers == old(answers)[caller := answers[caller]]
              else answers == old(answers) && Waits(entries, w.requestId, caller)
      ensures Answered(Call(caller, Some(w)), hash, r.records, old(entries), r.Whole(), answers)
      ensures Widened(Call(caller, Some(w)), old(entries), entries)
      ensures if w.requestId !in r.records && w.requestId !in old(entries) && Absent(r.Whole(), w.requestId)
              then added' == added + [w] && entries[w.requestId].op == w.op
                   && entries[w.requestId].hash == HashOf(hash, w)
              else added' == added
    {
      var id, h := w.requestId, HashOf(hash, w);
      if id in r.records {
        FinishCall(caller, if r.records[id].hash == h then r.records[id].status else Invalid);
        SameWidens(Call(caller, Some(w)), entries);
        added' := added;
      } else if id in entries {
        SubmitTracked(caller, w, r, added);
        added' := added;
      } else {
        added' := SubmitUntracked(caller, w, r, added);
      }
    }

    /** A call for a request that is tracked already. */
    method SubmitTracked(caller: int, w: Write, ghost r: RequestLog, ghost added: seq<Write>)
      requires Valid() && Pending(r.Whole(), entries, added) && caller !in callers && w.requestId in entries
      modifies this
      ensures Valid() && Pending(r.Whole(), entries, added) && callers == old(callers) + {caller}
      ensures old(InPlace(r.Whole(), entries, added)) ==> InPlace(r.Whole(), entries, added)
      ensures var t := old(entries)[w.requestId];
              if t.hash != HashOf(hash, w) then answers == old(answers)[caller := Invalid]
              else if t.committed && w.op != Cas then answers == old(answers)[caller := Success]
              else answers == old(answers) && Waits(entries, w.requestId, caller)
      ensures Widened(Call(caller, Some(w)), old(entries), entries)
    {
      var id := w.requestId;
      var t := entries[id];
      if t.hash != HashOf(hash, w) {
        FinishCall(caller, Invalid);
      } else if t.committed && w.op != Cas {
        FinishCall(caller, Success);
      } else {
        assert Fits(hash, t);
        SameOp(hash, t, w);
        var t' := t.(waiting := t.waiting + {caller});
        FitsJoined(hash, t, t');
        PendingSame(r.Whole(), entries, added, id, t');
        JoinWidens(Call(caller, Some(w)), entries, id, t');
        Join(caller, id, t');
      }
      SameWidens(Call(caller, Some(w)), old(entries));
    }

    /** A call for a request that is not tracked: it may be in the log, or has to be proposed. */
    method SubmitUntracked(caller: int, w: Write, r: RequestLog, added: seq<Write>) returns (added': seq<Write>)
      requires Valid() && r.Valid() && Pending(r.Whole(), entries, added) && caller !in callers
      requires w.requestId != [] && w.requestId !in entries && w.requestId !in r.records
      modifies this
      ensures Valid() && Pending(r.Whole(), entries, added') && callers == old(callers) + {caller}
      ensures old(InPlace(r.Whole(), entries, added)) ==> InPlace(r.Whole(), entries, added')
      ensures if Absent(r.Whole(), w.requestId)
              then answers == old(answers) && added' == added + [w]
                   && entries == old(entries)[w.requestId := Tracked(w.op, HashOf(hash, w), 0, 0, false, {caller})]
              else added' == added && (answers == old(answers)[caller := Invalid]
                                       || (answers == old(answers) && Waits(entries, w.requestId, caller)))
      ensures Widened(Call(caller, Some(w)), old(entries), entries)
    {
      var logged := r.Find(w.requestId);
      if logged.None? {
        AbsentEverywhere(r.covered, r.store.entries, r.records, w.requestId);
        SubmitNew(caller, w, r, added);
        added' := added + [w];
      } else {
        added' := added;
        if HashOfEntry(hash, logged.value) != HashOf(hash, w) {
          // The records of the log are numbered from one, so an index below that is never found.
          FinishCall(caller, Invalid);
          SameWidens(Call(caller, Some(w)), entries);
        } else {
          SubmitLogged(caller, w, r, added, logged.value);
        }
      }
    }

    /** A new request starts being tracked. */
    method SubmitNew(caller: int, w: Write, ghost r: RequestLog, ghost added: seq<Write>)
      requires Valid() && Pending(r.Whole(), entries, added) && caller !in callers
      requires w.requestId != [] && w.requestId !in entries && Absent(r.Whole(), w.requestId)
      modifies this`entries, this`callers
      ensures Valid() && Pending(r.Whole(), entries, added + [w]) && callers == old(callers) + {caller}
      ensures old(InPlace(r.Whole(), entries, added)) ==> InPlace(r.Whole(), entries, added + [w])
      ensures entries == old(entries)[w.requestId := Tracked(w.op, HashOf(hash, w), 0, 0, false, {caller})]
      ensures Widened(Call(caller, Some(w)), old(entries), entries)
    {
      var t := Tracked(w.op, HashOf(hash, w), 0, 0, false, {caller});
      PendingNew(r.Whole(), entries, added, w, t);
      if InPlace(r.Whole(), entries, added) { InPlaceNew(r.Whole(), entries, added, w, t); }
      JoinWidens(Call(caller, Some(w)), entries, w.requestId, t);
      assert w.op == t.op && t.hash == HashOf(hash, w);
      Join(caller, w.requestId, t);
    }

    /** A request whose record is in the log already is tracked at that record. */
    method SubmitLogged(caller: int, w: Write, ghost r: RequestLog, ghost added: seq<Write>, e: LogEntry)
      requires Valid() && r.Valid() && Pending(r.Whole(), entries, added) && caller !in callers
      requires w.requestId !in entries
      requires exists i :: 0 <= i < |r.Whole()| && r.Whole()[i] == e && IsRequest(r.Whole()[i], w.requestId)
      modifies this`entries, this`callers
      ensures Valid() && Pending(r.Whole(), entries, added) && callers == old(callers) + {caller}
      ensures old(InPlace(r.Whole(), entries, added)) ==> InPlace(r.Whole(), entries, added)
      ensures Waits(entries, w.requestId, caller) && Widened(Call(caller, Some(w)), old(entries), entries)
    {
      var t := Tracked(w.op, HashOf(hash, w), e.index, e.term, false, {caller});
      NotAmong(r.Whole(), entries, added, w.requestId);
      PendingSame(r.Whole(), entries, added, w.requestId, t);
      JoinWidens(Call(caller, Some(w)), entries, w.requestId, t);
      assert w.op == t.op && t.hash == HashOf(hash, w);
      Join(caller, w.requestId, t);
    }

    method FailRequest(id: Bytes, status: Status)
      requires Valid()
      modifies this`entries, this`answers
      ensures Valid() && entries == old(entries) - {id} && Stand(old(answers), answers)
      ensures answers ==
              if id in old(entries)
              then AnswerAll(old(answers), old(entries)[id].waiting, status)
              else old(answers)
    {
      if id in entries {
        Release(id, status);
      }
    }

    /** submit_batch: afterwards every caller of the batch is answered or waits for one request, and
        the request ids in the log are still pairwise distinct. */
    method SubmitBatch(calls: seq<Call>, r: RequestLog, term: int, persisted: bool)
      requires Valid() && r.Valid() && FreshCallers(calls, callers)
      modifies this, r.store
      ensures Valid() && r.Valid() && callers == old(callers) + CallersOf(calls, |calls|)
      ensures old(r.Whole()) <= r.Whole() && Stand(old(answers), answers)
      ensures old(InPlace(r.Whole(), entries, [])) ==> InPlace(r.Whole(), entries, [])
      // Every new write of the batch is waited for.
      ensures r.writable && persisted ==>
                forall k :: 0 <= k < |calls| && old(IsFirst(calls, k, r.records, entries, r.Whole())) ==>
                  IsAwaited(hash, calls[k], entries)
      ensures |r.Whole()| <= old(|r.Whole()|) + |calls|
    {
      var added := SubmitCalls(calls, r);
      ghost var between := entries;
      ProposeNew(r, added, term, persisted);
      if r.writable && persisted {
        forall k | 0 <= k < |calls| && old(IsFirst(calls, k, r.records, entries, r.Whole()))
          ensures IsAwaited(hash, calls[k], entries)
        {
          assert IsAwaited(hash, calls[k], between) && OnlyAs(added, calls[k].write.value);
          assert OnlyKv(added, calls[k].write.value.requestId);
        }
      }
    }

    /** The first half: every call is answered, joins a request, or is left to be proposed. */
    method SubmitCalls(calls: seq<Call>, r: RequestLog) returns (added: seq<Write>)
      requires Valid() && r.Valid() && FreshCallers(calls, callers)
      modifies this
      ensures Valid() && Pending(r.Whole(), entries, added) && Stand(old(answers), answers)
      ensures callers == old(callers) + CallersOf(calls, |calls|)
      ensures old(InPlace(r.Whole(), entries, [])) ==> InPlace(r.Whole(), entries, added)
      ensures Awaited(hash, calls, |calls|, r.records, old(entries), r.Whole(), entries, added)
      ensures |added| <= |calls|
    {
      added := [];
      for k := 0 to |calls|
        invariant Valid() && Pending(r.Whole(), entries, added) && Stand(old(answers), answers)
        invariant callers == old(callers) + CallersOf(calls, k)
        invariant old(InPlace(r.Whole(), entries, [])) ==> InPlace(r.Whole(), entries, added)
        invariant OnlyFrom(calls, k, old(entries), entries)
        invariant Awaited(hash, calls, k, r.records, old(entries), r.Whole(), entries, added)
        invariant |added| <= k
      {
        NextCaller(calls, callers, old(callers), k);
        ghost var before, were := entries, added;
        added := SubmitOne(calls[k], r, added);
        AwaitedStep(hash, calls, k, r.records, old(entries), r.Whole(), before, were, entries, added);
      }
    }

    method ProposeNew(r: RequestLog, added: seq<Write>, term: int, persisted: bool)
      requires Valid() && r.Valid() && Pending(r.Whole(), entries, added)
      modifies this`entries, this`answers, r.store
      ensures Valid() && r.Valid() && old(r.Whole()) <= r.Whole() && Stand(old(answers), answers)
      ensures old(InPlace(r.Whole(), entries, added)) ==> InPlace(r.Whole(), entries, [])
      ensures r.writable && persisted ==>
                forall id :: id in old(entries) && OnlyKv(added, id) ==>
                  id in entries && Placed(old(entries)[id], entries[id])
      ensures |r.Whole()| <= old(|r.Whole()|) + |added|
    {
      assert AbsentAll(r.Whole(), added) by {
        forall k | 0 <= k < |added| ensures Absent(r.Whole(), added[k].requestId) {
          assert IsNew(r.Whole(), entries, added[k]);
        }
      }
      var results := ProposeBatch(r, added, term);
      SettlingStarts(old(r.Whole()), r.Whole(), entries, added, results, term);
      TakeResults(r, added, results, term, persisted);
    }

    /** Each new request gets its index, or fails. */
    method TakeResults(r: RequestLog, added: seq<Write>, results: seq<(Status, int)>, term: int, persisted: bool)
      requires Valid() && Settling(r.Whole(), entries, added, results, term)
      modifies this`entries, this`answers
      ensures Valid() && Stand(old(answers), answers)
      ensures old(InPlace(r.Whole(), entries, added)) ==> InPlace(r.Whole(), entries, [])
      ensures persisted ==> KeepsPlaced(added, results, old(entries), entries)
    {
      var k := 0;
      assert added[k..] == added && results[k..] == results;
      while k < |added|
        invariant k <= |added| == |results|
        invariant Valid() && Stand(old(answers), answers)
        invariant Settling(r.Whole(), entries, added[k..], results[k..], term)
        invariant old(InPlace(r.Whole(), entries, added)) ==> InPlace(r.Whole(), entries, added[k..])
        invariant persisted ==> KeepsPlaced(added, results, old(entries), entries)
      {
        assert added[k..][1..] == added[k + 1..] && results[k..][1..] == results[k + 1..];
        assert added[k..][0] == added[k] && results[k..][0] == results[k];
        ghost var before := entries;
        TakeResult(r, added[k..], results[k..], term, persisted);
        if persisted { KeepsStep(added, results, term, k, old(entries), before, entries); }
        k := k + 1;
      }
      assert added[k..] == [];
    }

    method TakeResult(r: RequestLog, rest: seq<Write>, results: seq<(Status, int)>, term: int, persisted: bool)
      requires Valid() && Settling(r.Whole(), entries, rest, results, term) && rest != []
      modifies this`entries, this`answers
      ensures Valid() && Stand(old(answers), answers) && Settling(r.Whole(), entries, rest[1..], results[1..], term)
      ensures old(InPlace(r.Whole(), entries, rest)) ==> InPlace(r.Whole(), entries, rest[1..])
      ensures var id := rest[0].requestId;
              if persisted && results[0].0 == Success
              then answers == old(answers)
                   && entries == old(entries)[id := old(entries)[id].(index := results[0].1, term := term)]
              else entries == old(entries) - {id}
                   && answers == AnswerAll(old(answers), old(entries)[id].waiting,
                                           if persisted then results[0].0 else Failed)
    {
      var id := rest[0].requestId;
      ghost var before := entries;
      if !persisted || results[0].0 != Success {
        FailRequest(id, if persisted then results[0].0 else Failed);
      } else {
        Place(id, results[0].1, term);
      }
      SettleStep(r.Whole(), before, rest, results, term, entries);
      if InPlace(r.Whole(), before, rest) { InPlaceStep(r.Whole(), before, rest, results, term, entries); }
    }

    /** The request gets its index in the log. */
    method Place(id: Bytes, index: int, term: int)
      requires Valid() && id in entries
      modifies this`entries
      ensures Valid() && entries == old(entries)[id := old(entries)[id].(index := index, term := term)]
    {
      var t := entries[id].(index := index, term := term);
      Keep(id, t);
    }

    /** A request changes in a way its callers do not notice. */
    method Keep(id: Bytes, t: Tracked)
      requires Valid() && id in entries && t.waiting == entries[id].waiting
      requires t.op == entries[id].op && t.hash == entries[id].hash && Quiet(t)
      modifies this`entries
      ensures Valid() && entries == old(entries)[id := t]
    {
      KeepEntry(entries, answers, callers, id, t);
      assert HashFits(hash, t) by {
        assert Fits(hash, entries[id]);
        var v: Write :| v.op == entries[id].op && entries[id].hash == HashOf(hash, v);
        assert v.op == t.op && t.hash == HashOf(hash, v);
      }
      ConservedWith(hash, entries, answers, callers, id, t, answers, callers);
      entries := entries[id := t];
    }

    /** Everybody who waits for the request is answered, and it is forgotten. */
    method Release(id: Bytes, status: Status)
      requires Valid() && id in entries
      modifies this`entries, this`answers
      ensures Valid() && entries == old(entries) - {id} && Stand(old(answers), answers)
      ensures answers == AnswerAll(old(answers), old(entries[id].waiting), status)
    {
      assert forall c :: c in answers ==> !Waits(entries, id, c);
      AnswerEntry(entries, answers, callers, id, status, entries - {id});
      answers := AnswerAll(answers, entries[id].waiting, status);
      entries := entries - {id};
    }

    /** Everybody who waits for a committed write is answered; it stays until it is applied. */
    method Acknowledge(id: Bytes)
      requires Valid() && id in entries
      modifies this`entries, this`answers
      ensures Valid() && entries == old(entries)[id := old(entries[id]).(committed := true, waiting := {})]
      ensures answers == AnswerAll(old(answers), old(entries[id].waiting), Success)
    {
      var t := entries[id].(committed := true, waiting := {});
      AnswerEntry(entries, answers, callers, id, Success, entries[id := t]);
      assert HashFits(hash, t) by {
        assert Fits(hash, entries[id]);
        var v: Write :| v.op == entries[id].op && entries[id].hash == HashOf(hash, v);
        assert v.op == t.op && t.hash == HashOf(hash, v);
      }
      answers := AnswerAll(answers, entries[id].waiting, Success);
      ConservedWith(hash, entries, old(answers), callers, id, t, answers, callers);
      entries := entries[id := t];
    }

    /** A request found committed by its index: its callers are answered, unless the answer depends on
        the result. */
    method CommitEntry(id: Bytes, commit: int)
      requires Valid() && id in entries
      modifies this`entries, this`answers
      ensures Valid() && id in entries
      ensures var t := old(entries[id]);
              && entries == (if CommitsNow(t, commit)
                             then old(entries)[id := t.(committed := true,
                                                        waiting := if t.op == Cas then t.waiting else {})]
                             else old(entries))
              && answers == (if CommitsNow(t, commit) && t.op != Cas
                             then AnswerAll(old(answers), t.waiting, Success) else old(answers))
    {
      if CommitsNow(entries[id], commit) {
        if entries[id].op != Cas {
          Acknowledge(id);
        } else {
          Keep(id, entries[id].(committed := true));
        }
      }
    }

    /** What a pass does to one request: its callers hear of it once its index is committed, or applied
        if the answer depends on the result, and it is forgotten once applied. */
    method SettleEntry(id: Bytes, records: map<Bytes, Record>, commit: int, applied: int)
      requires Valid() && id in entries
      modifies this`entries, this`answers
      ensures Valid() && Settles(records, id, commit, applied, old(entries), old(answers), entries, answers)
    {
      CommitEntry(id, commit);
      var t := entries[id];
      if t.committed && 0 < t.index <= applied {
        if t.op == Cas {
          Release(id, ResultOf(records, id, t));
        } else {
          assert Fits(hash, t);
          Release(id, Success);
          assert AnswerAll(old(answers), {}, Success) == old(answers);
        }
      }
      assert old(entries)[id := t] - {id} == old(entries) - {id};
    }

    /** advance, for any log: who is told what.  When success by index is the truth is said in Reports. */
    method Advance(r: RequestLog, commit: int, applied: int, leader: bool)
      requires Valid()
      modifies this`entries, this`answers
      ensures Valid() && callers == old(callers) && Stand(old(answers), answers)
      ensures forall id, c :: Waits(old(entries), id, c) ==>
                match Verdict(r.records, id, old(entries)[id], commit, applied)
                case Some(status) => Told(answers, c, status)
                case None => if leader then Waits(entries, id, c) else Told(answers, c, NotLeader)
      ensures if leader
              then entries.Keys <= old(entries).Keys
                   && forall id :: id in old(entries) ==> Left(entries, id, Remains(old(entries)[id], commit, applied))
              else entries == map[]
      ensures applied <= commit ==> forall id, c :: Waits(old(entries), id, c) ==>
                Outcome(r.records, id, old(entries)[id], commit, applied, leader, c, entries, answers)
      ensures leader && applied <= commit && InPlace(r.Whole(), old(entries), []) ==>
                Justified(old(entries), old(answers), answers, r.records, r.Whole(), commit)
                && InPlace(r.Whole(), entries, [])
    {
      var left := entries.Keys;
      assert Passing(old(entries), old(answers), r.records, commit, applied, left, entries, answers);
      while left != {}
        invariant Valid() && callers == old(callers)
        invariant Passing(old(entries), old(answers), r.records, commit, applied, left, entries, answers)
        decreases left
      {
        var id :| id in left;
        ghost var before, now := entries, answers;
        SettleEntry(id, r.records, commit, applied);
        PassStep(old(entries), old(answers), callers, r.records, commit, applied, left, before, now, id, entries,
                 answers);
        left := left - {id};
      }
      if applied <= commit && InPlace(r.Whole(), old(entries), []) {
        PassJustified(old(entries), old(answers), callers, r.records, r.Whole(), commit, applied, entries, answers);
      }
      PassEnds(old(entries), old(answers), callers, r.records, commit, applied, entries, answers);
      if !leader {
        FailAll(NotLeader);
      }
      VerdictsMean(hash, old(entries), r.records, commit, applied, leader, entries, answers);
    }

    method FailAll(status: Status)
      requires Valid()
      modifies this`entries, this`answers
      ensures Valid() && entries == map[] && callers == old(callers) == answers.Keys && Stand(old(answers), answers)
      ensures forall id, c :: Waits(old(entries), id, c) ==> Told(answers, c, status)
    {
      while entries != map[]
        invariant Valid() && callers == old(callers) && Stand(old(answers), answers)
        invariant Failing(old(entries), entries, answers, status)
        decreases entries.Keys
      {
        var id :| id in entries;
        ghost var before, now := entries, answers;
        Release(id, status);
        FailStep(old(entries), before, now, id, status);
      }
      assert forall c :: c in callers ==> c in answers;
    }
  }

  /** What becomes of a caller: told as soon as the request's index is committed, or for a compare-and-set applied,
      and told the truth of its record; otherwise left waiting by a leader and turned away by anybody else. */
  ghost predicate Outcome(records: map<Bytes, Record>, id: Bytes, t: Tracked, commit: int, applied: int, leader: bool,
                          c: int, entries: Entries, answers: map<int, Status>) {
    if 0 < t.index <= (if t.op == Cas then applied else commit) then
      && c in answers && (t.op != Cas ==> answers[c] == Success)
      && (t.op == Cas && id in records && records[id].hash == t.hash ==> answers[c] == records[id].status)
    else if leader then Waits(entries, id, c)
    else Told(answers, c, NotLeader)
  }

  lemma VerdictsMean(h: Hash, start: Entries, records: map<Bytes, Record>, commit: int, applied: int, leader: bool,
                     entries: Entries, answers: map<int, Status>)
    requires forall id :: id in start ==> Fits(h, start[id])
    requires forall id, c :: Waits(start, id, c) ==>
               match Verdict(records, id, start[id], commit, applied)
               case Some(status) => Told(answers, c, status)
               case None => if leader then Waits(entries, id, c) else Told(answers, c, NotLeader)
    ensures applied <= commit ==> forall id, c :: Waits(start, id, c) ==>
              Outcome(records, id, start[id], commit, applied, leader, c, entries, answers)
  {
    if applied <= commit {
      forall id, c | Waits(start, id, c)
        ensures Outcome(records, id, start[id], commit, applied, leader, c, entries, answers)
      {
        assert Fits(h, start[id]);
      }
    }
  }

  /** At the end of a pass those who were not told anything still wait for the same request. */
  lemma PassEnds(start: Entries, answers: map<int, Status>, callers: set<int>, records: map<Bytes, Record>, commit: int,
                 applied: int, entries': Entries, answers': map<int, Status>)
    requires Accounted(start, answers, callers) && Accounted(entries', answers', callers)
    requires Passing(start, answers, records, commit, applied, {}, entries', answers')
    ensures forall id, c :: Waits(start, id, c) && Verdict(records, id, start[id], commit, applied).None? ==>
              Waits(entries', id, c)
  {
    forall id, c | Waits(start, id, c) && Verdict(records, id, start[id], commit, applied).None?
      ensures Waits(entries', id, c)
    {
      assert Heard(records, id, start[id], commit, applied, c, answers');
      var i :| Waits(entries', i, c);
      assert Left(entries', i, Remains(start[i], commit, applied));
      assert Waits(start, i, c);
    }
  }

  ghost predicate Failing(start: Entries, entries: Entries, answers: map<int, Status>, status: Status) {
    forall id, c :: Waits(start, id, c) ==> Waits(entries, id, c) || Told(answers, c, status)
  }

  lemma FailStep(start: Entries, entries: Entries, answers: map<int, Status>, id: Bytes, status: Status)
    requires Failing(start, entries, answers, status) && id in entries
    ensures Failing(start, entries - {id}, AnswerAll(answers, entries[id].waiting, status), status)
  {
    forall i, c | Waits(start, i, c)
      ensures Waits(entries - {id}, i, c) || Told(AnswerAll(answers, entries[id].waiting, status), c, status)
    {
      assert Waits(entries, i, c) || Told(answers, c, status);
    }
  }

  /** The callers of the first n calls. */
  ghost function CallersOf(calls: seq<Call>, n: nat): set<int>
    requires n <= |calls|
  {
    set k | 0 <= k < n :: calls[k].caller
  }

  lemma NextCaller(calls: seq<Call>, callers: set<int>, before: set<int>, n: nat)
    requires n < |calls| && FreshCallers(calls, before) && callers == before + CallersOf(calls, n)
    ensures calls[n].caller !in callers && callers + {calls[n].caller} == before + CallersOf(calls, n + 1)
  {
    assert CallersOf(calls, n + 1) == CallersOf(calls, n) + {calls[n].caller};
  }

  ghost predicate FreshCallers(calls: seq<Call>, callers: set<int>) {
    && (forall k :: 0 <= k < |calls| ==> calls[k].caller !in callers)
    && (forall j, k :: 0 <= j < k < |calls| ==> calls[j].caller != calls[k].caller)
  }

  /** A write whose id nobody has seen. */
  ghost predicate IsNewCall(call: Call, records: map<Bytes, Record>, entries: Entries, log: Log) {
    && call.write.Some? && call.write.value.requestId != [] && IsKvWrite(call.write.value.op)
    && call.write.value.requestId !in records && call.write.value.requestId !in entries
    && Absent(log, call.write.value.requestId)
  }

  /** The first call of a batch for an id that nobody has seen. */
  ghost predicate IsFirst(calls: seq<Call>, k: int, records: map<Bytes, Record>, entries: Entries, log: Log)
    requires 0 <= k < |calls|
  {
    && IsNewCall(calls[k], records, entries, log)
    && forall j :: 0 <= j < k ==> !IsFor(calls[j], calls[k].write.value.requestId)
  }

  ghost predicate IsFor(call: Call, id: Bytes) { call.write.Some? && call.write.value.requestId == id }

  /** The caller waits for its own write. */
  ghost predicate IsAwaited(h: Hash, call: Call, entries: Entries) {
    && call.write.Some?
    && var w := call.write.value;
       && Waits(entries, w.requestId, call.caller)
       && entries[w.requestId].op == w.op && entries[w.requestId].hash == HashOf(h, w)
  }

  /** The same requests as before, some with more callers, and perhaps the one of this call. */
  ghost predicate Widened(call: Call, entries: Entries, entries': Entries) {
    && (forall id :: id in entries ==> id in entries' && HasJoined(entries[id], entries'[id]))
    && (forall id :: id in entries' ==> id in entries || IsFor(call, id))
  }

  ghost predicate HasJoined(t: Tracked, t': Tracked) {
    t' == t.(waiting := t'.waiting) && t.waiting <= t'.waiting
  }

  lemma JoinWidens(call: Call, entries: Entries, id: Bytes, t: Tracked)
    requires IsFor(call, id) && (id in entries ==> HasJoined(entries[id], t))
    ensures Widened(call, entries, entries[id := t])
  {
  }

  lemma SameWidens(call: Call, entries: Entries)
    ensures Widened(call, entries, entries)
  {
  }

  /** Requests that were not tracked before come from the first k calls. */
  ghost predicate OnlyFrom(calls: seq<Call>, k: int, start: Entries, entries: Entries)
    requires 0 <= k <= |calls|
  {
    forall id :: id in entries ==> id in start || exists j :: 0 <= j < k && IsFor(calls[j], id)
  }

  /** Whoever proposes this id proposes this write. */
  ghost predicate OnlyAs(added: seq<Write>, w: Write) {
    forall m :: 0 <= m < |added| && added[m].requestId == w.requestId ==> added[m] == w
  }

  ghost predicate OnlyKv(added: seq<Write>, id: Bytes) {
    forall m :: 0 <= m < |added| && added[m].requestId == id ==> IsKvWrite(added[m].op)
  }

  /** The new writes among the first k calls are tracked with their callers and left to be proposed. */
  ghost predicate Awaited(h: Hash, calls: seq<Call>, k: int, records: map<Bytes, Record>, start: Entries, log: Log,
                          entries: Entries, added: seq<Write>)
    requires 0 <= k <= |calls|
  {
    forall j :: 0 <= j < k && IsFirst(calls, j, records, start, log) ==>
      IsAwaited(h, calls[j], entries) && OnlyAs(added, calls[j].write.value)
  }

  lemma AwaitedStep(h: Hash, calls: seq<Call>, k: int, records: map<Bytes, Record>, start: Entries, log: Log,
                    entries: Entries, added: seq<Write>, entries': Entries, added': seq<Write>)
    requires 0 <= k < |calls| && OnlyFrom(calls, k, start, entries) && Pending(log, entries, added)
    requires Awaited(h, calls, k, records, start, log, entries, added) && Widened(calls[k], entries, entries')
    requires added' == added || (calls[k].write.Some? && added' == added + [calls[k].write.value]
                                 && calls[k].write.value.requestId !in entries)
    requires IsNewCall(calls[k], records, entries, log) ==>
               IsAwaited(h, calls[k], entries') && added' == added + [calls[k].write.value]
    ensures OnlyFrom(calls, k + 1, start, entries')
    ensures Awaited(h, calls, k + 1, records, start, log, entries', added')
  {
    forall id | id in entries' ensures id in start || exists j :: 0 <= j < k + 1 && IsFor(calls[j], id) {
      if id in entries && id !in start {
        var j :| 0 <= j < k && IsFor(calls[j], id);
      }
    }
    forall j | 0 <= j < k + 1 && IsFirst(calls, j, records, start, log)
      ensures IsAwaited(h, calls[j], entries') && OnlyAs(added', calls[j].write.value)
    {
      if j == k {
        assert calls[k].write.value.requestId !in entries;
        forall m | 0 <= m < |added| ensures added[m].requestId != calls[k].write.value.requestId {
          assert IsNew(log, entries, added[m]);
        }
      } else {
        assert IsAwaited(h, calls[j], entries) && OnlyAs(added, calls[j].write.value);
      }
    }
  }

  ghost predicate AbsentAll(log: Log, ws: seq<Write>) {
    forall k :: 0 <= k < |ws| ==> Absent(log, ws[k].requestId)
  }

  ghost predicate Proposed(log: Log, w: Write, result: (Status, int), term: int) {
    result.0 == Success ==> 0 < result.1 <= |log| && Holds(log[result.1 - 1], w, result.1, term) && IsKvWrite(w.op)
  }

  /** propose_batch. */
  method ProposeBatch(r: RequestLog, ws: seq<Write>, term: int) returns (results: seq<(Status, int)>)
    requires r.Valid() && DistinctWrites(ws) && AbsentAll(r.Whole(), ws)
    modifies r.store
    ensures r.Valid() && old(r.Whole()) <= r.Whole() && |results| == |ws| && |r.Whole()| <= old(|r.Whole()|) + |ws|
    ensures forall k :: 0 <= k < |ws| ==> Proposed(r.Whole(), ws[k], results[k], term)
    ensures forall k :: 0 <= k < |ws| && r.writable && IsKvWrite(ws[k].op) ==> results[k].0 == Success
  {
    results := [];
    for k := 0 to |ws|
      invariant r.Valid() && old(r.Whole()) <= r.Whole() && |results| == k && |r.Whole()| <= old(|r.Whole()|) + k
      invariant forall j :: 0 <= j < k ==> Proposed(r.Whole(), ws[j], results[j], term)
      invariant forall j :: 0 <= j < k && r.writable && IsKvWrite(ws[j].op) ==> results[j].0 == Success
      invariant forall j :: k <= j < |ws| ==> Absent(r.Whole(), ws[j].requestId)
    {
      ghost var before := r.Whole();
      var status, index := r.Propose(ws[k], term);
      results := results + [(status, index)];
    }
  }

  /** Results are being taken over one by one; what is left are new requests. */
  ghost predicate Settling(log: Log, entries: Entries, rest: seq<Write>, results: seq<(Status, int)>, term: int) {
    && |rest| == |results| && DistinctWrites(rest)
    && (forall k :: 0 <= k < |rest| ==> Underway(log, entries, rest[k], results[k], term))
  }

  ghost predicate Underway(log: Log, entries: Entries, w: Write, result: (Status, int), term: int) {
    && w.requestId != [] && w.requestId in entries && !entries[w.requestId].committed
    && Proposed(log, w, result, term)
  }

  lemma SettlingStarts(log: Log, log': Log, entries: Entries, added: seq<Write>, results: seq<(Status, int)>, term: int)
    requires Pending(log, entries, added) && log <= log' && |results| == |added|
    requires forall k :: 0 <= k < |added| ==> Proposed(log', added[k], results[k], term)
    ensures Settling(log', entries, added, results, term)
    ensures InPlace(log, entries, added) ==> InPlace(log', entries, added)
  {
    forall k | 0 <= k < |added| ensures Underway(log', entries, added[k], results[k], term) {
      assert IsNew(log, entries, added[k]);
    }
    if InPlace(log, entries, added) {
      forall id | id in entries ensures Stays(log', id, entries[id]) || Among(added, id) {
        assert Stays(log, id, entries[id]) || Among(added, id);
      }
    }
  }

  ghost predicate KeepsPlaced(added: seq<Write>, results: seq<(Status, int)>, entries: Entries, entries': Entries)
    requires |added| == |results|
  {
    forall id :: id in entries && GotIn(added, results, id) ==> id in entries' && Placed(entries[id], entries'[id])
  }

  lemma KeepsStep(added: seq<Write>, results: seq<(Status, int)>, term: int, k: int, start: Entries, entries: Entries,
                  entries': Entries)
    requires |added| == |results| && 0 <= k < |added| && added[k].requestId in entries
    requires KeepsPlaced(added, results, start, entries)
    requires var id := added[k].requestId;
             entries' == if results[k].0 == Success
                         then entries[id := entries[id].(index := results[k].1, term := term)]
                         else entries - {id}
    ensures KeepsPlaced(added, results, start, entries')
  {
  }

  ghost predicate Took(entries: Entries, w: Write, result: (Status, int), term: int, entries': Entries) {
    var id := w.requestId;
    id in entries && (|| entries' == entries - {id}
                      || (result.0 == Success
                          && entries' == entries[id := entries[id].(index := result.1, term := term)]))
  }

  lemma SettleStep(log: Log, entries: Entries, rest: seq<Write>, results: seq<(Status, int)>, term: int,
                   entries': Entries)
    requires Settling(log, entries, rest, results, term) && rest != []
    requires Took(entries, rest[0], results[0], term, entries')
    ensures Settling(log, entries', rest[1..], results[1..], term)
  {
    forall k | 0 <= k < |rest[1..]| ensures Underway(log, entries', rest[1..][k], results[1..][k], term) {
      assert Underway(log, entries, rest[k + 1], results[k + 1], term);
      assert rest[0].requestId != rest[k + 1].requestId;
    }
  }

  lemma InPlaceStep(log: Log, entries: Entries, rest: seq<Write>, results: seq<(Status, int)>, term: int,
                    entries': Entries)
    requires Settling(log, entries, rest, results, term) && rest != []
    requires Took(entries, rest[0], results[0], term, entries') && InPlace(log, entries, rest)
    ensures InPlace(log, entries', rest[1..])
  {
    var id := rest[0].requestId;
    assert Underway(log, entries, rest[0], results[0], term);
    forall i | i in entries' ensures Stays(log, i, entries'[i]) || Among(rest[1..], i) {
      assert Stays(log, i, entries[i]) || Among(rest, i);
      if i != id && !Stays(log, i, entries'[i]) {
        var k :| 0 <= k < |rest| && rest[k].requestId == i;
        assert rest[1..][k - 1].requestId == i;
      }
    }
  }

  lemma KeepEntry(entries: Entries, answers: map<int, Status>, callers: set<int>, id: Bytes, t: Tracked)
    requires Accounted(entries, answers, callers) && id in entries && t.waiting == entries[id].waiting
    ensures Accounted(entries[id := t], answers, callers)
  {
    var entries' := entries[id := t];
    forall i, c ensures Waits(entries', i, c) <==> Waits(entries, i, c) {}
    forall c | c in callers && c !in answers ensures exists i :: Waits(entries', i, c) {
      var i :| Waits(entries, i, c);
      assert Waits(entries', i, c);
    }
  }

  // ---------------------------------------------------------------- a lost write that is reported committed

  /** Another leader's record in place of the first one. */
  function Replacement(e: LogEntry): LogEntry { e.(term := e.term + 1, requestId := [2]) }

  lemma Overwrites(e: LogEntry, t: int)
    requires e.index == 1
    ensures var v := L.View([e], 0, t);
            L.WellFormed(v) && L.InMemory(v, L.Merge(v, [Replacement(e)])) == L.View([Replacement(e)], 0, t)
  {
    var v, m, e' := L.View([e], 0, t), L.Merging([e], [], false), Replacement(e);
    assert [e][..0] + [e'] == [e'] && [] + [e'] == [e'];
    var n := L.MergeOne(v, m, e').value;
    assert n == L.Merging([e'], [e'], true);
    assert L.MergeAll(v, m, [e']) == Some(n) by { assert [e'][0] == e' && [e'][1..] == []; }
  }

  const LOST := Call(7, Some(Write(Put, [], [], [], [1])))

  /** A leader with an empty log proposes one write. */
  method ProposeFirst(hash: Hash) returns (tracker: ProposalTracker, r: RequestLog)
    requires TellsOpsApart(hash)
    ensures fresh(tracker) && fresh(r) && fresh(r.store)
    ensures tracker.Valid() && r.Valid() && r.covered == [] && |r.store.entries| == 1
    ensures IsAwaited(tracker.hash, LOST, tracker.entries) && Stays(r.Whole(), [1], tracker.entries[[1]])
  {
    var store := new LogStore();
    r := new RequestLog(store, true);
    tracker := new ProposalTracker(hash);
    assert IsFirst([LOST], 0, r.records, tracker.entries, r.Whole());
    tracker.SubmitBatch([LOST], r, 1, true);
    assert Stays(r.Whole(), [1], tracker.entries[[1]]);
  }

  /** Another leader's record replaces it. */
  method Overwrite(r: RequestLog)
    requires r.Valid() && r.covered == [] && |r.store.entries| == 1
    modifies r.store
    ensures r.Valid() && |r.Whole()| == 1 && Absent(r.Whole(), [1])
  {
    var e := r.store.entries[0];
    assert r.store.entries == [e] && r.Whole() == [e];
    Overwrites(e, r.store.snapTerm);
    var result := r.store.AppendEntriesFromLeader([Replacement(e)]);
  }

  /** A leader proposes a write; another leader's message replaces the record and brings its commit index
      in the same dispatch; the pass that follows tells the caller that the write has succeeded. */
  method LostWriteIsReported(hash: Hash) returns (tracker: ProposalTracker, r: RequestLog)
    requires TellsOpsApart(hash)
    ensures tracker.Valid() && r.Valid() && |r.Whole()| == 1
    ensures Told(tracker.answers, LOST.caller, Success) && !CommittedId(r.Whole(), LOST.write.value.requestId, 1)
  {
    tracker, r := ProposeFirst(hash);
    assert Waits(tracker.entries, [1], 7);
    Overwrite(r);
    tracker.Advance(r, 1, 0, false);
  }
}
