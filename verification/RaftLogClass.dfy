/** The log object of a replica, updated in place together with its index of request ids
    (src/storage/raft/raft_log.cpp). */
module RaftLogClass {
  import opened Types
  import opened RaftLog
  import Replica

  // ---------------------------------------------------------------- looking a request up by scanning

  predicate IsRequest(e: LogEntry, id: Bytes) {
    id != [] && e.requestId == id && IsKvWrite(e.op)
  }

  /** The first key-value write with this request id, found by scanning the records in order. */
  function FirstRequest(es: Log, id: Bytes): Option<LogEntry> {
    if es == [] then None
    else if IsRequest(es[0], id) then Some(es[0])
    else FirstRequest(es[1..], id)
  }

  lemma {:induction false} FirstRequestAppend(es: Log, e: LogEntry, id: Bytes)
    ensures FirstRequest(es + [e], id) ==
            if FirstRequest(es, id).Some? then FirstRequest(es, id) else if IsRequest(e, id) then Some(e) else None
    decreases |es|
  {
    if es == [] {
      assert es + [e] == [e];
    } else {
      assert (es + [e])[1..] == es[1..] + [e];
      FirstRequestAppend(es[1..], e, id);
    }
  }

  /** The scan returns a record of the log that carries the id, and none before it does. */
  lemma {:induction false} FirstRequestIsFirst(es: Log, id: Bytes)
    ensures match FirstRequest(es, id)
            case None => forall k :: 0 <= k < |es| ==> !IsRequest(es[k], id)
            case Some(e) => exists k :: 0 <= k < |es| && es[k] == e && IsRequest(e, id)
                                        && forall j :: 0 <= j < k ==> !IsRequest(es[j], id)
    decreases |es|
  {
    if es != [] && !IsRequest(es[0], id) {
      FirstRequestIsFirst(es[1..], id);
      match FirstRequest(es[1..], id) {
        case None =>
          forall k | 0 <= k < |es| ensures !IsRequest(es[k], id) {
            if k > 0 { assert es[k] == es[1..][k - 1]; }
          }
        case Some(e) =>
          var k :| 0 <= k < |es[1..]| && es[1..][k] == e && IsRequest(e, id)
                   && forall j :: 0 <= j < k ==> !IsRequest(es[1..][j], id);
          assert es[k + 1] == e;
          forall j | 0 <= j < k + 1 ensures !IsRequest(es[j], id) {
            if j > 0 { assert es[j] == es[1..][j - 1]; }
          }
      }
    }
  }

  /** What the index map holds for one id. */
  ghost predicate IndexedAt(index: map<Bytes, int>, es: Log, id: Bytes) {
    var found := FirstRequest(es, id);
    if found.Some? then id in index && index[id] == found.value.index else id !in index
  }

  ghost predicate Indexes(index: map<Bytes, int>, es: Log) {
    forall id :: IndexedAt(index, es, id)
  }

  /** index_request_id: the first occurrence of an id wins. */
  function IndexEntry(index: map<Bytes, int>, e: LogEntry): map<Bytes, int> {
    if e.requestId == [] || !IsKvWrite(e.op) || e.requestId in index then index else index[e.requestId := e.index]
  }

  lemma IndexEntryKeeps(index: map<Bytes, int>, es: Log, e: LogEntry)
    requires Indexes(index, es)
    ensures Indexes(IndexEntry(index, e), es + [e])
  {
    forall id ensures IndexedAt(IndexEntry(index, e), es + [e], id) {
      assert IndexedAt(index, es, id) && IndexedAt(index, es, e.requestId);
      FirstRequestAppend(es, e, id);
    }
  }

  lemma EntryWithIndex(l: View, id: Bytes)
    requires WellFormed(l) && FirstRequest(l.entries, id).Some?
    ensures EntryAt(l, FirstRequest(l.entries, id).value.index) == FirstRequest(l.entries, id)
  {
    FirstRequestIsFirst(l.entries, id);
  }

  // ---------------------------------------------------------------- the object

  class LogStore {
    var entries: Log
    var requestIndex: map<Bytes, int>
    var snapIndex: int
    var snapTerm: int

    function Window(): View
      reads this
    {
      View(entries, snapIndex, snapTerm)
    }

    /** The window is contiguous and the index equals what scanning the window would find. */
    ghost predicate Valid()
      reads this
    {
      WellFormed(Window()) && Indexes(requestIndex, entries)
    }

    constructor ()
      ensures Valid() && Window() == View([], 0, 0)
    {
      entries, requestIndex, snapIndex, snapTerm := [], map[], 0, 0;
      new;
      forall id ensures IndexedAt(requestIndex, entries, id) {}
    }

    method RebuildRequestIndex()
      modifies this`requestIndex
      ensures Indexes(requestIndex, entries)
    {
      requestIndex := map[];
      forall id ensures IndexedAt(requestIndex, entries[..0], id) {}
      for k := 0 to |entries|
        invariant Indexes(requestIndex, entries[..k])
      {
        assert entries[..k + 1] == entries[..k] + [entries[k]];
        IndexEntryKeeps(requestIndex, entries[..k], entries[k]);
        requestIndex := IndexEntry(requestIndex, entries[k]);
      }
      assert entries[..|entries|] == entries;
    }

    /** Looking up the index gives what a linear scan of the log would give. */
    method FindRequest(id: Bytes) returns (found: Option<LogEntry>)
      requires Valid()
      ensures found == FirstRequest(entries, id)
    {
      assert IndexedAt(requestIndex, entries, id);
      if id == [] {
        FirstRequestIsFirst(entries, id);
        found := None;
      } else if id in requestIndex {
        EntryWithIndex(Window(), id);
        found := EntryAt(Window(), requestIndex[id]);
      } else {
        found := None;
      }
    }

    /** The record keeps its payload and gets the next index and the given term. */
    method AppendNewEntry(term: int, payload: LogEntry) returns (index: int)
      requires Valid()
      modifies this
      ensures Valid() && index == old(LastIndex(Window())) + 1
      ensures Window() == old(Window()).(entries := old(entries) + [payload.(term := term, index := index)])
    {
      index := LastIndex(Window()) + 1;
      var e := payload.(term := term, index := index);
      IndexEntryKeeps(requestIndex, entries, e);
      requestIndex := IndexEntry(requestIndex, e);
      entries := entries + [e];
    }

    /** The merge loop computes Merge; a gap changes nothing. */
    method AppendEntriesFromLeader(es: Log) returns (result: MergeResult)
      requires Valid()
      modifies this
      ensures Valid() && result == old(Merge(Window(), es))
      ensures Window() == InMemory(old(Window()), result)
    {
      var l := Window();
      ghost var start := Merging(entries, [], false);
      var m := Merging(entries, [], false);
      var k := 0;
      while k < |es|
        invariant 0 <= k <= |es| && Window() == l && Valid() && requestIndex == old(requestIndex)
        invariant Coherent(l, m)
        invariant MergeAll(l, start, es) == MergeAll(l, m, es[k..])
      {
        assert es[k..][0] == es[k] && es[k..][1..] == es[k + 1..];
        var e := es[k];
        var u := l.(entries := m.updated);
        if e.index <= l.snapIndex {
        } else if e.index <= LastIndex(u) {
          if TermAt(u, e.index) != e.term {
            m := Merging(m.updated[..e.index - l.snapIndex - 1] + [e], m.added + [e], true);
          }
        } else if e.index == LastIndex(u) + 1 {
          m := m.(updated := m.updated + [e], added := m.added + [e]);
        } else {
          return Gap;
        }
        k := k + 1;
      }
      assert es[k..] == [];
      if m.added == [] {
        return Merged(l, [], None);
      }
      entries := m.updated;
      RebuildRequestIndex();
      result := if m.rewrite then Merged(l.(entries := m.updated), [], Some(m.updated))
                else Merged(l.(entries := m.updated), m.added, None);
    }

    /** Compaction at an index inside the log; refused otherwise, and then nothing changes. */
    method Truncate(index: int) returns (ok: bool)
      requires Valid()
      modifies this
      ensures Valid() && (ok <==> old(snapIndex) < index <= old(LastIndex(Window())))
      ensures Window() == if ok then old(Compacted(Window(), index)) else old(Window())
    {
      if index <= snapIndex || index > LastIndex(Window()) {
        return false;
      }
      var term := TermAt(Window(), index);
      entries := entries[index - snapIndex..];
      snapIndex, snapTerm := index, term;
      RebuildRequestIndex();
      ok := true;
    }

    /** A received or local snapshot; the records retained are those on disk afterwards. */
    method InstallSnapshot(index: int, term: int) returns (retained: Log)
      requires Valid() && 0 <= index
      modifies this
      ensures Valid() && Window() == old(Replica.Installed(Window(), index, term)) && retained == entries
    {
      var l := Window();
      var keep := index - snapIndex;
      retained := [];
      if index < LastIndex(l) && TermAt(l, index) == term && 0 <= keep <= |entries| {
        retained := entries[keep..];
      }
      snapIndex, snapTerm, entries := index, term, retained;
      RebuildRequestIndex();
    }

    /** Reloading recovered records, which recovery guarantees to follow the snapshot. */
    method UpdateEntries(es: Log)
      requires Valid() && Contiguous(es, snapIndex)
      modifies this
      ensures Valid() && Window() == old(Window()).(entries := es)
    {
      entries := es;
      RebuildRequestIndex();
    }
  }

  // ---------------------------------------------------------------- compaction

  function Compacted(l: View, index: int): View
    requires l.snapIndex < index <= LastIndex(l) && WellFormed(l)
  {
    View(l.entries[index - l.snapIndex..], index, TermAt(l, index))
  }

  /** Compaction moves the window but changes no answer at or above the new snapshot index. */
  lemma CompactionKeepsTerms(l: View, index: int, n: int)
    requires WellFormed(l) && l.snapIndex < index <= LastIndex(l) && index <= n
    ensures TermAt(Compacted(l, index), n) == TermAt(l, n)
    ensures n > index ==> EntryAt(Compacted(l, index), n) == EntryAt(l, n)
    ensures WellFormed(Compacted(l, index)) && LastIndex(Compacted(l, index)) == LastIndex(l)
    ensures LastTerm(Compacted(l, index)) == LastTerm(l)
  {
  }
}
