/** The replica's log: a window of records above a snapshot (src/storage/raft/raft_log.cpp).

    `View` is the value of a log; the functions on it say what each operation computes.  The class
    LogStore of module RaftLogClass performs the operations in place. */
module RaftLog {
  import opened Types

  datatype View = View(entries: Log, snapIndex: int, snapTerm: int)

  /** Record i of the window has index snapIndex + 1 + i. */
  ghost predicate Contiguous(entries: Log, snapIndex: int) {
    forall i :: 0 <= i < |entries| ==> entries[i].index == snapIndex + 1 + i
  }

  ghost predicate WellFormed(l: View) {
    0 <= l.snapIndex && Contiguous(l.entries, l.snapIndex)
  }

  function LastIndex(l: View): int {
    if l.entries == [] then l.snapIndex else l.entries[|l.entries| - 1].index
  }

  function LastTerm(l: View): int {
    if l.entries == [] then l.snapTerm else l.entries[|l.entries| - 1].term
  }

  function TermAt(l: View, index: int): int {
    if index == 0 then 0
    else if index == l.snapIndex then l.snapTerm
    else if index < l.snapIndex then 0
    else
      var offset := index - l.snapIndex - 1;
      if offset >= |l.entries| then 0 else l.entries[offset].term
  }

  function EntryAt(l: View, index: int): Option<LogEntry> {
    var offset := index - l.snapIndex - 1;
    if 0 <= offset < |l.entries| then Some(l.entries[offset]) else None
  }

  function EntriesFrom(l: View, index: int, maxCount: int): Log {
    var offset := index - l.snapIndex - 1;
    if maxCount <= 0 || index > LastIndex(l) || offset < 0 || offset >= |l.entries| then []
    else l.entries[offset..Min(offset + maxCount, |l.entries|)]
  }

  // ---------------------------------------------------------------- merging a leader's entries

  /** The merge loop's variables: the new window, the records to persist, and whether the
      write-ahead log has to be rewritten instead of appended to. */
  datatype Merging = Merging(updated: Log, added: Log, rewrite: bool)

  /** A window stays contiguous whatever the leader sends, and appending and rewriting are
      alternatives that both describe the step from the old window to the new one. */
  ghost predicate Coherent(l: View, m: Merging) {
    && Contiguous(m.updated, l.snapIndex)
    && (m.added == [] ==> m.updated == l.entries)
    && (!m.rewrite ==> m.updated == l.entries + m.added)
  }

  function MergeOne(l: View, m: Merging, e: LogEntry): (r: Option<Merging>)
    requires Coherent(l, m)
    ensures r.Some? ==> Coherent(l, r.value)
  {
    var u := l.(entries := m.updated);
    if e.index <= l.snapIndex then Some(m)
    else if e.index <= LastIndex(u) then
      if TermAt(u, e.index) == e.term then Some(m)
      else Some(Merging(m.updated[..e.index - l.snapIndex - 1] + [e], m.added + [e], true))
    else if e.index == LastIndex(u) + 1 then Some(m.(updated := m.updated + [e], added := m.added + [e]))
    else None
  }

  function MergeAll(l: View, m: Merging, es: Log): (r: Option<Merging>)
    requires Coherent(l, m)
    ensures r.Some? ==> Coherent(l, r.value)
    decreases |es|
  {
    if es == [] then Some(m)
    else
      var next := MergeOne(l, m, es[0]);
      if next.None? then None else MergeAll(l, next.value, es[1..])
  }

  /** What append_entries_from_leader leaves in memory and asks to be persisted. */
  datatype MergeResult = Gap | Merged(log: View, toAppend: Log, toRewrite: Option<Log>)

  function Merge(l: View, es: Log): MergeResult
    requires WellFormed(l)
  {
    match MergeAll(l, Merging(l.entries, [], false), es)
    case None => Gap
    case Some(m) =>
      if m.added == [] then Merged(l, [], None)
      else if m.rewrite then Merged(l.(entries := m.updated), [], Some(m.updated))
      else Merged(l.(entries := m.updated), m.added, None)
  }

  /** The log on disk after persist_effects has carried out a merge result: a rewrite replaces the
      file, an append extends it (src/storage/replica/raft_step.cpp). */
  function Persisted(disk: Log, r: MergeResult): Log {
    match r
    case Gap => disk
    case Merged(_, toAppend, toRewrite) => if toRewrite.Some? then toRewrite.value else disk + toAppend
  }

  function InMemory(l: View, r: MergeResult): View {
    if r.Gap? then l else r.log
  }

  /** Whatever the leader sends: the window stays contiguous, an append and a rewrite are never both
      requested, and a disk that mirrored memory mirrors it again afterwards. */
  lemma MergeMirrorsDisk(l: View, es: Log)
    requires WellFormed(l)
    ensures WellFormed(InMemory(l, Merge(l, es)))
    ensures InMemory(l, Merge(l, es)).snapIndex == l.snapIndex && InMemory(l, Merge(l, es)).snapTerm == l.snapTerm
    ensures Persisted(l.entries, Merge(l, es)) == InMemory(l, Merge(l, es)).entries
    ensures Merge(l, es).Merged? && Merge(l, es).toRewrite.Some? ==> Merge(l, es).toAppend == []
  {
  }

  // ---------------------------------------------------------------- merge of a slice of a matching log

  /** `full` is the whole history of a log whose older part is only in a snapshot. */
  ghost predicate Completes(full: Log, l: View) {
    && 0 <= l.snapIndex <= |full|
    && |l.entries| == |full| - l.snapIndex
    && (forall k :: 0 <= k < |l.entries| ==> l.entries[k] == full[l.snapIndex + k])
    && l.snapTerm == TermIn(full, l.snapIndex)
  }

  /** es is a run of led's records, starting after the first prev. */
  ghost predicate IsSlice(es: Log, led: Log, prev: int) {
    && 0 <= prev && prev + |es| <= |led|
    && forall k :: 0 <= k < |es| ==> es[k] == led[prev + k]
  }

  /** Log matching between a and b: equal terms at an index mean equal prefixes. */
  ghost predicate Matching(a: Log, b: Log) {
    forall k :: MatchingAt(a, b, k)
  }

  ghost predicate MatchingAt(a: Log, b: Log, k: int) {
    0 <= k < |a| && k < |b| && a[k].term == b[k].term ==> Agree(a, b, k + 1)
  }

  /** The merge loop has absorbed led[..k]: either nothing has changed because the log holds those
      records, or the window now ends with exactly those records. */
  ghost predicate Absorbed(l: View, full: Log, led: Log, m: Merging, k: int) {
    && Coherent(l, m)
    && if Agree(led, full, k) then m.updated == l.entries
       else
         && 0 <= l.snapIndex <= k <= |led| && |m.updated| == k - l.snapIndex
         && forall j :: 0 <= j < |m.updated| ==> m.updated[j] == led[j + l.snapIndex]
  }

  /** The log still holds everything absorbed so far and has a record at this index. */
  lemma AbsorbHeld(l: View, full: Log, led: Log, m: Merging, k: int)
    requires WellFormed(l) && Completes(full, l) && MatchingAt(full, led, k)
    requires l.snapIndex <= k < |led| && k < |full| && led[k].index == k + 1
    requires Coherent(l, m) && Agree(led, full, k) && m.updated == l.entries
    ensures MergeOne(l, m, led[k]).Some? && Absorbed(l, full, led, MergeOne(l, m, led[k]).value, k + 1)
  {
    assert m.updated[k - l.snapIndex] == full[k];
    if full[k].term != led[k].term {
      var u := m.updated[..k - l.snapIndex] + [led[k]];
      assert forall j :: 0 <= j < k - l.snapIndex ==> u[j] == full[l.snapIndex + j];
    }
  }

  /** The window ends just before this index. */
  lemma AbsorbNext(l: View, full: Log, led: Log, m: Merging, k: int)
    requires WellFormed(l) && Completes(full, l)
    requires l.snapIndex <= k < |led| && led[k].index == k + 1 && Absorbed(l, full, led, m, k)
    requires !Agree(led, full, k) || k == |full|
    ensures MergeOne(l, m, led[k]).Some? && Absorbed(l, full, led, MergeOne(l, m, led[k]).value, k + 1)
  {
    assert |m.updated| == k - l.snapIndex;
    assert LastIndex(l.(entries := m.updated)) == k;
    if Agree(led, full, k) {
      assert forall j :: 0 <= j < |m.updated| ==> m.updated[j] == full[l.snapIndex + j];
    }
  }

  lemma AbsorbOne(l: View, full: Log, led: Log, m: Merging, k: int)
    requires WellFormed(l) && Completes(full, l) && MatchingAt(full, led, k)
    requires 0 <= k < |led| && led[k].index == k + 1 && Absorbed(l, full, led, m, k)
    requires k < l.snapIndex ==> Agree(led, full, k + 1)
    ensures MergeOne(l, m, led[k]).Some? && Absorbed(l, full, led, MergeOne(l, m, led[k]).value, k + 1)
  {
    if k >= l.snapIndex {
      if Agree(led, full, k) && k < |full| {
        AbsorbHeld(l, full, led, m, k);
      } else {
        AbsorbNext(l, full, led, m, k);
      }
    }
  }

  lemma {:induction false} AbsorbAll(l: View, full: Log, led: Log, m: Merging, k: int, es: Log)
    requires WellFormed(l) && Completes(full, l) && Contiguous(led, 0) && Matching(full, led)
    requires IsSlice(es, led, k) && Absorbed(l, full, led, m, k)
    requires k < l.snapIndex ==> Agree(led, full, Min(k + |es|, l.snapIndex))
    ensures MergeAll(l, m, es).Some? && Absorbed(l, full, led, MergeAll(l, m, es).value, k + |es|)
    decreases |es|
  {
    if es != [] {
      assert es[0] == led[k] && MatchingAt(full, led, k) && led[k].index == k + 1;
      AbsorbOne(l, full, led, m, k);
      AbsorbAll(l, full, led, MergeOne(l, m, led[k]).value, k + 1, es[1..]);
    }
  }

  lemma AbsorbedCompletes(l: View, full: Log, led: Log, m: Merging, n: int)
    requires Completes(full, l) && 0 <= n <= |led| && Absorbed(l, full, led, m, n)
    requires l.snapIndex <= n ==> Agree(led, full, l.snapIndex)
    ensures Completes(Follow(full, led, n), l.(entries := m.updated))
  {
  }

  /** Leader merge preserves log matching: absorbing records prev+1..prev+|es| of a matching log whose
      first prev records are already held never reports a gap, loses nothing before the first conflict,
      keeps a longer tail that does not conflict, and otherwise ends with exactly the leader's records. */
  lemma MergeFollows(l: View, full: Log, led: Log, prev: int, es: Log)
    requires WellFormed(l) && Completes(full, l) && Contiguous(led, 0) && Matching(full, led)
    requires IsSlice(es, led, prev) && Agree(led, full, prev)
    requires Agree(led, full, Min(prev + |es|, l.snapIndex))
    ensures Merge(l, es).Merged?
    ensures Completes(Follow(full, led, prev + |es|), Merge(l, es).log)
    ensures Merge(l, es).log.snapIndex == l.snapIndex && WellFormed(Merge(l, es).log)
  {
    AbsorbAll(l, full, led, Merging(l.entries, [], false), prev, es);
    AbsorbedCompletes(l, full, led, MergeAll(l, Merging(l.entries, [], false), es).value, prev + |es|);
  }
}
