/** Applying committed records in batches (src/storage/raft/raft_apply.cpp and the drain loop of
    src/storage/replica/replica_loop.cpp). */
module Apply {
  import opened Types
  import opened RaftLog

  const BATCH_SIZE := 256

  // ---------------------------------------------------------------- what one batch contains

  function Size(e: LogEntry): nat { |e.key| + |e.value| }

  /** The last committed record the log holds. */
  function Reach(l: View, commit: int): int { Min(commit, LastIndex(l)) }

  /** The records with indices in (a, b]. */
  function Slice(l: View, a: int, b: int): Log {
    if l.snapIndex <= a <= b <= l.snapIndex + |l.entries| then l.entries[a - l.snapIndex..b - l.snapIndex] else []
  }

  predicate ConfigAt(l: View, n: int) {
    EntryAt(l, n).Some? && IsConfigChange(EntryAt(l, n).value.op)
  }

  /** Where the gap-free part of a batch ends early. */
  datatype Cut = NoCut | ByCount(at: int) | ByBytes(at: int)

  function FirstCut(l: View, i: int, c: int, kv: nat, bytes: nat, budget: nat, byteBudget: nat): Cut
    decreases c - i
  {
    if i > c then NoCut
    else
      var e := EntryAt(l, i);
      if e.None? || IsConfigChange(e.value.op) then FirstCut(l, i + 1, c, kv, bytes, budget, byteBudget)
      else if kv >= budget then ByCount(i)
      else if kv > 0 && byteBudget > 0 && bytes + Size(e.value) > byteBudget then ByBytes(i)
      else FirstCut(l, i + 1, c, kv + 1, bytes + Size(e.value), budget, byteBudget)
  }

  function ConfigsFrom(l: View, i: int, c: int): Log
    decreases c - i
  {
    if i > c || !ConfigAt(l, i) then [] else [EntryAt(l, i).value] + ConfigsFrom(l, i + 1, c)
  }

  function Batch(l: View, a: int, c: int, cut: Cut): Log {
    match cut
    case NoCut => Slice(l, a, Reach(l, c))
    case ByBytes(j) => Slice(l, a, j - 1)
    case ByCount(j) => Slice(l, a, j - 1) + ConfigsFrom(l, j + 1, c)
  }

  lemma {:induction false} CutInside(l: View, i: int, c: int, kv: nat, bytes: nat, budget: nat, byteBudget: nat)
    ensures var cut := FirstCut(l, i, c, kv, bytes, budget, byteBudget);
            !cut.NoCut? ==> i <= cut.at <= c && EntryAt(l, cut.at).Some? && !ConfigAt(l, cut.at)
    decreases c - i
  {
    if i <= c {
      var e := EntryAt(l, i);
      if e.None? || IsConfigChange(e.value.op) {
        CutInside(l, i + 1, c, kv, bytes, budget, byteBudget);
      } else {
        CutInside(l, i + 1, c, kv + 1, bytes + Size(e.value), budget, byteBudget);
      }
    }
  }

  lemma SliceStep(l: View, a: int, i: int)
    requires l.snapIndex <= a < i && EntryAt(l, i).Some?
    ensures Slice(l, a, i) == Slice(l, a, i - 1) + [EntryAt(l, i).value]
  {
  }

  /** Beyond the log's end there is nothing to extract. */
  lemma {:induction false} NothingBeyond(l: View, i: int, c: int, kv: nat, bytes: nat, budget: nat, byteBudget: nat)
    requires WellFormed(l) && LastIndex(l) < i
    ensures FirstCut(l, i, c, kv, bytes, budget, byteBudget).NoCut? && ConfigsFrom(l, i, c) == []
    decreases c - i
  {
    if i <= c { NothingBeyond(l, i + 1, c, kv, bytes, budget, byteBudget); }
  }

  /** The extraction loop at index i: before the cut it has collected everything so far, after it
      only config changes. */
  ghost predicate Building(l: View, a: int, c: int, cut: Cut, i: int, kv: nat, bytes: nat, budget: nat, byteBudget: nat,
                           exhausted: bool, entries: Log) {
    && a < i
    && if exhausted then cut.ByCount? && Batch(l, a, c, cut) == entries + ConfigsFrom(l, i, c)
       else cut == FirstCut(l, i, c, kv, bytes, budget, byteBudget) && entries == Slice(l, a, Min(i - 1, LastIndex(l)))
  }

  lemma BuildMissing(l: View, a: int, c: int, cut: Cut, i: int, kv: nat, bytes: nat, budget: nat, byteBudget: nat,
                     exhausted: bool, entries: Log)
    requires WellFormed(l) && l.snapIndex <= a && i <= c && EntryAt(l, i).None?
    requires Building(l, a, c, cut, i, kv, bytes, budget, byteBudget, exhausted, entries)
    ensures Building(l, a, c, cut, i + 1, kv, bytes, budget, byteBudget, exhausted, entries)
  {
    NothingBeyond(l, i + 1, c, kv, bytes, budget, byteBudget);
  }

  lemma Reassociate(a: Log, e: LogEntry, b: Log)
    ensures a + ([e] + b) == (a + [e]) + b
  {
  }

  lemma BuildConfig(l: View, a: int, c: int, cut: Cut, i: int, kv: nat, bytes: nat, budget: nat, byteBudget: nat,
                    exhausted: bool, entries: Log)
    requires WellFormed(l) && l.snapIndex <= a && i <= c && ConfigAt(l, i)
    requires Building(l, a, c, cut, i, kv, bytes, budget, byteBudget, exhausted, entries)
    ensures Building(l, a, c, cut, i + 1, kv, bytes, budget, byteBudget, exhausted, entries + [EntryAt(l, i).value])
  {
    if exhausted {
      Reassociate(entries, EntryAt(l, i).value, ConfigsFrom(l, i + 1, c));
    } else {
      SliceStep(l, a, i);
    }
  }

  lemma BuildWrite(l: View, a: int, c: int, cut: Cut, i: int, kv: nat, bytes: nat, budget: nat, byteBudget: nat,
                   entries: Log)
    requires WellFormed(l) && l.snapIndex <= a && i <= c && EntryAt(l, i).Some? && !ConfigAt(l, i)
    requires Building(l, a, c, cut, i, kv, bytes, budget, byteBudget, false, entries)
    ensures kv >= budget ==> Building(l, a, c, cut, i + 1, kv, bytes, budget, byteBudget, true, entries)
    ensures kv < budget ==>
              var e := EntryAt(l, i).value;
              if kv > 0 && byteBudget > 0 && bytes + Size(e) > byteBudget
              then cut.ByBytes? && Batch(l, a, c, cut) == entries
              else Building(l, a, c, cut, i + 1, kv + 1, bytes + Size(e), budget, byteBudget, false, entries + [e])
  {
    SliceStep(l, a, i);
  }

  lemma BuildEnd(l: View, a: int, c: int, cut: Cut, i: int, kv: nat, bytes: nat, budget: nat, byteBudget: nat,
                 exhausted: bool, entries: Log)
    requires WellFormed(l) && Building(l, a, c, cut, i, kv, bytes, budget, byteBudget, exhausted, entries)
    requires (i > c && (i == c + 1 || i == a + 1)) || (exhausted && EntryAt(l, i).Some? && !ConfigAt(l, i))
    ensures Batch(l, a, c, cut) == entries && (exhausted <==> !cut.NoCut?)
  {
    if exhausted { assert entries + [] == entries; }
  }

  /** RaftApply: how far the log is committed and applied. */
  class RaftApply {
    var commit: int
    var applied: int

    constructor ()
      ensures commit == 0 && applied == 0
    {
      commit, applied := 0, 0;
    }

    /** Monotone and bounded by the log, whatever the leader claims. */
    method AdvanceCommitFromLeader(l: View, leaderCommit: int)
      modifies this`commit
      ensures commit == if leaderCommit > old(commit) then Min(leaderCommit, LastIndex(l)) else old(commit)
      ensures old(commit) <= LastIndex(l) ==> old(commit) <= commit <= LastIndex(l)
    {
      if leaderCommit > commit {
        commit := Min(leaderCommit, LastIndex(l));
      }
    }

    method AdvanceLastApplied(n: int)
      modifies this`applied
      ensures applied == Max(n, old(applied))
    {
      if n > applied { applied := n; }
    }

    method InstallSnapshot(index: int)
      modifies this
      ensures commit == Max(old(commit), index) && applied == Max(old(applied), index)
    {
      if commit < index { commit := index; }
      if applied < index { applied := index; }
    }

    /** A record of this term is committed, in the snapshot or after it. */
    method HasCommittedCurrentTermEntry(l: View, term: int) returns (yes: bool)
      ensures yes <==> (0 < l.snapIndex <= commit && l.snapTerm == term)
                       || exists n :: l.snapIndex < n <= commit && TermAt(l, n) == term
    {
      if l.snapIndex > 0 && l.snapIndex <= commit && l.snapTerm == term {
        return true;
      }
      var n := commit;
      while n >= l.snapIndex + 1
        invariant forall k :: l.snapIndex < k <= commit && n < k ==> TermAt(l, k) != term
      {
        if TermAt(l, n) == term {
          return true;
        }
        n := n - 1;
      }
      yes := false;
    }

    /** One batch of committed records after the last applied one.  Config changes are free; the
        first key-value record over the entry budget is passed over, one over the byte budget ends
        the batch. */
    method ExtractCommittedEntries(l: View, budget: nat, byteBudget: nat) returns (entries: Log, hasMore: bool)
      requires WellFormed(l) && l.snapIndex <= applied
      ensures var cut := FirstCut(l, applied + 1, commit, 0, 0, budget, byteBudget);
              entries == Batch(l, applied, commit, cut) && (hasMore <==> !cut.NoCut?)
    {
      entries, hasMore := [], false;
      var kv: nat, bytes: nat, exhausted := 0, 0, false;
      ghost var cut := FirstCut(l, applied + 1, commit, 0, 0, budget, byteBudget);
      var i := applied + 1;
      while i <= commit
        invariant hasMore == exhausted && (i <= commit + 1 || i == applied + 1)
        invariant Building(l, applied, commit, cut, i, kv, bytes, budget, byteBudget, exhausted, entries)
      {
        var e := EntryAt(l, i);
        if e.None? {
          BuildMissing(l, applied, commit, cut, i, kv, bytes, budget, byteBudget, exhausted, entries);
        } else if IsConfigChange(e.value.op) {
          BuildConfig(l, applied, commit, cut, i, kv, bytes, budget, byteBudget, exhausted, entries);
          entries := entries + [e.value];
        } else if exhausted {
          hasMore := true;
          break;
        } else {
          BuildWrite(l, applied, commit, cut, i, kv, bytes, budget, byteBudget, entries);
          if kv >= budget {
            exhausted, hasMore := true, true;
          } else if kv > 0 && byteBudget > 0 && bytes + Size(e.value) > byteBudget {
            hasMore := true;
            return;
          } else {
            kv, bytes := kv + 1, bytes + Size(e.value);
            entries := entries + [e.value];
          }
        }
        i := i + 1;
      }
      BuildEnd(l, applied, commit, cut, i, kv, bytes, budget, byteBudget, exhausted, entries);
    }
  }

  // ---------------------------------------------------------------- one batch

  /** The committed record after the one that overflowed the entry budget changes the configuration. */
  predicate ConfigAfterOverflow(l: View, c: int, cut: Cut) {
    cut.ByCount? && cut.at + 1 <= c && ConfigAt(l, cut.at + 1)
  }

  lemma SliceAt(l: View, a: int, b: int, k: int)
    requires l.snapIndex <= a <= b <= l.snapIndex + |l.entries| && 0 <= k < b - a
    ensures |Slice(l, a, b)| == b - a && Slice(l, a, b)[k] == EntryAt(l, a + 1 + k).value
  {
  }

  /** A batch is the gap-free run after the last applied record if and only if no config change
      directly follows the record that overflowed the entry budget; `hasMore` is then exact. */
  lemma BatchIsRun(l: View, a: int, c: int, budget: nat, byteBudget: nat, cut: Cut)
    requires WellFormed(l) && l.snapIndex <= a <= c <= LastIndex(l)
    requires cut == FirstCut(l, a + 1, c, 0, 0, budget, byteBudget)
    ensures var b := Batch(l, a, c, cut);
            && (b == Slice(l, a, a + |b|) <==> !ConfigAfterOverflow(l, c, cut))
            && (b == Slice(l, a, a + |b|) ==> (!cut.NoCut? <==> a + |b| < c))
  {
    CutInside(l, a + 1, c, 0, 0, budget, byteBudget);
    RunOrGap(l, a, c, cut);
  }

  lemma RunOrGap(l: View, a: int, c: int, cut: Cut)
    requires WellFormed(l) && l.snapIndex <= a <= c <= LastIndex(l)
    requires !cut.NoCut? ==> a < cut.at <= c && !ConfigAt(l, cut.at)
    ensures var b := Batch(l, a, c, cut);
            && (b == Slice(l, a, a + |b|) <==> !ConfigAfterOverflow(l, c, cut))
            && (b == Slice(l, a, a + |b|) ==> (!cut.NoCut? <==> a + |b| < c))
  {
    var b := Batch(l, a, c, cut);
    if ConfigAfterOverflow(l, c, cut) {
      var k := cut.at - a - 1;
      assert b[k] == EntryAt(l, cut.at + 1).value;
      if a + |b| <= LastIndex(l) { SliceAt(l, a, a + |b|, k); }
    }
  }

  // ---------------------------------------------------------------- draining

  /** The number of records in (a, n] that are not config changes. */
  function Writes(l: View, a: int, n: int): nat
    decreases n - a
  {
    if n <= a then 0 else Writes(l, a, n - 1) + if EntryAt(l, n).Some? && !ConfigAt(l, n) then 1 else 0
  }

  lemma {:induction false} WritesSplit(l: View, a: int, b: int, n: int)
    requires a <= b <= n
    ensures Writes(l, a, n) == Writes(l, a, b) + Writes(l, b, n)
    decreases n - b
  {
    if b < n { WritesSplit(l, a, b, n - 1); }
  }

  /** With no byte budget a batch is cut at the write numbered budget + 1. */
  lemma {:induction false} CutCounts(l: View, i: int, c: int, kv: nat, bytes: nat, budget: nat)
    requires kv <= budget
    ensures var cut := FirstCut(l, i, c, kv, bytes, budget, 0);
            && !cut.ByBytes?
            && (cut.NoCut? ==> kv + Writes(l, i - 1, c) <= budget)
            && (cut.ByCount? ==> i <= cut.at <= c && EntryAt(l, cut.at).Some? && !ConfigAt(l, cut.at)
                                 && kv + Writes(l, i - 1, cut.at - 1) == budget)
    decreases c - i
  {
    if i <= c {
      var e := EntryAt(l, i);
      if e.None? || IsConfigChange(e.value.op) {
        CutCounts(l, i + 1, c, kv, bytes, budget);
        CountFrom(l, i, c, FirstCut(l, i + 1, c, kv, bytes, budget, 0));
      } else if kv < budget {
        CutCounts(l, i + 1, c, kv + 1, bytes + Size(e.value), budget);
        CountFrom(l, i, c, FirstCut(l, i + 1, c, kv + 1, bytes + Size(e.value), budget, 0));
      }
    }
  }

  lemma CountFrom(l: View, i: int, c: int, cut: Cut)
    requires i <= c && (cut.ByCount? ==> i < cut.at <= c)
    ensures Writes(l, i - 1, c) == Writes(l, i - 1, i) + Writes(l, i, c)
    ensures cut.ByCount? ==> Writes(l, i - 1, cut.at - 1) == Writes(l, i - 1, i) + Writes(l, i, cut.at - 1)
    ensures Writes(l, i - 1, i) == if EntryAt(l, i).Some? && !ConfigAt(l, i) then 1 else 0
  {
    WritesSplit(l, i - 1, i, c);
    if cut.ByCount? { WritesSplit(l, i - 1, i, cut.at - 1); }
    assert Writes(l, i - 1, i - 1) == 0;
  }

  /** The write at n starts a new batch and the record after it changes the configuration. */
  predicate SkipsAt(l: View, a: int, c: int, n: int) {
    && a < n < c && EntryAt(l, n).Some? && !ConfigAt(l, n) && ConfigAt(l, n + 1)
    && Writes(l, a, n - 1) > 0 && Writes(l, a, n - 1) % BATCH_SIZE == 0
  }

  ghost predicate CutAtWrite(l: View, a: int, c: int, cut: Cut) {
    && cut.ByCount? && a + 1 < cut.at <= c && EntryAt(l, cut.at).Some? && !ConfigAt(l, cut.at)
    && Writes(l, a, cut.at - 1) == BATCH_SIZE
  }

  lemma {:induction false} ConfigsEnd(l: View, i: int, c: int)
    requires WellFormed(l) && i <= c + 1
    ensures forall k :: 0 <= k < |ConfigsFrom(l, i, c)| ==> ConfigsFrom(l, i, c)[k].index == i + k
    ensures i + |ConfigsFrom(l, i, c)| <= c + 1
    decreases c - i
  {
    if i <= c && ConfigAt(l, i) { ConfigsEnd(l, i + 1, c); }
  }

  lemma AfterWrite(l: View, a: int, c: int, cut: Cut)
    requires WellFormed(l) && a < c && (cut.NoCut? || CutAtWrite(l, a, c, cut))
    ensures a < AfterCut(l, c, cut) <= c
  {
    if cut.ByCount? { ConfigsEnd(l, cut.at + 1, c); }
  }

  function NextCut(l: View, a: int, c: int): Cut { FirstCut(l, a + 1, c, 0, 0, BATCH_SIZE, 0) }

  lemma CutsAtWrite(l: View, a: int, c: int)
    requires a <= c
    ensures NextCut(l, a, c).NoCut? ==> Writes(l, a, c) <= BATCH_SIZE
    ensures !NextCut(l, a, c).NoCut? ==> CutAtWrite(l, a, c, NextCut(l, a, c))
  {
    CutCounts(l, a + 1, c, 0, 0, BATCH_SIZE);
    assert Writes(l, a, a) == 0;
  }

  /** The last index of a batch cut here. */
  function AfterCut(l: View, c: int, cut: Cut): int {
    match cut
    case NoCut => c
    case ByBytes(j) => j - 1
    case ByCount(j) => if j + 1 <= c && ConfigAt(l, j + 1) then j + |ConfigsFrom(l, j + 1, c)| else j - 1
  }

  function NextApplied(l: View, a: int, c: int): (n: int)
    requires WellFormed(l) && a < c
    ensures a < n <= c
  {
    CutsAtWrite(l, a, c);
    AfterWrite(l, a, c, NextCut(l, a, c));
    AfterCut(l, c, NextCut(l, a, c))
  }

  /** What draining the records in (a, c] hands to the state machine. */
  function Drained(l: View, a: int, c: int): Log
    requires WellFormed(l) && l.snapIndex <= a <= c <= LastIndex(l)
    decreases c - a
  {
    if a == c then [] else Batch(l, a, c, NextCut(l, a, c)) + Drained(l, NextApplied(l, a, c), c)
  }

  lemma SliceEnds(l: View, a: int, b: int)
    requires WellFormed(l) && l.snapIndex <= a < b <= LastIndex(l)
    ensures var s := Slice(l, a, b);
            s != [] && s[|s| - 1].index == b && forall k :: 0 <= k < |s| ==> s[k].index <= b
  {
  }

  lemma BatchEnds(l: View, a: int, c: int, cut: Cut)
    requires WellFormed(l) && l.snapIndex <= a < c <= LastIndex(l) && (cut.NoCut? || CutAtWrite(l, a, c, cut))
    ensures var b := Batch(l, a, c, cut);
            && b != [] && b[|b| - 1].index == AfterCut(l, c, cut)
            && forall k :: 0 <= k < |b| ==> b[k].index <= b[|b| - 1].index
  {
    if cut.NoCut? {
      SliceEnds(l, a, c);
    } else {
      SliceEnds(l, a, cut.at - 1);
      ConfigsEnd(l, cut.at + 1, c);
      GluedEnds(Slice(l, a, cut.at - 1), ConfigsFrom(l, cut.at + 1, c), cut.at);
    }
  }

  lemma GluedEnds(a: Log, b: Log, at: int)
    requires a != [] && a[|a| - 1].index == at - 1 && forall k :: 0 <= k < |a| ==> a[k].index <= at - 1
    requires forall k :: 0 <= k < |b| ==> b[k].index == at + 1 + k
    ensures var s := a + b;
            && s[|s| - 1].index == (if b == [] then at - 1 else at + |b|)
            && forall k :: 0 <= k < |s| ==> s[k].index <= s[|s| - 1].index
  {
  }

  // ---------------------------------------------------------------- what draining applies

  /** Nothing between two batches of writes, so where a later batch skips a write does not depend on
      where the count started. */
  lemma SkipsLater(l: View, a: int, j: int, c: int, n: int)
    requires a < j <= n && Writes(l, a, j - 1) == BATCH_SIZE && EntryAt(l, j).Some? && !ConfigAt(l, j)
    requires j + 1 <= c ==> !ConfigAt(l, j + 1)
    ensures SkipsAt(l, a, c, n) <==> SkipsAt(l, j - 1, c, n)
  {
    WritesSplit(l, a, j - 1, n - 1);
    if n > j {
      WritesSplit(l, j - 1, j, n - 1);
      assert Writes(l, j - 1, j - 1) == 0;
      Multiples(Writes(l, j - 1, n - 1));
    }
  }

  lemma Multiples(w: nat)
    ensures (BATCH_SIZE + w) % BATCH_SIZE == w % BATCH_SIZE
  {
  }

  /** Inside the first batch no write is skipped. */
  lemma NoSkipYet(l: View, a: int, j: int, c: int, n: int)
    requires n < j && (Writes(l, a, j - 1) <= BATCH_SIZE)
    ensures !SkipsAt(l, a, c, n)
  {
    if a < n && EntryAt(l, n).Some? && !ConfigAt(l, n) {
      WritesSplit(l, a, n, j - 1);
    }
  }

  ghost predicate NothingSkipped(l: View, a: int, c: int) {
    forall n :: !SkipsAt(l, a, c, n)
  }

  lemma OneBatch(l: View, a: int, c: int)
    requires Writes(l, a, c) <= BATCH_SIZE
    ensures NothingSkipped(l, a, c)
  {
    forall n ensures !SkipsAt(l, a, c, n) { if n <= c { NoSkipYet(l, a, c + 1, c, n); } }
  }

  lemma NextBatch(l: View, a: int, j: int, c: int)
    requires a < j <= c && Writes(l, a, j - 1) == BATCH_SIZE && EntryAt(l, j).Some? && !ConfigAt(l, j)
    requires j + 1 <= c ==> !ConfigAt(l, j + 1)
    ensures NothingSkipped(l, a, c) <==> NothingSkipped(l, j - 1, c)
  {
    forall n ensures SkipsAt(l, a, c, n) <==> SkipsAt(l, j - 1, c, n) {
      if n < j { NoSkipYet(l, a, j, c, n); } else { SkipsLater(l, a, j, c, n); }
    }
    var b := j - 1;
    if NothingSkipped(l, a, c) {
      forall n ensures !SkipsAt(l, b, c, n) { assert !SkipsAt(l, a, c, n); }
    }
  }

  ghost predicate DrainsTo(l: View, a: int, c: int, cut: Cut, drained: Log) {
    && Batch(l, a, c, cut) <= drained
    && (cut.NoCut? ==> drained == Slice(l, a, c) && Writes(l, a, c) <= BATCH_SIZE)
    && (!cut.NoCut? ==> CutAtWrite(l, a, c, cut))
  }

  lemma DrainsFirst(l: View, a: int, c: int, cut: Cut)
    requires WellFormed(l) && l.snapIndex <= a < c <= LastIndex(l) && cut == NextCut(l, a, c)
    ensures DrainsTo(l, a, c, cut, Drained(l, a, c))
  {
    CutsAtWrite(l, a, c);
    if cut.NoCut? {
      assert Slice(l, a, c) + [] == Slice(l, a, c);
    }
  }

  lemma DrainedIs(l: View, a: int, c: int)
    requires WellFormed(l) && l.snapIndex <= a < c <= LastIndex(l)
    ensures Drained(l, a, c) == Batch(l, a, c, NextCut(l, a, c)) + Drained(l, NextApplied(l, a, c), c)
  {
  }

  lemma CutBatch(l: View, a: int, c: int, cut: Cut)
    requires WellFormed(l) && l.snapIndex <= a < c <= LastIndex(l)
    requires CutAtWrite(l, a, c, cut) && !ConfigAfterOverflow(l, c, cut)
    ensures Batch(l, a, c, cut) == Slice(l, a, cut.at - 1) && AfterCut(l, c, cut) == cut.at - 1
  {
  }

  lemma DrainsRest(l: View, a: int, c: int, cut: Cut)
    requires WellFormed(l) && l.snapIndex <= a < c <= LastIndex(l)
    requires cut == NextCut(l, a, c) && CutAtWrite(l, a, c, cut) && !ConfigAfterOverflow(l, c, cut)
    ensures Drained(l, a, c) == Slice(l, a, cut.at - 1) + Drained(l, cut.at - 1, c)
  {
    DrainedIs(l, a, c);
    CutBatch(l, a, c, cut);
  }

  lemma NextStep(l: View, a: int, c: int, entries: Log)
    requires WellFormed(l) && l.snapIndex <= a < c <= LastIndex(l) && entries == Batch(l, a, c, NextCut(l, a, c))
    ensures var n := NextApplied(l, a, c);
            && entries != [] && entries[|entries| - 1].index == n && (NextCut(l, a, c).NoCut? ==> n == c)
            && (forall k :: 0 <= k < |entries| ==> entries[k].index <= n)
            && Drained(l, a, c) == entries + Drained(l, n, c)
  {
    CutsAtWrite(l, a, c);
    BatchEnds(l, a, c, NextCut(l, a, c));
    DrainedIs(l, a, c);
  }

  /** Draining hands every committed record to the state machine once and in order if and only if no
      config change directly follows a write that overflows a batch. */
  lemma {:induction false} DrainIsExact(l: View, a: int, c: int)
    requires WellFormed(l) && l.snapIndex <= a <= c <= LastIndex(l)
    ensures Drained(l, a, c) == Slice(l, a, c) <==> NothingSkipped(l, a, c)
    decreases c - a
  {
    if a == c {
      OneBatch(l, a, c);
    } else {
      var cut := NextCut(l, a, c);
      if cut.ByCount? && !ConfigAfterOverflow(l, c, cut) {
        CutsAtWrite(l, a, c);
        DrainIsExact(l, cut.at - 1, c);
      }
      DrainStep(l, a, c, cut);
    }
  }

  lemma DrainStep(l: View, a: int, c: int, cut: Cut)
    requires WellFormed(l) && l.snapIndex <= a < c <= LastIndex(l) && cut == NextCut(l, a, c)
    requires cut.ByCount? && !ConfigAfterOverflow(l, c, cut) ==>
               CutAtWrite(l, a, c, cut)
               && (Drained(l, cut.at - 1, c) == Slice(l, cut.at - 1, c) <==> NothingSkipped(l, cut.at - 1, c))
    ensures Drained(l, a, c) == Slice(l, a, c) <==> NothingSkipped(l, a, c)
  {
    DrainsFirst(l, a, c, cut);
    if cut.ByCount? && !ConfigAfterOverflow(l, c, cut) {
      DrainsRest(l, a, c, cut);
      AddBatch(l, a, c, cut, Drained(l, a, c), Drained(l, cut.at - 1, c));
    } else {
      FirstBatch(l, a, c, cut, Drained(l, a, c));
    }
  }

  lemma FirstBatch(l: View, a: int, c: int, cut: Cut, drained: Log)
    requires WellFormed(l) && l.snapIndex <= a < c <= LastIndex(l) && DrainsTo(l, a, c, cut, drained)
    requires cut.NoCut? || ConfigAfterOverflow(l, c, cut)
    ensures drained == Slice(l, a, c) <==> NothingSkipped(l, a, c)
  {
    if cut.NoCut? {
      OneBatch(l, a, c);
    } else {
      assert SkipsAt(l, a, c, cut.at);
      GapShows(l, a, c, cut, drained);
    }
  }

  lemma AddBatch(l: View, a: int, c: int, cut: Cut, drained: Log, rest: Log)
    requires WellFormed(l) && l.snapIndex <= a < c <= LastIndex(l) && CutAtWrite(l, a, c, cut)
             && !ConfigAfterOverflow(l, c, cut)
    requires drained == Slice(l, a, cut.at - 1) + rest
    requires rest == Slice(l, cut.at - 1, c) <==> NothingSkipped(l, cut.at - 1, c)
    ensures drained == Slice(l, a, c) <==> NothingSkipped(l, a, c)
  {
    NextBatch(l, a, cut.at, c);
    SliceJoin(l, a, cut.at - 1, c, rest);
  }

  lemma GapShows(l: View, a: int, c: int, cut: Cut, drained: Log)
    requires WellFormed(l) && l.snapIndex <= a < c <= LastIndex(l)
    requires cut.ByCount? && a < cut.at <= c && !ConfigAt(l, cut.at) && ConfigAfterOverflow(l, c, cut)
    requires Batch(l, a, c, cut) <= drained
    ensures drained != Slice(l, a, c)
  {
    var k := cut.at - a - 1;
    assert Batch(l, a, c, cut)[k] == EntryAt(l, cut.at + 1).value;
    SliceAt(l, a, c, k);
  }

  lemma SliceJoin(l: View, a: int, b: int, c: int, rest: Log)
    requires l.snapIndex <= a <= b <= c <= l.snapIndex + |l.entries|
    ensures Slice(l, a, b) + rest == Slice(l, a, c) <==> rest == Slice(l, b, c)
  {
    assert Slice(l, a, c) == Slice(l, a, b) + Slice(l, b, c);
    if Slice(l, a, b) + rest == Slice(l, a, c) {
      assert rest == (Slice(l, a, b) + rest)[b - a..];
      assert Slice(l, b, c) == Slice(l, a, c)[b - a..];
    }
  }

  // ---------------------------------------------------------------- the drain loop

  /** The state machine, seen as the records it has been given so far. */
  class StateMachine {
    var history: Log

    constructor ()
      ensures history == []
    {
      history := [];
    }

    method Apply(e: LogEntry)
      modifies this
      ensures history == old(history) + [e]
    {
      history := history + [e];
    }
  }

  method ApplyBatch(entries: Log, apply: RaftApply, sm: StateMachine)
    requires entries != [] && apply.applied < entries[|entries| - 1].index
    requires forall k :: 0 <= k < |entries| ==> entries[k].index <= entries[|entries| - 1].index
    modifies apply`applied, sm
    ensures sm.history == old(sm.history) + entries
    ensures apply.applied == entries[|entries| - 1].index
  {
    for k := 0 to |entries|
      invariant sm.history == old(sm.history) + entries[..k]
      invariant apply.applied <= entries[|entries| - 1].index
      invariant k == |entries| ==> apply.applied == entries[|entries| - 1].index
    {
      sm.Apply(entries[k]);
      apply.AdvanceLastApplied(entries[k].index);
      assert entries[..k + 1] == entries[..k] + [entries[k]];
    }
    assert entries[..|entries|] == entries;
  }

  lemma Regroup(before: Log, batch: Log, rest: Log)
    ensures (before + batch) + rest == before + (batch + rest)
  {
  }

  lemma NothingLeft(l: View, c: int)
    requires WellFormed(l) && l.snapIndex <= c <= LastIndex(l)
    ensures Drained(l, c, c) == [] && Batch(l, c, c, NextCut(l, c, c)) == []
  {
  }

  /** One round of the drain loop. */
  method ApplyNextBatch(l: View, apply: RaftApply, sm: StateMachine) returns (more: bool)
    requires WellFormed(l) && l.snapIndex <= apply.applied <= apply.commit <= LastIndex(l)
    modifies apply`applied, sm
    ensures old(apply.applied) <= apply.applied <= apply.commit && (more ==> old(apply.applied) < apply.applied)
    ensures !more ==> apply.applied == apply.commit
    ensures sm.history + Drained(l, apply.applied, apply.commit)
            == old(sm.history + Drained(l, apply.applied, apply.commit))
  {
    var entries, hasMore := apply.ExtractCommittedEntries(l, BATCH_SIZE, 0);
    assert entries == Batch(l, apply.applied, apply.commit, NextCut(l, apply.applied, apply.commit));
    if apply.applied == apply.commit {
      NothingLeft(l, apply.applied);
    } else {
      NextStep(l, apply.applied, apply.commit, entries);
    }
    if entries == [] {
      return false;
    }
    ApplyBatch(entries, apply, sm);
    Regroup(old(sm.history), entries, Drained(l, apply.applied, apply.commit));
    more := hasMore;
  }

  /** The loop always ends with everything committed counted as applied; DrainIsExact says when
      everything really was. */
  method ApplyCommittedEntries(l: View, apply: RaftApply, sm: StateMachine)
    requires WellFormed(l) && l.snapIndex <= apply.applied <= apply.commit <= LastIndex(l)
    modifies apply`applied, sm
    ensures apply.applied == apply.commit
    ensures sm.history == old(sm.history) + old(Drained(l, apply.applied, apply.commit))
  {
    ghost var c := apply.commit;
    ghost var all := old(sm.history) + Drained(l, apply.applied, c);
    var more := true;
    while more
      invariant l.snapIndex <= apply.applied <= apply.commit == c && (!more ==> apply.applied == c)
      invariant sm.history + Drained(l, apply.applied, c) == all
      decreases more, c - apply.applied
    {
      more := ApplyNextBatch(l, apply, sm);
    }
    NothingLeft(l, c);
    assert sm.history + [] == sm.history;
  }

  // ---------------------------------------------------------------- the condition is needed

  function Record(n: int, op: WriteOp): LogEntry {
    var nobody := ReplicaId(-1, -1, -1);
    LogEntry(1, n, op, [], [], [], PeerMember([], nobody, Endpoint([], 0)), nobody, [])
  }

  /** 257 writes and then a new learner. */
  function OverflowLog(): View {
    View(seq(258, k => Record(k + 1, if k < 257 then Put else AddLearner)), 0, 0)
  }

  lemma {:induction false} OverflowWrites(n: nat)
    requires n <= 257
    ensures Writes(OverflowLog(), 0, n) == n
  {
    if n > 0 {
      OverflowWrites(n - 1);
      assert EntryAt(OverflowLog(), n) == Some(Record(n, Put));
    }
  }

  lemma OverflowShape()
    ensures WellFormed(OverflowLog()) && LastIndex(OverflowLog()) == 258
  {
    var es := OverflowLog().entries;
    assert |es| == 258;
    assert forall k :: 0 <= k < |es| ==> es[k] == Record(k + 1, if k < 257 then Put else AddLearner);
  }

  lemma OverflowCounts(n: int)
    requires 0 <= n <= 258
    ensures Writes(OverflowLog(), 0, n) == Min(n, 257)
  {
    OverflowWrites(Min(n, 257));
    if n == 258 { assert EntryAt(OverflowLog(), 258) == Some(Record(258, AddLearner)); }
  }

  lemma OverflowCut()
    ensures WellFormed(OverflowLog()) && NextCut(OverflowLog(), 0, 258) == ByCount(257)
    ensures ConfigsFrom(OverflowLog(), 258, 258) == [Record(258, AddLearner)]
  {
    var l := OverflowLog();
    OverflowShape();
    assert EntryAt(l, 258) == Some(Record(258, AddLearner)) && ConfigAt(l, 258);
    OverflowCounts(258);
    CutsAtWrite(l, 0, 258);
    OverflowCounts(NextCut(l, 0, 258).at - 1);
    assert ConfigsFrom(l, 259, 258) == [];
  }

  /** Draining it counts all 258 records as applied but never applies record 257. */
  lemma OverflowLosesAWrite()
    ensures WellFormed(OverflowLog()) && LastIndex(OverflowLog()) == 258
    ensures Drained(OverflowLog(), 0, 258) == Slice(OverflowLog(), 0, 256) + [Record(258, AddLearner)]
    ensures Record(257, Put) in Slice(OverflowLog(), 0, 258) && Record(257, Put) !in Drained(OverflowLog(), 0, 258)
  {
    var l := OverflowLog();
    OverflowShape();
    OverflowCut();
    DrainedIs(l, 0, 258);
    var b := Batch(l, 0, 258, ByCount(257));
    assert NextApplied(l, 0, 258) == 258;
    assert b + [] == b;
    assert Slice(l, 0, 258)[256] == Record(257, Put);
    forall k | 0 <= k < 256 ensures Slice(l, 0, 256)[k] == Record(k + 1, Put) { SliceAt(l, 0, 256, k); }
  }
}
