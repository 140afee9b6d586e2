/** The write-ahead log on disk: appending, rewriting, reading after a crash, recovery
    (src/storage/persist/wal_store.cpp).  A file is a byte string, a crash is a cut at any byte, and
    replacing a file is atomic.

    The log is a sequence of frames; what it needs of the framing is said once, in Sound, and shown of
    the checksummed frames of module Codec. */
module Wal {
  import opened Types
  import opened Codec
  import opened RaftLog
  import Replica

  /** A way of framing records: which records it takes, how it writes and how it reads them. */
  datatype Coder = Coder(takes: LogEntry -> bool, frame: LogEntry -> Bytes, parse: Bytes -> Read<LogEntry>)

  ghost predicate ReadsBack(c: Coder, e: LogEntry, rest: Bytes) {
    c.takes(e) ==> c.parse(c.frame(e) + rest) == Ok(e, rest)
  }

  ghost predicate SeesCut(c: Coder, e: LogEntry, n: nat) {
    c.takes(e) && n < |c.frame(e)| ==> c.parse(c.frame(e)[..n]) == Fail(if n == 0 then Eof else Partial)
  }

  /** What is read is there, frame and all, and something has been consumed. */
  ghost predicate Consumes(c: Coder, bs: Bytes) {
    c.parse(bs).Ok? ==>
      && c.takes(c.parse(bs).value) && |c.parse(bs).rest| < |bs|
      && bs == c.frame(c.parse(bs).value) + c.parse(bs).rest
  }

  ghost predicate EndsCleanly(c: Coder, bs: Bytes) { c.parse(bs) == Fail(Eof) <==> bs == [] }

  /** Nothing, and nothing else, is a clean end; frames read back whatever follows them, a cut is seen, and
      only frames are read. */
  ghost predicate Sound(c: Coder) {
    && (forall bs :: EndsCleanly(c, bs))
    && (forall e, rest :: ReadsBack(c, e, rest))
    && (forall e, n: nat :: SeesCut(c, e, n))
    && (forall bs :: Consumes(c, bs))
  }

  function CrcCoder(sum: Bytes -> bv32): Coder {
    Coder(Framable, e => if Fits(e) && Frame(sum, e).Some? then Frame(sum, e).value else [], bs => ParseFrame(sum, bs))
  }

  lemma CrcReadsBack(sum: Bytes -> bv32, e: LogEntry, rest: Bytes)
    ensures ReadsBack(CrcCoder(sum), e, rest)
  {
    if Framable(e) { ParseFrameBack(sum, e, rest); }
  }

  lemma CrcSeesCut(sum: Bytes -> bv32, e: LogEntry, n: nat)
    ensures SeesCut(CrcCoder(sum), e, n)
  {
    if Framable(e) {
      ParseFrameBack(sum, e, []);
      if n < |Frame(sum, e).value| { ParseFrameCut(sum, e, n); }
    }
  }

  lemma CrcConsumes(sum: Bytes -> bv32, bs: Bytes)
    ensures Consumes(CrcCoder(sum), bs)
  {
    if ParseFrame(sum, bs).Ok? { ParseFrameDetermines(sum, bs); }
  }

  lemma CrcCleanEnd(sum: Bytes -> bv32, bs: Bytes)
    ensures EndsCleanly(CrcCoder(sum), bs)
  {
  }

  /** The checksummed frames of the log are sound, for any checksum. */
  lemma CrcCoderSound(sum: Bytes -> bv32)
    ensures Sound(CrcCoder(sum))
  {
    forall bs ensures EndsCleanly(CrcCoder(sum), bs) { CrcCleanEnd(sum, bs); }
    forall e, rest ensures ReadsBack(CrcCoder(sum), e, rest) { CrcReadsBack(sum, e, rest); }
    forall e, n: nat ensures SeesCut(CrcCoder(sum), e, n) { CrcSeesCut(sum, e, n); }
    forall bs ensures Consumes(CrcCoder(sum), bs) { CrcConsumes(sum, bs); }
  }

  // ---------------------------------------------------------------- what a log looks like on disk

  ghost predicate Takes(c: Coder, es: Log) {
    forall k :: 0 <= k < |es| ==> c.takes(es[k])
  }

  /** Consecutive indices. */
  ghost predicate Consecutive(es: Log) {
    forall k :: 0 < k < |es| ==> es[k].index == es[k - 1].index + 1
  }

  function WalBytes(c: Coder, es: Log): Bytes {
    if es == [] then [] else c.frame(es[0]) + WalBytes(c, es[1..])
  }

  lemma {:induction false} WalAppend(c: Coder, a: Log, b: Log)
    ensures WalBytes(c, a + b) == WalBytes(c, a) + WalBytes(c, b)
    decreases |a|
  {
    if a == [] {
      assert a + b == b;
    } else {
      assert (a + b)[1..] == a[1..] + b;
      WalAppend(c, a[1..], b);
    }
  }

  // ---------------------------------------------------------------- reading

  datatype WalRead = WalRead(entries: Log, error: bool)

  /** Records up to the first that is incomplete, damaged or out of sequence. */
  ghost function ReadLog(c: Coder, bs: Bytes, prev: Option<int>): WalRead
    requires Sound(c)
    decreases |bs|
  {
    var r := c.parse(bs);
    if r.Fail? then WalRead([], r.code != Eof)
    else if prev.Some? && r.value.index != prev.value + 1 then WalRead([], true)
    else
      assert Consumes(c, bs);
      var more := ReadLog(c, r.rest, Some(r.value.index));
      WalRead([r.value] + more.entries, more.error)
  }

  ghost predicate Follows(es: Log, prev: Option<int>) {
    Consecutive(es) && (prev.Some? && es != [] ==> es[0].index == prev.value + 1)
  }

  lemma FollowsOne(e: LogEntry, es: Log, prev: Option<int>)
    requires Follows(es, Some(e.index)) && (prev.Some? ==> e.index == prev.value + 1)
    ensures Follows([e] + es, prev)
  {
    var s := [e] + es;
    forall k | 0 < k < |s| ensures s[k].index == s[k - 1].index + 1 {
      if k > 1 { assert s[k] == es[k - 1] && s[k - 1] == es[k - 2]; }
    }
  }

  /** Whatever is on disk, what is read back is consecutive and can be written again. */
  lemma {:induction false} ReadIsConsecutive(c: Coder, bs: Bytes, prev: Option<int>)
    requires Sound(c)
    ensures Follows(ReadLog(c, bs, prev).entries, prev) && Takes(c, ReadLog(c, bs, prev).entries)
    decreases |bs|
  {
    var r := c.parse(bs);
    if r.Ok? && !(prev.Some? && r.value.index != prev.value + 1) {
      assert Consumes(c, bs);
      ReadIsConsecutive(c, r.rest, Some(r.value.index));
      FollowsOne(r.value, ReadLog(c, r.rest, Some(r.value.index)).entries, prev);
    }
  }

  /** Whatever is on disk begins with the frames of what is read, checksums included, and reading finds
      nothing wrong if and only if there is nothing else. */
  lemma {:induction false} ReadIsExact(c: Coder, bs: Bytes, prev: Option<int>)
    requires Sound(c)
    ensures var r := ReadLog(c, bs, prev);
            WalBytes(c, r.entries) <= bs && (!r.error <==> bs == WalBytes(c, r.entries))
    decreases |bs|
  {
    var r := c.parse(bs);
    assert EndsCleanly(c, bs);
    if r.Ok? {
      assert Consumes(c, bs);
      if !(prev.Some? && r.value.index != prev.value + 1) {
        ReadIsExact(c, r.rest, Some(r.value.index));
        var more := ReadLog(c, r.rest, Some(r.value.index));
        FramesJoin(c.frame(r.value), WalBytes(c, more.entries), r.rest);
        assert ([r.value] + more.entries)[1..] == more.entries;
      }
    }
  }

  lemma FramesJoin(frame: Bytes, a: Bytes, rest: Bytes)
    requires a <= rest
    ensures frame + a <= frame + rest && (a == rest <==> frame + a == frame + rest)
  {
    assert (frame + rest)[|frame|..] == rest && (frame + a)[|frame|..] == a;
  }

  /** How many whole frames of the log fit in n bytes. */
  ghost function Complete(c: Coder, es: Log, n: nat): nat
    decreases |es|
  {
    if es == [] || n < |c.frame(es[0])| then 0 else 1 + Complete(c, es[1..], n - |c.frame(es[0])|)
  }

  lemma {:induction false} CompleteIs(c: Coder, es: Log, n: nat)
    requires n <= |WalBytes(c, es)|
    ensures var k := Complete(c, es, n);
            && k <= |es| && |WalBytes(c, es[..k])| <= n
            && (k < |es| ==> n < |WalBytes(c, es[..k + 1])|)
    decreases |es|
  {
    if es != [] {
      var size := |c.frame(es[0])|;
      assert es[..1][1..] == [];
      if n >= size {
        CompleteIs(c, es[1..], n - size);
        var k := Complete(c, es[1..], n - size);
        assert es[..k + 1][1..] == es[1..][..k];
        if k < |es[1..]| { assert es[..k + 2][1..] == es[1..][..k + 1]; }
      }
    }
  }

  /** Torn-tail recovery: for any consecutive log and any cut, reading returns exactly the records
      whose frames are complete, and reports damage exactly when the cut is inside a frame. */
  lemma {:induction false} TornTail(c: Coder, es: Log, prev: Option<int>, n: nat)
    requires Sound(c) && Takes(c, es) && Follows(es, prev) && n <= |WalBytes(c, es)|
    ensures var k := Complete(c, es, n);
            && k <= |es|
            && ReadLog(c, WalBytes(c, es)[..n], prev) == WalRead(es[..k], n != |WalBytes(c, es[..k])|)
    decreases |es|
  {
    if es == [] {
      assert WalBytes(c, es)[..n] == [] && es[..0] == [];
      assert EndsCleanly(c, []);
    } else {
      var frame, rest := c.frame(es[0]), WalBytes(c, es[1..]);
      if n < |frame| {
        assert WalBytes(c, es)[..n] == frame[..n];
        assert SeesCut(c, es[0], n);
        assert es[..0] == [];
      } else {
        var m := n - |frame|;
        assert WalBytes(c, es)[..n] == frame + rest[..m];
        assert ReadsBack(c, es[0], rest[..m]);
        TornTail(c, es[1..], Some(es[0].index), m);
        Prepend(c, es, Complete(c, es[1..], m));
      }
    }
  }

  lemma Prepend(c: Coder, es: Log, k: nat)
    requires es != [] && k < |es|
    ensures [es[0]] + es[1..][..k] == es[..k + 1]
    ensures |WalBytes(c, es[..k + 1])| == |c.frame(es[0])| + |WalBytes(c, es[1..][..k])|
  {
    assert es[..k + 1][1..] == es[1..][..k];
  }

  // ---------------------------------------------------------------- recovery

  /** The records a snapshot does not cover. */
  function Above(es: Log, snapshot: int): Log {
    if es == [] then [] else (if es[0].index <= snapshot then [] else [es[0]]) + Above(es[1..], snapshot)
  }

  datatype Recovered = Recovered(entries: Log, needRecover: bool, disk: Bytes)

  /** What is kept after a restart with this snapshot, and what the file then holds. */
  ghost function Recover(c: Coder, snapshot: int, bs: Bytes): Recovered
    requires Sound(c)
  {
    Keep(c, snapshot, ReadLog(c, bs, None))
  }

  function Keep(c: Coder, snapshot: int, r: WalRead): Recovered {
    var kept := Above(r.entries, snapshot);
    if kept != [] && kept[0].index != snapshot + 1 then Recovered([], true, [])
    else Recovered(kept, r.error, WalBytes(c, kept))
  }

  lemma ConsecutiveIndex(es: Log, k: int)
    requires Consecutive(es) && 0 <= k < |es|
    ensures es[k].index == es[0].index + k
    decreases k
  {
    if k > 0 { ConsecutiveIndex(es, k - 1); }
  }

  lemma {:induction false} AllAbove(es: Log, snapshot: int)
    requires Consecutive(es) && (es != [] ==> es[0].index > snapshot)
    ensures Above(es, snapshot) == es
    decreases |es|
  {
    if es != [] {
      assert Consecutive(es[1..]);
      AllAbove(es[1..], snapshot);
    }
  }

  /** Of consecutive records, those above a snapshot are a suffix. */
  lemma {:induction false} AboveIsSuffix(es: Log, snapshot: int)
    requires Consecutive(es)
    ensures es != [] ==> Above(es, snapshot) == es[Max(0, Min(|es|, snapshot + 1 - es[0].index))..]
    ensures Consecutive(Above(es, snapshot))
    decreases |es|
  {
    if es != [] {
      assert Consecutive(es[1..]);
      if es[0].index > snapshot {
        AllAbove(es, snapshot);
      } else {
        AboveIsSuffix(es[1..], snapshot);
      }
    }
  }

  lemma {:induction false} AboveTakes(c: Coder, es: Log, snapshot: int)
    requires Takes(c, es)
    ensures Takes(c, Above(es, snapshot))
    decreases |es|
  {
    if es != [] { AboveTakes(c, es[1..], snapshot); }
  }

  lemma Numbered(es: Log, snapshot: int)
    requires Consecutive(es) && (es != [] ==> es[0].index == snapshot + 1)
    ensures Contiguous(es, snapshot)
  {
    forall k | 0 <= k < |es| ensures es[k].index == snapshot + 1 + k { ConsecutiveIndex(es, k); }
  }

  /** Whatever the file holds, recovery returns records numbered from the snapshot on, and the file
      then holds exactly those. */
  lemma RecoverIsContiguous(c: Coder, snapshot: int, bs: Bytes)
    requires Sound(c)
    ensures var r := Recover(c, snapshot, bs);
            Contiguous(r.entries, snapshot) && Takes(c, r.entries) && r.disk == WalBytes(c, r.entries)
  {
    ReadIsConsecutive(c, bs, None);
    var es := ReadLog(c, bs, None).entries;
    AboveIsSuffix(es, snapshot);
    AboveTakes(c, es, snapshot);
    var r := Recover(c, snapshot, bs);
    Numbered(r.entries, snapshot);
  }

  /** Reading a complete log returns it without complaint. */
  lemma ReadWhole(c: Coder, es: Log)
    requires Sound(c) && Takes(c, es) && Consecutive(es)
    ensures ReadLog(c, WalBytes(c, es), None) == WalRead(es, false)
  {
    var n := |WalBytes(c, es)|;
    TornTail(c, es, None, n);
    CompleteIs(c, es, n);
    assert WalBytes(c, es)[..n] == WalBytes(c, es);
    var k := Complete(c, es, n);
    if k < |es| {
      assert es == es[..k + 1] + es[k + 1..];
      WalAppend(c, es[..k + 1], es[k + 1..]);
    } else {
      assert es[..k] == es;
    }
  }

  /** The file is exactly the frames of these records, and those above the snapshot follow on it. */
  ghost predicate Intact(c: Coder, snapshot: int, bs: Bytes, es: Log) {
    && bs == WalBytes(c, es) && Takes(c, es) && Consecutive(es)
    && forall k :: 0 <= k < |es| && es[k].index > snapshot ==> es[0].index <= snapshot + 1
  }

  /** Recovery asks for help if and only if something in the file is not an intact log that continues the
      snapshot; without asking, it keeps every record above the snapshot. */
  lemma HelpExactly(c: Coder, snapshot: int, bs: Bytes)
    requires Sound(c)
    ensures !Recover(c, snapshot, bs).needRecover <==> exists es :: Intact(c, snapshot, bs, es)
    ensures forall es :: Intact(c, snapshot, bs, es) ==> KeepsAbove(es, snapshot, Recover(c, snapshot, bs).entries)
  {
    var read := ReadLog(c, bs, None);
    ReadIsExact(c, bs, None);
    ReadIsConsecutive(c, bs, None);
    AboveAll(read.entries, snapshot);
    if !Recover(c, snapshot, bs).needRecover {
      NoGap(read.entries, snapshot, Above(read.entries, snapshot));
      assert Intact(c, snapshot, bs, read.entries);
    }
    forall es | Intact(c, snapshot, bs, es)
      ensures !Recover(c, snapshot, bs).needRecover && KeepsAbove(es, snapshot, Recover(c, snapshot, bs).entries)
    {
      ReadWhole(c, es);
      AboveAll(es, snapshot);
      NoGap(es, snapshot, Above(es, snapshot));
    }
  }

  /** What is kept follows on the snapshot unless even the first record is too high. */
  lemma NoGap(es: Log, snapshot: int, kept: Log)
    requires Consecutive(es) && KeepsAbove(es, snapshot, kept)
    ensures (kept != [] ==> kept[0].index == snapshot + 1) <==>
            forall k :: 0 <= k < |es| && es[k].index > snapshot ==> es[0].index <= snapshot + 1
  {
    if kept != [] {
      var n := |es| - |kept|;
      assert kept[0] == es[n] && es[n].index > snapshot;
      if n > 0 { assert es[n].index == es[n - 1].index + 1 && es[n - 1].index <= snapshot; }
    }
  }

  /** Those records that are above the snapshot, and no others. */
  ghost predicate KeepsAbove(es: Log, snapshot: int, kept: Log) {
    |kept| <= |es| && kept == es[|es| - |kept|..]
    && forall k :: 0 <= k < |es| ==> (es[k].index > snapshot <==> k >= |es| - |kept|)
  }

  lemma AboveAll(es: Log, snapshot: int)
    requires Consecutive(es)
    ensures KeepsAbove(es, snapshot, Above(es, snapshot))
  {
    AboveIsSuffix(es, snapshot);
    if es != [] {
      var n := Max(0, Min(|es|, snapshot + 1 - es[0].index));
      assert |Above(es, snapshot)| == |es| - n;
      forall k | 0 <= k < |es| ensures es[k].index > snapshot <==> k >= n { ConsecutiveIndex(es, k); }
    }
  }

  /** A second recovery returns the same records and finds nothing wrong. */
  lemma RecoverTwice(c: Coder, snapshot: int, bs: Bytes)
    requires Sound(c)
    ensures var r := Recover(c, snapshot, bs);
            Recover(c, snapshot, r.disk) == Recovered(r.entries, false, r.disk)
  {
    RecoverIsContiguous(c, snapshot, bs);
    var es := Recover(c, snapshot, bs).entries;
    ReadWhole(c, es);
    AllAbove(es, snapshot);
  }

  /** A crash anywhere between taking a snapshot and finishing the rewrite of the log, on top of a
      torn last write: recovery returns the complete records above the snapshot, as it would have
      after the rewrite, and asks for help exactly when a record was torn. */
  lemma RecoverAfterCrash(c: Coder, es: Log, before: int, snapshot: int, n: nat)
    requires Sound(c) && Takes(c, es) && Contiguous(es, before) && before <= snapshot <= before + |es|
             && n <= |WalBytes(c, es)|
    ensures var k := Complete(c, es, n);
            var r := Recover(c, snapshot, WalBytes(c, es)[..n]);
            && k <= |es|
            && r.entries == (if snapshot - before <= k then es[snapshot - before..k] else [])
            && (r.needRecover <==> n != |WalBytes(c, es[..k])|)
  {
    TornTail(c, es, None, n);
    KeepPrefix(c, es, before, snapshot, Complete(c, es, n), n != |WalBytes(c, es[..Complete(c, es, n)])|);
  }

  lemma KeepPrefix(c: Coder, es: Log, before: int, snapshot: int, k: nat, error: bool)
    requires Contiguous(es, before) && before <= snapshot <= before + |es| && k <= |es|
    ensures var r := Keep(c, snapshot, WalRead(es[..k], error));
            && r.entries == (if snapshot - before <= k then es[snapshot - before..k] else [])
            && r.needRecover == error
  {
    var read := es[..k];
    AboveIsSuffix(read, snapshot);
    if k > 0 && snapshot - before <= k {
      assert read[snapshot - before..] == es[snapshot - before..k];
    }
  }

  /** A snapshot received from a leader is published before the log is rewritten.  After a crash in
      between, recovery keeps the records above it by index, while installing it would have dropped a
      tail that does not continue it: both agree if and only if there is no such tail. */
  lemma RecoverAfterReceived(c: Coder, l: View, index: int, term: int)
    requires Sound(c) && Takes(c, l.entries) && WellFormed(l) && l.snapIndex < index
    ensures var r := Recover(c, index, WalBytes(c, l.entries));
            && r.entries == Replica.Recovered(l, index, term).entries
            && (r.entries == Replica.Installed(l, index, term).entries <==>
                index >= LastIndex(l) || TermAt(l, index) == term)
  {
    var es, n := l.entries, |WalBytes(c, l.entries)|;
    ConsecutiveOf(es, l.snapIndex);
    ReadWhole(c, es);
    AboveIsSuffix(es, index);
  }

  lemma ConsecutiveOf(es: Log, before: int)
    requires Contiguous(es, before)
    ensures Consecutive(es)
  {
  }
}
