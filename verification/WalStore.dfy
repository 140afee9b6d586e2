/** The objects behind the write-ahead log: a buffered file writer and the store itself
    (src/common/binary/base.h, src/storage/persist/wal_store.cpp). */
module WalStore {
  import opened Types
  import opened Codec
  import opened Crc
  import opened Streams
  import opened Wal

  const WRITE_BUFFER := 64 * 1024

  /** FileWriter: bytes reach the file when the buffer is full, when flushed, or directly if large. */
  class FileWriter {
    var file: Bytes
    var buf: Bytes

    ghost function All(): Bytes
      reads this
    {
      file + buf
    }

    constructor (file: Bytes)
      ensures this.file == file && buf == [] && All() == file
    {
      this.file := file;
      buf := [];
    }

    /** Nothing is lost or reordered, and the file only grows. */
    method WriteRaw(data: Bytes)
      modifies this
      ensures All() == old(All()) + data && old(file) <= file
    {
      if |data| >= WRITE_BUFFER {
        Flush();
        file := file + data;
      } else {
        if |buf| + |data| > WRITE_BUFFER {
          Flush();
        }
        buf := buf + data;
      }
    }

    method Flush()
      modifies this
      ensures All() == old(All()) && buf == [] && old(file) <= file
    {
      file := file + buf;
      buf := [];
    }
  }

  predicate Unfold(k: int) { true }

  /** c is the framing with CRC-32 checksums.  The equation is kept under a quantifier, so that the
      loops below use frames only through what Sound says about them. */
  ghost predicate IsCrc(c: Coder) {
    forall k :: Unfold(k) ==> c == CrcCoder(Checksum)
  }

  lemma CrcIsCrc()
    ensures IsCrc(CrcCoder(Checksum))
  {
  }

  lemma IsCrcSound(c: Coder)
    requires IsCrc(c)
    ensures Sound(c)
  {
    assert Unfold(0);
    CrcCoderSound(Checksum);
  }

  /** encode_crc into a file writer; nothing is written of a record that cannot be framed. */
  method AppendFrame(tab: array<bv32>, ghost c: Coder, e: LogEntry, w: FileWriter) returns (ok: bool)
    requires IsTable(tab[..]) && IsCrc(c) && Fits(e)
    modifies w
    ensures ok <==> c.takes(e)
    ensures w.All() == old(w.All()) + (if ok then c.frame(e) else []) && old(w.file) <= w.file
  {
    assert Unfold(0);
    var frame := EncodeFrame(tab, e);
    ok := frame.Some?;
    if ok { w.WriteRaw(frame.value); }
  }

  /** Records up to the first that cannot be framed. */
  method AppendFrames(tab: array<bv32>, ghost c: Coder, es: Log, w: FileWriter) returns (n: nat)
    requires IsTable(tab[..]) && IsCrc(c) && forall k :: 0 <= k < |es| ==> Fits(es[k])
    modifies w
    ensures n <= |es| && Takes(c, es[..n]) && (n < |es| ==> !c.takes(es[n]))
    ensures w.All() == old(w.All()) + WalBytes(c, es[..n]) && old(w.file) <= w.file
  {
    n := 0;
    assert es[..0] == [];
    while n < |es|
      invariant n <= |es| && Takes(c, es[..n])
      invariant w.All() == old(w.All()) + WalBytes(c, es[..n]) && old(w.file) <= w.file
    {
      var ok := AppendFrame(tab, c, es[n], w);
      if !ok {
        return;
      }
      OneMore(c, es, n);
      n := n + 1;
    }
  }

  lemma OneMore(c: Coder, es: Log, n: nat)
    requires n < |es|
    ensures WalBytes(c, es[..n + 1]) == WalBytes(c, es[..n]) + c.frame(es[n])
  {
    assert es[..n + 1] == es[..n] + [es[n]];
    WalAppend(c, es[..n], [es[n]]);
  }

  ghost predicate AllFit(es: Log) {
    forall k :: 0 <= k < |es| ==> Fits(es[k])
  }

  class WalStore {
    const tab: array<bv32>
    ghost const coder: Coder
    var file: Bytes

    ghost predicate Valid()
      reads this, tab
    {
      IsTable(tab[..]) && IsCrc(coder)
    }

    constructor (file: Bytes)
      ensures Valid() && this.file == file && coder == CrcCoder(Checksum) && fresh(tab)
    {
      var t := BuildTable();
      tab := t;
      coder := CrcCoder(Checksum);
      this.file := file;
      new;
      CrcIsCrc();
    }

    /** All records are appended, or the append fails with at most a part of the frames before the
        offending one in the file. */
    method AppendBatch(es: Log) returns (ok: bool)
      requires Valid() && AllFit(es)
      modifies this`file
      ensures ok <==> Takes(coder, es)
      ensures ok ==> file == old(file) + WalBytes(coder, es)
      ensures !ok ==> exists n :: 0 <= n < |es| && old(file) <= file <= old(file) + WalBytes(coder, es[..n])
    {
      var w := new FileWriter(file);
      var n := AppendFrames(tab, coder, es, w);
      if n < |es| {
        file := w.file;
        assert file <= old(file) + WalBytes(coder, es[..n]);
        return false;
      }
      assert es[..n] == es;
      w.Flush();
      file := w.file;
      ok := true;
    }

    /** The new log replaces the old one as a whole, or nothing changes. */
    method Rewrite(es: Log) returns (ok: bool)
      requires Valid() && AllFit(es)
      modifies this`file
      ensures ok <==> Takes(coder, es)
      ensures file == if ok then WalBytes(coder, es) else old(file)
    {
      var w := new FileWriter([]);
      var n := AppendFrames(tab, coder, es, w);
      if n < |es| {
        return false;
      }
      assert es[..n] == es && [] + WalBytes(coder, es) == WalBytes(coder, es);
      w.Flush();
      file := w.file;
      ok := true;
    }

    method NextRecord(r: Reader) returns (e: Read<LogEntry>)
      requires Valid() && r.Valid()
      modifies r
      ensures r.Valid() && e == coder.parse(old(r.Rest())) && (e.Ok? ==> e.rest == r.Rest())
    {
      assert Unfold(0);
      e := r.ReadFrame(tab);
    }

    /** read_wal_from_disk. */
    method ReadFromDisk() returns (read: WalRead)
      requires Valid()
      ensures Sound(coder) && read == ReadLog(coder, file, None)
    {
      IsCrcSound(coder);
      var r := new Reader(file);
      var entries: Log := [];
      var prev: Option<int> := None;
      ghost var all := ReadLog(coder, file, None);
      while true
        invariant r.Valid() && fresh(r)
        invariant After(entries, ReadLog(coder, r.Rest(), prev)) == all
        decreases |r.Rest()|
      {
        ReadStep(coder, r.Rest(), prev, entries);
        var e := NextRecord(r);
        if e.Fail? {
          return WalRead(entries, e.code != Eof);
        }
        if prev.Some? && e.value.index != prev.value + 1 {
          return WalRead(entries, true);
        }
        entries := entries + [e.value];
        prev := Some(e.value.index);
      }
    }

    /** recover: what is returned is what the file holds afterwards. */
    method Recover(snapshot: int) returns (entries: Log, needRecover: bool)
      requires Valid()
      modifies this`file
      ensures Sound(coder)
      ensures Recovered(entries, needRecover, file) == old(Wal.Recover(coder, snapshot, file))
    {
      var read := ReadFromDisk();
      RecoverIsContiguous(coder, snapshot, file);
      entries := Above(read.entries, snapshot);
      needRecover := read.error;
      if entries != [] && entries[0].index != snapshot + 1 {
        entries, needRecover := [], true;
      }
      TakenFit(coder, entries);
      var _ := Rewrite(entries);
    }
  }

  ghost function After(entries: Log, more: WalRead): WalRead { WalRead(entries + more.entries, more.error) }

  /** What one turn of the reading loop does to the records still to come. */
  lemma ReadStep(c: Coder, bs: Bytes, prev: Option<int>, entries: Log)
    requires Sound(c)
    ensures var r := c.parse(bs);
            var now := After(entries, ReadLog(c, bs, prev));
            if r.Fail? then now == WalRead(entries, r.code != Eof)
            else if prev.Some? && r.value.index != prev.value + 1 then now == WalRead(entries, true)
            else |r.rest| < |bs| && now == After(entries + [r.value], ReadLog(c, r.rest, Some(r.value.index)))
  {
    assert Consumes(c, bs);
    var r := c.parse(bs);
    if r.Ok? && !(prev.Some? && r.value.index != prev.value + 1) {
      var more := ReadLog(c, r.rest, Some(r.value.index)).entries;
      assert entries + ([r.value] + more) == (entries + [r.value]) + more;
    } else {
      assert entries + [] == entries;
    }
  }

  lemma TakenFit(c: Coder, es: Log)
    requires IsCrc(c) && Takes(c, es)
    ensures AllFit(es)
  {
    assert Unfold(0);
    forall k | 0 <= k < |es| ensures Fits(es[k]) { assert c.takes(es[k]); }
  }
}
