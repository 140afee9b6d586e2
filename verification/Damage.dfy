/** Damage to files is seen: what the checksums of the log and of the snapshot file guard against
    (src/common/binary/codec.h, src/storage/persist/wal_store.cpp, src/storage/persist/snapshot_store.cpp). */
module Damage {
  import opened Types
  import opened Codec
  import opened Crc
  import opened Wal
  import opened SnapshotFile

  ghost predicate SeesChange(sum: Bytes -> bv32, d: Bytes, k: int, b: bv8) {
    0 <= k < |d| && d[k] != b ==> sum(d[k := b]) != sum(d)
  }

  /** No change of one byte leaves the checksum as it was. */
  ghost predicate SeesOneByte(sum: Bytes -> bv32) {
    forall d, k, b :: SeesChange(sum, d, k, b)
  }

  lemma ChecksumSeesOneByte()
    ensures SeesOneByte(Checksum)
  {
    forall d, k, b ensures SeesChange(Checksum, d, k, b) {
      if 0 <= k < |d| && d[k] != b { OneByteIsSeen(d, k, b); }
    }
  }

  // ---------------------------------------------------------------- one frame

  lemma WordBack(w: bv32)
    ensures w as nat < 0x1_0000_0000 && (w as nat) as bv32 == w
  {
  }

  lemma SameWord(v: bv32, w: bv32)
    requires v as nat == w as nat
    ensures v == w
  {
    WordBack(v);
    WordBack(w);
  }

  lemma WordsDiffer(v: bv32, w: bv32)
    requires v != w
    ensures v as nat != w as nat
  {
    if v as nat == w as nat { SameWord(v, w); }
  }

  lemma BadPayload(sum: Bytes -> bv32, stored: Bytes, payload: Bytes, rest: Bytes)
    requires |stored| == 4 && payload != [] && sum(payload) as nat != FromLittleEndian(stored)
    ensures ParsePayload(sum, |payload|, (stored + payload) + rest) == Fail(Invalid)
  {
    assert (stored + payload) + rest == stored + (payload + rest);
    ParseFront(stored, payload + rest);
    ParseFront(payload, rest);
  }

  lemma BadFrame(sum: Bytes -> bv32, head: Bytes, stored: Bytes, payload: Bytes, rest: Bytes)
    requires |stored| == 4 && 0 < |payload| <= MAX_PAYLOAD && sum(payload) as nat != FromLittleEndian(stored)
    requires InRange(|payload|, 4) && head == IntBytes(|payload|, 4)
    ensures ParseFrame(sum, (head + (stored + payload)) + rest) == Fail(Invalid)
  {
    Reassociated(head, stored + payload, rest);
    ParseIntBack(|payload|, 4, (stored + payload) + rest);
    BadPayload(sum, stored, payload, rest);
  }

  /** The stored checksum itself is changed. */
  lemma StoredDiffers(w: bv32, k: nat, b: bv8)
    requires k < 4 && LittleEndian(w as nat, 4)[k] != b
    ensures FromLittleEndian(LittleEndian(w as nat, 4)[k := b]) != w as nat
  {
    var stored := LittleEndian(w as nat, 4);
    LittleEndianBack(stored[k := b]);
    assert stored[k := b][k] != stored[k];
  }

  /** A change of one byte after the length field of a frame, checksum or payload, is always refused,
      whatever follows the frame. */
  lemma FrameDamage(sum: Bytes -> bv32, e: LogEntry, k: nat, b: bv8, rest: Bytes)
    requires SeesOneByte(sum) && Framable(e) && Frame(sum, e).Some?
    requires 4 <= k < |Frame(sum, e).value| && Frame(sum, e).value[k] != b
    ensures ParseFrame(sum, Frame(sum, e).value[k := b] + rest) == Fail(Invalid)
  {
    FramedDamage(sum, EntryBytes(e), k, b, rest);
  }

  lemma ChangedMiddle(head: Bytes, stored: Bytes, payload: Bytes, k: nat, b: bv8)
    requires |head| == 4 && |stored| == 4 && 4 <= k < 8
    ensures (head + (stored + payload))[k] == stored[k - 4]
    ensures (head + (stored + payload))[k := b] == head + (stored[k - 4 := b] + payload)
  {
  }

  lemma ChangedEnd(head: Bytes, stored: Bytes, payload: Bytes, k: nat, b: bv8)
    requires |head| == 4 && |stored| == 4 && 8 <= k < 8 + |payload|
    ensures (head + (stored + payload))[k] == payload[k - 8]
    ensures (head + (stored + payload))[k := b] == head + (stored + payload[k - 8 := b])
  {
  }

  lemma StoredDamage(sum: Bytes -> bv32, head: Bytes, payload: Bytes, k: nat, b: bv8, rest: Bytes)
    requires 0 < |payload| <= MAX_PAYLOAD && InRange(|payload|, 4) && head == IntBytes(|payload|, 4) && 4 <= k < 8
    requires (head + (LittleEndian(sum(payload) as nat, 4) + payload))[k] != b
    ensures ParseFrame(sum, (head + (LittleEndian(sum(payload) as nat, 4) + payload))[k := b] + rest) == Fail(Invalid)
  {
    var stored := LittleEndian(sum(payload) as nat, 4);
    ChangedMiddle(head, stored, payload, k, b);
    StoredDiffers(sum(payload), k - 4, b);
    BadFrame(sum, head, stored[k - 4 := b], payload, rest);
  }

  lemma PayloadDamage(sum: Bytes -> bv32, head: Bytes, stored: Bytes, payload: Bytes, k: nat, b: bv8, rest: Bytes)
    requires 0 < |payload| <= MAX_PAYLOAD && InRange(|payload|, 4) && head == IntBytes(|payload|, 4)
    requires |stored| == 4 && FromLittleEndian(stored) == sum(payload) as nat
    requires 8 <= k < 8 + |payload| && (head + (stored + payload))[k] != b && SeesChange(sum, payload, k - 8, b)
    ensures ParseFrame(sum, (head + (stored + payload))[k := b] + rest) == Fail(Invalid)
  {
    ChangedEnd(head, stored, payload, k, b);
    WordsDiffer(sum(payload[k - 8 := b]), sum(payload));
    BadFrame(sum, head, stored, payload[k - 8 := b], rest);
  }

  lemma FramedDamage(sum: Bytes -> bv32, payload: Bytes, k: nat, b: bv8, rest: Bytes)
    requires SeesOneByte(sum) && 0 < |payload| <= MAX_PAYLOAD
    requires 4 <= k < |Framed(sum, payload)| && Framed(sum, payload)[k] != b
    ensures ParseFrame(sum, Framed(sum, payload)[k := b] + rest) == Fail(Invalid)
  {
    MaxInRange(|payload|);
    if k < 8 {
      StoredDamage(sum, IntBytes(|payload|, 4), payload, k, b, rest);
    } else {
      assert SeesChange(sum, payload, k - 8, b);
      StoredBack(sum(payload));
      PayloadDamage(sum, IntBytes(|payload|, 4), LittleEndian(sum(payload) as nat, 4), payload, k, b, rest);
    }
  }

  // ---------------------------------------------------------------- the log

  /** Where the frame of the j-th record begins. */
  ghost function FrameAt(c: Coder, es: Log, j: nat): nat
    requires j <= |es|
  {
    |WalBytes(c, es[..j])|
  }

  lemma FrameAtNext(c: Coder, es: Log, j: nat)
    requires 0 < j <= |es|
    ensures FrameAt(c, es, j) == |c.frame(es[0])| + FrameAt(c, es[1..], j - 1)
  {
    assert es[..j][1..] == es[1..][..j - 1];
  }

  /** A change of this byte of the record's frame is refused. */
  ghost predicate Refuses(c: Coder, e: LogEntry, k: int, b: bv8, rest: Bytes) {
    0 <= k < |c.frame(e)| ==> c.parse(c.frame(e)[k := b] + rest) == Fail(Invalid)
  }

  /** So it is whatever follows. */
  ghost predicate Guards(c: Coder, e: LogEntry, k: int, b: bv8) {
    forall rest :: Refuses(c, e, k, b, rest)
  }

  lemma ChangedFront(frame: Bytes, rest: Bytes, k: nat, b: bv8)
    requires k < |frame|
    ensures (frame + rest)[k := b] == frame[k := b] + rest
  {
  }

  lemma ChangedBack(frame: Bytes, rest: Bytes, k: nat, b: bv8)
    requires k < |rest|
    ensures (frame + rest)[|frame| + k := b] == frame + rest[k := b]
  {
  }

  /** One byte of a log file is changed, where it is guarded: reading returns exactly the records before that
      frame and reports damage. */
  lemma {:induction false} LogDamage(c: Coder, es: Log, prev: Option<int>, j: nat, k: nat, b: bv8)
    requires Sound(c) && Takes(c, es) && Follows(es, prev) && j < |es| && k < |c.frame(es[j])| && Guards(c, es[j], k, b)
    ensures var at := FrameAt(c, es, j) + k;
            at < |WalBytes(c, es)| && ReadLog(c, WalBytes(c, es)[at := b], prev) == WalRead(es[..j], true)
    decreases |es|
  {
    var rest := WalBytes(c, es[1..]);
    if j == 0 {
      assert es[..0] == [] && Refuses(c, es[0], k, b, rest);
      ChangedFront(c.frame(es[0]), rest, k, b);
    } else {
      FrameAtNext(c, es, j);
      LogDamage(c, es[1..], Some(es[0].index), j - 1, k, b);
      var at := FrameAt(c, es[1..], j - 1) + k;
      ChangedBack(c.frame(es[0]), rest, at, b);
      ReadOne(c, es, prev, rest[at := b], j);
    }
  }

  lemma ReadOne(c: Coder, es: Log, prev: Option<int>, rest: Bytes, j: nat)
    requires Sound(c) && es != [] && Takes(c, es) && Follows(es, prev) && 0 < j <= |es|
    requires ReadLog(c, rest, Some(es[0].index)) == WalRead(es[1..][..j - 1], true)
    ensures ReadLog(c, c.frame(es[0]) + rest, prev) == WalRead(es[..j], true)
  {
    assert ReadsBack(c, es[0], rest);
    assert [es[0]] + es[1..][..j - 1] == es[..j];
  }

  /** In the log as it is, with CRC-32, every byte after a frame's length field is guarded. */
  lemma WalDamage(c: Coder, es: Log, j: nat, k: nat, b: bv8)
    requires c == CrcCoder(Checksum) && Takes(c, es) && Consecutive(es) && j < |es|
    requires 4 <= k < |c.frame(es[j])| && c.frame(es[j])[k] != b
    ensures Sound(c)
    ensures var at := FrameAt(c, es, j) + k;
            at < |WalBytes(c, es)| && ReadLog(c, WalBytes(c, es)[at := b], None) == WalRead(es[..j], true)
  {
    CrcCoderSound(Checksum);
    FramesGuard(c, es[j], k, b);
    LogDamage(c, es, None, j, k, b);
  }

  lemma FramesGuard(c: Coder, e: LogEntry, k: nat, b: bv8)
    requires c == CrcCoder(Checksum) && c.takes(e) && 4 <= k < |c.frame(e)| && c.frame(e)[k] != b
    ensures Guards(c, e, k, b)
  {
    ChecksumSeesOneByte();
    forall rest ensures Refuses(c, e, k, b, rest) { FrameDamage(Checksum, e, k, b, rest); }
  }

  // ---------------------------------------------------------------- the snapshot file

  lemma ParseRawDetermines(bs: Bytes, n: nat)
    requires ParseRaw(bs, n).Ok?
    ensures var r := ParseRaw(bs, n); |r.value| == n && bs == r.value + r.rest
  {
  }

  lemma ParseSealDetermines(bs: Bytes) returns (stored: Bytes)
    requires ParseSeal(bs).Ok?
    ensures var r := ParseSeal(bs);
            && |stored| == 4 && FromLittleEndian(stored) == r.value.0 && InRange(r.value.1, 8) && InRange(MAGIC, 4)
            && bs == stored + (IntBytes(r.value.1, 8) + (IntBytes(MAGIC, 4) + r.rest))
  {
    ParseRawDetermines(bs, 4);
    stored := ParseRaw(bs, 4).value;
    var b := ParseRaw(bs, 4).rest;
    ParseIntDetermines(b, 8);
    ParseIntDetermines(ParseInt(b, 8).rest, 4);
  }

  lemma ParseTrailerDetermines(bs: Bytes) returns (stored: Bytes)
    requires ParseTrailer(bs).Ok?
    ensures var r := ParseTrailer(bs);
            && |stored| == 4 && FromLittleEndian(stored) == r.value.crc && InRange(r.value.kvs, 4)
            && InRange(r.value.requests, 4) && InRange(r.value.total, 8) && InRange(MAGIC, 4)
            && bs == IntBytes(r.value.kvs, 4)
                     + (IntBytes(r.value.requests, 4)
                        + (stored + (IntBytes(r.value.total, 8) + (IntBytes(MAGIC, 4) + r.rest))))
  {
    ParseIntDetermines(bs, 4);
    var b := ParseInt(bs, 4).rest;
    ParseIntDetermines(b, 4);
    stored := ParseSealDetermines(ParseInt(b, 4).rest);
  }

  lemma TrailerIs(crc: bv32, stored: Bytes, kvs: int, requests: int, total: int)
    requires |stored| == 4 && FromLittleEndian(stored) == crc as nat && InRange(MAGIC, 4)
    requires InRange(kvs, 4) && InRange(requests, 4) && InRange(total, 8)
    ensures Trailer(kvs, requests, crc, total) ==
            IntBytes(kvs, 4) + (IntBytes(requests, 4) + (stored + (IntBytes(total, 8) + IntBytes(MAGIC, 4))))
  {
    LittleEndianBack(stored);
  }

  /** A trailer of the right size is read to its end. */
  lemma TrailerEnds(kvs: Bytes, requests: Bytes, stored: Bytes, total: Bytes, magic: Bytes, rest: Bytes)
    requires |kvs| == 4 && |requests| == 4 && |stored| == 4 && |total| == 8 && |magic| == 4
    requires |kvs + (requests + (stored + (total + (magic + rest))))| == TRAILER_BYTES
    ensures magic + rest == magic
  {
  }

  lemma AcceptedTrailer(bs: Bytes, crc: bv32)
    requires |bs| == TRAILER_BYTES && ParseTrailer(bs).Ok? && ParseTrailer(bs).value.crc == crc as nat
    ensures var t := ParseTrailer(bs).value;
            && InRange(t.kvs, 4) && InRange(t.requests, 4) && InRange(t.total, 8)
            && bs == Trailer(t.kvs, t.requests, crc, t.total)
  {
    var stored := ParseTrailerDetermines(bs);
    var t := ParseTrailer(bs).value;
    TrailerEnds(IntBytes(t.kvs, 4), IntBytes(t.requests, 4), stored, IntBytes(t.total, 8), IntBytes(MAGIC, 4),
                ParseTrailer(bs).rest);
    TrailerIs(crc, stored, t.kvs, t.requests, t.total);
  }

  /** The bytes of the trailer. */
  function Tail(file: Bytes): Bytes
    requires |file| > TRAILER_BYTES
  {
    file[|file| - TRAILER_BYTES..]
  }

  lemma VerifyParts(sum: Bytes -> bv32, file: Bytes)
    requires |file| >= TRAILER_BYTES + 4
    ensures Verify(sum, file).Some? <==>
            && ParseTrailer(Tail(file)).Ok? && ParseTrailer(Tail(file)).value.total == |file|
            && ParseInt(file, 4).Ok? && ParseInt(file, 4).value == MAGIC
            && ParseTrailer(Tail(file)).value.crc == sum(Body(file)) as nat
    ensures Verify(sum, file).Some? ==>
              var t := ParseTrailer(Tail(file)).value; Verify(sum, file) == Some((t.kvs, t.requests))
  {
  }

  lemma BodyAndTail(file: Bytes)
    requires |file| >= TRAILER_BYTES + 4
    ensures file == Body(file) + Tail(file)
  {
  }

  lemma CountsAreNonNegative(bs: Bytes)
    requires ParseTrailer(bs).Ok?
    ensures ParseTrailer(bs).value.kvs >= 0 && ParseTrailer(bs).value.requests >= 0
  {
  }

  /** Only what the writer would have written is accepted: a body, and the trailer with its checksum, the
      file's length and the counts that are returned. */
  lemma VerifyDetermines(sum: Bytes -> bv32, file: Bytes, kvs: int, requests: int)
    requires |file| >= TRAILER_BYTES + 4 && Verify(sum, file) == Some((kvs, requests))
    ensures 0 <= kvs && 0 <= requests && InRange(kvs, 4) && InRange(requests, 4) && InRange(|file|, 8)
    ensures file == Body(file) + Trailer(kvs, requests, sum(Body(file)), |file|)
  {
    VerifyParts(sum, file);
    AcceptedTrailer(Tail(file), sum(Body(file)));
    BodyAndTail(file);
    CountsAreNonNegative(Tail(file));
  }

  /** What guards the rest is the end of the trailer. */
  lemma AcceptedSeal(sum: Bytes -> bv32, file: Bytes)
    requires |file| >= TRAILER_BYTES + 4 && Verify(sum, file).Some?
    ensures InRange(|file|, 8) && Tail(file)[8..] == Seal(sum(Body(file)), |file|)
  {
    var t := Verify(sum, file).value;
    VerifyDetermines(sum, file, t.0, t.1);
    BodyAndTail(file);
    var crc := sum(Body(file));
    assert Tail(file) == Trailer(t.0, t.1, crc, |file|) by {
      assert (Body(file) + Tail(file))[|Body(file)|..] == Tail(file);
      assert (Body(file) + Trailer(t.0, t.1, crc, |file|))[|Body(file)|..] == Trailer(t.0, t.1, crc, |file|);
    }
    SealEnds(IntBytes(t.0, 4), IntBytes(t.1, 4), Seal(crc, |file|));
  }

  lemma SealEnds(kvs: Bytes, requests: Bytes, seal: Bytes)
    requires |kvs| == 4 && |requests| == 4
    ensures (kvs + (requests + seal))[8..] == seal
  {
  }

  lemma SealsDiffer(a: bv32, b: bv32, total: int)
    requires InRange(total, 8) && Seal(a, total) == Seal(b, total)
    ensures a == b
  {
    StoredBack(a);
    StoredBack(b);
    assert Seal(a, total)[..4] == LittleEndian(a as nat, 4) && Seal(b, total)[..4] == LittleEndian(b as nat, 4);
    SameWord(a, b);
  }

  /** The bytes of the two counts. */
  predicate InCounts(file: Bytes, k: int) { |file| - TRAILER_BYTES <= k < |file| - TRAILER_BYTES + 8 }

  lemma TailByte(file: Bytes, k: nat)
    requires |file| > TRAILER_BYTES && |file| - TRAILER_BYTES + 8 <= k < |file|
    ensures Tail(file)[8..][k - (|file| - TRAILER_BYTES + 8)] == file[k]
  {
  }

  /** Accepted files of one length do not differ in one byte of the body, */
  lemma BodyIsGuarded(sum: Bytes -> bv32, file: Bytes, k: nat, b: bv8)
    requires SeesOneByte(sum) && |file| >= TRAILER_BYTES + 4 && k < |file| && file[k] != b
    requires Verify(sum, file).Some? && Verify(sum, file[k := b]).Some?
    ensures k >= |file| - TRAILER_BYTES
  {
    var changed := file[k := b];
    AcceptedSeal(sum, file);
    AcceptedSeal(sum, changed);
    if k < |file| - TRAILER_BYTES {
      assert Tail(changed) == Tail(file) && Body(changed) == Body(file)[k := b];
      assert SeesChange(sum, Body(file), k, b);
      SealsDiffer(sum(Body(file)), sum(Body(changed)), |file|);
    }
  }

  /** their trailers end alike, */
  lemma SealsEqual(sum: Bytes -> bv32, file: Bytes, k: nat, b: bv8)
    requires |file| >= TRAILER_BYTES + 4 && |file| - TRAILER_BYTES <= k < |file|
    requires Verify(sum, file).Some? && Verify(sum, file[k := b]).Some?
    ensures Tail(file[k := b])[8..] == Tail(file)[8..]
  {
    AcceptedSeal(sum, file);
    AcceptedSeal(sum, file[k := b]);
    SameBody(file, k, b);
  }

  lemma SameBody(file: Bytes, k: nat, b: bv8)
    requires |file| >= TRAILER_BYTES + 4 && |file| - TRAILER_BYTES <= k < |file|
    ensures Body(file[k := b]) == Body(file)
  {
    var n := |file| - TRAILER_BYTES;
    assert file[k := b][..n] == file[..n];
  }

  /** and so they differ in a count. */
  lemma OnlyCounts(sum: Bytes -> bv32, file: Bytes, k: nat, b: bv8)
    requires SeesOneByte(sum) && |file| >= TRAILER_BYTES + 4 && k < |file| && file[k] != b
    requires Verify(sum, file).Some? && Verify(sum, file[k := b]).Some?
    ensures InCounts(file, k)
  {
    BodyIsGuarded(sum, file, k, b);
    SealsEqual(sum, file, k, b);
    if k >= |file| - TRAILER_BYTES + 8 {
      TailByte(file, k);
      TailByte(file[k := b], k);
    }
  }

  /** The counts of a trailer are not negative. */
  predicate CountsOk(bs: Bytes)
    requires |bs| == TRAILER_BYTES
  {
    IntFrom(bs[..4]) >= 0 && IntFrom(bs[4..8]) >= 0
  }

  lemma SameSeal(bs: Bytes, bs': Bytes)
    requires |bs| == |bs'| == TRAILER_BYTES && bs[8..] == bs'[8..] && ParseTrailer(bs).Ok?
    ensures ParseTrailer(bs').Ok? <==> CountsOk(bs')
    ensures ParseTrailer(bs').Ok? ==>
              var t, t' := ParseTrailer(bs).value, ParseTrailer(bs').value; t'.crc == t.crc && t'.total == t.total
  {
    assert bs[4..][4..] == bs[8..] && bs'[4..][4..] == bs'[8..] && bs'[4..][..4] == bs'[4..8];
  }

  lemma CountsChange(sum: Bytes -> bv32, file: Bytes, k: nat, b: bv8)
    requires |file| >= TRAILER_BYTES + 4 && InCounts(file, k) && Verify(sum, file).Some?
    ensures Verify(sum, file[k := b]).Some? <==> CountsOk(Tail(file[k := b]))
  {
    var changed := file[k := b];
    assert Body(changed) == Body(file) && Tail(changed)[8..] == Tail(file)[8..] && changed[..4] == file[..4];
    VerifyParts(sum, file);
    VerifyParts(sum, changed);
    SameSeal(Tail(file), Tail(changed));
  }

  /** A change of one byte of an accepted file is accepted if and only if it is in one of the two counts,
      which nothing guards, and leaves them not negative. */
  lemma SnapshotDamageExactly(file: Bytes, k: nat, b: bv8)
    requires |file| >= TRAILER_BYTES + 4 && Verify(Checksum, file).Some? && k < |file| && file[k] != b
    ensures Verify(Checksum, file[k := b]).Some? <==> InCounts(file, k) && CountsOk(Tail(file[k := b]))
  {
    ChecksumSeesOneByte();
    if Verify(Checksum, file[k := b]).Some? { OnlyCounts(Checksum, file, k, b); }
    if InCounts(file, k) { CountsChange(Checksum, file, k, b); }
  }
}
