/** The snapshot file: a body with a checksummed trailer, and its verification
    (src/storage/persist/snapshot_store.cpp). */
module SnapshotFile {
  import opened Types
  import opened Codec
  import opened Crc
  import opened Streams

  const MAGIC := 0x4B534850
  const TRAILER_BYTES := 24
  const VERIFY_BUFFER := 64 * 1024

  function Seal(crc: bv32, total: int): Bytes
    requires InRange(total, 8)
  {
    MagicInRange();
    LittleEndian(crc as nat, 4) + (IntBytes(total, 8) + IntBytes(MAGIC, 4))
  }

  /** The trailer a body of this checksum and a file of this length get. */
  function Trailer(kvs: int, requests: int, crc: bv32, total: int): (bs: Bytes)
    requires InRange(kvs, 4) && InRange(requests, 4) && InRange(total, 8)
    ensures |bs| == TRAILER_BYTES
  {
    IntBytes(kvs, 4) + (IntBytes(requests, 4) + Seal(crc, total))
  }

  lemma MagicInRange()
    ensures InRange(MAGIC, 4)
  {
    assert Power(4) == 256 * (256 * (256 * (256 * Power(0))));
  }

  datatype Counts = Counts(kvs: int, requests: int, crc: nat, total: int)

  /** Checksum and length, closed by the magic number. */
  function ParseSeal(bs: Bytes): Read<(nat, int)> {
    var crc :- ParseRaw(bs, 4);
    var total :- ParseInt(crc.1, 8);
    var magic :- ParseInt(total.1, 4);
    if magic.0 != MAGIC then Fail(Invalid) else Ok((FromLittleEndian(crc.0), total.0), magic.1)
  }

  /** read_snapshot_trailer. */
  function ParseTrailer(bs: Bytes): Read<Counts> {
    var kvs :- ParseInt(bs, 4);
    var requests :- ParseInt(kvs.1, 4);
    var seal :- ParseSeal(requests.1);
    if kvs.0 < 0 || requests.0 < 0 then Fail(Invalid)
    else Ok(Counts(kvs.0, requests.0, seal.0.0, seal.0.1), seal.1)
  }

  /** What the checksum covers: the bytes before the trailer, and at least the magic number. */
  function Body(file: Bytes): Bytes
    requires |file| > TRAILER_BYTES
  {
    file[..Max(4, |file| - TRAILER_BYTES)]
  }

  /** verify_snapshot_file: the counts of an intact file. */
  function Verify(sum: Bytes -> bv32, file: Bytes): Option<(int, int)> {
    if |file| <= TRAILER_BYTES then None
    else
      var t := ParseTrailer(file[|file| - TRAILER_BYTES..]);
      var head := ParseInt(file, 4);
      if t.Fail? || t.value.total != |file| || head.Fail? || head.value != MAGIC
         || sum(Body(file)) as nat != t.value.crc then None
      else Some((t.value.kvs, t.value.requests))
  }

  lemma ParseSealBack(stored: Bytes, crc: nat, total: int)
    requires |stored| == 4 && FromLittleEndian(stored) == crc && InRange(total, 8) && InRange(MAGIC, 4)
    ensures ParseSeal(stored + (IntBytes(total, 8) + IntBytes(MAGIC, 4))) == Ok((crc, total), [])
  {
    var d := IntBytes(MAGIC, 4);
    assert d + [] == d;
    ParseFront(stored, IntBytes(total, 8) + d);
    ParseIntBack(total, 8, d);
    ParseIntBack(MAGIC, 4, []);
  }

  lemma ParseTrailerBack(kvs: int, requests: int, seal: Bytes, crc: nat, total: int)
    requires InRange(kvs, 4) && InRange(requests, 4) && 0 <= kvs && 0 <= requests
    requires ParseSeal(seal) == Ok((crc, total), [])
    ensures ParseTrailer(IntBytes(kvs, 4) + (IntBytes(requests, 4) + seal)) == Ok(Counts(kvs, requests, crc, total), [])
  {
    ParseIntBack(kvs, 4, IntBytes(requests, 4) + seal);
    ParseIntBack(requests, 4, seal);
  }

  lemma TrailerBack(kvs: int, requests: int, crc: bv32, total: int)
    requires InRange(kvs, 4) && InRange(requests, 4) && InRange(total, 8) && 0 <= kvs && 0 <= requests
    ensures ParseTrailer(Trailer(kvs, requests, crc, total)) == Ok(Counts(kvs, requests, crc as nat, total), [])
  {
    MagicInRange();
    StoredBack(crc);
    ParseSealBack(LittleEndian(crc as nat, 4), crc as nat, total);
    ParseTrailerBack(kvs, requests, Seal(crc, total), crc as nat, total);
  }

  lemma Accepts(sum: Bytes -> bv32, body: Bytes, trailer: Bytes, t: Counts)
    requires |trailer| == TRAILER_BYTES && ParseTrailer(trailer) == Ok(t, []) && |body| >= 4
    requires ParseInt(body + trailer, 4).Ok? && ParseInt(body + trailer, 4).value == MAGIC
    requires t.total == |body| + TRAILER_BYTES && t.crc == sum(body) as nat
    ensures Verify(sum, body + trailer) == Some((t.kvs, t.requests))
  {
    var file := body + trailer;
    assert file[|file| - TRAILER_BYTES..] == trailer && Body(file) == body;
  }

  lemma HeadMagic(body: Bytes, rest: Bytes)
    requires InRange(MAGIC, 4) && IntBytes(MAGIC, 4) <= body
    ensures ParseInt(body + rest, 4) == Ok(MAGIC, (body + rest)[4..])
  {
    var file := body + rest;
    assert file == IntBytes(MAGIC, 4) + file[4..];
    ParseIntBack(MAGIC, 4, file[4..]);
  }

  /** The verifier accepts every file the writer produces, for any checksum and any body that starts
      with the magic number. */
  lemma WriterIsAccepted(sum: Bytes -> bv32, body: Bytes, kvs: int, requests: int)
    requires InRange(kvs, 4) && InRange(requests, 4) && 0 <= kvs && 0 <= requests
    requires InRange(|body| + TRAILER_BYTES, 8) && InRange(MAGIC, 4) && IntBytes(MAGIC, 4) <= body
    ensures Verify(sum, body + Trailer(kvs, requests, sum(body), |body| + TRAILER_BYTES)) == Some((kvs, requests))
  {
    var total := |body| + TRAILER_BYTES;
    TrailerBack(kvs, requests, sum(body), total);
    HeadMagic(body, Trailer(kvs, requests, sum(body), total));
    Accepts(sum, body, Trailer(kvs, requests, sum(body), total), Counts(kvs, requests, sum(body) as nat, total));
  }

  // ---------------------------------------------------------------- writing and verifying

  function Concat(pieces: seq<Bytes>): Bytes {
    if pieces == [] then [] else Concat(pieces[..|pieces| - 1]) + pieces[|pieces| - 1]
  }

  /** write_snapshot_to_file: the encoded parts of the body one after the other, then the trailer. */
  method WriteSnapshot(pieces: seq<Bytes>, kvs: int, requests: int) returns (file: Bytes)
    requires InRange(kvs, 4) && InRange(requests, 4) && InRange(|Concat(pieces)| + TRAILER_BYTES, 8)
    ensures var body := Concat(pieces);
            file == body + Trailer(kvs, requests, Checksum(body), |body| + TRAILER_BYTES)
  {
    var w := new ChecksumWriter();
    for k := 0 to |pieces|
      invariant w.Valid() && w.buf == Concat(pieces[..k])
    {
      assert pieces[..k + 1][..k] == pieces[..k];
      w.WriteRaw(pieces[k]);
    }
    assert pieces[..|pieces|] == pieces;
    file := w.buf + Trailer(kvs, requests, w.crc, |w.buf| + TRAILER_BYTES);
  }

  method ExtendChecksum(tab: array<bv32>, crc: bv32, ghost before: Bytes, data: Bytes) returns (r: bv32)
    requires IsTable(tab[..]) && crc == Checksum(before)
    ensures r == Checksum(before + data)
  {
    r := UpdateCrc32(tab, crc, data);
    CrcInPieces(0, before, data);
  }

  /** The checksum of a body, buffer by buffer. */
  method BodyChecksum(tab: array<bv32>, file: Bytes, size: nat) returns (crc: bv32)
    requires IsTable(tab[..]) && 4 <= size <= |file|
    ensures crc == Checksum(file[..size])
  {
    crc := UpdateCrc32(tab, 0, file[..4]);
    var done := 4;
    while done < size
      invariant 4 <= done <= size && crc == Checksum(file[..done])
    {
      var want := Min(VERIFY_BUFFER, size - done);
      crc := ExtendChecksum(tab, crc, file[..done], file[done..done + want]);
      assert file[..done] + file[done..done + want] == file[..done + want];
      done := done + want;
    }
  }

  method VerifySnapshotFile(tab: array<bv32>, file: Bytes) returns (counts: Option<(int, int)>)
    requires IsTable(tab[..])
    ensures counts == Verify(Checksum, file)
  {
    if |file| <= TRAILER_BYTES {
      return None;
    }
    var t := ParseTrailer(file[|file| - TRAILER_BYTES..]);
    if t.Fail? || t.value.total != |file| {
      return None;
    }
    var head := ParseInt(file, 4);
    if head.Fail? || head.value != MAGIC {
      return None;
    }
    var crc := BodyChecksum(tab, file, Max(4, |file| - TRAILER_BYTES));
    counts := if crc as nat != t.value.crc then None else Some((t.value.kvs, t.value.requests));
  }
}
