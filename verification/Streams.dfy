/** The objects that write and read the binary format: a writer with a running checksum, a reader
    with a position, and the frame codec on top of them
    (src/common/binary/base.h, src/common/binary/codec.h). */
module Streams {
  import opened Types
  import opened Codec
  import opened Crc

  /** ChecksumWriter: passes bytes on and keeps their checksum. */
  class ChecksumWriter {
    const tab: array<bv32>
    var buf: Bytes
    var crc: bv32

    /** The running checksum is that of everything written so far, in however many pieces. */
    ghost predicate Valid()
      reads this, tab
    {
      IsTable(tab[..]) && crc == Checksum(buf)
    }

    constructor ()
      ensures Valid() && buf == [] && fresh(tab)
    {
      var t := BuildTable();
      tab := t;
      buf, crc := [], 0;
      new;
      EmptyChecksum();
    }

    method WriteRaw(data: Bytes)
      requires Valid()
      modifies this
      ensures Valid() && buf == old(buf) + data
    {
      var next := UpdateCrc32(tab, crc, data);
      CrcInPieces(0, buf, data);
      buf, crc := buf + data, next;
    }
  }

  lemma EmptyChecksum()
    ensures Checksum([]) == 0
  {
  }

  /** BufferWriter and the encoders that append to it. */
  class Writer {
    var buf: Bytes

    constructor ()
      ensures buf == []
    {
      buf := [];
    }

    method WriteRaw(data: Bytes)
      modifies this
      ensures buf == old(buf) + data
    {
      buf := buf + data;
    }

    method WriteInt(v: int, n: nat)
      requires InRange(v, n)
      modifies this
      ensures buf == old(buf) + IntBytes(v, n)
    {
      WriteRaw(IntBytes(v, n));
    }

    method WriteString(s: Bytes)
      requires FitsString(s)
      modifies this
      ensures buf == old(buf) + StringBytes(s)
    {
      WriteInt(|s|, 4);
      if s != [] { WriteRaw(s); }
    }

    method WriteId(id: ReplicaId)
      requires FitsId(id)
      modifies this
      ensures buf == old(buf) + IdBytes(id)
    {
      WriteInt(id.tableId, 4);
      WriteInt(id.shardIndex, 4);
      WriteInt(id.replicaSeq, 4);
    }

    method WritePeer(p: PeerMember)
      requires FitsPeer(p)
      modifies this
      ensures buf == old(buf) + PeerBytes(p)
    {
      WriteString(p.nodeId);
      WriteId(p.replicaId);
      WriteString(p.endpoint.ip);
      WriteInt(p.endpoint.port, 4);
    }

    method WriteStamp(e: LogEntry)
      requires Fits(e)
      modifies this
      ensures buf == old(buf) + StampBytes(e)
    {
      SmallInRange(OpCode(e.op));
      WriteInt(e.term, 8);
      WriteInt(e.index, 8);
      WriteInt(OpCode(e.op), 4);
      Appended3(old(buf), IntBytes(e.term, 8), IntBytes(e.index, 8), OpBytes(e.op));
    }

    method WriteTexts(e: LogEntry)
      requires Fits(e)
      modifies this
      ensures buf == old(buf) + TextsBytes(e)
    {
      WriteString(e.key);
      WriteString(e.value);
      WriteString(e.expected);
    }

    method WriteTail(e: LogEntry)
      requires Fits(e)
      modifies this
      ensures buf == old(buf) + TailBytes(e)
    {
      WritePeer(e.configMember);
      WriteId(e.configReplica);
      WriteString(e.requestId);
    }

    method WriteEntry(e: LogEntry)
      requires Fits(e)
      modifies this
      ensures buf == old(buf) + EntryBytes(e)
    {
      WriteStamp(e);
      WriteTexts(e);
      WriteTail(e);
      Appended3(old(buf), StampBytes(e), TextsBytes(e), TailBytes(e));
    }
  }

  lemma Appended3(buf: Bytes, a: Bytes, b: Bytes, c: Bytes)
    ensures ((buf + a) + b) + c == buf + (a + b + c)
  {
  }

  /** BufferReader and the decoders that advance it; a result carries what is left unread. */
  class Reader {
    const data: Bytes
    var pos: nat

    ghost predicate Valid()
      reads this
    {
      pos <= |data|
    }

    function Rest(): Bytes
      requires Valid()
      reads this
    {
      data[pos..]
    }

    constructor (data: Bytes)
      ensures Valid() && this.data == data && Rest() == data
    {
      this.data := data;
      pos := 0;
    }

    method ReadRaw(n: nat) returns (r: Read<Bytes>)
      requires Valid()
      modifies this
      ensures Valid() && r == ParseRaw(old(Rest()), n) && (r.Ok? ==> r.rest == Rest())
    {
      if n == 0 {
        return Ok([], Rest());
      }
      var remaining := |data| - pos;
      if remaining == 0 {
        return Fail(Eof);
      }
      var count := Min(n, remaining);
      assert n <= remaining ==> data[pos..][..n] == data[pos..pos + n] && data[pos..][n..] == data[pos + n..];
      var bytes := data[pos..pos + count];
      pos := pos + count;
      r := if count < n then Fail(Partial) else Ok(bytes, Rest());
    }

    method ReadInt(n: nat) returns (r: Read<int>)
      requires Valid()
      modifies this
      ensures Valid() && r == ParseInt(old(Rest()), n) && (r.Ok? ==> r.rest == Rest())
    {
      var raw :- ReadRaw(n);
      r := Ok(IntFrom(raw.0), raw.1);
    }

    method ReadString() returns (r: Read<Bytes>)
      requires Valid()
      modifies this
      ensures Valid() && r == ParseString(old(Rest())) && (r.Ok? ==> r.rest == Rest())
    {
      var len :- ReadInt(4);
      if len.0 < 0 {
        return Fail(Invalid);
      }
      r := ReadRaw(len.0);
    }

    method ReadOp() returns (r: Read<WriteOp>)
      requires Valid()
      modifies this
      ensures Valid() && r == ParseOp(old(Rest())) && (r.Ok? ==> r.rest == Rest())
    {
      var code :- ReadInt(4);
      if OpFrom(code.0).None? {
        return Fail(Invalid);
      }
      r := Ok(OpFrom(code.0).value, code.1);
    }

    method ReadId() returns (r: Read<ReplicaId>)
      requires Valid()
      modifies this
      ensures Valid() && r == ParseReplicaId(old(Rest())) && (r.Ok? ==> r.rest == Rest())
    {
      var table :- ReadInt(4);
      var shard :- ReadInt(4);
      var replica :- ReadInt(4);
      r := Ok(ReplicaId(table.0, shard.0, replica.0), replica.1);
    }

    method ReadEndpoint() returns (r: Read<Endpoint>)
      requires Valid()
      modifies this
      ensures Valid() && r == ParseEndpoint(old(Rest())) && (r.Ok? ==> r.rest == Rest())
    {
      var ip :- ReadString();
      var port :- ReadInt(4);
      r := Ok(Endpoint(ip.0, port.0), port.1);
    }

    method ReadPlace() returns (r: Read<(ReplicaId, Endpoint)>)
      requires Valid()
      modifies this
      ensures Valid() && r == ParsePlace(old(Rest())) && (r.Ok? ==> r.rest == Rest())
    {
      var id :- ReadId();
      var endpoint :- ReadEndpoint();
      r := Ok((id.0, endpoint.0), endpoint.1);
    }

    method ReadPeer() returns (r: Read<PeerMember>)
      requires Valid()
      modifies this
      ensures Valid() && r == ParsePeer(old(Rest())) && (r.Ok? ==> r.rest == Rest())
    {
      var node :- ReadString();
      var place :- ReadPlace();
      r := Ok(PeerMember(node.0, place.0.0, place.0.1), place.1);
    }

    method ReadStamp() returns (r: Read<(int, int, WriteOp)>)
      requires Valid()
      modifies this
      ensures Valid() && r == ParseStamp(old(Rest())) && (r.Ok? ==> r.rest == Rest())
    {
      var term :- ReadInt(8);
      var index :- ReadInt(8);
      var op :- ReadOp();
      r := Ok((term.0, index.0, op.0), op.1);
    }

    method ReadTexts() returns (r: Read<(Bytes, Bytes, Bytes)>)
      requires Valid()
      modifies this
      ensures Valid() && r == ParseTexts(old(Rest())) && (r.Ok? ==> r.rest == Rest())
    {
      var key :- ReadString();
      var value :- ReadString();
      var expected :- ReadString();
      r := Ok((key.0, value.0, expected.0), expected.1);
    }

    method ReadTarget() returns (r: Read<(ReplicaId, Bytes)>)
      requires Valid()
      modifies this
      ensures Valid() && r == ParseTarget(old(Rest())) && (r.Ok? ==> r.rest == Rest())
    {
      var target :- ReadId();
      var request :- ReadString();
      r := Ok((target.0, request.0), request.1);
    }

    method ReadTail() returns (r: Read<(PeerMember, (ReplicaId, Bytes))>)
      requires Valid()
      modifies this
      ensures Valid() && r == ParseTail(old(Rest())) && (r.Ok? ==> r.rest == Rest())
    {
      var member :- ReadPeer();
      var target :- ReadTarget();
      r := Ok((member.0, target.0), target.1);
    }

    method ReadContents() returns (r: Read<((Bytes, Bytes, Bytes), (PeerMember, (ReplicaId, Bytes)))>)
      requires Valid()
      modifies this
      ensures Valid() && r == ParseContents(old(Rest())) && (r.Ok? ==> r.rest == Rest())
    {
      var texts :- ReadTexts();
      var tail :- ReadTail();
      r := Ok((texts.0, tail.0), tail.1);
    }

    method ReadEntry() returns (r: Read<LogEntry>)
      requires Valid()
      modifies this
      ensures Valid() && r == ParseEntry(old(Rest())) && (r.Ok? ==> r.rest == Rest())
    {
      var a :- ReadStamp();
      var b :- ReadContents();
      var texts, tail := b.0.0, b.0.1;
      r := Ok(LogEntry(a.0.0, a.0.1, a.0.2, texts.0, texts.1, texts.2, tail.0, tail.1.0, tail.1.1), b.1);
    }

    /** decode_crc: checksum and payload after the length. */
    method ReadPayload(tab: array<bv32>, len: nat) returns (r: Read<Bytes>)
      requires Valid() && IsTable(tab[..])
      modifies this
      ensures Valid() && r == ParsePayload(Checksum, len, old(Rest())) && (r.Ok? ==> r.rest == Rest())
    {
      var first := ReadRaw(4);
      var stored :- Whole(first);
      var second := ReadRaw(len);
      var payload :- Whole(second);
      var crc := UpdateCrc32(tab, 0, payload.0);
      r := if crc as nat != FromLittleEndian(stored.0) then Fail(Invalid) else Ok(payload.0, payload.1);
    }

    method ReadFramed(tab: array<bv32>) returns (r: Read<Bytes>)
      requires Valid() && IsTable(tab[..])
      modifies this
      ensures Valid() && r == ParseFramed(Checksum, old(Rest())) && (r.Ok? ==> r.rest == Rest())
    {
      var len :- ReadInt(4);
      if len.0 <= 0 || len.0 > MAX_PAYLOAD {
        return Fail(Invalid);
      }
      r := ReadPayload(tab, len.0);
    }

    /** decode_crc: the payload must be exactly one record. */
    method ReadFrame(tab: array<bv32>) returns (r: Read<LogEntry>)
      requires Valid() && IsTable(tab[..])
      modifies this
      ensures Valid() && r == ParseFrame(Checksum, old(Rest())) && (r.Ok? ==> r.rest == Rest())
    {
      var payload :- ReadFramed(tab);
      var inner := new Reader(payload.0);
      var e := inner.ReadEntry();
      r := if e.Fail? || e.rest != [] then Fail(Invalid) else Ok(e.value, payload.1);
    }
  }

  /** encode_crc. */
  method EncodeFrame(tab: array<bv32>, e: LogEntry) returns (frame: Option<Bytes>)
    requires IsTable(tab[..]) && Fits(e)
    ensures frame == Frame(Checksum, e)
  {
    var payload := new Writer();
    payload.WriteEntry(e);
    assert payload.buf == EntryBytes(e);
    if |payload.buf| == 0 || |payload.buf| > MAX_PAYLOAD {
      return None;
    }
    var bytes := FrameAround(tab, payload.buf);
    frame := Some(bytes);
  }

  method FrameAround(tab: array<bv32>, payload: Bytes) returns (frame: Bytes)
    requires IsTable(tab[..]) && |payload| <= MAX_PAYLOAD
    ensures frame == Framed(Checksum, payload)
  {
    var crc := UpdateCrc32(tab, 0, payload);
    MaxInRange(|payload|);
    frame := IntBytes(|payload|, 4) + (LittleEndian(crc as nat, 4) + payload);
  }
}
