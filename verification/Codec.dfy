/** The binary format of log records: fields, records and checksummed frames
    (src/common/binary/codec.h, src/common/binary/base.h).

    The functions give the format; the methods of Writer and Reader produce and consume it. */
module Codec {
  import opened Types

  const MAX_PAYLOAD := 64 * 1024 * 1024

  datatype Code = Okay | Eof | Partial | Invalid

  /** A value read from the front of a byte string, or why there is none. */
  datatype Read<+T> = Ok(value: T, rest: Bytes) | Fail(code: Code) {
    predicate IsFailure() { Fail? }

    function PropagateFailure<U>(): Read<U>
      requires Fail?
    {
      Fail(code)
    }

    function Extract(): (T, Bytes)
      requires Ok?
    {
      (value, rest)
    }
  }

  // ---------------------------------------------------------------- fixed-width integers

  function Power(n: nat): nat { if n == 0 then 1 else 256 * Power(n - 1) }

  /** u in n bytes, least significant first. */
  function LittleEndian(u: nat, n: nat): (bs: Bytes)
    ensures |bs| == n
  {
    if n == 0 then [] else [(u % 256) as bv8] + LittleEndian(u / 256, n - 1)
  }

  function ByteValue(b: bv8): nat { b as nat }

  function FromLittleEndian(bs: Bytes): nat {
    if bs == [] then 0 else ByteValue(bs[0]) + 256 * FromLittleEndian(bs[1..])
  }

  predicate InRange(v: int, n: nat) {
    0 <= 2 * v + Power(n) && 2 * v < Power(n)
  }

  function Unsigned(v: int, n: nat): (u: nat)
    requires InRange(v, n)
    ensures u < Power(n)
  {
    if v < 0 then v + Power(n) else v
  }

  /** Two's complement in n bytes. */
  function IntBytes(v: int, n: nat): (bs: Bytes)
    requires InRange(v, n)
    ensures |bs| == n
  {
    LittleEndian(Unsigned(v, n), n)
  }

  function IntFrom(bs: Bytes): int {
    var u := FromLittleEndian(bs);
    if 2 * u >= Power(|bs|) then u - Power(|bs|) else u
  }

  lemma ByteRoundTrip(x: nat)
    requires x < 256
    ensures ByteValue(x as bv8) == x
  {
  }

  lemma {:induction false} LittleEndianRoundTrip(u: nat, n: nat)
    requires u < Power(n)
    ensures FromLittleEndian(LittleEndian(u, n)) == u
  {
    if n > 0 {
      ByteRoundTrip(u % 256);
      LittleEndianRoundTrip(u / 256, n - 1);
    }
  }

  lemma IntRoundTrip(v: int, n: nat)
    requires InRange(v, n)
    ensures IntFrom(IntBytes(v, n)) == v
  {
    LittleEndianRoundTrip(Unsigned(v, n), n);
  }

  // ---------------------------------------------------------------- parsers

  /** read_raw: end of input only at the very start, a partial read if something but not enough is left. */
  function ParseRaw(bs: Bytes, n: nat): Read<Bytes> {
    if n == 0 then Ok([], bs)
    else if bs == [] then Fail(Eof)
    else if |bs| < n then Fail(Partial)
    else Ok(bs[..n], bs[n..])
  }

  function ParseInt(bs: Bytes, n: nat): Read<int> {
    var raw :- ParseRaw(bs, n);
    Ok(IntFrom(raw.0), raw.1)
  }

  function ParseString(bs: Bytes): Read<Bytes> {
    var len :- ParseInt(bs, 4);
    if len.0 < 0 then Fail(Invalid) else ParseRaw(len.1, len.0)
  }

  function OpCode(op: WriteOp): int {
    match op
    case Noop => 0
    case Put => 1
    case Del => 2
    case AddLearner => 3
    case PromoteVoter => 4
    case RemoveMember => 5
    case Cas => 6
  }

  function OpFrom(code: int): Option<WriteOp> {
    if code == 0 then Some(Noop)
    else if code == 1 then Some(Put)
    else if code == 2 then Some(Del)
    else if code == 3 then Some(AddLearner)
    else if code == 4 then Some(PromoteVoter)
    else if code == 5 then Some(RemoveMember)
    else if code == 6 then Some(Cas)
    else None
  }

  function ParseOp(bs: Bytes): Read<WriteOp> {
    var code :- ParseInt(bs, 4);
    if OpFrom(code.0).None? then Fail(Invalid) else Ok(OpFrom(code.0).value, code.1)
  }

  function ParseReplicaId(bs: Bytes): Read<ReplicaId> {
    var table :- ParseInt(bs, 4);
    var shard :- ParseInt(table.1, 4);
    var replica :- ParseInt(shard.1, 4);
    Ok(ReplicaId(table.0, shard.0, replica.0), replica.1)
  }

  function ParseEndpoint(bs: Bytes): Read<Endpoint> {
    var ip :- ParseString(bs);
    var port :- ParseInt(ip.1, 4);
    Ok(Endpoint(ip.0, port.0), port.1)
  }

  function ParsePlace(bs: Bytes): Read<(ReplicaId, Endpoint)> {
    var id :- ParseReplicaId(bs);
    var endpoint :- ParseEndpoint(id.1);
    Ok((id.0, endpoint.0), endpoint.1)
  }

  function ParsePeer(bs: Bytes): Read<PeerMember> {
    var node :- ParseString(bs);
    var place :- ParsePlace(node.1);
    Ok(PeerMember(node.0, place.0.0, place.0.1), place.1)
  }

  /** Term, index and operation. */
  function ParseStamp(bs: Bytes): Read<(int, int, WriteOp)> {
    var term :- ParseInt(bs, 8);
    var index :- ParseInt(term.1, 8);
    var op :- ParseOp(index.1);
    Ok((term.0, index.0, op.0), op.1)
  }

  /** Key, value and expected value. */
  function ParseTexts(bs: Bytes): Read<(Bytes, Bytes, Bytes)> {
    var key :- ParseString(bs);
    var value :- ParseString(key.1);
    var expected :- ParseString(value.1);
    Ok((key.0, value.0, expected.0), expected.1)
  }

  function ParseTarget(bs: Bytes): Read<(ReplicaId, Bytes)> {
    var target :- ParseReplicaId(bs);
    var request :- ParseString(target.1);
    Ok((target.0, request.0), request.1)
  }

  /** Configuration member, configuration target and request id. */
  function ParseTail(bs: Bytes): Read<(PeerMember, (ReplicaId, Bytes))> {
    var member :- ParsePeer(bs);
    var target :- ParseTarget(member.1);
    Ok((member.0, target.0), target.1)
  }

  function ParseContents(bs: Bytes): Read<((Bytes, Bytes, Bytes), (PeerMember, (ReplicaId, Bytes)))> {
    var texts :- ParseTexts(bs);
    var tail :- ParseTail(texts.1);
    Ok((texts.0, tail.0), tail.1)
  }

  function ParseEntry(bs: Bytes): Read<LogEntry> {
    var a :- ParseStamp(bs);
    var b :- ParseContents(a.1);
    var texts, tail := b.0.0, b.0.1;
    Ok(LogEntry(a.0.0, a.0.1, a.0.2, texts.0, texts.1, texts.2, tail.0, tail.1.0, tail.1.1), b.1)
  }

  // ---------------------------------------------------------------- encoders

  predicate FitsString(s: Bytes) { InRange(|s|, 4) }

  predicate FitsId(id: ReplicaId) { InRange(id.tableId, 4) && InRange(id.shardIndex, 4) && InRange(id.replicaSeq, 4) }

  predicate FitsPeer(p: PeerMember) {
    FitsString(p.nodeId) && FitsId(p.replicaId) && FitsString(p.endpoint.ip) && InRange(p.endpoint.port, 4)
  }

  /** The fields fit the widths they have in the source. */
  predicate Fits(e: LogEntry) {
    && InRange(e.term, 8) && InRange(e.index, 8)
    && FitsString(e.key) && FitsString(e.value) && FitsString(e.expected)
    && FitsPeer(e.configMember) && FitsId(e.configReplica) && FitsString(e.requestId)
  }

  function StringBytes(s: Bytes): Bytes
    requires FitsString(s)
  {
    IntBytes(|s|, 4) + s
  }

  function OpBytes(op: WriteOp): Bytes { SmallInRange(OpCode(op)); IntBytes(OpCode(op), 4) }

  function IdBytes(id: ReplicaId): Bytes
    requires FitsId(id)
  {
    IntBytes(id.tableId, 4) + IntBytes(id.shardIndex, 4) + IntBytes(id.replicaSeq, 4)
  }

  function PeerBytes(p: PeerMember): Bytes
    requires FitsPeer(p)
  {
    StringBytes(p.nodeId) + IdBytes(p.replicaId) + StringBytes(p.endpoint.ip) + IntBytes(p.endpoint.port, 4)
  }

  function StampBytes(e: LogEntry): Bytes
    requires Fits(e)
  {
    IntBytes(e.term, 8) + IntBytes(e.index, 8) + OpBytes(e.op)
  }

  function TextsBytes(e: LogEntry): Bytes
    requires Fits(e)
  {
    StringBytes(e.key) + StringBytes(e.value) + StringBytes(e.expected)
  }

  function TailBytes(e: LogEntry): Bytes
    requires Fits(e)
  {
    PeerBytes(e.configMember) + IdBytes(e.configReplica) + StringBytes(e.requestId)
  }

  function EntryBytes(e: LogEntry): Bytes
    requires Fits(e)
  {
    StampBytes(e) + TextsBytes(e) + TailBytes(e)
  }

  lemma SmallInRange(v: int)
    requires 0 <= v < 256
    ensures InRange(v, 4)
  {
    assert Power(4) == 256 * (256 * (256 * (256 * Power(0))));
  }

  // ---------------------------------------------------------------- round trips

  lemma ParseFront(x: Bytes, rest: Bytes)
    requires x != []
    ensures ParseRaw(x + rest, |x|) == Ok(x, rest)
  {
    assert (x + rest)[..|x|] == x && (x + rest)[|x|..] == rest;
  }

  lemma ParseIntBack(v: int, n: nat, rest: Bytes)
    requires InRange(v, n) && n > 0
    ensures ParseInt(IntBytes(v, n) + rest, n) == Ok(v, rest)
  {
    ParseFront(IntBytes(v, n), rest);
    IntRoundTrip(v, n);
  }

  lemma ParseStringBack(s: Bytes, rest: Bytes)
    requires FitsString(s)
    ensures ParseString(StringBytes(s) + rest) == Ok(s, rest)
  {
    assert StringBytes(s) + rest == IntBytes(|s|, 4) + (s + rest);
    ParseIntBack(|s|, 4, s + rest);
    if s == [] {
      assert s + rest == rest;
    } else {
      ParseFront(s, rest);
    }
  }

  lemma ParseOpBack(op: WriteOp, rest: Bytes)
    ensures ParseOp(OpBytes(op) + rest) == Ok(op, rest)
  {
    SmallInRange(OpCode(op));
    ParseOpCode(OpCode(op), op, rest);
  }

  lemma ParseOpCode(code: int, op: WriteOp, rest: Bytes)
    requires InRange(code, 4) && OpFrom(code) == Some(op)
    ensures ParseOp(IntBytes(code, 4) + rest) == Ok(op, rest)
  {
    ParseIntBack(code, 4, rest);
  }

  lemma ParseIdBack(id: ReplicaId, rest: Bytes)
    requires FitsId(id)
    ensures ParseReplicaId(IdBytes(id) + rest) == Ok(id, rest)
  {
    var c := IntBytes(id.replicaSeq, 4) + rest;
    var b := IntBytes(id.shardIndex, 4) + c;
    assert IdBytes(id) + rest == IntBytes(id.tableId, 4) + b;
    ParseIntBack(id.tableId, 4, b);
    ParseIntBack(id.shardIndex, 4, c);
    ParseIntBack(id.replicaSeq, 4, rest);
  }

  lemma ParsePeerBack(p: PeerMember, rest: Bytes)
    requires FitsPeer(p)
    ensures ParsePeer(PeerBytes(p) + rest) == Ok(p, rest)
  {
    var d := IntBytes(p.endpoint.port, 4) + rest;
    var c := StringBytes(p.endpoint.ip) + d;
    var b := IdBytes(p.replicaId) + c;
    assert PeerBytes(p) + rest == StringBytes(p.nodeId) + b;
    ParseStringBack(p.nodeId, b);
    ParseIdBack(p.replicaId, c);
    ParseStringBack(p.endpoint.ip, d);
    ParseIntBack(p.endpoint.port, 4, rest);
  }

  lemma ParseStampBack(e: LogEntry, rest: Bytes)
    requires Fits(e)
    ensures ParseStamp(StampBytes(e) + rest) == Ok((e.term, e.index, e.op), rest)
  {
    var c := OpBytes(e.op) + rest;
    var b := IntBytes(e.index, 8) + c;
    assert StampBytes(e) + rest == IntBytes(e.term, 8) + b;
    ParseIntBack(e.term, 8, b);
    ParseIntBack(e.index, 8, c);
    ParseOpBack(e.op, rest);
  }

  lemma ParseTextsBack(e: LogEntry, rest: Bytes)
    requires Fits(e)
    ensures ParseTexts(TextsBytes(e) + rest) == Ok((e.key, e.value, e.expected), rest)
  {
    var c := StringBytes(e.expected) + rest;
    var b := StringBytes(e.value) + c;
    assert TextsBytes(e) + rest == StringBytes(e.key) + b;
    ParseStringBack(e.key, b);
    ParseStringBack(e.value, c);
    ParseStringBack(e.expected, rest);
  }

  lemma ParseTailBack(e: LogEntry, rest: Bytes)
    requires Fits(e)
    ensures ParseTail(TailBytes(e) + rest) == Ok((e.configMember, (e.configReplica, e.requestId)), rest)
  {
    var c := StringBytes(e.requestId) + rest;
    var b := IdBytes(e.configReplica) + c;
    assert TailBytes(e) + rest == PeerBytes(e.configMember) + b;
    ParsePeerBack(e.configMember, b);
    ParseIdBack(e.configReplica, c);
    ParseStringBack(e.requestId, rest);
  }

  /** Decoding what was encoded gives the record back and leaves what followed it. */
  lemma ParseEntryBack(e: LogEntry, rest: Bytes)
    requires Fits(e)
    ensures ParseEntry(EntryBytes(e) + rest) == Ok(e, rest)
  {
    var b := TailBytes(e) + rest;
    var a := TextsBytes(e) + b;
    assert EntryBytes(e) + rest == StampBytes(e) + a;
    ParseStampBack(e, a);
    ParseTextsBack(e, b);
    ParseTailBack(e, rest);
  }

  // ---------------------------------------------------------------- frames

  /** Length, checksum, payload. */
  function Framed(sum: Bytes -> bv32, payload: Bytes): Bytes
    requires |payload| <= MAX_PAYLOAD
  {
    MaxInRange(|payload|);
    IntBytes(|payload|, 4) + (LittleEndian(sum(payload) as nat, 4) + payload)
  }

  /** A record the framing accepts. */
  predicate Framable(e: LogEntry) { Fits(e) && 0 < |EntryBytes(e)| <= MAX_PAYLOAD }

  /** encode_crc, with None where the source reports an error. */
  function Frame(sum: Bytes -> bv32, e: LogEntry): Option<Bytes>
    requires Fits(e)
  {
    var payload := EntryBytes(e);
    if |payload| == 0 || |payload| > MAX_PAYLOAD then None else Some(Framed(sum, payload))
  }

  lemma MaxInRange(n: nat)
    requires n <= MAX_PAYLOAD
    ensures InRange(n, 4)
  {
    assert Power(4) == 256 * (256 * (256 * (256 * Power(0))));
  }

  lemma WordInRange(w: bv32)
    ensures w as nat < Power(4)
  {
    assert Power(4) == 256 * (256 * (256 * (256 * Power(0))));
  }

  function Whole<T>(r: Read<T>): Read<T> {
    if r == Fail(Eof) then Fail(Partial) else r
  }

  /** Checksum and payload of a frame whose length is known. */
  function ParsePayload(sum: Bytes -> bv32, len: nat, bs: Bytes): Read<Bytes> {
    var stored :- Whole(ParseRaw(bs, 4));
    var payload :- Whole(ParseRaw(stored.1, len));
    if sum(payload.0) as nat != FromLittleEndian(stored.0) then Fail(Invalid) else Ok(payload.0, payload.1)
  }

  /** decode_crc: the end of the input is only clean before a frame begins. */
  function ParseFrame(sum: Bytes -> bv32, bs: Bytes): Read<LogEntry> {
    var payload :- ParseFramed(sum, bs);
    var e := ParseEntry(payload.0);
    if e.Fail? || e.rest != [] then Fail(Invalid) else Ok(e.value, payload.1)
  }

  function ParseFramed(sum: Bytes -> bv32, bs: Bytes): Read<Bytes> {
    var len :- ParseInt(bs, 4);
    if len.0 <= 0 || len.0 > MAX_PAYLOAD then Fail(Invalid) else ParsePayload(sum, len.0, len.1)
  }

  lemma StoredBack(w: bv32)
    ensures FromLittleEndian(LittleEndian(w as nat, 4)) == w as nat
  {
    WordInRange(w);
    LittleEndianRoundTrip(w as nat, 4);
  }

  lemma ParsePayloadBack(sum: Bytes -> bv32, payload: Bytes, stored: Bytes, rest: Bytes)
    requires payload != [] && |stored| == 4 && FromLittleEndian(stored) == sum(payload) as nat
    ensures ParsePayload(sum, |payload|, (stored + payload) + rest) == Ok(payload, rest)
  {
    assert (stored + payload) + rest == stored + (payload + rest);
    ParseFront(stored, payload + rest);
    ParseFront(payload, rest);
  }

  lemma FramedBack(sum: Bytes -> bv32, payload: Bytes, e: LogEntry, rest: Bytes)
    requires 0 < |payload| <= MAX_PAYLOAD && ParseEntry(payload) == Ok(e, [])
    ensures ParseFrame(sum, Framed(sum, payload) + rest) == Ok(e, rest)
  {
    var stored := LittleEndian(sum(payload) as nat, 4);
    MaxInRange(|payload|);
    assert Framed(sum, payload) + rest == IntBytes(|payload|, 4) + ((stored + payload) + rest);
    ParseIntBack(|payload|, 4, (stored + payload) + rest);
    StoredBack(sum(payload));
    ParsePayloadBack(sum, payload, stored, rest);
  }

  /** A frame decodes to its record, whatever follows it and whatever the checksum function is. */
  lemma ParseFrameBack(sum: Bytes -> bv32, e: LogEntry, rest: Bytes)
    requires Framable(e)
    ensures Frame(sum, e).Some? && ParseFrame(sum, Frame(sum, e).value + rest) == Ok(e, rest)
  {
    ParseEntryBack(e, []);
    assert EntryBytes(e) + [] == EntryBytes(e);
    FramedBack(sum, EntryBytes(e), e, rest);
  }

  lemma FramedCut(sum: Bytes -> bv32, payload: Bytes, n: nat)
    requires 0 < |payload| <= MAX_PAYLOAD && n < |Framed(sum, payload)|
    ensures ParseFrame(sum, Framed(sum, payload)[..n]) == Fail(if n == 0 then Eof else Partial)
  {
    MaxInRange(|payload|);
    var stored := LittleEndian(sum(payload) as nat, 4);
    if n >= 4 {
      var more := (stored + payload)[..n - 4];
      assert Framed(sum, payload)[..n] == IntBytes(|payload|, 4) + more;
      ParseIntBack(|payload|, 4, more);
      if n >= 8 {
        assert more == stored + payload[..n - 8];
        ParseFront(stored, payload[..n - 8]);
      }
    }
  }

  /** A frame cut short is recognised as such, and an empty one as the clean end. */
  lemma ParseFrameCut(sum: Bytes -> bv32, e: LogEntry, n: nat)
    requires Framable(e) && Frame(sum, e).Some? && n < |Frame(sum, e).value|
    ensures ParseFrame(sum, Frame(sum, e).value[..n]) == Fail(if n == 0 then Eof else Partial)
  {
    FramedCut(sum, EntryBytes(e), n);
  }

  // ---------------------------------------------------------------- decoding determines the bytes

  lemma ByteBack(b: bv8)
    ensures ByteValue(b) < 256 && (ByteValue(b) as bv8) == b
  {
  }

  lemma DivMod(v: nat, w: nat)
    requires v < 256
    ensures (v + 256 * w) % 256 == v && (v + 256 * w) / 256 == w
  {
  }

  lemma EndianStep(b: bv8, v: nat, rest: Bytes, w: nat)
    requires v < 256 && v as bv8 == b && LittleEndian(w, |rest|) == rest
    ensures LittleEndian(v + 256 * w, |rest| + 1) == [b] + rest
  {
    DivMod(v, w);
  }

  lemma {:induction false} LittleEndianFits(bs: Bytes)
    ensures FromLittleEndian(bs) < Power(|bs|)
    decreases |bs|
  {
    if bs != [] {
      ByteBack(bs[0]);
      LittleEndianFits(bs[1..]);
    }
  }

  lemma {:induction false} LittleEndianBack(bs: Bytes)
    ensures LittleEndian(FromLittleEndian(bs), |bs|) == bs
    decreases |bs|
  {
    if bs != [] {
      ByteBack(bs[0]);
      LittleEndianBack(bs[1..]);
      EndianStep(bs[0], ByteValue(bs[0]), bs[1..], FromLittleEndian(bs[1..]));
      assert [bs[0]] + bs[1..] == bs;
    }
  }

  lemma IntBack(bs: Bytes)
    ensures InRange(IntFrom(bs), |bs|) && IntBytes(IntFrom(bs), |bs|) == bs
  {
    LittleEndianFits(bs);
    LittleEndianBack(bs);
  }

  lemma ParseIntDetermines(bs: Bytes, n: nat)
    requires ParseInt(bs, n).Ok? && n > 0
    ensures var r := ParseInt(bs, n); InRange(r.value, n) && bs == IntBytes(r.value, n) + r.rest
  {
    IntBack(bs[..n]);
  }

  lemma ParseStringDetermines(bs: Bytes)
    requires ParseString(bs).Ok?
    ensures var r := ParseString(bs); FitsString(r.value) && bs == StringBytes(r.value) + r.rest
  {
    ParseIntDetermines(bs, 4);
    var len := ParseInt(bs, 4);
    var r := ParseString(bs);
    assert len.rest == r.value + r.rest && |r.value| == len.value;
    assert IntBytes(len.value, 4) + (r.value + r.rest) == StringBytes(r.value) + r.rest;
  }

  lemma ParseOpDetermines(bs: Bytes)
    requires ParseOp(bs).Ok?
    ensures var r := ParseOp(bs); bs == OpBytes(r.value) + r.rest
  {
    ParseIntDetermines(bs, 4);
    assert OpCode(ParseOp(bs).value) == ParseInt(bs, 4).value;
  }

  lemma ParseIdDetermines(bs: Bytes)
    requires ParseReplicaId(bs).Ok?
    ensures var r := ParseReplicaId(bs); FitsId(r.value) && bs == IdBytes(r.value) + r.rest
  {
    ParseIntDetermines(bs, 4);
    var b := ParseInt(bs, 4).rest;
    ParseIntDetermines(b, 4);
    ParseIntDetermines(ParseInt(b, 4).rest, 4);
    var r := ParseReplicaId(bs);
    Join3(IntBytes(r.value.tableId, 4), IntBytes(r.value.shardIndex, 4), IntBytes(r.value.replicaSeq, 4), r.rest);
  }

  lemma ParsePeerDetermines(bs: Bytes)
    requires ParsePeer(bs).Ok?
    ensures var r := ParsePeer(bs); FitsPeer(r.value) && bs == PeerBytes(r.value) + r.rest
  {
    var r := ParsePeer(bs);
    ParseStringDetermines(bs);
    var b := ParseString(bs).rest;
    ParseIdDetermines(b);
    var c := ParseReplicaId(b).rest;
    ParseStringDetermines(c);
    ParseIntDetermines(ParseString(c).rest, 4);
    var p := r.value;
    Join4(StringBytes(p.nodeId), IdBytes(p.replicaId), StringBytes(p.endpoint.ip), IntBytes(p.endpoint.port, 4),
      r.rest);
  }

  lemma Join4(a: Bytes, b: Bytes, c: Bytes, d: Bytes, rest: Bytes)
    ensures a + (b + (c + (d + rest))) == (((a + b) + c) + d) + rest
  {
  }

  lemma Reassociated(a: Bytes, b: Bytes, rest: Bytes)
    ensures a + (b + rest) == (a + b) + rest
  {
  }

  lemma Join3(a: Bytes, b: Bytes, c: Bytes, rest: Bytes)
    ensures a + (b + (c + rest)) == ((a + b) + c) + rest
  {
  }

  lemma ParseStampDetermines(bs: Bytes, e: LogEntry)
    requires ParseStamp(bs).Ok? && ParseStamp(bs).value == (e.term, e.index, e.op)
    ensures InRange(e.term, 8) && InRange(e.index, 8)
    ensures bs == IntBytes(e.term, 8) + IntBytes(e.index, 8) + OpBytes(e.op) + ParseStamp(bs).rest
  {
    ParseIntDetermines(bs, 8);
    var b := ParseInt(bs, 8).rest;
    ParseIntDetermines(b, 8);
    ParseOpDetermines(ParseInt(b, 8).rest);
    Join3(IntBytes(e.term, 8), IntBytes(e.index, 8), OpBytes(e.op), ParseStamp(bs).rest);
  }

  lemma ParseTextsDetermines(bs: Bytes, e: LogEntry)
    requires ParseTexts(bs).Ok? && ParseTexts(bs).value == (e.key, e.value, e.expected)
    ensures FitsString(e.key) && FitsString(e.value) && FitsString(e.expected)
    ensures bs == StringBytes(e.key) + StringBytes(e.value) + StringBytes(e.expected) + ParseTexts(bs).rest
  {
    ParseStringDetermines(bs);
    var b := ParseString(bs).rest;
    ParseStringDetermines(b);
    ParseStringDetermines(ParseString(b).rest);
    Join3(StringBytes(e.key), StringBytes(e.value), StringBytes(e.expected), ParseTexts(bs).rest);
  }

  lemma ParseTailDetermines(bs: Bytes, e: LogEntry)
    requires ParseTail(bs).Ok? && ParseTail(bs).value == (e.configMember, (e.configReplica, e.requestId))
    ensures FitsPeer(e.configMember) && FitsId(e.configReplica) && FitsString(e.requestId)
    ensures bs == PeerBytes(e.configMember) + IdBytes(e.configReplica) + StringBytes(e.requestId) + ParseTail(bs).rest
  {
    ParsePeerDetermines(bs);
    var b := ParsePeer(bs).rest;
    ParseIdDetermines(b);
    ParseStringDetermines(ParseReplicaId(b).rest);
    Join3(PeerBytes(e.configMember), IdBytes(e.configReplica), StringBytes(e.requestId), ParseTail(bs).rest);
  }

  /** Only the encoding of a record decodes to it. */
  lemma ParseEntryDetermines(bs: Bytes)
    requires ParseEntry(bs).Ok?
    ensures var r := ParseEntry(bs); Fits(r.value) && bs == EntryBytes(r.value) + r.rest
  {
    var e := ParseEntry(bs).value;
    ParseStampDetermines(bs, e);
    var b := ParseStamp(bs).rest;
    ParseTextsDetermines(b, e);
    ParseTailDetermines(ParseTexts(b).rest, e);
    Join3(StampBytes(e), TextsBytes(e), TailBytes(e), ParseEntry(bs).rest);
  }

  /** Only the frame of a record, checksum included, decodes to it. */
  lemma ParseFrameDetermines(sum: Bytes -> bv32, bs: Bytes)
    requires ParseFrame(sum, bs).Ok?
    ensures var r := ParseFrame(sum, bs);
            && Framable(r.value) && Frame(sum, r.value).Some? && bs == Frame(sum, r.value).value + r.rest
            && |r.rest| < |bs|
  {
    var payload := ParseFramed(sum, bs).value;
    FramedDetermines(sum, bs);
    EntryFills(payload);
    FrameIs(sum, ParseFrame(sum, bs).value, payload, ParseFrame(sum, bs).rest);
  }

  lemma EntryFills(payload: Bytes)
    requires ParseEntry(payload).Ok? && ParseEntry(payload).rest == []
    ensures Fits(ParseEntry(payload).value) && EntryBytes(ParseEntry(payload).value) == payload
  {
    ParseEntryDetermines(payload);
    assert payload == EntryBytes(ParseEntry(payload).value) + [];
  }

  lemma FrameIs(sum: Bytes -> bv32, e: LogEntry, payload: Bytes, rest: Bytes)
    requires Fits(e) && EntryBytes(e) == payload && 0 < |payload| <= MAX_PAYLOAD
    ensures Framable(e) && Frame(sum, e) == Some(Framed(sum, payload))
    ensures |rest| < |Framed(sum, payload) + rest|
  {
  }

  /** The stored checksum is the payload's. */
  lemma PayloadDetermines(sum: Bytes -> bv32, len: nat, bs: Bytes)
    requires ParsePayload(sum, len, bs).Ok? && len > 0
    ensures var r := ParsePayload(sum, len, bs);
            |r.value| == len && bs == (LittleEndian(sum(r.value) as nat, 4) + r.value) + r.rest
  {
    var r := ParsePayload(sum, len, bs);
    LittleEndianBack(bs[..4]);
    assert bs == (bs[..4] + r.value) + r.rest;
  }

  lemma FramedDetermines(sum: Bytes -> bv32, bs: Bytes)
    requires ParseFramed(sum, bs).Ok?
    ensures var r := ParseFramed(sum, bs); 0 < |r.value| <= MAX_PAYLOAD && bs == Framed(sum, r.value) + r.rest
  {
    var r := ParseFramed(sum, bs);
    ParseIntDetermines(bs, 4);
    var len := ParseInt(bs, 4);
    PayloadDetermines(sum, len.value, len.rest);
    var stored := LittleEndian(sum(r.value) as nat, 4);
    Reassociated(IntBytes(len.value, 4), stored + r.value, r.rest);
  }
}
