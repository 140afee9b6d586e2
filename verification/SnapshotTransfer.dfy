/** Sending a snapshot file in chunks and putting it together again
    (src/storage/replica/snapshot_tracker.cpp, src/storage/persist/snapshot_store.cpp,
    src/storage/raft/raft_sender.cpp). */
module SnapshotTransfer {
  import opened Types

  const CHUNK_BYTES := 1024 * 1024

  /** Which snapshot a chunk belongs to. */
  datatype Key = Key(from: ReplicaId, term: int, index: int)

  datatype Chunk = Chunk(key: Key, offset: nat, data: Bytes, done: bool)

  /** A chunk some sender cuts from its file. */
  ghost predicate Genuine(files: Key -> Bytes, c: Chunk) {
    var file := files(c.key);
    c.offset + |c.data| <= |file| && file[c.offset..c.offset + |c.data|] == c.data
    && (c.done <==> c.offset + |c.data| == |file|)
  }

  // ---------------------------------------------------------------- the sender

  /** SnapshotFileReader::read_chunk. */
  method ReadChunk(file: Bytes, offset: nat, max: nat) returns (ok: bool, data: Bytes, eof: bool)
    ensures ok <==> offset <= |file|
    ensures ok ==> offset + |data| <= |file| && data == file[offset..offset + |data|] && |data| <= max
    ensures ok ==> (eof <==> offset + |data| == |file|) && (!eof ==> |data| == max)
  {
    data, eof := [], false;
    ok := offset <= |file|;
    if ok {
      var n := Min(max, |file| - offset);
      data := file[offset..offset + n];
      eof := offset + n >= |file|;
    }
  }

  /** The chunks cover the file from one offset to another, in order. */
  ghost predicate CoversTo(file: Bytes, key: Key, chunks: seq<Chunk>, start: nat, end: nat)
    decreases |chunks|
  {
    if chunks == [] then start == end
    else
      var c := chunks[0];
      && c.key == key && c.offset == start && start + |c.data| <= |file| && c.data == file[start..start + |c.data|]
      && (c.done <==> start + |c.data| == |file|)
      && CoversTo(file, key, chunks[1..], start + |c.data|, end)
  }

  lemma {:induction false} CoversMore(file: Bytes, key: Key, chunks: seq<Chunk>, start: nat, c: Chunk)
    requires c.key == key && CoversTo(file, key, chunks, start, c.offset)
    requires c.offset + |c.data| <= |file| && c.data == file[c.offset..c.offset + |c.data|]
    requires c.done <==> c.offset + |c.data| == |file|
    ensures CoversTo(file, key, chunks + [c], start, c.offset + |c.data|)
    decreases |chunks|
  {
    if chunks == [] {
      assert chunks + [c] == [c] && [c][1..] == [];
    } else {
      assert (chunks + [c])[1..] == chunks[1..] + [c];
      CoversMore(file, key, chunks[1..], start + |chunks[0].data|, c);
    }
  }

  ghost predicate OnlyLastDone(chunks: seq<Chunk>) {
    chunks != [] && forall k :: 0 <= k < |chunks| ==> (chunks[k].done <==> k == |chunks| - 1)
  }

  /** The send loop, with every chunk accepted: it ends, having sent the whole file. */
  method SendSnapshot(file: Bytes, key: Key) returns (sent: seq<Chunk>)
    ensures CoversTo(file, key, sent, 0, |file|) && OnlyLastDone(sent)
  {
    sent := [];
    var offset := 0;
    while true
      invariant offset <= |file| && CoversTo(file, key, sent, 0, offset)
      invariant forall k :: 0 <= k < |sent| ==> !sent[k].done
      decreases |file| - offset
    {
      var _, data, eof := ReadChunk(file, offset, CHUNK_BYTES);
      var c := Chunk(key, offset, data, eof);
      CoversMore(file, key, sent, 0, c);
      sent := sent + [c];
      if eof {
        return;
      }
      offset := offset + |data|;
    }
  }

  // ---------------------------------------------------------------- the receiver

  datatype Session = Session(key: Key, next: nat)

  datatype Reply = Rejected | Covered | Stored | Finished(file: Bytes)

  /** What RaftCore::prepare_install_snapshot says about the sender's request. */
  datatype Prepared = Refused | Accepted(watermark: int)

  class SnapshotReceiver {
    var session: Option<Session>
    // Files of partly received snapshots, named by snapshot index.
    var partial: map<int, Bytes>

    /** The file of the session under way is the sender's file up to the next offset. */
    ghost predicate Valid(files: Key -> Bytes)
      reads this
    {
      session.Some? ==>
        var s := session.value;
        && s.key.index in partial && s.next <= |files(s.key)|
        && partial[s.key.index] == files(s.key)[..s.next]
    }

    constructor (ghost files: Key -> Bytes)
      ensures Valid(files) && session == None
    {
      session, partial := None, map[];
    }

    /** append_snapshot_chunk: a first chunk starts the file over, a later one must fit its end. */
    method AppendChunk(c: Chunk) returns (ok: bool)
      modifies this`partial
      ensures ok <==> c.offset == (if c.offset == 0
              || c.key.index !in old(partial) then 0 else |old(partial)[c.key.index]|)
      ensures ok ==> partial == old(partial)[c.key.index := (if c.offset
              == 0 then [] else old(partial)[c.key.index]) + c.data]
    {
      var current := if c.offset == 0 || c.key.index !in partial then [] else partial[c.key.index];
      ok := |current| == c.offset;
      partial := partial[c.key.index := if ok then current + c.data else current];
    }

    /** Chunks may be lost, repeated, reordered or come from different senders: the invariant stays,
        and a snapshot is only finished with the sender's complete file. */
    method OnChunk(ghost files: Key -> Bytes, prepared: Prepared, c: Chunk) returns (reply: Reply)
      requires Valid(files) && Genuine(files, c)
      modifies this
      ensures Valid(files)
      ensures reply.Finished? || reply.Stored? <==> prepared.Accepted? && prepared.watermark < c.key.index
                                                    && (c.offset == 0 || old(session) == Some(Session(c.key, c.offset)))
      ensures reply.Finished? ==> c.done
      ensures reply.Stored? ==> !c.done
      ensures reply.Finished? ==> reply.file == files(c.key) && session == None
      ensures reply.Stored? ==> session == Some(Session(c.key, c.offset + |c.data|))
      ensures reply.Rejected? ==> session == old(session) && partial == old(partial)
      ensures reply.Covered? ==> session == None && partial == old(partial)
    {
      if prepared.Refused? {
        return Rejected;
      }
      if prepared.watermark >= c.key.index {
        session := None;
        return Covered;
      }
      if c.offset == 0 {
        session := Some(Session(c.key, 0));
      } else if session.None? || session.value != Session(c.key, c.offset) {
        return Rejected;
      }
      var ok := AppendChunk(c);
      if !ok {
        return Rejected;
      }
      session := Some(Session(c.key, c.offset + |c.data|));
      assert partial[c.key.index] == files(c.key)[..c.offset + |c.data|];
      if !c.done {
        return Stored;
      }
      reply := Finished(partial[c.key.index]);
      session := None;
    }
  }

  /** Sender and receiver together, on an undisturbed connection: the receiver ends up with the file. */
  method Transfer(file: Bytes, key: Key, ghost files: Key -> Bytes, receiver: SnapshotReceiver) returns (reply: Reply)
    requires files(key) == file && receiver.Valid(files)
    modifies receiver
    ensures reply == Finished(file) && receiver.Valid(files)
  {
    var sent := SendSnapshot(file, key);
    var start: nat, k := 0, 0;
    reply := Rejected;
    while k < |sent|
      invariant k <= |sent| && start <= |file| && CoversTo(file, key, sent[k..], start, |file|)
      invariant receiver.Valid(files)
      invariant if k == 0 then start == 0
                else if k < |sent| then receiver.session == Some(Session(key, start))
                else reply == Finished(file)
    {
      var c := sent[k];
      assert sent[k..][0] == c && sent[k..][1..] == sent[k + 1..];
      reply := receiver.OnChunk(files, Accepted(key.index - 1), c);
      start, k := start + |c.data|, k + 1;
    }
  }
}
