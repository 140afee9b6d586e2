/** Entities shared by every module: identifiers, log entries and status codes
    (src/common/model/model.h, src/common/types.h, src/common/status.h). */
module Types {

  datatype Option<+T> = None | Some(value: T)

  type Bytes = seq<bv8>

  datatype ReplicaId = ReplicaId(tableId: int, shardIndex: int, replicaSeq: int)

  datatype Endpoint = Endpoint(ip: Bytes, port: int)

  datatype PeerMember = PeerMember(nodeId: Bytes, replicaId: ReplicaId, endpoint: Endpoint)

  datatype WriteOp = Noop | Put | Del | AddLearner | PromoteVoter | RemoveMember | Cas

  predicate IsConfigChange(op: WriteOp) {
    op.AddLearner? || op.PromoteVoter? || op.RemoveMember?
  }

  predicate IsKvWrite(op: WriteOp) {
    op.Put? || op.Del? || op.Cas?
  }

  /** One Raft log record; `index` is stored in the record, as on disk. */
  datatype LogEntry = LogEntry(
    term: int,
    index: int,
    op: WriteOp,
    key: Bytes,
    value: Bytes,
    expected: Bytes,
    configMember: PeerMember,
    configReplica: ReplicaId,
    requestId: Bytes)

  type Log = seq<LogEntry>

  /** a and b have the same first n entries. */
  ghost predicate Agree(a: Log, b: Log, n: int) {
    && 0 <= n <= |a| && n <= |b|
    && forall j :: 0 <= j < n ==> a[j] == b[j]
  }

  /** What a log becomes when it takes over the first m records of another: unchanged if it holds
      them already (a longer tail is kept), exactly those records otherwise. */
  ghost function Follow(l: Log, led: Log, m: int): Log
    requires 0 <= m <= |led|
  {
    if Agree(led, l, m) then l else led[..m]
  }

  /** The term of the record at a 1-based index of a whole log, 0 where there is none. */
  function TermIn(l: Log, index: int): int {
    if 1 <= index <= |l| then l[index - 1].term else 0
  }

  function Min(a: int, b: int): int { if a <= b then a else b }

  function Max(a: int, b: int): int { if a >= b then a else b }
}
