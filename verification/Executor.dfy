/** Carrying out a step's effects: everything is on disk before anything is sent
    (src/storage/replica/raft_step.cpp). */
module Executor {
  import opened Types
  import opened Replica
  import opened Election
  import opened Core

  /** Which write of a step fails, if any. */
  datatype Fault = NoFault | HardStateFails | LogFails

  function AfterHardState(d: Disk, fx: Effects): Disk {
    if fx.hardState.Some? then d.(hard := fx.hardState.value) else d
  }

  class RaftEffectExecutor {
    var disk: Disk
    var sent: set<Message>

    constructor (disk: Disk)
      ensures this.disk == disk && sent == {}
    {
      this.disk, sent := disk, {};
    }

    /** persist_effects: the term and vote first, then the log; a failed write leaves what came before. */
    method PersistEffects(fx: Effects, fault: Fault) returns (ok: bool)
      modifies this`disk
      ensures ok ==> Persist(old(disk), fx) == Some(disk)
      ensures !ok ==> disk == old(disk) || disk == AfterHardState(old(disk), fx)
      ensures fault.NoFault? ==> (ok <==> Persist(old(disk), fx).Some?)
    {
      if fx.toRewrite.Some? && fx.toAppend != [] {
        return false;
      }
      if fx.hardState.Some? {
        if fault.HardStateFails? {
          return false;
        }
        disk := disk.(hard := fx.hardState.value);
      }
      if fx.toRewrite.Some? {
        if fault.LogFails? {
          return false;
        }
        disk := disk.(wal := fx.toRewrite.value);
      }
      if fx.toAppend != [] {
        if fault.LogFails? {
          return false;
        }
        disk := disk.(wal := disk.wal + fx.toAppend);
      }
      assert disk.wal + [] == disk.wal;
      ok := true;
    }

    /** execute, for a step from one state to another: if its messages leave, the disk can reproduce
        the state that sent them; if they do not, nothing has been promised. */
    method Execute(ghost before: State, ghost after: State, fx: Effects, succeeds: bool, fault: Fault)
      returns (ok: bool)
      requires disk == Durable(before) && Saves(before, after, fx)
      modifies this
      ensures sent == old(sent) + if ok then fx.messages else {}
      ensures ok ==> disk == Durable(after)
      ensures succeeds && fault.NoFault? ==> ok
    {
      ok := PersistEffects(fx, fault);
      if !ok || !succeeds {
        return false;
      }
      sent := sent + fx.messages;
    }
  }
}
