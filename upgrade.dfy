/** The node upgrade manager: the list of pending upgrades, written through
    to the "descriptors" slot of its service store after every change. Each
    public operation runs atomically (the mutex only serialises calls). */
module Upgrade {
  import opened Wrappers
  import opened Seqs
  import opened UpgradeApi
  import opened UpgradeSpec

  class UpgradeManager {
    var pending: seq<PendingUpgrade>
    /** The "descriptors" slot of the service store; `None` when absent. */
    var store: Option<seq<PendingUpgrade>>

    function State(): ManagerState
      reads this
    {
      ManagerState(pending, store)
    }

    /** A manager over `store` with nothing loaded yet. */
    constructor (store: Option<seq<PendingUpgrade>>)
      ensures pending == [] && this.store == store
    {
      pending := [];
      this.store := store;
    }

    /** Builds a manager and loads and validates the persisted list; on an
        error no manager is returned. `readOk` and `writeOk` say whether the
        store read and write succeed, `compatible` is the binary
        compatibility check and `reg` the migration handler registry. */
    static method New(store: Option<seq<PendingUpgrade>>, readOk: bool, compatible: Descriptor -> bool,
                      reg: Migrations, writeOk: bool)
      returns (m: UpgradeManager?, err: Option<Error>)
      ensures err == Load(store, readOk, compatible, reg, writeOk).err
      ensures err == None ==> m != null && fresh(m) && m.State() == Load(store, readOk, compatible, reg, writeOk).state
      ensures err != None ==> m == null
    {
      var upgrader := new UpgradeManager(store);
      err := upgrader.CheckStatus(readOk, compatible, reg, writeOk);
      if err != None {
        return null, err;
      }
      return upgrader, None;
    }

    /** Loads the persisted list, checks that every due record can be run by
        this binary, and flushes to drop completed records. */
    method CheckStatus(readOk: bool, compatible: Descriptor -> bool, reg: Migrations, writeOk: bool)
      returns (err: Option<Error>)
      modifies this
      ensures Outcome(State(), err) == Load(old(store), readOk, compatible, reg, writeOk)
    {
      if !readOk {
        pending := [];
        return Some(DecodeFailed);
      }
      match store {
        case None =>
          // An absent key loads as an empty list.
          pending := [];
          return None;
        case Some(s) =>
          pending := s;
      }
      var i := 0;
      while i < |pending|
        invariant 0 <= i <= |pending|
        invariant pending == old(store).value && store == old(store)
        invariant ValidateFrom(pending, i, compatible, reg) == ValidateFrom(pending, 0, compatible, reg)
      {
        var pu := pending[i];
        if pu.IsCompleted() || pu.upgradeHeight == InvalidUpgradeHeight {
          i := i + 1;
          continue;
        }
        if !compatible(pu.descriptor) {
          return Some(IncompatibleBinary);
        }
        if pu.descriptor.name !in reg.handlers {
          return Some(HandlerNotFound);
        }
        i := i + 1;
      }
      err := FlushDescriptorLocked(writeOk);
    }

    /** Writes the list through to the store, dropping completed records. */
    method FlushDescriptorLocked(writeOk: bool) returns (err: Option<Error>)
      modifies this
      ensures Outcome(State(), err) == Flush(old(State()), writeOk)
    {
      if |pending| == 0 {
        // Delete the slot; a missing key counts as success.
        if !writeOk {
          return Some(StoreFailed);
        }
        store := None;
        return None;
      }
      var kept: seq<PendingUpgrade> := [];
      var i := 0;
      while i < |pending|
        invariant 0 <= i <= |pending|
        invariant pending == old(pending) && store == old(store)
        invariant kept == Prune(pending[..i])
      {
        var pu := pending[i];
        assert pending[..i + 1] == pending[..i] + [pu];
        FilterConcat(pending[..i], [pu], NotCompleted);
        if !pu.IsCompleted() {
          kept := kept + [pu];
        }
        i := i + 1;
      }
      assert pending[..i] == pending;
      pending := kept;
      if !writeOk {
        return Some(StoreFailed);
      }
      store := Some(pending);
      return None;
    }

    /** Schedules `descriptor` unless this very object is already pending. */
    method SubmitDescriptor(descriptor: Descriptor, writeOk: bool) returns (err: Option<Error>)
      modifies this
      ensures Outcome(State(), err) == Submit(old(State()), descriptor, writeOk)
    {
      var i := 0;
      while i < |pending|
        invariant 0 <= i <= |pending|
        invariant forall k :: 0 <= k < i ==> pending[k].descriptor != descriptor
      {
        if pending[i].descriptor == descriptor {
          return Some(AlreadyPending);
        }
        i := i + 1;
      }
      pending := pending + [NewRecord(descriptor)];
      err := FlushDescriptorLocked(writeOk);
    }

    method PendingUpgrades() returns (r: seq<PendingUpgrade>)
      ensures r == pending
    {
      r := pending;
    }

    /** Removes every record equal to `descriptor`, unless one of them has
        started; the list is restored if the write fails. */
    method CancelUpgrade(descriptor: Descriptor, writeOk: bool) returns (err: Option<Error>)
      modifies this
      ensures Outcome(State(), err) == Cancel(old(State()), descriptor, writeOk)
    {
      if |pending| == 0 {
        // Even with nothing to cancel, the flush clears the slot.
        err := FlushDescriptorLocked(writeOk);
        return;
      }
      var kept: seq<PendingUpgrade> := [];
      var i := 0;
      while i < |pending|
        invariant 0 <= i <= |pending|
        invariant pending == old(pending) && store == old(store)
        invariant kept == Remaining(pending[..i], descriptor)
        invariant forall k :: 0 <= k < i ==> !(pending[k].descriptor.Equals(descriptor) && Started(pending[k]))
      {
        var pu := pending[i];
        assert pending[..i + 1] == pending[..i] + [pu];
        FilterConcat(pending[..i], [pu], NotMatching(descriptor));
        if !pu.descriptor.Equals(descriptor) {
          kept := kept + [pu];
          i := i + 1;
          continue;
        }
        if pu.upgradeHeight != InvalidUpgradeHeight || pu.HasAnyStages() {
          assert InProgress(pending, descriptor) by {
            assert pending[i].descriptor.Equals(descriptor) && Started(pending[i]);
          }
          return Some(UpgradeInProgress);
        }
        i := i + 1;
      }
      assert pending[..i] == pending;
      var oldPending := pending;
      pending := kept;
      err := FlushDescriptorLocked(writeOk);
      if err != None {
        pending := oldPending;
      }
    }

    /** Runs the startup stage of every record whose height is known and
        whose startup stage has not run; flushes only if all succeed. */
    method StartupUpgrade(reg: Migrations, writeOk: bool) returns (err: Option<Error>)
      modifies this
      ensures Outcome(State(), err) == StartupHook(old(State()), reg, writeOk)
    {
      var i := 0;
      while i < |pending|
        invariant 0 <= i <= |pending|
        invariant store == old(store)
        invariant StartupFrom(pending, i, reg) == StartupFrom(old(pending), 0, reg)
      {
        var pu := pending[i];
        if pu.upgradeHeight == InvalidUpgradeHeight || pu.HasStage(Startup) {
          i := i + 1;
          continue;
        }
        if pu.descriptor.name !in reg.handlers {
          return Some(HandlerNotFound);
        }
        if pu.descriptor.name in reg.failingStartup {
          return Some(StartupStageFailed);
        }
        pending := pending[i := pu.PushStage(Startup)];
        i := i + 1;
      }
      err := FlushDescriptorLocked(writeOk);
    }

    /** The per-block hook at `epoch` and block `height`. The source panics
        when a known upgrade height lies in the future; here that is the
        fatal error UpgradeHeightInFuture. */
    method ConsensusUpgrade(epoch: nat, height: int, reg: Migrations, writeOk: bool) returns (err: Option<Error>)
      modifies this
      ensures Outcome(State(), err) == ConsensusHook(old(State()), epoch, height, reg, writeOk)
    {
      var i := 0;
      while i < |pending|
        invariant 0 <= i <= |pending|
        invariant store == old(store)
        invariant ConsensusFrom(pending, i, epoch, height, reg) == ConsensusFrom(old(pending), 0, epoch, height, reg)
      {
        var pu := pending[i];
        if pu.upgradeHeight == InvalidUpgradeHeight {
          // Not yet at the upgrade epoch: run normally.
          if epoch < pu.descriptor.epoch {
            return None;
          }
          pending := pending[i := pu.(upgradeHeight := Height(height))];
          err := FlushDescriptorLocked(writeOk);
          if err != None {
            return;
          }
          return Some(StopForUpgrade);
        }
        var h := pu.upgradeHeight.height;
        // The trigger height lies behind us: the consensus stage counts as done.
        if h < height {
          pending := pending[i := pu.PushStage(Consensus)];
          i := i + 1;
          continue;
        }
        if h > height {
          return Some(UpgradeHeightInFuture);
        }
        if !pu.HasStage(Consensus) {
          if pu.descriptor.name !in reg.handlers {
            return Some(HandlerNotFound);
          }
          if pu.descriptor.name in reg.failingConsensus {
            return Some(ConsensusStageFailed);
          }
        }
        i := i + 1;
      }
      err := FlushDescriptorLocked(writeOk);
    }

    /** A last flush whose error is ignored; releasing the store is not modelled. */
    method Close(writeOk: bool)
      modifies this
      ensures State() == Flush(old(State()), writeOk).state
    {
      var ignored := FlushDescriptorLocked(writeOk);
    }
  }
}
