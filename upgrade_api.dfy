/** The types the upgrade manager works on: descriptors, pending-upgrade
    records, stages, errors and the migration handler registry. */
module UpgradeApi {
  import opened Wrappers

  /** An upgrade descriptor: the name of the migration handler to run and
      the epoch at which the upgrade takes effect. It is a reference, so
      `==` is pointer identity (what SubmitDescriptor compares) and `Equals`
      is value equality (what CancelUpgrade compares). */
  class Descriptor {
    const name: string
    const epoch: nat

    constructor (name: string, epoch: nat)
      ensures this.name == name && this.epoch == epoch
    {
      this.name := name;
      this.epoch := epoch;
    }

    /** Value equality: same handler name and same target epoch. */
    predicate Equals(other: Descriptor) {
      name == other.name && epoch == other.epoch
    }
  }

  /** Upgrade stages a record can have completed. */
  datatype Stage = Startup | Consensus

  /** Either the sentinel for "not yet known" or the block height at which
      the upgrade epoch was first observed. */
  datatype UpgradeHeight = InvalidUpgradeHeight | Height(height: int)

  /** One submitted descriptor and its progress. */
  datatype PendingUpgrade = PendingUpgrade(descriptor: Descriptor, upgradeHeight: UpgradeHeight, stages: set<Stage>)
  {
    predicate HasStage(s: Stage) { s in stages }

    predicate HasAnyStages() { stages != {} }

    /** A record is completed once its consensus stage is recorded. */
    predicate IsCompleted() { HasStage(Consensus) }

    function PushStage(s: Stage): PendingUpgrade { this.(stages := stages + {s}) }
  }

  /** Errors the manager returns. StopForUpgrade is the halt signal, returned
      through the error channel as the Go code does. */
  datatype Error =
    | AlreadyPending
    | UpgradeInProgress
    | StopForUpgrade
    | StoreFailed
    | DecodeFailed
    | IncompatibleBinary
    | HandlerNotFound
    | StartupStageFailed
    | ConsensusStageFailed
    | UpgradeHeightInFuture

  /** The migration handler registry: the names with a registered handler,
      and the names whose startup or consensus stage fails when run. */
  datatype Migrations = Migrations(handlers: set<string>, failingStartup: set<string>, failingConsensus: set<string>)
  {
    /** Looks up the handler for `name` and runs its startup stage. */
    function RunStartupStage(name: string): Option<Error> {
      if name !in handlers then Some(HandlerNotFound)
      else if name in failingStartup then Some(StartupStageFailed)
      else None
    }

    /** Looks up the handler for `name` and runs its consensus stage. */
    function RunConsensusStage(name: string): Option<Error> {
      if name !in handlers then Some(HandlerNotFound)
      else if name in failingConsensus then Some(ConsensusStageFailed)
      else None
    }
  }
}
