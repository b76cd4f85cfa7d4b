# Node upgrade manager and CAS Patricia trie overlay, modelled in Dafny

This project models two sequential cores of the node:

1. **The node upgrade manager** (`go/upgrade/upgrade.go`). It keeps an ordered list of
   pending-upgrade records. Each record has:
   - a descriptor: a handler name and a target epoch;
   - an upgrade height: either the `InvalidUpgradeHeight` sentinel or a block height;
   - a set of completed stages from {Startup, Consensus}.

   The list is written through to one persisted slot, `"descriptors"`. The operations are
   submit, list, cancel, load-and-validate (`checkStatus`/`New`), flush, the startup hook,
   the per-block consensus hook, and close.
2. **The write-buffer overlay of `CASPatriciaTrie`**
   (`runtime/src/storage/mkvs/cas_patricia_trie/mod.rs`). It is a map of pending `Insert(v)`
   and `Remove` operations over a committed trie. `get` reads through the overlay.
   `insert` and `remove` record an operation and return the value that was visible.
   `commit` drains the overlay into the trie. `rollback` discards it.

Layout:

- `wrappers.dfy`: `Option`.
- `seqs.dfy`: an order-preserving `Filter` and its lemmas. This is the shape of every Go loop
  that rebuilds a slice by appending the elements it keeps.
- `upgrade_api.dfy`: the types of the `api` package — `Descriptor`, `Stage`, `UpgradeHeight`,
  `PendingUpgrade`, `Error` — and the migration registry `Migrations`.
- `upgrade_spec.dfy`: each manager operation as a function of the state, and lemmas about it.
  The state is the in-memory list plus the persisted slot.
- `upgrade.dfy`: the class `UpgradeManager`. Its methods are imperative loops over the
  `pending` field, and each one is proved to compute exactly the matching function of
  `upgrade_spec.dfy`.
- `cas_patricia_trie.dfy`: the class `CASPatriciaTrie`, the overlay semantics `Overlay`, and
  the commit lemmas.

Modelling choices:

- A `Descriptor` is a Dafny class with constant fields.
  - `==` on it is pointer identity. `SubmitDescriptor` uses this (upgrade.go:43).
  - `Equals` is value equality on name and epoch. `CancelUpgrade` uses this (upgrade.go:79).
- Records are values in a `seq` field.
  - The Go code mutates records in place (`pu.UpgradeHeight = …`, `pu.PushStage(…)`).
  - In the model, those mutations replace the element at the loop index.
- The store is the field `store: Option<seq<PendingUpgrade>>`. `None` means the key is absent.
  - Whether a store read or write fails is a parameter of each operation (`readOk`, `writeOk`).
  - The CBOR round trip is taken as lossless.
- The registry `Migrations` has three parts:
  - the names that have a handler;
  - the names whose startup stage fails;
  - the names whose consensus stage fails.
- `EnsureCompatible` is the predicate parameter `compatible`.
- The trie is abstract.
  - A root hash `RootHash(m)` stands for the map `m` it commits to, so hashes are treated as
    collision-free.
  - The trie's insert binds a key. The trie's remove unbinds it and gives no root once the
    trie is empty.
  - `EmptyHash` is `Hash::empty_hash()`.

Behaviour of the code that a reader might not expect, modelled as written:

- `SubmitDescriptor` compares descriptor pointers (upgrade.go:43), so it rejects only the
  same descriptor object, not an equal value. `SubmitComparesIdentity` shows that a second,
  equal descriptor is accepted and pending twice.
- When `ConsensusUpgrade` meets a record whose height is unset and whose epoch is not yet due,
  it returns nil at once, without flushing (upgrade.go:219-221). It does not go on to later
  records. `ConsensusHookNotYetDue` states this.
- When the upgrade height equals the current height, `ConsensusUpgrade` runs the handler but
  does not record the Consensus stage (upgrade.go:239-253). The stage is added at the next
  block, by the "already past the height" branch (upgrade.go:230-233).
  `UpgradeAcrossRestart` shows this sequence.
- After a failed write, only `CancelUpgrade` restores the previous list (upgrade.go:87-92).
  - Every other operation keeps the pruned list in memory.
  - `flushDescriptorLocked` assigns the pruned list before it writes (upgrade.go:173-174).
- The slot is deleted only when the list is empty before the flush (upgrade.go:155-160). A
  non-empty list whose records are all completed is written as an empty list.
- A failed startup or consensus stage leaves the stages already recorded by the same call in
  memory, unflushed.

Assumptions about code that is not part of this model:

- `IsCompleted` means the Consensus stage is present.
- `HasStage`, `HasAnyStages` and `PushStage` are set operations.
- `Descriptor.Equals` compares name and epoch.
- A freshly built record (`&api.PendingUpgrade{Descriptor: descriptor}`, upgrade.go:48-50)
  has `UpgradeHeight == InvalidUpgradeHeight` and no stages. So the sentinel is Go's zero value
  for the height, and the stage set starts empty. `NewRecord` relies on this.
- The implementations of go/upgrade/api (the record and descriptor methods) and of
  go/upgrade/migrations (the handler registry and migration contexts) are not part of this
  model. `upgrade_api.dfy` gives their types and abstracts their behaviour as stated above.

## Model

| member | source | states |
|---|---|---|
| `UpgradeSpec.Prune` | go/upgrade/upgrade.go:162-173 | the kept list is no longer than the input and holds only records that were pending and are not completed |
| `Seqs.Filter` | go/upgrade/upgrade.go:163-172 | the rebuilt slice holds only elements that were in the input and pass the test, and is no longer than the input |
| `Seqs.FilterConcat` | go/upgrade/upgrade.go:163-172 | the kept elements of a prefix come before those of the rest, so the order of the survivors is kept |
| `Seqs.FilterCount` | go/upgrade/upgrade.go:163-172 | an element that passes the test keeps its number of occurrences, and one that fails has none |
| `Seqs.FilterKeepsAll` | go/upgrade/upgrade.go:163-172 | filtering changes nothing exactly when every element passes, in both directions |
| `Seqs.FilterFilter` | go/upgrade/upgrade.go:77-88 | filtering by one test and then another is filtering once by both, so the cancel loop followed by the flush keeps the survivors in order |
| `Seqs.FilterKeepsDistinct` | go/upgrade/upgrade.go:77-86 | filtering keeps descriptors distinct |
| `UpgradeSpec.Flush` | go/upgrade/upgrade.go:153-175 | flush succeeds iff the write succeeds; after success an empty list has deleted the key, and a non-empty list has written its pruned list, which may be empty; after success the slot decodes to exactly the in-memory list; after failure the slot is unchanged; the list is always the pruned list |
| `UpgradeSpec.PruneKeepsExactlyActive` | go/upgrade/upgrade.go:162-173 | a record survives the flush iff it was pending and is not completed |
| `UpgradeSpec.PruneIdempotent` | go/upgrade/upgrade.go:162-173 | flushing a flushed list removes nothing |
| `UpgradeSpec.FlushPreservesInvariant` | go/upgrade/upgrade.go:153-175 | flushing keeps a descriptor from being pending twice and keeps stages off records whose height is unset, both in memory and in the slot |
| `Upgrade.UpgradeManager.FlushDescriptorLocked` | go/upgrade/upgrade.go:153-175 | the new list, slot and error are exactly those of `Flush` |
| `Upgrade.UpgradeManager.SubmitDescriptor` | go/upgrade/upgrade.go:38-59 | the new list, slot and error are exactly those of `Submit` |
| `UpgradeSpec.Submit` | go/upgrade/upgrade.go:42-58 | the call fails with AlreadyPending exactly when this descriptor object is already pending; its only other outcomes are success and a store failure |
| `UpgradeSpec.SubmitAppends` | go/upgrade/upgrade.go:42-58 | a descriptor object that is already pending gives AlreadyPending and nothing changes; otherwise a record with unset height and no stages is appended after the surviving records, the call succeeds iff the write succeeds, a failed write leaves the slot as it was, and on success the slot matches the list |
| `UpgradeSpec.SubmitTwice` | go/upgrade/upgrade.go:42-58 | submitting the same descriptor twice refuses the second call without change, and the list holds that descriptor exactly once, at the end |
| `UpgradeSpec.SubmitComparesIdentity` | go/upgrade/upgrade.go:42-58 | from any state where neither object is pending, a different descriptor object with equal name and epoch is accepted after the first, and both records follow the surviving ones, whatever the writes do |
| `UpgradeSpec.SubmitPreservesInvariant` | go/upgrade/upgrade.go:42-58 | submitting keeps every descriptor object pending at most once and keeps every record well formed |
| `Upgrade.UpgradeManager.PendingUpgrades` | go/upgrade/upgrade.go:61-66 | returns the current list and never fails |
| `Upgrade.UpgradeManager.CancelUpgrade` | go/upgrade/upgrade.go:68-94 | the new list, slot and error are exactly those of `Cancel` |
| `UpgradeSpec.Cancel` | go/upgrade/upgrade.go:72-92 | the call fails with UpgradeInProgress exactly when the list is non-empty and a started record equals the argument by value; its only other outcomes are success and a store failure |
| `UpgradeSpec.CancelResult` | go/upgrade/upgrade.go:72-92 | a failed cancel leaves the list as it was; a started equal record gives UpgradeInProgress with nothing changed; otherwise the call succeeds iff the write succeeds, and a failed write leaves the slot as it was; a successful cancel keeps exactly the records that are neither equal to the argument nor completed, in their original order, and the slot matches the list |
| `UpgradeSpec.CancelPreservesInvariant` | go/upgrade/upgrade.go:77-92 | cancelling keeps descriptors distinct and records well formed |
| `Upgrade.UpgradeManager.CheckStatus` | go/upgrade/upgrade.go:96-150 | the new list, slot and error are exactly those of `Load` |
| `UpgradeSpec.ValidateFrom` | go/upgrade/upgrade.go:111-139 | the validation loop finds nothing, an incompatible binary, or a missing handler |
| `UpgradeSpec.ValidateFromPasses` | go/upgrade/upgrade.go:111-139 | validation passes iff every non-completed record with a known height is compatible and has a registered handler |
| `UpgradeSpec.Load` | go/upgrade/upgrade.go:96-150 | loading fails only with a decode, compatibility, lookup or store error, and any failure leaves the slot as it was |
| `UpgradeSpec.LoadResult` | go/upgrade/upgrade.go:101-143 | an absent key gives an empty list and success; a failed decode empties the list and returns an error; a successful load of a present slot holds the stored list with its completed records dropped; when every due record is compatible and registered the call fails iff the write fails, and otherwise it fails with IncompatibleBinary or HandlerNotFound and leaves the slot untouched; after success no record is completed, every record with a known height is compatible and registered, and the slot matches the list |
| `UpgradeSpec.CancelThenReload` | go/upgrade/upgrade.go:77-143 | after a successful cancel, reloading the slot it wrote yields no record equal to the cancelled descriptor |
| `UpgradeSpec.LoadPreservesInvariant` | go/upgrade/upgrade.go:101-143 | loading a consistent slot gives a consistent state |
| `Upgrade.UpgradeManager.New` | go/upgrade/upgrade.go:269-285 | on success returns a fresh manager whose state is that of `Load`; on an error returns the error and no manager |
| `Upgrade.UpgradeManager.constructor` | go/upgrade/upgrade.go:274-278 | a new manager holds the given store and no records |
| `Upgrade.UpgradeManager.StartupUpgrade` | go/upgrade/upgrade.go:177-209 | the new list, slot and error are exactly those of `StartupHook` |
| `UpgradeSpec.StartupFrom` | go/upgrade/upgrade.go:181-206 | the startup loop keeps the list's length and stops only with a lookup failure or a failed startup stage |
| `UpgradeSpec.StartupHook` | go/upgrade/upgrade.go:177-209 | the hook never lengthens the list and fails only with a lookup, startup-stage or store error |
| `UpgradeSpec.StartupHookResult` | go/upgrade/upgrade.go:181-208 | a lookup or handler failure returns the error of a record that needed its startup stage and leaves the slot unwritten; when every such handler succeeds the call fails iff the write fails; on success the slot matches the list |
| `UpgradeSpec.StartupFromEffect` | go/upgrade/upgrade.go:181-206 | descriptors and heights never change; a record gains Startup only if its height is known, it lacked Startup, and its handler was found and succeeded; if the loop finishes, no record still needs its startup stage |
| `UpgradeSpec.StartupFromNoop` | go/upgrade/upgrade.go:181-190 | with every record skipped, the startup loop changes nothing and fails nothing |
| `UpgradeSpec.StartupIdempotent` | go/upgrade/upgrade.go:181-208 | after a successful startup no record needs its startup stage, so a second run invokes no handler and leaves the list unchanged |
| `UpgradeSpec.StartupPreservesInvariant` | go/upgrade/upgrade.go:181-208 | the startup hook keeps descriptors distinct and records well formed |
| `Upgrade.UpgradeManager.ConsensusUpgrade` | go/upgrade/upgrade.go:211-257 | the new list, slot and error are exactly those of `ConsensusHook` |
| `UpgradeSpec.ConsensusFrom` | go/upgrade/upgrade.go:215-254 | the per-block loop keeps the list's length and aborts only with the future-height error, a lookup failure or a failed consensus stage |
| `UpgradeSpec.ConsensusHook` | go/upgrade/upgrade.go:211-257 | the hook never lengthens the list; its outcomes are nil, the halt signal, or a store, future-height, lookup or consensus-stage error; with the halt signal the slot matches the list; every failure leaves the slot as it was |
| `UpgradeSpec.ConsensusFromEffect` | go/upgrade/upgrade.go:215-254 | descriptors never change; a known height is never overwritten; an unset height is set only on the halting path, to the current height, for a due record, and every later record is left untouched; a halting pass has set some unset, due record's height to the current height; Consensus is added only to records whose height has passed; an abort is a handler error or the future-height error |
| `UpgradeSpec.ConsensusFromSkips` | go/upgrade/upgrade.go:229-254 | going past a run of records gives each one whose height has passed the Consensus stage, leaves each one at the current height as it was, and continues after the run |
| `UpgradeSpec.ConsensusStopExists` | go/upgrade/upgrade.go:215-254 | when some record is not gone past, there is a first such record |
| `UpgradeSpec.ConsensusHookFinishes` | go/upgrade/upgrade.go:229-256 | when every record is gone past, the advanced list is pruned and flushed, the call fails iff the write fails, and the only records left are unchanged ones at exactly the current height without the Consensus stage |
| `UpgradeSpec.ConsensusHookNotYetDue` | go/upgrade/upgrade.go:218-221 | stopping at an unset record whose epoch is not yet due returns nil, leaves the slot unwritten, prunes nothing, and leaves that record and every later one unchanged |
| `UpgradeSpec.ConsensusHookHalts` | go/upgrade/upgrade.go:218-226 | stopping at an unset, due record sets its height to the current height and flushes; with a successful write the result is the halt signal and the slot matches the list, which holds that record; with a failed write the error is the store's and the slot is unchanged |
| `UpgradeSpec.ConsensusHookAborts` | go/upgrade/upgrade.go:235-252 | stopping at a record with a known height fails without a flush: a future height gives UpgradeHeightInFuture, and at the current height the error of the handler lookup or consensus stage is returned |
| `UpgradeSpec.ConsensusNotDue` | go/upgrade/upgrade.go:218-221 | while no record with unset height is due, the hook never returns StopForUpgrade and keeps each such record unchanged in the list |
| `UpgradeSpec.ConsensusPreservesInvariant` | go/upgrade/upgrade.go:215-256 | the per-block hook keeps descriptors distinct and records well formed |
| `UpgradeSpec.UpgradeAcrossRestart` | go/upgrade/upgrade.go:38-257 | submit; an early block changes nothing; the first due block sets the height, persists it and halts; after reload, startup adds Startup; the block at the trigger height runs the consensus stage without halting; the next block completes the record and leaves an empty persisted list |
| `Upgrade.UpgradeManager.Close` | go/upgrade/upgrade.go:259-264 | a final flush whose error is ignored |
| `CasPatriciaTrie.CASPatriciaTrie.constructor` | runtime/src/storage/mkvs/cas_patricia_trie/mod.rs:58-69 | nothing is pending; the root is absent exactly when the given hash is the empty hash, and is otherwise that hash |
| `CasPatriciaTrie.Overlay` | runtime/src/storage/mkvs/cas_patricia_trie/mod.rs:82-86 | a key with a pending insert reads its value, a key with a pending remove reads nothing, every other key reads its committed value |
| `CasPatriciaTrie.TrieInsert` | runtime/src/storage/mkvs/cas_patricia_trie/mod.rs:144 | the new root is never the empty hash, binds the key to the value and keeps every other key |
| `CasPatriciaTrie.TrieRemove` | runtime/src/storage/mkvs/cas_patricia_trie/mod.rs:147 | the new root, if any, is not the empty hash, unbinds the key and keeps every other key |
| `CasPatriciaTrie.ApplyOp` | runtime/src/storage/mkvs/cas_patricia_trie/mod.rs:142-149 | a drained insert binds the key, a drained remove unbinds it, and every other key keeps its value |
| `CasPatriciaTrie.ApplyInOrder` | runtime/src/storage/mkvs/cas_patricia_trie/mod.rs:140-150 | draining a list of keys never produces the empty hash as a root and leaves every key outside the list as it was |
| `CasPatriciaTrie.CASPatriciaTrie.Get` | runtime/src/storage/mkvs/cas_patricia_trie/mod.rs:73-98 | the result is the key's value in the overlay view: a pending insert's value, nothing for a pending remove, otherwise the committed value |
| `CasPatriciaTrie.OverlayInsert` | runtime/src/storage/mkvs/cas_patricia_trie/mod.rs:118 | recording an insert binds the key in the view and changes no other key |
| `CasPatriciaTrie.OverlayRemove` | runtime/src/storage/mkvs/cas_patricia_trie/mod.rs:133 | recording a remove unbinds the key in the view and changes no other key |
| `CasPatriciaTrie.CASPatriciaTrie.Insert` | runtime/src/storage/mkvs/cas_patricia_trie/mod.rs:100-121 | returns the value visible before the call; afterwards get(key) is the new value and every other key reads as before |
| `CasPatriciaTrie.CASPatriciaTrie.Remove` | runtime/src/storage/mkvs/cas_patricia_trie/mod.rs:123-136 | returns the value visible before the call; afterwards get(key) is nothing and every other key reads as before |
| `CasPatriciaTrie.DrainStep` | runtime/src/storage/mkvs/cas_patricia_trie/mod.rs:141-149 | draining one pending operation into the trie leaves the view unchanged |
| `CasPatriciaTrie.CommitOrderIrrelevant` | runtime/src/storage/mkvs/cas_patricia_trie/mod.rs:140-152 | applying the pending operations in any order of their distinct keys commits exactly the view seen before the commit |
| `CasPatriciaTrie.CASPatriciaTrie.Commit` | runtime/src/storage/mkvs/cas_patricia_trie/mod.rs:138-158 | the overlay is empty; the committed contents equal the view before the commit; the write log is empty; the returned hash is the new root, or the empty hash when there is no root |
| `CasPatriciaTrie.CASPatriciaTrie.Rollback` | runtime/src/storage/mkvs/cas_patricia_trie/mod.rs:160-162 | the overlay is empty and every key again reads its committed value |

## Left out

- The mutex in `upgradeManager`: each operation is modelled as atomic.
- Logging.
- CBOR encoding: the store round trip is taken as lossless.
- The internals of the persistent service store, including `GetServiceStore` failing in `New`.
- `store.Close()` in `Close`: this is resource release.
- `migrations.NewContext`, the data directory, and the opaque private context passed to
  consensus handlers: they are foreign code.
- The bodies of migration handlers: the registry gives each name a fixed outcome.
  - Each handler is deterministic per name, so repeated runs of one handler always succeed or
    always fail.
- `ConsensusUpgrade`'s panic when a known height lies in the future. It is modelled as the
  fatal error `UpgradeHeightInFuture`, returned without a flush. It does not stop the process;
  the caller must treat it as fatal.
- `InvalidUpgradeHeight` is a constructor of its own, separate from every block height.
  - In the source it is an integer sentinel.
  - A block height equal to that integer is not modelled.
- Integer widths: heights (int64) and epochs (uint64) are only compared, never added, so they
  are unbounded.
- go/ekiden/cmd/debug/byzantine/tendermint.go: Tendermint service wiring, goroutines and
  subscriptions, which are I/O and concurrency.
- Key and value encryption in the trie: the DeoxysII seal and open in `get`, `insert` and
  `remove`, and `set_encryption_key`. Only the unencrypted case is modelled.
- The Patricia trie, its nodes and hash computation (trie.rs, node.rs, nibble.rs). The trie is
  a map identified by its root, and the CAS is assumed to hold every root.
- The `Context` arguments of the trie operations carry nothing the overlay uses.
- UpgradeSpec.Load: the loaded list holds the very descriptor objects that were stored.
  Go's CBOR decode (upgrade.go:101) allocates fresh descriptors, so after a reload a
  descriptor pointer submitted before it is accepted again by `SubmitDescriptor`, while the
  model refuses it with AlreadyPending. Object allocation on decode is not modelled.
- Upgrade.UpgradeManager.PendingUpgrades: returns a value copy of the list. Go returns the
  live slice of record pointers (upgrade.go:65), so later in-place updates (upgrade.go:205,
  222, 231) show through a result the caller already holds. This aliasing is not modelled.
