# Version tracking and transactions of the SwiftUI architecture framework, in Dafny

This project models the reactivity and persistence core of the `FW` framework in the
swift-ui-architecture sample app. The core has three parts:

- **The tracker** (`FWImpl.MainModelStateTracker`). It is a registry from record id to a
  `ModelTrackingState` cell, which holds `version` and `isDeleted`, plus one lazily created
  `ModelCollectionTrackingState`. Application code calls `modelDidInsert`, `modelDidUpdate`,
  `modelDidDelete`, `collectionDidChange` and `collectionDidReset` after it writes. Each call
  raises some of the counters by one.
- **The bindings** (`ModelVersionState`, `ModelArrayVersionState` and the property wrappers
  `ModelVersion`, `ModelArrayVersion`). They resolve a cell through the tracker they are set up
  with. They report `version` (`-1` while unresolved) and `isDeleted` (`false` while unresolved).
- **The service** (`FWImpl.DefaultModelService`). Its `transaction` rolls back stray edits, runs
  a body with a fresh `Accessor`, then saves unless the body called `setRollbackOnly()`. Its
  `query` runs a body with no rollback and no save.

Files:

- `Ids.dfy`: record ids (an opaque type with equality), records, `Option`.
- `TrackerSpec.dfy`: the tracker as a value. It has one function per notification and the
  lemmas that state the tracker's rules.
- `ModelStateTracker.dfy`: the cells and the tracker as classes. Cells are objects raised in
  place, and the registry is a `map` field. Each method is proved to change the tracker's
  observable value (`Abstract()`) as the matching `TrackerSpec` function does.
- `ModelVersion.dfy`: the bindings and the property wrappers as classes.
- `ServiceSpec.dfy`: the persistence context as a value `(committed, pending)`. Save applies the
  pending edits to the committed store, and rollback drops them. It also holds `transaction` and
  `query` as functions, with the lemmas about them.
- `DefaultModelService.dfy`: the context, the accessor and the service as classes. `Transaction`
  and `Query` are proved to match the `ServiceSpec` functions.

Behaviours that are easy to misread, kept as the code has them:

- `modelDidInsert` never clears `isDeleted`. A record that is deleted and then inserted again
  stays deleted, and its version has gone up twice (ModelStateTracker.swift:111-116;
  `InsertAfterDeleteStaysDeleted`).
- `modelDidInsert` on a registered live cell and `modelDidDelete` on a registered deleted cell
  return before the collection is raised, so these calls do not always raise the collection
  (ModelStateTracker.swift:112-114 and :142-144; `InsertCases`, `DeleteIdempotent`).
- A record that is tracked and then inserted keeps version 0, because the insert returns early
  (ModelStateTracker.swift:112-114; `Lifecycle`).
- A body that throws does not roll back and rethrow: `try! block(accessor)` traps
  (DefaultModelService.swift:58, :68).

## Model

| member | source | states |
|---|---|---|
| `TrackerSpec.TrackModel` | CountriesSwiftUI/Framework/ModelStateTracker.swift:59-68 | The registered ids become the old ones plus `id`. Every cell registered before is unchanged, and the collection cell is untouched. |
| `TrackerSpec.TrackCollection` | CountriesSwiftUI/Framework/ModelStateTracker.swift:71-80 | Afterwards a collection cell exists. The record cells are unchanged, and an existing collection cell is kept as it was. |
| `TrackerSpec.CollectionDidReset` | CountriesSwiftUI/Framework/ModelStateTracker.swift:86-99 | The registered ids stay the same, no version falls and no flag changes. The collection goes up by one and keeps its flag when it exists, and stays absent otherwise. |
| `TrackerSpec.CollectionDidChange` | CountriesSwiftUI/Framework/ModelStateTracker.swift:100-106 | The record cells are unchanged, and no version falls. |
| `TrackerSpec.ModelDidInsert` | CountriesSwiftUI/Framework/ModelStateTracker.swift:108-121 | The registered ids stay the same, and every cell of another id is unchanged. No version falls and no flag changes. |
| `TrackerSpec.ModelDidUpdate` | CountriesSwiftUI/Framework/ModelStateTracker.swift:123-136 | The registered ids stay the same, and every cell of another id is unchanged. No version falls and no flag changes. |
| `TrackerSpec.ModelDidDelete` | CountriesSwiftUI/Framework/ModelStateTracker.swift:138-152 | The registered ids stay the same, and every cell of another id is unchanged. No version falls, and no deleted cell comes back. |
| `TrackerSpec.TrackModelRegisters` | CountriesSwiftUI/Framework/ModelStateTracker.swift:59-68 | After `trackModel(id)` the id is registered. An id that was not registered gets a new cell at version 0, not deleted. For a registered id nothing changes. A second call changes nothing, and the collection cell is untouched. |
| `TrackerSpec.TrackCollectionOnce` | CountriesSwiftUI/Framework/ModelStateTracker.swift:71-80 | The first call creates the collection cell at version 0, not deleted. Later calls return it unchanged. Record cells are untouched. |
| `TrackerSpec.DeleteLive` | CountriesSwiftUI/Framework/ModelStateTracker.swift:138-152 | Deleting a registered live record marks it deleted and raises its version by exactly one. The collection goes up by one if it exists. Every other cell is unchanged. |
| `TrackerSpec.DeleteIdempotent` | CountriesSwiftUI/Framework/ModelStateTracker.swift:141-144 | On a registered id, a second delete changes nothing, not even the collection. |
| `TrackerSpec.DeleteUnregistered` | CountriesSwiftUI/Framework/ModelStateTracker.swift:141-150 | Deleting an unregistered id leaves every record cell as it was. The collection goes up by one and keeps its flag when it exists, and stays absent otherwise. |
| `TrackerSpec.InsertCases` | CountriesSwiftUI/Framework/ModelStateTracker.swift:108-121 | There are three cases. A deleted cell goes up by one and stays deleted, and the collection goes up. A live cell: nothing changes at all. An unregistered id: every record cell is unchanged, and the collection goes up by one with its flag kept if it exists. |
| `TrackerSpec.InsertAfterDeleteStaysDeleted` | CountriesSwiftUI/Framework/ModelStateTracker.swift:111-116 | Delete and then insert on a live cell gives version + 2, and the cell is still deleted. Insert does not clear the flag. |
| `TrackerSpec.UpdateBumps` | CountriesSwiftUI/Framework/ModelStateTracker.swift:123-136 | A registered cell goes up by exactly one whether or not it is deleted, and keeps its flag. Other cells and the key set are unchanged. The collection goes up. |
| `TrackerSpec.ChangeTouchesOnlyCollection` | CountriesSwiftUI/Framework/ModelStateTracker.swift:100-106 | Record cells are unchanged. The collection goes up by one and keeps its flag if it exists, and stays absent otherwise. |
| `TrackerSpec.ResetBumpsLiveCells` | CountriesSwiftUI/Framework/ModelStateTracker.swift:86-99 | Every registered live cell goes up by exactly one. Deleted cells keep their version. No flag changes, the key set stays, and the collection goes up. |
| `TrackerSpec.StepPrecedes` | CountriesSwiftUI/Framework/ModelStateTracker.swift:86-152 | One call of any entry point never lowers a version, never unregisters a cell and never revives a deleted cell. It raises each counter by at most one (every write is `+= 1`). The collection is never marked deleted. |
| `TrackerSpec.RunPrecedes` | CountriesSwiftUI/Framework/ModelStateTracker.swift:59-152 | Over any sequence of tracker calls, versions only increase. No cell disappears, no deleted cell comes back, and the collection is never marked deleted. |
| `TrackerSpec.DeletedCellMovesOnlyByInsertOrUpdate` | CountriesSwiftUI/Framework/ModelStateTracker.swift:86-152 | Once a registered cell is deleted, it stays deleted over any sequence of calls. Its version then goes up by exactly the number of inserts and updates of its id. Resets, changes and repeated deletes never move it. |
| `TrackerSpec.Lifecycle` | CountriesSwiftUI/Framework/ModelStateTracker.swift:59-152 | An unregistered id that is tracked, inserted, updated, deleted and deleted again ends at version 2, deleted. The insert of the live cell does nothing. |
| `ModelStateTracker.ModelTrackingState.constructor` | CountriesSwiftUI/Framework/ModelStateTracker.swift:10-17 | A new record cell has the given id, version 0 and is not deleted. |
| `ModelStateTracker.ModelCollectionTrackingState.constructor` | CountriesSwiftUI/Framework/ModelStateTracker.swift:19-24 | A new collection cell has version 0 and is not deleted. |
| `ModelStateTracker.MainModelStateTracker.constructor` | CountriesSwiftUI/Framework/ModelStateTracker.swift:55-57 | A new tracker has no registered cells and no collection cell. |
| `ModelStateTracker.MainModelStateTracker.TrackModel` | CountriesSwiftUI/Framework/ModelStateTracker.swift:59-68 | Returns the very cell object registered for the id. If there is none, it registers and returns a fresh cell at version 0, not deleted. The registry changes only at that id, and it still holds one cell per id, each carrying its own id. |
| `ModelStateTracker.MainModelStateTracker.TrackCollection` | CountriesSwiftUI/Framework/ModelStateTracker.swift:71-80 | Returns the existing collection cell object, or creates and stores a fresh one at version 0. |
| `ModelStateTracker.MainModelStateTracker.CollectionDidReset` | CountriesSwiftUI/Framework/ModelStateTracker.swift:82-99 | The loop over all registered cells changes the tracker's observable value exactly as `TrackerSpec.CollectionDidReset`. Each live cell is raised once and deleted cells are skipped. |
| `ModelStateTracker.MainModelStateTracker.CollectionDidChange` | CountriesSwiftUI/Framework/ModelStateTracker.swift:100-106 | Changes the observable value exactly as `TrackerSpec.CollectionDidChange`. |
| `ModelStateTracker.MainModelStateTracker.ModelDidInsert` | CountriesSwiftUI/Framework/ModelStateTracker.swift:108-121 | Changes the observable value exactly as `TrackerSpec.ModelDidInsert`, including the early return. |
| `ModelStateTracker.MainModelStateTracker.ModelDidUpdate` | CountriesSwiftUI/Framework/ModelStateTracker.swift:123-136 | Changes the observable value exactly as `TrackerSpec.ModelDidUpdate`. |
| `ModelStateTracker.MainModelStateTracker.ModelDidDelete` | CountriesSwiftUI/Framework/ModelStateTracker.swift:138-152 | Changes the observable value exactly as `TrackerSpec.ModelDidDelete`, including the early return. |
| `ModelVersion.ModelVersionState.constructor` | CountriesSwiftUI/Framework/ModelVersion.swift:25-27 | A new binding holds the model, with no cell and no tracker. |
| `ModelVersion.ModelVersionState.Version` | CountriesSwiftUI/Framework/ModelVersion.swift:28-30 | The result is -1 exactly when no cell is resolved. Otherwise it is the cell's version, which is never negative. |
| `ModelVersion.ModelVersionState.IsDeleted` | CountriesSwiftUI/Framework/ModelVersion.swift:31-33 | The result is false while unresolved; otherwise it is the cell's flag. |
| `ModelVersion.ModelVersionState.Setup` | CountriesSwiftUI/Framework/ModelVersion.swift:34-38 | With the same tracker, nothing changes: not the binding, not the tracker. With another tracker, the binding stores it and holds the cell `trackModel(model.id)` returns. That is the registered cell object, or a fresh one. |
| `ModelVersion.ModelVersionState.SetModel` | CountriesSwiftUI/Framework/ModelVersion.swift:13-22 | A model whose id equals the resolved cell's id keeps that cell and leaves the tracker unchanged. Otherwise the cell is re-resolved through the bound tracker: it is the registered cell object, or a fresh one, the registry gains only that entry, and the collection cell stays. With no tracker bound, the cell is left as it was. |
| `ModelVersion.ModelVersion.constructor` | CountriesSwiftUI/Framework/ModelVersion.swift:44-46 | The wrapper owns a fresh unresolved state holding the model. |
| `ModelVersion.ModelVersion.WrappedValue` | CountriesSwiftUI/Framework/ModelVersion.swift:49 | The getter returns the model the state object holds. |
| `ModelVersion.ModelVersion.SetWrappedValue` | CountriesSwiftUI/Framework/ModelVersion.swift:48-53 | The setter writes through to the state and runs its observer, with every outcome `SetModel` states. The getter then returns the assigned model. A same-id model leaves the tracker untouched. With no tracker, the cell stays. Otherwise the cell is the registered or fresh cell `trackModel` gives, the tracker's registry gains only that entry, and its collection cell stays. |
| `ModelVersion.ModelArrayVersionState.constructor` | CountriesSwiftUI/Framework/ModelVersion.swift:64-66 | A new array binding holds the models, with no cell and no tracker. |
| `ModelVersion.ModelArrayVersionState.Version` | CountriesSwiftUI/Framework/ModelVersion.swift:67-69 | The result is -1 exactly when no collection cell is resolved; otherwise it is that cell's version. |
| `ModelVersion.ModelArrayVersionState.Setup` | CountriesSwiftUI/Framework/ModelVersion.swift:70-74 | With the same tracker, nothing changes. Otherwise the binding stores the tracker and holds its collection cell: the existing cell object, or a fresh one if there was none. The record registry is unchanged. |
| `ModelVersion.ModelArrayVersionState.SetModels` | CountriesSwiftUI/Framework/ModelVersion.swift:61 | Assigning the models changes neither the collection cell nor the tracker, because there is no observer. |
| `ModelVersion.ModelArrayVersion.constructor` | CountriesSwiftUI/Framework/ModelVersion.swift:81-83 | The wrapper owns a fresh unresolved array state holding the models. |
| `ModelVersion.ModelArrayVersion.WrappedValue` | CountriesSwiftUI/Framework/ModelVersion.swift:86 | The getter returns the models the state object holds. |
| `ModelVersion.ModelArrayVersion.SetWrappedValue` | CountriesSwiftUI/Framework/ModelVersion.swift:85-90 | The setter writes straight through. The getter then returns the assigned models, and the cell and tracker are unchanged. |
| `ModelVersion.SharedCell` | CountriesSwiftUI/Framework/ModelVersion.swift:34-38 | Two bindings of one record set up with one tracker hold the same cell. After an update notification, both report the same version, one above where it stood. |
| `ServiceSpec.LastEditWins` | CountriesSwiftUI/Framework/Impl/DefaultModelService.swift:76-86 | A record inserted last is found under its id. An id deleted last is absent. |
| `ServiceSpec.SaveAndRollback` | CountriesSwiftUI/Framework/Impl/DefaultModelService.swift:50-55 | Save keeps what fetches see and leaves nothing pending. Rollback returns fetches to the committed store. Each is idempotent, and a rollback after a save changes nothing. |
| `ServiceSpec.Transaction` | CountriesSwiftUI/Framework/Impl/DefaultModelService.swift:40-63 | All or nothing. Without `setRollbackOnly()` the committed store becomes the old one with exactly the body's edits applied; with it, the committed store is unchanged. Nothing is left pending, and the body's value is returned in both cases. |
| `ServiceSpec.Query` | CountriesSwiftUI/Framework/Impl/DefaultModelService.swift:65-70 | The committed store is unchanged. The body's edits are appended to the pending ones, and the body's value is returned. |
| `ServiceSpec.TransactionDiscardsStrayEdits` | CountriesSwiftUI/Framework/Impl/DefaultModelService.swift:46-47 | Edits left pending before a transaction have no effect on it. |
| `ServiceSpec.QueryEditsNeverCommitted` | CountriesSwiftUI/Framework/Impl/DefaultModelService.swift:65-70 | A query commits nothing. Its edits stay visible only as pending, and the next transaction behaves as if the query had made none. |
| `ServiceSpec.QuerySeesTransaction` | CountriesSwiftUI/Framework/Impl/DefaultModelService.swift:50-55 | A later query sees the body's edits if the transaction saved, and the store from before the transaction if it rolled back. |
| `ServiceSpec.TransactionsCompose` | CountriesSwiftUI/Framework/Impl/DefaultModelService.swift:40-63 | Two saving transactions in a row commit the first body's edits followed by the second's. |
| `DefaultModelService.ModelContext.Save` | CountriesSwiftUI/Framework/Impl/DefaultModelService.swift:52 | `save()` moves the context as `ServiceSpec.Save` does. |
| `DefaultModelService.ModelContext.Rollback` | CountriesSwiftUI/Framework/Impl/DefaultModelService.swift:47 | `rollback()` moves the context as `ServiceSpec.Rollback` does. |
| `DefaultModelService.Accessor.constructor` | CountriesSwiftUI/Framework/Impl/DefaultModelService.swift:18-24 | A new accessor wraps the given context with `shouldRollback` false. |
| `DefaultModelService.Accessor.SetRollbackOnly` | CountriesSwiftUI/Framework/Impl/DefaultModelService.swift:25-27 | Afterwards `shouldRollback` is true, whatever it was before, so repeating the call changes nothing. |
| `DefaultModelService.Accessor.Insert` | CountriesSwiftUI/Framework/Impl/DefaultModelService.swift:76-78 | Appends the insert to the context's pending edits and leaves the committed store alone. |
| `DefaultModelService.Accessor.Delete` | CountriesSwiftUI/Framework/Impl/DefaultModelService.swift:84-86 | Appends the delete to the context's pending edits and leaves the committed store alone. |
| `DefaultModelService.DefaultModelService.constructor` | CountriesSwiftUI/Framework/Impl/DefaultModelService.swift:37-39 | The service owns the given context, and no transaction is open. |
| `DefaultModelService.DefaultModelService.Transaction` | CountriesSwiftUI/Framework/Impl/DefaultModelService.swift:40-63 | Requires nest level 0 (otherwise `fatalError`) and a body that does not throw (otherwise `try!` traps). The context ends exactly as `ServiceSpec.Transaction` says, the body's value is returned, and the nest level is back to 0. |
| `DefaultModelService.DefaultModelService.Query` | CountriesSwiftUI/Framework/Impl/DefaultModelService.swift:65-70 | Requires a body that does not throw. The context ends exactly as `ServiceSpec.Query` says, with no rollback and no save, and the body's value is returned. |

## Left out

- The weak-valued `NSMapTable` registry is a plain `map`, and its cells are never evicted. In the
  source, a cell no binding holds any more may vanish, and a later `trackModel` of its id then
  creates a fresh cell at version 0. The weak `tracker` reference of the bindings is a plain
  nullable reference.
- `toKey` keys the registry by `id.id.hashValue`. The model keys it by the id itself, so two ids
  whose hashes collide, which would share one cell in the source, have separate cells here.
- Versions are unbounded naturals. Swift's `Int` would trap on overflow after `Int.max` bumps.
- The warning `modelDidUpdate` logs for a deleted cell is a side effect only and is not modelled.
- `MainActor.assumeIsolated`, the service actor, `async`, `@TaskLocal` and `sending` are
  concurrency machinery. Every call is modelled as one sequential step, and `nestLevel` is a
  field of the service. A body is a function, so it cannot start a transaction of its own:
  `nestLevel` is always 0 when `Transaction` is entered, the `fatalError` for nesting
  (DefaultModelService.swift:43-45) cannot be reached in the model, and the field and the raised
  level during the body carry no behaviour here.
- A transaction or query body is a function from what it fetches to its edits, its rollback
  request and its value. Interleaving of a body's reads with its own writes is therefore not
  modelled.
- The `try!` on the body (DefaultModelService.swift:33, :58, :68) is a precondition of
  `Transaction` and `Query`: the body must return. The trap itself, which ends the process, is
  not modelled.
- `try! context.save()` (DefaultModelService.swift:52) is taken never to fail. Its trap is not
  modelled.
- The `version:` parameter of the cell initialisers (ModelStateTracker.swift:14, :22) and its
  default are left out. Cells are built only at version 0, as both call sites do
  (ModelStateTracker.swift:65, :76).
- `SwiftData`'s `ModelContext` is an external collaborator. It is modelled only as
  `(committed, pending)`: save applies the pending edits and rollback drops them.
- The accessor's `fetch`, `fetchCount`, `fetchIdentifiers`, `find` and
  `delete(model:where:includeSubclasses:)` are one-line forwards to `ModelContext` and are not
  modelled. Only `insert` and `delete(_:)` are modelled, as pending edits.
- SwiftUI's `@State`, `DynamicProperty` and `@Observable` re-rendering are not modelled. Only the
  get/set forwarding of the property wrappers is modelled.
- The base classes `ModelStateTracker` (whose methods are `fatalError` placeholders) and
  `FW.MutableModelStateTracker` (whose methods are empty) carry no behaviour. The bindings use
  `MainModelStateTracker` directly.
- `PropertyUpdator.swift` (deprecated key-path copy helpers), `Model.swift` (protocols only),
  `User.swift` (a schema and a static tracker) and `FW.swift` (namespaces and the logger) are
  not part of this model.
