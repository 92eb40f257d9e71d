/**
 * The tracking cells and `FWImpl.MainModelStateTracker`
 * (CountriesSwiftUI/Framework/ModelStateTracker.swift). The cells are objects whose counters
 * are raised in place; bindings hold references to them, so two observers of one id see the
 * same counter. Every mutation method is proved to move the tracker's observable value
 * (`Abstract()`) exactly as the matching function of `TrackerSpec` does.
 */
module ModelStateTracker {
  import opened Ids
  import TrackerSpec

  /** `ModelTrackingState`: the version cell of one record. */
  class ModelTrackingState {
    const id: RecordId
    var version: nat
    var isDeleted: bool

    constructor (id: RecordId)
      ensures this.id == id && version == 0 && !isDeleted
    {
      this.id := id;
      version := 0;
      isDeleted := false;
    }
  }

  /** `ModelCollectionTrackingState`: the version cell of the collection as a whole. */
  class ModelCollectionTrackingState {
    var version: nat
    var isDeleted: bool

    constructor ()
      ensures version == 0 && !isDeleted
    {
      version := 0;
      isDeleted := false;
    }
  }

  /** `FWImpl.MainModelStateTracker`: the registry and its notification entry points. */
  class MainModelStateTracker {
    var modelStates: map<RecordId, ModelTrackingState>
    var collectionState: ModelCollectionTrackingState?

    /** Each registered cell carries the id it is registered under, so no cell is registered twice. */
    ghost predicate Valid()
      reads this, modelStates.Values
    {
      forall id | id in modelStates :: modelStates[id].id == id
    }

    /** What observers can read from this tracker. */
    ghost function Abstract(): TrackerSpec.Registry
      reads this, modelStates.Values, collectionState
    {
      var cells := map id | id in modelStates :: TrackerSpec.Cell(modelStates[id].version, modelStates[id].isDeleted);
      var collection :=
        if collectionState == null then None
        else Some(TrackerSpec.Cell(collectionState.version, collectionState.isDeleted));
      TrackerSpec.Registry(cells, collection)
    }

    constructor ()
      ensures Valid()
      ensures Abstract() == TrackerSpec.Initial
    {
      modelStates := map[];
      collectionState := null;
    }

    /** `trackModel(id)`: returns the cell registered for `id`, creating and registering it on first use. */
    method TrackModel(id: RecordId) returns (state: ModelTrackingState)
      requires Valid()
      modifies this
      ensures Valid()
      ensures Abstract() == TrackerSpec.TrackModel(old(Abstract()), id)
      ensures state.id == id && modelStates == old(modelStates)[id := state]
      ensures id in old(modelStates) ==> state == old(modelStates[id])
      ensures id !in old(modelStates) ==> fresh(state) && state.version == 0 && !state.isDeleted
      ensures collectionState == old(collectionState)
    {
      if id in modelStates {
        state := modelStates[id];
        return;
      }
      state := new ModelTrackingState(id);
      modelStates := modelStates[id := state];
    }

    /** `trackCollection()`: returns the collection cell, creating it on first use. */
    method TrackCollection() returns (state: ModelCollectionTrackingState)
      requires Valid()
      modifies this
      ensures Valid()
      ensures Abstract() == TrackerSpec.TrackCollection(old(Abstract()))
      ensures collectionState == state && modelStates == old(modelStates)
      ensures old(collectionState) != null ==> state == old(collectionState)
      ensures old(collectionState) == null ==> fresh(state) && state.version == 0
    {
      if collectionState != null {
        state := collectionState;
        return;
      }
      state := new ModelCollectionTrackingState();
      collectionState := state;
    }

    /** `collectionDidReset()`: raises the collection and every live record cell by one. */
    method CollectionDidReset()
      requires Valid()
      modifies modelStates.Values, collectionState
      ensures Valid()
      ensures Abstract() == TrackerSpec.CollectionDidReset(old(Abstract()))
    {
      if collectionState != null {
        collectionState.version := collectionState.version + 1;
      }
      var pending := modelStates.Keys;
      while pending != {}
        invariant pending <= modelStates.Keys
        invariant collectionState != null ==> collectionState.version == old(collectionState.version) + 1
        invariant collectionState != null ==> collectionState.isDeleted == old(collectionState.isDeleted)
        invariant forall id | id in modelStates :: modelStates[id].isDeleted == old(modelStates[id].isDeleted)
        invariant forall id | id in pending :: modelStates[id].version == old(modelStates[id].version)
        invariant forall id | id in modelStates && id !in pending ::
          modelStates[id].version == if old(modelStates[id].isDeleted) then old(modelStates[id].version) else old(modelStates[id].version) + 1
        decreases pending
      {
        var id :| id in pending;
        var state := modelStates[id];
        if !state.isDeleted {
          state.version := state.version + 1;
        }
        pending := pending - {id};
      }
    }

    /** `collectionDidChange()`: raises the collection only. */
    method CollectionDidChange()
      requires Valid()
      modifies collectionState
      ensures Valid()
      ensures Abstract() == TrackerSpec.CollectionDidChange(old(Abstract()))
    {
      if collectionState != null {
        collectionState.version := collectionState.version + 1;
      }
    }

    /**
     * `modelDidInsert(id)`: returns early on a registered live cell; raises a registered deleted
     * cell without clearing its flag; then raises the collection.
     */
    method ModelDidInsert(id: RecordId)
      requires Valid()
      modifies modelStates.Values, collectionState
      ensures Valid()
      ensures Abstract() == TrackerSpec.ModelDidInsert(old(Abstract()), id)
    {
      if id in modelStates {
        var state := modelStates[id];
        if !state.isDeleted {
          return;
        }
        state.version := state.version + 1;
      }
      if collectionState != null {
        collectionState.version := collectionState.version + 1;
      }
    }

    /** `modelDidUpdate(id)`: raises a registered cell, deleted or not, then the collection. */
    method ModelDidUpdate(id: RecordId)
      requires Valid()
      modifies modelStates.Values, collectionState
      ensures Valid()
      ensures Abstract() == TrackerSpec.ModelDidUpdate(old(Abstract()), id)
    {
      if id in modelStates {
        var state := modelStates[id];
        state.version := state.version + 1;
      }
      if collectionState != null {
        collectionState.version := collectionState.version + 1;
      }
    }

    /**
     * `modelDidDelete(id)`: returns early on a registered deleted cell; marks a registered live
     * cell deleted and raises it; then raises the collection.
     */
    method ModelDidDelete(id: RecordId)
      requires Valid()
      modifies modelStates.Values, collectionState
      ensures Valid()
      ensures Abstract() == TrackerSpec.ModelDidDelete(old(Abstract()), id)
    {
      if id in modelStates {
        var state := modelStates[id];
        if state.isDeleted {
          return;
        }
        state.isDeleted := true;
        state.version := state.version + 1;
      }
      if collectionState != null {
        collectionState.version := collectionState.version + 1;
      }
    }
  }
}
