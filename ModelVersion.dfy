/**
 * The UI-facing bindings of CountriesSwiftUI/Framework/ModelVersion.swift: `ModelVersionState`
 * binds one record to its tracking cell, `ModelArrayVersionState` binds an array of records to
 * the collection cell, and the property wrappers `ModelVersion` / `ModelArrayVersion` forward
 * their wrapped value to them. A binding resolves its cell lazily, through the tracker it was
 * set up with.
 */
module ModelVersion {
  import opened Ids
  import TrackerSpec
  import opened ModelStateTracker

  /** `ModelVersionState`: one record, its resolved cell (if any) and the tracker (if any). */
  class ModelVersionState {
    var model: Record
    var state: ModelTrackingState?
    var tracker: MainModelStateTracker?

    /** `init(_ model:)`: nothing resolved yet; the `didSet` observer does not run during init. */
    constructor (model: Record)
      ensures this.model == model && state == null && tracker == null
    {
      this.model := model;
      state := null;
      tracker := null;
    }

    /** `version`: the resolved cell's version, or -1 while no cell is resolved. */
    function Version(): (v: int)
      reads this, state
      ensures v >= -1
      ensures v == -1 <==> state == null
      ensures state != null ==> v == state.version
    {
      if state == null then -1 else state.version
    }

    /** `isDeleted`: the resolved cell's flag, or false while no cell is resolved. */
    function IsDeleted(): (d: bool)
      reads this, state
      ensures d ==> state != null
      ensures state != null ==> d == state.isDeleted
    {
      state != null && state.isDeleted
    }

    /**
     * `setup(tracker)`: with the tracker already bound, nothing changes; otherwise the binding
     * stores `t` and resolves its cell through `t.trackModel(model.id)`.
     */
    method Setup(t: MainModelStateTracker)
      requires t.Valid()
      modifies this, t
      ensures t.Valid()
      ensures model == old(model)
      ensures old(tracker) == t ==> state == old(state) && tracker == old(tracker) && unchanged(t)
      ensures old(tracker) != t ==>
        && tracker == t
        && model.id in t.modelStates && state == t.modelStates[model.id]
        && t.modelStates == old(t.modelStates)[model.id := state]
        && (model.id in old(t.modelStates) ==> state == old(t.modelStates[model.id]))
        && (model.id !in old(t.modelStates) ==> fresh(state))
        && t.collectionState == old(t.collectionState)
        && t.Abstract() == TrackerSpec.TrackModel(old(t.Abstract()), model.id)
    {
      if tracker == t {
        return;
      }
      tracker := t;
      state := t.TrackModel(model.id);
    }

    /**
     * Assigning `model` (the `didSet` observer): a new model with the id of the resolved cell
     * keeps that cell; any other model is resolved through the bound tracker, or, with no
     * tracker bound, leaves the cell as it was.
     */
    method SetModel(m: Record)
      requires tracker != null ==> tracker.Valid()
      modifies this, tracker
      ensures model == m && tracker == old(tracker)
      ensures tracker != null ==> tracker.Valid()
      ensures old(state) != null && old(state).id == m.id ==> state == old(state)
      ensures old(state) != null && old(state).id == m.id && tracker != null ==> unchanged(tracker)
      ensures (old(state) == null || old(state).id != m.id) && tracker == null ==> state == old(state)
      ensures (old(state) == null || old(state).id != m.id) && tracker != null ==>
        && m.id in tracker.modelStates && state == tracker.modelStates[m.id]
        && tracker.modelStates == old(tracker.modelStates)[m.id := state]
        && (m.id in old(tracker.modelStates) ==> state == old(tracker.modelStates[m.id]))
        && (m.id !in old(tracker.modelStates) ==> fresh(state))
        && tracker.collectionState == old(tracker.collectionState)
        && tracker.Abstract() == TrackerSpec.TrackModel(old(tracker.Abstract()), m.id)
    {
      model := m;
      if state != null && state.id == model.id {
        return;
      }
      if tracker != null {
        state := tracker.TrackModel(model.id);
      }
    }
  }

  /** `ModelVersion`: the property wrapper over a `ModelVersionState`. */
  class ModelVersion {
    const projectedValue: ModelVersionState

    constructor (wrappedValue: Record)
      ensures fresh(projectedValue)
      ensures projectedValue.model == wrappedValue
      ensures projectedValue.state == null && projectedValue.tracker == null
    {
      projectedValue := new ModelVersionState(wrappedValue);
    }

    /** The getter of `wrappedValue`. */
    function WrappedValue(): (m: Record)
      reads projectedValue
      ensures m == projectedValue.model
    {
      projectedValue.model
    }

    /** The setter of `wrappedValue`: writes through to the state object, running its observer. */
    method SetWrappedValue(m: Record)
      requires projectedValue.tracker != null ==> projectedValue.tracker.Valid()
      modifies projectedValue, projectedValue.tracker
      ensures WrappedValue() == m
      ensures projectedValue.tracker == old(projectedValue.tracker)
      ensures projectedValue.tracker != null ==> projectedValue.tracker.Valid()
      ensures old(projectedValue.state) != null && old(projectedValue.state).id == m.id ==>
        projectedValue.state == old(projectedValue.state)
      ensures old(projectedValue.state) != null && old(projectedValue.state).id == m.id && projectedValue.tracker != null ==>
        unchanged(projectedValue.tracker)
      ensures (old(projectedValue.state) == null || old(projectedValue.state).id != m.id) && projectedValue.tracker == null ==>
        projectedValue.state == old(projectedValue.state)
      ensures (old(projectedValue.state) == null || old(projectedValue.state).id != m.id) && projectedValue.tracker != null ==>
        var t := projectedValue.tracker;
        && m.id in t.modelStates && projectedValue.state == t.modelStates[m.id]
        && t.modelStates == old(t.modelStates)[m.id := projectedValue.state]
        && (m.id in old(t.modelStates) ==> projectedValue.state == old(t.modelStates[m.id]))
        && (m.id !in old(t.modelStates) ==> fresh(projectedValue.state))
        && t.collectionState == old(t.collectionState)
        && t.Abstract() == TrackerSpec.TrackModel(old(t.Abstract()), m.id)
    {
      projectedValue.SetModel(m);
    }
  }

  /** `ModelArrayVersionState`: an array of records and the collection cell (if resolved). */
  class ModelArrayVersionState {
    var models: seq<Record>
    var state: ModelCollectionTrackingState?
    var tracker: MainModelStateTracker?

    constructor (models: seq<Record>)
      ensures this.models == models && state == null && tracker == null
    {
      this.models := models;
      state := null;
      tracker := null;
    }

    /** `version`: the collection cell's version, or -1 while it is not resolved. */
    function Version(): (v: int)
      reads this, state
      ensures v >= -1
      ensures v == -1 <==> state == null
      ensures state != null ==> v == state.version
    {
      if state == null then -1 else state.version
    }

    /**
     * `setup(tracker)`: with the tracker already bound, nothing changes; otherwise the binding
     * stores `t` and resolves the collection cell through `t.trackCollection()`.
     */
    method Setup(t: MainModelStateTracker)
      requires t.Valid()
      modifies this, t
      ensures t.Valid()
      ensures models == old(models)
      ensures old(tracker) == t ==> state == old(state) && tracker == old(tracker) && unchanged(t)
      ensures old(tracker) != t ==>
        && tracker == t && state == t.collectionState && state != null
        && (old(t.collectionState) != null ==> state == old(t.collectionState))
        && (old(t.collectionState) == null ==> fresh(state))
        && t.modelStates == old(t.modelStates)
        && t.Abstract() == TrackerSpec.TrackCollection(old(t.Abstract()))
    {
      if tracker == t {
        return;
      }
      tracker := t;
      state := t.TrackCollection();
    }

    /** Assigning `models`: there is no observer, so the collection cell and tracker stay as they are. */
    method SetModels(ms: seq<Record>)
      modifies this
      ensures models == ms && state == old(state) && tracker == old(tracker)
    {
      models := ms;
    }
  }

  /** `ModelArrayVersion`: the property wrapper over a `ModelArrayVersionState`. */
  class ModelArrayVersion {
    const projectedValue: ModelArrayVersionState

    constructor (wrappedValue: seq<Record>)
      ensures fresh(projectedValue)
      ensures projectedValue.models == wrappedValue
      ensures projectedValue.state == null && projectedValue.tracker == null
    {
      projectedValue := new ModelArrayVersionState(wrappedValue);
    }

    /** The getter of `wrappedValue`. */
    function WrappedValue(): (ms: seq<Record>)
      reads projectedValue
      ensures ms == projectedValue.models
    {
      projectedValue.models
    }

    /** The setter of `wrappedValue`: writes straight through. */
    method SetWrappedValue(ms: seq<Record>)
      modifies projectedValue
      ensures WrappedValue() == ms
      ensures projectedValue.state == old(projectedValue.state)
      ensures projectedValue.tracker == old(projectedValue.tracker)
    {
      projectedValue.SetModels(ms);
    }
  }

  /**
   * Two bindings of the same record set up with one tracker share its cell: after an update
   * notification both report the same, raised, version.
   */
  method SharedCell(t: MainModelStateTracker, r: Record) returns (a: ModelVersionState, b: ModelVersionState)
    requires t.Valid()
    modifies t, t.modelStates.Values, t.collectionState
    ensures t.Valid()
    ensures a.state == b.state && a.state != null
    ensures a.Version() == b.Version() == old(TrackerSpec.TrackModel(t.Abstract(), r.id).cells[r.id].version) + 1
  {
    a := new ModelVersionState(r);
    a.Setup(t);
    b := new ModelVersionState(r);
    b.Setup(t);
    t.ModelDidUpdate(r.id);
  }
}
