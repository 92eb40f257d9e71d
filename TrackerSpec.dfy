/**
 * The registry of `MainModelStateTracker` (CountriesSwiftUI/Framework/ModelStateTracker.swift)
 * seen as a value: one version cell per registered record id, plus the collection cell once it
 * has been created. Each notification of the tracker is a function from registry to registry;
 * the lemmas state the rules the tracker keeps: which counters go up, by how much, and when.
 */
module TrackerSpec {
  import opened Ids

  /** What an observer can read from a tracking cell. */
  datatype Cell = Cell(version: nat, isDeleted: bool)

  /** What observers can read from a whole tracker. */
  datatype Registry = Registry(cells: map<RecordId, Cell>, collection: Option<Cell>)

  /** A freshly constructed tracker: nothing registered, no collection cell. */
  const Initial := Registry(map[], None)

  /** The state every new cell starts in (`version = 0`, `isDeleted = false`). */
  const NewCell := Cell(0, false)

  function Bump(c: Cell): Cell {
    c.(version := c.version + 1)
  }

  /** Bumps the collection cell if it has been created, and does nothing otherwise. */
  function BumpCollection(r: Registry): Registry {
    match r.collection
    case None => r
    case Some(c) => r.(collection := Some(Bump(c)))
  }

  /** `trackModel(id)`: the registered cell, or a new one registered under `id`. */
  function TrackModel(r: Registry, id: RecordId): (r': Registry)
    ensures r'.cells.Keys == r.cells.Keys + {id} && r'.collection == r.collection
    ensures forall other | other in r.cells :: r'.cells[other] == r.cells[other]
    ensures Precedes(r, r')
  {
    if id in r.cells then r else r.(cells := r.cells[id := NewCell])
  }

  /** `trackCollection()`: the collection cell, created on first use. */
  function TrackCollection(r: Registry): (r': Registry)
    ensures r'.cells == r.cells && r'.collection.Some?
    ensures r.collection.Some? ==> r'.collection == r.collection
    ensures Precedes(r, r')
  {
    if r.collection.Some? then r else r.(collection := Some(NewCell))
  }

  /** `collectionDidReset()`: the collection and every live cell go up by one. */
  function CollectionDidReset(r: Registry): (r': Registry)
    ensures r'.cells.Keys == r.cells.Keys
    ensures forall id | id in r.cells :: r'.cells[id].isDeleted == r.cells[id].isDeleted
    ensures Precedes(r, r') && CollectionRaised(r, r')
  {
    var cells := map id | id in r.cells :: if r.cells[id].isDeleted then r.cells[id] else Bump(r.cells[id]);
    BumpCollection(r.(cells := cells))
  }

  /** `collectionDidChange()`: only the collection goes up. */
  function CollectionDidChange(r: Registry): (r': Registry)
    ensures r'.cells == r.cells
    ensures Precedes(r, r')
  {
    BumpCollection(r)
  }

  /**
   * `modelDidInsert(id)`: a registered live cell returns early, touching nothing; a registered
   * deleted cell goes up by one but stays deleted; then the collection goes up.
   */
  function ModelDidInsert(r: Registry, id: RecordId): (r': Registry)
    ensures r'.cells.Keys == r.cells.Keys
    ensures forall other | other in r.cells :: r'.cells[other].isDeleted == r.cells[other].isDeleted
    ensures forall other | other in r.cells && other != id :: r'.cells[other] == r.cells[other]
    ensures Precedes(r, r')
  {
    if id in r.cells then
      if !r.cells[id].isDeleted then r
      else BumpCollection(r.(cells := r.cells[id := Bump(r.cells[id])]))
    else
      BumpCollection(r)
  }

  /** `modelDidUpdate(id)`: a registered cell goes up whether or not it is deleted; then the collection. */
  function ModelDidUpdate(r: Registry, id: RecordId): (r': Registry)
    ensures r'.cells.Keys == r.cells.Keys
    ensures forall other | other in r.cells :: r'.cells[other].isDeleted == r.cells[other].isDeleted
    ensures forall other | other in r.cells && other != id :: r'.cells[other] == r.cells[other]
    ensures Precedes(r, r')
  {
    var r' := if id in r.cells then r.(cells := r.cells[id := Bump(r.cells[id])]) else r;
    BumpCollection(r')
  }

  /**
   * `modelDidDelete(id)`: a registered deleted cell returns early, touching nothing; a registered
   * live cell is marked deleted and goes up by one; then the collection goes up.
   */
  function ModelDidDelete(r: Registry, id: RecordId): (r': Registry)
    ensures r'.cells.Keys == r.cells.Keys
    ensures forall other | other in r.cells && other != id :: r'.cells[other] == r.cells[other]
    ensures Precedes(r, r')
  {
    if id in r.cells then
      if r.cells[id].isDeleted then r
      else BumpCollection(r.(cells := r.cells[id := Cell(r.cells[id].version + 1, true)]))
    else
      BumpCollection(r)
  }

  /** `r'`'s collection is `r`'s raised by one with its flag kept, or absent when `r` has none. */
  ghost predicate CollectionRaised(r: Registry, r': Registry) {
    match r.collection
    case None => r'.collection.None?
    case Some(c) => r'.collection == Some(Cell(c.version + 1, c.isDeleted))
  }

  /** A call on the tracker, as application code or a binding makes it. */
  datatype Event =
    | Track(id: RecordId)
    | TrackAll
    | Reset
    | Change
    | Inserted(id: RecordId)
    | Updated(id: RecordId)
    | Deleted(id: RecordId)

  function Step(r: Registry, e: Event): Registry {
    match e
    case Track(id) => TrackModel(r, id)
    case TrackAll => TrackCollection(r)
    case Reset => CollectionDidReset(r)
    case Change => CollectionDidChange(r)
    case Inserted(id) => ModelDidInsert(r, id)
    case Updated(id) => ModelDidUpdate(r, id)
    case Deleted(id) => ModelDidDelete(r, id)
  }

  /** The registry after the calls `es`, made one after the other on the UI thread. */
  function Run(r: Registry, es: seq<Event>): Registry
    decreases |es|
  {
    if es == [] then r else Run(Step(r, es[0]), es[1..])
  }

  /** The collection cell is never marked deleted: nothing in the tracker writes its flag. */
  ghost predicate Wf(r: Registry) {
    r.collection.Some? ==> !r.collection.value.isDeleted
  }

  /**
   * `b` can follow `a`: no cell or collection disappears, no version goes down, and no
   * deleted cell comes back to life.
   */
  ghost predicate Precedes(a: Registry, b: Registry) {
    && a.cells.Keys <= b.cells.Keys
    && (forall id | id in a.cells :: a.cells[id].version <= b.cells[id].version)
    && (forall id | id in a.cells :: a.cells[id].isDeleted ==> b.cells[id].isDeleted)
    && (a.collection.Some? ==> b.collection.Some? && a.collection.value.version <= b.collection.value.version)
  }

  /** Every write in the tracker is `+= 1`: one call raises each counter by at most one. */
  ghost predicate AtMostOneBump(a: Registry, b: Registry) {
    && (forall id | id in a.cells && id in b.cells :: b.cells[id].version <= a.cells[id].version + 1)
    && (a.collection.Some? && b.collection.Some? ==> b.collection.value.version <= a.collection.value.version + 1)
  }

  lemma PrecedesTransitive(a: Registry, b: Registry, c: Registry)
    requires Precedes(a, b) && Precedes(b, c)
    ensures Precedes(a, c)
  {
  }

  /** A single call never lowers a version, never unregisters a cell and never revives a deleted one. */
  lemma StepPrecedes(r: Registry, e: Event)
    ensures Precedes(r, Step(r, e))
    ensures AtMostOneBump(r, Step(r, e))
    ensures Wf(r) ==> Wf(Step(r, e))
  {
  }

  /** Versions only increase: over any sequence of calls, nothing observed ever goes backward. */
  lemma {:induction false} RunPrecedes(r: Registry, es: seq<Event>)
    ensures Precedes(r, Run(r, es))
    ensures Wf(r) ==> Wf(Run(r, es))
    decreases |es|
  {
    if es != [] {
      var r' := Step(r, es[0]);
      StepPrecedes(r, es[0]);
      RunPrecedes(r', es[1..]);
      PrecedesTransitive(r, r', Run(r', es[1..]));
    }
  }

  /** How many of the calls `es` are an insert or an update of `id`. */
  function InsertsAndUpdates(es: seq<Event>, id: RecordId): nat
    decreases |es|
  {
    if es == [] then 0
    else (if (es[0].Inserted? || es[0].Updated?) && es[0].id == id then 1 else 0) + InsertsAndUpdates(es[1..], id)
  }

  /**
   * Once a registered cell is deleted it stays deleted, and from then on its version moves only
   * with inserts and updates of its id, by one each: resets, changes and further deletes skip it.
   */
  lemma {:induction false} DeletedCellMovesOnlyByInsertOrUpdate(r: Registry, id: RecordId, es: seq<Event>)
    requires id in r.cells && r.cells[id].isDeleted
    ensures id in Run(r, es).cells
    ensures Run(r, es).cells[id] == Cell(r.cells[id].version + InsertsAndUpdates(es, id), true)
    decreases |es|
  {
    if es != [] {
      var r' := Step(r, es[0]);
      var raised := if (es[0].Inserted? || es[0].Updated?) && es[0].id == id then 1 else 0;
      assert id in r'.cells && r'.cells[id] == Cell(r.cells[id].version + raised, true);
      DeletedCellMovesOnlyByInsertOrUpdate(r', id, es[1..]);
    }
  }

  /**
   * `trackModel(id)` on an unregistered id registers a cell at version 0, not deleted; on a
   * registered id it changes nothing; either way the id is registered afterwards.
   */
  lemma TrackModelRegisters(r: Registry, id: RecordId)
    ensures id in TrackModel(r, id).cells
    ensures id !in r.cells ==> TrackModel(r, id).cells == r.cells[id := NewCell]
    ensures id in r.cells ==> TrackModel(r, id) == r
    ensures TrackModel(r, id).collection == r.collection
    ensures TrackModel(TrackModel(r, id), id) == TrackModel(r, id)
  {
  }

  /** `trackCollection()` creates the collection cell once, at version 0, and later returns it unchanged. */
  lemma TrackCollectionOnce(r: Registry)
    ensures r.collection.None? ==> TrackCollection(r).collection == Some(NewCell)
    ensures r.collection.Some? ==> TrackCollection(r) == r
    ensures TrackCollection(r).cells == r.cells
    ensures TrackCollection(TrackCollection(r)) == TrackCollection(r)
  {
  }

  /**
   * Deleting a registered live record marks it deleted, raises its version by exactly one and
   * the collection by one, and leaves every other cell as it was.
   */
  lemma DeleteLive(r: Registry, id: RecordId)
    requires id in r.cells && !r.cells[id].isDeleted
    ensures var r' := ModelDidDelete(r, id);
      && r'.cells.Keys == r.cells.Keys
      && r'.cells[id] == Cell(r.cells[id].version + 1, true)
      && (forall other | other in r.cells && other != id :: r'.cells[other] == r.cells[other])
      && CollectionRaised(r, r')
  {
  }

  /** Deleting twice is deleting once: the second call changes nothing, not even the collection. */
  lemma DeleteIdempotent(r: Registry, id: RecordId)
    requires id in r.cells
    ensures ModelDidDelete(ModelDidDelete(r, id), id) == ModelDidDelete(r, id)
  {
  }

  /** Deleting an unregistered id raises only the collection. */
  lemma DeleteUnregistered(r: Registry, id: RecordId)
    requires id !in r.cells
    ensures ModelDidDelete(r, id).cells == r.cells
    ensures CollectionRaised(r, ModelDidDelete(r, id))
  {
  }

  /**
   * The three cases of `modelDidInsert(id)`: a registered deleted cell goes up by one and stays
   * deleted, with the collection; a registered live cell changes nothing at all; an
   * unregistered id raises only the collection.
   */
  lemma InsertCases(r: Registry, id: RecordId)
    ensures id in r.cells && r.cells[id].isDeleted ==>
      && ModelDidInsert(r, id).cells == r.cells[id := Cell(r.cells[id].version + 1, true)]
      && CollectionRaised(r, ModelDidInsert(r, id))
    ensures id in r.cells && !r.cells[id].isDeleted ==> ModelDidInsert(r, id) == r
    ensures id !in r.cells ==> ModelDidInsert(r, id).cells == r.cells && CollectionRaised(r, ModelDidInsert(r, id))
  {
  }

  /**
   * Inserting does not clear `isDeleted`: a record deleted and then inserted again keeps
   * reporting itself deleted, and its version has gone up twice.
   */
  lemma InsertAfterDeleteStaysDeleted(r: Registry, id: RecordId)
    requires id in r.cells && !r.cells[id].isDeleted
    ensures var r' := ModelDidInsert(ModelDidDelete(r, id), id);
      r'.cells[id] == Cell(r.cells[id].version + 2, true)
  {
  }

  /**
   * `modelDidUpdate(id)` raises a registered cell by one whether or not it is deleted, keeps its
   * flag and every other cell, and raises the collection.
   */
  lemma UpdateBumps(r: Registry, id: RecordId)
    ensures var r' := ModelDidUpdate(r, id);
      && r'.cells.Keys == r.cells.Keys
      && (id in r.cells ==> r'.cells[id] == Cell(r.cells[id].version + 1, r.cells[id].isDeleted))
      && (forall other | other in r.cells && other != id :: r'.cells[other] == r.cells[other])
      && CollectionRaised(r, r')
  {
  }

  /** `collectionDidChange()` leaves every record cell alone and raises only the collection. */
  lemma ChangeTouchesOnlyCollection(r: Registry)
    ensures CollectionDidChange(r).cells == r.cells
    ensures CollectionRaised(r, CollectionDidChange(r))
  {
  }

  /**
   * `collectionDidReset()` raises the collection by one and every registered live cell by
   * exactly one; deleted cells keep their version; no flag changes.
   */
  lemma ResetBumpsLiveCells(r: Registry)
    ensures var r' := CollectionDidReset(r);
      && r'.cells.Keys == r.cells.Keys
      && (forall id | id in r.cells ::
            r'.cells[id].isDeleted == r.cells[id].isDeleted
            && r'.cells[id].version == if r.cells[id].isDeleted then r.cells[id].version else r.cells[id].version + 1)
      && CollectionRaised(r, r')
  {
  }

  /**
   * A record first observed and then updated, deleted and deleted again: version 0, 1, 2, 2,
   * deleted at the end. An insert of the live record in between changes nothing.
   */
  lemma {:induction false} Lifecycle(r: Registry, id: RecordId)
    requires id !in r.cells
    ensures var r' := Run(r, [Track(id), Inserted(id), Updated(id), Deleted(id), Deleted(id)]);
      id in r'.cells && r'.cells[id] == Cell(2, true)
  {
    var es := [Track(id), Inserted(id), Updated(id), Deleted(id), Deleted(id)];
    var r1 := TrackModel(r, id);
    var r2 := ModelDidInsert(r1, id);
    var r3 := ModelDidUpdate(r2, id);
    var r4 := ModelDidDelete(r3, id);
    var r5 := ModelDidDelete(r4, id);
    assert r2 == r1;
    assert r3.cells[id] == Cell(1, false);
    assert r4.cells[id] == Cell(2, true);
    assert r5 == r4;
    calc {
      Run(r, es);
      Run(r1, es[1..]);
      { assert es[1..][1..] == es[2..]; }
      Run(r2, es[2..]);
      { assert es[2..][1..] == es[3..]; }
      Run(r3, es[3..]);
      { assert es[3..][1..] == es[4..]; }
      Run(r4, es[4..]);
      { assert es[4..][1..] == []; }
      Run(r5, []);
    }
  }
}
