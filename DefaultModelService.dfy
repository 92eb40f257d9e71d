/**
 * `FWImpl.DefaultModelService` and its `Accessor`
 * (CountriesSwiftUI/Framework/Impl/DefaultModelService.swift), over a `ModelContext` object
 * shared by every call. The service actor runs one call at a time, so each method below is one
 * whole call; each is proved to move the context exactly as the matching function of
 * `ServiceSpec` does.
 */
module DefaultModelService {
  import opened Ids
  import opened ServiceSpec

  /** The persistence context the service actor owns. */
  class ModelContext {
    var committed: Store
    var pending: seq<Edit>

    function Value(): Context
      reads this
    {
      Context(committed, pending)
    }

    constructor (committed: Store)
      ensures Value() == Context(committed, [])
    {
      this.committed := committed;
      pending := [];
    }

    /** `save()`. */
    method Save()
      modifies this
      ensures Value() == ServiceSpec.Save(old(Value()))
    {
      committed := Apply(committed, pending);
      pending := [];
    }

    /** `rollback()`. */
    method Rollback()
      modifies this
      ensures Value() == ServiceSpec.Rollback(old(Value()))
    {
      pending := [];
    }

    /** Inserts and deletes made through the context, in order; they stay pending until saved. */
    method Change(edits: seq<Edit>)
      modifies this
      ensures Value() == old(Value()).(pending := old(pending) + edits)
    {
      pending := pending + edits;
    }
  }

  /** `Accessor`: the capability handed to a body. */
  class Accessor {
    const context: ModelContext
    var shouldRollback: bool

    constructor (context: ModelContext)
      ensures this.context == context && !shouldRollback
    {
      this.context := context;
      shouldRollback := false;
    }

    /** `setRollbackOnly()`: only ever sets the flag, so calling it again changes nothing. */
    method SetRollbackOnly()
      modifies this
      ensures shouldRollback
    {
      shouldRollback := true;
    }

    /** `insert(model)`, forwarded to the context. */
    method Insert(r: Record)
      modifies context
      ensures context.Value() == old(context.Value()).(pending := old(context.pending) + [ServiceSpec.Insert(r)])
    {
      context.Change([ServiceSpec.Insert(r)]);
    }

    /** `delete(model)`, forwarded to the context. */
    method Delete(id: RecordId)
      modifies context
      ensures context.Value() == old(context.Value()).(pending := old(context.pending) + [ServiceSpec.Delete(id)])
    {
      context.Change([ServiceSpec.Delete(id)]);
    }
  }

  class DefaultModelService {
    const context: ModelContext
    /** `Accessor.nestLevel`: how many transactions the current task is inside. */
    var nestLevel: nat

    constructor (context: ModelContext)
      ensures this.context == context && nestLevel == 0
    {
      this.context := context;
      nestLevel := 0;
    }

    /**
     * `transaction(block)`. Starting with a nest level other than 0 is `fatalError`, and a body
     * that throws traps in `try!`: both are excluded by the precondition.
     */
    method Transaction<T>(body: Store -> BodyOutcome<T>) returns (r: T)
      requires nestLevel == 0
      requires body(context.committed).Returned?
      modifies this, context
      ensures nestLevel == 0
      ensures Completion(context.Value(), r) == ServiceSpec.Transaction(old(context.Value()), body)
    {
      var level := nestLevel;
      // Do not save edits made outside a transaction.
      context.Rollback();
      var accessor := new Accessor(context);
      var success := false;
      nestLevel := level + 1;
      // The body runs against `accessor`, seeing the rolled-back context; its inserts and
      // deletes go to the context, and it may ask for rollback.
      assert nestLevel == 1 && !accessor.shouldRollback && context.pending == [];
      var out := body(View(context.Value()));
      context.Change(out.edits);
      if out.rollbackOnly {
        accessor.SetRollbackOnly();
      }
      nestLevel := level;
      success := true;
      // The deferred block.
      if success && !accessor.shouldRollback {
        context.Save();
      } else {
        context.Rollback();
      }
      r := out.result;
    }

    /** `query(block)`: the body runs on a fresh accessor; nothing is saved or rolled back. */
    method Query<T>(body: Store -> BodyOutcome<T>) returns (r: T)
      requires body(View(context.Value())).Returned?
      modifies context
      ensures nestLevel == old(nestLevel)
      ensures Completion(context.Value(), r) == ServiceSpec.Query(old(context.Value()), body)
    {
      var accessor := new Accessor(context);
      var out := body(View(context.Value()));
      context.Change(out.edits);
      if out.rollbackOnly {
        accessor.SetRollbackOnly();
      }
      r := out.result;
    }
  }
}
