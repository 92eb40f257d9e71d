/**
 * The persistence context behind `FWImpl.DefaultModelService`
 * (CountriesSwiftUI/Framework/Impl/DefaultModelService.swift), seen as a value: the committed
 * store and the edits made since the last save or rollback. `transaction` and `query` are
 * functions from context to context plus the body's result; the lemmas state the bracket's
 * promises: all or nothing, rollback on request, stray edits never leak into a commit.
 */
module ServiceSpec {
  import opened Ids

  /** The committed contents of the store: each persisted record under its id. */
  type Store = map<RecordId, Record>

  /** A change made through an accessor and not yet saved. */
  datatype Edit = Insert(record: Record) | Delete(id: RecordId)

  function ApplyEdit(s: Store, e: Edit): Store {
    match e
    case Insert(r) => s[r.id := r]
    case Delete(id) => s - {id}
  }

  /** The store after the edits, in the order they were made. */
  function Apply(s: Store, edits: seq<Edit>): Store
    decreases |edits|
  {
    if edits == [] then s else Apply(ApplyEdit(s, edits[0]), edits[1..])
  }

  /** A `ModelContext`: what has been saved, and what has been changed since. */
  datatype Context = Context(committed: Store, pending: seq<Edit>)

  /** What a fetch through the context sees: the committed store with the pending edits applied. */
  function View(c: Context): Store {
    Apply(c.committed, c.pending)
  }

  /** `context.save()`: the pending edits become committed. */
  function Save(c: Context): Context {
    Context(View(c), [])
  }

  /** `context.rollback()`: the pending edits are dropped. */
  function Rollback(c: Context): Context {
    Context(c.committed, [])
  }

  /**
   * What a transaction or query body does with the accessor it is given, as a function of what
   * it fetches: the inserts and deletes it makes, whether it called `setRollbackOnly()`, and
   * the value it returns; or that it threw.
   */
  datatype BodyOutcome<T> = Returned(edits: seq<Edit>, rollbackOnly: bool, result: T) | Threw

  /** The context after a call, with the value the call returns. */
  datatype Completion<T> = Completion(context: Context, result: T)

  /**
   * `transaction(block)`: roll back stray edits, run the body on a fresh accessor, then save
   * unless the body asked for rollback, in which case roll back; return the body's value.
   * A throwing body traps (`try!`), so the caller must not pass one.
   */
  function Transaction<T>(c: Context, body: Store -> BodyOutcome<T>): (done: Completion<T>)
    requires body(c.committed).Returned?
    ensures done.result == body(c.committed).result
    ensures done.context.pending == []
    ensures done.context.committed ==
      if body(c.committed).rollbackOnly then c.committed else Apply(c.committed, body(c.committed).edits)
  {
    var started := Rollback(c);
    var out := body(View(started));
    var ran := started.(pending := started.pending + out.edits);
    assert ran.pending == out.edits;
    Completion(if out.rollbackOnly then Rollback(ran) else Save(ran), out.result)
  }

  /**
   * `query(block)`: run the body on a fresh accessor over the context as it is, with no
   * rollback before and no save or rollback after; return the body's value.
   */
  function Query<T>(c: Context, body: Store -> BodyOutcome<T>): (done: Completion<T>)
    requires body(View(c)).Returned?
    ensures done.result == body(View(c)).result
    ensures done.context.committed == c.committed
    ensures done.context.pending == c.pending + body(View(c)).edits
  {
    var out := body(View(c));
    Completion(c.(pending := c.pending + out.edits), out.result)
  }

  /** Applying two runs of edits in turn is applying their concatenation. */
  lemma {:induction false} ApplyAppend(s: Store, xs: seq<Edit>, ys: seq<Edit>)
    ensures Apply(s, xs + ys) == Apply(Apply(s, xs), ys)
    decreases |xs|
  {
    if xs == [] {
      assert xs + ys == ys;
    } else {
      assert (xs + ys)[1..] == xs[1..] + ys;
      ApplyAppend(ApplyEdit(s, xs[0]), xs[1..], ys);
    }
  }

  /** A record inserted last is found under its id; an id deleted last is gone. */
  lemma LastEditWins(s: Store, edits: seq<Edit>, e: Edit)
    ensures e.Insert? ==> e.record.id in Apply(s, edits + [e]) && Apply(s, edits + [e])[e.record.id] == e.record
    ensures e.Delete? ==> e.id !in Apply(s, edits + [e])
  {
    ApplyAppend(s, edits, [e]);
  }

  /**
   * Saving keeps what fetches see and leaves nothing pending; rolling back returns fetches to
   * the committed store; either one twice is the same as once.
   */
  lemma SaveAndRollback(c: Context)
    ensures View(Save(c)) == View(c) && Save(c).pending == []
    ensures View(Rollback(c)) == c.committed && Rollback(c).pending == []
    ensures Save(Save(c)) == Save(c) && Rollback(Rollback(c)) == Rollback(c)
    ensures Rollback(Save(c)) == Save(c)
  {
  }

  /**
   * Edits left pending before a transaction never reach the store: the transaction behaves as
   * if the context held only its committed store.
   */
  lemma TransactionDiscardsStrayEdits<T>(c: Context, body: Store -> BodyOutcome<T>)
    requires body(c.committed).Returned?
    ensures Transaction(c, body) == Transaction(Context(c.committed, []), body)
  {
  }

  /**
   * A query commits nothing, and its stray edits are visible only until the next transaction,
   * which discards them before running its own body.
   */
  lemma QueryEditsNeverCommitted<T, U>(c: Context, q: Store -> BodyOutcome<U>, body: Store -> BodyOutcome<T>)
    requires q(View(c)).Returned?
    requires body(c.committed).Returned?
    ensures Query(c, q).context.committed == c.committed
    ensures View(Query(c, q).context) == Apply(View(c), q(View(c)).edits)
    ensures Transaction(Query(c, q).context, body) == Transaction(c, body)
  {
    ApplyAppend(c.committed, c.pending, q(View(c)).edits);
  }

  /**
   * What a later query sees after a transaction: the body's edits when it did not ask for
   * rollback, and the store from before the transaction when it did.
   */
  lemma QuerySeesTransaction<T, U>(c: Context, body: Store -> BodyOutcome<T>, q: Store -> BodyOutcome<U>)
    requires body(c.committed).Returned?
    requires q(View(Transaction(c, body).context)).Returned?
    ensures var out := body(c.committed);
      q(View(Transaction(c, body).context)) ==
        q(if out.rollbackOnly then c.committed else Apply(c.committed, out.edits))
  {
  }

  /** Two committing transactions in a row commit the first body's edits and then the second's. */
  lemma TransactionsCompose<T, U>(c: Context, b1: Store -> BodyOutcome<T>, b2: Store -> BodyOutcome<U>)
    requires b1(c.committed).Returned? && !b1(c.committed).rollbackOnly
    requires b2(Transaction(c, b1).context.committed).Returned?
    requires !b2(Transaction(c, b1).context.committed).rollbackOnly
    ensures var e1 := b1(c.committed).edits;
      var e2 := b2(Transaction(c, b1).context.committed).edits;
      Transaction(Transaction(c, b1).context, b2).context == Context(Apply(c.committed, e1 + e2), [])
  {
    var c1 := Transaction(c, b1).context;
    ApplyAppend(c.committed, b1(c.committed).edits, b2(c1.committed).edits);
  }
}
