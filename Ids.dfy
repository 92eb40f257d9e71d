/**
 * Identities and records shared by the tracker, the bindings and the service.
 */
module Ids {

  /** A record's persistent identifier: opaque, stable, compared by equality. */
  type RecordId(==)

  /** Everything a persisted record holds besides its identifier. */
  type Attributes(==)

  /** A persisted record (an instance of a schema class such as `User`). */
  datatype Record = Record(id: RecordId, attributes: Attributes)

  datatype Option<+T> = None | Some(value: T)
}
