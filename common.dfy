/** Values shared by every model: optional values, the errors a model call can end
    with, and the scalar types of the store's columns. */
module Common {

  /** A primary or foreign key: the text of a uuid. */
  type Id = string

  /** A point in time read from the clock (`new Date()`, `NOW()`, `CURRENT_TIMESTAMP`). */
  type Time = int

  /** A calendar date column, stored as the text the caller supplied. */
  type Date = string

  /** A price column. No code path does arithmetic on it, so it is an opaque number. */
  type Price = int

  /** A column or argument that may be absent (`undefined`) or SQL NULL. */
  datatype Option<T> = None | Some(value: T) {
    function GetOr(default: T): T {
      match this
      case Some(v) => v
      case None => default
    }
  }

  /** JavaScript truthiness of an optional key: `undefined` and the empty string are falsy. */
  predicate Given(o: Option<Id>) {
    o.Some? && o.value != ""
  }

  /** Errors raised by the relational store while running a statement. */
  datatype DbError =
    | UniqueViolation(table: string)      // an INSERT or UPDATE reuses an existing primary key
    | MultipleAssignments(column: string) // an UPDATE assigns the same column twice
    | UndefinedTable(name: string)        // a SELECT names a relation the schema does not define

  /** How a model call fails. */
  datatype Error =
    | Thrown(message: string)             // `throw new Error(message)`
    | HttpError(status: nat, message: string) // `throw { status, message }`
    | Db(cause: DbError)                  // the store rejected a statement

  datatype Result<T> = Ok(value: T) | Err(error: Error)
}
