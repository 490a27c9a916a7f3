/**
 * The error taxonomy shared by both resource services.  `TodoServiceError` and
 * `UserServiceError` have the same four variants and differ only in the noun
 * used by two of their display strings, so one datatype is used with the
 * resource kind supplying the noun.
 */
module Errors {

  /** The two resource kinds the service manages. */
  datatype Resource = Todo | User

  datatype ServiceError =
    | InvalidId
    | NotFound
    | InsertionFailed
    | DatabaseError(detail: string)

  const DatabaseErrorPrefix: string := "Database error: "

  /** The `Display` text of an error, as `thiserror` derives it. */
  function Display(kind: Resource, e: ServiceError): (s: string)
  {
    match e
    case InvalidId => if kind == Todo then "Invalid todo ID" else "Invalid user ID"
    case NotFound => if kind == Todo then "Todo not found" else "User not found"
    case InsertionFailed => "Insertion failed"
    case DatabaseError(detail) => DatabaseErrorPrefix + detail
  }

  /** The texts of the four todo errors. */
  lemma TodoDisplay(detail: string)
    ensures Display(Todo, InvalidId) == "Invalid todo ID"
    ensures Display(Todo, NotFound) == "Todo not found"
    ensures Display(Todo, InsertionFailed) == "Insertion failed"
    ensures Display(Todo, DatabaseError(detail)) == "Database error: " + detail
  {
  }

  /** The texts of the four user errors. */
  lemma UserDisplay(detail: string)
    ensures Display(User, InvalidId) == "Invalid user ID"
    ensures Display(User, NotFound) == "User not found"
    ensures Display(User, InsertionFailed) == "Insertion failed"
    ensures Display(User, DatabaseError(detail)) == "Database error: " + detail
  {
  }

  /** Only `DatabaseError` carries data: its text starts with the fixed prefix and ends with the detail. */
  lemma DatabaseErrorDisplay(kind: Resource, detail: string)
    ensures |Display(kind, DatabaseError(detail))| == |DatabaseErrorPrefix| + |detail|
    ensures Display(kind, DatabaseError(detail))[..|DatabaseErrorPrefix|] == DatabaseErrorPrefix
    ensures Display(kind, DatabaseError(detail))[|DatabaseErrorPrefix|..] == detail
  {
  }

  /** No fixed error text starts like a database error: their first characters differ. */
  lemma FixedTextNotDatabaseText(kind: Resource, e: ServiceError, detail: string)
    requires !e.DatabaseError?
    ensures Display(kind, e) != Display(kind, DatabaseError(detail))
  {
    assert Display(kind, DatabaseError(detail))[0] == 'D';
    assert Display(kind, e)[0] != 'D';
  }

  /** Distinct errors of one kind never display the same text, so the text determines the error. */
  lemma DisplayInjective(kind: Resource, e1: ServiceError, e2: ServiceError)
    requires Display(kind, e1) == Display(kind, e2)
    ensures e1 == e2
  {
    var s := Display(kind, e1);
    if e1.DatabaseError? && e2.DatabaseError? {
      assert e1.detail == s[|DatabaseErrorPrefix|..] == e2.detail;
    } else if e2.DatabaseError? {
      FixedTextNotDatabaseText(kind, e1, e2.detail);
    } else if e1.DatabaseError? {
      FixedTextNotDatabaseText(kind, e2, e1.detail);
    }
  }
}
