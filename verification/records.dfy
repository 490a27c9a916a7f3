/**
 * The two record types, and an end-to-end run of the services on them.
 * A todo points at its owning user by id; nothing checks that the user exists.
 */
module Records {
  import opened Wrappers
  import opened ObjectIds
  import opened Errors
  import opened TenantCache
  import opened Store
  import opened ResourceService

  /** The non-id fields of a todo: all four are `$set` by an update. */
  datatype TodoFields = TodoFields(title: string, description: string, completed: bool, userId: ObjectId)

  /** The non-id fields of a user: all three are `$set` by an update. */
  datatype UserFields = UserFields(name: string, email: string, password: string)

  type TodoRecord = Doc<TodoFields>
  type UserRecord = Doc<UserFields>

  /**
   * A user created for tenant "acme" reads back under "acme" with exactly the
   * fields supplied, while the same id under tenant "other" is not found.
   */
  method TenantIsolation(generated: ObjectId)
    returns (created: Result<ObjectId, ServiceError>,
             here: Result<UserRecord, ServiceError>,
             there: Result<UserRecord, ServiceError>)
    ensures created == Ok(generated)
    ensures here == Ok(Doc(Some(generated), UserFields("A", "a@x.com", "p")))
    ensures there == Err(NotFound)
  {
    var repo := new MongoRepo();
    var server := new Server<UserFields>();
    var input := Doc(None, UserFields("A", "a@x.com", "p"));
    created := Create(repo, server, User, "acme", input, 0, BsonObjectId(generated), None);
    ParseToHex(generated);
    assert "acme"[0] != "other"[0];
    assert server.Coll(Ns("other", User)) == map[];
    here := Get(repo, server, User, "acme", ToHex(generated), 1, None);
    there := Get(repo, server, User, "other", ToHex(generated), 2, None);
  }

  /** A todo created with an id of the caller's choosing is stored under the generated id instead. */
  method CreateIgnoresCallerId(callerId: ObjectId, generated: ObjectId, fields: TodoFields)
    returns (created: Result<ObjectId, ServiceError>, byCallerId: Result<TodoRecord, ServiceError>)
    requires callerId != generated
    ensures created == Ok(generated)
    ensures byCallerId == Err(NotFound)
  {
    var repo := new MongoRepo();
    var server := new Server<TodoFields>();
    created := Create(repo, server, Todo, "default_db", Doc(Some(callerId), fields), 0, BsonObjectId(generated), None);
    ParseToHex(callerId);
    byCallerId := Get(repo, server, Todo, "default_db", ToHex(callerId), 0, None);
  }
}
