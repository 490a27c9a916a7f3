/**
 * The HTTP handlers (`todo_handler.rs`, `user_handler.rs`): each takes the
 * tenant from the request headers, calls one service operation and turns its
 * result into a response.  Errors map to statuses by a total function over
 * the four error variants, with the error's display text as the body.
 */
module Handlers {
  import opened Wrappers
  import opened ObjectIds
  import opened Errors
  import opened TenantCache
  import opened Store
  import opened RequestHeaders
  import opened ResourceService

  const StatusOk: nat := 200
  const StatusBadRequest: nat := 400
  const StatusNotFound: nat := 404
  const StatusInternalServerError: nat := 500

  /** A response body: plain text or a value serialised as JSON. */
  datatype Body<V> = Text(text: string) | Json(value: V)

  datatype Response<V> = Response(status: nat, body: Body<V>)

  /** `map_service_error_to_response`. */
  function ErrorResponse<V>(kind: Resource, e: ServiceError): (resp: Response<V>)
    ensures resp.status == StatusBadRequest <==> e == InvalidId
    ensures resp.status == StatusNotFound <==> e == NotFound
    ensures resp.status == StatusInternalServerError <==> e == InsertionFailed || e.DatabaseError?
    ensures resp.body == Text(Display(kind, e))
  {
    match e
    case InvalidId => Response(StatusBadRequest, Text(Display(kind, e)))
    case NotFound => Response(StatusNotFound, Text(Display(kind, e)))
    case InsertionFailed => Response(StatusInternalServerError, Text(Display(kind, e)))
    case DatabaseError(_) => Response(StatusInternalServerError, Text(Display(kind, e)))
  }

  /** A client can tell every error apart from its response alone. */
  lemma ErrorResponseDeterminesError<V>(kind: Resource, e1: ServiceError, e2: ServiceError)
    requires ErrorResponse<V>(kind, e1) == ErrorResponse<V>(kind, e2)
    ensures e1 == e2
  {
    DisplayInjective(kind, e1, e2);
  }

  /** The todo handlers' error responses. */
  lemma TodoErrorResponses(detail: string)
    ensures ErrorResponse<()>(Todo, InvalidId) == Response(400, Text("Invalid todo ID"))
    ensures ErrorResponse<()>(Todo, NotFound) == Response(404, Text("Todo not found"))
    ensures ErrorResponse<()>(Todo, InsertionFailed) == Response(500, Text("Insertion failed"))
    ensures ErrorResponse<()>(Todo, DatabaseError(detail)) == Response(500, Text("Database error: " + detail))
  {
  }

  /** The user handlers' error responses. */
  lemma UserErrorResponses(detail: string)
    ensures ErrorResponse<()>(User, InvalidId) == Response(400, Text("Invalid user ID"))
    ensures ErrorResponse<()>(User, NotFound) == Response(404, Text("User not found"))
    ensures ErrorResponse<()>(User, InsertionFailed) == Response(500, Text("Insertion failed"))
    ensures ErrorResponse<()>(User, DatabaseError(detail)) == Response(500, Text("Database error: " + detail))
  {
  }

  /** Create, get and list: 200 with the service's value as JSON, or the error response. */
  function JsonResponse<V>(kind: Resource, r: Result<V, ServiceError>): (resp: Response<V>)
    ensures resp.status == StatusOk <==> r.Ok?
    ensures r.Ok? ==> resp.body == Json(r.value)
    ensures r.Err? ==> resp == ErrorResponse(kind, r.error)
  {
    match r
    case Ok(v) => Response(StatusOk, Json(v))
    case Err(e) => ErrorResponse(kind, e)
  }

  function UpdatedMessage(kind: Resource): string {
    if kind == Todo then "Todo updated successfully" else "User updated successfully"
  }

  function DeletedMessage(kind: Resource): string {
    if kind == Todo then "Todo deleted successfully" else "User deleted successfully"
  }

  /** Update and delete: 200 with a fixed text, or the error response. */
  function MessageResponse(kind: Resource, r: Result<(), ServiceError>, message: string): (resp: Response<()>)
    ensures resp.status == StatusOk <==> r.Ok?
    ensures r.Ok? ==> resp.body == Text(message)
    ensures r.Err? ==> resp == ErrorResponse(kind, r.error)
  {
    match r
    case Ok(_) => Response(StatusOk, Text(message))
    case Err(e) => ErrorResponse(kind, e)
  }

  /** The success texts of the todo update and delete handlers. */
  lemma TodoSuccessMessages()
    ensures MessageResponse(Todo, Ok(()), UpdatedMessage(Todo)) == Response(200, Text("Todo updated successfully"))
    ensures MessageResponse(Todo, Ok(()), DeletedMessage(Todo)) == Response(200, Text("Todo deleted successfully"))
  {
  }

  /** The success texts of the user update and delete handlers. */
  lemma UserSuccessMessages()
    ensures MessageResponse(User, Ok(()), UpdatedMessage(User)) == Response(200, Text("User updated successfully"))
    ensures MessageResponse(User, Ok(()), DeletedMessage(User)) == Response(200, Text("User deleted successfully"))
  {
  }

  // ---------------------------------------------------------------------------
  // The handlers

  method HandleCreate<F>(repo: MongoRepo, server: Server<F>, kind: Resource, headers: seq<Header>,
                         input: Doc<F>, now: nat, generated: Bson, fault: Option<string>)
    returns (resp: Response<ObjectId>)
    requires repo.Valid() && repo.clock <= now
    modifies repo, server
    ensures repo.Valid() && GotDb(repo, ExtractDbName(headers), now)
    ensures var ns := Ns(ExtractDbName(headers), kind);
            var s := CreateStep(old(server.Coll(ns)), input, generated, fault);
            resp == JsonResponse(kind, s.result) && server.Coll(ns) == s.coll
    ensures forall ns :: ns != Ns(ExtractDbName(headers), kind) ==> server.Coll(ns) == old(server.Coll(ns))
    ensures server.accesses == old(server.accesses) + 1
  {
    var dbName := ExtractDbName(headers);
    var r := Create(repo, server, kind, dbName, input, now, generated, fault);
    resp := JsonResponse(kind, r);
  }

  method HandleGet<F>(repo: MongoRepo, server: Server<F>, kind: Resource, headers: seq<Header>,
                      idText: string, now: nat, fault: Option<string>)
    returns (resp: Response<Doc<F>>)
    requires repo.Valid() && repo.clock <= now
    modifies repo, server`accesses
    ensures repo.Valid() && GotDb(repo, ExtractDbName(headers), now)
    ensures resp == JsonResponse(kind, GetResult(server.Coll(Ns(ExtractDbName(headers), kind)), idText, fault))
    ensures server.accesses == old(server.accesses) + (if ParseObjectId(idText).Some? then 1 else 0)
  {
    var dbName := ExtractDbName(headers);
    var r := Get(repo, server, kind, dbName, idText, now, fault);
    resp := JsonResponse(kind, r);
  }

  method HandleUpdate<F>(repo: MongoRepo, server: Server<F>, kind: Resource, headers: seq<Header>,
                         idText: string, fields: F, now: nat, fault: Option<string>)
    returns (resp: Response<()>)
    requires repo.Valid() && repo.clock <= now
    modifies repo, server
    ensures repo.Valid() && GotDb(repo, ExtractDbName(headers), now)
    ensures var ns := Ns(ExtractDbName(headers), kind);
            var s := UpdateStep(old(server.Coll(ns)), idText, fields, fault);
            resp == MessageResponse(kind, s.result, UpdatedMessage(kind)) && server.Coll(ns) == s.coll
    ensures forall ns :: ns != Ns(ExtractDbName(headers), kind) ==> server.Coll(ns) == old(server.Coll(ns))
    ensures server.accesses == old(server.accesses) + (if ParseObjectId(idText).Some? then 1 else 0)
  {
    var dbName := ExtractDbName(headers);
    var r := Update(repo, server, kind, dbName, idText, fields, now, fault);
    resp := MessageResponse(kind, r, UpdatedMessage(kind));
  }

  method HandleDelete<F>(repo: MongoRepo, server: Server<F>, kind: Resource, headers: seq<Header>,
                         idText: string, now: nat, fault: Option<string>)
    returns (resp: Response<()>)
    requires repo.Valid() && repo.clock <= now
    modifies repo, server
    ensures repo.Valid() && GotDb(repo, ExtractDbName(headers), now)
    ensures var ns := Ns(ExtractDbName(headers), kind);
            var s := DeleteStep(old(server.Coll(ns)), idText, fault);
            resp == MessageResponse(kind, s.result, DeletedMessage(kind)) && server.Coll(ns) == s.coll
    ensures forall ns :: ns != Ns(ExtractDbName(headers), kind) ==> server.Coll(ns) == old(server.Coll(ns))
    ensures server.accesses == old(server.accesses) + (if ParseObjectId(idText).Some? then 1 else 0)
  {
    var dbName := ExtractDbName(headers);
    var r := Delete(repo, server, kind, dbName, idText, now, fault);
    resp := MessageResponse(kind, r, DeletedMessage(kind));
  }

  method HandleList<F>(repo: MongoRepo, server: Server<F>, kind: Resource, headers: seq<Header>, now: nat,
                       findFault: Option<string>, itemFaults: map<nat, string>)
    returns (resp: Response<seq<Doc<F>>>)
    requires repo.Valid() && repo.clock <= now
    modifies repo, server`accesses
    ensures repo.Valid() && GotDb(repo, ExtractDbName(headers), now)
    ensures var coll := server.Coll(Ns(ExtractDbName(headers), kind));
      && (resp.status == StatusOk <==> findFault.None? && forall i :: 0 <= i < |coll| ==> i !in itemFaults)
      && (resp.status == StatusOk ==> resp.body.Json? && IsListing(resp.body.value, coll))
      && (findFault.Some? ==> resp == ErrorResponse(kind, DatabaseError(findFault.value)))
      && (findFault.None? && resp.status != StatusOk ==>
            exists i :: 0 <= i < |coll| && i in itemFaults && resp == ErrorResponse(kind, DatabaseError(itemFaults[i]))
                        && forall j :: 0 <= j < i ==> j !in itemFaults)
    ensures resp.status != StatusOk ==> resp.status == StatusInternalServerError
    ensures server.accesses == old(server.accesses) + 1
  {
    var dbName := ExtractDbName(headers);
    var r := List(repo, server, kind, dbName, now, findFault, itemFaults);
    resp := JsonResponse(kind, r);
  }
}
