# Multi-tenant record service: a Dafny model

This project models the decision logic of a small multi-tenant REST service
written in Rust on actix-web, mongodb and moka. A request names its tenant in
the `_db` header. Each tenant gets its own database handle, which is created
lazily and kept in a cache that expires entries after 15 minutes of idleness.
Two resources, todos and users, support create / get / update / delete / list
against the tenant's `todos` or `users` collection. Service errors belong to
a closed four-variant taxonomy, and a total function maps them to HTTP
statuses and bodies.

Files and modules:

- `wrappers.dfy` (`Wrappers`): `Option` and `Result`.
- `bytes.dfy` (`Bytes`): the octet type shared by header values and object ids.
- `object_id.dfy` (`ObjectIds`): 12-byte object ids and their 24-digit hexadecimal text.
  This stands for bson's `ObjectId::parse_str` / `to_hex`, which are not part of this
  model. The assumption is that parsing hex-decodes the text, in either case, and
  then demands exactly 12 bytes.
- `errors.dfy` (`Errors`): the resource kind (`Todo`, `User`), the error taxonomy and its
  display texts.
- `headers.dfy` (`RequestHeaders`): `extract_db_name`.
- `tenant_cache.dfy` (`TenantCache`): the handle cache of `MongoRepo`. The class `MongoRepo`
  holds the cache map, each entry's last-access time and a count of handles built. The
  idle window is the constant `IdleWindowSeconds = 15 * 60 = 900`
  (src/db.rs:24). Time is the parameter `now`, which never goes back: the ghost
  field `clock` holds the latest time seen, and every call requires `now >= clock`. An entry is returned only while
  `now < lastAccess + 900`, and every access restarts its clock. Background
  expiry is the explicit steps `Evict` and `EvictExpired`.
- `store.dfy` (`Store`): an abstract stand-in for the document store. It keeps one map
  from object id to fields per (database, collection) namespace. Every call takes its
  fault as a parameter, and `accesses` counts the collection calls made.
- `service.dfy` (`ResourceService`): the two service files, written once for both
  kinds. A record is `Doc<F>`, an optional `_id` plus the fields `F`. Both update
  services `$set` every non-id field, so an update replaces `F`. Pure functions
  (`CreateStep`, `GetResult`, `UpdateStep`, `DeleteStep`, `Collect`) say what each
  operation returns and what the collection becomes. The methods perform the operation
  against the cache and the store and are proved to agree with those functions.
- `handlers.dfy` (`Handlers`): error-to-response mapping, success responses and the
  five handlers.
- `records.dfy` (`Records`): the todo and user field types, and two end-to-end
  scenarios proved over the service methods.

The todo and user files have the same structure, line for line. The generic members
below cite one of the two files. The other file's matching lines are: `user_service.rs`
11-36 (create), 38-53 (get), 55-83 (update), 85-105 (delete), 107-127 (list);
`user_handler.rs` 11-22, 24-35, 37-50, 52-63, 65-76 (handlers) and 78-85 (error
mapping). The two kinds differ only in constants, which `Resource` supplies:
the collection name, the nouns in the display texts and the success texts.

Facts about the code that the model keeps:
- The collections are named `todos` and `users` (src/todo/todo_service.rs:17,
  src/user/user_service.rs:17).
- Building a handle cannot fail: `client.database(name)` does no I/O, so `get_db`
  always yields a handle (src/db.rs:34).
- Nothing serialises handle creation: `get_db` checks the cache and then inserts
  (src/db.rs:31-36). The model is sequential, so this race does not show in it.

## Model

| member | source | states |
|---|---|---|
| `TenantCache.MongoRepo.constructor` | src/db.rs:23-27 | the cache starts empty and no handle has been built |
| `TenantCache.MongoRepo.GetDb` | src/db.rs:30-38 | on a live entry, returns the cached handle, builds nothing and only refreshes that entry's idle clock; otherwise builds exactly one new handle bound to the name, stores it under that name and returns it; never fails; every other tenant's entry is unchanged |
| `TenantCache.Database.constructor` | src/db.rs:34 | a new handle is bound to the tenant name it was built for |
| `TenantCache.MongoRepo.Evict` | src/db.rs:23-25 | background eviction removes one entry and changes nothing else |
| `TenantCache.MongoRepo.EvictExpired` | src/db.rs:23-25 | after expiry at time `now`, exactly the entries touched within the last 900 seconds remain, with their handles |
| `TenantCache.DistinctTenantsDistinctHandles` | src/db.rs:31-36 | two different tenants never share a cached handle |
| `TenantCache.RepeatedGetDb` | src/db.rs:31-36 | two calls for one tenant within the idle window return the same handle, and the creation count rises by at most one |
| `TenantCache.GetDbAfterEvict` | src/db.rs:24-36 | after an entry is evicted, the next call for that tenant builds a new, different handle |
| `ObjectIds.ParseObjectId` | src/todo/todo_service.rs:47 | an id text parses exactly when it is 24 hexadecimal digits |
| `ObjectIds.ParseToHex` | src/todo/todo_service.rs:29-30 | the text form of every id parses back to that id, so a returned id can be used to fetch the record |
| `ObjectIds.ToHexParse` | src/user/user_service.rs:46 | a lower-case id text is exactly the text form of the id it parses to |
| `Errors.TodoDisplay` | src/todo/todo_errors.rs:5-14 | "Invalid todo ID", "Todo not found", "Insertion failed", and "Database error: " followed by the detail |
| `Errors.UserDisplay` | src/user/user_errors.rs:5-14 | "Invalid user ID", "User not found", "Insertion failed", and "Database error: " followed by the detail |
| `Errors.DatabaseErrorDisplay` | src/todo/todo_errors.rs:12-13 | the database-error text is the fixed prefix followed by the carried detail, unchanged |
| `Errors.DisplayInjective` | src/user/user_errors.rs:5-14 | distinct errors of one kind have distinct texts, so the text determines the variant and its detail |
| `RequestHeaders.GetHeader` | src/utils/mod.rs:4-5 | finds a value exactly when some header has the name, and the value is that of the first such header |
| `RequestHeaders.ExtractDbName` | src/utils/mod.rs:3-9 | the result is "default_db" exactly when the `_db` header is absent, is not visible text, or itself reads "default_db" |
| `RequestHeaders.ExtractReadable` | src/utils/mod.rs:4-8 | a `_db` header that is visible text is returned unchanged |
| `RequestHeaders.ExtractAbsent` | src/utils/mod.rs:7 | without a `_db` header the tenant is "default_db" |
| `RequestHeaders.ExtractUnreadable` | src/utils/mod.rs:6-7 | a `_db` header that is not visible text also gives "default_db" |
| `RequestHeaders.OnlyDbHeaderMatters` | src/utils/mod.rs:5 | requests whose `_db` headers agree extract the same tenant, whatever their other headers |
| `ResourceService.InsertOutcome` | src/todo/todo_service.rs:27-36 | an object-id reply is the new id; a reply that is not an object id is `InsertionFailed`; a store fault is `DatabaseError` with its text |
| `ResourceService.FindOneOutcome` | src/todo/todo_service.rs:49-53 | the found record, `NotFound` when none matched, `DatabaseError` on a fault |
| `ResourceService.CountOutcome` | src/todo/todo_service.rs:80-84 | success exactly when the matched or deleted count is 1; any other count is `NotFound`; a fault is `DatabaseError` |
| `ResourceService.Collect` | src/todo/todo_service.rs:121-128 | succeeds exactly when no cursor item is a fault, returning every item in cursor order; otherwise it is the first fault, and the items collected before it are discarded |
| `ResourceService.DrainCursor` | src/todo/todo_service.rs:121-127 | the `while let` loop computes exactly `Collect` of the cursor |
| `ResourceService.CreateStep` | src/todo/todo_service.rs:16-36 | the caller's id is ignored and the fields are stored unchanged under the generated id, which is returned; otherwise `InsertionFailed` or `DatabaseError`, and nothing is stored |
| `ResourceService.GetResult` | src/todo/todo_service.rs:44-53 | an unparsable id is `InvalidId`; otherwise the record with that id, `NotFound` if there is none, `DatabaseError` on a fault |
| `ResourceService.UpdateStep` | src/todo/todo_service.rs:62-84 | succeeds exactly when the id parses and names a stored record; only that record's fields are replaced, under the same id; on any error the collection is unchanged |
| `ResourceService.DeleteStep` | src/todo/todo_service.rs:92-106 | succeeds exactly when the id parses and names a stored record, which alone is removed; on any error the collection is unchanged |
| `ResourceService.CreateThenGet` | src/todo/todo_service.rs:19-30 | fetching a created record by its returned id gives exactly the supplied fields under that id |
| `ResourceService.UpdateThenGet` | src/user/user_service.rs:66-82 | after a successful update, get returns the new field values under the same id |
| `ResourceService.UpdateRepeatable` | src/user/user_service.rs:78-82 | repeating a successful update succeeds again and leaves the collection as it was, because success depends on the match, not on a modification |
| `ResourceService.DeleteTwice` | src/user/user_service.rs:95-104 | a second delete of the same id is `NotFound` and changes nothing |
| `ResourceService.OthersUntouched` | src/user/user_service.rs:66-73 | update and delete leave every other record as it was |
| `ResourceService.Create` | src/todo/todo_service.rs:11-37 | fetches the tenant's handle first, then does `CreateStep` on that tenant's todos or users collection, leaves every other collection unchanged, and makes one store call |
| `ResourceService.Get` | src/todo/todo_service.rs:39-54 | fetches the handle first (so the cache may gain an entry), returns `GetResult` for the tenant's collection, and makes a store call only when the id parses |
| `ResourceService.Update` | src/todo/todo_service.rs:56-85 | fetches the handle first, does `UpdateStep` on the tenant's collection, leaves other collections unchanged, and makes no store call for an unparsable id |
| `ResourceService.Delete` | src/todo/todo_service.rs:87-107 | fetches the handle first, does `DeleteStep` on the tenant's collection, leaves other collections unchanged, and makes no store call for an unparsable id |
| `ResourceService.List` | src/todo/todo_service.rs:109-129 | a find fault is `DatabaseError`; otherwise succeeds exactly when no item faults, listing every record of the tenant's collection exactly once, and on an item fault returns the first one |
| `ResourceService.DrainedCursor` | src/todo/todo_service.rs:118-128 | draining a cursor over the whole collection lists every record exactly once, or stops at the first faulty position |
| `Handlers.ErrorResponse` | src/todo/todo_handler.rs:82-89 | total over the four variants: `InvalidId` is 400, `NotFound` is 404, `InsertionFailed` and `DatabaseError` are 500; the body is the error's display text |
| `Handlers.ErrorResponseDeterminesError` | src/user/user_handler.rs:78-85 | different errors of one kind always give different responses |
| `Handlers.TodoErrorResponses` | src/todo/todo_handler.rs:84-87 | the four todo error responses, with their statuses and texts |
| `Handlers.UserErrorResponses` | src/user/user_handler.rs:80-83 | the four user error responses, with their statuses and texts |
| `Handlers.JsonResponse` | src/todo/todo_handler.rs:20-23 | status 200 exactly on success, with the service's value as the JSON body; otherwise the error response |
| `Handlers.MessageResponse` | src/user/user_handler.rs:46-49 | status 200 exactly on success, with the fixed text; otherwise the error response |
| `Handlers.TodoSuccessMessages` | src/todo/todo_handler.rs:48-63 | update gives 200 "Todo updated successfully"; delete gives 200 "Todo deleted successfully" |
| `Handlers.UserSuccessMessages` | src/user/user_handler.rs:46-61 | update gives 200 "User updated successfully"; delete gives 200 "User deleted successfully" |
| `Handlers.HandleCreate` | src/todo/todo_handler.rs:12-24 | uses the tenant from `extract_db_name`; the response is the JSON response of that tenant's `CreateStep`; every other collection is unchanged; one store call |
| `Handlers.HandleGet` | src/user/user_handler.rs:24-35 | uses the tenant from `extract_db_name`; the response is the JSON response of `GetResult`; a store call only when the id parses |
| `Handlers.HandleUpdate` | src/todo/todo_handler.rs:39-52 | uses the tenant from `extract_db_name`; the response is the message response of `UpdateStep`, with the kind's "updated" text; every other collection is unchanged; no store call for an unparsable id |
| `Handlers.HandleDelete` | src/user/user_handler.rs:52-63 | uses the tenant from `extract_db_name`; the response is the message response of `DeleteStep`, with the kind's "deleted" text; every other collection is unchanged; no store call for an unparsable id |
| `Handlers.HandleList` | src/todo/todo_handler.rs:67-79 | uses the tenant from `extract_db_name`; gives 200 with a listing of every record exactly when nothing faults; otherwise the error response of the find fault, or of the first faulty item, with status 500 |
| `Records.TenantIsolation` | src/user/user_service.rs:16-52 | a user created for "acme" reads back with exactly its fields under "acme", and the same id is `NotFound` under "other" |
| `Records.CreateIgnoresCallerId` | src/todo/todo_service.rs:19-25 | a todo created with a caller-chosen id is stored under the generated id, so the caller's id finds nothing |

## Left out

- Concurrency is left out: async/await, `Arc` reference counting, and the race
  between the cache lookup and the insert in `get_db`. The model handles one call at a time.
- `MongoRepo::init` is left out (reading dotenv and `MONGODB_URI`, opening the client),
  except for the 900-second idle constant.
- The start-up and routing files are left out (`src/main.rs`, `src/routes/mod.rs`,
  `src/todo/todo_router.rs`). They are configuration and I/O. The user router is not
  part of this model.
- JSON (de)serialisation of requests and responses is left out, and so is `log_memory_usage`.
- moka's timer wheel and background scheduling are left out. Time is a parameter, and
  expiry happens only in the explicit eviction steps or in the liveness test on lookup.
- The document store is an abstract map, not mongodb. A faulty call has no effect,
  and its text stands for the driver error's `to_string()`. A duplicate `_id` on
  insert is refused with the model's own text `DuplicateKeyError`.
- When the store reports an inserted `_id` that is not an object id, the model records
  nothing under it. With the real driver a generated `_id` is always an object id.
- `ObjectId::parse_str` is an assumption about bson, as described above, and is not
  taken from that library's source.
- HTTP header names are taken as already lower-case. When a request has several
  `_db` headers, the first is used, as `HeaderMap::get` does.
- `ResourceService.List`: states that the result lists every record exactly once, but
  not in what order, because the cursor's order is internal to the call (the loop
  itself, `DrainCursor`, is proved to keep cursor order).
- The resource kind and the record's field type are separate parameters of the generic
  service; nothing in the model stops a caller from pairing `Todo` with user fields.
  Each Rust service file fixes both together.
- `Handlers.HandleList`: same as `ResourceService.List`; the order of the listed records is not stated.
