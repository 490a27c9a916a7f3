/**
 * The resource services (`todo_service.rs`, `user_service.rs`), written once
 * for both kinds.  A record is a `Doc<F>`: its optional `_id` and its other
 * fields `F`.  Both update services `$set` every non-id field, so an update
 * replaces `F` and keeps the `_id`.
 *
 * Each operation first fetches the tenant's handle from the cache, then works
 * on the kind's collection ("todos" or "users") of that tenant.  The pure
 * functions below say what each operation returns and what the collection
 * becomes; the methods perform the operation against the store and are
 * proved to agree with them.
 *
 * The kind and the field type are separate parameters: the caller pairs
 * `Todo` with todo fields and `User` with user fields, as each Rust service
 * file fixes both at once.
 */
module ResourceService {
  import opened Wrappers
  import opened ObjectIds
  import opened Errors
  import opened TenantCache
  import opened Store

  function CollectionName(kind: Resource): string {
    if kind == Todo then "todos" else "users"
  }

  /** The collection an operation of `kind` for tenant `dbName` works on. */
  function Ns(dbName: string, kind: Resource): Namespace {
    Namespace(dbName, CollectionName(kind))
  }

  /** A result together with the collection it leaves behind. */
  datatype Step<V, F> = Step(result: Result<V, ServiceError>, coll: map<ObjectId, F>)

  // ---------------------------------------------------------------------------
  // Mapping store replies to service results

  /** Create: an object-id reply is the new id; any other reply is `InsertionFailed`; a fault is `DatabaseError`. */
  function InsertOutcome(reply: Result<Bson, string>): (r: Result<ObjectId, ServiceError>)
    ensures r.Ok? <==> reply.Ok? && reply.value.BsonObjectId?
    ensures r.Ok? ==> r.value == reply.value.oid
    ensures reply.Ok? && reply.value.BsonOther? ==> r == Err(InsertionFailed)
    ensures reply.Err? ==> r == Err(DatabaseError(reply.error))
  {
    match reply
    case Ok(BsonObjectId(id)) => Ok(id)
    case Ok(BsonOther(_)) => Err(InsertionFailed)
    case Err(msg) => Err(DatabaseError(msg))
  }

  /** Get: the document found, `NotFound` when there is none, `DatabaseError` on a fault. */
  function FindOneOutcome<F>(reply: Result<Option<Doc<F>>, string>): (r: Result<Doc<F>, ServiceError>)
    ensures r.Ok? <==> reply.Ok? && reply.value.Some?
    ensures r.Ok? ==> r.value == reply.value.value
    ensures reply == Ok(None) ==> r == Err(NotFound)
    ensures reply.Err? ==> r == Err(DatabaseError(reply.error))
  {
    match reply
    case Ok(Some(doc)) => Ok(doc)
    case Ok(None) => Err(NotFound)
    case Err(msg) => Err(DatabaseError(msg))
  }

  /** Update and delete: success exactly when the count is one; any other count is `NotFound`. */
  function CountOutcome(reply: Result<nat, string>): (r: Result<(), ServiceError>)
    ensures r.Ok? <==> reply == Ok(1)
    ensures reply.Ok? && reply.value != 1 ==> r == Err(NotFound)
    ensures reply.Err? ==> r == Err(DatabaseError(reply.error))
  {
    match reply
    case Ok(count) => if count == 1 then Ok(()) else Err(NotFound)
    case Err(msg) => Err(DatabaseError(msg))
  }

  /**
   * The list loop: every item the cursor yields, in order, or the first fault
   * the cursor yields, with the items before it discarded.
   */
  function Collect<V>(items: seq<Result<V, string>>): (r: Result<seq<V>, ServiceError>)
    ensures r.Ok? <==> forall i :: 0 <= i < |items| ==> items[i].Ok?
    ensures r.Ok? ==> |r.value| == |items| && forall i :: 0 <= i < |items| ==> r.value[i] == items[i].value
    ensures r.Err? ==> exists i :: 0 <= i < |items| && items[i].Err? && r.error == DatabaseError(items[i].error)
                                   && forall j :: 0 <= j < i ==> items[j].Ok?
  {
    if items == [] then Ok([])
    else
      match items[0]
      case Err(msg) => Err(DatabaseError(msg))
      case Ok(v) =>
        var rest := Collect(items[1..]);
        assert forall i :: 1 <= i < |items| ==> items[i] == items[1..][i - 1];
        if rest.Err? then
          ghost var k :| 0 <= k < |items[1..]| && items[1..][k].Err? && rest.error == DatabaseError(items[1..][k].error)
                         && forall j :: 0 <= j < k ==> items[1..][j].Ok?;
          assert items[k + 1].Err? && forall j :: 0 <= j < k + 1 ==> items[j].Ok?;
          rest
        else
          Ok([v] + rest.value)
  }

  /** The `while let Some(result) = cursor.next()` loop of the list services. */
  method DrainCursor<V>(cursor: seq<Result<V, string>>) returns (r: Result<seq<V>, ServiceError>)
    ensures r == Collect(cursor)
  {
    var acc: seq<V> := [];
    var i := 0;
    while i < |cursor|
      invariant 0 <= i <= |cursor|
      invariant |acc| == i
      invariant forall j :: 0 <= j < i ==> cursor[j].Ok? && acc[j] == cursor[j].value
    {
      match cursor[i] {
        case Ok(v) =>
          acc := acc + [v];
        case Err(msg) =>
          r := Err(DatabaseError(msg));
          ghost var c := Collect(cursor);
          ghost var k :| 0 <= k < |cursor| && cursor[k].Err? && c.error == DatabaseError(cursor[k].error)
                         && forall j :: 0 <= j < k ==> cursor[j].Ok?;
          assert k == i;
          return;
      }
      i := i + 1;
    }
    r := Ok(acc);
    assert Collect(cursor).Ok? && acc == Collect(cursor).value;
  }

  /** `docs` holds every document of `coll` exactly once, each with its own id and fields. */
  ghost predicate IsListing<F>(docs: seq<Doc<F>>, coll: map<ObjectId, F>)
  {
    && |docs| == |coll|
    && (forall i :: 0 <= i < |docs| ==>
          docs[i].id.Some? && docs[i].id.value in coll && docs[i].fields == coll[docs[i].id.value])
    && (forall k :: k in coll ==> exists i :: 0 <= i < |docs| && docs[i].id == Some(k))
    && (forall i, j :: 0 <= i < j < |docs| ==> docs[i].id != docs[j].id)
  }

  // ---------------------------------------------------------------------------
  // What each operation does to one collection

  /** Create: the caller's id is ignored; the fields are stored under the id the driver generates. */
  function CreateStep<F>(coll: map<ObjectId, F>, input: Doc<F>, generated: Bson, fault: Option<string>)
    : (s: Step<ObjectId, F>)
    ensures s.result.Ok? <==> fault.None? && generated.BsonObjectId? && generated.oid !in coll
    ensures s.result.Ok? ==> s.result.value == generated.oid && s.coll == coll[generated.oid := input.fields]
    ensures s.result.Err? ==> s.coll == coll
    ensures fault.Some? ==> s.result == Err(DatabaseError(fault.value))
    ensures fault.None? && generated.BsonOther? ==> s.result == Err(InsertionFailed)
    ensures fault.None? && generated.BsonObjectId? && generated.oid in coll ==>
              s.result == Err(DatabaseError(DuplicateKeyError))
  {
    if fault.Some? then Step(InsertOutcome(Err(fault.value)), coll)
    else match generated
      case BsonOther(_) => Step(InsertOutcome(Ok(generated)), coll)
      case BsonObjectId(id) =>
        if id in coll then Step(InsertOutcome(Err(DuplicateKeyError)), coll)
        else Step(InsertOutcome(Ok(generated)), coll[id := input.fields])
  }

  /** Get: an unparsable id is `InvalidId`; otherwise the matching document or `NotFound`. */
  function GetResult<F>(coll: map<ObjectId, F>, idText: string, fault: Option<string>)
    : (r: Result<Doc<F>, ServiceError>)
    ensures ParseObjectId(idText).None? ==> r == Err(InvalidId)
    ensures r.Ok? <==> ParseObjectId(idText).Some? && fault.None? && ParseObjectId(idText).value in coll
    ensures r.Ok? ==> var id := ParseObjectId(idText).value; r.value == Doc(Some(id), coll[id])
    ensures ParseObjectId(idText).Some? && fault.Some? ==> r == Err(DatabaseError(fault.value))
    ensures ParseObjectId(idText).Some? && fault.None? && ParseObjectId(idText).value !in coll ==> r == Err(NotFound)
  {
    match ParseObjectId(idText)
    case None => Err(InvalidId)
    case Some(id) =>
      if fault.Some? then FindOneOutcome(Err(fault.value))
      else if id in coll then FindOneOutcome(Ok(Some(Doc(Some(id), coll[id]))))
      else FindOneOutcome(Ok(None))
  }

  /** Update: success exactly when the id parses and names a stored document, whose fields are replaced. */
  function UpdateStep<F>(coll: map<ObjectId, F>, idText: string, fields: F, fault: Option<string>)
    : (s: Step<(), F>)
    ensures ParseObjectId(idText).None? ==> s.result == Err(InvalidId)
    ensures s.result.Ok? <==> ParseObjectId(idText).Some? && fault.None? && ParseObjectId(idText).value in coll
    ensures s.result.Ok? ==> s.coll == coll[ParseObjectId(idText).value := fields]
    ensures s.result.Err? ==> s.coll == coll
    ensures ParseObjectId(idText).Some? && fault.Some? ==> s.result == Err(DatabaseError(fault.value))
    ensures ParseObjectId(idText).Some? && fault.None? && ParseObjectId(idText).value !in coll ==>
              s.result == Err(NotFound)
  {
    match ParseObjectId(idText)
    case None => Step(Err(InvalidId), coll)
    case Some(id) =>
      if fault.Some? then Step(CountOutcome(Err(fault.value)), coll)
      else if id in coll then Step(CountOutcome(Ok(1)), coll[id := fields])
      else Step(CountOutcome(Ok(0)), coll)
  }

  /** Delete: success exactly when the id parses and names a stored document, which is removed. */
  function DeleteStep<F>(coll: map<ObjectId, F>, idText: string, fault: Option<string>): (s: Step<(), F>)
    ensures ParseObjectId(idText).None? ==> s.result == Err(InvalidId)
    ensures s.result.Ok? <==> ParseObjectId(idText).Some? && fault.None? && ParseObjectId(idText).value in coll
    ensures s.result.Ok? ==> s.coll == coll - {ParseObjectId(idText).value}
    ensures s.result.Err? ==> s.coll == coll
    ensures ParseObjectId(idText).Some? && fault.Some? ==> s.result == Err(DatabaseError(fault.value))
    ensures ParseObjectId(idText).Some? && fault.None? && ParseObjectId(idText).value !in coll ==>
              s.result == Err(NotFound)
  {
    match ParseObjectId(idText)
    case None => Step(Err(InvalidId), coll)
    case Some(id) =>
      if fault.Some? then Step(CountOutcome(Err(fault.value)), coll)
      else if id in coll then Step(CountOutcome(Ok(1)), coll - {id})
      else Step(CountOutcome(Ok(0)), coll)
  }

  // ---------------------------------------------------------------------------
  // Properties relating the operations

  /** A created record reads back with the new id and exactly the fields supplied. */
  lemma CreateThenGet<F>(coll: map<ObjectId, F>, input: Doc<F>, generated: Bson, fault: Option<string>)
    requires CreateStep(coll, input, generated, fault).result.Ok?
    ensures var s := CreateStep(coll, input, generated, fault);
            GetResult(s.coll, ToHex(s.result.value), None) == Ok(Doc(Some(s.result.value), input.fields))
  {
    ParseToHex(generated.oid);
  }

  /** After a successful update, get returns the new fields under the same id. */
  lemma UpdateThenGet<F>(coll: map<ObjectId, F>, idText: string, fields: F)
    requires UpdateStep(coll, idText, fields, None).result.Ok?
    ensures var id := ParseObjectId(idText).value;
            GetResult(UpdateStep(coll, idText, fields, None).coll, idText, None) == Ok(Doc(Some(id), fields))
  {
  }

  /** Repeating an update succeeds again and changes nothing further: success is decided by the match, not by a modification. */
  lemma UpdateRepeatable<F>(coll: map<ObjectId, F>, idText: string, fields: F)
    requires UpdateStep(coll, idText, fields, None).result.Ok?
    ensures var s := UpdateStep(coll, idText, fields, None);
            UpdateStep(s.coll, idText, fields, None) == s
  {
  }

  /** Deleting twice: the first call succeeds, the second finds nothing and changes nothing. */
  lemma DeleteTwice<F>(coll: map<ObjectId, F>, idText: string)
    requires DeleteStep(coll, idText, None).result.Ok?
    ensures var s := DeleteStep(coll, idText, None);
            DeleteStep(s.coll, idText, None) == Step(Err(NotFound), s.coll)
  {
  }

  /** Update and delete touch only the record they name. */
  lemma OthersUntouched<F>(coll: map<ObjectId, F>, idText: string, fields: F, fault: Option<string>, other: ObjectId)
    requires ParseObjectId(idText) != Some(other)
    ensures other in UpdateStep(coll, idText, fields, fault).coll <==> other in coll
    ensures other in coll ==> UpdateStep(coll, idText, fields, fault).coll[other] == coll[other]
    ensures other in DeleteStep(coll, idText, fault).coll <==> other in coll
    ensures other in coll ==> DeleteStep(coll, idText, fault).coll[other] == coll[other]
  {
  }

  // ---------------------------------------------------------------------------
  // The operations

  /** `create_*_service`. */
  method Create<F>(repo: MongoRepo, server: Server<F>, kind: Resource, dbName: string, input: Doc<F>,
                   now: nat, generated: Bson, fault: Option<string>)
    returns (r: Result<ObjectId, ServiceError>)
    requires repo.Valid() && repo.clock <= now
    modifies repo, server
    ensures repo.Valid() && GotDb(repo, dbName, now)
    ensures server.accesses == old(server.accesses) + 1
    ensures var s := CreateStep(old(server.Coll(Ns(dbName, kind))), input, generated, fault);
            r == s.result && server.Coll(Ns(dbName, kind)) == s.coll
    ensures forall ns :: ns != Ns(dbName, kind) ==> server.Coll(ns) == old(server.Coll(ns))
  {
    var db := repo.GetDb(dbName, now);
    var ns := Namespace(db.name, CollectionName(kind));
    var newDoc := Doc(None, input.fields);
    var reply := server.InsertOne(ns, newDoc, generated, fault);
    r := InsertOutcome(reply);
  }

  /** `get_*_service`: the handle is fetched before the id is parsed. */
  method Get<F>(repo: MongoRepo, server: Server<F>, kind: Resource, dbName: string, idText: string,
                now: nat, fault: Option<string>)
    returns (r: Result<Doc<F>, ServiceError>)
    requires repo.Valid() && repo.clock <= now
    modifies repo, server`accesses
    ensures repo.Valid() && GotDb(repo, dbName, now)
    ensures server.accesses == old(server.accesses) + (if ParseObjectId(idText).Some? then 1 else 0)
    ensures r == GetResult(server.Coll(Ns(dbName, kind)), idText, fault)
  {
    var db := repo.GetDb(dbName, now);
    var ns := Namespace(db.name, CollectionName(kind));
    var parsed := ParseObjectId(idText);
    if parsed.None? {
      return Err(InvalidId);
    }
    var reply := server.FindOne(ns, parsed.value, fault);
    r := FindOneOutcome(reply);
  }

  /** `update_*_service`. */
  method Update<F>(repo: MongoRepo, server: Server<F>, kind: Resource, dbName: string, idText: string,
                   fields: F, now: nat, fault: Option<string>)
    returns (r: Result<(), ServiceError>)
    requires repo.Valid() && repo.clock <= now
    modifies repo, server
    ensures repo.Valid() && GotDb(repo, dbName, now)
    ensures server.accesses == old(server.accesses) + (if ParseObjectId(idText).Some? then 1 else 0)
    ensures var s := UpdateStep(old(server.Coll(Ns(dbName, kind))), idText, fields, fault);
            r == s.result && server.Coll(Ns(dbName, kind)) == s.coll
    ensures forall ns :: ns != Ns(dbName, kind) ==> server.Coll(ns) == old(server.Coll(ns))
  {
    var db := repo.GetDb(dbName, now);
    var ns := Namespace(db.name, CollectionName(kind));
    var parsed := ParseObjectId(idText);
    if parsed.None? {
      return Err(InvalidId);
    }
    var reply := server.UpdateOne(ns, parsed.value, fields, fault);
    r := CountOutcome(reply);
  }

  /** `delete_*_service`. */
  method Delete<F>(repo: MongoRepo, server: Server<F>, kind: Resource, dbName: string, idText: string,
                   now: nat, fault: Option<string>)
    returns (r: Result<(), ServiceError>)
    requires repo.Valid() && repo.clock <= now
    modifies repo, server
    ensures repo.Valid() && GotDb(repo, dbName, now)
    ensures server.accesses == old(server.accesses) + (if ParseObjectId(idText).Some? then 1 else 0)
    ensures var s := DeleteStep(old(server.Coll(Ns(dbName, kind))), idText, fault);
            r == s.result && server.Coll(Ns(dbName, kind)) == s.coll
    ensures forall ns :: ns != Ns(dbName, kind) ==> server.Coll(ns) == old(server.Coll(ns))
  {
    var db := repo.GetDb(dbName, now);
    var ns := Namespace(db.name, CollectionName(kind));
    var parsed := ParseObjectId(idText);
    if parsed.None? {
      return Err(InvalidId);
    }
    var reply := server.DeleteOne(ns, parsed.value, fault);
    r := CountOutcome(reply);
  }

  /**
   * `get_all_*_service`: every document of the collection, or the first fault
   * met (the find itself, then the cursor's items in order).
   */
  method List<F>(repo: MongoRepo, server: Server<F>, kind: Resource, dbName: string, now: nat,
                 findFault: Option<string>, itemFaults: map<nat, string>)
    returns (r: Result<seq<Doc<F>>, ServiceError>)
    requires repo.Valid() && repo.clock <= now
    modifies repo, server`accesses
    ensures repo.Valid() && GotDb(repo, dbName, now)
    ensures server.accesses == old(server.accesses) + 1
    ensures var coll := server.Coll(Ns(dbName, kind));
      && (findFault.Some? ==> r == Err(DatabaseError(findFault.value)))
      && (findFault.None? ==> (r.Ok? <==> forall i :: 0 <= i < |coll| ==> i !in itemFaults))
      && (r.Ok? ==> IsListing(r.value, coll))
      && (findFault.None? && r.Err? ==>
            exists i :: 0 <= i < |coll| && i in itemFaults && r.error == DatabaseError(itemFaults[i])
                        && forall j :: 0 <= j < i ==> j !in itemFaults)
  {
    var db := repo.GetDb(dbName, now);
    var ns := Namespace(db.name, CollectionName(kind));
    var found := server.Find(ns, findFault);
    if found.Err? {
      return Err(DatabaseError(found.error));
    }
    var order := found.value;
    var cursor := CursorItems(server.Coll(ns), order, itemFaults);
    r := DrainCursor(cursor);
    DrainedCursor(server.Coll(ns), order, itemFaults);
  }

  /** Draining a cursor over a whole collection lists it, or stops at the first faulty position. */
  lemma DrainedCursor<F>(coll: map<ObjectId, F>, order: seq<ObjectId>, itemFaults: map<nat, string>)
    requires IsEnumeration(order, coll.Keys)
    ensures var r := Collect(CursorItems(coll, order, itemFaults));
      && (r.Ok? <==> forall i :: 0 <= i < |coll| ==> i !in itemFaults)
      && (r.Ok? ==> IsListing(r.value, coll))
      && (r.Err? ==> exists i :: 0 <= i < |coll| && i in itemFaults && r.error == DatabaseError(itemFaults[i])
                                 && forall j :: 0 <= j < i ==> j !in itemFaults)
  {
    var r := Collect(CursorItems(coll, order, itemFaults));
    if r.Ok? {
      CursorListing(coll, order, itemFaults, r.value);
    } else {
      CursorFault(coll, order, itemFaults);
    }
  }

  lemma CursorListing<F>(coll: map<ObjectId, F>, order: seq<ObjectId>, itemFaults: map<nat, string>,
                         docs: seq<Doc<F>>)
    requires IsEnumeration(order, coll.Keys)
    requires Collect(CursorItems(coll, order, itemFaults)) == Ok(docs)
    ensures forall i :: 0 <= i < |coll| ==> i !in itemFaults
    ensures IsListing(docs, coll)
  {
    var items := CursorItems(coll, order, itemFaults);
    assert |docs| == |order| == |coll.Keys| == |coll|;
    forall i | 0 <= i < |docs|
      ensures i !in itemFaults && docs[i] == Doc(Some(order[i]), coll[order[i]])
    {
      assert items[i].Ok? && docs[i] == items[i].value;
    }
    forall k | k in coll
      ensures exists i :: 0 <= i < |docs| && docs[i].id == Some(k)
    {
      var i :| 0 <= i < |order| && order[i] == k;
      assert docs[i].id == Some(k);
    }
  }

  lemma CursorFault<F>(coll: map<ObjectId, F>, order: seq<ObjectId>, itemFaults: map<nat, string>)
    requires IsEnumeration(order, coll.Keys)
    requires Collect(CursorItems(coll, order, itemFaults)).Err?
    ensures var r := Collect(CursorItems(coll, order, itemFaults));
      exists i :: 0 <= i < |coll| && i in itemFaults && r.error == DatabaseError(itemFaults[i])
                  && forall j :: 0 <= j < i ==> j !in itemFaults
  {
    var items := CursorItems(coll, order, itemFaults);
    var r := Collect(items);
    var i :| 0 <= i < |items| && items[i].Err? && r.error == DatabaseError(items[i].error)
             && forall j :: 0 <= j < i ==> items[j].Ok?;
    assert i in itemFaults && items[i].error == itemFaults[i];
    assert forall j :: 0 <= j < i ==> j !in itemFaults;
  }
}
