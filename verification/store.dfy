/**
 * An abstract stand-in for the document store the services talk to.  Each
 * namespace (database name, collection name) holds a map from object id to
 * the document's non-id fields.  Every call may fail: its fault is an explicit
 * parameter, and a failed call changes nothing.  `accesses` counts the
 * collection calls made, so callers can state that none was made.
 */
module Store {
  import opened Wrappers
  import opened ObjectIds

  datatype Namespace = Namespace(db: string, collection: string)

  /** A stored record: the optional `_id` and the record's other fields. */
  datatype Doc<F> = Doc(id: Option<ObjectId>, fields: F)

  /** The identifier an insert reports; the store may hand back something that is not an object id. */
  datatype Bson = BsonObjectId(oid: ObjectId) | BsonOther(repr: string)

  /** The store's text for an insert whose `_id` is already taken. */
  const DuplicateKeyError: string := "E11000 duplicate key error"

  /** `order` lists every key of `keys` exactly once. */
  ghost predicate IsEnumeration(order: seq<ObjectId>, keys: set<ObjectId>)
  {
    && |order| == |keys|
    && (forall i :: 0 <= i < |order| ==> order[i] in keys)
    && (forall k :: k in keys ==> k in order)
    && (forall i, j :: 0 <= i < j < |order| ==> order[i] != order[j])
  }

  /**
   * What a cursor over `order` yields: the document with each id in turn, or,
   * at a position listed in `itemFaults`, that fault instead.
   */
  function CursorItems<F>(coll: map<ObjectId, F>, order: seq<ObjectId>, itemFaults: map<nat, string>)
    : (items: seq<Result<Doc<F>, string>>)
    requires forall i :: 0 <= i < |order| ==> order[i] in coll
    ensures |items| == |order|
    ensures forall i :: 0 <= i < |order| ==>
      items[i] == if i in itemFaults then Err(itemFaults[i]) else Ok(Doc(Some(order[i]), coll[order[i]]))
  {
    seq(|order|, i requires 0 <= i < |order| =>
      if i in itemFaults then Err(itemFaults[i]) else Ok(Doc(Some(order[i]), coll[order[i]])))
  }

  class Server<F> {
    var collections: map<Namespace, map<ObjectId, F>>
    var accesses: nat

    /** A namespace's documents; a collection never written to is empty. */
    function Coll(ns: Namespace): map<ObjectId, F>
      reads this
    {
      if ns in collections then collections[ns] else map[]
    }

    constructor ()
      ensures collections == map[] && accesses == 0
    {
      collections := map[];
      accesses := 0;
    }

    /**
     * `insert_one`: the document's own `_id` if it has one, otherwise the id
     * the driver generates (`generated`), becomes its key.  The reply is that
     * key.  A taken object id is refused; a key that is not an object id is
     * acknowledged but not visible through object-id lookups.
     */
    method InsertOne(ns: Namespace, doc: Doc<F>, generated: Bson, fault: Option<string>)
      returns (r: Result<Bson, string>)
      modifies this
      ensures accesses == old(accesses) + 1
      ensures var key := if doc.id.Some? then BsonObjectId(doc.id.value) else generated;
        if fault.Some? then r == Err(fault.value) && collections == old(collections)
        else if key.BsonObjectId? && key.oid in old(Coll(ns)) then
          r == Err(DuplicateKeyError) && collections == old(collections)
        else if key.BsonObjectId? then
          r == Ok(key) && collections == old(collections)[ns := old(Coll(ns))[key.oid := doc.fields]]
        else r == Ok(key) && collections == old(collections)
    {
      accesses := accesses + 1;
      var key := if doc.id.Some? then BsonObjectId(doc.id.value) else generated;
      if fault.Some? {
        r := Err(fault.value);
      } else if key.BsonObjectId? && key.oid in Coll(ns) {
        r := Err(DuplicateKeyError);
      } else {
        if key.BsonObjectId? {
          collections := collections[ns := Coll(ns)[key.oid := doc.fields]];
        }
        r := Ok(key);
      }
    }

    /** `find_one({"_id": id})`. */
    method FindOne(ns: Namespace, id: ObjectId, fault: Option<string>)
      returns (r: Result<Option<Doc<F>>, string>)
      modifies this`accesses
      ensures accesses == old(accesses) + 1
      ensures fault.Some? ==> r == Err(fault.value)
      ensures fault.None? ==> r.Ok? && (r.value.Some? <==> id in Coll(ns))
      ensures fault.None? && id in Coll(ns) ==> r.value.value == Doc(Some(id), Coll(ns)[id])
    {
      accesses := accesses + 1;
      if fault.Some? {
        r := Err(fault.value);
      } else if id in Coll(ns) {
        r := Ok(Some(Doc(Some(id), Coll(ns)[id])));
      } else {
        r := Ok(None);
      }
    }

    /** `update_one({"_id": id}, {"$set": fields})`; the reply is the matched count. */
    method UpdateOne(ns: Namespace, id: ObjectId, fields: F, fault: Option<string>)
      returns (r: Result<nat, string>)
      modifies this
      ensures accesses == old(accesses) + 1
      ensures fault.Some? ==> r == Err(fault.value) && collections == old(collections)
      ensures fault.None? && id in old(Coll(ns)) ==>
        r == Ok(1) && collections == old(collections)[ns := old(Coll(ns))[id := fields]]
      ensures fault.None? && id !in old(Coll(ns)) ==> r == Ok(0) && collections == old(collections)
    {
      accesses := accesses + 1;
      if fault.Some? {
        r := Err(fault.value);
      } else if id in Coll(ns) {
        collections := collections[ns := Coll(ns)[id := fields]];
        r := Ok(1);
      } else {
        r := Ok(0);
      }
    }

    /** `delete_one({"_id": id})`; the reply is the deleted count. */
    method DeleteOne(ns: Namespace, id: ObjectId, fault: Option<string>)
      returns (r: Result<nat, string>)
      modifies this
      ensures accesses == old(accesses) + 1
      ensures fault.Some? ==> r == Err(fault.value) && collections == old(collections)
      ensures fault.None? && id in old(Coll(ns)) ==>
        r == Ok(1) && collections == old(collections)[ns := old(Coll(ns)) - {id}]
      ensures fault.None? && id !in old(Coll(ns)) ==> r == Ok(0) && collections == old(collections)
    {
      accesses := accesses + 1;
      if fault.Some? {
        r := Err(fault.value);
      } else if id in Coll(ns) {
        collections := collections[ns := Coll(ns) - {id}];
        r := Ok(1);
      } else {
        r := Ok(0);
      }
    }

    /** `find(None)`: a cursor over the whole collection, in an order of the store's choosing. */
    method Find(ns: Namespace, fault: Option<string>) returns (r: Result<seq<ObjectId>, string>)
      modifies this`accesses
      ensures accesses == old(accesses) + 1
      ensures fault.Some? ==> r == Err(fault.value)
      ensures fault.None? ==> r.Ok? && IsEnumeration(r.value, Coll(ns).Keys)
    {
      accesses := accesses + 1;
      if fault.Some? {
        r := Err(fault.value);
        return;
      }
      var keys := Coll(ns).Keys;
      var remaining := keys;
      var order: seq<ObjectId> := [];
      while remaining != {}
        invariant remaining <= keys
        invariant |order| + |remaining| == |keys|
        invariant forall i :: 0 <= i < |order| ==> order[i] in keys && order[i] !in remaining
        invariant forall k :: k in keys ==> k in remaining || k in order
        invariant forall i, j :: 0 <= i < j < |order| ==> order[i] != order[j]
        decreases remaining
      {
        var k :| k in remaining;
        order := order + [k];
        remaining := remaining - {k};
      }
      r := Ok(order);
    }
  }
}
