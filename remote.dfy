/**
 * The MongoDB collection the wrappers call (a `*mongo.Collection`). The
 * server is not modelled: each call is recorded as a request, and its reply
 * is whatever the collection's reply functions give for that request after
 * the requests sent before it.
 */
module Remote {
  import opened Common
  import opened Values

  /** A call to the driver, with what it sends: filter, update expression, encoded documents, options. */
  datatype Request =
    | FindOneReq(filter: Value, opts: seq<Value>)
    | FindReq(filter: Value, opts: seq<Value>)
    | FindOneAndUpdateReq(filter: Value, updates: Value, opts: seq<Value>)
    | InsertOneReq(doc: Option<Fields>, opts: seq<Value>)
    | InsertManyReq(docs: seq<Option<Fields>>, opts: seq<Value>)
    | UpdateOneReq(filter: Value, updates: Value, opts: seq<Value>)
    | UpdateManyReq(filter: Value, updates: Value, opts: seq<Value>)
    | DeleteOneReq(filter: Value, opts: seq<Value>)
    | DeleteManyReq(filter: Value, opts: seq<Value>)

  /** `options.UpdateOne().SetUpsert(true)`. */
  const UpsertTrue: Value := Opaque(0)

  /** A pointer to a document as the driver encodes it: nil, or its fields. */
  function Encoded(d: Document?, docs: map<Document, Fields>): (r: Option<Fields>)
    requires d != null ==> d in docs
    ensures r.None? <==> d == null
  {
    if d == null then None else Some(docs[d])
  }

  /** `utils.ToAnySlice(docs...)` as the driver encodes it. */
  function EncodedAll(ds: seq<Document?>, docs: map<Document, Fields>): (r: seq<Option<Fields>>)
    requires forall i :: 0 <= i < |ds| && ds[i] != null ==> ds[i] in docs
    ensures |r| == |ds|
    ensures forall i :: 0 <= i < |ds| ==> r[i] == Encoded(ds[i], docs)
  {
    seq(|ds|, i requires 0 <= i < |ds| => Encoded(ds[i], docs))
  }

  class Collection {
    /** The driver's encode-then-decode of a bson.D into a bson.M (`dToM`); `None` when it fails. */
    const codec: Doc -> Option<map<string, Value>>
    /** The reply to an insert, update or delete: the driver's result, or an error. */
    const written: (seq<Request>, Request) -> Result<Value>
    /** The document a single-document query decodes to, or an error (also for no document). */
    const one: (seq<Request>, Request) -> Result<Fields>
    /** The documents a cursor yields, or an error. */
    const many: (seq<Request>, Request) -> Result<seq<Fields>>
    /** The requests sent so far, in order. */
    var sent: seq<Request>

    constructor (codec: Doc -> Option<map<string, Value>>, written: (seq<Request>, Request) -> Result<Value>,
                 one: (seq<Request>, Request) -> Result<Fields>, many: (seq<Request>, Request) -> Result<seq<Fields>>)
      ensures this.codec == codec && this.written == written && this.one == one && this.many == many
      ensures sent == []
    {
      this.codec, this.written, this.one, this.many := codec, written, one, many;
      sent := [];
    }

    /** InsertOne, InsertMany, UpdateOne, UpdateMany, DeleteOne, DeleteMany. */
    method Write(r: Request) returns (res: Result<Value>)
      modifies this
      ensures sent == old(sent) + [r]
      ensures res == written(old(sent), r)
    {
      res := written(sent, r);
      sent := sent + [r];
    }

    /** FindOne(...).Decode and FindOneAndUpdate(...).Decode. */
    method FetchOne(r: Request) returns (res: Result<Fields>)
      modifies this
      ensures sent == old(sent) + [r]
      ensures res == one(old(sent), r)
    {
      res := one(sent, r);
      sent := sent + [r];
    }

    /** Find followed by cursor.All. */
    method FetchAll(r: Request) returns (res: Result<seq<Fields>>)
      modifies this
      ensures sent == old(sent) + [r]
      ensures res == many(old(sent), r)
    {
      res := many(sent, r);
      sent := sent + [r];
    }
  }

  /** Encodes documents for InsertMany, reading their fields. */
  method EncodeAll(ds: seq<Document?>, ghost docs: map<Document, Fields>) returns (r: seq<Option<Fields>>)
    requires forall i :: 0 <= i < |ds| && ds[i] != null ==> ds[i] in docs
    requires Agrees(docs)
    ensures r == EncodedAll(ds, docs)
  {
    r := [];
    for i := 0 to |ds|
      invariant r == EncodedAll(ds[..i], docs)
    {
      var e: Option<Fields> := if ds[i] == null then None else Some(ds[i].fields);
      r := r + [e];
    }
    assert ds[..|ds|] == ds;
  }
}
