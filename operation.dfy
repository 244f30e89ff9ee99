/** The operation phases and the context handed to global callbacks (operation/operation_type.go). */
module Operation {
  import opened Values

  /** The ten phases. */
  datatype OpType =
    | BeforeInsert | AfterInsert
    | BeforeUpdate | AfterUpdate
    | BeforeDelete | AfterDelete
    | BeforeUpsert | AfterUpsert
    | BeforeFind | AfterFind

  /** The string value of each phase. */
  function Name(p: OpType): (s: string)
    ensures |s| > 0
  {
    match p
    case BeforeInsert => "beforeInsert"
    case AfterInsert => "afterInsert"
    case BeforeUpdate => "beforeUpdate"
    case AfterUpdate => "afterUpdate"
    case BeforeDelete => "beforeDelete"
    case AfterDelete => "afterDelete"
    case BeforeUpsert => "beforeUpsert"
    case AfterUpsert => "afterUpsert"
    case BeforeFind => "beforeFind"
    case AfterFind => "afterFind"
  }

  /** Distinct phases have distinct string values. */
  lemma NamesDistinct(p: OpType, q: OpType)
    requires p != q
    ensures Name(p) != Name(q)
  {
  }

  /** The fields of an OpContext other than the collection handle. */
  datatype View = View(doc: Value, filter: Value, updates: Value, replacement: Value, mongoOptions: Value, modelHook: Value)

  /** NewOpContext with no options: every field nil. */
  const NoContext := View(Null, Null, Null, Null, Null, Null)

  /** The documents an operation context reaches through its payloads. */
  function Footprint(v: View): set<Document>
  {
    Targets(v.doc) + Targets(v.replacement)
  }

  /**
   * What the global callbacks of one operation can change: the fields of the
   * documents, the count of issued ids and timestamps, and the update expression.
   */
  datatype World = World(docs: map<Document, Fields>, issued: nat, updates: Value)

  /** The context shared by all global callbacks of an operation; they update it in place. */
  class OpContext {
    var doc: Value
    var filter: Value
    var updates: Value
    var replacement: Value
    var mongoOptions: Value
    var modelHook: Value

    /** NewOpContext with the options that set these fields. */
    constructor (v: View)
      ensures Snapshot() == v
    {
      doc := v.doc;
      filter := v.filter;
      updates := v.updates;
      replacement := v.replacement;
      mongoOptions := v.mongoOptions;
      modelHook := v.modelHook;
    }

    function Snapshot(): View
      reads this
    {
      View(doc, filter, updates, replacement, mongoOptions, modelHook)
    }
  }
}
