/**
 * The values the library moves around as Go `any`: BSON documents and arrays,
 * Go maps and slices, plain scalars, and pointers to user documents.
 *
 * A user document (a `*T` for some struct type `T`) is a `Document` object:
 * its type descriptor says which capability interfaces of hook/types.go the
 * type implements, and its fields are updated in place by the accessor
 * methods those interfaces name.
 */
module Values {
  /** Which capability interfaces a document type implements (hook/types.go:9-25). */
  datatype Caps = Caps(fixedName: bool, callerNamed: bool)

  /** What reflection reports for the pointed-to type. */
  datatype Kind = StructKind | TimeKind | OtherKind

  /**
   * A document type `T`: its capabilities, its kind, and the field names a
   * caller-named type reports from its `Custom*` accessors.
   */
  datatype DocType = DocType(caps: Caps, kind: Kind, idName: string, createdAtName: string, updatedAtName: string)

  datatype Value =
    | Null                                  // untyped nil
    | Str(s: string)
    | Int(i: int)
    | Bool(b: bool)
    | Oid(oid: nat)                         // bson.ObjectID; 0 is the zero id
    | Time(t: nat)                          // time.Time; 0 is the zero time
    | A(items: seq<Value>)                  // bson.A, a []any
    | List(items: seq<Value>)               // a slice of concrete element type, such as []*T
    | NilA                                  // a nil slice
    | D(elems: seq<Elem>)                   // bson.D
    | M(fields: map<string, Value>)         // bson.M
    | NilM                                  // a nil bson.M held in an interface
    | GoMap(fields: map<string, Value>)     // map[string]any
    | GoMapPtr(fields: map<string, Value>)  // a non-nil *map[string]any
    | Ptr(target: Document)                 // a non-nil *T
    | NilPtr(caps: Caps)                    // a nil *T, for a type with these capabilities
    | Struct(target: Document)              // a T held by value
    | Opaque(id: nat)                       // anything else (driver options, results)

  datatype Elem = E(key: string, value: Value)

  type Doc = seq<Elem>

  /** The zero-value test that the accessors apply (`IsZero()`, `== ""`, `== 0`, `== nil`). */
  predicate IsZero(v: Value)
  {
    v == Null || v == Oid(0) || v == Time(0) || v == Str("") || v == Int(0) || v == Bool(false)
  }

  /** The keys of a document, in order. */
  function Keys(d: Doc): (r: seq<string>)
    ensures |r| == |d|
    ensures forall i :: 0 <= i < |d| ==> r[i] == d[i].key
  {
    if d == [] then [] else [d[0].key] + Keys(d[1..])
  }

  /** The keys of a one-element document. */
  lemma KeysOne(e: Elem)
    ensures Keys([e]) == [e.key]
  {
    assert Keys([e])[0] == e.key;
  }

  /** A part holding at most one entry has that entry's key, or none. */
  lemma KeysOptional(p: Doc, k: seq<string>)
    requires (p == [] && k == []) || (|p| == 1 && k == [p[0].key])
    ensures Keys(p) == k
  {
    if p != [] {
      KeysOne(p[0]);
      assert p == [p[0]];
    }
  }

  /** The keys of a two-entry document. */
  lemma KeysTwo(a: Elem, b: Elem)
    ensures Keys([a, b]) == [a.key, b.key]
  {
    assert Keys([a, b])[0] == a.key && Keys([a, b])[1] == b.key;
  }

  /** Concatenating documents whose keys are known. */
  lemma KeysAppend(a: Doc, b: Doc, ka: seq<string>, kb: seq<string>)
    requires Keys(a) == ka && Keys(b) == kb
    ensures Keys(a + b) == ka + kb
  {
    KeysConcat(a, b);
  }

  /** The keys of a concatenation are the keys of its parts, in order. */
  lemma KeysConcat(a: Doc, b: Doc)
    ensures Keys(a + b) == Keys(a) + Keys(b)
  {
    assert |Keys(a + b)| == |Keys(a) + Keys(b)|;
    forall i | 0 <= i < |a + b|
      ensures Keys(a + b)[i] == (Keys(a) + Keys(b))[i]
    {
      if i >= |a| {
        assert (a + b)[i] == b[i - |a|];
      }
    }
  }

  /** The stored state of a user document. */
  datatype Fields = Fields(
    id: Value, createdAt: Value, updatedAt: Value,              // read through DefaultId/DefaultCreatedAt/DefaultUpdatedAt
    customId: Value, customCreatedAt: Value, customUpdatedAt: Value, // read through CustomID/CustomCreatedAt/CustomUpdatedAt
    rest: Value)                                                // every other field

  const ZeroFields := Fields(Null, Null, Null, Null, Null, Null, Null)

  /** Stand-in for bson.NewObjectID and time.Now: each call issues a value never issued before. */
  class Source {
    var issued: nat

    constructor ()
      ensures issued == 0
    {
      issued := 0;
    }

    method Next() returns (n: nat)
      modifies this
      ensures n == old(issued) + 1 && issued == n
    {
      issued := issued + 1;
      n := issued;
    }
  }

  /** The six accessors of the two capability interfaces. */
  datatype Accessor = FixedId | FixedCreatedAt | FixedUpdatedAt | NamedId | NamedCreatedAt | NamedUpdatedAt

  /** Set-if-zero, as the lazy accessors do: a zero field takes a fresh value. */
  function Lazy(v: Value, newValue: Value): Value
  {
    if IsZero(v) then newValue else v
  }

  /**
   * What calling accessor `a` does to fields `f` when `n` values have been
   * issued: the new fields and the new issue count. Id and creation-time
   * accessors fill a zero field and otherwise leave it; the update-time
   * accessors always take a fresh time. The accessors are user code: this is
   * an assumption, taken from `Base` and the fixtures of
   * hook/field/field_test.go:21-38.
   */
  function Access(a: Accessor, f: Fields, n: nat): (r: (Fields, nat))
  {
    match a
    case FixedId => (f.(id := Lazy(f.id, Oid(n + 1))), if IsZero(f.id) then n + 1 else n)
    case FixedCreatedAt => (f.(createdAt := Lazy(f.createdAt, Time(n + 1))), if IsZero(f.createdAt) then n + 1 else n)
    case FixedUpdatedAt => (f.(updatedAt := Time(n + 1)), n + 1)
    case NamedId => (f.(customId := Lazy(f.customId, Oid(n + 1))), if IsZero(f.customId) then n + 1 else n)
    case NamedCreatedAt => (f.(customCreatedAt := Lazy(f.customCreatedAt, Time(n + 1))), if IsZero(f.customCreatedAt) then n + 1 else n)
    case NamedUpdatedAt => (f.(customUpdatedAt := Time(n + 1)), n + 1)
  }

  /** The field an accessor reads and writes. */
  function Slot(a: Accessor, f: Fields): Value
  {
    match a
    case FixedId => f.id
    case FixedCreatedAt => f.createdAt
    case FixedUpdatedAt => f.updatedAt
    case NamedId => f.customId
    case NamedCreatedAt => f.customCreatedAt
    case NamedUpdatedAt => f.customUpdatedAt
  }

  /** The interface an accessor belongs to is implemented by the type. */
  predicate Has(t: DocType, a: Accessor)
  {
    if a.FixedId? || a.FixedCreatedAt? || a.FixedUpdatedAt? then t.caps.fixedName else t.caps.callerNamed
  }

  /**
   * An accessor changes only its own field; a lazy one keeps a non-zero value
   * and issues nothing, and every value it does issue is new and non-zero.
   */
  lemma AccessTouchesOnlyItsSlot(a: Accessor, b: Accessor, f: Fields, n: nat)
    requires a != b
    ensures Slot(b, Access(a, f, n).0) == Slot(b, f)
    ensures Access(a, f, n).0.rest == f.rest
  {
  }

  lemma AccessIssues(a: Accessor, f: Fields, n: nat)
    ensures var (f', n') := Access(a, f, n);
      !IsZero(Slot(a, f')) && n <= n' <= n + 1
      && (Slot(a, f') == Slot(a, f) || Slot(a, f') == Oid(n') || Slot(a, f') == Time(n'))
    ensures !(a.FixedUpdatedAt? || a.NamedUpdatedAt?) && !IsZero(Slot(a, f)) ==> Access(a, f, n) == (f, n)
  {
  }

  /** A user document: a `*T` whose fields the accessors update in place. */
  class Document {
    const t: DocType
    var fields: Fields

    /** `new(T)`: a document with every field zero. */
    constructor New(t: DocType)
      ensures this.t == t && fields == ZeroFields
    {
      this.t := t;
      fields := ZeroFields;
    }

    /** A document the caller has filled in. */
    constructor (t: DocType, f: Fields)
      ensures this.t == t && fields == f
    {
      this.t := t;
      fields := f;
    }

    /** Calls accessor `a` on this document (a method of `*T`). */
    method Call(a: Accessor, src: Source) returns (v: Value)
      requires Has(t, a)
      modifies this, src
      ensures (fields, src.issued) == Access(a, old(fields), old(src.issued))
      ensures v == Slot(a, fields)
    {
      var f := fields;
      var zero := IsZero(Slot(a, f)) || a.FixedUpdatedAt? || a.NamedUpdatedAt?;
      var n := src.issued;
      if zero {
        n := src.Next();
      }
      match a {
        case FixedId => fields := f.(id := if zero then Oid(n) else f.id);
        case FixedCreatedAt => fields := f.(createdAt := if zero then Time(n) else f.createdAt);
        case FixedUpdatedAt => fields := f.(updatedAt := Time(n));
        case NamedId => fields := f.(customId := if zero then Oid(n) else f.customId);
        case NamedCreatedAt => fields := f.(customCreatedAt := if zero then Time(n) else f.customCreatedAt);
        case NamedUpdatedAt => fields := f.(customUpdatedAt := Time(n));
      }
      v := Slot(a, fields);
    }
  }

  /** The documents a payload reaches: a pointer's or struct's document, or those of a slice's items. */
  function Targets(v: Value): (r: set<Document>)
    ensures (v.Ptr? || v.Struct?) ==> r == {v.target}
    ensures (v.A? || v.List?) ==> r == ItemTargets(v.items)
    ensures !(v.Ptr? || v.Struct? || v.A? || v.List?) ==> r == {}
  {
    match v
    case Ptr(o) => {o}
    case Struct(o) => {o}
    case A(items) => ItemTargets(items)
    case List(items) => ItemTargets(items)
    case _ => {}
  }

  function ItemTargets(items: seq<Value>): set<Document>
  {
    set i | 0 <= i < |items| && (items[i].Ptr? || items[i].Struct?) :: items[i].target
  }

  /** The current fields of a set of documents. */
  function Snap(s: set<Document>): (m: map<Document, Fields>)
    reads s
    ensures m.Keys == s
    ensures forall o :: o in s ==> m[o] == o.fields
  {
    map o | o in s :: o.fields
  }

  /** The heap holds the fields `docs` records. */
  predicate Agrees(docs: map<Document, Fields>)
    reads docs.Keys
  {
    forall o :: o in docs ==> o.fields == docs[o]
  }

  /** When the heap holds `docs`, reading those documents gives `docs` back. */
  lemma SnapOfAgrees(docs: map<Document, Fields>)
    requires Agrees(docs)
    ensures Snap(docs.Keys) == docs
  {
  }

  /** An item that is a pointer or a struct is among the slice's targets. */
  lemma ItemTarget(items: seq<Value>, i: int)
    requires 0 <= i < |items| && (items[i].Ptr? || items[i].Struct?)
    ensures items[i].target in ItemTargets(items)
  {
  }
}
