/** The bsonx helpers: one-entry constructors and the conversion of update values to bson.M. */
module Bsonx {
  import opened Common
  import V = Values

  /** A bson.M holding exactly `key: value`. */
  function M(key: string, value: V.Value): (r: map<string, V.Value>)
    ensures r.Keys == {key} && r[key] == value
  {
    map[key := value]
  }

  /** The element `key: value`. */
  function E(key: string, value: V.Value): (r: V.Elem)
    ensures r.key == key && r.value == value
  {
    V.E(key, value)
  }

  /** A bson.A of `values` in the same order; never nil, even for no values. */
  method A(values: seq<V.Value>) returns (r: V.Value)
    ensures r.A? && r.items == values
  {
    var items: seq<V.Value> := [];
    for i := 0 to |values|
      invariant items == values[..i]
    {
      items := items + [values[i]];
    }
    assert values[..|values|] == values;
    r := V.A(items);
  }

  /** A bson.D holding exactly `key: value`. */
  function D(key: string, value: V.Value): (r: V.Doc)
    ensures |r| == 1 && r[0] == E(key, value)
  {
    [V.E(key, value)]
  }

  /** `{_id: value}`, the same as `M("_id", value)`. */
  function Id(value: V.Value): (r: map<string, V.Value>)
    ensures r == M("_id", value)
  {
    map["_id" := value]
  }

  /** A bson.M with every entry of `data` and nothing else, copied entry by entry. */
  method MapToBsonM(data: map<string, V.Value>) returns (m: map<string, V.Value>)
    ensures m.Keys == data.Keys
    ensures forall k :: k in data ==> m[k] == data[k]
  {
    m := map[];
    var todo := data.Keys;
    while todo != {}
      invariant todo <= data.Keys
      invariant m.Keys == data.Keys - todo
      invariant forall k :: k in m ==> m[k] == data[k]
      decreases |todo|
    {
      var k :| k in todo;
      m := m[k := data[k]];
      todo := todo - {k};
    }
  }

  /**
   * ToBsonM: the bson.M form of an update value, `None` standing for a nil
   * map. A bson.M is returned as it is, a bson.D goes through the driver's
   * encode-and-decode `dToM`, a Go map or a non-nil pointer to one is copied,
   * and everything else, nil included, gives nil.
   */
  function ToBsonM(data: V.Value, dToM: V.Doc -> Option<map<string, V.Value>>): (r: Option<map<string, V.Value>>)
    ensures data.M? ==> r == Some(data.fields)
    ensures data.D? ==> r == dToM(data.elems)
    ensures data.GoMap? || data.GoMapPtr? ==> r == Some(data.fields)
    ensures !(data.M? || data.D? || data.GoMap? || data.GoMapPtr?) ==> r == None
  {
    match data
    case M(fields) => Some(fields)
    case D(elems) => dToM(elems)
    case GoMap(fields) => Some(fields)
    case GoMapPtr(fields) => Some(fields)
    case _ => None
  }

  /** Nil in, nil out; and a nil map held as bson.M converts to nil. */
  lemma ToBsonMNil(dToM: V.Doc -> Option<map<string, V.Value>>)
    ensures ToBsonM(V.Null, dToM) == None && ToBsonM(V.NilM, dToM) == None
  {
  }
}
