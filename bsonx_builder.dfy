/** DBuilder (bsonx/builder.go): a bson.D built by appending, duplicates kept. */
module BsonxBuilder {
  import opened Values

  class DBuilder {
    var d: Doc

    /** NewD: an empty document. */
    constructor ()
      ensures d == []
    {
      d := [];
    }

    /** Appends `key: value` at the end, even when `key` is already present. */
    method Add(key: string, value: Value) returns (b: DBuilder)
      modifies this
      ensures b == this && d == old(d) + [E(key, value)]
    {
      d := d + [E(key, value)];
      b := this;
    }

    /** The entries in insertion order. */
    method Build() returns (r: Doc)
      ensures r == d
    {
      r := d;
    }
  }
}
