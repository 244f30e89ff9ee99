/**
 * The query builder (builder/query): an ordered filter document that the
 * operator methods extend in place, each returning the builder itself.
 */
module Query {
  import opened Common
  import opened Values
  import opened Merge

  // Operator names (builder/query/types.go:4-33).
  const AllOp := "$all"
  const AndOp := "$and"
  const CaseSensitiveOp := "$caseSensitive"
  const DiacriticSensitiveOp := "$diacriticSensitive"
  const ElemMatchOp := "$elemMatch"
  const EqOp := "$eq"
  const ExistsOp := "$exists"
  const ExprOp := "$expr"
  const GtOp := "$gt"
  const GteOp := "$gte"
  const IdOp := "_id"
  const InOp := "$in"
  const JsonSchemaOp := "$jsonSchema"
  const LanguageOp := "$language"
  const LtOp := "$lt"
  const LteOp := "$lte"
  const ModOp := "$mod"
  const NeOp := "$ne"
  const NinOp := "$nin"
  const NorOp := "$nor"
  const NotOp := "$not"
  const OptionsOp := "$options"
  const OrOp := "$or"
  const RegexOp := "$regex"
  const SearchOp := "$search"
  const SizeOp := "$size"
  const SliceOp := "$slice"
  const TextOp := "$text"
  const TypeOp := "$type"
  const WhereOp := "$where"

  /**
   * A numeric divisor for `$mod`. utils.IsNumeric is not part of this model;
   * integers stand for Go's numeric kinds.
   */
  predicate IsNumeric(v: Value)
  {
    v.Int?
  }

  /**
   * The `$text` options document: `$search` first, then `$language` when the
   * language is non-empty, then each sensitivity flag that is set.
   */
  function TextSearch(value: string, language: string, caseSensitive: bool, diacriticSensitive: bool): (d: Doc)
    ensures |d| >= 1 && d[0] == E(SearchOp, Str(value))
    ensures Keys(d) == [SearchOp] + (if language != "" then [LanguageOp] else [])
      + (if caseSensitive then [CaseSensitiveOp] else []) + (if diacriticSensitive then [DiacriticSensitiveOp] else [])
  {
    var d0 := [E(SearchOp, Str(value))];
    var d1 := if language != "" then d0 + [E(LanguageOp, Str(language))] else d0;
    var d2 := if caseSensitive then d1 + [E(CaseSensitiveOp, Bool(true))] else d1;
    if diacriticSensitive then d2 + [E(DiacriticSensitiveOp, Bool(true))] else d2
  }

  /** Each optional `$text` field is present exactly when asked for, with the caller's value. */
  lemma TextSearchOptions(value: string, language: string, caseSensitive: bool, diacriticSensitive: bool)
    ensures var d := TextSearch(value, language, caseSensitive, diacriticSensitive);
      Lookup(d, SearchOp) == Some(Str(value))
      && Lookup(d, LanguageOp) == (if language != "" then Some(Str(language)) else None)
      && Lookup(d, CaseSensitiveOp) == (if caseSensitive then Some(Bool(true)) else None)
      && Lookup(d, DiacriticSensitiveOp) == (if diacriticSensitive then Some(Bool(true)) else None)
  {
    var d0 := [E(SearchOp, Str(value))];
    var d1 := if language != "" then d0 + [E(LanguageOp, Str(language))] else d0;
    var d2 := if caseSensitive then d1 + [E(CaseSensitiveOp, Bool(true))] else d1;
    LookupAppend(d0, [E(LanguageOp, Str(language))], SearchOp);
    LookupAppend(d1, [E(CaseSensitiveOp, Bool(true))], SearchOp);
    LookupAppend(d2, [E(DiacriticSensitiveOp, Bool(true))], SearchOp);
    LookupAppend(d0, [E(LanguageOp, Str(language))], LanguageOp);
    LookupAppend(d1, [E(CaseSensitiveOp, Bool(true))], LanguageOp);
    LookupAppend(d2, [E(DiacriticSensitiveOp, Bool(true))], LanguageOp);
    LookupAppend(d1, [E(CaseSensitiveOp, Bool(true))], CaseSensitiveOp);
    LookupAppend(d2, [E(DiacriticSensitiveOp, Bool(true))], CaseSensitiveOp);
    LookupAppend(d2, [E(DiacriticSensitiveOp, Bool(true))], DiacriticSensitiveOp);
  }

  class Builder {
    var data: Doc

    /** NewBuilder: an empty filter. */
    constructor ()
      ensures data == []
    {
      data := [];
    }

    /** The filter built so far, in insertion order. */
    method Build() returns (d: Doc)
      ensures d == data
    {
      d := data;
    }

    /** Appends `_id: v`. */
    method Id(v: Value) returns (b: Builder)
      modifies this
      ensures b == this && data == old(data) + [E(IdOp, v)]
    {
      data := data + [E(IdOp, v)];
      b := this;
    }

    /** Appends `key: value`; never merges. */
    method KeyValue(key: string, value: Value) returns (b: Builder)
      modifies this
      ensures b == this && data == old(data) + [E(key, value)]
    {
      data := data + [E(key, value)];
      b := this;
    }

    /**
     * Appends `es` inside the first entry for `key` whose value is a document
     * and reports true; reports false and changes nothing when there is none.
     */
    method TryMergeValue(key: string, es: Doc) returns (merged: bool)
      modifies this
      ensures merged == Target(old(data), key).Some?
      ensures data == TryMerge(old(data), key, es)
    {
      var idx := 0;
      while idx < |data|
        invariant 0 <= idx <= |data| && data == old(data)
        invariant forall j :: 0 <= j < idx ==> !Mergeable(data, j, key)
      {
        if data[idx].key == key && data[idx].value.D? {
          TargetIsFirst(data, key, idx);
          data := data[idx := E(data[idx].key, D(data[idx].value.elems + es))];
          return true;
        }
        idx := idx + 1;
      }
      return false;
    }

    /** The step every operator method ends with: merge, or append `key: D(es)`. */
    method Add(key: string, es: Doc)
      modifies this
      ensures data == MergeOrAppend(old(data), key, es)
    {
      var merged := TryMergeValue(key, es);
      if !merged {
        data := data + [E(key, D(es))];
      }
    }

    // ---- comparison operators (comparison_query_builder.go) ----

    /** Adds `EqOp` on `key`. */
    method Eq(key: string, value: Value) returns (b: Builder)
      modifies this
      ensures b == this && data == MergeOrAppend(old(data), key, [E(EqOp, value)])
    {
      Add(key, [E(EqOp, value)]);
      b := this;
    }

    /** Adds `GtOp` on `key`. */
    method Gt(key: string, value: Value) returns (b: Builder)
      modifies this
      ensures b == this && data == MergeOrAppend(old(data), key, [E(GtOp, value)])
    {
      Add(key, [E(GtOp, value)]);
      b := this;
    }

    /** Adds `GteOp` on `key`. */
    method Gte(key: string, value: Value) returns (b: Builder)
      modifies this
      ensures b == this && data == MergeOrAppend(old(data), key, [E(GteOp, value)])
    {
      Add(key, [E(GteOp, value)]);
      b := this;
    }

    /** Adds `InOp` on `key` with the value list exactly as given. */
    method In(key: string, values: Value) returns (b: Builder)
      modifies this
      ensures b == this && data == MergeOrAppend(old(data), key, [E(InOp, values)])
    {
      Add(key, [E(InOp, values)]);
      b := this;
    }

    /** Adds `LtOp` on `key`. */
    method Lt(key: string, value: Value) returns (b: Builder)
      modifies this
      ensures b == this && data == MergeOrAppend(old(data), key, [E(LtOp, value)])
    {
      Add(key, [E(LtOp, value)]);
      b := this;
    }

    /** Adds `LteOp` on `key`. */
    method Lte(key: string, value: Value) returns (b: Builder)
      modifies this
      ensures b == this && data == MergeOrAppend(old(data), key, [E(LteOp, value)])
    {
      Add(key, [E(LteOp, value)]);
      b := this;
    }

    /** Adds `NeOp` on `key`. */
    method Ne(key: string, value: Value) returns (b: Builder)
      modifies this
      ensures b == this && data == MergeOrAppend(old(data), key, [E(NeOp, value)])
    {
      Add(key, [E(NeOp, value)]);
      b := this;
    }

    /** Adds `NinOp` on `key` with the value list exactly as given. */
    method Nin(key: string, values: Value) returns (b: Builder)
      modifies this
      ensures b == this && data == MergeOrAppend(old(data), key, [E(NinOp, values)])
    {
      Add(key, [E(NinOp, values)]);
      b := this;
    }

    // ---- element operators (element_query_builder.go) ----

    /** Adds `$exists` on `key`. */
    method Exists(key: string, present: bool) returns (b: Builder)
      modifies this
      ensures b == this && data == MergeOrAppend(old(data), key, [E(ExistsOp, Bool(present))])
    {
      Add(key, [E(ExistsOp, Bool(present))]);
      b := this;
    }

    /** Adds `$type` on `key` with a BSON type code. */
    method Type(key: string, t: int) returns (b: Builder)
      modifies this
      ensures b == this && data == MergeOrAppend(old(data), key, [E(TypeOp, Int(t))])
    {
      Add(key, [E(TypeOp, Int(t))]);
      b := this;
    }

    /** Adds `$type` on `key` with a type alias. */
    method TypeAlias(key: string, alias: string) returns (b: Builder)
      modifies this
      ensures b == this && data == MergeOrAppend(old(data), key, [E(TypeOp, Str(alias))])
    {
      Add(key, [E(TypeOp, Str(alias))]);
      b := this;
    }

    /** Adds `$type` on `key` with the list of type codes exactly as given (nil stays nil). */
    method TypeArray(key: string, ts: Value) returns (b: Builder)
      modifies this
      ensures b == this && data == MergeOrAppend(old(data), key, [E(TypeOp, ts)])
    {
      Add(key, [E(TypeOp, ts)]);
      b := this;
    }

    /** Adds `$type` on `key` with the list of aliases exactly as given (nil stays nil). */
    method TypeArrayAlias(key: string, aliases: Value) returns (b: Builder)
      modifies this
      ensures b == this && data == MergeOrAppend(old(data), key, [E(TypeOp, aliases)])
    {
      Add(key, [E(TypeOp, aliases)]);
      b := this;
    }

    // ---- evaluation operators (evaluation_query_builder.go) ----

    /** Appends `$expr`; never merges. */
    method Expr(d: Doc) returns (b: Builder)
      modifies this
      ensures b == this && data == old(data) + [E(ExprOp, D(d))]
    {
      data := data + [E(ExprOp, D(d))];
      b := this;
    }

    /** Appends `$jsonSchema`; never merges. */
    method JsonSchema(value: Value) returns (b: Builder)
      modifies this
      ensures b == this && data == old(data) + [E(JsonSchemaOp, value)]
    {
      data := data + [E(JsonSchemaOp, value)];
      b := this;
    }

    /** Adds `$mod: [divisor, remainder]` on `key`, but only for a numeric divisor. */
    method Mod(key: string, divisor: Value, remainder: int) returns (b: Builder)
      modifies this
      ensures b == this
      ensures data == if IsNumeric(divisor) then MergeOrAppend(old(data), key, [E(ModOp, A([divisor, Int(remainder)]))]) else old(data)
    {
      if IsNumeric(divisor) {
        Add(key, [E(ModOp, A([divisor, Int(remainder)]))]);
      }
      b := this;
    }

    /** Adds `$regex` on `key`. */
    method Regex(key: string, value: string) returns (b: Builder)
      modifies this
      ensures b == this && data == MergeOrAppend(old(data), key, [E(RegexOp, Str(value))])
    {
      Add(key, [E(RegexOp, Str(value))]);
      b := this;
    }

    /** Adds `$regex` and then `$options` on `key`, both in the same entry. */
    method RegexOptions(key: string, value: string, options: string) returns (b: Builder)
      modifies this
      ensures b == this && data == MergeOrAppend(old(data), key, [E(RegexOp, Str(value)), E(OptionsOp, Str(options))])
    {
      Add(key, [E(RegexOp, Str(value)), E(OptionsOp, Str(options))]);
      b := this;
    }

    /** Appends one `$text` entry whose options are those `TextSearch` describes. */
    method Text(value: string, language: string, caseSensitive: bool, diacriticSensitive: bool) returns (b: Builder)
      modifies this
      ensures b == this && data == old(data) + [E(TextOp, D(TextSearch(value, language, caseSensitive, diacriticSensitive)))]
    {
      var d := [E(SearchOp, Str(value))];
      if language != "" {
        d := d + [E(LanguageOp, Str(language))];
      }
      if caseSensitive {
        d := d + [E(CaseSensitiveOp, Bool(caseSensitive))];
      }
      if diacriticSensitive {
        d := d + [E(DiacriticSensitiveOp, Bool(diacriticSensitive))];
      }
      data := data + [E(TextOp, D(d))];
      b := this;
    }

    /** Appends `$where`; never merges. */
    method Where(value: string) returns (b: Builder)
      modifies this
      ensures b == this && data == old(data) + [E(WhereOp, Str(value))]
    {
      data := data + [E(WhereOp, Str(value))];
      b := this;
    }

    // ---- logical operators (logical_query_builder.go); none of them merges ----

    /** Appends `$and` with the condition list as given. */
    method And(conditions: Value) returns (b: Builder)
      modifies this
      ensures b == this && data == old(data) + [E(AndOp, conditions)]
    {
      data := data + [E(AndOp, conditions)];
      b := this;
    }

    /** Appends `$not` with a single condition. */
    method Not(condition: Value) returns (b: Builder)
      modifies this
      ensures b == this && data == old(data) + [E(NotOp, condition)]
    {
      data := data + [E(NotOp, condition)];
      b := this;
    }

    /** Appends `$nor` with the condition list as given. */
    method Nor(conditions: Value) returns (b: Builder)
      modifies this
      ensures b == this && data == old(data) + [E(NorOp, conditions)]
    {
      data := data + [E(NorOp, conditions)];
      b := this;
    }

    /** Appends `$or` with the condition list as given. */
    method Or(conditions: Value) returns (b: Builder)
      modifies this
      ensures b == this && data == old(data) + [E(OrOp, conditions)]
    {
      data := data + [E(OrOp, conditions)];
      b := this;
    }

    // ---- projection operators (projection_query_builder.go) ----

    /** Adds `$slice: number` on `key`. */
    method Slice(key: string, number: int) returns (b: Builder)
      modifies this
      ensures b == this && data == MergeOrAppend(old(data), key, [E(SliceOp, Int(number))])
    {
      Add(key, [E(SliceOp, Int(number))]);
      b := this;
    }

    /** Adds `$slice: [start, end]` on `key`. */
    method SliceRanger(key: string, start: int, end: int) returns (b: Builder)
      modifies this
      ensures b == this && data == MergeOrAppend(old(data), key, [E(SliceOp, List([Int(start), Int(end)]))])
    {
      Add(key, [E(SliceOp, List([Int(start), Int(end)]))]);
      b := this;
    }
  }
}
