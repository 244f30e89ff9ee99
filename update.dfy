/**
 * The update builder (builder/update): an ordered update document whose
 * field operators collect their `key: value` pairs under one entry per
 * operator.
 */
module Update {
  import opened Values
  import opened Merge

  // Operator names (builder/update/types.go:4-21).
  const SetOp := "$set"
  const UnsetOp := "$unset"
  const SetOnInsertOp := "$setOnInsert"
  const CurrentDateOp := "$currentDate"
  const IncOp := "$inc"
  const MinOp := "$min"
  const MaxOp := "$max"
  const MulOp := "$mul"
  const RenameOp := "$rename"
  const AddToSetOp := "$addToSet"
  const PopOp := "$pop"
  const PullOp := "$pull"
  const PushOp := "$push"
  const PullAllOp := "$pullAll"
  const EachOp := "$each"
  const PositionOp := "$position"
  const SliceForUpdateOp := "$slice"
  const SortOp := "$sort"

  /** The `$unset` document for `keys`: one `key: ""` per key, in order. */
  function Blanks(keys: seq<string>): (r: Doc)
    ensures |r| == |keys|
    ensures forall i :: 0 <= i < |keys| ==> r[i] == E(keys[i], Str(""))
  {
    if keys == [] then [] else [E(keys[0], Str(""))] + Blanks(keys[1..])
  }

  /** Extending the keys by one extends the blanks by one. */
  lemma BlanksSnoc(keys: seq<string>, i: nat)
    requires i < |keys|
    ensures Blanks(keys[..i + 1]) == Blanks(keys[..i]) + [E(keys[i], Str(""))]
  {
    var l, r := Blanks(keys[..i + 1]), Blanks(keys[..i]) + [E(keys[i], Str(""))];
    assert |l| == |r|;
    forall j | 0 <= j < |l|
      ensures l[j] == r[j]
    {
    }
  }

  /**
   * Operators used on one builder become separate top-level entries, ordered by
   * first use, while repeated use of one operator accumulates in its entry.
   */
  lemma {:induction false} OperatorsOrderedByFirstUse(d: Doc, op1: string, op2: string, a: Doc, b: Doc, c: Doc)
    requires op1 != op2 && op1 !in Keys(d) && op2 !in Keys(d)
    ensures var r := MergeOrAppend(MergeOrAppend(MergeOrAppend(d, op1, a), op2, b), op1, c);
      r == d + [E(op1, D(a + c)), E(op2, D(b))]
  {
    NoTargetWithoutKey(d, op1);
    var d1 := MergeOrAppend(d, op1, a);
    assert d1 == d + [E(op1, D(a))];
    assert Keys(d1) == Keys(d) + [op1];
    NoTargetWithoutKey(d1, op2);
    var d2 := MergeOrAppend(d1, op2, b);
    assert d2 == d + [E(op1, D(a)), E(op2, D(b))];
    TargetIsFirst(d2, op1, |d|) by {
      forall j | 0 <= j < |d|
        ensures !Mergeable(d2, j, op1)
      {
        assert d2[j] == d[j] && Keys(d)[j] == d[j].key;
      }
    }
    assert d2[|d|].value.elems + c == a + c;
  }

  class Builder {
    var data: Doc

    /** NewBuilder: an empty update document. */
    constructor ()
      ensures data == []
    {
      data := [];
    }

    /** Appends `key: value`; never merges. */
    method KeyValue(key: string, value: Value) returns (b: Builder)
      modifies this
      ensures b == this && data == old(data) + [E(key, value)]
    {
      data := data + [E(key, value)];
      b := this;
    }

    /** The update document built so far, in insertion order. */
    method Build() returns (d: Doc)
      ensures d == data
    {
      d := data;
    }

    /**
     * Appends `es` inside the first entry for `key` whose value is a document
     * and reports true; reports false and changes nothing when there is none.
     */
    method TryMergeValue(key: string, es: Doc) returns (merged: bool)
      modifies this
      ensures merged == Target(old(data), key).Some?
      ensures data == TryMerge(old(data), key, es)
    {
      var idx := 0;
      while idx < |data|
        invariant 0 <= idx <= |data| && data == old(data)
        invariant forall j :: 0 <= j < idx ==> !Mergeable(data, j, key)
      {
        if data[idx].key == key && data[idx].value.D? {
          TargetIsFirst(data, key, idx);
          data := data[idx := E(data[idx].key, D(data[idx].value.elems + es))];
          return true;
        }
        idx := idx + 1;
      }
      return false;
    }

    /** The step every field operator ends with: merge, or append `key: D(es)`. */
    method Add(key: string, es: Doc)
      modifies this
      ensures data == MergeOrAppend(old(data), key, es)
    {
      var merged := TryMergeValue(key, es);
      if !merged {
        data := data + [E(key, D(es))];
      }
    }

    /** Adds `key: value` under `SetOp`: into the existing `SetOp` document, or as a new `SetOp` entry. */
    method Set(key: string, value: Value) returns (b: Builder)
      modifies this
      ensures b == this && data == MergeOrAppend(old(data), SetOp, [E(key, value)])
    {
      Add(SetOp, [E(key, value)]);
      b := this;
    }

    /** Appends a new `$unset` entry with `key: ""` for each key, in order; never merges. */
    method Unset(keys: seq<string>) returns (b: Builder)
      modifies this
      ensures b == this && data == old(data) + [E(UnsetOp, D(Blanks(keys)))]
    {
      var value: Doc := [];
      for i := 0 to |keys|
        invariant data == old(data)
        invariant value == Blanks(keys[..i])
      {
        BlanksSnoc(keys, i);
        value := value + [E(keys[i], Str(""))];
      }
      assert keys[..|keys|] == keys;
      assert value == Blanks(keys);
      data := data + [E(UnsetOp, D(value))];
      b := this;
    }

    /** Adds `key: value` under `SetOnInsertOp`: into the existing `SetOnInsertOp` document, or as a new `SetOnInsertOp` entry. */
    method SetOnInsert(key: string, value: Value) returns (b: Builder)
      modifies this
      ensures b == this && data == MergeOrAppend(old(data), SetOnInsertOp, [E(key, value)])
    {
      Add(SetOnInsertOp, [E(key, value)]);
      b := this;
    }

    /** Adds `key: value` under `CurrentDateOp`: into the existing `CurrentDateOp` document, or as a new `CurrentDateOp` entry. */
    method CurrentDate(key: string, value: Value) returns (b: Builder)
      modifies this
      ensures b == this && data == MergeOrAppend(old(data), CurrentDateOp, [E(key, value)])
    {
      Add(CurrentDateOp, [E(key, value)]);
      b := this;
    }

    /** Adds `key: value` under `IncOp`: into the existing `IncOp` document, or as a new `IncOp` entry. */
    method Inc(key: string, value: Value) returns (b: Builder)
      modifies this
      ensures b == this && data == MergeOrAppend(old(data), IncOp, [E(key, value)])
    {
      Add(IncOp, [E(key, value)]);
      b := this;
    }

    /** Adds `key: value` under `MinOp`: into the existing `MinOp` document, or as a new `MinOp` entry. */
    method Min(key: string, value: Value) returns (b: Builder)
      modifies this
      ensures b == this && data == MergeOrAppend(old(data), MinOp, [E(key, value)])
    {
      Add(MinOp, [E(key, value)]);
      b := this;
    }

    /** Adds `key: value` under `MaxOp`: into the existing `MaxOp` document, or as a new `MaxOp` entry. */
    method Max(key: string, value: Value) returns (b: Builder)
      modifies this
      ensures b == this && data == MergeOrAppend(old(data), MaxOp, [E(key, value)])
    {
      Add(MaxOp, [E(key, value)]);
      b := this;
    }

    /** Adds `key: value` under `MulOp`: into the existing `MulOp` document, or as a new `MulOp` entry. */
    method Mul(key: string, value: Value) returns (b: Builder)
      modifies this
      ensures b == this && data == MergeOrAppend(old(data), MulOp, [E(key, value)])
    {
      Add(MulOp, [E(key, value)]);
      b := this;
    }

    /** Adds `key: value` under `RenameOp`: into the existing `RenameOp` document, or as a new `RenameOp` entry. */
    method Rename(key: string, value: Value) returns (b: Builder)
      modifies this
      ensures b == this && data == MergeOrAppend(old(data), RenameOp, [E(key, value)])
    {
      Add(RenameOp, [E(key, value)]);
      b := this;
    }
  }
}
