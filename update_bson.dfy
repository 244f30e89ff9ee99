/**
 * The standalone update-document constructors of builder/update/bson_build.go:
 * each returns a one-entry document for one update operator or modifier.
 */
module UpdateBson {
  import opened Common
  import opened Values
  import opened Merge
  import opened Update

  /** what merging `key: value` under `AddToSetOp` into an empty document gives. */
  function AddToSet(key: string, value: Value): (r: Doc)
    ensures r == MergeOrAppend([], AddToSetOp, [E(key, value)])
  {
    [E(AddToSetOp, D([E(key, value)]))]
  }

  /** what merging `key: value` under `PopOp` into an empty document gives. */
  function Pop(key: string, value: Value): (r: Doc)
    ensures r == MergeOrAppend([], PopOp, [E(key, value)])
  {
    [E(PopOp, D([E(key, value)]))]
  }

  /** what merging `key: value` under `PullOp` into an empty document gives. */
  function Pull(key: string, value: Value): (r: Doc)
    ensures r == MergeOrAppend([], PullOp, [E(key, value)])
  {
    [E(PullOp, D([E(key, value)]))]
  }

  /** what merging `key: value` under `PushOp` into an empty document gives. */
  function Push(key: string, value: Value): (r: Doc)
    ensures r == MergeOrAppend([], PushOp, [E(key, value)])
  {
    [E(PushOp, D([E(key, value)]))]
  }

  /** `$pullAll` on `key` with the value list exactly as given. */
  function PullAll(key: string, values: Value): (r: Doc)
    ensures r == MergeOrAppend([], PullAllOp, [E(key, values)])
  {
    [E(PullAllOp, D([E(key, values)]))]
  }

  /** The `$each` modifier holding the value list as given. */
  function Each(values: Value): (r: Doc)
    ensures Keys(r) == [EachOp] && Lookup(r, EachOp) == Some(values)
  {
    [E(EachOp, values)]
  }

  /** The `$position` modifier. */
  function Position(value: Value): (r: Doc)
    ensures Keys(r) == [PositionOp] && Lookup(r, PositionOp) == Some(value)
  {
    [E(PositionOp, value)]
  }

  /** The `$slice` modifier. */
  function Slice(num: int): (r: Doc)
    ensures Keys(r) == [SliceForUpdateOp] && Lookup(r, SliceForUpdateOp) == Some(Int(num))
  {
    [E(SliceForUpdateOp, Int(num))]
  }

  /** The `$sort` modifier. */
  function Sort(value: Value): (r: Doc)
    ensures Keys(r) == [SortOp] && Lookup(r, SortOp) == Some(value)
  {
    [E(SortOp, value)]
  }

  /** what merging `key: value` under `SetOp` into an empty document gives. */
  function Set(key: string, value: Value): (r: Doc)
    ensures r == MergeOrAppend([], SetOp, [E(key, value)])
  {
    [E(SetOp, D([E(key, value)]))]
  }

  /** `$unset` with `key: ""` for each key, in the same order and count. */
  method Unset(keys: seq<string>) returns (d: Doc)
    ensures |d| == 1 && d[0].key == UnsetOp && d[0].value.D?
    ensures |d[0].value.elems| == |keys|
    ensures forall i :: 0 <= i < |keys| ==> d[0].value.elems[i] == E(keys[i], Str(""))
  {
    var value: Doc := [];
    for i := 0 to |keys|
      invariant |value| == i
      invariant forall j :: 0 <= j < i ==> value[j] == E(keys[j], Str(""))
    {
      value := value + [E(keys[i], Str(""))];
    }
    d := [E(UnsetOp, D(value))];
  }

  /** what merging `key: value` under `SetOnInsertOp` into an empty document gives. */
  function SetOnInsert(key: string, value: Value): (r: Doc)
    ensures r == MergeOrAppend([], SetOnInsertOp, [E(key, value)])
  {
    [E(SetOnInsertOp, D([E(key, value)]))]
  }

  /** what merging `key: value` under `CurrentDateOp` into an empty document gives. */
  function CurrentDate(key: string, value: Value): (r: Doc)
    ensures r == MergeOrAppend([], CurrentDateOp, [E(key, value)])
  {
    [E(CurrentDateOp, D([E(key, value)]))]
  }

  /** what merging `key: value` under `IncOp` into an empty document gives. */
  function Inc(key: string, value: Value): (r: Doc)
    ensures r == MergeOrAppend([], IncOp, [E(key, value)])
  {
    [E(IncOp, D([E(key, value)]))]
  }

  /** what merging `key: value` under `MinOp` into an empty document gives. */
  function Min(key: string, value: Value): (r: Doc)
    ensures r == MergeOrAppend([], MinOp, [E(key, value)])
  {
    [E(MinOp, D([E(key, value)]))]
  }

  /** what merging `key: value` under `MaxOp` into an empty document gives. */
  function Max(key: string, value: Value): (r: Doc)
    ensures r == MergeOrAppend([], MaxOp, [E(key, value)])
  {
    [E(MaxOp, D([E(key, value)]))]
  }

  /** what merging `key: value` under `MulOp` into an empty document gives. */
  function Mul(key: string, value: Value): (r: Doc)
    ensures r == MergeOrAppend([], MulOp, [E(key, value)])
  {
    [E(MulOp, D([E(key, value)]))]
  }

  /** what merging `key: value` under `RenameOp` into an empty document gives. */
  function Rename(key: string, value: Value): (r: Doc)
    ensures r == MergeOrAppend([], RenameOp, [E(key, value)])
  {
    [E(RenameOp, D([E(key, value)]))]
  }

  /** A standalone field constructor is what a fresh update builder holds after the same call, and any later `$set` (of any key, the same one included) is appended inside it. */
  lemma StandaloneMatchesBuilder(key: string, value: Value, key2: string, more: Value)
    ensures MergeOrAppend(Set(key, value), SetOp, [E(key2, more)]) == [E(SetOp, D([E(key, value), E(key2, more)]))]
    ensures Set(key, value) == MergeOrAppend([], SetOp, [E(key, value)])
  {
    MergeOrAppendAccumulates([], SetOp, [E(key, value)], [E(key2, more)]);
    MergeOrAppendFresh(SetOp, [E(key, value)] + [E(key2, more)]);
    assert [E(key, value)] + [E(key2, more)] == [E(key, value), E(key2, more)];
  }
}
