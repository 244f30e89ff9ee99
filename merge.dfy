/**
 * The merge-or-append rule that the query, update and aggregation builders
 * all follow (their `tryMergeValue` helpers): an operator element is added to
 * the FIRST top-level entry whose key matches and whose value is a bson.D;
 * when there is none, a new entry `key: D(elements)` is appended at the end.
 */
module Merge {
  import opened Common
  import opened Values

  /** Entry `i` of `d` can receive merged elements for `key`. */
  predicate Mergeable(d: Doc, i: int, key: string)
  {
    0 <= i < |d| && d[i].key == key && d[i].value.D?
  }

  /** The first index at or after `from` that can receive elements for `key`. */
  function FindFrom(d: Doc, key: string, from: nat): (r: Option<nat>)
    requires from <= |d|
    decreases |d| - from
    ensures r.Some? ==> from <= r.value && Mergeable(d, r.value, key)
    ensures r.Some? ==> forall j :: from <= j < r.value ==> !Mergeable(d, j, key)
    ensures r.None? ==> forall j :: from <= j < |d| ==> !Mergeable(d, j, key)
  {
    if from == |d| then None
    else if Mergeable(d, from, key) then Some(from)
    else FindFrom(d, key, from + 1)
  }

  /** The entry `tryMergeValue` merges into, if any. */
  function Target(d: Doc, key: string): Option<nat>
  {
    FindFrom(d, key, 0)
  }

  /** Entry `i` with `es` appended to its document value. */
  function MergeAt(d: Doc, i: nat, es: Doc): Doc
    requires i < |d| && d[i].value.D?
  {
    d[i := E(d[i].key, D(d[i].value.elems + es))]
  }

  /** The data `tryMergeValue` leaves behind: merged into the target, or unchanged when there is none. */
  function TryMerge(d: Doc, key: string, es: Doc): Doc
  {
    match Target(d, key)
    case None => d
    case Some(i) => MergeAt(d, i, es)
  }

  /** The data an operator method of a builder leaves behind. */
  function MergeOrAppend(d: Doc, key: string, es: Doc): Doc
  {
    match Target(d, key)
    case None => d + [E(key, D(es))]
    case Some(i) => MergeAt(d, i, es)
  }

  /** The first entry of `d` whose key is `key`, whatever its value. */
  function Lookup(d: Doc, key: string): (r: Option<Value>)
    ensures r.Some? <==> key in Keys(d)
  {
    if d == [] then None else if d[0].key == key then Some(d[0].value) else Lookup(d[1..], key)
  }

  /** A lookup in a concatenation finds the left part's entry first. */
  lemma {:induction false} LookupAppend(a: Doc, b: Doc, key: string)
    ensures Lookup(a + b, key) == if key in Keys(a) then Lookup(a, key) else Lookup(b, key)
  {
    if a == [] {
      assert a + b == b;
    } else {
      assert (a + b)[1..] == a[1..] + b;
      assert Keys(a) == [a[0].key] + Keys(a[1..]);
      LookupAppend(a[1..], b, key);
    }
  }

  /** A key the document does not contain has no target. */
  lemma NoTargetWithoutKey(d: Doc, key: string)
    requires key !in Keys(d)
    ensures Target(d, key).None?
  {
  }

  /** The first mergeable entry is the target. */
  lemma TargetIsFirst(d: Doc, key: string, i: nat)
    requires Mergeable(d, i, key)
    requires forall j :: 0 <= j < i ==> !Mergeable(d, j, key)
    ensures Target(d, key) == Some(i)
  {
    FindFromAgrees(d, d, key, 0, i);
  }

  /** Mergeable entries agree up to `i` and `i` is mergeable in `d'`: the search finds `i`. */
  lemma {:induction false} FindFromAgrees(d: Doc, d': Doc, key: string, from: nat, i: nat)
    requires from <= i < |d'| && from <= |d| && i <= |d|
    requires Mergeable(d', i, key)
    requires forall j :: from <= j < i ==> !Mergeable(d, j, key)
    requires forall j :: from <= j < i ==> d'[j] == d[j]
    ensures FindFrom(d', key, from) == Some(i)
    decreases i - from
  {
    if from < i {
      assert d'[from] == d[from] && !Mergeable(d, from, key);
      FindFromAgrees(d, d', key, from + 1, i);
    }
  }

  /**
   * The shape of the result: an existing target keeps its place and gets the
   * elements appended to its value; otherwise one entry is added at the end.
   * Every other entry is untouched.
   */
  lemma MergeOrAppendShape(d: Doc, key: string, es: Doc)
    ensures var r := MergeOrAppend(d, key, es);
      match Target(d, key)
      case Some(i) => |r| == |d| && r[i] == E(key, D(d[i].value.elems + es))
        && forall j :: 0 <= j < |d| && j != i ==> r[j] == d[j]
      case None => |r| == |d| + 1 && r[..|d|] == d && r[|d|] == E(key, D(es))
  {
  }

  /** The entry that received the elements is the target of the next merge for the same key. */
  lemma TargetAfterMerge(d: Doc, key: string, es: Doc)
    ensures var r := MergeOrAppend(d, key, es);
      Target(r, key) == Some(match Target(d, key) case Some(i) => i case None => |d|)
  {
    var r := MergeOrAppend(d, key, es);
    match Target(d, key)
    case Some(i) =>
      FindFromAgrees(d, r, key, 0, i);
    case None =>
      FindFromAgrees(d, r, key, 0, |d|);
  }

  /**
   * Two operators on the same key accumulate in one entry, in call order:
   * merging `a` and then `b` is merging `a + b`.
   */
  lemma MergeOrAppendAccumulates(d: Doc, key: string, a: Doc, b: Doc)
    ensures MergeOrAppend(MergeOrAppend(d, key, a), key, b) == MergeOrAppend(d, key, a + b)
  {
    var r := MergeOrAppend(d, key, a);
    TargetAfterMerge(d, key, a);
    match Target(d, key)
    case Some(i) =>
      assert r[i].value.elems + b == d[i].value.elems + (a + b);
    case None =>
      assert r[|d|].value.elems + b == a + b;
  }

  /** The keys after a merge-or-append: a new key is appended, an existing target adds none. */
  lemma KeysAfterMergeOrAppend(d: Doc, key: string, es: Doc)
    ensures Keys(MergeOrAppend(d, key, es)) == if Target(d, key).Some? then Keys(d) else Keys(d) + [key]
  {
    var r := MergeOrAppend(d, key, es);
    MergeOrAppendShape(d, key, es);
    if Target(d, key).None? {
      assert Keys(r) == Keys(d) + [key];
    } else {
      assert Keys(r) == Keys(d);
    }
  }

  /** On a fresh builder the rule yields the single-entry document `key: D(es)`. */
  lemma MergeOrAppendFresh(key: string, es: Doc)
    ensures MergeOrAppend([], key, es) == [E(key, D(es))]
  {
  }

  /** An entry with the key whose value is not a document is skipped, not overwritten. */
  lemma MergeSkipsNonDocument(d: Doc, key: string, es: Doc)
    requires forall j :: 0 <= j < |d| ==> !d[j].value.D?
    ensures MergeOrAppend(d, key, es) == d + [E(key, D(es))]
  {
  }
}
