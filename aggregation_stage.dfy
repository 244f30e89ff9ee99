/**
 * The aggregation stage builder (builder/aggregation/aggregation_stage_builder.go):
 * a pipeline to which every method appends one single-entry stage.
 */
module AggregationStage {
  import opened Common
  import opened Values

  // Stage names (builder/aggregation/types.go:81-102).
  const StageAddFieldsOp := "$addFields"
  const StageBoundariesOp := "boundaries"
  const StageBucketAutoOp := "$bucketAuto"
  const StageBucketOp := "$bucket"
  const StageBucketsOp := "buckets"
  const StageCountOp := "$count"
  const StageDefaultOp := "default"
  const StageFacetOp := "$facet"
  const StageGranularityOp := "granularity"
  const StageGroupByOp := "groupBy"
  const StageGroupOp := "$group"
  const StageLimitOp := "$limit"
  const StageLookUpOp := "$lookup"
  const StageMatchOp := "$match"
  const StageOutputOp := "output"
  const StageProjectOp := "$project"
  const StageReplaceWithOp := "$replaceWith"
  const StageSetOp := "$set"
  const StageSkipOp := "$skip"
  const StageSortByCountOp := "$sortByCount"
  const StageSortOp := "$sort"
  const StageUnwindOp := "$unwind"
  // Stage names the stage builder uses that are declared outside the files of this model;
  // the values are those the stage builder's tests expect.
  const StageReplaceRootOp := "$replaceRoot"
  const StageNewRootOp := "newRoot"
  const StageUnionWith := "$unionWith"

  /** A nil `*BucketOptions` is `None`; a nil `any` field is `Null`. */
  datatype BucketOptions = BucketOptions(defaultKey: Value, output: Value)
  datatype BucketAutoOptions = BucketAutoOptions(output: Value, granularity: string)
  datatype UnwindOptions = UnwindOptions(includeArrayIndex: string, preserveNullAndEmptyArrays: bool)
  datatype LookUpOptions = LookUpOptions(localField: string, foreignField: string, let: Doc, pipeline: seq<Doc>)

  /** A mongo.Pipeline held as a value. */
  function PipelineValue(p: seq<Doc>): (v: Value)
    ensures v.List? && |v.items| == |p| && forall i :: 0 <= i < |p| ==> v.items[i] == D(p[i])
  {
    List(seq(|p|, i requires 0 <= i < |p| => D(p[i])))
  }

  /**
   * The `$bucket` operand: `groupBy`, `boundaries`, then `default` when given
   * and non-nil, then `output` when given and non-nil.
   */
  function BucketFields(groupBy: Value, boundaries: Value, opt: Option<BucketOptions>): (d: Doc)
    ensures |d| >= 2 && d[..2] == [E(StageGroupByOp, groupBy), E(StageBoundariesOp, boundaries)]
    ensures opt.None? ==> |d| == 2
    ensures opt.Some? ==> forall e :: e in d[2..] && e.key == StageDefaultOp ==> e.value == opt.value.defaultKey
    ensures opt.Some? ==> forall e :: e in d[2..] && e.key == StageOutputOp ==> e.value == opt.value.output
  {
    var d0 := [E(StageGroupByOp, groupBy), E(StageBoundariesOp, boundaries)];
    if opt.None? then d0
    else
      var d1 := if opt.value.defaultKey != Null then d0 + [E(StageDefaultOp, opt.value.defaultKey)] else d0;
      if opt.value.output != Null then d1 + [E(StageOutputOp, opt.value.output)] else d1
  }

  /**
   * The `$bucketAuto` operand: `groupBy`, `buckets`, then `output` when given
   * and non-nil, then `granularity` when given and non-empty.
   */
  function BucketAutoFields(groupBy: Value, buckets: int, opt: Option<BucketAutoOptions>): (d: Doc)
    ensures |d| >= 2 && d[..2] == [E(StageGroupByOp, groupBy), E(StageBucketsOp, Int(buckets))]
    ensures opt.None? ==> |d| == 2
    ensures opt.Some? ==> forall e :: e in d[2..] && e.key == StageOutputOp ==> e.value == opt.value.output
    ensures opt.Some? ==> forall e :: e in d[2..] && e.key == StageGranularityOp ==> e.value == Str(opt.value.granularity)
  {
    var d0 := [E(StageGroupByOp, groupBy), E(StageBucketsOp, Int(buckets))];
    if opt.None? then d0
    else
      var d1 := if opt.value.output != Null then d0 + [E(StageOutputOp, opt.value.output)] else d0;
      if opt.value.granularity != "" then d1 + [E(StageGranularityOp, Str(opt.value.granularity))] else d1
  }

  /** `$bucket` keys: `groupBy`, `boundaries`, then `default` and `output` exactly when given and non-nil. */
  lemma BucketFieldKeys(groupBy: Value, boundaries: Value, opt: Option<BucketOptions>)
    ensures Keys(BucketFields(groupBy, boundaries, opt)) == [StageGroupByOp, StageBoundariesOp]
      + (if opt.Some? && opt.value.defaultKey != Null then [StageDefaultOp] else [])
      + (if opt.Some? && opt.value.output != Null then [StageOutputOp] else [])
  {
    var d0 := [E(StageGroupByOp, groupBy), E(StageBoundariesOp, boundaries)];
    var p1 := if opt.Some? && opt.value.defaultKey != Null then [E(StageDefaultOp, opt.value.defaultKey)] else [];
    var p2 := if opt.Some? && opt.value.output != Null then [E(StageOutputOp, opt.value.output)] else [];
    var k1: seq<string> := if opt.Some? && opt.value.defaultKey != Null then [StageDefaultOp] else [];
    var k2: seq<string> := if opt.Some? && opt.value.output != Null then [StageOutputOp] else [];
    assert BucketFields(groupBy, boundaries, opt) == d0 + p1 + p2;
    KeysTwo(d0[0], d0[1]);
    KeysOptional(p1, k1);
    KeysOptional(p2, k2);
    KeysAppend(d0, p1, [StageGroupByOp, StageBoundariesOp], k1);
    KeysAppend(d0 + p1, p2, [StageGroupByOp, StageBoundariesOp] + k1, k2);
  }

  /** `$bucketAuto` keys: `groupBy`, `buckets`, then `output` and `granularity` exactly when given and set. */
  lemma BucketAutoFieldKeys(groupBy: Value, buckets: int, opt: Option<BucketAutoOptions>)
    ensures Keys(BucketAutoFields(groupBy, buckets, opt)) == [StageGroupByOp, StageBucketsOp]
      + (if opt.Some? && opt.value.output != Null then [StageOutputOp] else [])
      + (if opt.Some? && opt.value.granularity != "" then [StageGranularityOp] else [])
  {
    var d0 := [E(StageGroupByOp, groupBy), E(StageBucketsOp, Int(buckets))];
    var p1 := if opt.Some? && opt.value.output != Null then [E(StageOutputOp, opt.value.output)] else [];
    var p2 := if opt.Some? && opt.value.granularity != "" then [E(StageGranularityOp, Str(opt.value.granularity))] else [];
    var k1: seq<string> := if opt.Some? && opt.value.output != Null then [StageOutputOp] else [];
    var k2: seq<string> := if opt.Some? && opt.value.granularity != "" then [StageGranularityOp] else [];
    assert BucketAutoFields(groupBy, buckets, opt) == d0 + p1 + p2;
    KeysTwo(d0[0], d0[1]);
    KeysOptional(p1, k1);
    KeysOptional(p2, k2);
    KeysAppend(d0, p1, [StageGroupByOp, StageBucketsOp], k1);
    KeysAppend(d0 + p1, p2, [StageGroupByOp, StageBucketsOp] + k1, k2);
  }

  /**
   * The `$unwind` operand: the bare path without options; otherwise a document
   * with `path`, then `includeArrayIndex` when non-empty, then
   * `preserveNullAndEmptyArrays` when set.
   */
  function UnwindValue(path: string, opt: Option<UnwindOptions>): (v: Value)
    ensures opt.None? <==> v == Str(path)
    ensures opt.Some? ==> v.D? && |v.elems| >= 1 && v.elems[0] == E("path", Str(path))
    ensures opt.Some? ==> (Keys(v.elems) == ["path"]
      + (if opt.value.includeArrayIndex != "" then ["includeArrayIndex"] else [])
      + (if opt.value.preserveNullAndEmptyArrays then ["preserveNullAndEmptyArrays"] else []))
    ensures opt.Some? ==> forall e :: e in v.elems && e.key == "includeArrayIndex" ==> e.value == Str(opt.value.includeArrayIndex)
    ensures opt.Some? ==> forall e :: e in v.elems && e.key == "preserveNullAndEmptyArrays" ==> e.value == Bool(true)
  {
    if opt.None? then Str(path)
    else
      var d0 := [E("path", Str(path))];
      var d1 := if opt.value.includeArrayIndex != "" then d0 + [E("includeArrayIndex", Str(opt.value.includeArrayIndex))] else d0;
      D(if opt.value.preserveNullAndEmptyArrays then d1 + [E("preserveNullAndEmptyArrays", Bool(opt.value.preserveNullAndEmptyArrays))] else d1)
  }

  /**
   * The `$lookup` operand: `from` first and `as` last; `localField` and
   * `foreignField` only when both are non-empty; `let` and `pipeline` only
   * when non-empty.
   */
  function LookupFields(from: string, asField: string, opt: LookUpOptions): (d: Doc)
    ensures |d| >= 2 && d[0] == E("from", Str(from)) && d[|d| - 1] == E("as", Str(asField))
  {
    var d0 := [E("from", Str(from))];
    var d1 := if opt.localField != "" && opt.foreignField != "" then d0 + [E("localField", Str(opt.localField))] + [E("foreignField", Str(opt.foreignField))] else d0;
    var d2 := if |opt.let| > 0 then d1 + [E("let", D(opt.let))] else d1;
    var d3 := if |opt.pipeline| > 0 then d2 + [E("pipeline", PipelineValue(opt.pipeline))] else d2;
    d3 + [E("as", Str(asField))]
  }

  /** `$lookup` keys: `from`, the two join fields when both are set, `let`, `pipeline` when non-empty, then `as`. */
  lemma LookupFieldKeys(from: string, asField: string, opt: LookUpOptions)
    ensures Keys(LookupFields(from, asField, opt)) == ["from"]
      + (if opt.localField != "" && opt.foreignField != "" then ["localField", "foreignField"] else [])
      + (if |opt.let| > 0 then ["let"] else [])
      + (if |opt.pipeline| > 0 then ["pipeline"] else [])
      + ["as"]
  {
    var join := opt.localField != "" && opt.foreignField != "";
    var d0 := [E("from", Str(from))];
    var p1 := if join then [E("localField", Str(opt.localField)), E("foreignField", Str(opt.foreignField))] else [];
    var p2 := if |opt.let| > 0 then [E("let", D(opt.let))] else [];
    var p3 := if |opt.pipeline| > 0 then [E("pipeline", PipelineValue(opt.pipeline))] else [];
    var p4 := [E("as", Str(asField))];
    var k1: seq<string> := if join then ["localField", "foreignField"] else [];
    var k2: seq<string> := if |opt.let| > 0 then ["let"] else [];
    var k3: seq<string> := if |opt.pipeline| > 0 then ["pipeline"] else [];
    assert LookupFields(from, asField, opt) == d0 + p1 + p2 + p3 + p4;
    KeysOptional(d0, ["from"]);
    if join {
      KeysTwo(p1[0], p1[1]);
    }
    KeysOptional(p2, k2);
    KeysOptional(p3, k3);
    KeysOptional(p4, ["as"]);
    KeysAppend(d0, p1, ["from"], k1);
    KeysAppend(d0 + p1, p2, ["from"] + k1, k2);
    KeysAppend(d0 + p1 + p2, p3, ["from"] + k1 + k2, k3);
    KeysAppend(d0 + p1 + p2 + p3, p4, ["from"] + k1 + k2 + k3, ["as"]);
  }

  /** Each optional `$lookup` field carries the option it was built from. */
  lemma LookupFieldValues(from: string, asField: string, opt: LookUpOptions)
    ensures var d := LookupFields(from, asField, opt);
      (forall e :: e in d && e.key == "localField" ==> e.value == Str(opt.localField))
      && (forall e :: e in d && e.key == "foreignField" ==> e.value == Str(opt.foreignField))
      && (forall e :: e in d && e.key == "let" ==> e.value == D(opt.let))
      && (forall e :: e in d && e.key == "pipeline" ==> e.value == PipelineValue(opt.pipeline))
  {
    var d := LookupFields(from, asField, opt);
    var ks := Keys(d);
    forall e | e in d
      ensures e.key == "localField" ==> e.value == Str(opt.localField)
      ensures e.key == "foreignField" ==> e.value == Str(opt.foreignField)
      ensures e.key == "let" ==> e.value == D(opt.let)
      ensures e.key == "pipeline" ==> e.value == PipelineValue(opt.pipeline)
    {
      var i :| 0 <= i < |d| && d[i] == e;
      assert ks[i] == e.key;
    }
  }

  /** The `$unionWith` operand: the collection name alone, or `{coll, pipeline}` for a non-empty pipeline. */
  function UnionWithValue(coll: string, other: seq<Doc>): (v: Value)
    ensures |other| == 0 <==> v == Str(coll)
    ensures |other| != 0 ==> v == D([E("coll", Str(coll)), E("pipeline", PipelineValue(other))])
  {
    if |other| != 0 then D([E("coll", Str(coll)), E("pipeline", PipelineValue(other))]) else Str(coll)
  }

  class StageBuilder {
    var pipeline: seq<Doc>

    /** NewStageBuilder: an empty pipeline. */
    constructor ()
      ensures pipeline == []
    {
      pipeline := [];
    }

    /** Appends `{$addFields: value}`. */
    method AddFields(value: Value) returns (b: StageBuilder)
      modifies this
      ensures b == this && pipeline == old(pipeline) + [[E(StageAddFieldsOp, value)]]
    {
      pipeline := pipeline + [[E(StageAddFieldsOp, value)]];
      b := this;
    }

    /** Appends `{$set: value}`. */
    method Set(value: Value) returns (b: StageBuilder)
      modifies this
      ensures b == this && pipeline == old(pipeline) + [[E(StageSetOp, value)]]
    {
      pipeline := pipeline + [[E(StageSetOp, value)]];
      b := this;
    }

    /** Appends `{$bucket: ...}` with the fields `BucketFields` describes. */
    method Bucket(groupBy: Value, boundaries: Value, opt: Option<BucketOptions>) returns (b: StageBuilder)
      modifies this
      ensures b == this && pipeline == old(pipeline) + [[E(StageBucketOp, D(BucketFields(groupBy, boundaries, opt)))]]
    {
      var d := [E(StageGroupByOp, groupBy), E(StageBoundariesOp, boundaries)];
      if opt.Some? {
        if opt.value.defaultKey != Null {
          d := d + [E(StageDefaultOp, opt.value.defaultKey)];
        }
        if opt.value.output != Null {
          d := d + [E(StageOutputOp, opt.value.output)];
        }
      }
      pipeline := pipeline + [[E(StageBucketOp, D(d))]];
      b := this;
    }

    /** Appends `{$bucketAuto: ...}` with the fields `BucketAutoFields` describes. */
    method BucketAuto(groupBy: Value, buckets: int, opt: Option<BucketAutoOptions>) returns (b: StageBuilder)
      modifies this
      ensures b == this && pipeline == old(pipeline) + [[E(StageBucketAutoOp, D(BucketAutoFields(groupBy, buckets, opt)))]]
    {
      var d := [E(StageGroupByOp, groupBy), E(StageBucketsOp, Int(buckets))];
      if opt.Some? {
        if opt.value.output != Null {
          d := d + [E(StageOutputOp, opt.value.output)];
        }
        if opt.value.granularity != "" {
          d := d + [E(StageGranularityOp, Str(opt.value.granularity))];
        }
      }
      pipeline := pipeline + [[E(StageBucketAutoOp, D(d))]];
      b := this;
    }

    /** Appends `{$match: expression}`. */
    method Match(expression: Value) returns (b: StageBuilder)
      modifies this
      ensures b == this && pipeline == old(pipeline) + [[E(StageMatchOp, expression)]]
    {
      pipeline := pipeline + [[E(StageMatchOp, expression)]];
      b := this;
    }

    /** Appends `{$group: {_id: id, accumulators...}}`: `_id` first, then the accumulators in order. */
    method Group(id: Value, accumulators: Doc) returns (b: StageBuilder)
      modifies this
      ensures b == this && |pipeline| == |old(pipeline)| + 1 && pipeline[..|old(pipeline)|] == old(pipeline)
      ensures var stage := pipeline[|old(pipeline)|];
        |stage| == 1 && stage[0].key == StageGroupOp && stage[0].value.D? && |stage[0].value.elems| >= 1
        && stage[0].value.elems[0] == E("_id", id) && stage[0].value.elems[1..] == accumulators
    {
      var d := [E("_id", id)];
      d := d + accumulators;
      pipeline := pipeline + [[E(StageGroupOp, D(d))]];
      b := this;
    }

    /** Appends `{$sort: value}`. */
    method Sort(value: Value) returns (b: StageBuilder)
      modifies this
      ensures b == this && pipeline == old(pipeline) + [[E(StageSortOp, value)]]
    {
      pipeline := pipeline + [[E(StageSortOp, value)]];
      b := this;
    }

    /** Appends `{$project: value}`. */
    method Project(value: Value) returns (b: StageBuilder)
      modifies this
      ensures b == this && pipeline == old(pipeline) + [[E(StageProjectOp, value)]]
    {
      pipeline := pipeline + [[E(StageProjectOp, value)]];
      b := this;
    }

    /** Appends `{$limit: limit}`. */
    method Limit(limit: int) returns (b: StageBuilder)
      modifies this
      ensures b == this && pipeline == old(pipeline) + [[E(StageLimitOp, Int(limit))]]
    {
      pipeline := pipeline + [[E(StageLimitOp, Int(limit))]];
      b := this;
    }

    /** Appends `{$skip: skip}`. */
    method Skip(skip: int) returns (b: StageBuilder)
      modifies this
      ensures b == this && pipeline == old(pipeline) + [[E(StageSkipOp, Int(skip))]]
    {
      pipeline := pipeline + [[E(StageSkipOp, Int(skip))]];
      b := this;
    }

    /** Appends `{$unwind: ...}` with the operand `UnwindValue` describes. */
    method Unwind(path: string, opt: Option<UnwindOptions>) returns (b: StageBuilder)
      modifies this
      ensures b == this && pipeline == old(pipeline) + [[E(StageUnwindOp, UnwindValue(path, opt))]]
    {
      if opt.None? {
        pipeline := pipeline + [[E(StageUnwindOp, Str(path))]];
      } else {
        var d := [E("path", Str(path))];
        if opt.value.includeArrayIndex != "" {
          d := d + [E("includeArrayIndex", Str(opt.value.includeArrayIndex))];
        }
        if opt.value.preserveNullAndEmptyArrays {
          d := d + [E("preserveNullAndEmptyArrays", Bool(opt.value.preserveNullAndEmptyArrays))];
        }
        pipeline := pipeline + [[E(StageUnwindOp, D(d))]];
      }
      b := this;
    }

    /** Appends `{$replaceRoot: {newRoot: newRoot}}`. */
    method ReplaceRoot(newRoot: Value) returns (b: StageBuilder)
      modifies this
      ensures b == this && pipeline == old(pipeline) + [[E(StageReplaceRootOp, D([E(StageNewRootOp, newRoot)]))]]
    {
      pipeline := pipeline + [[E(StageReplaceRootOp, D([E(StageNewRootOp, newRoot)]))]];
      b := this;
    }

    /** Appends `{$replaceWith: replacementDocument}`. */
    method ReplaceWith(replacementDocument: Value) returns (b: StageBuilder)
      modifies this
      ensures b == this && pipeline == old(pipeline) + [[E(StageReplaceWithOp, replacementDocument)]]
    {
      pipeline := pipeline + [[E(StageReplaceWithOp, replacementDocument)]];
      b := this;
    }

    /** Appends `{$facet: value}`. */
    method Facet(value: Value) returns (b: StageBuilder)
      modifies this
      ensures b == this && pipeline == old(pipeline) + [[E(StageFacetOp, value)]]
    {
      pipeline := pipeline + [[E(StageFacetOp, value)]];
      b := this;
    }

    /** Appends `{$sortByCount: expression}`. */
    method SortByCount(expression: Value) returns (b: StageBuilder)
      modifies this
      ensures b == this && pipeline == old(pipeline) + [[E(StageSortByCountOp, expression)]]
    {
      pipeline := pipeline + [[E(StageSortByCountOp, expression)]];
      b := this;
    }

    /** Appends `{$count: countName}`. */
    method Count(countName: string) returns (b: StageBuilder)
      modifies this
      ensures b == this && pipeline == old(pipeline) + [[E(StageCountOp, Str(countName))]]
    {
      pipeline := pipeline + [[E(StageCountOp, Str(countName))]];
      b := this;
    }

    /** Appends `{$lookup: ...}` with the fields `LookupFields` describes; the options are taken by value, leaving out the nil pointer on which the Go method panics. */
    method Lookup(from: string, asField: string, opt: LookUpOptions) returns (b: StageBuilder)
      modifies this
      ensures b == this && pipeline == old(pipeline) + [[E(StageLookUpOp, D(LookupFields(from, asField, opt)))]]
    {
      var d := [E("from", Str(from))];
      if opt.localField != "" && opt.foreignField != "" {
        d := d + [E("localField", Str(opt.localField))];
        d := d + [E("foreignField", Str(opt.foreignField))];
      }
      if |opt.let| > 0 {
        d := d + [E("let", D(opt.let))];
      }
      if |opt.pipeline| > 0 {
        d := d + [E("pipeline", PipelineValue(opt.pipeline))];
      }
      d := d + [E("as", Str(asField))];
      pipeline := pipeline + [[E(StageLookUpOp, D(d))]];
      b := this;
    }

    /** Appends `{$unionWith: ...}` with the operand `UnionWithValue` describes. */
    method UnionWith(coll: string, other: seq<Doc>) returns (b: StageBuilder)
      modifies this
      ensures b == this && pipeline == old(pipeline) + [[E(StageUnionWith, UnionWithValue(coll, other))]]
    {
      var stage: Doc;
      if |other| != 0 {
        stage := [E(StageUnionWith, D([E("coll", Str(coll)), E("pipeline", PipelineValue(other))]))];
      } else {
        stage := [E(StageUnionWith, Str(coll))];
      }
      pipeline := pipeline + [stage];
      b := this;
    }

    /** The pipeline built so far, one stage per call, in call order. */
    method Build() returns (p: seq<Doc>)
      ensures p == pipeline
    {
      p := pipeline;
    }
  }
}
