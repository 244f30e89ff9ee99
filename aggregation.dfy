/**
 * The aggregation expression builder (builder/aggregation): an ordered
 * document of expressions; keyed methods merge under their key, the
 * `WithoutKey` forms append at top level.
 */
module Aggregation {
  import opened Values
  import opened Merge

  // Expression operator names (builder/aggregation/types.go:9-76).
  const AbsOp := "$abs"
  const AddOp := "$add"
  const AndOp := "$and"
  const ArrayElemAtOp := "$arrayElemAt"
  const ArrayToObjectOp := "$arrayToObject"
  const AsOp := "as"
  const AvgOp := "$avg"
  const BranchesOp := "branches"
  const CaseOp := "case"
  const CeilOp := "$ceil"
  const ConcatArraysOp := "$concatArrays"
  const ConcatOp := "$concat"
  const CondOp := "$cond"
  const CondWithoutOperatorOp := "cond"
  const ContactOp := "$concat"
  const DateOp := "date"
  const DateToStringOp := "$dateToString"
  const DayOfMonthOp := "$dayOfMonth"
  const DayOfWeekOp := "$dayOfWeek"
  const DayOfYearOp := "$dayOfYear"
  const DefaultCaseOp := "default"
  const DivideOp := "$divide"
  const EqOp := "$eq"
  const ExpOp := "$exp"
  const FilterOp := "$filter"
  const FirstOp := "$first"
  const FloorOp := "$floor"
  const FormatOp := "format"
  const GtOp := "$gt"
  const GteOp := "$gte"
  const IfNullOp := "$ifNull"
  const InOp := "in"
  const InputOp := "input"
  const IndexOfArrayOp := "$indexOfArray"
  const LastOp := "$last"
  const LIMIT := "limit"
  const LnOp := "$ln"
  const Log10Op := "$log10"
  const LogOp := "$log"
  const LtOp := "$lt"
  const LteOp := "$lte"
  const MapOp := "$map"
  const MaxOp := "$max"
  const MinOp := "$min"
  const ModOp := "$mod"
  const MonthOp := "$month"
  const MultiplyOp := "$multiply"
  const NeOp := "$ne"
  const NotOp := "$not"
  const OnNullOp := "onNull"
  const OrOp := "$or"
  const PowOp := "$pow"
  const PushOp := "$push"
  const RoundOp := "$round"
  const SizeOp := "$size"
  const SliceOp := "$slice"
  const SqrtOp := "$sqrt"
  const SubstrBytesOp := "$substrBytes"
  const SubtractOp := "$subtract"
  const SumOp := "$sum"
  const SwitchOp := "$switch"
  const ThenOp := "then"
  const TimezoneOp := "timezone"
  const ToLowerOp := "$toLower"
  const ToUpperOp := "$toUpper"
  const TruncOp := "$trunc"
  const WeekOp := "$week"
  const YearOp := "$year"

  /** One `{case, then}` pair of a `$switch`. */
  datatype CaseThen = CaseThen(caseExpr: Value, thenExpr: Value)

  /** The `$switch` branches: one `{case: c, then: t}` document per case, in input order. */
  function Branches(cases: seq<CaseThen>): (r: seq<Value>)
    ensures |r| == |cases|
    ensures forall i :: 0 <= i < |cases| ==> r[i] == D([E(CaseOp, cases[i].caseExpr), E(ThenOp, cases[i].thenExpr)])
  {
    if cases == [] then [] else [D([E(CaseOp, cases[0].caseExpr), E(ThenOp, cases[0].thenExpr)])] + Branches(cases[1..])
  }

  /** The `$switch` operand: the branches array first, then `default`, which is always present. */
  function SwitchDoc(cases: seq<CaseThen>, defaultCase: Value): (v: Value)
    ensures v.D? && Keys(v.elems) == [BranchesOp, DefaultCaseOp]
    ensures v.elems[0].value == A(Branches(cases)) && v.elems[1].value == defaultCase
  {
    D([E(BranchesOp, A(Branches(cases))), E(DefaultCaseOp, defaultCase)])
  }

  /** The loop both `Switch` forms run: builds the branches array, starting from an empty one. */
  method SwitchBranches(cases: seq<CaseThen>) returns (branches: seq<Value>)
    ensures |branches| == |cases|
    ensures forall i :: 0 <= i < |cases| ==> branches[i] == D([E(CaseOp, cases[i].caseExpr), E(ThenOp, cases[i].thenExpr)])
  {
    branches := [];
    for i := 0 to |cases|
      invariant |branches| == i
      invariant forall j :: 0 <= j < i ==> branches[j] == D([E(CaseOp, cases[j].caseExpr), E(ThenOp, cases[j].thenExpr)])
    {
      branches := branches + [D([E(CaseOp, cases[i].caseExpr), E(ThenOp, cases[i].thenExpr)])];
    }
  }

  /** `Contact` and `Concat` build the same document. */
  lemma ContactIsConcat(d: Doc, key: string, expressions: Value)
    ensures MergeOrAppend(d, key, [E(ContactOp, expressions)]) == MergeOrAppend(d, key, [E(ConcatOp, expressions)])
  {
  }

  class Builder {
    var d: Doc

    /** NewBuilder: an empty expression document. */
    constructor ()
      ensures d == []
    {
      d := [];
    }

    /** The document built so far, in insertion order. */
    method Build() returns (r: Doc)
      ensures r == d
    {
      r := d;
    }

    /** Appends `key: value`; never merges. */
    method KeyValue(key: string, value: Value) returns (b: Builder)
      modifies this
      ensures b == this && d == old(d) + [E(key, value)]
    {
      d := d + [E(key, value)];
      b := this;
    }

    /**
     * Appends `es` inside the first entry for `key` whose value is a document
     * and reports true; reports false and changes nothing when there is none.
     */
    method TryMergeValue(key: string, es: Doc) returns (merged: bool)
      modifies this
      ensures merged == Target(old(d), key).Some?
      ensures d == TryMerge(old(d), key, es)
    {
      var idx := 0;
      while idx < |d|
        invariant 0 <= idx <= |d| && d == old(d)
        invariant forall j :: 0 <= j < idx ==> !Mergeable(d, j, key)
      {
        if d[idx].key == key && d[idx].value.D? {
          TargetIsFirst(d, key, idx);
          d := d[idx := E(d[idx].key, D(d[idx].value.elems + es))];
          return true;
        }
        idx := idx + 1;
      }
      return false;
    }

    /** The step every keyed method ends with: merge, or append `key: D(es)`. */
    method Add(key: string, es: Doc)
      modifies this
      ensures d == MergeOrAppend(old(d), key, es)
    {
      var merged := TryMergeValue(key, es);
      if !merged {
        d := d + [E(key, D(es))];
      }
    }

    // ---- comparison expressions (comparison_builder.go) ----

    /** `key: {EqOp: expressions}`, the expression list stored exactly as given. */
    method Eq(key: string, expressions: Value) returns (b: Builder)
      modifies this
      ensures b == this && d == MergeOrAppend(old(d), key, [E(EqOp, expressions)])
    {
      Add(key, [E(EqOp, expressions)]);
      b := this;
    }

    /** Appends `EqOp: expressions` at top level; never merges. */
    method EqWithoutKey(expressions: Value) returns (b: Builder)
      modifies this
      ensures b == this && d == old(d) + [E(EqOp, expressions)]
    {
      d := d + [E(EqOp, expressions)];
      b := this;
    }

    /** `key: {NeOp: expressions}`, the expression list stored exactly as given. */
    method Ne(key: string, expressions: Value) returns (b: Builder)
      modifies this
      ensures b == this && d == MergeOrAppend(old(d), key, [E(NeOp, expressions)])
    {
      Add(key, [E(NeOp, expressions)]);
      b := this;
    }

    /** Appends `NeOp: expressions` at top level; never merges. */
    method NeWithoutKey(expressions: Value) returns (b: Builder)
      modifies this
      ensures b == this && d == old(d) + [E(NeOp, expressions)]
    {
      d := d + [E(NeOp, expressions)];
      b := this;
    }

    /** `key: {GtOp: expressions}`, the expression list stored exactly as given. */
    method Gt(key: string, expressions: Value) returns (b: Builder)
      modifies this
      ensures b == this && d == MergeOrAppend(old(d), key, [E(GtOp, expressions)])
    {
      Add(key, [E(GtOp, expressions)]);
      b := this;
    }

    /** Appends `GtOp: expressions` at top level; never merges. */
    method GtWithoutKey(expressions: Value) returns (b: Builder)
      modifies this
      ensures b == this && d == old(d) + [E(GtOp, expressions)]
    {
      d := d + [E(GtOp, expressions)];
      b := this;
    }

    /** `key: {GteOp: expressions}`, the expression list stored exactly as given. */
    method Gte(key: string, expressions: Value) returns (b: Builder)
      modifies this
      ensures b == this && d == MergeOrAppend(old(d), key, [E(GteOp, expressions)])
    {
      Add(key, [E(GteOp, expressions)]);
      b := this;
    }

    /** Appends `GteOp: expressions` at top level; never merges. */
    method GteWithoutKey(expressions: Value) returns (b: Builder)
      modifies this
      ensures b == this && d == old(d) + [E(GteOp, expressions)]
    {
      d := d + [E(GteOp, expressions)];
      b := this;
    }

    /** `key: {LtOp: expressions}`, the expression list stored exactly as given. */
    method Lt(key: string, expressions: Value) returns (b: Builder)
      modifies this
      ensures b == this && d == MergeOrAppend(old(d), key, [E(LtOp, expressions)])
    {
      Add(key, [E(LtOp, expressions)]);
      b := this;
    }

    /** Appends `LtOp: expressions` at top level; never merges. */
    method LtWithoutKey(expressions: Value) returns (b: Builder)
      modifies this
      ensures b == this && d == old(d) + [E(LtOp, expressions)]
    {
      d := d + [E(LtOp, expressions)];
      b := this;
    }

    /** `key: {LteOp: expressions}`, the expression list stored exactly as given. */
    method Lte(key: string, expressions: Value) returns (b: Builder)
      modifies this
      ensures b == this && d == MergeOrAppend(old(d), key, [E(LteOp, expressions)])
    {
      Add(key, [E(LteOp, expressions)]);
      b := this;
    }

    /** Appends `LteOp: expressions` at top level; never merges. */
    method LteWithoutKey(expressions: Value) returns (b: Builder)
      modifies this
      ensures b == this && d == old(d) + [E(LteOp, expressions)]
    {
      d := d + [E(LteOp, expressions)];
      b := this;
    }

    /** `key: {$indexOfArray: [array, field]}`. */
    method IndexOfArray(key: string, arrayExpr: string, field: string) returns (b: Builder)
      modifies this
      ensures b == this && d == MergeOrAppend(old(d), key, [E(IndexOfArrayOp, A([Str(arrayExpr), Str(field)]))])
    {
      Add(key, [E(IndexOfArrayOp, A([Str(arrayExpr), Str(field)]))]);
      b := this;
    }

    // ---- accumulators (accumulators_builder.go) ----

    /** `key: {SumOp: expression}`. */
    method Sum(key: string, expression: Value) returns (b: Builder)
      modifies this
      ensures b == this && d == MergeOrAppend(old(d), key, [E(SumOp, expression)])
    {
      Add(key, [E(SumOp, expression)]);
      b := this;
    }

    /** Appends `SumOp: expression` at top level; never merges. */
    method SumWithoutKey(expression: Value) returns (b: Builder)
      modifies this
      ensures b == this && d == old(d) + [E(SumOp, expression)]
    {
      d := d + [E(SumOp, expression)];
      b := this;
    }

    /** `key: {PushOp: expression}`. */
    method Push(key: string, expression: Value) returns (b: Builder)
      modifies this
      ensures b == this && d == MergeOrAppend(old(d), key, [E(PushOp, expression)])
    {
      Add(key, [E(PushOp, expression)]);
      b := this;
    }

    /** Appends `PushOp: expression` at top level; never merges. */
    method PushWithoutKey(expression: Value) returns (b: Builder)
      modifies this
      ensures b == this && d == old(d) + [E(PushOp, expression)]
    {
      d := d + [E(PushOp, expression)];
      b := this;
    }

    /** `key: {AvgOp: expression}`. */
    method Avg(key: string, expression: Value) returns (b: Builder)
      modifies this
      ensures b == this && d == MergeOrAppend(old(d), key, [E(AvgOp, expression)])
    {
      Add(key, [E(AvgOp, expression)]);
      b := this;
    }

    /** Appends `AvgOp: expression` at top level; never merges. */
    method AvgWithoutKey(expression: Value) returns (b: Builder)
      modifies this
      ensures b == this && d == old(d) + [E(AvgOp, expression)]
    {
      d := d + [E(AvgOp, expression)];
      b := this;
    }

    /** `key: {FirstOp: expression}`. */
    method First(key: string, expression: Value) returns (b: Builder)
      modifies this
      ensures b == this && d == MergeOrAppend(old(d), key, [E(FirstOp, expression)])
    {
      Add(key, [E(FirstOp, expression)]);
      b := this;
    }

    /** Appends `FirstOp: expression` at top level; never merges. */
    method FirstWithoutKey(expression: Value) returns (b: Builder)
      modifies this
      ensures b == this && d == old(d) + [E(FirstOp, expression)]
    {
      d := d + [E(FirstOp, expression)];
      b := this;
    }

    /** `key: {LastOp: expression}`. */
    method Last(key: string, expression: Value) returns (b: Builder)
      modifies this
      ensures b == this && d == MergeOrAppend(old(d), key, [E(LastOp, expression)])
    {
      Add(key, [E(LastOp, expression)]);
      b := this;
    }

    /** Appends `LastOp: expression` at top level; never merges. */
    method LastWithoutKey(expression: Value) returns (b: Builder)
      modifies this
      ensures b == this && d == old(d) + [E(LastOp, expression)]
    {
      d := d + [E(LastOp, expression)];
      b := this;
    }

    /** `key: {MinOp: expression}`. */
    method Min(key: string, expression: Value) returns (b: Builder)
      modifies this
      ensures b == this && d == MergeOrAppend(old(d), key, [E(MinOp, expression)])
    {
      Add(key, [E(MinOp, expression)]);
      b := this;
    }

    /** Appends `MinOp: expression` at top level; never merges. */
    method MinWithoutKey(expression: Value) returns (b: Builder)
      modifies this
      ensures b == this && d == old(d) + [E(MinOp, expression)]
    {
      d := d + [E(MinOp, expression)];
      b := this;
    }

    /** `key: {MaxOp: expression}`. */
    method Max(key: string, expression: Value) returns (b: Builder)
      modifies this
      ensures b == this && d == MergeOrAppend(old(d), key, [E(MaxOp, expression)])
    {
      Add(key, [E(MaxOp, expression)]);
      b := this;
    }

    /** Appends `MaxOp: expression` at top level; never merges. */
    method MaxWithoutKey(expression: Value) returns (b: Builder)
      modifies this
      ensures b == this && d == old(d) + [E(MaxOp, expression)]
    {
      d := d + [E(MaxOp, expression)];
      b := this;
    }

    // ---- logical expressions (logical_builder.go) ----

    /** `key: {AndOp: expressions}`; the list is stored as given, even for one expression. */
    method And(key: string, expressions: Value) returns (b: Builder)
      modifies this
      ensures b == this && d == MergeOrAppend(old(d), key, [E(AndOp, expressions)])
    {
      Add(key, [E(AndOp, expressions)]);
      b := this;
    }

    /** Appends `AndOp: expressions` at top level; never merges. */
    method AndWithoutKey(expressions: Value) returns (b: Builder)
      modifies this
      ensures b == this && d == old(d) + [E(AndOp, expressions)]
    {
      d := d + [E(AndOp, expressions)];
      b := this;
    }

    /** `key: {NotOp: expressions}`; the list is stored as given, even for one expression. */
    method Not(key: string, expressions: Value) returns (b: Builder)
      modifies this
      ensures b == this && d == MergeOrAppend(old(d), key, [E(NotOp, expressions)])
    {
      Add(key, [E(NotOp, expressions)]);
      b := this;
    }

    /** Appends `NotOp: expressions` at top level; never merges. */
    method NotWithoutKey(expressions: Value) returns (b: Builder)
      modifies this
      ensures b == this && d == old(d) + [E(NotOp, expressions)]
    {
      d := d + [E(NotOp, expressions)];
      b := this;
    }

    /** `key: {OrOp: expressions}`; the list is stored as given, even for one expression. */
    method Or(key: string, expressions: Value) returns (b: Builder)
      modifies this
      ensures b == this && d == MergeOrAppend(old(d), key, [E(OrOp, expressions)])
    {
      Add(key, [E(OrOp, expressions)]);
      b := this;
    }

    /** Appends `OrOp: expressions` at top level; never merges. */
    method OrWithoutKey(expressions: Value) returns (b: Builder)
      modifies this
      ensures b == this && d == old(d) + [E(OrOp, expressions)]
    {
      d := d + [E(OrOp, expressions)];
      b := this;
    }

    // ---- string expressions (string_builder.go) ----

    /** `key: {$concat: expressions}`. */
    method Concat(key: string, expressions: Value) returns (b: Builder)
      modifies this
      ensures b == this && d == MergeOrAppend(old(d), key, [E(ConcatOp, expressions)])
    {
      Add(key, [E(ConcatOp, expressions)]);
      b := this;
    }

    /** Appends `$concat: expressions` at top level; never merges. */
    method ConcatWithoutKey(expressions: Value) returns (b: Builder)
      modifies this
      ensures b == this && d == old(d) + [E(ConcatOp, expressions)]
    {
      d := d + [E(ConcatOp, expressions)];
      b := this;
    }

    /** `key: {$substrBytes: [string, byteIndex, byteCount]}`. */
    method SubstrBytes(key: string, stringExpression: string, byteIndex: int, byteCount: int) returns (b: Builder)
      modifies this
      ensures b == this && d == MergeOrAppend(old(d), key, [E(SubstrBytesOp, A([Str(stringExpression), Int(byteIndex), Int(byteCount)]))])
    {
      Add(key, [E(SubstrBytesOp, A([Str(stringExpression), Int(byteIndex), Int(byteCount)]))]);
      b := this;
    }

    /** Appends `$substrBytes: [string, byteIndex, byteCount]` at top level. */
    method SubstrBytesWithoutKey(stringExpression: string, byteIndex: int, byteCount: int) returns (b: Builder)
      modifies this
      ensures b == this && d == old(d) + [E(SubstrBytesOp, A([Str(stringExpression), Int(byteIndex), Int(byteCount)]))]
    {
      d := d + [E(SubstrBytesOp, A([Str(stringExpression), Int(byteIndex), Int(byteCount)]))];
      b := this;
    }

    /** `key: {ToLowerOp: expression}`. */
    method ToLower(key: string, expression: Value) returns (b: Builder)
      modifies this
      ensures b == this && d == MergeOrAppend(old(d), key, [E(ToLowerOp, expression)])
    {
      Add(key, [E(ToLowerOp, expression)]);
      b := this;
    }

    /** Appends `ToLowerOp: expression` at top level; never merges. */
    method ToLowerWithoutKey(expression: Value) returns (b: Builder)
      modifies this
      ensures b == this && d == old(d) + [E(ToLowerOp, expression)]
    {
      d := d + [E(ToLowerOp, expression)];
      b := this;
    }

    /** `key: {ToUpperOp: expression}`. */
    method ToUpper(key: string, expression: Value) returns (b: Builder)
      modifies this
      ensures b == this && d == MergeOrAppend(old(d), key, [E(ToUpperOp, expression)])
    {
      Add(key, [E(ToUpperOp, expression)]);
      b := this;
    }

    /** Appends `ToUpperOp: expression` at top level; never merges. */
    method ToUpperWithoutKey(expression: Value) returns (b: Builder)
      modifies this
      ensures b == this && d == old(d) + [E(ToUpperOp, expression)]
    {
      d := d + [E(ToUpperOp, expression)];
      b := this;
    }

    /** The misspelt twin of `Concat`: `ContactOp` is also `$concat`. */
    method Contact(key: string, expressions: Value) returns (b: Builder)
      modifies this
      ensures b == this && d == MergeOrAppend(old(d), key, [E(ContactOp, expressions)])
    {
      Add(key, [E(ContactOp, expressions)]);
      b := this;
    }

    /** Appends `$concat: expressions` at top level, as `ConcatWithoutKey` does. */
    method ContactWithoutKey(expressions: Value) returns (b: Builder)
      modifies this
      ensures b == this && d == old(d) + [E(ContactOp, expressions)]
    {
      d := d + [E(ContactOp, expressions)];
      b := this;
    }

    // ---- conditional expressions (cond_builder.go) ----

    /** `key: {$cond: [boolExpr, trueExpr, falseExpr]}`. */
    method Cond(key: string, boolExpr: Value, trueExpr: Value, falseExpr: Value) returns (b: Builder)
      modifies this
      ensures b == this && d == MergeOrAppend(old(d), key, [E(CondOp, A([boolExpr, trueExpr, falseExpr]))])
    {
      Add(key, [E(CondOp, A([boolExpr, trueExpr, falseExpr]))]);
      b := this;
    }

    /** Appends `$cond: [boolExpr, trueExpr, falseExpr]` at top level. */
    method CondWithoutKey(boolExpr: Value, trueExpr: Value, falseExpr: Value) returns (b: Builder)
      modifies this
      ensures b == this && d == old(d) + [E(CondOp, A([boolExpr, trueExpr, falseExpr]))]
    {
      d := d + [E(CondOp, A([boolExpr, trueExpr, falseExpr]))];
      b := this;
    }

    /** `key: {$ifNull: [expr, replacement]}`, nils kept. */
    method IfNull(key: string, expr: Value, replacement: Value) returns (b: Builder)
      modifies this
      ensures b == this && d == MergeOrAppend(old(d), key, [E(IfNullOp, A([expr, replacement]))])
    {
      Add(key, [E(IfNullOp, A([expr, replacement]))]);
      b := this;
    }

    /** Appends `$ifNull: [expr, replacement]` at top level. */
    method IfNullWithoutKey(expr: Value, replacement: Value) returns (b: Builder)
      modifies this
      ensures b == this && d == old(d) + [E(IfNullOp, A([expr, replacement]))]
    {
      d := d + [E(IfNullOp, A([expr, replacement]))];
      b := this;
    }

    /** `key: {$switch: {branches: [...], default: defaultCase}}`, one branch per case, in order. */
    method Switch(key: string, cases: seq<CaseThen>, defaultCase: Value) returns (b: Builder)
      modifies this
      ensures b == this && d == MergeOrAppend(old(d), key, [E(SwitchOp, SwitchDoc(cases, defaultCase))])
    {
      var branches := SwitchBranches(cases);
      assert branches == Branches(cases);
      Add(key, [E(SwitchOp, D([E(BranchesOp, A(branches)), E(DefaultCaseOp, defaultCase)]))]);
      b := this;
    }

    /** Appends `$switch: {branches: [...], default: defaultCase}` at top level. */
    method SwitchWithoutKey(cases: seq<CaseThen>, defaultCase: Value) returns (b: Builder)
      modifies this
      ensures b == this && d == old(d) + [E(SwitchOp, SwitchDoc(cases, defaultCase))]
    {
      var branches := SwitchBranches(cases);
      assert branches == Branches(cases);
      d := d + [E(SwitchOp, D([E(BranchesOp, A(branches)), E(DefaultCaseOp, defaultCase)]))];
      b := this;
    }
  }
}
