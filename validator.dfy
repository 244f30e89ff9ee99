/**
 * The validation hook (hook/validator/validator.go): before an insert the
 * inserted document, and before an upsert the replacement, is handed to the
 * struct validator; a slice is validated element by element and the first
 * error is returned.
 */
module Validator {
  import opened Common
  import opened Values
  import opened Operation

  /** What `validate.StructCtx` is given: a user document or one element of a bson.D. */
  datatype Subject = DocStruct(t: DocType, f: Fields) | ElemStruct(e: Elem)

  /** A struct validator (a `*validator.Validate`): its verdict on each subject. */
  type Checker = Subject -> Outcome

  /** The package-level validator that `SetValidate` replaces. */
  class Settings {
    var validate: Checker

    /** `validator.New()`. */
    constructor (initial: Checker)
      ensures validate == initial
    {
      validate := initial;
    }

    /** `SetValidate`: a nil validator leaves the current one in place. */
    method SetValidate(v: Option<Checker>)
      modifies this
      ensures validate == (if v.Some? then v.value else old(validate))
    {
      if v.Some? {
        validate := v.value;
      }
    }
  }

  /** `getPayload`: the inserted document before an insert, the replacement before an upsert, nil otherwise. */
  function GetPayload(ctx: Option<View>, p: OpType): (r: Value)
    ensures ctx.Some? ==> Targets(r) <= Footprint(ctx.value)
  {
    if ctx.None? then Null
    else if p == BeforeInsert then ctx.value.doc
    else if p == BeforeUpsert then ctx.value.replacement
    else Null
  }

  /** A value as reflection sees it: held directly, held in an interface (an element of a []any), or a bson.E. */
  datatype Reflected = Direct(v: Value) | Boxed(v: Value) | Entry(e: Elem)

  /** The elements `executeSlice` visits, in index order. */
  function Elements(payload: Value): (r: seq<Reflected>)
  {
    match payload
    case List(items) => seq(|items|, i requires 0 <= i < |items| => Direct(items[i]))
    case A(items) => seq(|items|, i requires 0 <= i < |items| => Boxed(items[i]))
    case D(elems) => seq(|elems|, i requires 0 <= i < |elems| => Entry(elems[i]))
    case _ => []
  }

  /** What `Execute` hands to `execute`, in order: a slice's elements, a non-nil pointer, or nothing. */
  function Visited(payload: Value): (r: seq<Reflected>)
  {
    match payload
    case List(_) => Elements(payload)
    case A(_) => Elements(payload)
    case D(_) => Elements(payload)
    case Ptr(_) => [Direct(payload)]
    case GoMapPtr(_) => [Direct(payload)]
    case _ => []
  }

  /** The documents a reflected value reaches. */
  predicate Covered(r: Reflected, docs: map<Document, Fields>)
  {
    r.Direct? && (r.v.Ptr? || r.v.Struct?) ==> r.v.target in docs
  }

  /**
   * `validateStruct`: a non-nil pointer is dereferenced, and what is then a
   * struct not convertible to time.Time is validated; anything else is not.
   */
  function ValidateStruct(r: Reflected, docs: map<Document, Fields>): Option<Subject>
    requires Covered(r, docs)
  {
    match r
    case Direct(v) =>
      if (v.Ptr? || v.Struct?) && v.target.t.kind == StructKind then Some(DocStruct(v.target.t, docs[v.target]))
      else None
    case Boxed(_) => None
    case Entry(e) => Some(ElemStruct(e))
  }

  /** `execute` on one value: the validator's verdict on it, or nil when it is not validated. */
  function Verdict(check: Checker, r: Reflected, docs: map<Document, Fields>): Outcome
    requires Covered(r, docs)
  {
    match ValidateStruct(r, docs)
    case None => Ok
    case Some(s) => check(s)
  }

  function Verdicts(check: Checker, rs: seq<Reflected>, docs: map<Document, Fields>): (r: seq<Outcome>)
    requires forall i :: 0 <= i < |rs| ==> Covered(rs[i], docs)
    ensures |r| == |rs|
    ensures forall i :: 0 <= i < |rs| ==> r[i] == Verdict(check, rs[i], docs)
  {
    seq(|rs|, i requires 0 <= i < |rs| => Verdict(check, rs[i], docs))
  }

  /** Everything the validator reaches from a payload lies in its targets. */
  lemma VisitedCovered(payload: Value, docs: map<Document, Fields>)
    requires Targets(payload) <= docs.Keys
    ensures forall i :: 0 <= i < |Visited(payload)| ==> Covered(Visited(payload)[i], docs)
  {
    var rs := Visited(payload);
    forall i | 0 <= i < |rs|
      ensures Covered(rs[i], docs)
    {
      if payload.List? && (payload.items[i].Ptr? || payload.items[i].Struct?) {
        ItemTarget(payload.items, i);
      }
    }
  }

  /** The validation hook's result on a payload: the first failing verdict, in visiting order. */
  function ValidationSpec(check: Checker, payload: Value, docs: map<Document, Fields>): Outcome
    requires Targets(payload) <= docs.Keys
  {
    VisitedCovered(payload, docs);
    FirstFailure(Verdicts(check, Visited(payload), docs))
  }

  /** How many values the validation hook visits before it stops. */
  function ValidationSteps(check: Checker, payload: Value, docs: map<Document, Fields>): nat
    requires Targets(payload) <= docs.Keys
  {
    VisitedCovered(payload, docs);
    Attempted(Verdicts(check, Visited(payload), docs))
  }

  /** `execute`, reading the document's fields from the heap. */
  method ExecuteOne(r: Reflected, check: Checker, ghost docs: map<Document, Fields>) returns (err: Outcome)
    requires Covered(r, docs) && Agrees(docs)
    ensures err == Verdict(check, r, docs)
  {
    match r {
      case Direct(v) =>
        if (v.Ptr? || v.Struct?) && v.target.t.kind == StructKind {
          err := check(DocStruct(v.target.t, v.target.fields));
        } else {
          err := Ok;
        }
      case Boxed(_) =>
        err := Ok;
      case Entry(e) =>
        err := check(ElemStruct(e));
    }
  }

  /** `executeSlice`: validates the elements in order and stops at the first error. */
  method ExecuteSlice(rs: seq<Reflected>, check: Checker, ghost docs: map<Document, Fields>)
    returns (err: Outcome, ghost steps: nat)
    requires forall i :: 0 <= i < |rs| ==> Covered(rs[i], docs)
    requires Agrees(docs)
    ensures err == FirstFailure(Verdicts(check, rs, docs))
    ensures steps == Attempted(Verdicts(check, rs, docs))
  {
    ghost var outs := Verdicts(check, rs, docs);
    steps := 0;
    for i := 0 to |rs|
      invariant steps == i
      invariant forall j :: 0 <= j < i ==> outs[j].Ok?
    {
      var e := ExecuteOne(rs[i], check, docs);
      steps := steps + 1;
      if e.Fail? {
        assert FirstFailureAt(outs) == i;
        return e, steps;
      }
    }
    assert FirstFailureAt(outs) == |outs|;
    err := Ok;
  }

  /**
   * `Execute`: validates the payload of phase `p`. A nil context, a phase
   * other than before-insert and before-upsert, a nil pointer and a payload
   * that is neither a slice nor a pointer are not validated.
   */
  method Execute(ctx: OpContext?, p: OpType, settings: Settings, ghost docs: map<Document, Fields>)
    returns (err: Outcome, ghost steps: nat)
    requires Agrees(docs)
    requires ctx != null ==> Footprint(ctx.Snapshot()) <= docs.Keys
    ensures err == ValidationSpec(settings.validate, GetPayload(if ctx == null then None else Some(ctx.Snapshot()), p), docs)
    ensures steps == ValidationSteps(settings.validate, GetPayload(if ctx == null then None else Some(ctx.Snapshot()), p), docs)
  {
    var payload: Value := Null;
    if ctx != null {
      if p == BeforeInsert {
        payload := ctx.doc;
      } else if p == BeforeUpsert {
        payload := ctx.replacement;
      }
    }
    err, steps := ValidatePayload(payload, settings.validate, docs);
  }

  /** The validation of a payload once `Execute` has chosen it: a nil payload is not visited. */
  method ValidatePayload(payload: Value, check: Checker, ghost docs: map<Document, Fields>)
    returns (err: Outcome, ghost steps: nat)
    requires Agrees(docs) && Targets(payload) <= docs.Keys
    ensures err == ValidationSpec(check, payload, docs)
    ensures steps == ValidationSteps(check, payload, docs)
  {
    VisitedCovered(payload, docs);
    if payload == Null {
      return Ok, 0;
    }
    if payload.List? || payload.A? || payload.D? || payload.NilA? {
      err, steps := ExecuteSlice(Elements(payload), check, docs);
    } else if payload.Ptr? || payload.GoMapPtr? {
      err := ExecuteOne(Direct(payload), check, docs);
      steps := 1;
      assert Verdicts(check, Visited(payload), docs) == [err];
    } else {
      err, steps := Ok, 0;
    }
  }

  /** Only the before-insert and before-upsert phases validate anything. */
  lemma OtherPhasesValidateNothing(check: Checker, v: View, p: OpType, docs: map<Document, Fields>)
    requires p != BeforeInsert && p != BeforeUpsert
    requires Footprint(v) <= docs.Keys
    ensures ValidationSpec(check, GetPayload(Some(v), p), docs) == Ok
    ensures ValidationSteps(check, GetPayload(Some(v), p), docs) == 0
  {
  }

  /**
   * A pointer to a document struct is validated once, with its current
   * fields, and the verdict is returned unchanged; a pointer to time.Time, to
   * a non-struct, and a nil pointer are not validated.
   */
  lemma PointerValidation(check: Checker, o: Document, docs: map<Document, Fields>)
    requires o in docs
    ensures o.t.kind == StructKind ==> ValidationSpec(check, Ptr(o), docs) == check(DocStruct(o.t, docs[o]))
    ensures o.t.kind != StructKind ==> ValidationSpec(check, Ptr(o), docs) == Ok
    ensures forall c :: ValidationSpec(check, NilPtr(c), docs) == Ok
  {
    assert Verdicts(check, Visited(Ptr(o)), docs) == [Verdict(check, Direct(Ptr(o)), docs)];
  }

  /** The elements of a []any are interfaces and are never validated. */
  lemma BoxedNeverValidated(check: Checker, items: seq<Value>, docs: map<Document, Fields>)
    requires Targets(A(items)) <= docs.Keys
    ensures ValidationSpec(check, A(items), docs) == Ok
    ensures ValidationSteps(check, A(items), docs) == |items|
  {
    VisitedCovered(A(items), docs);
    var outs := Verdicts(check, Visited(A(items)), docs);
    assert forall j :: 0 <= j < |outs| ==> outs[j].Ok?;
    assert FirstFailureAt(outs) == |outs|;
  }

  /**
   * A slice of documents: the result is the verdict on the first document
   * that fails, every document before it passed, and every document is
   * validated with the fields it holds; when none fails all were visited.
   */
  lemma SliceValidation(check: Checker, items: seq<Value>, docs: map<Document, Fields>)
    requires Targets(List(items)) <= docs.Keys
    requires forall i :: 0 <= i < |items| ==> items[i].Ptr? && items[i].target.t.kind == StructKind
    ensures var r := ValidationSpec(check, List(items), docs);
      (r.Ok? <==> forall i :: 0 <= i < |items| ==> check(DocStruct(items[i].target.t, docs[items[i].target])).Ok?)
      && (r.Fail? ==>
            exists k :: 0 <= k < |items| && r == check(DocStruct(items[k].target.t, docs[items[k].target]))
              && forall j :: 0 <= j < k ==> check(DocStruct(items[j].target.t, docs[items[j].target])).Ok?)
  {
    VisitedCovered(List(items), docs);
    var rs := Visited(List(items));
    var outs := Verdicts(check, rs, docs);
    forall i | 0 <= i < |items|
      ensures outs[i] == check(DocStruct(items[i].target.t, docs[items[i].target]))
    {
      assert rs[i] == Direct(items[i]);
    }
  }
}
