/**
 * The global callback registry that the wrappers consult (the `callback`
 * package): per phase, an ordered list of named callbacks. `Register`
 * appends, `Remove` deletes by name, and `Execute` runs a phase's callbacks
 * in order on one shared operation context and stops at the first error.
 */
module Callback {
  import opened Common
  import opened Values
  import opened Operation
  import Field
  import Validator

  /**
   * A registered callback: one of the closures InitPlugin registers, each
   * holding the phase it was registered for, or a caller's function.
   */
  datatype Callback =
    | DefaultField(phase: OpType)                              // field.Execute(ctx, opCtx, typ, opts...)
    | ModelHook(phase: OpType, dispatch: (View, OpType) -> Outcome) // model.Execute(ctx, opCtx, typ, opts...)
    | Validation(phase: OpType)                                // validator.Execute(ctx, opCtx, typ, opts...)
    | Plugin(run: View -> Outcome)                             // any other registered function, as a verdict only

  datatype Entry = Entry(name: string, cb: Callback)

  /** The default-field closure does not meet a slice holding a nil pointer it would call through. */
  predicate Safe(cb: Callback, doc: Value)
  {
    cb.DefaultField? ==> Field.SafePayload(cb.phase, doc)
  }

  predicate AllSafe(es: seq<Entry>, doc: Value)
  {
    forall i :: 0 <= i < |es| ==> Safe(es[i].cb, doc)
  }

  /**
   * One callback on the shared context `v`, whose update expression is the
   * one in `w`: its error, and the documents, issue count and update
   * expression it leaves.
   */
  function Step(cb: Callback, v: View, w: World, check: Validator.Checker): (r: (Outcome, World))
    requires Footprint(v) <= w.docs.Keys && Safe(cb, v.doc)
    ensures r.1.docs.Keys == w.docs.Keys
    ensures !cb.DefaultField? ==> r.1 == w
  {
    var cur := v.(updates := w.updates);
    match cb
    case DefaultField(p) =>
      var r := Field.FieldSpec(p, v.doc, Field.Progress(w.docs, w.issued, [w.updates, v.replacement, v.mongoOptions]));
      (Ok, World(r.docs, r.issued, r.opts[0]))
    case ModelHook(p, dispatch) => (dispatch(cur, p), w)
    case Validation(p) => (Validator.ValidationSpec(check, Validator.GetPayload(Some(cur), p), w.docs), w)
    case Plugin(run) => (run(cur), w)
  }

  /** `Execute` over a list of entries: the first error, the world left, and how many callbacks ran. */
  function Run(es: seq<Entry>, v: View, w: World, check: Validator.Checker): (r: (Outcome, World, nat))
    requires Footprint(v) <= w.docs.Keys && AllSafe(es, v.doc)
    ensures r.1.docs.Keys == w.docs.Keys
    ensures r.2 <= |es|
    ensures r.0.Ok? ==> r.2 == |es|
    ensures r.2 < |es| ==> r.0.Fail?
    decreases |es|
  {
    if es == [] then (Ok, w, 0)
    else
      var s := Step(es[0].cb, v, w, check);
      if s.0.Fail? then (s.0, s.1, 1)
      else
        var r := Run(es[1..], v, s.1, check);
        (r.0, r.1, r.2 + 1)
  }

  /** The entries of a phase; a phase nothing was registered for has none. */
  function EntriesOf(entries: map<OpType, seq<Entry>>, p: OpType): seq<Entry>
  {
    if p in entries then entries[p] else []
  }

  /** `Remove`: the first entry with the name is deleted; a name not present changes nothing. */
  function RemoveFirst(es: seq<Entry>, name: string): (r: seq<Entry>)
    ensures |r| <= |es|
  {
    if es == [] then []
    else if es[0].name == name then es[1..]
    else [es[0]] + RemoveFirst(es[1..], name)
  }

  predicate Named(es: seq<Entry>, name: string)
  {
    exists i :: 0 <= i < |es| && es[i].name == name
  }

  /** The position of the first entry carrying the name, or the length when there is none. */
  function FirstNamed(es: seq<Entry>, name: string): (k: nat)
    ensures k <= |es|
    ensures forall j :: 0 <= j < k ==> es[j].name != name
    ensures k < |es| ==> es[k].name == name
  {
    if es == [] then 0
    else if es[0].name == name then 0
    else 1 + FirstNamed(es[1..], name)
  }

  /**
   * `RemoveFirst` deletes exactly the first entry carrying the name and keeps
   * the others in order; without such an entry it is the identity.
   */
  lemma {:induction false} RemoveFirstSplits(es: seq<Entry>, name: string)
    ensures var k := FirstNamed(es, name);
      RemoveFirst(es, name) == if k < |es| then es[..k] + es[k + 1..] else es
  {
    if es != [] && es[0].name != name {
      var tail := es[1..];
      RemoveFirstSplits(tail, name);
      var k := FirstNamed(tail, name);
      if k < |tail| {
        assert es[..k + 1] == [es[0]] + tail[..k];
        assert es[k + 2..] == tail[k + 1..];
      } else {
        assert [es[0]] + tail == es;
      }
    }
  }

  /** Removing a name just registered, when it was not registered before, restores the list. */
  lemma {:induction false} RemoveUndoesRegister(es: seq<Entry>, name: string, cb: Callback)
    requires !Named(es, name)
    ensures RemoveFirst(es + [Entry(name, cb)], name) == es
  {
    if es == [] {
    } else {
      assert (es + [Entry(name, cb)])[1..] == es[1..] + [Entry(name, cb)];
      forall i | 0 <= i < |es[1..]|
        ensures es[1..][i].name != name
      {
        assert es[1..][i] == es[i + 1];
      }
      RemoveUndoesRegister(es[1..], name, cb);
    }
  }

  /**
   * Running two lists one after the other: the second list runs only when
   * every callback of the first succeeded, on the world the first left; so a
   * callback placed after a failing one never runs.
   */
  lemma {:induction false} RunConcat(a: seq<Entry>, b: seq<Entry>, v: View, w: World, check: Validator.Checker)
    requires Footprint(v) <= w.docs.Keys && AllSafe(a + b, v.doc)
    ensures AllSafe(a, v.doc) && AllSafe(b, v.doc)
    ensures var r1 := Run(a, v, w, check);
      Run(a + b, v, w, check) ==
        if r1.0.Fail? then r1
        else var r2 := Run(b, v, r1.1, check); (r2.0, r2.1, r1.2 + r2.2)
    decreases |a|
  {
    AllSafeConcat(a, b, v.doc);
    if a == [] {
      assert a + b == b;
    } else {
      assert (a + b)[0] == a[0] && (a + b)[1..] == a[1..] + b;
      var s := Step(a[0].cb, v, w, check);
      if s.0.Ok? {
        RunConcat(a[1..], b, v, s.1, check);
      }
    }
  }

  /** The callbacks of a concatenation are safe exactly when those of both parts are. */
  lemma AllSafeConcat(a: seq<Entry>, b: seq<Entry>, doc: Value)
    ensures AllSafe(a + b, doc) <==> AllSafe(a, doc) && AllSafe(b, doc)
  {
    if AllSafe(a + b, doc) {
      forall i | 0 <= i < |a|
        ensures Safe(a[i].cb, doc)
      {
        assert (a + b)[i] == a[i];
      }
      forall i | 0 <= i < |b|
        ensures Safe(b[i].cb, doc)
      {
        assert (a + b)[|a| + i] == b[i];
      }
    }
  }

  /** A phase with no callbacks returns nil and changes nothing. */
  lemma RunEmpty(v: View, w: World, check: Validator.Checker)
    requires Footprint(v) <= w.docs.Keys
    ensures Run([], v, w, check) == (Ok, w, 0)
  {
  }

  /** A list of callbacks none of which is the default-field hook leaves the world unchanged. */
  lemma {:induction false} RunWithoutFieldHook(es: seq<Entry>, v: View, w: World, check: Validator.Checker)
    requires Footprint(v) <= w.docs.Keys && AllSafe(es, v.doc)
    requires forall i :: 0 <= i < |es| ==> !es[i].cb.DefaultField?
    ensures Run(es, v, w, check).1 == w
    decreases |es|
  {
    if es != [] {
      var s := Step(es[0].cb, v, w, check);
      if s.0.Ok? {
        RunWithoutFieldHook(es[1..], v, s.1, check);
      }
    }
  }

  /** The callbacks change an update expression only when it is a bson.M; anything else, nil included, stays. */
  lemma {:induction false} RunKeepsNonMapUpdates(es: seq<Entry>, v: View, w: World, check: Validator.Checker)
    requires Footprint(v) <= w.docs.Keys && AllSafe(es, v.doc) && !w.updates.M?
    ensures Run(es, v, w, check).1.updates == w.updates
    decreases |es|
  {
    if es != [] {
      var cb := es[0].cb;
      if cb.DefaultField? {
        Field.NonMapUpdatesKept(cb.phase, v.doc, Field.Progress(w.docs, w.issued, [w.updates, v.replacement, v.mongoOptions]));
      }
      var s := Step(cb, v, w, check);
      assert s.1.updates == w.updates;
      if s.0.Ok? {
        RunKeepsNonMapUpdates(es[1..], v, s.1, check);
      }
    }
  }

  /** The callbacks read the update expression from the world, never from the view. */
  lemma {:induction false} RunIgnoresViewUpdates(es: seq<Entry>, v: View, u: Value, w: World, check: Validator.Checker)
    requires Footprint(v) <= w.docs.Keys && AllSafe(es, v.doc)
    ensures Run(es, v.(updates := u), w, check) == Run(es, v, w, check)
    decreases |es|
  {
    if es != [] {
      var s := Step(es[0].cb, v, w, check);
      assert Step(es[0].cb, v.(updates := u), w, check) == s;
      if s.0.Ok? {
        RunIgnoresViewUpdates(es[1..], v, u, s.1, check);
      }
    }
  }

  /** Running the entries from position `i`: the entry at `i`, then the rest when it succeeded. */
  lemma RunFrom(es: seq<Entry>, i: nat, v: View, w: World, check: Validator.Checker)
    requires i < |es| && Footprint(v) <= w.docs.Keys && AllSafe(es, v.doc)
    ensures AllSafe(es[i..], v.doc) && AllSafe(es[i + 1..], v.doc) && Safe(es[i].cb, v.doc)
    ensures var s := Step(es[i].cb, v, w, check);
      Run(es[i..], v, w, check) ==
        if s.0.Fail? then (s.0, s.1, 1)
        else var r := Run(es[i + 1..], v, s.1, check); (r.0, r.1, r.2 + 1)
  {
    assert es[i..][0] == es[i] && es[i..][1..] == es[i + 1..];
  }

  /** What is left to run from position `i` produces the result of the whole list. */
  predicate Remaining(es: seq<Entry>, i: nat, v: View, w: World, check: Validator.Checker, whole: (Outcome, World, nat))
    requires i <= |es| && Footprint(v) <= w.docs.Keys && AllSafe(es, v.doc)
  {
    AllSafe(es[i..], v.doc)
    && var r := Run(es[i..], v, w, check);
    r.0 == whole.0 && r.1 == whole.1 && r.2 + i == whole.2
  }

  /** One step of `Execute`'s loop: a failure is the whole result, a success leaves the rest to run. */
  lemma RemainingStep(es: seq<Entry>, i: nat, v: View, w: World, check: Validator.Checker, whole: (Outcome, World, nat), e: Outcome, w': World)
    requires i < |es| && Footprint(v) <= w.docs.Keys && AllSafe(es, v.doc)
    requires Remaining(es, i, v, w, check, whole)
    requires (e, w') == Step(es[i].cb, v, w, check)
    ensures w'.docs.Keys == w.docs.Keys
    ensures e.Fail? ==> whole.0 == e && whole.1 == w' && whole.2 == i + 1
    ensures e.Ok? ==> Remaining(es, i + 1, v, w', check, whole)
  {
    RunFrom(es, i, v, w, check);
  }

  /** Several phases in argument order; the first failing phase stops the rest. */
  function RunPhases(entries: map<OpType, seq<Entry>>, phases: seq<OpType>, v: View, w: World, check: Validator.Checker): (r: (Outcome, World))
    requires Footprint(v) <= w.docs.Keys
    requires forall i :: 0 <= i < |phases| ==> AllSafe(EntriesOf(entries, phases[i]), v.doc)
    ensures r.1.docs.Keys == w.docs.Keys
    decreases |phases|
  {
    if phases == [] then (Ok, w)
    else
      var r := Run(EntriesOf(entries, phases[0]), v, w, check);
      if r.0.Fail? then (r.0, r.1) else RunPhases(entries, phases[1..], v, r.1, check)
  }

  /** Running the phases from position `i`: that phase's callbacks, then the rest when they succeeded. */
  lemma RunPhasesFrom(entries: map<OpType, seq<Entry>>, phases: seq<OpType>, i: nat, v: View, w: World, check: Validator.Checker)
    requires i < |phases| && Footprint(v) <= w.docs.Keys
    requires forall j :: 0 <= j < |phases| ==> AllSafe(EntriesOf(entries, phases[j]), v.doc)
    ensures var r := Run(EntriesOf(entries, phases[i]), v, w, check);
      RunPhases(entries, phases[i..], v, w, check) ==
        if r.0.Fail? then (r.0, r.1) else RunPhases(entries, phases[i + 1..], v, r.1, check)
  {
    assert phases[i..][0] == phases[i] && phases[i..][1..] == phases[i + 1..];
  }

  /** What the global callbacks start from: the documents the context reaches, the issue count, the update expression. */
  function Start(ctx: OpContext, src: Source): (w: World)
    reads ctx, src, Footprint(ctx.Snapshot())
    ensures w.docs.Keys == Footprint(ctx.Snapshot())
  {
    World(Snap(Footprint(ctx.Snapshot())), src.issued, ctx.updates)
  }

  /** The heap holds world `w`. */
  predicate Reflects(ctx: OpContext, src: Source, w: World)
    reads ctx, src, w.docs.Keys
  {
    src.issued == w.issued && ctx.updates == w.updates && Agrees(w.docs)
  }

  /** The process-wide registry. */
  class Registry {
    var entries: map<OpType, seq<Entry>>
    /** The validator the validation closures use (the package-level `validate`). */
    const validator: Validator.Settings

    constructor (validator: Validator.Settings)
      ensures entries == map[] && this.validator == validator
    {
      entries := map[];
      this.validator := validator;
    }

    function Entries(p: OpType): seq<Entry>
      reads this
    {
      EntriesOf(entries, p)
    }

    /** `Register(p, name, cb)`: appends under phase `p`. */
    method Register(p: OpType, name: string, cb: Callback)
      modifies this
      ensures forall q :: Entries(q) == if q == p then old(Entries(p)) + [Entry(name, cb)] else old(Entries(q))
    {
      entries := entries[p := Entries(p) + [Entry(name, cb)]];
    }

    /** `Remove(p, name)`: deletes the first entry of that name under `p`; other phases are untouched. */
    method Remove(p: OpType, name: string)
      modifies this
      ensures forall q :: Entries(q) == if q == p then RemoveFirst(old(Entries(p)), name) else old(Entries(q))
    {
      if p in entries {
        entries := entries[p := RemoveFirst(entries[p], name)];
      }
    }

    /** One callback on the shared context, as `Step` says. */
    method ExecuteEntry(cb: Callback, ctx: OpContext, src: Source, ghost v: View, ghost docs: map<Document, Fields>)
      returns (e: Outcome, ghost docs': map<Document, Fields>)
      requires ctx.Snapshot() == v.(updates := ctx.updates)
      requires Footprint(v) <= docs.Keys && Agrees(docs) && Safe(cb, v.doc)
      modifies Targets(ctx.doc), src, ctx
      ensures Agrees(docs')
      ensures ctx.Snapshot() == v.(updates := ctx.updates)
      ensures (e, World(docs', src.issued, ctx.updates))
        == Step(cb, v, World(docs, old(src.issued), old(ctx.updates)), validator.validate)
    {
      docs' := docs;
      match cb {
        case DefaultField(q) =>
          assert [ctx.updates, ctx.replacement, ctx.mongoOptions] + [] == [ctx.updates, ctx.replacement, ctx.mongoOptions];
          e, docs' := Field.Execute(ctx, q, [], src, docs);
        case ModelHook(q, dispatch) =>
          e := dispatch(ctx.Snapshot(), q);
        case Validation(q) =>
          ghost var steps;
          e, steps := Validator.Execute(ctx, q, validator, docs);
        case Plugin(run) =>
          e := run(ctx.Snapshot());
      }
    }

    /** `Execute`'s loop: runs what `Remaining` says is left and returns the whole list's result. */
    method ExecuteAll(es: seq<Entry>, ctx: OpContext, src: Source, ghost v: View, ghost docs0: map<Document, Fields>, ghost whole: (Outcome, World, nat))
      returns (err: Outcome, ghost ran: nat, ghost docs: map<Document, Fields>)
      requires ctx.Snapshot() == v.(updates := ctx.updates)
      requires docs0.Keys == Footprint(v) && Agrees(docs0) && AllSafe(es, v.doc)
      requires Remaining(es, 0, v, World(docs0, src.issued, ctx.updates), validator.validate, whole)
      modifies Targets(ctx.doc), src, ctx
      ensures ctx.Snapshot() == v.(updates := ctx.updates)
      ensures err == whole.0 && ran == whole.2
      ensures World(docs, src.issued, ctx.updates) == whole.1 && Agrees(docs)
    {
      ghost var check := validator.validate;
      docs := docs0;
      err, ran := Ok, 0;
      for i := 0 to |es|
        invariant ctx.Snapshot() == v.(updates := ctx.updates)
        invariant docs.Keys == Footprint(v) && Agrees(docs)
        invariant err == Ok && ran == i
        invariant Remaining(es, i, v, World(docs, src.issued, ctx.updates), check, whole)
      {
        ghost var w := World(docs, src.issued, ctx.updates);
        var e: Outcome;
        e, docs := ExecuteEntry(es[i].cb, ctx, src, v, docs);
        RemainingStep(es, i, v, w, check, whole, e, World(docs, src.issued, ctx.updates));
        ran := ran + 1;
        if e.Fail? {
          return e, ran, docs;
        }
      }
      assert es[|es|..] == [];
    }

    /**
     * `Execute(ctx, opCtx, p)`: the callbacks of `p` in registration order on
     * the shared context; the result is the first error, unwrapped, and no
     * later callback runs. Only the update expression of the context and the
     * documents it reaches change, as `Run` says.
     */
    method Execute(ctx: OpContext, p: OpType, src: Source) returns (err: Outcome, ghost ran: nat)
      requires AllSafe(Entries(p), ctx.doc)
      modifies Targets(ctx.doc), src, ctx
      ensures ctx.Snapshot() == old(ctx.Snapshot()).(updates := ctx.updates)
      ensures var r := Run(Entries(p), old(ctx.Snapshot()), old(Start(ctx, src)), validator.validate);
        err == r.0 && ran == r.2 && Reflects(ctx, src, r.1)
    {
      var es := Entries(p);
      ghost var v := ctx.Snapshot();
      ghost var w0 := Start(ctx, src);
      ghost var whole := Run(es, v, w0, validator.validate);
      assert es[0..] == es;
      ghost var docs;
      err, ran, docs := ExecuteAll(es, ctx, src, v, w0.docs, whole);
    }
  }
}
