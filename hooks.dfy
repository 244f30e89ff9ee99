/**
 * What the pre- and post-action handlers of the four wrappers have in
 * common: the global callbacks of one or more phases run first, in phase
 * order, on the shared operation context; only when all of them succeed do
 * the wrapper's own hooks run, in registration order, on its local context;
 * the first error anywhere is the handler's result.
 */
module Hooks {
  import opened Common
  import opened Values
  import opened Operation
  import opened Callback
  import Validator

  /** `WithMongoOptions(opts)`: the variadic options slice, nil when none were given. */
  function Options(opts: seq<Value>): Value
  {
    if opts == [] then NilA else List(opts)
  }

  /** A `*T` for document type `t`: a pointer to the document, or a nil pointer. */
  function PtrTo(d: Document?, t: DocType): (r: Value)
    ensures d != null ==> r == Ptr(d)
    ensures d == null ==> r == NilPtr(t.caps)
  {
    if d == null then NilPtr(t.caps) else Ptr(d)
  }

  /** A `[]*T`, as a slice of pointers; it reaches exactly its non-nil documents. */
  function Ptrs(ds: seq<Document?>, t: DocType): (r: seq<Value>)
    ensures |r| == |ds|
    ensures forall i :: 0 <= i < |ds| ==> r[i] == PtrTo(ds[i], t)
    ensures forall i :: 0 <= i < |ds| && ds[i] != null ==> ds[i] in ItemTargets(r)
  {
    var r := seq(|ds|, i requires 0 <= i < |ds| => PtrTo(ds[i], t));
    assert forall i :: 0 <= i < |ds| && ds[i] != null ==> r[i].Ptr? && r[i].target == ds[i];
    r
  }

  /**
   * What a local context holds as its update expression after the global
   * callbacks left `now` in the shared context: a bson.M is a reference
   * shared with the global context, any other value was copied.
   */
  function SharedUpdates(mine: Value, now: Value): (r: Value)
    ensures mine.M? ==> r == now
    ensures !mine.M? ==> r == mine
  {
    if mine.M? then now else mine
  }

  /** The verdicts of local hooks on context `c`, in registration order. */
  function Verdicts<C>(hooks: seq<C -> Outcome>, c: C): (r: seq<Outcome>)
    ensures |r| == |hooks|
    ensures forall i :: 0 <= i < |hooks| ==> r[i] == hooks[i](c)
  {
    seq(|hooks|, i requires 0 <= i < |hooks| => hooks[i](c))
  }

  /** `for _, hook := range hooks { if err = hook(ctx, opContext); err != nil { return err } }`. */
  method RunLocal<C>(hooks: seq<C -> Outcome>, c: C) returns (err: Outcome, ghost ran: nat)
    ensures err == FirstFailure(Verdicts(hooks, c))
    ensures ran == Attempted(Verdicts(hooks, c))
  {
    ghost var outs := Verdicts(hooks, c);
    ran := 0;
    for i := 0 to |hooks|
      invariant ran == i
      invariant forall j :: 0 <= j < i ==> outs[j].Ok?
    {
      var e := hooks[i](c);
      ran := ran + 1;
      if e.Fail? {
        assert FirstFailureAt(outs) == i;
        return e, ran;
      }
    }
    assert FirstFailureAt(outs) == |outs|;
    err := Ok;
  }

  /** No callback of the phases meets a payload it would panic on. */
  predicate PhasesSafe(entries: map<OpType, seq<Entry>>, phases: seq<OpType>, doc: Value)
  {
    forall i :: 0 <= i < |phases| ==> AllSafe(EntriesOf(entries, phases[i]), doc)
  }

  /** `Execute` of one phase: the error and the world its callbacks leave. */
  function Global(es: seq<Entry>, v: View, w: World, check: Validator.Checker): (r: (Outcome, World))
    requires Footprint(v) <= w.docs.Keys && AllSafe(es, v.doc)
    ensures r.1.docs.Keys == w.docs.Keys
  {
    var g := Run(es, v, w, check);
    (g.0, g.1)
  }

  /**
   * A handler, given what its global phases returned and left: a global
   * error is the result; otherwise the first error of the local hooks on the
   * local context `c`. Local hooks never change the world.
   */
  function Handled<C>(global: (Outcome, World), hooks: seq<C -> Outcome>, c: C): (r: (Outcome, World))
    ensures r.1 == global.1
  {
    if global.0.Fail? then global else (FirstFailure(Verdicts(hooks, c)), global.1)
  }

  /**
   * The handler's order: a failing global phase is the result and no local
   * hook runs; otherwise the result is the first failing local hook, every
   * hook before it passed, and Ok means every hook passed.
   */
  lemma HandlerOrder<C>(global: (Outcome, World), hooks: seq<C -> Outcome>, c: C)
    ensures var r := Handled(global, hooks, c);
      && (global.0.Fail? ==> r.0 == global.0)
      && (global.0.Ok? ==> (r.0.Ok? <==> forall i :: 0 <= i < |hooks| ==> hooks[i](c).Ok?))
      && (global.0.Ok? && r.0.Fail? ==>
            exists k :: 0 <= k < |hooks| && r.0 == hooks[k](c) && forall j :: 0 <= j < k ==> hooks[j](c).Ok?)
  {
    if global.0.Ok? {
      var outs := Verdicts(hooks, c);
      var r := FirstFailure(outs);
      if r.Fail? {
        var k :| 0 <= k < |outs| && outs[k] == r && forall j :: 0 <= j < k ==> outs[j].Ok?;
        assert r == hooks[k](c);
      }
    }
  }

  /** One phase: its callbacks' result and world. */
  lemma SinglePhase(entries: map<OpType, seq<Entry>>, p: OpType, v: View, w: World, check: Validator.Checker)
    requires Footprint(v) <= w.docs.Keys && AllSafe(EntriesOf(entries, p), v.doc)
    ensures var r := Run(EntriesOf(entries, p), v, w, check);
      RunPhases(entries, [p], v, w, check) == (r.0, r.1)
  {
    assert [p][1..] == [];
  }

  /** Two phases: the second runs only when the first succeeded, on the world it left. */
  lemma TwoPhases(entries: map<OpType, seq<Entry>>, p: OpType, q: OpType, v: View, w: World, check: Validator.Checker)
    requires Footprint(v) <= w.docs.Keys && AllSafe(EntriesOf(entries, p), v.doc) && AllSafe(EntriesOf(entries, q), v.doc)
    ensures var r := Run(EntriesOf(entries, p), v, w, check);
      RunPhases(entries, [p, q], v, w, check) ==
        if r.0.Fail? then (r.0, r.1) else var r2 := Run(EntriesOf(entries, q), v, r.1, check); (r2.0, r2.1)
  {
    assert [p, q][1..] == [q];
    var r := Run(EntriesOf(entries, p), v, w, check);
    if r.0.Ok? {
      SinglePhase(entries, q, v, r.1, check);
    }
  }

  /** The global state the heap holds after the callbacks of world `w`. */
  predicate Holds(src: Source, w: World)
    reads src, w.docs.Keys
  {
    src.issued == w.issued && Agrees(w.docs)
  }

  /**
   * `Execute(ctx, opCtx, p)` on a context that holds view `v` and world `w`,
   * as `Run` on `v` and `w` says; `es` and `check` name the phase's
   * callbacks and the registry's validation function.
   */
  method ExecutePhase(reg: Registry, ctx: OpContext, p: OpType, src: Source,
                      ghost es: seq<Entry>, ghost check: Validator.Checker, ghost v: View, ghost w: World)
    returns (err: Outcome)
    requires es == reg.Entries(p) && check == reg.validator.validate
    requires ctx.Snapshot() == v.(updates := ctx.updates) && w.docs.Keys == Footprint(v)
    requires Reflects(ctx, src, w) && AllSafe(es, v.doc)
    modifies Targets(ctx.doc), src, ctx
    ensures ctx.Snapshot() == v.(updates := ctx.updates)
    ensures var r := Global(es, v, w, check);
      err == r.0 && Reflects(ctx, src, r.1)
  {
    SnapOfAgrees(w.docs);
    assert Start(ctx, src) == w;
    RunIgnoresViewUpdates(es, v, ctx.updates, w, check);
    ghost var ran;
    err, ran := reg.Execute(ctx, p, src);
  }

  /** `for _, opType := range opTypes { Execute(...) }`: the phases in order, stopping at the first error. */
  method ExecutePhases(reg: Registry, ctx: OpContext, phases: seq<OpType>, src: Source,
                       ghost entries: map<OpType, seq<Entry>>, ghost check: Validator.Checker, ghost v: View, ghost w: World)
    returns (err: Outcome)
    requires entries == reg.entries && check == reg.validator.validate
    requires ctx.Snapshot() == v.(updates := ctx.updates) && w.docs.Keys == Footprint(v)
    requires Reflects(ctx, src, w) && PhasesSafe(entries, phases, v.doc)
    modifies Targets(ctx.doc), src, ctx
    ensures ctx.Snapshot() == v.(updates := ctx.updates)
    ensures var r := RunPhases(entries, phases, v, w, check);
      err == r.0 && Reflects(ctx, src, r.1)
  {
    ghost var whole := RunPhases(entries, phases, v, w, check);
    ghost var cur := w;
    assert phases[0..] == phases;
    err := Ok;
    for i := 0 to |phases|
      invariant ctx.Snapshot() == v.(updates := ctx.updates) && cur.docs.Keys == Footprint(v)
      invariant Reflects(ctx, src, cur) && err == Ok
      invariant RunPhases(entries, phases[i..], v, cur, check) == whole
    {
      RunPhasesFrom(entries, phases, i, v, cur, check);
      ghost var es := EntriesOf(entries, phases[i]);
      ghost var r := Global(es, v, cur, check);
      err := ExecutePhase(reg, ctx, phases[i], src, es, check, v, cur);
      cur := r.1;
      if err.Fail? {
        return;
      }
    }
    assert phases[|phases|..] == [];
  }
}
