/**
 * The insert wrapper (creator/creator.go): `InsertOne` and `InsertMany`
 * run the before-insert handler, send the insert, then run the
 * after-insert handler, on one global operation context shared by both
 * handlers.
 */
module Creator {
  import opened Common
  import opened Values
  import opened Operation
  import opened Callback
  import opened Hooks
  import opened Remote
  import Validator

  /** The local context the creator's own hooks receive (creator/types.go): `Doc` for InsertOne, `Docs` for InsertMany. */
  datatype HookContext = HookContext(doc: Value, docs: Value, mongoOptions: Value, modelHook: Value)

  type Hook = HookContext -> Outcome

  /** What is inserted: one `*T` (InsertOne) or a `[]*T` (InsertMany). */
  datatype Inserted = One(doc: Document?) | Many(docs: seq<Document?>)

  /** The payload the operation context carries for an insert. */
  function Payload(ins: Inserted, t: DocType): (r: Value)
    ensures ins.One? ==> r == PtrTo(ins.doc, t)
    ensures ins.Many? ==> r == List(Ptrs(ins.docs, t))
  {
    match ins
    case One(d) => PtrTo(d, t)
    case Many(ds) => List(Ptrs(ds, t))
  }

  /** The insert request, with each document encoded as `docs` records it. */
  function InsertRequest(ins: Inserted, t: DocType, docs: map<Document, Fields>, opts: seq<Value>): (r: Request)
    requires Targets(Payload(ins, t)) <= docs.Keys
    ensures ins.One? ==> r == InsertOneReq(Encoded(ins.doc, docs), opts)
    ensures ins.Many? ==> r == InsertManyReq(EncodedAll(ins.docs, docs), opts)
  {
    match ins
    case One(d) => InsertOneReq(Encoded(d, docs), opts)
    case Many(ds) => InsertManyReq(EncodedAll(ds, docs), opts)
  }

  /** Encodes the documents of an insert from the heap, which holds `docs`. */
  method EncodeInsert(ins: Inserted, t: DocType, ghost docs: map<Document, Fields>, opts: seq<Value>) returns (r: Request)
    requires Targets(Payload(ins, t)) <= docs.Keys && Agrees(docs)
    ensures r == InsertRequest(ins, t, docs, opts)
  {
    match ins
    case One(d) =>
      var encoded: Option<Fields> := if d == null then None else Some(d.fields);
      r := InsertOneReq(encoded, opts);
    case Many(ds) =>
      var encoded := EncodeAll(ds, docs);
      r := InsertManyReq(encoded, opts);
  }

  /**
   * The rest of an insert once the before phase passed, from world `w`:
   * exactly `req` is sent after the requests `sent0`; a driver error is the
   * result and the world stays `w`; otherwise the after handler (the
   * entries `after`, then the hooks `hooks` on `local`) runs, and its error,
   * if any, replaces the driver's reply.
   */
  ghost predicate Finished(req: Request, after: seq<Entry>, check: Validator.Checker, hooks: seq<Hook>, local: HookContext,
                           v: View, w: World, written: (seq<Request>, Request) -> Result<Value>, sent0: seq<Request>, sent: seq<Request>,
                           res: Result<Value>, post: (Outcome, World), fin: World)
    requires Footprint(v) <= w.docs.Keys && AllSafe(after, v.doc)
  {
    var ans := written(sent0, req);
    && sent == sent0 + [req]
    && (ans.Failure? ==> res == ans && fin == w)
    && (ans.Success? ==>
          && post == Handled(Global(after, v, w, check), hooks, local)
          && fin == post.1
          && res == if post.0.Fail? then Failure(post.0.err) else ans)
  }

  /**
   * A whole insert of `ins` with options `opts`, from world `w` and the
   * requests `sent0`: the before handler (the entries `before`, then the
   * hooks `bh`) gives `pre`; its error is the result and nothing is sent;
   * otherwise the documents are encoded as the before phase left them and
   * the rest is as Finished says, with the after hooks `ah`.
   */
  ghost predicate Insertion(ins: Inserted, t: DocType, opts: seq<Value>, before: seq<Entry>, after: seq<Entry>, check: Validator.Checker,
                            bh: seq<Hook>, ah: seq<Hook>, local: HookContext, v: View, w: World,
                            written: (seq<Request>, Request) -> Result<Value>, sent0: seq<Request>, sent: seq<Request>,
                            res: Result<Value>, pre: (Outcome, World), post: (Outcome, World), fin: World)
    requires Footprint(v) <= w.docs.Keys && v.doc == Payload(ins, t) && AllSafe(before, v.doc) && AllSafe(after, v.doc)
  {
    && pre == Handled(Global(before, v, w, check), bh, local)
    && (pre.0.Fail? ==> res == Failure(pre.0.err) && sent == sent0 && fin == pre.1)
    && (pre.0.Ok? ==>
          Finished(InsertRequest(ins, t, pre.1.docs, opts), after, check, ah, local, v, pre.1, written, sent0, sent, res, post, fin))
  }

  class Creator {
    /** The element type `T`. */
    const t: DocType
    const collection: Collection
    /** The process-wide callback registry. */
    const reg: Registry
    var modelHook: Value
    var beforeHooks: seq<Hook>
    var afterHooks: seq<Hook>

    /** `NewCreator`: no model hook and no hooks. */
    constructor (t: DocType, collection: Collection, reg: Registry)
      ensures this.t == t && this.collection == collection && this.reg == reg
      ensures modelHook == Null && beforeHooks == [] && afterHooks == []
    {
      this.t, this.collection, this.reg := t, collection, reg;
      modelHook, beforeHooks, afterHooks := Null, [], [];
    }

    /** `ModelHook`: sets the model hook and returns the same creator. */
    method ModelHook(h: Value) returns (self: Creator)
      modifies this
      ensures self == this && modelHook == h
      ensures beforeHooks == old(beforeHooks) && afterHooks == old(afterHooks)
    {
      modelHook := h;
      self := this;
    }

    /** `RegisterBeforeHooks`: appends, keeping the earlier hooks first. */
    method RegisterBeforeHooks(hooks: seq<Hook>) returns (self: Creator)
      modifies this
      ensures self == this && beforeHooks == old(beforeHooks) + hooks
      ensures modelHook == old(modelHook) && afterHooks == old(afterHooks)
    {
      beforeHooks := beforeHooks + hooks;
      self := this;
    }

    /** `RegisterAfterHooks`: appends, keeping the earlier hooks first. */
    method RegisterAfterHooks(hooks: seq<Hook>) returns (self: Creator)
      modifies this
      ensures self == this && afterHooks == old(afterHooks) + hooks
      ensures modelHook == old(modelHook) && beforeHooks == old(beforeHooks)
    {
      afterHooks := afterHooks + hooks;
      self := this;
    }

    /** `preActionHandler`: the global callbacks of `p`, then the before hooks. */
    method PreActionHandler(ctx: OpContext, local: HookContext, p: OpType, src: Source,
                            ghost es: seq<Entry>, ghost check: Validator.Checker, ghost v: View, ghost w: World)
      returns (err: Outcome, ghost r: (Outcome, World))
      requires es == reg.Entries(p) && check == reg.validator.validate
      requires ctx.Snapshot() == v.(updates := ctx.updates) && w.docs.Keys == Footprint(v)
      requires Reflects(ctx, src, w) && AllSafe(es, v.doc)
      modifies Targets(ctx.doc), src, ctx
      ensures ctx.Snapshot() == v.(updates := ctx.updates)
      ensures r == Handled(Global(es, v, w, check), beforeHooks, local)
      ensures err == r.0 && Reflects(ctx, src, r.1)
    {
      r := Handled(Global(es, v, w, check), beforeHooks, local);
      err := ExecutePhase(reg, ctx, p, src, es, check, v, w);
      if err.Fail? {
        return;
      }
      ghost var ran;
      err, ran := RunLocal(beforeHooks, local);
    }

    /** `postActionHandler`: the global callbacks of `p`, then the after hooks. */
    method PostActionHandler(ctx: OpContext, local: HookContext, p: OpType, src: Source,
                            ghost es: seq<Entry>, ghost check: Validator.Checker, ghost v: View, ghost w: World)
      returns (err: Outcome, ghost r: (Outcome, World))
      requires es == reg.Entries(p) && check == reg.validator.validate
      requires ctx.Snapshot() == v.(updates := ctx.updates) && w.docs.Keys == Footprint(v)
      requires Reflects(ctx, src, w) && AllSafe(es, v.doc)
      modifies Targets(ctx.doc), src, ctx
      ensures ctx.Snapshot() == v.(updates := ctx.updates)
      ensures r == Handled(Global(es, v, w, check), afterHooks, local)
      ensures err == r.0 && Reflects(ctx, src, r.1)
    {
      r := Handled(Global(es, v, w, check), afterHooks, local);
      err := ExecutePhase(reg, ctx, p, src, es, check, v, w);
      if err.Fail? {
        return;
      }
      ghost var ran;
      err, ran := RunLocal(afterHooks, local);
    }

    /**
     * The rest of an insert once the before phase passed: send `req`; a
     * driver error is the result and nothing more runs; otherwise the after
     * phase runs on the world the before phase left, and its error, if any,
     * replaces the driver's result.
     */
    method SendAndFinish(ctx: OpContext, local: HookContext, req: Request, src: Source,
                         ghost after: seq<Entry>, ghost check: Validator.Checker, ghost v: View, ghost w: World)
      returns (res: Result<Value>, ghost post: (Outcome, World), ghost fin: World)
      requires after == reg.Entries(AfterInsert) && check == reg.validator.validate
      requires ctx.Snapshot() == v.(updates := ctx.updates) && w.docs.Keys == Footprint(v)
      requires Reflects(ctx, src, w) && AllSafe(after, v.doc)
      modifies Targets(ctx.doc), src, ctx, collection
      ensures Finished(req, after, check, afterHooks, local, v, w, collection.written, old(collection.sent), collection.sent, res, post, fin)
      ensures Holds(src, fin)
    {
      post, fin := (Ok, w), w;
      res := collection.Write(req);
      if res.Failure? {
        return;
      }
      var err;
      err, post := PostActionHandler(ctx, local, AfterInsert, src, after, check, v, w);
      fin := post.1;
      if err.Fail? {
        res := Failure(err.err);
      }
    }

    /**
     * An insert on a fresh context that holds view `v` and world `w`: the
     * before phase; on its error, nothing is sent; otherwise the documents
     * are encoded as the before phase left them and sent, and the rest is as
     * SendAndFinish says.
     */
    method Perform(ctx: OpContext, local: HookContext, ins: Inserted, opts: seq<Value>, src: Source,
                   ghost before: seq<Entry>, ghost after: seq<Entry>, ghost check: Validator.Checker, ghost v: View, ghost w: World)
      returns (res: Result<Value>, ghost pre: (Outcome, World), ghost post: (Outcome, World), ghost fin: World)
      requires before == reg.Entries(BeforeInsert) && after == reg.Entries(AfterInsert) && check == reg.validator.validate
      requires ctx.Snapshot() == v.(updates := ctx.updates) && w.docs.Keys == Footprint(v) && v.doc == Payload(ins, t)
      requires Reflects(ctx, src, w) && AllSafe(before, v.doc) && AllSafe(after, v.doc)
      modifies Targets(ctx.doc), src, ctx, collection
      ensures Insertion(ins, t, opts, before, after, check, beforeHooks, afterHooks, local, v, w,
                        collection.written, old(collection.sent), collection.sent, res, pre, post, fin)
      ensures Holds(src, fin)
    {
      var err;
      err, pre := PreActionHandler(ctx, local, BeforeInsert, src, before, check, v, w);
      post, fin := pre, pre.1;
      if err.Fail? {
        return Failure(err.err), pre, post, fin;
      }
      var req := EncodeInsert(ins, t, pre.1.docs, opts);
      res, post, fin := SendAndFinish(ctx, local, req, src, after, check, v, pre.1);
    }

    /**
     * `InsertOne`: a failing before phase returns its error and sends
     * nothing; otherwise the document is sent as the before phase left it;
     * a driver error is returned as it is; an after-phase error is returned
     * although the insert was sent; otherwise the driver's result.
     */
    method InsertOne(doc: Document?, opts: seq<Value>, src: Source)
      returns (res: Result<Value>, ghost pre: (Outcome, World), ghost post: (Outcome, World))
      modifies Targets(PtrTo(doc, t)), src, collection
      ensures var v := View(PtrTo(doc, t), Null, Null, Null, Options(opts), modelHook);
        var local := HookContext(PtrTo(doc, t), NilA, Options(opts), modelHook);
        && pre == Handled(Global(reg.Entries(BeforeInsert), v, World(old(Snap(Footprint(v))), old(src.issued), Null), reg.validator.validate),
                          beforeHooks, local)
        && (pre.0.Fail? ==> res == Failure(pre.0.err) && collection.sent == old(collection.sent) && Holds(src, pre.1))
        && (pre.0.Ok? ==>
              var req := InsertOneReq(Encoded(doc, pre.1.docs), opts);
              var ans := collection.written(old(collection.sent), req);
              && collection.sent == old(collection.sent) + [req]
              && (ans.Failure? ==> res == ans && Holds(src, pre.1))
              && (ans.Success? ==>
                    && post == Handled(Global(reg.Entries(AfterInsert), v, pre.1, reg.validator.validate), afterHooks, local)
                    && Holds(src, post.1)
                    && res == if post.0.Fail? then Failure(post.0.err) else ans))
    {
      var payload := PtrTo(doc, t);
      var local := HookContext(payload, NilA, Options(opts), modelHook);
      var v := View(payload, Null, Null, Null, Options(opts), modelHook);
      ghost var w := World(Snap(Footprint(v)), src.issued, Null);
      var ctx := new OpContext(v);
      ghost var before, after, check := reg.Entries(BeforeInsert), reg.Entries(AfterInsert), reg.validator.validate;
      ghost var fin;
      res, pre, post, fin := Perform(ctx, local, One(doc), opts, src, before, after, check, v, w);
    }

    /**
     * `InsertMany`: as InsertOne, on the slice of documents, each sent as
     * the before phase left it; the local hooks see the slice as `Docs`.
     */
    method InsertMany(docs: seq<Document?>, opts: seq<Value>, src: Source)
      returns (res: Result<Value>, ghost pre: (Outcome, World), ghost post: (Outcome, World))
      requires AllSafe(reg.Entries(BeforeInsert), List(Ptrs(docs, t)))
      requires AllSafe(reg.Entries(AfterInsert), List(Ptrs(docs, t)))
      modifies Targets(List(Ptrs(docs, t))), src, collection
      ensures var v := View(List(Ptrs(docs, t)), Null, Null, Null, Options(opts), modelHook);
        var local := HookContext(NilPtr(t.caps), List(Ptrs(docs, t)), Options(opts), modelHook);
        && pre == Handled(Global(reg.Entries(BeforeInsert), v, World(old(Snap(Footprint(v))), old(src.issued), Null), reg.validator.validate),
                          beforeHooks, local)
        && (pre.0.Fail? ==> res == Failure(pre.0.err) && collection.sent == old(collection.sent) && Holds(src, pre.1))
        && (pre.0.Ok? ==>
              var req := InsertManyReq(EncodedAll(docs, pre.1.docs), opts);
              var ans := collection.written(old(collection.sent), req);
              && collection.sent == old(collection.sent) + [req]
              && (ans.Failure? ==> res == ans && Holds(src, pre.1))
              && (ans.Success? ==>
                    && post == Handled(Global(reg.Entries(AfterInsert), v, pre.1, reg.validator.validate), afterHooks, local)
                    && Holds(src, post.1)
                    && res == if post.0.Fail? then Failure(post.0.err) else ans))
    {
      var payload := List(Ptrs(docs, t));
      var local := HookContext(NilPtr(t.caps), payload, Options(opts), modelHook);
      var v := View(payload, Null, Null, Null, Options(opts), modelHook);
      ghost var w := World(Snap(Footprint(v)), src.issued, Null);
      var ctx := new OpContext(v);
      ghost var before, after, check := reg.Entries(BeforeInsert), reg.Entries(AfterInsert), reg.validator.validate;
      ghost var fin;
      res, pre, post, fin := Perform(ctx, local, Many(docs), opts, src, before, after, check, v, w);
    }
  }
}
