/**
 * The update wrapper (updater/updater.go): `UpdateOne`, `UpdateMany` and
 * `Upsert` normalise the update expression, run the before phase and the
 * before hooks, send the update, then run the after phase and the after
 * hooks, on one global operation context whose `Doc` is a fresh zero `T`.
 */
module Updater {
  import opened Common
  import opened Values
  import opened Operation
  import opened Callback
  import opened Hooks
  import opened Remote
  import Bsonx
  import Validator

  /** The condition context the local hooks see (updater/types.go), without the collection handle. */
  datatype CondContext = CondContext(filter: Value, updates: Value, replacement: Value, mongoOptions: Value, modelHook: Value)

  type Hook = CondContext -> Outcome

  /**
   * The update expression after `ToBsonM`: replaced by its bson.M form when
   * that form has entries, kept as it is otherwise.
   */
  function Normalised(u: Value, codec: Doc -> Option<map<string, Value>>): Value
  {
    var m := Bsonx.ToBsonM(u, codec);
    if m.Some? && |m.value| != 0 then M(m.value) else u
  }

  /**
   * Normalising keeps a bson.M as it is and turns a non-empty Go map (or a
   * pointer to one) into the bson.M of the same entries; a value whose
   * conversion is empty or nil is kept; any result is a bson.M or the value
   * itself; and normalising twice is normalising once.
   */
  lemma NormalisedProperties(u: Value, codec: Doc -> Option<map<string, Value>>)
    ensures u.M? ==> Normalised(u, codec) == u
    ensures (u.GoMap? || u.GoMapPtr?) && |u.fields| != 0 ==> Normalised(u, codec) == M(u.fields)
    ensures (u.GoMap? || u.GoMapPtr?) && |u.fields| == 0 ==> Normalised(u, codec) == u
    ensures u.D? ==> Normalised(u, codec) == if codec(u.elems).Some? && |codec(u.elems).value| != 0 then M(codec(u.elems).value) else u
    ensures !(u.M? || u.D? || u.GoMap? || u.GoMapPtr?) ==> Normalised(u, codec) == u
    ensures Normalised(u, codec).M? || Normalised(u, codec) == u
    ensures Normalised(Normalised(u, codec), codec) == Normalised(u, codec)
  {
  }

  /** A handler, given what its global phase returned and left; a bson.M update expression is shared with the local context. */
  function Handler(global: (Outcome, World), hooks: seq<Hook>, c: CondContext): (r: (Outcome, World))
  {
    Handled(global, hooks, c.(updates := SharedUpdates(c.updates, global.1.updates)))
  }

  /** The three operations. */
  datatype Kind = UpdateOneOp | UpdateManyOp | UpsertOp

  /** The phase of the before handler: before-upsert for Upsert, before-update otherwise. */
  function BeforePhase(k: Kind): (p: OpType)
    ensures p == if k.UpsertOp? then BeforeUpsert else BeforeUpdate
  {
    if k.UpsertOp? then BeforeUpsert else BeforeUpdate
  }

  /** The phase of the after handler: after-upsert for Upsert, after-update otherwise. */
  function AfterPhase(k: Kind): (p: OpType)
    ensures p == if k.UpsertOp? then AfterUpsert else AfterUpdate
  {
    if k.UpsertOp? then AfterUpsert else AfterUpdate
  }

  /** The request sent: UpdateMany for UpdateMany, UpdateOne for UpdateOne and Upsert. */
  function UpdateRequest(k: Kind, filter: Value, updates: Value, opts: seq<Value>): (r: Request)
    ensures k.UpdateManyOp? ==> r == UpdateManyReq(filter, updates, opts)
    ensures !k.UpdateManyOp? ==> r == UpdateOneReq(filter, updates, opts)
  {
    if k.UpdateManyOp? then UpdateManyReq(filter, updates, opts) else UpdateOneReq(filter, updates, opts)
  }

  /** The options of Upsert: exactly one, forcing upsert, when none were given. */
  function UpsertOptions(opts: seq<Value>): (r: seq<Value>)
    ensures opts == [] ==> r == [UpsertTrue]
    ensures opts != [] ==> r == opts
    ensures |r| > 0
  {
    if opts == [] then [UpsertTrue] else opts
  }

  /** The options an operation passes on: Upsert's, or the caller's. */
  function OptionsOf(k: Kind, opts: seq<Value>): (r: seq<Value>)
  {
    if k.UpsertOp? then UpsertOptions(opts) else opts
  }

  /** The updater's settings: filter, update expression, replacement, model hook, before hooks, after hooks. */
  type Config = (Value, Value, Value, Value, seq<Hook>, seq<Hook>)

  /**
   * What one update did, run with settings `s` and options `opts` on the
   * zero document `doc`, the entries `before` and `after`, the validation
   * function `check` and the driver's replies `written`, from world `w` and
   * the requests `sent0`: the before handler's result is `pre`; when it
   * fails, that error is the result and nothing is sent; otherwise exactly
   * the update request goes out with the update expression the before phase
   * left in a bson.M; a driver error is the result and nothing more runs;
   * otherwise the after handler runs on the world the before phase left,
   * and its error, if any, replaces the driver's reply.
   */
  ghost predicate Updated(k: Kind, opts: seq<Value>, s: Config, before: seq<Entry>, after: seq<Entry>, check: Validator.Checker,
                          written: (seq<Request>, Request) -> Result<Value>, w: World, sent0: seq<Request>, sent: seq<Request>,
                          doc: Document, res: Result<Value>, pre: (Outcome, World), post: (Outcome, World), fin: World)
    requires w.docs.Keys == {doc}
  {
    var v := View(Ptr(doc), s.0, s.1, Null, Options(opts), s.3);
    var local := CondContext(s.0, s.1, Null, Options(opts), s.3);
    && pre == Handler(Global(before, v, w, check), s.4, local)
    && (pre.0.Fail? ==> res == Failure(pre.0.err) && sent == sent0 && fin == pre.1)
    && (pre.0.Ok? ==>
          var req := UpdateRequest(k, s.0, SharedUpdates(s.1, pre.1.updates), opts);
          var ans := written(sent0, req);
          && sent == sent0 + [req]
          && (ans.Failure? ==> res == ans && fin == pre.1)
          && (ans.Success? ==>
                && post == Handler(Global(after, v, pre.1, check), s.5, local)
                && fin == post.1
                && res == if post.0.Fail? then Failure(post.0.err) else ans))
  }

  class Updater {
    /** The element type `T`. */
    const t: DocType
    const collection: Collection
    /** The process-wide callback registry. */
    const reg: Registry
    var filter: Value
    var updates: Value
    var replacement: Value
    var modelHook: Value
    var beforeHooks: seq<Hook>
    var afterHooks: seq<Hook>

    /** `NewUpdater`: a nil filter, nothing else set, no hooks. */
    constructor (t: DocType, collection: Collection, reg: Registry)
      ensures this.t == t && this.collection == collection && this.reg == reg
      ensures filter == Null && updates == Null && replacement == Null && modelHook == Null
      ensures beforeHooks == [] && afterHooks == []
    {
      this.t, this.collection, this.reg := t, collection, reg;
      filter, updates, replacement, modelHook := Null, Null, Null, Null;
      beforeHooks, afterHooks := [], [];
    }

    /** The updater's settings and hooks. */
    function Settings(): Config
      reads this
    {
      (filter, updates, replacement, modelHook, beforeHooks, afterHooks)
    }

    /** `Filter`: overwrites the filter only. */
    method Filter(f: Value) returns (self: Updater)
      modifies this
      ensures self == this && Settings() == old(Settings()).(0 := f)
    {
      filter := f;
      self := this;
    }

    /** `Updates`: overwrites the update expression only. */
    method Updates(u: Value) returns (self: Updater)
      modifies this
      ensures self == this && Settings() == old(Settings()).(1 := u)
    {
      updates := u;
      self := this;
    }

    /** `Replacement`: overwrites the replacement only. */
    method Replacement(r: Value) returns (self: Updater)
      modifies this
      ensures self == this && Settings() == old(Settings()).(2 := r)
    {
      replacement := r;
      self := this;
    }

    /** `ModelHook`: overwrites the model hook only. */
    method ModelHook(h: Value) returns (self: Updater)
      modifies this
      ensures self == this && Settings() == old(Settings()).(3 := h)
    {
      modelHook := h;
      self := this;
    }

    /** `RegisterBeforeHooks`: appends, keeping the earlier hooks first. */
    method RegisterBeforeHooks(hooks: seq<Hook>) returns (self: Updater)
      modifies this
      ensures self == this && Settings() == old(Settings()).(4 := old(beforeHooks) + hooks)
    {
      beforeHooks := beforeHooks + hooks;
      self := this;
    }

    /** `RegisterAfterHooks`: appends, keeping the earlier hooks first. */
    method RegisterAfterHooks(hooks: seq<Hook>) returns (self: Updater)
      modifies this
      ensures self == this && Settings() == old(Settings()).(5 := old(afterHooks) + hooks)
    {
      afterHooks := afterHooks + hooks;
      self := this;
    }

    /** `updates := bsonx.ToBsonM(u.updates); if len(updates) != 0 { u.updates = updates }`. */
    method Normalise()
      modifies this
      ensures Settings() == old(Settings()).(1 := Normalised(old(updates), collection.codec))
    {
      var m := Bsonx.ToBsonM(updates, collection.codec);
      if m.Some? && |m.value| != 0 {
        updates := M(m.value);
      }
    }

    /** `preActionHandler`: the global callbacks of `p` (the entries `es`, checked by `check`), then the before hooks. */
    method PreActionHandler(ctx: OpContext, c: CondContext, p: OpType, src: Source, ghost es: seq<Entry>, ghost check: Validator.Checker, ghost v: View, ghost w: World)
      returns (err: Outcome, ghost r: (Outcome, World))
      requires es == reg.Entries(p) && check == reg.validator.validate
      requires ctx.Snapshot() == v.(updates := ctx.updates) && w.docs.Keys == Footprint(v)
      requires Reflects(ctx, src, w) && AllSafe(es, v.doc)
      modifies Targets(ctx.doc), src, ctx
      ensures ctx.Snapshot() == v.(updates := ctx.updates)
      ensures r == Handler(Global(es, v, w, check), beforeHooks, c)
      ensures err == r.0 && Reflects(ctx, src, r.1)
    {
      r := Handler(Global(es, v, w, check), beforeHooks, c);
      err := ExecutePhase(reg, ctx, p, src, es, check, v, w);
      if err.Fail? {
        return;
      }
      var local := c.(updates := SharedUpdates(c.updates, ctx.updates));
      ghost var ran;
      err, ran := RunLocal(beforeHooks, local);
    }

    /** `postActionHandler`: the global callbacks of `p` (the entries `es`, checked by `check`), then the after hooks. */
    method PostActionHandler(ctx: OpContext, c: CondContext, p: OpType, src: Source, ghost es: seq<Entry>, ghost check: Validator.Checker, ghost v: View, ghost w: World)
      returns (err: Outcome, ghost r: (Outcome, World))
      requires es == reg.Entries(p) && check == reg.validator.validate
      requires ctx.Snapshot() == v.(updates := ctx.updates) && w.docs.Keys == Footprint(v)
      requires Reflects(ctx, src, w) && AllSafe(es, v.doc)
      modifies Targets(ctx.doc), src, ctx
      ensures ctx.Snapshot() == v.(updates := ctx.updates)
      ensures r == Handler(Global(es, v, w, check), afterHooks, c)
      ensures err == r.0 && Reflects(ctx, src, r.1)
    {
      r := Handler(Global(es, v, w, check), afterHooks, c);
      err := ExecutePhase(reg, ctx, p, src, es, check, v, w);
      if err.Fail? {
        return;
      }
      var local := c.(updates := SharedUpdates(c.updates, ctx.updates));
      ghost var ran;
      err, ran := RunLocal(afterHooks, local);
    }

    /** The condition context of the local hooks, as the updater's settings give it. */
    function LocalOf(opts: seq<Value>): CondContext
      reads this
    {
      CondContext(filter, updates, Null, Options(opts), modelHook)
    }

    /**
     * The rest of an update once the before handler passed, from world `w`:
     * send `req`; a driver error is the result; otherwise the after handler
     * runs on the entries `after`, and its error, if any, replaces the
     * driver's result.
     */
    method SendAndFinish(k: Kind, ctx: OpContext, req: Request, opts: seq<Value>, src: Source,
                         ghost after: seq<Entry>, ghost check: Validator.Checker, ghost v: View, ghost w: World)
      returns (res: Result<Value>, ghost post: (Outcome, World), ghost fin: World)
      requires after == reg.Entries(AfterPhase(k)) && check == reg.validator.validate
      requires ctx.Snapshot() == v.(updates := ctx.updates) && w.docs.Keys == Footprint(v)
      requires Reflects(ctx, src, w) && AllSafe(after, v.doc)
      modifies Targets(ctx.doc), src, ctx, collection
      ensures collection.sent == old(collection.sent) + [req]
      ensures var ans := collection.written(old(collection.sent), req);
        && (ans.Failure? ==> res == ans && fin == w)
        && (ans.Success? ==>
              && post == Handler(Global(after, v, w, check), afterHooks, LocalOf(opts))
              && fin == post.1
              && res == if post.0.Fail? then Failure(post.0.err) else ans)
      ensures Holds(src, fin) && ctx.updates == fin.updates
    {
      post, fin := (Ok, w), w;
      res := collection.Write(req);
      if res.Failure? {
        return;
      }
      var err;
      err, post := PostActionHandler(ctx, LocalOf(opts), AfterPhase(k), src, after, check, v, w);
      fin := post.1;
      if err.Fail? {
        res := Failure(err.err);
      }
    }

    /**
     * An update on a fresh context holding the zero document `doc` and world
     * `w`: the before handler on the entries `before`; on its error nothing
     * is sent; otherwise the update goes out with the update expression as
     * the before phase left it, and the after handler runs on `after`.
     */
    method Perform(k: Kind, ctx: OpContext, doc: Document, opts: seq<Value>, src: Source,
                   ghost before: seq<Entry>, ghost after: seq<Entry>, ghost check: Validator.Checker, ghost v: View, ghost w: World)
      returns (res: Result<Value>, ghost pre: (Outcome, World), ghost post: (Outcome, World), ghost fin: World)
      requires before == reg.Entries(BeforePhase(k)) && after == reg.Entries(AfterPhase(k)) && check == reg.validator.validate
      requires ctx.Snapshot() == v.(updates := ctx.updates) && v == View(Ptr(doc), filter, updates, Null, Options(opts), modelHook) && w.docs.Keys == {doc}
      requires Reflects(ctx, src, w)
      modifies doc, src, ctx, collection
      ensures Updated(k, opts, Settings(), before, after, check, collection.written, w, old(collection.sent), collection.sent, doc, res, pre, post, fin)
      ensures Holds(src, fin) && ctx.updates == fin.updates
    {
      var err;
      err, pre := PreActionHandler(ctx, LocalOf(opts), BeforePhase(k), src, before, check, v, w);
      post, fin := pre, pre.1;
      if err.Fail? {
        return Failure(err.err), pre, post, fin;
      }
      var req := UpdateRequest(k, filter, SharedUpdates(updates, ctx.updates), opts);
      res, post, fin := SendAndFinish(k, ctx, req, opts, src, after, check, v, pre.1);
    }

    /**
     * The operation once the update expression is normalised: a fresh zero
     * `T` is the context's `Doc`, and the update expression is written back
     * as the context ends with it when it is a bson.M, which the contexts share.
     */
    method Operate(k: Kind, opts: seq<Value>, src: Source, ghost before: seq<Entry>, ghost after: seq<Entry>, ghost check: Validator.Checker)
      returns (res: Result<Value>, ghost doc: Document, ghost pre: (Outcome, World), ghost post: (Outcome, World), ghost fin: World)
      requires before == reg.Entries(BeforePhase(k)) && after == reg.Entries(AfterPhase(k)) && check == reg.validator.validate
      modifies this, src, collection
      ensures fresh(doc) && doc.t == t
      ensures Settings() == old(Settings()).(1 := SharedUpdates(old(updates), fin.updates)) && Holds(src, fin)
      ensures Updated(k, opts, old(Settings()), before, after, check, collection.written, World(map[doc := ZeroFields], old(src.issued), old(updates)),
                      old(collection.sent), collection.sent,
                      doc, res, pre, post, fin)
    {
      var f, u, h := filter, updates, modelHook;
      var d := new Document.New(t);
      doc := d;
      var v := View(Ptr(d), f, u, Null, Options(opts), h);
      var ctx := new OpContext(v);
      res, pre, post, fin := Perform(k, ctx, d, opts, src, before, after, check, v, World(map[d := ZeroFields], old(src.issued), u));
      updates := SharedUpdates(u, ctx.updates);
    }

    /**
     * `UpdateOne`, `UpdateMany` and `Upsert`: normalise the update
     * expression, run the operation with its phases and request, and keep
     * the update expression as the callbacks left it when it is a bson.M,
     * which the contexts share. Upsert without options passes exactly one,
     * forcing upsert. `n` is the normalised update expression.
     */
    method Update(k: Kind, opts: seq<Value>, src: Source)
      returns (res: Result<Value>, ghost doc: Document, ghost pre: (Outcome, World), ghost post: (Outcome, World), ghost fin: World)
      modifies this, src, collection
      ensures fresh(doc) && doc.t == t
      ensures var n := Normalised(old(updates), collection.codec);
        && Settings() == old(Settings()).(1 := SharedUpdates(n, fin.updates)) && Holds(src, fin)
        && Updated(k, OptionsOf(k, opts), old(Settings()).(1 := n), reg.Entries(BeforePhase(k)), reg.Entries(AfterPhase(k)), reg.validator.validate,
                   collection.written, World(map[doc := ZeroFields], old(src.issued), n), old(collection.sent), collection.sent, doc, res, pre, post, fin)
    {
      ghost var before, after, check := reg.Entries(BeforePhase(k)), reg.Entries(AfterPhase(k)), reg.validator.validate;
      Normalise();
      res, doc, pre, post, fin := Operate(k, OptionsOf(k, opts), src, before, after, check);
    }

    /** `UpdateOne`: before-update, UpdateOne, after-update, as Update says. */
    method UpdateOne(opts: seq<Value>, src: Source)
      returns (res: Result<Value>, ghost doc: Document, ghost pre: (Outcome, World), ghost post: (Outcome, World), ghost fin: World)
      modifies this, src, collection
      ensures fresh(doc) && doc.t == t
      ensures var n := Normalised(old(updates), collection.codec);
        && Settings() == old(Settings()).(1 := SharedUpdates(n, fin.updates)) && Holds(src, fin)
        && var v := View(Ptr(doc), old(filter), n, Null, Options(opts), old(modelHook));
        var local := CondContext(old(filter), n, Null, Options(opts), old(modelHook));
        && pre == Handler(Global(reg.Entries(BeforeUpdate), v, World(map[doc := ZeroFields], old(src.issued), n), reg.validator.validate),
                          old(beforeHooks), local)
        && (pre.0.Fail? ==> res == Failure(pre.0.err) && collection.sent == old(collection.sent) && fin == pre.1)
        && (pre.0.Ok? ==>
              var req := UpdateOneReq(old(filter), SharedUpdates(n, pre.1.updates), opts);
              var ans := collection.written(old(collection.sent), req);
              && collection.sent == old(collection.sent) + [req]
              && (ans.Failure? ==> res == ans && fin == pre.1)
              && (ans.Success? ==>
                    && post == Handler(Global(reg.Entries(AfterUpdate), v, pre.1, reg.validator.validate), old(afterHooks), local)
                    && fin == post.1
                    && res == if post.0.Fail? then Failure(post.0.err) else ans))
    {
      res, doc, pre, post, fin := Update(UpdateOneOp, opts, src);
    }

    /** `UpdateMany`: before-update, UpdateMany, after-update, as Update says. */
    method UpdateMany(opts: seq<Value>, src: Source)
      returns (res: Result<Value>, ghost doc: Document, ghost pre: (Outcome, World), ghost post: (Outcome, World), ghost fin: World)
      modifies this, src, collection
      ensures fresh(doc) && doc.t == t
      ensures var n := Normalised(old(updates), collection.codec);
        && Settings() == old(Settings()).(1 := SharedUpdates(n, fin.updates)) && Holds(src, fin)
        && var v := View(Ptr(doc), old(filter), n, Null, Options(opts), old(modelHook));
        var local := CondContext(old(filter), n, Null, Options(opts), old(modelHook));
        && pre == Handler(Global(reg.Entries(BeforeUpdate), v, World(map[doc := ZeroFields], old(src.issued), n), reg.validator.validate),
                          old(beforeHooks), local)
        && (pre.0.Fail? ==> res == Failure(pre.0.err) && collection.sent == old(collection.sent) && fin == pre.1)
        && (pre.0.Ok? ==>
              var req := UpdateManyReq(old(filter), SharedUpdates(n, pre.1.updates), opts);
              var ans := collection.written(old(collection.sent), req);
              && collection.sent == old(collection.sent) + [req]
              && (ans.Failure? ==> res == ans && fin == pre.1)
              && (ans.Success? ==>
                    && post == Handler(Global(reg.Entries(AfterUpdate), v, pre.1, reg.validator.validate), old(afterHooks), local)
                    && fin == post.1
                    && res == if post.0.Fail? then Failure(post.0.err) else ans))
    {
      res, doc, pre, post, fin := Update(UpdateManyOp, opts, src);
    }

    /** `Upsert`: before-upsert, UpdateOne with upsert forced, after-upsert, as Update says. */
    method Upsert(opts: seq<Value>, src: Source)
      returns (res: Result<Value>, ghost doc: Document, ghost pre: (Outcome, World), ghost post: (Outcome, World), ghost fin: World)
      modifies this, src, collection
      ensures fresh(doc) && doc.t == t
      ensures var n := Normalised(old(updates), collection.codec);
        && Settings() == old(Settings()).(1 := SharedUpdates(n, fin.updates)) && Holds(src, fin)
        && var os := UpsertOptions(opts);
        var v := View(Ptr(doc), old(filter), n, Null, Options(os), old(modelHook));
        var local := CondContext(old(filter), n, Null, Options(os), old(modelHook));
        && pre == Handler(Global(reg.Entries(BeforeUpsert), v, World(map[doc := ZeroFields], old(src.issued), n), reg.validator.validate),
                          old(beforeHooks), local)
        && (pre.0.Fail? ==> res == Failure(pre.0.err) && collection.sent == old(collection.sent) && fin == pre.1)
        && (pre.0.Ok? ==>
              var req := UpdateOneReq(old(filter), SharedUpdates(n, pre.1.updates), os);
              var ans := collection.written(old(collection.sent), req);
              && collection.sent == old(collection.sent) + [req]
              && (ans.Failure? ==> res == ans && fin == pre.1)
              && (ans.Success? ==>
                    && post == Handler(Global(reg.Entries(AfterUpsert), v, pre.1, reg.validator.validate), old(afterHooks), local)
                    && fin == post.1
                    && res == if post.0.Fail? then Failure(post.0.err) else ans))
    {
      res, doc, pre, post, fin := Update(UpsertOp, opts, src);
    }
  }
}
