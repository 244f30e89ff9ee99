/**
 * The delete wrapper (deleter/deleter.go): `DeleteOne` and `DeleteMany`
 * run the before-delete phase and the before hooks, send the delete, then
 * run the after-delete phase and the after hooks. The global operation
 * context carries the filter, the options and the model hook, but no
 * document and no update expression.
 */
module Deleter {
  import opened Common
  import opened Values
  import opened Operation
  import opened Callback
  import opened Hooks
  import opened Remote
  import Validator

  /** The context the local hooks see (deleter/types.go), without the collection handle. */
  datatype DeleterContext = DeleterContext(filter: Value, mongoOptions: Value, modelHook: Value)

  type Hook = DeleterContext -> Outcome

  /** The two operations. */
  datatype Kind = DeleteOneOp | DeleteManyOp

  /** The request sent: DeleteOne or DeleteMany, with the filter and the options as given. */
  function DeleteRequest(k: Kind, filter: Value, opts: seq<Value>): (r: Request)
    ensures k.DeleteOneOp? ==> r == DeleteOneReq(filter, opts)
    ensures k.DeleteManyOp? ==> r == DeleteManyReq(filter, opts)
  {
    if k.DeleteOneOp? then DeleteOneReq(filter, opts) else DeleteManyReq(filter, opts)
  }

  /** The global context of a delete: no document, no update expression, no replacement. */
  function DeleteView(filter: Value, opts: seq<Value>, modelHook: Value): (v: View)
    ensures v.doc == Null && v.updates == Null && v.replacement == Null && Footprint(v) == {}
  {
    View(Null, filter, Null, Null, Options(opts), modelHook)
  }

  class Deleter {
    /** The element type `T`. */
    const t: DocType
    const collection: Collection
    /** The process-wide callback registry. */
    const reg: Registry
    var filter: Value
    var modelHook: Value
    var beforeHooks: seq<Hook>
    var afterHooks: seq<Hook>

    /** `NewDeleter`: a nil filter, no model hook, no hooks. */
    constructor (t: DocType, collection: Collection, reg: Registry)
      ensures this.t == t && this.collection == collection && this.reg == reg
      ensures filter == Null && modelHook == Null && beforeHooks == [] && afterHooks == []
    {
      this.t, this.collection, this.reg := t, collection, reg;
      filter, modelHook := Null, Null;
      beforeHooks, afterHooks := [], [];
    }

    /** The deleter's settings and hooks. */
    function Settings(): (Value, Value, seq<Hook>, seq<Hook>)
      reads this
    {
      (filter, modelHook, beforeHooks, afterHooks)
    }

    /** `RegisterBeforeHooks`: appends, keeping the earlier hooks first. */
    method RegisterBeforeHooks(hooks: seq<Hook>) returns (self: Deleter)
      modifies this
      ensures self == this && Settings() == old(Settings()).(2 := old(beforeHooks) + hooks)
    {
      beforeHooks := beforeHooks + hooks;
      self := this;
    }

    /** `RegisterAfterHooks`: appends, keeping the earlier hooks first. */
    method RegisterAfterHooks(hooks: seq<Hook>) returns (self: Deleter)
      modifies this
      ensures self == this && Settings() == old(Settings()).(3 := old(afterHooks) + hooks)
    {
      afterHooks := afterHooks + hooks;
      self := this;
    }

    /** `Filter`: overwrites the filter only. */
    method Filter(f: Value) returns (self: Deleter)
      modifies this
      ensures self == this && Settings() == old(Settings()).(0 := f)
    {
      filter := f;
      self := this;
    }

    /** `ModelHook`: overwrites the model hook only. */
    method ModelHook(h: Value) returns (self: Deleter)
      modifies this
      ensures self == this && Settings() == old(Settings()).(1 := h)
    {
      modelHook := h;
      self := this;
    }

    /** `preActionHandler`: the global callbacks of `p`, then the before hooks. */
    method PreActionHandler(ctx: OpContext, c: DeleterContext, p: OpType, src: Source,
                            ghost es: seq<Entry>, ghost check: Validator.Checker, ghost v: View, ghost w: World)
      returns (err: Outcome, ghost r: (Outcome, World))
      requires es == reg.Entries(p) && check == reg.validator.validate
      requires ctx.Snapshot() == v.(updates := ctx.updates) && v.doc == Null && w.docs.Keys == Footprint(v)
      requires Reflects(ctx, src, w)
      modifies src, ctx
      ensures ctx.Snapshot() == v.(updates := ctx.updates)
      ensures r == Handled(Global(es, v, w, check), beforeHooks, c)
      ensures err == r.0 && Reflects(ctx, src, r.1)
    {
      r := Handled(Global(es, v, w, check), beforeHooks, c);
      err := ExecutePhase(reg, ctx, p, src, es, check, v, w);
      if err.Fail? {
        return;
      }
      ghost var ran;
      err, ran := RunLocal(beforeHooks, c);
    }

    /** `postActionHandler`: the global callbacks of `p`, then the after hooks. */
    method PostActionHandler(ctx: OpContext, c: DeleterContext, p: OpType, src: Source,
                            ghost es: seq<Entry>, ghost check: Validator.Checker, ghost v: View, ghost w: World)
      returns (err: Outcome, ghost r: (Outcome, World))
      requires es == reg.Entries(p) && check == reg.validator.validate
      requires ctx.Snapshot() == v.(updates := ctx.updates) && v.doc == Null && w.docs.Keys == Footprint(v)
      requires Reflects(ctx, src, w)
      modifies src, ctx
      ensures ctx.Snapshot() == v.(updates := ctx.updates)
      ensures r == Handled(Global(es, v, w, check), afterHooks, c)
      ensures err == r.0 && Reflects(ctx, src, r.1)
    {
      r := Handled(Global(es, v, w, check), afterHooks, c);
      err := ExecutePhase(reg, ctx, p, src, es, check, v, w);
      if err.Fail? {
        return;
      }
      ghost var ran;
      err, ran := RunLocal(afterHooks, c);
    }

    /** The context of the local hooks, as the deleter's settings give it. */
    function LocalOf(opts: seq<Value>): DeleterContext
      reads this
    {
      DeleterContext(filter, Options(opts), modelHook)
    }

    /**
     * The rest of a delete once the before handler passed, from world `w`:
     * send the request; a driver error is the result; otherwise the
     * after-delete handler runs, and its error, if any, replaces the
     * driver's result.
     */
    method SendAndFinish(k: Kind, ctx: OpContext, opts: seq<Value>, src: Source,
                         ghost after: seq<Entry>, ghost check: Validator.Checker, ghost v: View, ghost w: World)
      returns (res: Result<Value>, ghost post: (Outcome, World), ghost fin: World)
      requires after == reg.Entries(AfterDelete) && check == reg.validator.validate
      requires ctx.Snapshot() == v.(updates := ctx.updates) && v.doc == Null && w.docs.Keys == Footprint(v)
      requires Reflects(ctx, src, w)
      modifies src, ctx, collection
      ensures var req := DeleteRequest(k, filter, opts);
        var ans := collection.written(old(collection.sent), req);
        && collection.sent == old(collection.sent) + [req]
        && (ans.Failure? ==> res == ans && fin == w)
        && (ans.Success? ==>
              && post == Handled(Global(after, v, w, check), afterHooks, LocalOf(opts))
              && fin == post.1
              && res == if post.0.Fail? then Failure(post.0.err) else ans)
      ensures Holds(src, fin)
    {
      post, fin := (Ok, w), w;
      res := collection.Write(DeleteRequest(k, filter, opts));
      if res.Failure? {
        return;
      }
      var err;
      err, post := PostActionHandler(ctx, LocalOf(opts), AfterDelete, src, after, check, v, w);
      fin := post.1;
      if err.Fail? {
        res := Failure(err.err);
      }
    }

    /**
     * `DeleteOne` and `DeleteMany`: the before-delete handler; on its error
     * nothing is sent; otherwise the delete goes out with the filter and the
     * options as given, and the after-delete handler runs on the world the
     * before phase left.
     */
    method Delete(k: Kind, opts: seq<Value>, src: Source)
      returns (res: Result<Value>, ghost pre: (Outcome, World), ghost post: (Outcome, World), ghost fin: World)
      modifies src, collection
      ensures var v := DeleteView(filter, opts, modelHook);
        && pre == Handled(Global(reg.Entries(BeforeDelete), v, World(map[], old(src.issued), Null), reg.validator.validate),
                          beforeHooks, LocalOf(opts))
        && (pre.0.Fail? ==> res == Failure(pre.0.err) && collection.sent == old(collection.sent) && fin == pre.1)
        && (pre.0.Ok? ==>
              var req := DeleteRequest(k, filter, opts);
              var ans := collection.written(old(collection.sent), req);
              && collection.sent == old(collection.sent) + [req]
              && (ans.Failure? ==> res == ans && fin == pre.1)
              && (ans.Success? ==>
                    && post == Handled(Global(reg.Entries(AfterDelete), v, pre.1, reg.validator.validate), afterHooks, LocalOf(opts))
                    && fin == post.1
                    && res == if post.0.Fail? then Failure(post.0.err) else ans))
      ensures Holds(src, fin)
    {
      var v := DeleteView(filter, opts, modelHook);
      ghost var w := World(map[], src.issued, Null);
      var ctx := new OpContext(v);
      ghost var before, after, check := reg.Entries(BeforeDelete), reg.Entries(AfterDelete), reg.validator.validate;
      var err;
      err, pre := PreActionHandler(ctx, LocalOf(opts), BeforeDelete, src, before, check, v, w);
      post, fin := pre, pre.1;
      if err.Fail? {
        return Failure(err.err), pre, post, fin;
      }
      res, post, fin := SendAndFinish(k, ctx, opts, src, after, check, v, pre.1);
    }

    /** `DeleteOne`: before-delete, DeleteOne, after-delete, as Delete says. */
    method DeleteOne(opts: seq<Value>, src: Source)
      returns (res: Result<Value>, ghost pre: (Outcome, World), ghost post: (Outcome, World), ghost fin: World)
      modifies src, collection
      ensures var v := View(Null, filter, Null, Null, Options(opts), modelHook);
        && pre == Handled(Global(reg.Entries(BeforeDelete), v, World(map[], old(src.issued), Null), reg.validator.validate),
                          beforeHooks, DeleterContext(filter, Options(opts), modelHook))
        && (pre.0.Fail? ==> res == Failure(pre.0.err) && collection.sent == old(collection.sent) && fin == pre.1)
        && (pre.0.Ok? ==>
              var req := DeleteOneReq(filter, opts);
              var ans := collection.written(old(collection.sent), req);
              && collection.sent == old(collection.sent) + [req]
              && (ans.Failure? ==> res == ans && fin == pre.1)
              && (ans.Success? ==>
                    && post == Handled(Global(reg.Entries(AfterDelete), v, pre.1, reg.validator.validate), afterHooks,
                                       DeleterContext(filter, Options(opts), modelHook))
                    && fin == post.1
                    && res == if post.0.Fail? then Failure(post.0.err) else ans))
      ensures Holds(src, fin)
    {
      res, pre, post, fin := Delete(DeleteOneOp, opts, src);
    }

    /** `DeleteMany`: before-delete, DeleteMany, after-delete, as Delete says. */
    method DeleteMany(opts: seq<Value>, src: Source)
      returns (res: Result<Value>, ghost pre: (Outcome, World), ghost post: (Outcome, World), ghost fin: World)
      modifies src, collection
      ensures var v := View(Null, filter, Null, Null, Options(opts), modelHook);
        && pre == Handled(Global(reg.Entries(BeforeDelete), v, World(map[], old(src.issued), Null), reg.validator.validate),
                          beforeHooks, DeleterContext(filter, Options(opts), modelHook))
        && (pre.0.Fail? ==> res == Failure(pre.0.err) && collection.sent == old(collection.sent) && fin == pre.1)
        && (pre.0.Ok? ==>
              var req := DeleteManyReq(filter, opts);
              var ans := collection.written(old(collection.sent), req);
              && collection.sent == old(collection.sent) + [req]
              && (ans.Failure? ==> res == ans && fin == pre.1)
              && (ans.Success? ==>
                    && post == Handled(Global(reg.Entries(AfterDelete), v, pre.1, reg.validator.validate), afterHooks,
                                       DeleterContext(filter, Options(opts), modelHook))
                    && fin == post.1
                    && res == if post.0.Fail? then Failure(post.0.err) else ans))
      ensures Holds(src, fin)
    {
      res, pre, post, fin := Delete(DeleteManyOp, opts, src);
    }
  }
}
