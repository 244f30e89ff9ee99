/**
 * The query wrapper (finder/finder.go): `FindOne`, `Find` and
 * `FindOneAndUpdate` run the global callbacks of one or two phases and the
 * finder's before hooks, query, then run the matching after phases and the
 * after hooks, on one global operation context shared by both handlers.
 */
module Finder {
  import opened Common
  import opened Values
  import opened Operation
  import opened Callback
  import opened Hooks
  import opened Remote
  import Field
  import Validator

  /** The local context of the before hooks (finder/types.go `OpContext`), without the collection handle. */
  datatype FinderContext = FinderContext(filter: Value, updates: Value, mongoOptions: Value, modelHook: Value)

  /** The local context of the after hooks (`AfterOpContext[T]`): `Doc` for the single-document finds, `Docs` for Find. */
  datatype AfterContext = AfterContext(base: FinderContext, doc: Value, docs: Value)

  type BeforeHook = FinderContext -> Outcome
  type AfterHook = AfterContext -> Outcome

  /**
   * A before handler, given what its global phases returned and left. The
   * local context was built from the same update expression as the global
   * one, so when that is a bson.M the hooks see what the callbacks wrote
   * into it.
   */
  function Before(global: (Outcome, World), hooks: seq<BeforeHook>, c: FinderContext): (r: (Outcome, World))
  {
    Handled(global, hooks, c.(updates := SharedUpdates(c.updates, global.1.updates)))
  }

  /** An after handler, as Before, with the after hooks on the after context. */
  function After(global: (Outcome, World), hooks: seq<AfterHook>, c: AfterContext): (r: (Outcome, World))
  {
    Handled(global, hooks, c.(base := c.base.(updates := SharedUpdates(c.base.updates, global.1.updates))))
  }

  /** The two single-document queries. */
  datatype SingleFind = PlainFind | AndUpdate

  /** The phases of the before handler: before-find, and then before-update for FindOneAndUpdate. */
  function BeforePhases(k: SingleFind): (r: seq<OpType>)
    ensures k.PlainFind? ==> r == [BeforeFind]
    ensures k.AndUpdate? ==> r == [BeforeFind, BeforeUpdate]
  {
    if k.PlainFind? then [BeforeFind] else [BeforeFind, BeforeUpdate]
  }

  /** The phases of the after handler: after-find, and then after-update for FindOneAndUpdate. */
  function AfterPhases(k: SingleFind): (r: seq<OpType>)
    ensures k.PlainFind? ==> r == [AfterFind]
    ensures k.AndUpdate? ==> r == [AfterFind, AfterUpdate]
  {
    if k.PlainFind? then [AfterFind] else [AfterFind, AfterUpdate]
  }

  /** The query sent: the filter, and for FindOneAndUpdate the update expression as it then is. */
  function SingleRequest(k: SingleFind, filter: Value, updates: Value, opts: seq<Value>): (r: Request)
    ensures k.PlainFind? ==> r == FindOneReq(filter, opts)
    ensures k.AndUpdate? ==> r == FindOneAndUpdateReq(filter, updates, opts)
  {
    if k.PlainFind? then FindOneReq(filter, opts) else FindOneAndUpdateReq(filter, updates, opts)
  }

  /** The world after `Decode(t)` filled document `d` with the fields found. */
  function Decoded(w: World, d: Document, f: Fields): (r: World)
    ensures r.docs == w.docs[d := f] && r.issued == w.issued && r.updates == w.updates
  {
    w.(docs := w.docs[d := f])
  }

  /** No callback panics on a slice of documents. */
  lemma ListingSafe(entries: map<OpType, seq<Entry>>, phases: seq<OpType>, ds: seq<Document>, t: DocType)
    ensures PhasesSafe(entries, phases, Listing(ds, t))
  {
    var list := Listing(ds, t);
    forall i | 0 <= i < |phases|
      ensures AllSafe(EntriesOf(entries, phases[i]), list)
    {
      assert forall p :: Field.SafePayload(p, list);
    }
  }

  /** Pairwise distinct documents. */
  predicate Distinct(ds: seq<Document>)
  {
    forall i, j :: 0 <= i < j < |ds| ==> ds[i] != ds[j]
  }

  /** The fields `cursor.All` decoded into the documents it allocated. */
  function Fetched(ds: seq<Document>, fs: seq<Fields>): (r: map<Document, Fields>)
    requires |ds| == |fs| && Distinct(ds)
    ensures r.Keys == set i | 0 <= i < |ds| :: ds[i]
    ensures forall i :: 0 <= i < |ds| ==> r[ds[i]] == fs[i]
  {
    map i | 0 <= i < |ds| :: ds[i] := fs[i]
  }

  /**
   * The `[]*T` of fetched documents: a slice of non-nil pointers, which
   * reaches exactly its documents and on which no callback can panic.
   */
  function Listing(ds: seq<Document>, t: DocType): (r: Value)
    ensures r == List(Ptrs(ds, t))
    ensures Targets(r) == set i | 0 <= i < |ds| :: ds[i]
    ensures forall p :: Field.SafePayload(p, r)
  {
    var r := Ptrs(ds, t);
    assert forall i :: 0 <= i < |ds| ==> r[i] == Ptr(ds[i]);
    List(r)
  }

  /** `cursor.All(ctx, &t)`: one new document per result, in order, holding its fields. */
  method Materialize(t: DocType, fs: seq<Fields>) returns (ds: seq<Document>)
    ensures |ds| == |fs| && Distinct(ds)
    ensures forall i :: 0 <= i < |ds| ==> fresh(ds[i]) && ds[i].t == t && ds[i].fields == fs[i]
  {
    ds := [];
    for i := 0 to |fs|
      invariant |ds| == i && Distinct(ds)
      invariant forall j :: 0 <= j < i ==> fresh(ds[j]) && ds[j].t == t && ds[j].fields == fs[j]
    {
      var d := new Document(t, fs[i]);
      ds := ds + [d];
    }
  }

  /** The finder's settings: filter, update expression, model hook, before hooks, after hooks. */
  type Config = (Value, Value, Value, seq<BeforeHook>, seq<AfterHook>)

  /**
   * The rest of a single-document query once the before handler passed,
   * from world `w`: exactly `req` is sent after the requests `sent0`; a
   * driver error (no document included) is the result and the world stays
   * `w`; otherwise `doc` holds the fields found, the after phases of `k`
   * and then `hooks` run on it, and their error replaces the document.
   */
  ghost predicate SingleFinished(k: SingleFind, req: Request, entries: map<OpType, seq<Entry>>, check: Validator.Checker,
                                 hooks: seq<AfterHook>, local: FinderContext, doc: Document, v: View, w: World,
                                 one: (seq<Request>, Request) -> Result<Fields>, sent0: seq<Request>, sent: seq<Request>,
                                 res: Result<Document>, post: (Outcome, World), fin: World)
    requires v.doc == Ptr(doc) && v.replacement == Null && w.docs.Keys == {doc}
  {
    var got := one(sent0, req);
    && sent == sent0 + [req]
    && (got.Failure? ==> res == Failure(got.err) && fin == w)
    && (got.Success? ==>
          && post == After(RunPhases(entries, AfterPhases(k), v, Decoded(w, doc, got.value), check), hooks, AfterContext(local, Ptr(doc), NilA))
          && fin == post.1
          && res == if post.0.Fail? then Failure(post.0.err) else Success(doc))
  }

  /**
   * A whole single-document query of kind `k` with settings `s` and options
   * `opts`, from world `w` and the requests `sent0`: the before phases of
   * `k` and the before hooks give `pre`; its error is the result and
   * nothing is sent; otherwise the query goes out with the update
   * expression as the before phases left it in a bson.M, and the rest is as
   * SingleFinished says.
   */
  ghost predicate SingleQuery(k: SingleFind, opts: seq<Value>, s: Config, entries: map<OpType, seq<Entry>>, check: Validator.Checker,
                              one: (seq<Request>, Request) -> Result<Fields>, doc: Document, v: View, w: World,
                              sent0: seq<Request>, sent: seq<Request>,
                              res: Result<Document>, pre: (Outcome, World), post: (Outcome, World), fin: World)
    requires v.doc == Ptr(doc) && v.replacement == Null && w.docs.Keys == {doc}
  {
    var local := FinderContext(s.0, if k.AndUpdate? then s.1 else Null, Options(opts), s.2);
    && pre == Before(RunPhases(entries, BeforePhases(k), v, w, check), s.3, local)
    && (pre.0.Fail? ==> res == Failure(pre.0.err) && sent == sent0 && fin == pre.1)
    && (pre.0.Ok? ==>
          SingleFinished(k, SingleRequest(k, s.0, SharedUpdates(s.1, pre.1.updates), opts), entries, check, s.4, local, doc, v, pre.1,
                         one, sent0, sent, res, post, fin))
  }

  /**
   * The after half of Find on the new documents `found`, decoded as
   * `fetched`: the context's `Doc` is the slice of them, and the after-find
   * phase and `hooks` run on it to give `post`.
   */
  ghost predicate AfterFindRan(entries: map<OpType, seq<Entry>>, check: Validator.Checker, hooks: seq<AfterHook>,
                               local: FinderContext, t: DocType, v: View, w: World,
                               found: seq<Document>, fetched: seq<Fields>, post: (Outcome, World))
    requires v.replacement == Null && |found| == |fetched| && Distinct(found)
  {
    var list, docs := Listing(found, t), Fetched(found, fetched);
    ListingSafe(entries, [AfterFind], found, t);
    post == After(RunPhases(entries, [AfterFind], v.(doc := list), World(docs, w.issued, w.updates), check),
                  hooks, AfterContext(local, NilPtr(t.caps), list))
  }

  /**
   * The rest of Find once the before handler passed, from world `w`:
   * exactly `req` is sent after `sent0`; a driver error is the result;
   * otherwise `found` are distinct new `T`s, one per result, the context's
   * `Doc` is the slice of them, and the after-find phase and `hooks` run on
   * it, their error replacing the documents.
   */
  ghost predicate FindFinished(req: Request, entries: map<OpType, seq<Entry>>, check: Validator.Checker, hooks: seq<AfterHook>,
                               local: FinderContext, t: DocType, v: View, w: World,
                               many: (seq<Request>, Request) -> Result<seq<Fields>>, sent0: seq<Request>, sent: seq<Request>,
                               res: Result<seq<Document>>, found: seq<Document>, post: (Outcome, World), fin: World)
    requires v.replacement == Null
  {
    var got := many(sent0, req);
    && sent == sent0 + [req]
    && (got.Failure? ==> res == Failure(got.err) && fin == w)
    && (got.Success? ==>
          && |found| == |got.value| && Distinct(found)
          && (forall i :: 0 <= i < |found| ==> found[i].t == t)
          && AfterFindRan(entries, check, hooks, local, t, v, w, found, got.value, post)
          && fin == post.1
          && res == if post.0.Fail? then Failure(post.0.err) else Success(found))
  }

  /**
   * A whole Find with settings `s` and options `opts`, from world `w`
   * (no document) and the requests `sent0`: the before-find phase and the
   * before hooks give `pre`; its error is the result and nothing is sent;
   * otherwise the rest is as FindFinished says.
   */
  ghost predicate FindQuery(opts: seq<Value>, s: Config, entries: map<OpType, seq<Entry>>, check: Validator.Checker, t: DocType,
                            many: (seq<Request>, Request) -> Result<seq<Fields>>, v: View, w: World,
                            sent0: seq<Request>, sent: seq<Request>,
                            res: Result<seq<Document>>, found: seq<Document>, pre: (Outcome, World), post: (Outcome, World), fin: World)
    requires v.doc == Null && v.replacement == Null && w.docs == map[]
  {
    var local := FinderContext(s.0, Null, Options(opts), s.2);
    && pre == Before(RunPhases(entries, [BeforeFind], v, w, check), s.3, local)
    && (pre.0.Fail? ==> res == Failure(pre.0.err) && sent == sent0 && fin == pre.1)
    && (pre.0.Ok? ==> FindFinished(FindReq(s.0, opts), entries, check, s.4, local, t, v, pre.1, many, sent0, sent, res, found, post, fin))
  }

  class Finder {
    /** The element type `T`. */
    const t: DocType
    const collection: Collection
    /** The process-wide callback registry. */
    const reg: Registry
    var filter: Value
    var updates: Value
    var modelHook: Value
    var beforeHooks: seq<BeforeHook>
    var afterHooks: seq<AfterHook>

    /** `NewFinder`: an empty filter document, no update expression, no model hook, no hooks. */
    constructor (t: DocType, collection: Collection, reg: Registry)
      ensures this.t == t && this.collection == collection && this.reg == reg
      ensures filter == D([]) && updates == Null && modelHook == Null
      ensures beforeHooks == [] && afterHooks == []
    {
      this.t, this.collection, this.reg := t, collection, reg;
      filter, updates, modelHook := D([]), Null, Null;
      beforeHooks, afterHooks := [], [];
    }

    /** The finder's settings and hooks. */
    function Settings(): Config
      reads this
    {
      (filter, updates, modelHook, beforeHooks, afterHooks)
    }

    /** `RegisterBeforeHooks`: appends, keeping the earlier hooks first. */
    method RegisterBeforeHooks(hooks: seq<BeforeHook>) returns (self: Finder)
      modifies this
      ensures self == this && Settings() == old(Settings()).(3 := old(beforeHooks) + hooks)
    {
      beforeHooks := beforeHooks + hooks;
      self := this;
    }

    /** `RegisterAfterHooks`: appends, keeping the earlier hooks first. */
    method RegisterAfterHooks(hooks: seq<AfterHook>) returns (self: Finder)
      modifies this
      ensures self == this && Settings() == old(Settings()).(4 := old(afterHooks) + hooks)
    {
      afterHooks := afterHooks + hooks;
      self := this;
    }

    /** `Filter`: overwrites the filter only. */
    method Filter(f: Value) returns (self: Finder)
      modifies this
      ensures self == this && Settings() == old(Settings()).(0 := f)
    {
      filter := f;
      self := this;
    }

    /** `Updates`: overwrites the update expression only. */
    method Updates(u: Value) returns (self: Finder)
      modifies this
      ensures self == this && Settings() == old(Settings()).(1 := u)
    {
      updates := u;
      self := this;
    }

    /** `ModelHook`: overwrites the model hook only. */
    method ModelHook(h: Value) returns (self: Finder)
      modifies this
      ensures self == this && Settings() == old(Settings()).(2 := h)
    {
      modelHook := h;
      self := this;
    }

    /** `preActionHandler`: the global callbacks of each phase in order, then the before hooks. */
    method PreActionHandler(ctx: OpContext, c: FinderContext, phases: seq<OpType>, src: Source,
        ghost entries: map<OpType, seq<Entry>>, ghost check: Validator.Checker, ghost v: View, ghost w: World)
      returns (err: Outcome, ghost r: (Outcome, World))
      requires entries == reg.entries && check == reg.validator.validate
      requires ctx.Snapshot() == v.(updates := ctx.updates) && w.docs.Keys == Footprint(v)
      requires Reflects(ctx, src, w) && PhasesSafe(entries, phases, v.doc)
      modifies Targets(ctx.doc), src, ctx
      ensures ctx.Snapshot() == v.(updates := ctx.updates)
      ensures r == Before(RunPhases(entries, phases, v, w, check), beforeHooks, c)
      ensures err == r.0 && Reflects(ctx, src, r.1)
    {
      r := Before(RunPhases(entries, phases, v, w, check), beforeHooks, c);
      err := ExecutePhases(reg, ctx, phases, src, entries, check, v, w);
      if err.Fail? {
        return;
      }
      var local := c.(updates := SharedUpdates(c.updates, ctx.updates));
      ghost var ran;
      err, ran := RunLocal(beforeHooks, local);
    }

    /** `postActionHandler`: the global callbacks of each phase in order, then the after hooks. */
    method PostActionHandler(ctx: OpContext, c: AfterContext, phases: seq<OpType>, src: Source,
        ghost entries: map<OpType, seq<Entry>>, ghost check: Validator.Checker, ghost v: View, ghost w: World)
      returns (err: Outcome, ghost r: (Outcome, World))
      requires entries == reg.entries && check == reg.validator.validate
      requires ctx.Snapshot() == v.(updates := ctx.updates) && w.docs.Keys == Footprint(v)
      requires Reflects(ctx, src, w) && PhasesSafe(entries, phases, v.doc)
      modifies Targets(ctx.doc), src, ctx
      ensures ctx.Snapshot() == v.(updates := ctx.updates)
      ensures r == After(RunPhases(entries, phases, v, w, check), afterHooks, c)
      ensures err == r.0 && Reflects(ctx, src, r.1)
    {
      r := After(RunPhases(entries, phases, v, w, check), afterHooks, c);
      err := ExecutePhases(reg, ctx, phases, src, entries, check, v, w);
      if err.Fail? {
        return;
      }
      var local := c.(base := c.base.(updates := SharedUpdates(c.base.updates, ctx.updates)));
      ghost var ran;
      err, ran := RunLocal(afterHooks, local);
    }

    /** The local context of a single-document query's hooks, as the finder's settings give it. */
    function LocalOf(k: SingleFind, opts: seq<Value>): FinderContext
      reads this
    {
      FinderContext(filter, if k.AndUpdate? then updates else Null, Options(opts), modelHook)
    }

    /**
     * The rest of a single-document query once the before handler passed,
     * from world `w`: the query is sent; a driver error (no document
     * included) is the result; otherwise the document is filled with what
     * was found and the after handler runs on it, its error replacing the
     * document.
     */
    method FinishSingle(k: SingleFind, ctx: OpContext, doc: Document, req: Request, opts: seq<Value>, src: Source,
        ghost entries: map<OpType, seq<Entry>>, ghost check: Validator.Checker, ghost v: View, ghost w: World)
      returns (res: Result<Document>, ghost post: (Outcome, World), ghost fin: World)
      requires entries == reg.entries && check == reg.validator.validate
      requires ctx.Snapshot() == v.(updates := ctx.updates) && v.doc == Ptr(doc) && v.replacement == Null && w.docs.Keys == {doc}
      requires Reflects(ctx, src, w)
      modifies doc, src, ctx, collection
      ensures SingleFinished(k, req, entries, check, afterHooks, LocalOf(k, opts), doc, v, w, collection.one,
                             old(collection.sent), collection.sent, res, post, fin)
      ensures Holds(src, fin) && ctx.updates == fin.updates
    {
      post, fin := (Ok, w), w;
      var got := collection.FetchOne(req);
      if got.Failure? {
        return Failure(got.err), post, fin;
      }
      doc.fields := got.value;
      var err;
      err, post := PostActionHandler(ctx, AfterContext(LocalOf(k, opts), Ptr(doc), NilA), AfterPhases(k), src, entries, check, v,
                                     Decoded(w, doc, got.value));
      fin := post.1;
      res := if err.Fail? then Failure(err.err) else Success(doc);
    }

    /**
     * A single-document query on a fresh context holding `doc` and world
     * `w`: the before handler; on its error nothing is sent; otherwise the
     * query goes out with the update expression as the before phase left it.
     */
    method PerformSingle(k: SingleFind, ctx: OpContext, doc: Document, opts: seq<Value>, src: Source,
        ghost entries: map<OpType, seq<Entry>>, ghost check: Validator.Checker, ghost v: View, ghost w: World)
      returns (res: Result<Document>, ghost pre: (Outcome, World), ghost post: (Outcome, World), ghost fin: World)
      requires entries == reg.entries && check == reg.validator.validate
      requires ctx.Snapshot() == v.(updates := ctx.updates) && v.doc == Ptr(doc) && v.replacement == Null && w.docs.Keys == {doc}
      requires Reflects(ctx, src, w)
      modifies doc, src, ctx, collection
      ensures SingleQuery(k, opts, Settings(), entries, check, collection.one, doc, v, w, old(collection.sent), collection.sent,
                          res, pre, post, fin)
      ensures Holds(src, fin) && ctx.updates == fin.updates
    {
      var err;
      err, pre := PreActionHandler(ctx, LocalOf(k, opts), BeforePhases(k), src, entries, check, v, w);
      post, fin := pre, pre.1;
      if err.Fail? {
        return Failure(err.err), pre, post, fin;
      }
      var req := SingleRequest(k, filter, SharedUpdates(updates, ctx.updates), opts);
      res, post, fin := FinishSingle(k, ctx, doc, req, opts, src, entries, check, v, pre.1);
    }

    /**
     * `FindOne`: a fresh zero document is the context's `Doc`; a failing
     * before phase returns its error and queries nothing; a driver error is
     * returned; an after-phase error is returned although the query ran;
     * otherwise the filled document.
     */
    method FindOne(opts: seq<Value>, src: Source)
      returns (res: Result<Document>, ghost doc: Document, ghost pre: (Outcome, World), ghost post: (Outcome, World))
      modifies src, collection
      ensures fresh(doc) && doc.t == t
      ensures var v := View(Ptr(doc), filter, Null, Null, Options(opts), modelHook);
        var local := FinderContext(filter, Null, Options(opts), modelHook);
        && pre == Before(RunPhases(reg.entries, [BeforeFind], v, World(map[doc := ZeroFields], old(src.issued), Null), reg.validator.validate),
                         beforeHooks, local)
        && (pre.0.Fail? ==> res == Failure(pre.0.err) && collection.sent == old(collection.sent) && Holds(src, pre.1))
        && (pre.0.Ok? ==>
              var req := FindOneReq(filter, opts);
              var got := collection.one(old(collection.sent), req);
              && collection.sent == old(collection.sent) + [req]
              && (got.Failure? ==> res == Failure(got.err) && Holds(src, pre.1))
              && (got.Success? ==>
                    && post == After(RunPhases(reg.entries, [AfterFind], v, Decoded(pre.1, doc, got.value), reg.validator.validate),
                                     afterHooks, AfterContext(local, Ptr(doc), NilA))
                    && Holds(src, post.1)
                    && res == if post.0.Fail? then Failure(post.0.err) else Success(doc)))
    {
      var d := new Document.New(t);
      doc := d;
      var v := View(Ptr(d), filter, Null, Null, Options(opts), modelHook);
      var ctx := new OpContext(v);
      ghost var fin;
      ghost var entries, check := reg.entries, reg.validator.validate;
      res, pre, post, fin := PerformSingle(PlainFind, ctx, d, opts, src, entries, check, v, World(map[d := ZeroFields], src.issued, Null));
    }

    /**
     * `FindOneAndUpdate`: as FindOne, with the update expression in both
     * contexts and the query, before-find then before-update before it, and
     * after-find then after-update after it. A bson.M update expression is
     * shared with the contexts, so the finder's own ends as the callbacks
     * left it (`fin` is the world the operation ends in, whichever way).
     */
    method FindOneAndUpdate(opts: seq<Value>, src: Source)
      returns (res: Result<Document>, ghost doc: Document, ghost pre: (Outcome, World), ghost post: (Outcome, World), ghost fin: World)
      modifies this, src, collection
      ensures fresh(doc) && doc.t == t
      ensures Settings() == old(Settings()).(1 := SharedUpdates(old(updates), fin.updates)) && Holds(src, fin)
      ensures var v := View(Ptr(doc), old(filter), old(updates), Null, Options(opts), old(modelHook));
        var local := FinderContext(old(filter), old(updates), Options(opts), old(modelHook));
        && pre == Before(RunPhases(reg.entries, [BeforeFind, BeforeUpdate], v, World(map[doc := ZeroFields], old(src.issued), old(updates)),
                                   reg.validator.validate),
                         old(beforeHooks), local)
        && (pre.0.Fail? ==> res == Failure(pre.0.err) && collection.sent == old(collection.sent) && fin == pre.1)
        && (pre.0.Ok? ==>
              var req := FindOneAndUpdateReq(old(filter), SharedUpdates(old(updates), pre.1.updates), opts);
              var got := collection.one(old(collection.sent), req);
              && collection.sent == old(collection.sent) + [req]
              && (got.Failure? ==> res == Failure(got.err) && fin == pre.1)
              && (got.Success? ==>
                    && post == After(RunPhases(reg.entries, [AfterFind, AfterUpdate], v, Decoded(pre.1, doc, got.value), reg.validator.validate),
                                     old(afterHooks), AfterContext(local, Ptr(doc), NilA))
                    && fin == post.1
                    && res == if post.0.Fail? then Failure(post.0.err) else Success(doc)))
    {
      var u;
      res, doc, pre, post, fin, u := QueryAndUpdate(opts, src);
      updates := SharedUpdates(updates, u);
    }

    /** FindOneAndUpdate up to the write-back: `u` is the update expression the context ends with. */
    method QueryAndUpdate(opts: seq<Value>, src: Source)
      returns (res: Result<Document>, ghost doc: Document, ghost pre: (Outcome, World), ghost post: (Outcome, World), ghost fin: World, u: Value)
      modifies src, collection
      ensures fresh(doc) && doc.t == t
      ensures u == fin.updates && Holds(src, fin)
      ensures var v := View(Ptr(doc), filter, updates, Null, Options(opts), modelHook);
        var local := FinderContext(filter, updates, Options(opts), modelHook);
        && pre == Before(RunPhases(reg.entries, [BeforeFind, BeforeUpdate], v, World(map[doc := ZeroFields], old(src.issued), updates),
                                   reg.validator.validate),
                         beforeHooks, local)
        && (pre.0.Fail? ==> res == Failure(pre.0.err) && collection.sent == old(collection.sent) && fin == pre.1)
        && (pre.0.Ok? ==>
              var req := FindOneAndUpdateReq(filter, SharedUpdates(updates, pre.1.updates), opts);
              var got := collection.one(old(collection.sent), req);
              && collection.sent == old(collection.sent) + [req]
              && (got.Failure? ==> res == Failure(got.err) && fin == pre.1)
              && (got.Success? ==>
                    && post == After(RunPhases(reg.entries, [AfterFind, AfterUpdate], v, Decoded(pre.1, doc, got.value), reg.validator.validate),
                                     afterHooks, AfterContext(local, Ptr(doc), NilA))
                    && fin == post.1
                    && res == if post.0.Fail? then Failure(post.0.err) else Success(doc)))
    {
      var d := new Document.New(t);
      doc := d;
      var v := View(Ptr(d), filter, updates, Null, Options(opts), modelHook);
      var ctx := new OpContext(v);
      ghost var entries, check := reg.entries, reg.validator.validate;
      res, pre, post, fin := PerformSingle(AndUpdate, ctx, d, opts, src, entries, check, v, World(map[d := ZeroFields], src.issued, updates));
      u := ctx.updates;
    }

    /**
     * The rest of Find once the before handler passed, from world `w` (no
     * documents yet): the query is sent; a driver error is the result;
     * otherwise the results become new documents, the context's `Doc`
     * becomes the slice of them, and the after handler runs on it.
     */
    method FinishFind(ctx: OpContext, opts: seq<Value>, src: Source,
        ghost entries: map<OpType, seq<Entry>>, ghost check: Validator.Checker, ghost v: View, ghost w: World)
      returns (res: Result<seq<Document>>, ghost found: seq<Document>, ghost post: (Outcome, World), ghost fin: World)
      requires entries == reg.entries && check == reg.validator.validate
      requires ctx.Snapshot() == v.(updates := ctx.updates) && v.doc == Null && v.replacement == Null && w.docs == map[]
      requires Reflects(ctx, src, w)
      modifies src, ctx, collection
      ensures FindFinished(FindReq(filter, opts), entries, check, afterHooks, LocalOf(PlainFind, opts), t, v, w, collection.many,
                           old(collection.sent), collection.sent, res, found, post, fin)
      ensures forall i :: 0 <= i < |found| ==> fresh(found[i])
      ensures Holds(src, fin)
    {
      post, found, fin := (Ok, w), [], w;
      var got := collection.FetchAll(FindReq(filter, opts));
      if got.Failure? {
        return Failure(got.err), found, post, fin;
      }
      var ds := Materialize(t, got.value);
      found := ds;
      var payload := Listing(ds, t);
      ctx.doc := payload;
      var err;
      err, post := PostActionHandler(ctx, AfterContext(LocalOf(PlainFind, opts), NilPtr(t.caps), payload), [AfterFind], src,
                                     entries, check, v.(doc := payload), World(Fetched(found, got.value), w.issued, w.updates));
      fin := post.1;
      res := if err.Fail? then Failure(err.err) else Success(ds);
    }

    /** Find on a fresh context without a document: the before handler, then FinishFind. */
    method PerformFind(ctx: OpContext, opts: seq<Value>, src: Source,
        ghost entries: map<OpType, seq<Entry>>, ghost check: Validator.Checker, ghost v: View, ghost w: World)
      returns (res: Result<seq<Document>>, ghost found: seq<Document>, ghost pre: (Outcome, World), ghost post: (Outcome, World), ghost fin: World)
      requires entries == reg.entries && check == reg.validator.validate
      requires ctx.Snapshot() == v.(updates := ctx.updates) && v.doc == Null && v.replacement == Null && w.docs == map[]
      requires Reflects(ctx, src, w)
      modifies src, ctx, collection
      ensures FindQuery(opts, Settings(), entries, check, t, collection.many, v, w, old(collection.sent), collection.sent,
                        res, found, pre, post, fin)
      ensures forall i :: 0 <= i < |found| ==> fresh(found[i])
      ensures Holds(src, fin)
    {
      var err;
      err, pre := PreActionHandler(ctx, LocalOf(PlainFind, opts), [BeforeFind], src, entries, check, v, w);
      post, found, fin := pre, [], pre.1;
      if err.Fail? {
        return Failure(err.err), found, pre, post, fin;
      }
      res, found, post, fin := FinishFind(ctx, opts, src, entries, check, v, pre.1);
    }

    /**
     * `Find`: the context has no `Doc` during the before phase; a failing
     * before phase returns its error and queries nothing; a driver error is
     * returned; otherwise the fetched documents, stored in the context's
     * `Doc` for the after phase, are the result unless that phase fails.
     */
    method Find(opts: seq<Value>, src: Source)
      returns (res: Result<seq<Document>>, ghost found: seq<Document>, ghost pre: (Outcome, World), ghost post: (Outcome, World))
      modifies src, collection
      ensures var v := View(Null, filter, Null, Null, Options(opts), modelHook);
        var local := FinderContext(filter, Null, Options(opts), modelHook);
        && pre == Before(RunPhases(reg.entries, [BeforeFind], v, World(map[], old(src.issued), Null), reg.validator.validate),
                         beforeHooks, local)
        && (pre.0.Fail? ==> res == Failure(pre.0.err) && collection.sent == old(collection.sent) && Holds(src, pre.1))
        && (pre.0.Ok? ==>
              var req := FindReq(filter, opts);
              var got := collection.many(old(collection.sent), req);
              && collection.sent == old(collection.sent) + [req]
              && (got.Failure? ==> res == Failure(got.err) && Holds(src, pre.1))
              && (got.Success? ==>
                    && |found| == |got.value| && Distinct(found)
                    && (forall i :: 0 <= i < |found| ==> fresh(found[i]) && found[i].t == t)
                    && post == After(RunPhases(reg.entries, [AfterFind], v.(doc := Listing(found, t)),
                                               World(Fetched(found, got.value), pre.1.issued, pre.1.updates), reg.validator.validate),
                                     afterHooks, AfterContext(local, NilPtr(t.caps), Listing(found, t)))
                    && Holds(src, post.1)
                    && res == if post.0.Fail? then Failure(post.0.err) else Success(found)))
    {
      var v := View(Null, filter, Null, Null, Options(opts), modelHook);
      var ctx := new OpContext(v);
      ghost var entries, check := reg.entries, reg.validator.validate;
      ghost var fin;
      res, found, pre, post, fin := PerformFind(ctx, opts, src, entries, check, v, World(map[], src.issued, Null));
    }
  }
}
