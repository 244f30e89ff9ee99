/**
 * The built-in default-field hook (hook/field/strategy.go, hook/field/field.go).
 *
 * Before an insert it fills a document's id and creation time through the
 * document's own accessors; before an update or upsert it writes the
 * update time (and for an upsert the id and creation time) into the
 * `$set` / `$setOnInsert` sub-maps of the context's update map.
 *
 * Go maps are references, so the strategies change the update map in place.
 * Here the map is a value: each strategy returns the new options, whose
 * first entry is the update map as the caller sees it afterwards.
 */
module Field {
  import opened Common
  import opened Values
  import opened Operation
  import Update

  /** The three strategies of the `strategies` table. */
  datatype Strategy = InsertStrategy | UpdateStrategy | UpsertStrategy

  /** The phases that have a strategy, and which. */
  const Strategies: map<OpType, Strategy> :=
    map[OpType.BeforeInsert := InsertStrategy, OpType.BeforeUpdate := UpdateStrategy, OpType.BeforeUpsert := UpsertStrategy]

  /** Only before-insert, before-update and before-upsert are dispatched. */
  lemma StrategyPhases(p: OpType)
    ensures p in Strategies <==> p == OpType.BeforeInsert || p == OpType.BeforeUpdate || p == OpType.BeforeUpsert
  {
  }

  /** The payload implements at least one capability interface. */
  predicate Capable(c: Caps)
  {
    c.fixedName || c.callerNamed
  }

  /** The capabilities of a payload element: only pointers to documents have any. */
  function CapsOf(v: Value): Caps
  {
    match v
    case Ptr(o) => o.t.caps
    case NilPtr(c) => c
    case _ => Caps(false, false)
  }

  /** A field name and value reported by an accessor. */
  datatype Field = Field(name: string, value: Value)

  /** getField's choice of accessor: the fixed-name capability wins; unknown selectors call nothing. */
  function Selected(sel: string, c: Caps): Option<Accessor>
  {
    if sel == "_id" then Some(if c.fixedName then FixedId else NamedId)
    else if sel == "created_at" then Some(if c.fixedName then FixedCreatedAt else NamedCreatedAt)
    else if sel == "updated_at" then Some(if c.fixedName then FixedUpdatedAt else NamedUpdatedAt)
    else None
  }

  /** The field name an accessor reports: fixed for the fixed-name capability, the type's own otherwise. */
  function NameOf(a: Accessor, t: DocType): string
  {
    match a
    case FixedId => "_id"
    case FixedCreatedAt => "created_at"
    case FixedUpdatedAt => "updated_at"
    case NamedId => t.idName
    case NamedCreatedAt => t.createdAtName
    case NamedUpdatedAt => t.updatedAtName
  }

  /** getField on a document of type `t` with fields `f`, `n` values issued: the field, the new fields and count. */
  function GetFieldSpec(sel: string, t: DocType, f: Fields, n: nat): (Field, Fields, nat)
  {
    match Selected(sel, t.caps)
    case None => (Field("", Null), f, n)
    case Some(a) =>
      var (f', n') := Access(a, f, n);
      (Field(NameOf(a, t), Slot(a, f')), f', n')
  }

  /**
   * The fixed-name capability yields the names `_id`, `created_at`,
   * `updated_at`; otherwise the type names the field; an unknown selector
   * yields ("", nil) and calls nothing. A known selector yields a non-zero
   * value and touches no other field.
   */
  lemma GetFieldNames(sel: string, t: DocType, f: Fields, n: nat)
    ensures var (fd, f', n') := GetFieldSpec(sel, t, f, n);
      && (Selected(sel, t.caps).None? ==> fd == Field("", Null) && f' == f && n' == n)
      && (Selected(sel, t.caps).Some? && t.caps.fixedName ==> fd.name == sel)
      && (sel == "_id" && !t.caps.fixedName ==> fd.name == t.idName)
      && (sel == "created_at" && !t.caps.fixedName ==> fd.name == t.createdAtName)
      && (sel == "updated_at" && !t.caps.fixedName ==> fd.name == t.updatedAtName)
      && (Selected(sel, t.caps).Some? ==> !IsZero(fd.value) && f'.rest == f.rest)
  {
    match Selected(sel, t.caps)
    case None =>
    case Some(a) => AccessIssues(a, f, n);
  }

  /** getField: calls the selected accessor of `o` and reports its field. */
  method GetField(sel: string, o: Document, src: Source) returns (fd: Field)
    requires Selected(sel, o.t.caps).Some? ==> Capable(o.t.caps)
    modifies o, src
    ensures (fd, o.fields, src.issued) == GetFieldSpec(sel, o.t, old(o.fields), old(src.issued))
  {
    match sel
    case "_id" =>
      if o.t.caps.fixedName {
        var v := o.Call(FixedId, src);
        return Field("_id", v);
      }
      var v := o.Call(NamedId, src);
      fd := Field(o.t.idName, v);
    case "created_at" =>
      if o.t.caps.fixedName {
        var v := o.Call(FixedCreatedAt, src);
        return Field("created_at", v);
      }
      var v := o.Call(NamedCreatedAt, src);
      fd := Field(o.t.createdAtName, v);
    case "updated_at" =>
      if o.t.caps.fixedName {
        var v := o.Call(FixedUpdatedAt, src);
        return Field("updated_at", v);
      }
      var v := o.Call(NamedUpdatedAt, src);
      fd := Field(o.t.updatedAtName, v);
    case _ =>
      fd := Field("", Null);
  }

  /** `if updates[key] == nil { updates[key] = bson.M{} }`: a missing or nil section becomes an empty map. */
  function Ensure(u: map<string, Value>, key: string): (r: map<string, Value>)
    ensures key in r
  {
    if key !in u || u[key] == Null then u[key := M(map[])] else u
  }

  /**
   * Where a strategy's shape checks end: `Stop` with the options as they
   * are when it returns early, or `Go` with the update map whose sections
   * are in place, just before the first accessor call.
   */
  datatype Shape = Stop(opts: seq<Value>) | Go(u: map<string, Value>)

  /** BeforeUpdate's checks: the first option must be a bson.M whose `$set` is (or becomes) a map. */
  function UpdateShape(opts: seq<Value>): (r: Shape)
    ensures r.Go? ==> |opts| > 0 && Update.SetOp in r.u && r.u[Update.SetOp].M?
  {
    if |opts| == 0 || !opts[0].M? then Stop(opts)
    else
      var u := Ensure(opts[0].fields, Update.SetOp);
      if u[Update.SetOp].M? then Go(u) else Stop(opts)
  }

  /** BeforeUpsert's checks: `$set` first, then `$setOnInsert`, each created when missing. */
  function UpsertShape(opts: seq<Value>): (r: Shape)
    ensures r.Go? ==> && |opts| > 0
                      && Update.SetOp in r.u && r.u[Update.SetOp].M?
                      && Update.SetOnInsertOp in r.u && r.u[Update.SetOnInsertOp].M?
    ensures r.Stop? ==> |r.opts| == |opts|
  {
    if |opts| == 0 || !opts[0].M? then Stop(opts)
    else
      var u := Ensure(opts[0].fields, Update.SetOp);
      if !u[Update.SetOp].M? then Stop(opts)
      else
        var u2 := Ensure(u, Update.SetOnInsertOp);
        if u2[Update.SetOnInsertOp].M? then Go(u2) else Stop(opts[0 := M(u2)])
  }

  /** Two accessor calls in a row. */
  function Access2(a: Accessor, b: Accessor, f: Fields, n: nat): (Fields, nat)
  {
    var (f1, n1) := Access(a, f, n);
    Access(b, f1, n1)
  }

  /** BeforeInsert on a document: the fixed-name id and creation time, then the caller-named ones. */
  function InsertSpec(t: DocType, f: Fields, n: nat): (Fields, nat)
  {
    var (f1, n1) := if t.caps.fixedName then Access2(FixedId, FixedCreatedAt, f, n) else (f, n);
    if t.caps.callerNamed then Access2(NamedId, NamedCreatedAt, f1, n1) else (f1, n1)
  }

  /** BeforeUpdate on a document: the update time goes into `$set`. */
  function UpdateSpec(t: DocType, f: Fields, n: nat, opts: seq<Value>): (Fields, nat, seq<Value>)
  {
    if !Capable(t.caps) then (f, n, opts)
    else match UpdateShape(opts)
      case Stop(o) => (f, n, o)
      case Go(u) =>
        var (upd, f', n') := GetFieldSpec("updated_at", t, f, n);
        var setFields := u[Update.SetOp].fields[upd.name := upd.value];
        (f', n', opts[0 := M(u[Update.SetOp := M(setFields)])])
  }

  /**
   * The update map after BeforeUpsert's writes, given the map its shape
   * checks left: each write adds one key to its section and nothing else.
   */
  function SectionsWritten(u: map<string, Value>, id: Field, created: Field, upd: Field): (top: map<string, Value>)
    requires Update.SetOp in u && u[Update.SetOp].M? && Update.SetOnInsertOp in u && u[Update.SetOnInsertOp].M?
    ensures top.Keys == u.Keys
    ensures forall k :: k in u && k != Update.SetOp && k != Update.SetOnInsertOp ==> top[k] == u[k]
    ensures top[Update.SetOp].M? && top[Update.SetOnInsertOp].M?
    ensures var set' := top[Update.SetOp].fields;
      upd.name in set' && set' == u[Update.SetOp].fields[upd.name := set'[upd.name]] && set'[upd.name] == upd.value
    ensures var ins' := top[Update.SetOnInsertOp].fields;
      && id.name in ins' && created.name in ins'
      && ins' == u[Update.SetOnInsertOp].fields[id.name := ins'[id.name]][created.name := ins'[created.name]]
      && ins'[created.name] == created.value
      && (id.name != created.name ==> ins'[id.name] == id.value)
  {
    var set' := u[Update.SetOp].fields[upd.name := upd.value];
    var ins' := u[Update.SetOnInsertOp].fields[id.name := id.value][created.name := created.value];
    assert ins' == u[Update.SetOnInsertOp].fields[id.name := ins'[id.name]][created.name := ins'[created.name]];
    u[Update.SetOp := M(set')][Update.SetOnInsertOp := M(ins')]
  }

  /** BeforeUpsert on a document: update time into `$set`, id and creation time into `$setOnInsert`. */
  function UpsertSpec(t: DocType, f: Fields, n: nat, opts: seq<Value>): (Fields, nat, seq<Value>)
  {
    if !Capable(t.caps) then (f, n, opts)
    else match UpsertShape(opts)
      case Stop(o) => (f, n, o)
      case Go(u) =>
        var (id, f1, n1) := GetFieldSpec("_id", t, f, n);
        var (created, f2, n2) := GetFieldSpec("created_at", t, f1, n1);
        var (upd, f3, n3) := GetFieldSpec("updated_at", t, f2, n2);
        (f3, n3, opts[0 := M(SectionsWritten(u, id, created, upd))])
  }

  /** The strategy for `s` on one document. */
  function StrategySpec(s: Strategy, t: DocType, f: Fields, n: nat, opts: seq<Value>): (r: (Fields, nat, seq<Value>))
    ensures |r.2| == |opts|
  {
    match s
    case InsertStrategy => var (f', n') := InsertSpec(t, f, n); (f', n', opts)
    case UpdateStrategy => UpdateSpec(t, f, n, opts)
    case UpsertStrategy => UpsertSpec(t, f, n, opts)
  }

  /** Whether the strategy gets as far as calling an accessor. */
  predicate Reaches(s: Strategy, opts: seq<Value>)
  {
    match s
    case InsertStrategy => true
    case UpdateStrategy => UpdateShape(opts).Go?
    case UpsertStrategy => UpsertShape(opts).Go?
  }

  /** The options with which a strategy stops before any accessor call. */
  function Stopped(s: Strategy, opts: seq<Value>): (r: seq<Value>)
    ensures |r| == |opts|
  {
    match s
    case InsertStrategy => opts
    case UpdateStrategy => if UpdateShape(opts).Stop? then UpdateShape(opts).opts else opts
    case UpsertStrategy => if UpsertShape(opts).Stop? then UpsertShape(opts).opts else opts
  }

  /** Calling an accessor on a nil pointer panics: the strategy must not get that far. */
  predicate SafeFor(s: Strategy, v: Value, opts: seq<Value>)
  {
    !(v.NilPtr? && Capable(v.caps) && Reaches(s, opts))
  }

  /** The state a list walk threads through: document fields, issued count, options. */
  datatype Progress = Progress(docs: map<Document, Fields>, issued: nat, opts: seq<Value>)

  /** One payload element under strategy `s`. */
  function ElementStep(s: Strategy, v: Value, w: Progress): (r: Progress)
    requires v.Ptr? ==> v.target in w.docs
    requires SafeFor(s, v, w.opts)
    ensures r.docs.Keys == w.docs.Keys && |r.opts| == |w.opts|
  {
    if v.Ptr? then
      var (f', n', opts') := StrategySpec(s, v.target.t, w.docs[v.target], w.issued, w.opts);
      Progress(w.docs[v.target := f'], n', opts')
    else if v.NilPtr? && Capable(v.caps) then
      Progress(w.docs, w.issued, Stopped(s, w.opts))
    else w
  }

  /** execute: the phase's strategy on one element, or nothing for a phase without one. */
  function Dispatch(p: OpType, v: Value, w: Progress): (r: Progress)
    requires v.Ptr? ==> v.target in w.docs
    requires p in Strategies ==> SafeFor(Strategies[p], v, w.opts)
    ensures r.docs.Keys == w.docs.Keys && |r.opts| == |w.opts|
  {
    if p in Strategies then ElementStep(Strategies[p], v, w) else w
  }

  /** Every pointer among the items has its fields in `docs`. */
  predicate PointsInto(items: seq<Value>, docs: map<Document, Fields>)
  {
    forall i :: 0 <= i < |items| && items[i].Ptr? ==> items[i].target in docs
  }

  /** No item is a nil pointer to a type with a capability. */
  predicate NoCapableNil(items: seq<Value>)
  {
    forall i :: 0 <= i < |items| ==> !(items[i].NilPtr? && Capable(items[i].caps))
  }

  /** executeSlice: the items in index order. */
  function Walk(p: OpType, items: seq<Value>, w: Progress): (r: Progress)
    requires PointsInto(items, w.docs) && (p in Strategies ==> NoCapableNil(items))
    ensures r.docs.Keys == w.docs.Keys && |r.opts| == |w.opts|
    decreases |items|
  {
    if items == [] then w
    else Walk(p, items[1..], Dispatch(p, items[0], w))
  }

  /** The payload shapes the walk accepts without a panic. */
  predicate SafePayload(p: OpType, payload: Value)
  {
    (payload.A? || payload.List?) && p in Strategies ==> NoCapableNil(payload.items)
  }

  /**
   * Execute on the context's payload: nil does nothing, a pointer is one
   * element, a slice is walked, and any other shape does nothing.
   */
  function FieldSpec(p: OpType, payload: Value, w: Progress): (r: Progress)
    requires Targets(payload) <= w.docs.Keys
    requires SafePayload(p, payload)
    ensures r.docs.Keys == w.docs.Keys && |r.opts| == |w.opts|
  {
    match payload
    case Ptr(_) => Dispatch(p, payload, w)
    case A(items) => TargetsAreKeys(items, w.docs); Walk(p, items, w)
    case List(items) => TargetsAreKeys(items, w.docs); Walk(p, items, w)
    case _ => w
  }

  lemma TargetsAreKeys(items: seq<Value>, docs: map<Document, Fields>)
    requires ItemTargets(items) <= docs.Keys
    ensures PointsInto(items, docs)
  {
    forall i | 0 <= i < |items| && items[i].Ptr?
      ensures items[i].target in docs
    {
      assert items[i].target in ItemTargets(items);
    }
  }

  // ---------------------------------------------------------------------
  // Properties of the strategies

  /**
   * BeforeInsert fills every id and creation-time field of the capabilities
   * the type has, leaves update times and other fields alone, and a second
   * call changes nothing and issues nothing.
   */
  lemma InsertFillsOnce(t: DocType, f: Fields, n: nat)
    ensures var (f', n') := InsertSpec(t, f, n);
      && (t.caps.fixedName ==> !IsZero(f'.id) && !IsZero(f'.createdAt))
      && (t.caps.callerNamed ==> !IsZero(f'.customId) && !IsZero(f'.customCreatedAt))
      && f'.updatedAt == f.updatedAt && f'.customUpdatedAt == f.customUpdatedAt && f'.rest == f.rest
      && InsertSpec(t, f', n') == (f', n')
  {
    var (f1, n1) := if t.caps.fixedName then Access2(FixedId, FixedCreatedAt, f, n) else (f, n);
    if t.caps.fixedName {
      var (fa, na) := Access(FixedId, f, n);
      AccessIssues(FixedId, f, n);
      AccessIssues(FixedCreatedAt, fa, na);
      AccessIssues(FixedId, f1, n1);
      AccessIssues(FixedCreatedAt, f1, n1);
    }
    var (f2, n2) := InsertSpec(t, f, n);
    if t.caps.callerNamed {
      var (fb, nb) := Access(NamedId, f1, n1);
      AccessIssues(NamedId, f1, n1);
      AccessIssues(NamedCreatedAt, fb, nb);
      AccessIssues(NamedId, f2, n2);
      AccessIssues(NamedCreatedAt, f2, n2);
      if t.caps.fixedName {
        AccessIssues(FixedId, f2, n2);
        AccessIssues(FixedCreatedAt, f2, n2);
      }
    }
  }

  /**
   * BeforeUpdate changes nothing when the type has no capability, when
   * there is no first option or it is not a bson.M, or when `$set` holds
   * something other than a map.
   */
  lemma UpdateNoOp(t: DocType, f: Fields, n: nat, opts: seq<Value>)
    requires || !Capable(t.caps) || |opts| == 0 || !opts[0].M?
             || (Update.SetOp in opts[0].fields && opts[0].fields[Update.SetOp] != Null && !opts[0].fields[Update.SetOp].M?)
    ensures UpdateSpec(t, f, n, opts) == (f, n, opts)
  {
  }

  /**
   * Otherwise BeforeUpdate writes exactly one key, the update-time field,
   * into `$set` (created empty when missing or nil); no other key of the
   * update map or of `$set` changes, and no other option changes.
   */
  lemma UpdateWritesUpdatedAt(t: DocType, f: Fields, n: nat, opts: seq<Value>)
    requires Capable(t.caps) && |opts| > 0 && opts[0].M?
    requires var u := opts[0].fields; Update.SetOp !in u || u[Update.SetOp] == Null || u[Update.SetOp].M?
    ensures var (f', n', opts') := UpdateSpec(t, f, n, opts);
      var u := opts[0].fields;
      var before: map<string, Value> := if Update.SetOp in u && u[Update.SetOp].M? then u[Update.SetOp].fields else map[];
      var name := if t.caps.fixedName then "updated_at" else t.updatedAtName;
      && |opts'| == |opts| && (forall i :: 0 < i < |opts| ==> opts'[i] == opts[i])
      && opts'[0].M? && opts'[0].fields.Keys == u.Keys + {Update.SetOp}
      && (forall k :: k in u && k != Update.SetOp ==> opts'[0].fields[k] == u[k])
      && opts'[0].fields[Update.SetOp] == M(before[name := opts'[0].fields[Update.SetOp].fields[name]])
      && !IsZero(opts'[0].fields[Update.SetOp].fields[name])
      && n' == n + 1
  {
    GetFieldNames("updated_at", t, f, n);
    var acc := if t.caps.fixedName then FixedUpdatedAt else NamedUpdatedAt;
    AccessIssues(acc, f, n);
  }

  /** On an empty update map and a fixed-name type: `{$set: {updated_at: <fresh time>}}`, as callback_test.go expects. */
  lemma UpdateOnEmptyMap(t: DocType, f: Fields, n: nat, rest: seq<Value>)
    requires t.caps.fixedName
    ensures var (f', n', opts') := UpdateSpec(t, f, n, [M(map[])] + rest);
      && opts' == [M(map[Update.SetOp := M(map["updated_at" := Time(n + 1)])])] + rest
      && f' == f.(updatedAt := Time(n + 1)) && n' == n + 1
  {
    var opts := [M(map[])] + rest;
    var expected := M(map[Update.SetOp := M(map["updated_at" := Time(n + 1)])]);
    var u := Ensure(map[], Update.SetOp);
    assert u == map[Update.SetOp := M(map[])];
    assert u[Update.SetOp := M(u[Update.SetOp].fields["updated_at" := Time(n + 1)])] == expected.fields;
    assert opts[0 := expected] == [expected] + rest;
  }

  /**
   * BeforeUpsert's shape failures: with `$set` holding a non-map nothing
   * changes (`$setOnInsert` is never created); with `$setOnInsert` holding
   * a non-map the only change is a freshly created empty `$set`.
   */
  lemma UpsertShapeFailures(t: DocType, f: Fields, n: nat, opts: seq<Value>)
    requires |opts| > 0 && opts[0].M?
    ensures var u := opts[0].fields;
      Update.SetOp in u && u[Update.SetOp] != Null && !u[Update.SetOp].M? ==>
        UpsertSpec(t, f, n, opts) == (f, n, opts)
    ensures var u := opts[0].fields;
      (Update.SetOp !in u || u[Update.SetOp] == Null || u[Update.SetOp].M?)
      && Update.SetOnInsertOp in u && u[Update.SetOnInsertOp] != Null && !u[Update.SetOnInsertOp].M? ==>
        UpsertSpec(t, f, n, opts) == (f, n, if Capable(t.caps) then opts[0 := M(Ensure(u, Update.SetOp))] else opts)
  {
  }

  /**
   * BeforeUpsert's three accessor calls: id, creation time and update time,
   * each under its capability's name, each non-zero, at most one fresh value
   * each; on a fixed-name document the fields end holding the values returned.
   */
  lemma UpsertAccessors(t: DocType, f: Fields, n: nat)
    requires Capable(t.caps)
    ensures var (id, f1, n1) := GetFieldSpec("_id", t, f, n);
      var (created, f2, n2) := GetFieldSpec("created_at", t, f1, n1);
      var (upd, f3, n3) := GetFieldSpec("updated_at", t, f2, n2);
      && id.name == (if t.caps.fixedName then "_id" else t.idName)
      && created.name == (if t.caps.fixedName then "created_at" else t.createdAtName)
      && upd.name == (if t.caps.fixedName then "updated_at" else t.updatedAtName)
      && !IsZero(id.value) && !IsZero(created.value) && !IsZero(upd.value)
      && (t.caps.fixedName ==> f3.id == id.value && f3.createdAt == created.value && f3.updatedAt == upd.value)
      && n <= n3 <= n + 3
  {
    var ia, ca, ua := if t.caps.fixedName then FixedId else NamedId,
                      if t.caps.fixedName then FixedCreatedAt else NamedCreatedAt,
                      if t.caps.fixedName then FixedUpdatedAt else NamedUpdatedAt;
    var (id, f1, n1) := GetFieldSpec("_id", t, f, n);
    var (created, f2, n2) := GetFieldSpec("created_at", t, f1, n1);
    AccessIssues(ia, f, n);
    AccessIssues(ca, f1, n1);
    AccessIssues(ua, f2, n2);
    AccessTouchesOnlyItsSlot(ca, ia, f1, n1);
    AccessTouchesOnlyItsSlot(ua, ia, f2, n2);
    AccessTouchesOnlyItsSlot(ua, ca, f2, n2);
  }

  /** BeforeUpsert's shape checks pass when both sections are missing, nil or maps; each keeps its old entries. */
  lemma UpsertShapeGoes(opts: seq<Value>)
    requires |opts| > 0 && opts[0].M?
    requires var u := opts[0].fields; Update.SetOp !in u || u[Update.SetOp] == Null || u[Update.SetOp].M?
    requires var u := opts[0].fields;
      Update.SetOnInsertOp !in u || u[Update.SetOnInsertOp] == Null || u[Update.SetOnInsertOp].M?
    ensures var u := opts[0].fields;
      && UpsertShape(opts) == Go(Ensure(Ensure(u, Update.SetOp), Update.SetOnInsertOp))
      && UpsertShape(opts).u.Keys == u.Keys + {Update.SetOp, Update.SetOnInsertOp}
      && (forall k :: k in u && k != Update.SetOp && k != Update.SetOnInsertOp ==> UpsertShape(opts).u[k] == u[k])
      && UpsertShape(opts).u[Update.SetOp].fields
         == (if Update.SetOp in u && u[Update.SetOp].M? then u[Update.SetOp].fields else map[])
      && UpsertShape(opts).u[Update.SetOnInsertOp].fields
         == (if Update.SetOnInsertOp in u && u[Update.SetOnInsertOp].M? then u[Update.SetOnInsertOp].fields else map[])
  {
  }

  /**
   * Otherwise BeforeUpsert writes the update-time field into `$set` and the
   * id and creation-time fields into `$setOnInsert`, each section created
   * empty when missing or nil; every other key of the update map and of the
   * two sections stays, and no other option changes.
   */
  lemma UpsertWritesFields(t: DocType, f: Fields, n: nat, opts: seq<Value>)
    requires Capable(t.caps) && |opts| > 0 && opts[0].M?
    requires var u := opts[0].fields; Update.SetOp !in u || u[Update.SetOp] == Null || u[Update.SetOp].M?
    requires var u := opts[0].fields;
      Update.SetOnInsertOp !in u || u[Update.SetOnInsertOp] == Null || u[Update.SetOnInsertOp].M?
    ensures var opts' := UpsertSpec(t, f, n, opts).2;
      var u := opts[0].fields;
      && |opts'| == |opts| && (forall i :: 0 < i < |opts| ==> opts'[i] == opts[i])
      && opts'[0].M? && opts'[0].fields.Keys == u.Keys + {Update.SetOp, Update.SetOnInsertOp}
      && (forall k :: k in u && k != Update.SetOp && k != Update.SetOnInsertOp ==> opts'[0].fields[k] == u[k])
    ensures var opts' := UpsertSpec(t, f, n, opts).2;
      var u := opts[0].fields;
      var oldSet: map<string, Value> := if Update.SetOp in u && u[Update.SetOp].M? then u[Update.SetOp].fields else map[];
      var un := if t.caps.fixedName then "updated_at" else t.updatedAtName;
      && opts'[0].M? && Update.SetOp in opts'[0].fields && opts'[0].fields[Update.SetOp].M?
      && (var set' := opts'[0].fields[Update.SetOp].fields; un in set' && set' == oldSet[un := set'[un]])
    ensures var opts' := UpsertSpec(t, f, n, opts).2;
      var u := opts[0].fields;
      var oldIns: map<string, Value> :=
        if Update.SetOnInsertOp in u && u[Update.SetOnInsertOp].M? then u[Update.SetOnInsertOp].fields else map[];
      var idn := if t.caps.fixedName then "_id" else t.idName;
      var cn := if t.caps.fixedName then "created_at" else t.createdAtName;
      && opts'[0].M? && Update.SetOnInsertOp in opts'[0].fields && opts'[0].fields[Update.SetOnInsertOp].M?
      && (var ins' := opts'[0].fields[Update.SetOnInsertOp].fields;
          idn in ins' && cn in ins' && ins' == oldIns[idn := ins'[idn]][cn := ins'[cn]])
  {
    UpsertAccessors(t, f, n);
    UpsertShapeGoes(opts);
    var (id, f1, n1) := GetFieldSpec("_id", t, f, n);
    var (created, f2, n2) := GetFieldSpec("created_at", t, f1, n1);
    var (upd, f3, n3) := GetFieldSpec("updated_at", t, f2, n2);
    var u := UpsertShape(opts).u;
    assert UpsertSpec(t, f, n, opts).2 == opts[0 := M(SectionsWritten(u, id, created, upd))];
  }

  /**
   * The values BeforeUpsert writes are non-zero, at most three fresh values
   * are issued, and a fixed-name document ends holding the values written.
   */
  lemma UpsertWrittenValues(t: DocType, f: Fields, n: nat, opts: seq<Value>)
    requires Capable(t.caps) && |opts| > 0 && opts[0].M?
    requires var u := opts[0].fields; Update.SetOp !in u || u[Update.SetOp] == Null || u[Update.SetOp].M?
    requires var u := opts[0].fields;
      Update.SetOnInsertOp !in u || u[Update.SetOnInsertOp] == Null || u[Update.SetOnInsertOp].M?
    ensures var r := UpsertSpec(t, f, n, opts);
      var idn := if t.caps.fixedName then "_id" else t.idName;
      var cn := if t.caps.fixedName then "created_at" else t.createdAtName;
      var un := if t.caps.fixedName then "updated_at" else t.updatedAtName;
      && r.2[0].M? && Update.SetOp in r.2[0].fields && r.2[0].fields[Update.SetOp].M?
      && Update.SetOnInsertOp in r.2[0].fields && r.2[0].fields[Update.SetOnInsertOp].M?
      && (var set', ins' := r.2[0].fields[Update.SetOp].fields, r.2[0].fields[Update.SetOnInsertOp].fields;
          && un in set' && idn in ins' && cn in ins'
          && !IsZero(set'[un]) && !IsZero(ins'[idn]) && !IsZero(ins'[cn])
          && (t.caps.fixedName ==> r.0.id == ins'["_id"] && r.0.createdAt == ins'["created_at"] && r.0.updatedAt == set'["updated_at"]))
      && n <= r.1 <= n + 3
  {
    UpsertAccessors(t, f, n);
    UpsertShapeGoes(opts);
    var (id, f1, n1) := GetFieldSpec("_id", t, f, n);
    var (created, f2, n2) := GetFieldSpec("created_at", t, f1, n1);
    var (upd, f3, n3) := GetFieldSpec("updated_at", t, f2, n2);
    var u := UpsertShape(opts).u;
    assert UpsertSpec(t, f, n, opts) == (f3, n3, opts[0 := M(SectionsWritten(u, id, created, upd))]);
  }

  /** An empty update map passes the shape checks with both sections created empty. */
  lemma EmptyMapShape(rest: seq<Value>)
    ensures UpsertShape([M(map[])] + rest) == Go(map[Update.SetOp := M(map[]), Update.SetOnInsertOp := M(map[])])
  {
    UpsertShapeGoes([M(map[])] + rest);
  }

  /** Writing three fresh values into two empty sections gives the document callback_test.go expects. */
  lemma EmptySectionsWritten(n: nat)
    ensures SectionsWritten(map[Update.SetOp := M(map[]), Update.SetOnInsertOp := M(map[])],
                            Field("_id", Oid(n + 1)), Field("created_at", Time(n + 2)), Field("updated_at", Time(n + 3)))
         == map[Update.SetOp := M(map["updated_at" := Time(n + 3)]),
                Update.SetOnInsertOp := M(map["_id" := Oid(n + 1), "created_at" := Time(n + 2)])]
  {
  }

  /** On a fixed-name document with no id and no creation time, the three accessors issue three fresh values in turn. */
  lemma FreshFixedAccessors(t: DocType, f: Fields, n: nat)
    requires t.caps.fixedName && IsZero(f.id) && IsZero(f.createdAt)
    ensures var f1 := f.(id := Oid(n + 1));
      var f2 := f1.(createdAt := Time(n + 2));
      && GetFieldSpec("_id", t, f, n) == (Field("_id", Oid(n + 1)), f1, n + 1)
      && GetFieldSpec("created_at", t, f1, n + 1) == (Field("created_at", Time(n + 2)), f2, n + 2)
      && GetFieldSpec("updated_at", t, f2, n + 2) == (Field("updated_at", Time(n + 3)), f2.(updatedAt := Time(n + 3)), n + 3)
  {
  }

  /**
   * On an empty update map and a fixed-name document with no id and no
   * creation time: `{$set: {updated_at: t}, $setOnInsert: {_id: id, created_at: c}}`
   * with fresh values, as callback_test.go expects.
   */
  lemma UpsertOnEmptyMap(t: DocType, f: Fields, n: nat, rest: seq<Value>)
    requires t.caps.fixedName && IsZero(f.id) && IsZero(f.createdAt)
    ensures var (f', n', opts') := UpsertSpec(t, f, n, [M(map[])] + rest);
      && opts' == [M(map[Update.SetOp := M(map["updated_at" := Time(n + 3)]),
                         Update.SetOnInsertOp := M(map["_id" := Oid(n + 1), "created_at" := Time(n + 2)])])] + rest
      && f'.id == Oid(n + 1) && f'.createdAt == Time(n + 2) && f'.updatedAt == Time(n + 3)
      && n' == n + 3
  {
    var opts := [M(map[])] + rest;
    var expected := M(map[Update.SetOp := M(map["updated_at" := Time(n + 3)]),
                          Update.SetOnInsertOp := M(map["_id" := Oid(n + 1), "created_at" := Time(n + 2)])]);
    EmptyMapShape(rest);
    FreshFixedAccessors(t, f, n);
    EmptySectionsWritten(n);
    var f3 := f.(id := Oid(n + 1)).(createdAt := Time(n + 2)).(updatedAt := Time(n + 3));
    assert UpsertSpec(t, f, n, opts) == (f3, n + 3, opts[0 := expected]);
    assert opts[0 := expected] == [expected] + rest;
  }

  /** A phase without a strategy changes nothing, whatever the payload. */
  lemma {:induction false} NoStrategyNoChange(p: OpType, payload: Value, w: Progress)
    requires p !in Strategies
    requires Targets(payload) <= w.docs.Keys && SafePayload(p, payload)
    ensures FieldSpec(p, payload, w) == w
  {
    if payload.A? || payload.List? {
      TargetsAreKeys(payload.items, w.docs);
      WalkWithoutStrategy(p, payload.items, w);
    }
  }

  lemma {:induction false} WalkWithoutStrategy(p: OpType, items: seq<Value>, w: Progress)
    requires p !in Strategies && PointsInto(items, w.docs)
    ensures Walk(p, items, w) == w
    decreases |items|
  {
    if items != [] {
      WalkWithoutStrategy(p, items[1..], w);
    }
  }

  /** Before-insert never touches an update expression: the options come back as they went in. */
  lemma {:induction false} InsertKeepsOptions(payload: Value, w: Progress)
    requires Targets(payload) <= w.docs.Keys && SafePayload(OpType.BeforeInsert, payload)
    ensures FieldSpec(OpType.BeforeInsert, payload, w).opts == w.opts
  {
    if payload.A? || payload.List? {
      TargetsAreKeys(payload.items, w.docs);
      WalkInsertKeepsOptions(payload.items, w);
    }
  }

  lemma {:induction false} WalkInsertKeepsOptions(items: seq<Value>, w: Progress)
    requires PointsInto(items, w.docs) && NoCapableNil(items)
    ensures Walk(OpType.BeforeInsert, items, w).opts == w.opts
    decreases |items|
  {
    if items != [] {
      var w1 := Dispatch(OpType.BeforeInsert, items[0], w);
      assert w1.opts == w.opts;
      WalkInsertKeepsOptions(items[1..], w1);
    }
  }

  /** The walk goes in index order: the last item is processed after all the others. */
  lemma {:induction false} WalkSnoc(p: OpType, items: seq<Value>, v: Value, w: Progress)
    requires PointsInto(items + [v], w.docs) && NoCapableNil(items + [v])
    ensures PointsInto(items, w.docs) && NoCapableNil(items)
    ensures var w' := Walk(p, items, w);
      (v.Ptr? ==> v.target in w'.docs) && (p in Strategies ==> SafeFor(Strategies[p], v, w'.opts))
      && Walk(p, items + [v], w) == Dispatch(p, v, w')
    decreases |items|
  {
    assert forall i :: 0 <= i < |items| ==> (items + [v])[i] == items[i];
    assert (items + [v])[|items|] == v;
    if items != [] {
      assert (items + [v])[1..] == items[1..] + [v];
      WalkSnoc(p, items[1..], v, Dispatch(p, items[0], w));
    } else {
      assert Walk(p, [], w) == w;
      assert Walk(p, [v], w) == Walk(p, [], Dispatch(p, v, w));
    }
  }

  /** The strategies write only into a bson.M: any other update expression comes back unchanged. */
  lemma {:induction false} NonMapUpdatesKept(p: OpType, payload: Value, w: Progress)
    requires Targets(payload) <= w.docs.Keys && SafePayload(p, payload)
    requires |w.opts| > 0 && !w.opts[0].M?
    ensures FieldSpec(p, payload, w).opts == w.opts
  {
    if payload.A? || payload.List? {
      TargetsAreKeys(payload.items, w.docs);
      WalkKeepsNonMap(p, payload.items, w);
    }
  }

  lemma {:induction false} WalkKeepsNonMap(p: OpType, items: seq<Value>, w: Progress)
    requires PointsInto(items, w.docs) && (p in Strategies ==> NoCapableNil(items))
    requires |w.opts| > 0 && !w.opts[0].M?
    ensures Walk(p, items, w).opts == w.opts
    decreases |items|
  {
    if items != [] {
      var w1 := Dispatch(p, items[0], w);
      assert w1.opts == w.opts;
      WalkKeepsNonMap(p, items[1..], w1);
    }
  }

  // ---------------------------------------------------------------------
  // The strategies and the walk, as the code runs them

  function Frame(v: Value): set<Document>
  {
    if v.Ptr? then {v.target} else {}
  }

  /** BeforeInsert: a nil doc does nothing; each capability's id and creation-time accessors run. A nil pointer to a capable type, on which Go panics, is excluded. */
  method BeforeInsert(doc: Value, opts: seq<Value>, src: Source) returns (err: Outcome, newOpts: seq<Value>)
    requires !(doc.NilPtr? && Capable(doc.caps))
    modifies Frame(doc), src
    ensures err == Ok && newOpts == opts
    ensures doc.Ptr? ==> (doc.target.fields, src.issued) == InsertSpec(doc.target.t, old(doc.target.fields), old(src.issued))
    ensures !doc.Ptr? ==> src.issued == old(src.issued)
  {
    err, newOpts := Ok, opts;
    if doc == Null {
      return;
    }
    if doc.Ptr? {
      var o := doc.target;
      if o.t.caps.fixedName {
        var id := o.Call(FixedId, src);
        var created := o.Call(FixedCreatedAt, src);
      }
      if o.t.caps.callerNamed {
        var id := o.Call(NamedId, src);
        var created := o.Call(NamedCreatedAt, src);
      }
    }
  }

  /** BeforeUpdate: writes the update time into `$set` of the first option. */
  method BeforeUpdate(doc: Value, opts: seq<Value>, src: Source) returns (err: Outcome, newOpts: seq<Value>)
    requires SafeFor(UpdateStrategy, doc, opts)
    modifies Frame(doc), src
    ensures err == Ok
    ensures doc.Ptr? ==> (doc.target.fields, src.issued, newOpts) == UpdateSpec(doc.target.t, old(doc.target.fields), old(src.issued), opts)
    ensures doc.NilPtr? && Capable(doc.caps) ==> newOpts == Stopped(UpdateStrategy, opts) && src.issued == old(src.issued)
    ensures !doc.Ptr? && !(doc.NilPtr? && Capable(doc.caps)) ==> newOpts == opts && src.issued == old(src.issued)
  {
    err, newOpts := Ok, opts;
    if doc == Null || !Capable(CapsOf(doc)) {
      return;
    }
    if |opts| == 0 || opts[0] == Null {
      return;
    }
    if !opts[0].M? {
      return;
    }
    var updates := opts[0].fields;
    if Update.SetOp !in updates || updates[Update.SetOp] == Null {
      updates := updates[Update.SetOp := M(map[])];
      newOpts := opts[0 := M(updates)];
    }
    if !updates[Update.SetOp].M? {
      return;
    }
    if doc.Ptr? {
      var upd := GetField("updated_at", doc.target, src);
      updates := updates[Update.SetOp := M(updates[Update.SetOp].fields[upd.name := upd.value])];
      newOpts := opts[0 := M(updates)];
    }
  }

  /** BeforeUpsert: update time into `$set`, id and creation time into `$setOnInsert`. */
  method BeforeUpsert(doc: Value, opts: seq<Value>, src: Source) returns (err: Outcome, newOpts: seq<Value>)
    requires SafeFor(UpsertStrategy, doc, opts)
    modifies Frame(doc), src
    ensures err == Ok
    ensures doc.Ptr? ==> (doc.target.fields, src.issued, newOpts) == UpsertSpec(doc.target.t, old(doc.target.fields), old(src.issued), opts)
    ensures doc.NilPtr? && Capable(doc.caps) ==> newOpts == Stopped(UpsertStrategy, opts) && src.issued == old(src.issued)
    ensures !doc.Ptr? && !(doc.NilPtr? && Capable(doc.caps)) ==> newOpts == opts && src.issued == old(src.issued)
  {
    err, newOpts := Ok, opts;
    if doc == Null || !Capable(CapsOf(doc)) {
      return;
    }
    if |opts| == 0 || opts[0] == Null {
      return;
    }
    if !opts[0].M? {
      return;
    }
    var updates := opts[0].fields;
    if Update.SetOp !in updates || updates[Update.SetOp] == Null {
      updates := updates[Update.SetOp := M(map[])];
      newOpts := opts[0 := M(updates)];
    }
    if !updates[Update.SetOp].M? {
      return;
    }
    if Update.SetOnInsertOp !in updates || updates[Update.SetOnInsertOp] == Null {
      updates := updates[Update.SetOnInsertOp := M(map[])];
    }
    newOpts := opts[0 := M(updates)];
    if !updates[Update.SetOnInsertOp].M? {
      return;
    }
    if doc.Ptr? {
      var o := doc.target;
      var id := GetField("_id", o, src);
      var created := GetField("created_at", o, src);
      var upd := GetField("updated_at", o, src);
      updates := updates[Update.SetOp := M(updates[Update.SetOp].fields[upd.name := upd.value])];
      updates := updates[Update.SetOnInsertOp := M(updates[Update.SetOnInsertOp].fields[id.name := id.value][created.name := created.value])];
      newOpts := opts[0 := M(updates)];
    }
  }

  /** execute: runs the phase's strategy on one element; phases without one return nil. */
  method ExecuteOne(doc: Value, p: OpType, opts: seq<Value>, src: Source, ghost docs: map<Document, Fields>)
    returns (err: Outcome, newOpts: seq<Value>, ghost docs': map<Document, Fields>)
    requires doc.Ptr? ==> doc.target in docs
    requires Agrees(docs)
    requires p in Strategies ==> SafeFor(Strategies[p], doc, opts)
    modifies Frame(doc), src
    ensures err == Ok && Agrees(docs')
    ensures Progress(docs', src.issued, newOpts) == Dispatch(p, doc, Progress(docs, old(src.issued), opts))
  {
    err, newOpts, docs' := Ok, opts, docs;
    if p !in Strategies {
      return;
    }
    err, newOpts, docs' := RunStrategy(Strategies[p], doc, opts, src, docs);
  }

  /** One element under strategy `s`, as `ElementStep` says. */
  method RunStrategy(s: Strategy, doc: Value, opts: seq<Value>, src: Source, ghost docs: map<Document, Fields>)
    returns (err: Outcome, newOpts: seq<Value>, ghost docs': map<Document, Fields>)
    requires doc.Ptr? ==> doc.target in docs
    requires Agrees(docs) && SafeFor(s, doc, opts)
    modifies Frame(doc), src
    ensures err == Ok && Agrees(docs')
    ensures Progress(docs', src.issued, newOpts) == ElementStep(s, doc, Progress(docs, old(src.issued), opts))
  {
    match s {
      case InsertStrategy => err, newOpts := BeforeInsert(doc, opts, src);
      case UpdateStrategy => err, newOpts := BeforeUpdate(doc, opts, src);
      case UpsertStrategy => err, newOpts := BeforeUpsert(doc, opts, src);
    }
    docs' := docs;
    if doc.Ptr? {
      docs' := docs[doc.target := doc.target.fields];
    }
  }

  /** executeSlice: the items in index order, returning the first error (no strategy ever errs). */
  method ExecuteSlice(items: seq<Value>, p: OpType, opts: seq<Value>, src: Source, ghost docs: map<Document, Fields>)
    returns (err: Outcome, newOpts: seq<Value>, ghost docs': map<Document, Fields>)
    requires PointsInto(items, docs) && (p in Strategies ==> NoCapableNil(items)) && Agrees(docs)
    modifies ItemTargets(items), src
    ensures err == Ok && Agrees(docs')
    ensures Progress(docs', src.issued, newOpts) == Walk(p, items, Progress(docs, old(src.issued), opts))
  {
    err, newOpts, docs' := Ok, opts, docs;
    ghost var whole := Walk(p, items, Progress(docs, src.issued, opts));
    for i := 0 to |items|
      invariant err == Ok && docs'.Keys == docs.Keys && Agrees(docs')
      invariant PointsInto(items[i..], docs')
      invariant Walk(p, items[i..], Progress(docs', src.issued, newOpts)) == whole
    {
      assert items[i..][0] == items[i] && items[i..][1..] == items[i + 1..];
      assert items[i].Ptr? ==> items[i].target in ItemTargets(items);
      err, newOpts, docs' := ExecuteOne(items[i], p, newOpts, src, docs');
      if err.Fail? {
        return;
      }
    }
  }

  /**
   * Execute: the payload of the context under phase `p`. The options given
   * to the strategies are the context's updates, replacement and driver
   * options followed by `opts`; the update map the strategies leave is the
   * context's update map afterwards.
   */
  method Execute(ctx: OpContext, p: OpType, opts: seq<Value>, src: Source, ghost docs: map<Document, Fields>)
    returns (err: Outcome, ghost docs': map<Document, Fields>)
    requires Targets(ctx.doc) <= docs.Keys && Agrees(docs)
    requires SafePayload(p, ctx.doc)
    modifies Targets(ctx.doc), src, ctx
    ensures err == Ok && Agrees(docs')
    ensures var r := FieldSpec(p, old(ctx.doc), Progress(docs, old(src.issued), [old(ctx.updates), old(ctx.replacement), old(ctx.mongoOptions)] + opts));
      docs' == r.docs && src.issued == r.issued && ctx.updates == r.opts[0]
    ensures ctx.Snapshot() == old(ctx.Snapshot()).(updates := ctx.updates)
  {
    err, docs' := Ok, docs;
    var doc := ctx.doc;
    if doc == Null {
      return;
    }
    var all := [ctx.updates, ctx.replacement, ctx.mongoOptions] + opts;
    var newOpts;
    err, newOpts, docs' := ExecutePayload(doc, p, all, src, docs);
    ctx.updates := newOpts[0];
  }

  /** The payload dispatch of Execute: a slice is walked, a pointer is one element, anything else is left alone. */
  method ExecutePayload(doc: Value, p: OpType, all: seq<Value>, src: Source, ghost docs: map<Document, Fields>)
    returns (err: Outcome, newOpts: seq<Value>, ghost docs': map<Document, Fields>)
    requires Targets(doc) <= docs.Keys && Agrees(docs)
    requires SafePayload(p, doc)
    modifies Targets(doc), src
    ensures err == Ok && Agrees(docs')
    ensures Progress(docs', src.issued, newOpts) == FieldSpec(p, doc, Progress(docs, old(src.issued), all))
  {
    err, newOpts, docs' := Ok, all, docs;
    match doc {
      case A(items) =>
        TargetsAreKeys(items, docs);
        err, newOpts, docs' := ExecuteSlice(items, p, all, src, docs);
      case List(items) =>
        TargetsAreKeys(items, docs);
        err, newOpts, docs' := ExecuteSlice(items, p, all, src, docs);
      case Ptr(_) =>
        err, newOpts, docs' := ExecuteOne(doc, p, all, src, docs);
      case _ =>
    }
  }
}
