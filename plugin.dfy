/**
 * Plugin wiring (callback.go): registering and removing a named callback,
 * and `InitPlugin`, which installs the built-in hooks under fixed phases.
 */
module Plugin {
  import opened Common
  import opened Operation
  import opened Callback
  import Validator

  const DefaultFieldName := "mongox:default_field"
  const ModelName := "mongox:model"
  const ValidationName := "mongox:validation"

  /** The phases of each built-in hook, in registration order. */
  const DefaultFieldPhases := [BeforeInsert, BeforeUpdate, BeforeUpsert]
  const ModelPhases := [
    BeforeInsert, AfterInsert, BeforeDelete, AfterDelete, BeforeUpdate,
    AfterUpdate, BeforeUpsert, AfterUpsert, BeforeFind, AfterFind]
  const ValidationPhases := [BeforeInsert, BeforeUpsert]

  /** `RegisterPlugin(name, cb, p)`. */
  method RegisterPlugin(reg: Registry, name: string, cb: Callback, p: OpType)
    modifies reg
    ensures forall q :: reg.Entries(q) == if q == p then old(reg.Entries(p)) + [Entry(name, cb)] else old(reg.Entries(q))
  {
    reg.Register(p, name, cb);
  }

  /** `RemovePlugin(name, p)`. */
  method RemovePlugin(reg: Registry, name: string, p: OpType)
    modifies reg
    ensures forall q :: reg.Entries(q) == if q == p then RemoveFirst(old(reg.Entries(p)), name) else old(reg.Entries(q))
  {
    reg.Remove(p, name);
  }

  /** `PluginConfig`; `validate` is the optional replacement validator. */
  datatype PluginConfig = PluginConfig(
    enableDefaultFieldHook: bool, enableModelHook: bool, enableValidationHook: bool,
    validate: Option<Validator.Checker>)

  predicate Distinct(phases: seq<OpType>)
  {
    forall i, j :: 0 <= i < j < |phases| ==> phases[i] != phases[j]
  }

  /**
   * One of InitPlugin's loops: registers under each phase, in order, the
   * closure built for that phase (`mk(typ)` is the closure capturing the
   * per-iteration copy `typ`).
   */
  method RegisterEach(reg: Registry, name: string, phases: seq<OpType>, mk: OpType -> Callback)
    requires Distinct(phases)
    modifies reg
    ensures forall q :: reg.Entries(q) == old(reg.Entries(q)) + Part(name, mk, phases, q)
  {
    for i := 0 to |phases|
      invariant forall q :: reg.Entries(q) == old(reg.Entries(q)) + Part(name, mk, phases[..i], q)
    {
      var typ := phases[i];
      assert typ !in phases[..i];
      assert phases[..i + 1] == phases[..i] + [typ];
      RegisterPlugin(reg, name, mk(typ), typ);
      forall q
        ensures reg.Entries(q) == old(reg.Entries(q)) + Part(name, mk, phases[..i + 1], q)
      {
        PartStep(name, mk, phases[..i], typ, q);
      }
    }
    assert phases[..|phases|] == phases;
  }

  /** What registering `name` under each of `ps` adds under phase `q`. */
  function Part(name: string, mk: OpType -> Callback, ps: seq<OpType>, q: OpType): seq<Entry>
  {
    if q in ps then [Entry(name, mk(q))] else []
  }

  /** One more phase, not yet among `ps`, adds its closure under itself only. */
  lemma PartStep(name: string, mk: OpType -> Callback, ps: seq<OpType>, typ: OpType, q: OpType)
    requires typ !in ps
    ensures Part(name, mk, ps + [typ], q) == if q == typ then Part(name, mk, ps, q) + [Entry(name, mk(typ))] else Part(name, mk, ps, q)
  {
    assert q in ps + [typ] <==> q in ps || q == typ;
  }

  /**
   * What InitPlugin appends under phase `q`: the default-field hook, then
   * the model hook, then the validation hook, each when enabled and when `q`
   * is one of its phases.
   */
  function Added(config: PluginConfig, dispatch: (View, OpType) -> Outcome, q: OpType): seq<Entry>
  {
    FieldPart(config, q) + ModelPart(config, dispatch, q) + ValidationPart(config, q)
  }

  function FieldPart(config: PluginConfig, q: OpType): seq<Entry>
  {
    if config.enableDefaultFieldHook && q in DefaultFieldPhases then [Entry(DefaultFieldName, DefaultField(q))] else []
  }

  function ModelPart(config: PluginConfig, dispatch: (View, OpType) -> Outcome, q: OpType): seq<Entry>
  {
    if config.enableModelHook && q in ModelPhases then [Entry(ModelName, ModelHook(q, dispatch))] else []
  }

  function ValidationPart(config: PluginConfig, q: OpType): seq<Entry>
  {
    if config.enableValidationHook && q in ValidationPhases then [Entry(ValidationName, Validation(q))] else []
  }

  /** The model hook's list names every phase. */
  lemma EveryPhase(q: OpType)
    ensures q in ModelPhases
  {
    match q {
      case BeforeInsert => assert ModelPhases[0] == q;
      case AfterInsert => assert ModelPhases[1] == q;
      case BeforeDelete => assert ModelPhases[2] == q;
      case AfterDelete => assert ModelPhases[3] == q;
      case BeforeUpdate => assert ModelPhases[4] == q;
      case AfterUpdate => assert ModelPhases[5] == q;
      case BeforeUpsert => assert ModelPhases[6] == q;
      case AfterUpsert => assert ModelPhases[7] == q;
      case BeforeFind => assert ModelPhases[8] == q;
      case AfterFind => assert ModelPhases[9] == q;
    }
  }

  /**
   * `InitPlugin`. `dispatch` stands for the model-hook dispatcher
   * (`model.Execute`). The validator is replaced first, and only when the
   * validation hook is enabled and a validator is given.
   */
  method InitPlugin(reg: Registry, config: PluginConfig, dispatch: (View, OpType) -> Outcome)
    modifies reg, reg.validator
    ensures forall q :: reg.Entries(q) == old(reg.Entries(q)) + Added(config, dispatch, q)
    ensures reg.validator.validate ==
      if config.enableValidationHook && config.validate.Some? then config.validate.value else old(reg.validator.validate)
  {
    ghost var start := reg.entries;
    var mkField, mkModel, mkValidation := q => DefaultField(q), q => ModelHook(q, dispatch), q => Validation(q);
    if config.enableDefaultFieldHook {
      RegisterEach(reg, DefaultFieldName, DefaultFieldPhases, mkField);
    }
    ghost var afterField := reg.entries;
    FieldStage(config, mkField, start, afterField);
    if config.enableModelHook {
      RegisterEach(reg, ModelName, ModelPhases, mkModel);
    }
    ghost var afterModel := reg.entries;
    ModelStage(config, dispatch, mkModel, afterField, afterModel);
    if config.enableValidationHook {
      reg.validator.SetValidate(config.validate);
      RegisterEach(reg, ValidationName, ValidationPhases, mkValidation);
    }
    ValidationStage(config, mkValidation, afterModel, reg.entries);
    Stages(config, dispatch, start, afterField, afterModel, reg.entries);
  }

  lemma FieldStage(config: PluginConfig, mk: OpType -> Callback, before: map<OpType, seq<Entry>>, after: map<OpType, seq<Entry>>)
    requires forall q :: mk(q) == DefaultField(q)
    requires config.enableDefaultFieldHook ==>
      forall q :: EntriesOf(after, q) == EntriesOf(before, q) + Part(DefaultFieldName, mk, DefaultFieldPhases, q)
    requires !config.enableDefaultFieldHook ==> after == before
    ensures forall q :: EntriesOf(after, q) == EntriesOf(before, q) + FieldPart(config, q)
  {
  }

  lemma ModelStage(config: PluginConfig, dispatch: (View, OpType) -> Outcome, mk: OpType -> Callback, before: map<OpType, seq<Entry>>, after: map<OpType, seq<Entry>>)
    requires forall q :: mk(q) == ModelHook(q, dispatch)
    requires config.enableModelHook ==>
      forall q :: EntriesOf(after, q) == EntriesOf(before, q) + Part(ModelName, mk, ModelPhases, q)
    requires !config.enableModelHook ==> after == before
    ensures forall q :: EntriesOf(after, q) == EntriesOf(before, q) + ModelPart(config, dispatch, q)
  {
  }

  lemma ValidationStage(config: PluginConfig, mk: OpType -> Callback, before: map<OpType, seq<Entry>>, after: map<OpType, seq<Entry>>)
    requires forall q :: mk(q) == Validation(q)
    requires config.enableValidationHook ==>
      forall q :: EntriesOf(after, q) == EntriesOf(before, q) + Part(ValidationName, mk, ValidationPhases, q)
    requires !config.enableValidationHook ==> after == before
    ensures forall q :: EntriesOf(after, q) == EntriesOf(before, q) + ValidationPart(config, q)
  {
  }

  lemma Stages(config: PluginConfig, dispatch: (View, OpType) -> Outcome, e0: map<OpType, seq<Entry>>, e1: map<OpType, seq<Entry>>, e2: map<OpType, seq<Entry>>, e3: map<OpType, seq<Entry>>)
    requires forall q :: EntriesOf(e1, q) == EntriesOf(e0, q) + FieldPart(config, q)
    requires forall q :: EntriesOf(e2, q) == EntriesOf(e1, q) + ModelPart(config, dispatch, q)
    requires forall q :: EntriesOf(e3, q) == EntriesOf(e2, q) + ValidationPart(config, q)
    ensures forall q :: EntriesOf(e3, q) == EntriesOf(e0, q) + Added(config, dispatch, q)
  {
    forall q
      ensures EntriesOf(e3, q) == EntriesOf(e0, q) + Added(config, dispatch, q)
    {
      assert EntriesOf(e3, q) == EntriesOf(e0, q) + FieldPart(config, q) + ModelPart(config, dispatch, q) + ValidationPart(config, q);
    }
  }

  /** With every flag off nothing is registered. */
  lemma AllFlagsOff(config: PluginConfig, dispatch: (View, OpType) -> Outcome, q: OpType)
    requires !config.enableDefaultFieldHook && !config.enableModelHook && !config.enableValidationHook
    ensures Added(config, dispatch, q) == []
  {
  }

  predicate Registers(es: seq<Entry>, name: string)
  {
    exists i :: 0 <= i < |es| && es[i].name == name
  }

  /** The three built-in names differ. */
  lemma BuiltInNamesDiffer()
    ensures DefaultFieldName != ModelName && DefaultFieldName != ValidationName && ModelName != ValidationName
  {
    assert DefaultFieldName[7] == 'd' && ModelName[7] == 'm' && ValidationName[7] == 'v';
  }

  /** A name occurs in a concatenation exactly when it occurs in one of the two parts. */
  lemma RegistersConcat(a: seq<Entry>, b: seq<Entry>, name: string)
    ensures Registers(a + b, name) <==> Registers(a, name) || Registers(b, name)
  {
    if Registers(a + b, name) {
      var i :| 0 <= i < |a + b| && (a + b)[i].name == name;
      if i >= |a| {
        assert b[i - |a|].name == name;
      }
    }
    if Registers(a, name) {
      var i :| 0 <= i < |a| && a[i].name == name;
      assert (a + b)[i].name == name;
    }
    if Registers(b, name) {
      var i :| 0 <= i < |b| && b[i].name == name;
      assert (a + b)[|a| + i].name == name;
    }
  }

  /** A part of at most one entry under `own` registers `name` exactly when it is non-empty and the names agree. */
  lemma RegistersSingle(part: seq<Entry>, own: string, name: string)
    requires part == [] || (|part| == 1 && part[0].name == own)
    ensures Registers(part, name) <==> part != [] && own == name
  {
    if part != [] && own == name {
      assert part[0].name == name;
    }
  }

  /** Under phase `q`, the name occurs in what InitPlugin appends exactly when its own part adds it. */
  lemma RegistersPart(config: PluginConfig, dispatch: (View, OpType) -> Outcome, q: OpType)
    ensures Registers(Added(config, dispatch, q), DefaultFieldName) <==> FieldPart(config, q) != []
    ensures Registers(Added(config, dispatch, q), ModelName) <==> ModelPart(config, dispatch, q) != []
    ensures Registers(Added(config, dispatch, q), ValidationName) <==> ValidationPart(config, q) != []
  {
    BuiltInNamesDiffer();
    var f, m, v := FieldPart(config, q), ModelPart(config, dispatch, q), ValidationPart(config, q);
    forall name | name in {DefaultFieldName, ModelName, ValidationName}
      ensures Registers(f + m + v, name) <==>
        (f != [] && DefaultFieldName == name) || (m != [] && ModelName == name) || (v != [] && ValidationName == name)
    {
      RegistersConcat(f + m, v, name);
      RegistersConcat(f, m, name);
      RegistersSingle(f, DefaultFieldName, name);
      RegistersSingle(m, ModelName, name);
      RegistersSingle(v, ValidationName, name);
    }
  }

  /**
   * Each hook is registered exactly under its own phases: the default-field
   * hook under before-insert, before-update and before-upsert, the model hook
   * under all ten, the validation hook under before-insert and before-upsert.
   */
  lemma PhasesOfEachHook(config: PluginConfig, dispatch: (View, OpType) -> Outcome, q: OpType)
    ensures Registers(Added(config, dispatch, q), DefaultFieldName)
      <==> config.enableDefaultFieldHook && (q == BeforeInsert || q == BeforeUpdate || q == BeforeUpsert)
    ensures Registers(Added(config, dispatch, q), ModelName) <==> config.enableModelHook
    ensures Registers(Added(config, dispatch, q), ValidationName)
      <==> config.enableValidationHook && (q == BeforeInsert || q == BeforeUpsert)
  {
    RegistersPart(config, dispatch, q);
    EveryPhase(q);
    PartPhases(q);
  }

  /** Membership in the two short phase lists, written out. */
  lemma PartPhases(q: OpType)
    ensures q in DefaultFieldPhases <==> q == BeforeInsert || q == BeforeUpdate || q == BeforeUpsert
    ensures q in ValidationPhases <==> q == BeforeInsert || q == BeforeUpsert
  {
    assert DefaultFieldPhases[0] == BeforeInsert && DefaultFieldPhases[1] == BeforeUpdate && DefaultFieldPhases[2] == BeforeUpsert;
    assert ValidationPhases[0] == BeforeInsert && ValidationPhases[1] == BeforeUpsert;
  }

  /** Every closure InitPlugin registers under `q` forwards `q` itself. */
  lemma ClosuresForwardTheirPhase(config: PluginConfig, dispatch: (View, OpType) -> Outcome, q: OpType)
    ensures forall i :: 0 <= i < |Added(config, dispatch, q)| ==>
      var cb := Added(config, dispatch, q)[i].cb;
      !cb.Plugin? && cb.phase == q
  {
  }

  /** With every flag on, before-insert receives default_field, model and validation, in that order. */
  lemma BeforeInsertOrder(config: PluginConfig, dispatch: (View, OpType) -> Outcome)
    requires config.enableDefaultFieldHook && config.enableModelHook && config.enableValidationHook
    ensures Added(config, dispatch, BeforeInsert) == [
      Entry(DefaultFieldName, DefaultField(BeforeInsert)),
      Entry(ModelName, ModelHook(BeforeInsert, dispatch)),
      Entry(ValidationName, Validation(BeforeInsert))]
  {
  }
}
