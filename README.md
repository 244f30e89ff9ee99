# mongox hook pipeline and expression builders, modelled in Dafny

mongox is a Go layer over the MongoDB driver. This project models two parts of it and proves
properties of the model.

**The operation hook pipeline.**

- The four CRUD wrappers: the finder, creator, updater and deleter.
  - Each builds a global operation context.
  - Each runs the global callbacks registered for its before phase (or phases).
  - It then runs its own before hooks, sends the request to the store, and runs the after phase and its after hooks.
  - The first error stops everything after it.
- The callback registry, which stores named callbacks per phase. Its own source is not part of this model; it is modelled abstractly as follows:
  - `Register` appends;
  - `Remove` deletes the first entry with that name;
  - `Execute` runs the phase's callbacks in order and stops at the first error.
- The plugin wiring (`RegisterPlugin`, `RemovePlugin`, `InitPlugin`), which decides which built-in callbacks go under which of the ten phases.
- The built-in default-field hook. It fills ids and timestamps through a document's capability accessors, and it writes update times into the `$set` / `$setOnInsert` sub-maps of the update expression.
- The built-in validation hook. It picks the payload by phase and stops at the first invalid list element.
- The lazy accessors of `Base`.

**The expression builders.**

- The query, update and aggregation builders, and the aggregation stage builder. Each holds an ordered BSON document and appends to it in place.
- The central rule is merge-or-append:
  - when an entry with the key exists and holds a document, the new elements go inside the first such entry;
  - otherwise a new top-level entry is appended.
- This rule is defined once (`Merge.MergeOrAppend`). Every builder's `tryMergeValue` and every operator method is proved against it.
- The standalone constructors of `bsonx` and of `builder/update/bson_build.go`.

## How the model is built

**Values.**
- Go `any` becomes the `Values.Value` datatype. It covers scalars, `bson.A/D/M`, Go maps, slices, nil variants, and pointers to user documents.
- A user document (`*T`) is a `Values.Document` object whose fields change in place.
- Its type descriptor records which of the two capability interfaces of `hook/types.go` the type implements.
- Reflection is replaced by matching on the `Value` variant.

**Ids and clocks.** Fresh ids and clock readings come from a `Values.Source` counter (`issued`). Each new id or time is the next number.

**The callback registry.** `Callback.Registry` maps each phase to a sequence of named entries. Its `Execute` is proved against the pure `Callback.Run`.

**The hook pipeline's state** is described by a `World`:
- the documents the callbacks can reach;
- the `Source` counter;
- the update expression the callbacks leave in the context.

`Callback.Step` says what one registered callback does to a world: one of the three built-in closures, or a user plugin registered through `RegisterPlugin`, which is a verdict on the context.

**The wrapper methods.**
- Each wrapper is a class with the fields of the Go struct. Setters and hook registration change only their own field.
- Every operation's `ensures` ties the result, the requests sent and the final world to:
  - `Hooks.Global`: the global phase;
  - `Hooks.Handled`: the phase followed by the local hooks;
  - the request functions.
- The store is `Remote.Collection`. It records every request sent, and its answers are functions of the earlier requests. Nothing is left to chance.

**Where parts of the code disagree with each other, the model follows the code as written:**
- callback_test.go:219-324 hands `&Base{}` to the default-field hook as if it were a fixed-name document. But `Base`'s timestamp accessors (base.go:23-35) return `*time.Time`, and the fixed-name capability interface (hook/types.go:9-16) asks for `time.Time`. So `Base` does not have that capability, and the hook never calls its accessors. `BaseModel` models the accessors on their own.
- hook/validator/validator.go:28-29 validates the context's `Replacement` before an upsert. But the updater's `Upsert` (updater/updater.go:165-179) stores `Replacement` and never puts it in a context. The model keeps the field and gives the context a nil replacement, so the validation hook does nothing before an upsert issued through the updater.
- finder/finder.go:97-117: `FindOne`'s local before-hook context carries no update expression; only `FindOneAndUpdate`'s does.

## Model

| member | source | states |
|---|---|---|
| Common.FirstFailureAt | creator/creator.go:59-64 | index of the first failing hook: every earlier one passed, and the one at the index failed |
| Common.FirstFailure | creator/creator.go:59-65 | the handler's local result is Ok exactly when every hook passed; otherwise it is the first failing hook's error, and all hooks before it passed |
| Common.Attempted | creator/creator.go:59-65 | how many hooks ran: all of them, or up to and including the first failure |
| Values.Source.Next | base.go:18 | each fresh id or time is one past the last one issued |
| Values.AccessTouchesOnlyItsSlot | hook/types.go:9-25 | an accessor changes only its own field of the document |
| Values.AccessIssues | hook/types.go:9-25 | after an accessor its field is non-zero and holds either its old value or the one fresh id or time just issued; an id or creation-time accessor on a set field changes nothing |
| Values.Document.Call | hook/types.go:9-25 | calling an accessor updates the document and the counter as `Access` says, and returns the field's new value |
| Values.Targets | hook/field/field.go:17-24 | the documents a payload reaches: the target of a pointer, or the targets of a list's elements; other values reach none |
| Operation.Name | operation/operation_type.go:10-19 | every phase has a non-empty name |
| Operation.NamesDistinct | operation/operation_type.go:10-19 | the ten phase names are pairwise different |
| Operation.OpContext.constructor | operation/operation_type.go:22-31 | a fresh context holds exactly the given document, filter, updates, replacement, options and model hook |
| Callback.Step | callback.go:37-40 | one callback keeps the document set, and every callback but the default-field one leaves the world unchanged (its body runs `Field.FieldSpec`, the validation spec on its phase's payload, or the model hook's verdict) |
| Callback.Run | callback_test.go:29-36 | a phase's callbacks in order, stopping at the first error: it keeps the document set, runs all callbacks on success, and fails when it stops early |
| Callback.RemoveFirst | callback.go:21-23 | removing never lengthens a phase's list |
| Callback.FirstNamed | callback.go:21-23 | the index of the first entry with the name, every earlier entry having another name |
| Callback.RemoveFirstSplits | callback.go:21-23 | removal deletes exactly the first entry with that name, and leaves the list alone when none has it |
| Callback.RemoveUndoesRegister | callback_test.go:29-36 | removing a name registered once, at the end, restores the list as it was before the registration |
| Callback.RunConcat | callback.go:33-68 | running two lists one after the other is the same as running the first and then, if it passed, the second on the world it left |
| Callback.AllSafeConcat | callback.go:33-68 | a concatenation is panic-free exactly when both parts are |
| Callback.RunEmpty | callback_test.go:29-36 | a phase with no callbacks succeeds and changes nothing |
| Callback.RunWithoutFieldHook | callback.go:43-57 | without a default-field callback, a phase leaves the world unchanged |
| Callback.RunKeepsNonMapUpdates | hook/field/strategy.go:48-63 | callbacks never change an update expression that is not a map |
| Callback.RunIgnoresViewUpdates | hook/field/field.go:16 | callbacks read the update expression from the world, not from the context's initial copy |
| Callback.RunFrom | callback_test.go:29-36 | the run from index `i` is one step and then the run from `i + 1` |
| Callback.RemainingStep | callback_test.go:29-36 | one step of the execution loop keeps the rest of the run's result in view |
| Callback.RunPhases | finder/finder.go:65-71 | several phases in order, stopping at the first failing phase; the document set is kept |
| Callback.RunPhasesFrom | finder/finder.go:65-71 | running phases from index `i` is that phase, then the later phases only if it passed |
| Callback.Start | operation/operation_type.go:22-31 | the world before a phase covers exactly the documents the context reaches |
| Callback.Registry.constructor | callback_test.go:29-36 | a new registry has no entries |
| Callback.Registry.Register | callback.go:17-19 | the entry goes at the end of its phase's list; no other phase changes |
| Callback.Registry.Remove | callback.go:21-23 | the first entry with the name leaves its phase's list; no other phase changes |
| Callback.Registry.ExecuteEntry | callback.go:37-40 | one callback's effect on the documents, the counter and the update expression is `Step` |
| Callback.Registry.ExecuteAll | callback_test.go:29-36 | the loop over a phase's entries returns the run's error and count and leaves the run's world |
| Callback.Registry.Execute | creator/creator.go:55-58 | `Execute(ctx, opCtx, p)` returns what `Run` gives for the phase's entries on the context's world, and the heap then holds the world `Run` leaves |
| Plugin.RegisterPlugin | callback.go:17-19 | registers the callback at the end of its phase's list and changes no other phase |
| Plugin.RemovePlugin | callback.go:21-23 | removes the first entry with the name from its phase only |
| Plugin.RegisterEach | callback.go:36-41 | registering one closure per phase over distinct phases adds exactly one entry to each of those phases and none elsewhere |
| Plugin.PartStep | callback.go:36-41 | one more loop iteration adds one entry, under its own phase |
| Plugin.EveryPhase | callback.go:44-50 | the model hook's phase list holds every phase |
| Plugin.InitPlugin | callback.go:33-68 | each phase's list grows by exactly `Added(config, q)`, in the order default field, model, validation; the validator is replaced only when validation is enabled and a non-nil validator is given |
| Plugin.FieldStage | callback.go:34-42 | the default-field block adds its part, or nothing when the flag is off |
| Plugin.ModelStage | callback.go:43-57 | the model block adds its part, or nothing when the flag is off |
| Plugin.ValidationStage | callback.go:58-67 | the validation block adds its part, or nothing when the flag is off |
| Plugin.Stages | callback.go:33-68 | the three blocks together add the three parts in order |
| Plugin.AllFlagsOff | callback.go:33-68 | with every flag off nothing is registered |
| Plugin.BuiltInNamesDiffer | callback.go:38-63 | the three built-in names are pairwise different |
| Plugin.RegistersConcat | callback.go:33-68 | a name is registered in a concatenation exactly when it is in one of the parts |
| Plugin.RegistersSingle | callback.go:33-68 | a part of at most one entry registers exactly its own name |
| Plugin.RegistersPart | callback.go:33-68 | each built-in name is registered under a phase exactly when its own block added to that phase |
| Plugin.PhasesOfEachHook | callback.go:34-67 | default field is registered under exactly before-insert, before-update and before-upsert; model under every phase; validation under exactly before-insert and before-upsert; each only when its flag is on |
| Plugin.PartPhases | callback.go:35-60 | membership of the default-field and validation phase lists, both directions |
| Plugin.ClosuresForwardTheirPhase | callback.go:37-65 | every built-in closure registered under phase `q` runs for phase `q` |
| Plugin.BeforeInsertOrder | callback.go:33-68 | with all flags on, before-insert holds default field, model and validation, in that order |
| Field.StrategyPhases | hook/field/strategy.go:16-20 | a phase has a strategy exactly when it is before-insert, before-update or before-upsert |
| Field.GetFieldNames | hook/field/strategy.go:134-159 | an unknown selector gives `("", nil)` and changes nothing; the fixed-name capability wins and gives `_id` / `created_at` / `updated_at`; otherwise the caller-named accessor gives the name; a selected field comes back non-zero and the other fields stay |
| Field.GetField | hook/field/strategy.go:134-159 | calls the selected accessor on the document and returns the field `getField` reports |
| Field.Ensure | hook/field/strategy.go:65-68 | after it the key is in the map |
| Field.UpdateShape | hook/field/strategy.go:48-72 | the update strategy goes ahead only when `opts[0]` is a map whose `$set`, once created, is a map |
| Field.UpsertShape | hook/field/strategy.go:90-123 | the upsert strategy goes ahead only when both `$set` and `$setOnInsert` are, or become, maps; when it stops, the options keep their length |
| Field.StrategySpec | hook/field/strategy.go:22-132 | a strategy keeps the number of options |
| Field.Stopped | hook/field/strategy.go:90-123 | what a strategy that stops early leaves in the options keeps their length |
| Field.ElementStep | hook/field/field.go:40-45 | one element keeps the document set and the number of options |
| Field.Dispatch | hook/field/field.go:40-45 | dispatching by phase keeps the document set and the number of options |
| Field.Walk | hook/field/field.go:30-38 | the list walk keeps the document set and the number of options |
| Field.FieldSpec | hook/field/field.go:10-28 | `Execute` on a payload keeps the document set and the number of options |
| Field.TargetsAreKeys | hook/field/field.go:30-38 | every pointer in a list whose targets are known points to a known document |
| Field.InsertFillsOnce | hook/field/strategy.go:22-37 | before-insert leaves the id and creation time of each capability set, never touches the update times or other fields, and is idempotent |
| Field.UpdateNoOp | hook/field/strategy.go:48-72 | before-update changes nothing when the element has neither capability, or `opts[0]` is missing or not a map, or `$set` is there but not a map |
| Field.UpdateWritesUpdatedAt | hook/field/strategy.go:65-78 | before-update creates `$set` if absent and writes exactly the updated-at key; every other key of the update and of `$set` stays |
| Field.UpdateOnEmptyMap | callback_test.go:277-281 | on an empty update map a fixed-name document gives `{$set: {updated_at: now}}` |
| Field.UpsertShapeFailures | hook/field/strategy.go:111-123 | a non-map `$set` stops before `$setOnInsert` is created; a non-map `$setOnInsert` leaves at most a freshly created empty `$set` |
| Field.UpsertAccessors | hook/field/strategy.go:125-157 | the three accessors give the fixed names `_id`, `created_at`, `updated_at` on a fixed-name document and the type's custom names otherwise; all three values are non-zero, at most three fresh values are issued, and a fixed-name document holds the values written |
| Field.UpsertShapeGoes | hook/field/strategy.go:98-123 | when the first option is a map and `$set` and `$setOnInsert` are each absent, nil or a map, the shape checks pass; each section is created empty when absent or nil and kept otherwise, and no other key changes |
| Field.UpsertWritesFields | hook/field/strategy.go:107-129 | for every capable document and map-shaped update: `$set` gains exactly the updated-at key and `$setOnInsert` exactly the id and created-at keys, every other key of both sections and of the update stays, and the later options are unchanged |
| Field.UpsertWrittenValues | hook/field/strategy.go:125-129 | for every capable document and map-shaped update, the written updated-at, id and created-at values are non-zero, at most three fresh values are issued, and a fixed-name document holds exactly the values written |
| Field.UpsertOnEmptyMap | callback_test.go:316-324 | on an empty update map a fixed-name document gets updated-at in `$set` and id plus created-at in `$setOnInsert`, with the document holding the same values |
| Field.NoStrategyNoChange | hook/field/field.go:40-45 | a phase without a strategy changes nothing |
| Field.WalkWithoutStrategy | hook/field/field.go:30-45 | a list is left unchanged by a phase without a strategy |
| Field.InsertKeepsOptions | hook/field/strategy.go:22-37 | before-insert never changes the update expression |
| Field.WalkInsertKeepsOptions | hook/field/strategy.go:22-37 | no element of a list changes the options under before-insert |
| Field.WalkSnoc | hook/field/field.go:30-38 | the walk over `items + [v]` is the walk over `items` followed by `v`: elements go in index order |
| Field.NonMapUpdatesKept | hook/field/strategy.go:56-63 | a non-map update expression is never changed |
| Field.WalkKeepsNonMap | hook/field/strategy.go:56-63 | no element of a list changes a non-map update expression |
| Field.BeforeInsert | hook/field/strategy.go:22-37 | for any argument other than a nil pointer to a capable type (on which Go panics): never fails, leaves the options alone, and updates the pointed-to document and the counter as `InsertSpec` says |
| Field.BeforeUpdate | hook/field/strategy.go:39-79 | never fails; on a document the result is `UpdateSpec`; a capable nil pointer stops once the shape has been checked |
| Field.BeforeUpsert | hook/field/strategy.go:81-132 | never fails; on a document the result is `UpsertSpec`; a capable nil pointer stops once the shape has been checked |
| Field.ExecuteOne | hook/field/field.go:40-45 | `execute` runs the phase's strategy, if any, as `Dispatch` says |
| Field.RunStrategy | hook/field/strategy.go:16-20 | calls the strategy the table names, as `ElementStep` says |
| Field.ExecuteSlice | hook/field/field.go:30-38 | the loop over a list matches `Walk`, element by element in index order |
| Field.Execute | hook/field/field.go:10-28 | `Execute` on the context matches `FieldSpec` on `[Updates, Replacement, MongoOptions] + opts`, and writes the update expression back |
| Field.ExecutePayload | hook/field/field.go:12-27 | nil, nil pointer and non-list non-pointer payloads are no-ops; lists and pointers follow `FieldSpec` |
| Validator.Settings.constructor | hook/validator/validator.go:13 | the validator starts as the given one |
| Validator.Settings.SetValidate | hook/validator/validator.go:15-19 | a nil argument keeps the current validator; any other replaces it |
| Validator.GetPayload | hook/validator/validator.go:21-33 | the payload reaches only documents the context reaches |
| Validator.Verdicts | hook/validator/validator.go:55-63 | one verdict per list element, in order |
| Validator.VisitedCovered | hook/validator/validator.go:40-52 | every element visited is known in the document map |
| Validator.ExecuteOne | hook/validator/validator.go:65-81 | one element's verdict: the validator's own result for a struct, nil otherwise |
| Validator.ExecuteSlice | hook/validator/validator.go:55-63 | the first failing verdict, with the later elements never validated |
| Validator.Execute | hook/validator/validator.go:35-53 | the result is the validation spec on the payload `getPayload` picks |
| Validator.ValidatePayload | hook/validator/validator.go:37-52 | the shape switch: no payload, a nil pointer or any other shape gives nil; lists go through `executeSlice` and pointers through `execute` |
| Validator.OtherPhasesValidateNothing | hook/validator/validator.go:25-32 | phases other than before-insert and before-upsert validate nothing |
| Validator.PointerValidation | hook/validator/validator.go:45-49 | a pointer to a struct gives exactly the validator's result; a pointer to a time or another kind, and a nil pointer, give nil |
| Validator.BoxedNeverValidated | hook/validator/validator.go:73-80 | elements of a `[]any` are never structs, so nothing fails, though every element is visited |
| Validator.SliceValidation | hook/validator/validator.go:55-63 | on a list of struct pointers the result is Ok exactly when every element is valid; otherwise it is the first invalid element's error, with every earlier one valid |
| Hooks.PtrTo | creator/creator.go:82-84 | a `*T` is the pointer to the document, or a nil pointer |
| Hooks.Ptrs | creator/creator.go:102-104 | a `[]*T` keeps its length, and each non-nil element is reachable |
| Hooks.SharedUpdates | finder/finder.go:172-178 | a bson.M update expression is shared with the context; any other value is copied |
| Hooks.Verdicts | creator/creator.go:59-64 | the local hooks' verdicts, one per hook |
| Hooks.RunLocal | creator/creator.go:59-65 | the local loop returns the first failing hook's error and runs exactly the hooks up to it |
| Hooks.Global | creator/creator.go:55-58 | the global phase keeps the document set |
| Hooks.Handled | creator/creator.go:54-66 | local hooks never change the world |
| Hooks.HandlerOrder | creator/creator.go:54-66 | a global failure is the result and no local hook runs; otherwise Ok exactly when every hook passes, and a failure is the first failing hook's error |
| Hooks.SinglePhase | creator/creator.go:55 | a run of one phase is that phase's callbacks |
| Hooks.TwoPhases | finder/finder.go:173 | two phases: the second runs only if the first passed, on the world it left |
| Hooks.ExecutePhase | creator/creator.go:55-58 | one global phase on the context is `Global` on its world |
| Hooks.ExecutePhases | finder/finder.go:65-71 | the phases in argument order, stopping at the first error, as `RunPhases` says |
| Remote.Encoded | creator/creator.go:89 | what the driver encodes: nothing exactly for a nil document |
| Remote.EncodedAll | creator/creator.go:109 | one encoding per element, in order |
| Remote.EncodeAll | creator/creator.go:109 | the loop over the documents gives `EncodedAll` |
| Remote.Collection.constructor | collection.go:12-14 | a fresh store with no requests sent |
| Remote.Collection.Write | creator/creator.go:89-92 | the request is recorded and the answer is the store's answer to it |
| Remote.Collection.FetchOne | finder/finder.go:106-109 | the query is recorded and answered by the store |
| Remote.Collection.FetchAll | finder/finder.go:128-136 | the query is recorded and answered by the store |
| Creator.Payload | creator/creator.go:83-103 | the global context's `Doc`: the `*T` for InsertOne, the `[]*T` for InsertMany |
| Creator.InsertRequest | creator/creator.go:89-109 | the insert request carries the documents as the before phase left them |
| Creator.EncodeInsert | creator/creator.go:89-109 | building the request gives `InsertRequest` |
| Creator.Creator.constructor | creator/creator.go:30-34 | a new creator has no model hook and no hooks |
| Creator.Creator.ModelHook | creator/creator.go:36-39 | sets only the model hook and returns the same creator |
| Creator.Creator.RegisterBeforeHooks | creator/creator.go:44-47 | appends at the end, keeps earlier hooks in order, changes nothing else |
| Creator.Creator.RegisterAfterHooks | creator/creator.go:49-52 | appends at the end, keeps earlier hooks in order, changes nothing else |
| Creator.Creator.PreActionHandler | creator/creator.go:54-66 | the global phase then the before hooks, as `Handled(Global(...))` says |
| Creator.Creator.PostActionHandler | creator/creator.go:68-80 | the global phase then the after hooks, as `Handled(Global(...))` says |
| Creator.Creator.SendAndFinish | creator/creator.go:89-99 | exactly one request; a driver error is the result; otherwise the after handler, whose error replaces the result |
| Creator.Creator.Perform | creator/creator.go:82-99 | the before handler; on its error nothing is sent; otherwise as SendAndFinish, on the same context |
| Creator.Creator.InsertOne | creator/creator.go:82-100 | a before error means no insert and `(nil, err)`; a driver error is returned; an after error gives `(nil, err)` though the insert ran; the after phase sees what the before phase left; the local context holds `Doc` |
| Creator.Creator.InsertMany | creator/creator.go:102-119 | as InsertOne with the `[]*T` as `Doc` of the global context and `Docs` of the local one |
| Deleter.DeleteRequest | deleter/deleter.go:89-109 | DeleteOne or DeleteMany with the deleter's filter and options |
| Deleter.DeleteView | deleter/deleter.go:83-103 | the global context has no `Doc`, updates or replacement, and reaches no document |
| Deleter.Deleter.constructor | deleter/deleter.go:21-23 | a nil filter, no model hook, no hooks |
| Deleter.Deleter.RegisterBeforeHooks | deleter/deleter.go:33-36 | appends at the end; nothing else changes |
| Deleter.Deleter.RegisterAfterHooks | deleter/deleter.go:38-41 | appends at the end; nothing else changes |
| Deleter.Deleter.Filter | deleter/deleter.go:72-75 | sets only the filter and returns the same deleter |
| Deleter.Deleter.ModelHook | deleter/deleter.go:77-80 | sets only the model hook and returns the same deleter |
| Deleter.Deleter.PreActionHandler | deleter/deleter.go:43-55 | the global phase then the before hooks, as `Handled(Global(...))` says |
| Deleter.Deleter.PostActionHandler | deleter/deleter.go:57-69 | the global phase then the after hooks, as `Handled(Global(...))` says |
| Deleter.Deleter.SendAndFinish | deleter/deleter.go:89-99 | exactly one request; a driver error is the result; otherwise the after handler on the same context |
| Deleter.Deleter.Delete | deleter/deleter.go:82-120 | a before error means no delete and `(nil, err)`; an after error gives `(nil, err)` though the delete ran |
| Deleter.Deleter.DeleteOne | deleter/deleter.go:82-100 | Delete with before-delete and after-delete and a DeleteOne request |
| Deleter.Deleter.DeleteMany | deleter/deleter.go:102-120 | Delete with before-delete and after-delete and a DeleteMany request |
| Finder.BeforePhases | finder/finder.go:101-173 | before-find for FindOne; before-find then before-update for FindOneAndUpdate |
| Finder.AfterPhases | finder/finder.go:111-183 | after-find for FindOne; after-find then after-update for FindOneAndUpdate |
| Finder.SingleRequest | finder/finder.go:106-178 | FindOne sends the filter; FindOneAndUpdate sends the filter and the update expression |
| Finder.Decoded | finder/finder.go:106 | decoding into the document replaces its fields and nothing else |
| Finder.ListingSafe | finder/finder.go:138-139 | no callback panics on the fetched slice |
| Finder.Fetched | finder/finder.go:133 | the fetched documents hold exactly the fetched fields |
| Finder.Listing | finder/finder.go:138 | the `[]*T` placed in the context's `Doc` reaches exactly the fetched documents |
| Finder.Materialize | finder/finder.go:133 | `cursor.All` yields distinct new documents, one per result, each holding its result's fields |
| Finder.Finder.constructor | finder/finder.go:21-23 | an empty filter document, no update expression, no model hook, no hooks |
| Finder.Finder.RegisterBeforeHooks | finder/finder.go:36-39 | appends at the end; nothing else changes |
| Finder.Finder.RegisterAfterHooks | finder/finder.go:44-47 | appends at the end; nothing else changes |
| Finder.Finder.Filter | finder/finder.go:50-53 | sets only the filter and returns the same finder |
| Finder.Finder.Updates | finder/finder.go:55-58 | sets only the update expression and returns the same finder |
| Finder.Finder.ModelHook | finder/finder.go:60-63 | sets only the model hook and returns the same finder |
| Finder.Finder.PreActionHandler | finder/finder.go:65-79 | the phases in argument order, then the before hooks, stopping at the first error |
| Finder.Finder.PostActionHandler | finder/finder.go:81-95 | the phases in argument order, then the after hooks, stopping at the first error |
| Finder.Finder.FinishSingle | finder/finder.go:106-116 | one query; a driver error is the result; otherwise the document holds what was found and the after handler's error replaces it |
| Finder.Finder.PerformSingle | finder/finder.go:100-116 | the before handler; on its error nothing is sent; otherwise FinishSingle with the update expression as the callbacks left it |
| Finder.Finder.FindOne | finder/finder.go:97-117 | a before-find error means no query and `(nil, err)`; a driver error is returned; an after-find error gives `(nil, err)` though the query ran; otherwise the fresh document, filled |
| Finder.Finder.FindOneAndUpdate | finder/finder.go:169-189 | as FindOne but with before-find then before-update, after-find then after-update, the update expression in both contexts and in the request; a bson.M update expression ends as the callbacks left it |
| Finder.Finder.QueryAndUpdate | finder/finder.go:170-188 | FindOneAndUpdate up to writing the update expression back |
| Finder.Finder.FinishFind | finder/finder.go:128-144 | one query; a driver error is the result; otherwise the documents go into the context's `Doc` before after-find, whose error replaces them |
| Finder.Finder.PerformFind | finder/finder.go:122-144 | the before handler; on its error nothing is sent; otherwise FinishFind |
| Finder.Finder.Find | finder/finder.go:119-145 | no `Doc` during before-find; a before error means no query; a driver error is returned; the fetched documents are distinct, new and in the context for after-find; an after error replaces them |
| Updater.NormalisedProperties | updater/updater.go:102-105 | a bson.M is kept; a non-empty Go map becomes its bson.M; an empty or nil conversion keeps the original |
| Updater.BeforePhase | updater/updater.go:108-168 | before-upsert for Upsert, before-update otherwise |
| Updater.AfterPhase | updater/updater.go:118-178 | after-upsert for Upsert, after-update otherwise |
| Updater.UpdateRequest | updater/updater.go:113-173 | UpdateMany for UpdateMany; UpdateOne for UpdateOne and Upsert |
| Updater.UpsertOptions | updater/updater.go:150-151 | with no options, exactly one option forcing upsert; otherwise the options as given |
| Updater.Updater.constructor | updater/updater.go:25-27 | nil filter, updates, replacement and model hook; no hooks |
| Updater.Updater.Filter | updater/updater.go:42-45 | sets only the filter and returns the same updater |
| Updater.Updater.Updates | updater/updater.go:48-51 | sets only the update expression and returns the same updater |
| Updater.Updater.Replacement | updater/updater.go:53-56 | sets only the replacement and returns the same updater |
| Updater.Updater.ModelHook | updater/updater.go:58-61 | sets only the model hook and returns the same updater |
| Updater.Updater.RegisterBeforeHooks | updater/updater.go:63-66 | appends at the end; nothing else changes |
| Updater.Updater.RegisterAfterHooks | updater/updater.go:68-71 | appends at the end; nothing else changes |
| Updater.Updater.Normalise | updater/updater.go:102-105 | replaces only the update expression, by its normal form |
| Updater.Updater.PreActionHandler | updater/updater.go:73-85 | the global phase then the before hooks, as `Handled(Global(...))` says |
| Updater.Updater.PostActionHandler | updater/updater.go:87-99 | the global phase then the after hooks, as `Handled(Global(...))` says |
| Updater.Updater.SendAndFinish | updater/updater.go:113-122 | exactly one request; a driver error is the result; otherwise the after handler on the same context |
| Updater.Updater.Perform | updater/updater.go:107-122 | the before handler; on its error nothing is sent; otherwise the request carries the update expression as the callbacks left it in a bson.M |
| Updater.Updater.Operate | updater/updater.go:107-122 | the fresh zero `T` as the context's `Doc`; the updater's own bson.M update expression ends as the callbacks left it |
| Updater.Updater.Update | updater/updater.go:101-183 | normalisation, then the operation, with the phases of its kind |
| Updater.Updater.UpdateOne | updater/updater.go:101-123 | before-update; on its error no update and `(nil, err)`; a driver error is returned; after-update's error gives `(nil, err)` though the update ran |
| Updater.Updater.UpdateMany | updater/updater.go:125-147 | as UpdateOne with an UpdateMany request |
| Updater.Updater.Upsert | updater/updater.go:149-183 | as UpdateOne with before-upsert and after-upsert, and the upsert option when none was given |
| BaseModel.Base.constructor | base.go:9-14 | a Base holding the given fields |
| BaseModel.Base.DefaultId | base.go:16-21 | the result and the new state are `DefaultIdSpec` |
| BaseModel.Base.DefaultCreatedAt | base.go:23-29 | the result and the new state are `DefaultCreatedAtSpec` |
| BaseModel.Base.DefaultUpdatedAt | base.go:31-35 | the result and the new state are `DefaultUpdatedAtSpec` |
| BaseModel.DefaultIdProperties | base.go:16-21 | the id returned is the stored one and is non-zero; a non-zero id is unchanged and nothing is issued; a zero id takes a fresh one; no other field changes; a second call changes nothing |
| BaseModel.DefaultCreatedAtProperties | base.go:23-29 | a set creation time is kept; a nil or zero one takes the current time; no other field changes; a second call changes nothing |
| BaseModel.DefaultUpdatedAtProperties | base.go:31-35 | the update time is always replaced with a fresh time, different from the old one; no other field changes |
| Bsonx.M | bsonx/bsonx.go:9-11 | a one-key map holding the value |
| Bsonx.E | bsonx/bsonx.go:13-15 | an element with the key and value |
| Bsonx.A | bsonx/bsonx.go:17-23 | a bson.A with the values in order |
| Bsonx.D | bsonx/bsonx.go:25-27 | a one-element document |
| Bsonx.Id | bsonx/bsonx.go:29-31 | `{_id: value}` |
| Bsonx.MapToBsonM | bsonx/bsonx.go:56-62 | the copy has the same keys and values |
| Bsonx.ToBsonM | bsonx/bsonx.go:33-54 | a bson.M is returned as is; a bson.D goes through the document conversion; a Go map or non-nil map pointer is copied; anything else gives nil |
| Bsonx.ToBsonMNil | bsonx/bsonx.go:34-36 | nil and a nil bson.M give nil |
| BsonxBuilder.DBuilder.constructor | bsonx/builder.go:10-12 | an empty document |
| BsonxBuilder.DBuilder.Add | bsonx/builder.go:14-17 | appends the element at the end, duplicates kept |
| BsonxBuilder.DBuilder.Build | bsonx/builder.go:19-21 | returns the elements in insertion order |
| Merge.FindFrom | builder/query/query_builder.go:51-61 | the first index from `from` whose key matches and whose value is a document; none when there is no such index |
| Merge.Lookup | builder/query/query_builder.go:51-58 | found exactly when the key is present |
| Merge.LookupAppend | builder/query/query_builder.go:51-58 | a lookup in `a + b` finds `a`'s entry first |
| Merge.NoTargetWithoutKey | builder/query/query_builder.go:59-61 | without the key there is nowhere to merge |
| Merge.TargetIsFirst | builder/query/query_builder.go:52-54 | the merge target is the first matching document entry; a matching non-document entry is skipped |
| Merge.FindFromAgrees | builder/query/query_builder.go:51-58 | the search gives the same index on two documents that agree up to it |
| Merge.MergeOrAppendShape | builder/query/comparison_query_builder.go:11-17 | merging keeps the length and changes only the target entry, whose elements grow at the end; otherwise one entry is appended |
| Merge.TargetAfterMerge | builder/query/comparison_query_builder.go:11-17 | after a merge-or-append the key has a document entry at the old target or at the end |
| Merge.MergeOrAppendAccumulates | builder/update/field_update_builder.go:11-17 | two calls on the same key accumulate, in call order, in one entry |
| Merge.KeysAfterMergeOrAppend | builder/update/field_update_builder.go:11-17 | the top-level keys are unchanged on merge; one key is added at the end otherwise |
| Merge.MergeOrAppendFresh | builder/query/element_query_builder.go:11-17 | on an empty builder the result is `{key: {op: value}}` |
| Merge.MergeSkipsNonDocument | builder/query/query_builder.go:53-54 | when no value is a document, a new entry is appended |
| Query.TextSearch | builder/query/evaluation_query_builder.go:51-64 | `$search` first, then `$language` only if non-empty, then each sensitivity flag only if true |
| Query.TextSearchOptions | builder/query/evaluation_query_builder.go:51-64 | each option of the `$text` document is present exactly when set, with the value given |
| Query.Builder.constructor | builder/query/query_builder.go:7-19 | an empty document |
| Query.Builder.Build | builder/query/query_builder.go:33-35 | the entries in insertion order |
| Query.Builder.Id | builder/query/query_builder.go:38-41 | appends `(_id, v)` at the end |
| Query.Builder.KeyValue | builder/query/query_builder.go:44-47 | always appends, never merges |
| Query.Builder.TryMergeValue | builder/query/query_builder.go:51-62 | true exactly when there is a merge target; then the elements go inside it; otherwise the document is unchanged |
| Query.Builder.Add | builder/query/comparison_query_builder.go:12-15 | merge-or-append on the key |
| Query.Builder.Eq | builder/query/comparison_query_builder.go:11-17 | merge-or-append `($eq, value)` under the key; same builder |
| Query.Builder.Gt | builder/query/comparison_query_builder.go:19-25 | merge-or-append `($gt, value)` |
| Query.Builder.Gte | builder/query/comparison_query_builder.go:27-33 | merge-or-append `($gte, value)` |
| Query.Builder.In | builder/query/comparison_query_builder.go:35-41 | merge-or-append `($in, values)` with the list as given |
| Query.Builder.Lt | builder/query/comparison_query_builder.go:147-153 | merge-or-append `($lt, value)` |
| Query.Builder.Lte | builder/query/comparison_query_builder.go:155-161 | merge-or-append `($lte, value)` |
| Query.Builder.Ne | builder/query/comparison_query_builder.go:163-169 | merge-or-append `($ne, value)` |
| Query.Builder.Nin | builder/query/comparison_query_builder.go:171-177 | merge-or-append `($nin, values)` with the list as given |
| Query.Builder.Exists | builder/query/element_query_builder.go:11-17 | merge-or-append `($exists, b)` |
| Query.Builder.Type | builder/query/element_query_builder.go:19-25 | merge-or-append `($type, t)` |
| Query.Builder.TypeAlias | builder/query/element_query_builder.go:27-33 | merge-or-append `($type, alias)` |
| Query.Builder.TypeArray | builder/query/element_query_builder.go:35-41 | merge-or-append `($type, list)`; a nil list stays nil, an empty one empty |
| Query.Builder.TypeArrayAlias | builder/query/element_query_builder.go:43-49 | merge-or-append `($type, aliases)` with the list as given |
| Query.Builder.Expr | builder/query/evaluation_query_builder.go:12-15 | appends `($expr, d)`; never merges |
| Query.Builder.JsonSchema | builder/query/evaluation_query_builder.go:17-20 | appends `($jsonSchema, value)`; never merges |
| Query.Builder.Mod | builder/query/evaluation_query_builder.go:22-30 | changes the builder only for a numeric divisor, then merge-or-append `($mod, [divisor, remainder])` |
| Query.Builder.Regex | builder/query/evaluation_query_builder.go:32-38 | merge-or-append `($regex, value)` |
| Query.Builder.RegexOptions | builder/query/evaluation_query_builder.go:40-45 | merge-or-append `$regex` then `$options`, in that order |
| Query.Builder.Text | builder/query/evaluation_query_builder.go:51-64 | appends one `$text` entry holding `TextSearch` |
| Query.Builder.Where | builder/query/evaluation_query_builder.go:66-69 | appends `($where, value)`; never merges |
| Query.Builder.And | builder/query/logical_query_builder.go:13-16 | appends `($and, conditions)` |
| Query.Builder.Not | builder/query/logical_query_builder.go:18-21 | appends `($not, condition)`, a single value |
| Query.Builder.Nor | builder/query/logical_query_builder.go:25-28 | appends `($nor, conditions)` |
| Query.Builder.Or | builder/query/logical_query_builder.go:32-35 | appends `($or, conditions)` |
| Query.Builder.Slice | builder/query/projection_query_builder.go:11-17 | merge-or-append `($slice, n)` |
| Query.Builder.SliceRanger | builder/query/projection_query_builder.go:19-25 | merge-or-append `($slice, [start, end])` |
| Update.Blanks | builder/update/field_update_builder.go:19-26 | one `(k, "")` per key, in order |
| Update.BlanksSnoc | builder/update/field_update_builder.go:21-23 | one more key adds one element at the end |
| Update.OperatorsOrderedByFirstUse | builder/update/field_update_builder.go:11-82 | different operators become separate entries ordered by first use, and a repeated operator merges into its own entry |
| Update.Builder.constructor | builder/update/update_builder.go:7-12 | an empty document |
| Update.Builder.KeyValue | builder/update/update_builder.go:21-24 | always appends, never merges |
| Update.Builder.Build | builder/update/update_builder.go:26-28 | the entries in insertion order |
| Update.Builder.TryMergeValue | builder/update/update_builder.go:32-43 | true exactly when there is a merge target; otherwise the document is unchanged |
| Update.Builder.Add | builder/update/field_update_builder.go:12-15 | merge-or-append on the operator |
| Update.Builder.Set | builder/update/field_update_builder.go:11-17 | merge-or-append `(k, v)` under `$set` |
| Update.Builder.Unset | builder/update/field_update_builder.go:19-26 | always appends a new `$unset` entry with one `(k, "")` per key |
| Update.Builder.SetOnInsert | builder/update/field_update_builder.go:28-34 | merge-or-append under `$setOnInsert` |
| Update.Builder.CurrentDate | builder/update/field_update_builder.go:36-42 | merge-or-append under `$currentDate` |
| Update.Builder.Inc | builder/update/field_update_builder.go:44-50 | merge-or-append under `$inc` |
| Update.Builder.Min | builder/update/field_update_builder.go:52-58 | merge-or-append under `$min` |
| Update.Builder.Max | builder/update/field_update_builder.go:60-66 | merge-or-append under `$max` |
| Update.Builder.Mul | builder/update/field_update_builder.go:68-74 | merge-or-append under `$mul` |
| Update.Builder.Rename | builder/update/field_update_builder.go:76-82 | merge-or-append under `$rename` |
| UpdateBson.AddToSet | builder/update/bson_build.go:7-9 | `[($addToSet, [(k, v)])]` |
| UpdateBson.Pop | builder/update/bson_build.go:11-13 | `[($pop, [(k, v)])]` |
| UpdateBson.Pull | builder/update/bson_build.go:15-17 | `[($pull, [(k, v)])]` |
| UpdateBson.Push | builder/update/bson_build.go:19-21 | `[($push, [(k, v)])]` |
| UpdateBson.PullAll | builder/update/bson_build.go:23-25 | `[($pullAll, [(k, vs)])]` with the list as given |
| UpdateBson.Each | builder/update/bson_build.go:27-29 | one `($each, values)` |
| UpdateBson.Position | builder/update/bson_build.go:31-33 | one `($position, value)` |
| UpdateBson.Slice | builder/update/bson_build.go:35-37 | one `($slice, num)` |
| UpdateBson.Sort | builder/update/bson_build.go:39-41 | one `($sort, value)` |
| UpdateBson.Set | builder/update/bson_build.go:43-45 | `[($set, [(k, v)])]` |
| UpdateBson.Unset | builder/update/bson_build.go:47-53 | one `$unset` entry with one `(k, "")` per key, same order and count |
| UpdateBson.SetOnInsert | builder/update/bson_build.go:55-57 | `[($setOnInsert, [(k, v)])]` |
| UpdateBson.CurrentDate | builder/update/bson_build.go:59-61 | `[($currentDate, [(k, v)])]` |
| UpdateBson.Inc | builder/update/bson_build.go:63-65 | `[($inc, [(k, v)])]` |
| UpdateBson.Min | builder/update/bson_build.go:67-69 | `[($min, [(k, v)])]` |
| UpdateBson.Max | builder/update/bson_build.go:71-73 | `[($max, [(k, v)])]` |
| UpdateBson.Mul | builder/update/bson_build.go:75-77 | `[($mul, [(k, v)])]` |
| UpdateBson.Rename | builder/update/bson_build.go:79-81 | `[($rename, [(k, v)])]` |
| UpdateBson.StandaloneMatchesBuilder | builder/update/bson_build.go:43-45 | the standalone `Set` is what the builder's `Set` gives on an empty document, and a later builder `Set` merges into it |
| Aggregation.Branches | builder/aggregation/cond_builder.go:37-47 | one `{case, then}` document per case, in order |
| Aggregation.SwitchDoc | builder/aggregation/cond_builder.go:37-47 | `{branches: [...], default: d}` in that order |
| Aggregation.SwitchBranches | builder/aggregation/cond_builder.go:39-42 | the loop builds `Branches` |
| Aggregation.ContactIsConcat | builder/aggregation/string_builder.go:63-69 | `Contact` stores exactly what `Concat` stores |
| Aggregation.Builder.constructor | builder/aggregation/aggregation_builder.go:7-20 | an empty document |
| Aggregation.Builder.Build | builder/aggregation/aggregation_builder.go:35-37 | the entries in insertion order |
| Aggregation.Builder.KeyValue | builder/aggregation/aggregation_builder.go:39-42 | always appends, never merges |
| Aggregation.Builder.TryMergeValue | builder/aggregation/aggregation_builder.go:46-57 | true exactly when there is a merge target; otherwise the document is unchanged |
| Aggregation.Builder.Add | builder/aggregation/comparison_builder.go:12-15 | merge-or-append on the key |
| Aggregation.Builder.Eq | builder/aggregation/comparison_builder.go:11-17 | merge-or-append `($eq, expressions)`, the list as given |
| Aggregation.Builder.EqWithoutKey | builder/aggregation/comparison_builder.go:19-22 | appends `($eq, expressions)` at top level |
| Aggregation.Builder.Ne | builder/aggregation/comparison_builder.go:24-30 | merge-or-append `($ne, expressions)` |
| Aggregation.Builder.NeWithoutKey | builder/aggregation/comparison_builder.go:32-35 | appends `($ne, expressions)` |
| Aggregation.Builder.Gt | builder/aggregation/comparison_builder.go:37-43 | merge-or-append `($gt, expressions)` |
| Aggregation.Builder.GtWithoutKey | builder/aggregation/comparison_builder.go:45-48 | appends `($gt, expressions)` |
| Aggregation.Builder.Gte | builder/aggregation/comparison_builder.go:50-56 | merge-or-append `($gte, expressions)` |
| Aggregation.Builder.GteWithoutKey | builder/aggregation/comparison_builder.go:58-61 | appends `($gte, expressions)` |
| Aggregation.Builder.Lt | builder/aggregation/comparison_builder.go:63-69 | merge-or-append `($lt, expressions)` |
| Aggregation.Builder.LtWithoutKey | builder/aggregation/comparison_builder.go:71-74 | appends `($lt, expressions)` |
| Aggregation.Builder.Lte | builder/aggregation/comparison_builder.go:76-82 | merge-or-append `($lte, expressions)` |
| Aggregation.Builder.LteWithoutKey | builder/aggregation/comparison_builder.go:84-87 | appends `($lte, expressions)` |
| Aggregation.Builder.IndexOfArray | builder/aggregation/comparison_builder.go:89-95 | merge-or-append `($indexOfArray, [array, field])` |
| Aggregation.Builder.Sum | builder/aggregation/accumulators_builder.go:11-17 | merge-or-append `($sum, expr)` |
| Aggregation.Builder.SumWithoutKey | builder/aggregation/accumulators_builder.go:19-22 | appends `($sum, expr)` |
| Aggregation.Builder.Push | builder/aggregation/accumulators_builder.go:24-30 | merge-or-append `($push, expr)` |
| Aggregation.Builder.PushWithoutKey | builder/aggregation/accumulators_builder.go:32-35 | appends `($push, expr)` |
| Aggregation.Builder.Avg | builder/aggregation/accumulators_builder.go:37-43 | merge-or-append `($avg, expr)` |
| Aggregation.Builder.AvgWithoutKey | builder/aggregation/accumulators_builder.go:45-48 | appends `($avg, expr)` |
| Aggregation.Builder.First | builder/aggregation/accumulators_builder.go:50-56 | merge-or-append `($first, expr)` |
| Aggregation.Builder.FirstWithoutKey | builder/aggregation/accumulators_builder.go:58-61 | appends `($first, expr)` |
| Aggregation.Builder.Last | builder/aggregation/accumulators_builder.go:63-69 | merge-or-append `($last, expr)` |
| Aggregation.Builder.LastWithoutKey | builder/aggregation/accumulators_builder.go:71-74 | appends `($last, expr)` |
| Aggregation.Builder.Min | builder/aggregation/accumulators_builder.go:76-82 | merge-or-append `($min, expr)` |
| Aggregation.Builder.MinWithoutKey | builder/aggregation/accumulators_builder.go:84-87 | appends `($min, expr)` |
| Aggregation.Builder.Max | builder/aggregation/accumulators_builder.go:89-95 | merge-or-append `($max, expr)` |
| Aggregation.Builder.MaxWithoutKey | builder/aggregation/accumulators_builder.go:97-100 | appends `($max, expr)` |
| Aggregation.Builder.And | builder/aggregation/logical_builder.go:11-17 | merge-or-append `($and, expressions)` |
| Aggregation.Builder.AndWithoutKey | builder/aggregation/logical_builder.go:19-22 | appends `($and, expressions)` |
| Aggregation.Builder.Not | builder/aggregation/logical_builder.go:24-30 | merge-or-append `($not, expressions)` |
| Aggregation.Builder.NotWithoutKey | builder/aggregation/logical_builder.go:32-35 | appends `($not, expressions)` |
| Aggregation.Builder.Or | builder/aggregation/logical_builder.go:37-43 | merge-or-append `($or, expressions)` |
| Aggregation.Builder.OrWithoutKey | builder/aggregation/logical_builder.go:45-48 | appends `($or, expressions)` |
| Aggregation.Builder.Concat | builder/aggregation/string_builder.go:11-17 | merge-or-append `($concat, expressions)` |
| Aggregation.Builder.ConcatWithoutKey | builder/aggregation/string_builder.go:19-22 | appends `($concat, expressions)` |
| Aggregation.Builder.SubstrBytes | builder/aggregation/string_builder.go:24-30 | merge-or-append `($substrBytes, [s, index, count])` |
| Aggregation.Builder.SubstrBytesWithoutKey | builder/aggregation/string_builder.go:32-35 | appends `($substrBytes, [s, index, count])` |
| Aggregation.Builder.ToLower | builder/aggregation/string_builder.go:37-43 | merge-or-append `($toLower, expr)` |
| Aggregation.Builder.ToLowerWithoutKey | builder/aggregation/string_builder.go:45-48 | appends `($toLower, expr)` |
| Aggregation.Builder.ToUpper | builder/aggregation/string_builder.go:50-56 | merge-or-append `($toUpper, expr)` |
| Aggregation.Builder.ToUpperWithoutKey | builder/aggregation/string_builder.go:58-61 | appends `($toUpper, expr)` |
| Aggregation.Builder.Contact | builder/aggregation/string_builder.go:63-69 | merge-or-append `($concat, expressions)` |
| Aggregation.Builder.ContactWithoutKey | builder/aggregation/string_builder.go:71-74 | appends `($concat, expressions)` |
| Aggregation.Builder.Cond | builder/aggregation/cond_builder.go:11-17 | merge-or-append `($cond, [if, then, else])` |
| Aggregation.Builder.CondWithoutKey | builder/aggregation/cond_builder.go:19-22 | appends `($cond, [if, then, else])` |
| Aggregation.Builder.IfNull | builder/aggregation/cond_builder.go:24-30 | merge-or-append `($ifNull, [expr, replacement])` |
| Aggregation.Builder.IfNullWithoutKey | builder/aggregation/cond_builder.go:32-35 | appends `($ifNull, [expr, replacement])` |
| Aggregation.Builder.Switch | builder/aggregation/cond_builder.go:37-47 | merge-or-append `($switch, {branches, default})` |
| Aggregation.Builder.SwitchWithoutKey | builder/aggregation/cond_builder.go:49-56 | appends `($switch, {branches, default})` |
| AggregationStage.PipelineValue | builder/aggregation/aggregation_stage_builder.go:150-166 | a pipeline as a list of documents, one per stage, in order |
| AggregationStage.BucketFields | builder/aggregation/aggregation_stage_builder.go:26-41 | `groupBy` and `boundaries` first; nothing else without options |
| AggregationStage.BucketAutoFields | builder/aggregation/aggregation_stage_builder.go:43-58 | `groupBy` and `buckets` first; nothing else without options |
| AggregationStage.BucketFieldKeys | builder/aggregation/aggregation_stage_builder.go:26-41 | the keys in fixed order, `default` and `output` only when set |
| AggregationStage.BucketAutoFieldKeys | builder/aggregation/aggregation_stage_builder.go:43-58 | the keys in fixed order, `output` and `granularity` only when set |
| AggregationStage.UnwindValue | builder/aggregation/aggregation_stage_builder.go:92-106 | the bare path exactly without options; otherwise `path` first, then each option only when set |
| AggregationStage.LookupFields | builder/aggregation/aggregation_stage_builder.go:133-148 | `from` first and `as` last |
| AggregationStage.LookupFieldKeys | builder/aggregation/aggregation_stage_builder.go:133-148 | the keys in fixed order: `localField` and `foreignField` only when both are set, `let` and `pipeline` only when non-empty |
| AggregationStage.LookupFieldValues | builder/aggregation/aggregation_stage_builder.go:133-148 | each optional key holds the value given |
| AggregationStage.UnionWithValue | builder/aggregation/aggregation_stage_builder.go:150-166 | the bare collection name exactly without a pipeline; otherwise `{coll, pipeline}` |
| AggregationStage.StageBuilder.constructor | builder/aggregation/aggregation_stage_builder.go:12-14 | an empty pipeline |
| AggregationStage.StageBuilder.AddFields | builder/aggregation/aggregation_stage_builder.go:16-19 | appends one `$addFields` stage |
| AggregationStage.StageBuilder.Set | builder/aggregation/aggregation_stage_builder.go:21-24 | appends one `$set` stage |
| AggregationStage.StageBuilder.Bucket | builder/aggregation/aggregation_stage_builder.go:26-41 | appends one `$bucket` stage holding `BucketFields` |
| AggregationStage.StageBuilder.BucketAuto | builder/aggregation/aggregation_stage_builder.go:43-58 | appends one `$bucketAuto` stage holding `BucketAutoFields` |
| AggregationStage.StageBuilder.Match | builder/aggregation/aggregation_stage_builder.go:60-63 | appends one `$match` stage |
| AggregationStage.StageBuilder.Group | builder/aggregation/aggregation_stage_builder.go:65-70 | appends one `$group` stage: `_id` first, then the accumulators in order |
| AggregationStage.StageBuilder.Sort | builder/aggregation/aggregation_stage_builder.go:72-75 | appends one `$sort` stage |
| AggregationStage.StageBuilder.Project | builder/aggregation/aggregation_stage_builder.go:77-80 | appends one `$project` stage |
| AggregationStage.StageBuilder.Limit | builder/aggregation/aggregation_stage_builder.go:82-85 | appends one `$limit` stage |
| AggregationStage.StageBuilder.Skip | builder/aggregation/aggregation_stage_builder.go:87-90 | appends one `$skip` stage |
| AggregationStage.StageBuilder.Unwind | builder/aggregation/aggregation_stage_builder.go:92-106 | appends one `$unwind` stage holding `UnwindValue` |
| AggregationStage.StageBuilder.ReplaceRoot | builder/aggregation/aggregation_stage_builder.go:108-111 | appends `{$replaceRoot: {newRoot: ...}}` |
| AggregationStage.StageBuilder.ReplaceWith | builder/aggregation/aggregation_stage_builder.go:113-116 | appends one `$replaceWith` stage |
| AggregationStage.StageBuilder.Facet | builder/aggregation/aggregation_stage_builder.go:118-121 | appends one `$facet` stage |
| AggregationStage.StageBuilder.SortByCount | builder/aggregation/aggregation_stage_builder.go:123-126 | appends one `$sortByCount` stage |
| AggregationStage.StageBuilder.Count | builder/aggregation/aggregation_stage_builder.go:128-131 | appends one `$count` stage |
| AggregationStage.StageBuilder.Lookup | builder/aggregation/aggregation_stage_builder.go:133-148 | appends one `$lookup` stage holding `LookupFields` |
| AggregationStage.StageBuilder.UnionWith | builder/aggregation/aggregation_stage_builder.go:150-166 | appends one `$unionWith` stage holding `UnionWithValue` |
| AggregationStage.StageBuilder.Build | builder/aggregation/aggregation_stage_builder.go:167-169 | the stages in insertion order |

## Left out

- The callback registry's own source is not part of this model. `Callback.Registry` is the abstract registry that the wrappers and `callback_test.go` rely on.
  - It is passed to the wrappers explicitly instead of being a package-level variable.
  - Duplicate names are allowed when registering.
- The model hook's dispatcher (`hook/model`) is not part of this model. The model-hook callback is a function from the context view and the phase to a verdict, so it never changes the world.
- Callback.Step: a user plugin (a `callback.CbFn` registered through `RegisterPlugin`, callback.go:17-19) is modelled as a verdict on the context and leaves the world unchanged. In Go it gets the same mutable `*OpContext` as the built-in closures, so it could change the documents or the update expression; such a plugin is not modelled. Callback.RunWithoutFieldHook, Callback.RunKeepsNonMapUpdates and Callback.RunIgnoresViewUpdates rely on this and hold only for plugins that change nothing through `opCtx`.
- Local hooks are modelled as pure functions from their context to a verdict. A hook that mutates the documents or the update expression through its context is not modelled.
- `bsonx.dToM` (BSON marshalling of a `bson.D` into a `bson.M`) is a parameter: the store's codec, or the argument of `Bsonx.ToBsonM`.
- Finder `Count`, `Distinct` and `DistinctWithParse` are left out. They run no hooks and only forward to the driver.
- The aggregator (`aggregator/aggregator.go`) is left out. It only forwards a pipeline to the driver.
- The `Collection` facade (`collection.go`) is left out. It only constructs the four wrappers.
- The driver's encoding and decoding of documents:
  - a decode replaces all fields of the document;
  - an encoding is the document's fields as they are.
- Context cancellation, `context.Context` values, concurrency and the driver's network I/O are left out. The store answers from a function of the requests sent so far.
- Clock readings and fresh ObjectIDs are numbers from a counter. Time zones and the `Local()` conversion are left out.
- The typed `In*` / `Nin*` variants (`InInt`, `InString`, … `NinUint8`) are covered by `Query.Builder.In` and `Query.Builder.Nin`. The variants differ only in the Go element type of the list, which is stored unchanged. Floats are not modelled.
- Updater.UpsertOptions and Updater.Upsert: when options are given, the option that forces upsert, which is appended to the first options builder (updater/updater.go:153-158), is not modelled. The options are passed on as given.
- Creator.InsertMany requires that no element of the slice is a nil pointer to a capable type, under every callback registered for insert. With such an element the Go code panics when the default-field hook calls an accessor on nil; the model states that as a precondition instead of modelling the panic.
- Field.BeforeUpdate and Field.BeforeUpsert require the same of a single nil pointer when the strategy would reach the accessor call. The Go code panics there too.
- Field.BeforeInsert requires that its argument is not a nil pointer to a capable type. Before insert there are no shape checks, so the accessor is always reached (hook/field/strategy.go:26-34), and the Go code panics when `DefaultId()` or `CustomID()` is called on the nil receiver. Every capable nil pointer is excluded; the panic is not modelled.
- Values.Access: the accessor methods are written by the user, not by the library (hook/types.go:9-25 only names them). The model assumes the behaviour of `Base` (base.go:16-35) and of the fixtures in hook/field/field_test.go:21-38. These fixtures set the id and the creation time only when they are zero, and give the update time a fresh value that differs from every earlier one on every call. The following properties rest on that assumption: Field.InsertFillsOnce (idempotence), Values.AccessIssues (a set id or creation time changes nothing), Field.UpdateWritesUpdatedAt (a non-zero value with `n' == n + 1`), Field.UpsertWrittenValues and Field.UpsertOnEmptyMap. Accessors that behave otherwise are not covered. For example, the custom fixture in hook/field/field_test.go:47-63 stores a hex-string id and `time.Now().Unix()` seconds, and those seconds repeat within one second.
- Plugin.InitPlugin: the Go function takes `*PluginConfig` and reads `config.EnableDefaultFieldHook` at once (callback.go:33-34), so `InitPlugin(nil)` panics. The model takes the configuration by value and does not model that panic.
- Hooks.SharedUpdates: only the top-level bson.M update expression is modelled as shared between the caller and the context. The `$set` and `$setOnInsert` sub-maps are values, so when a caller also holds one of them, the in-place writes of `updated_at`, `_id` and `created_at` into it (hook/field/strategy.go:65-68, 107-129) are not seen through that alias; nested sub-maps are not modelled as aliases.
- AggregationStage.StageBuilder.Lookup: the Go method takes `*LookUpOptions` and dereferences it at once (builder/aggregation/aggregation_stage_builder.go:135), so a nil argument panics. The model takes the options by value and does not model that panic.
- `Base` is modelled on its own fields (`BaseModel`). Since it is not a fixed-name document type, it takes no part in the default-field hook.
