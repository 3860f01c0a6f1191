# modella instance runtime in Dafny

This project models the model-instance runtime of modella as its behaviour
suite `test/proto.js` pins it down. An instance of a model class holds:

- an attribute store with dirty tracking: `get`, `has`, `set`/the attribute
  accessor, `unset`, `primary`, bulk `set({...})` restricted to the schema,
  `changed()`, `changed(attr)` and `isNew()`;
- an `errors` list that `isValid()` rebuilds from the class's validators, in
  registration order, emitting `valid` or `invalid`;
- the `save` and `remove` lifecycles. Each runs abortable hook chains
  (`saving`, `creating`/`updating`, `removing`) at class scope and then at
  instance scope, calls the storage adapter, merges its answer and emits
  `create`/`update`, `save`, `remove` or `error`;
- `toJSON()`.

Both scopes hold an event registry with persistent (`on`) and fire-once
(`once`) listeners. Dispatch runs over a snapshot of the listener list taken
when it starts.

The project has two layers.

- **The specification, as values.** Modules `Values`, `Outcomes`, `Events`,
  `Validation` and `Lifecycle` define a `World` (the instance's `Store`, the
  class registry and the instance registry) and one pure transition function
  per operation.
- **The objects.** `Events.Emitter`, `Models.ModelClass` and
  `Models.Instance` are classes whose fields the methods update in place.
  Each method's `ensures` ties the new state to the transition function of
  the old state. The hook runner's `next()` is the recursive method
  `Models.Instance.Advance`, one hook per call. Validators run in a loop
  over the validator list, and bulk assignment runs in a loop over the
  entries.

The properties the suite asserts are proved about the transition functions,
in modules `AttrProps`, `ValidateProps`, `HookProps`, `SaveProps`,
`SaveEvents` and `RemoveProps`.

Where the suite fixes a detail, the model follows it. The per-attribute
change event is named `"change " + attr`. The listener registered with
`on('change name', ...)` at `test/proto.js:79` receives `(new, old)`. It
would receive `('name', new, old)` if the name were split into the `change`
and `name` events.

## Model

| member | source | states |
|---|---|---|
| Values.Encode | test/proto.js:605-631 | a nested instance becomes an object of exactly its defined attributes; `null` stays JSON null and nothing else does |
| Values.ToJson | test/proto.js:582-648 | the keys of `toJSON()` are exactly the attributes that are not `undefined`; a value is JSON null iff the attribute holds `null` |
| Values.DecodeEncode | test/proto.js:597-618 | reading back the JSON of a value gives the value less its `undefined` members, at every depth |
| Values.EncodeDecode | test/proto.js:582-648 | encoding a decoded JSON value gives back the same JSON |
| Values.ToJsonRoundTrip | test/proto.js:582-648 | reading `toJSON()` back yields exactly the defined attributes, equal to the attributes when no nested `undefined` exists |
| Events.Fired | test/proto.js:377-392 | calling a listener appends exactly its call to the log; a fire-once listener is taken off its event's list and every other event's list is untouched |
| Events.FireAll | test/proto.js:78-97 | calling a list of listeners appends exactly their calls and leaves other events' lists alone |
| Events.Emitted | test/proto.js:78-97 | emitting `e` appends one call per listener of `e`, in the order of the list when the emission starts, all with the same arguments; every other event's list is unchanged |
| Events.EmittedRetains | test/proto.js:354-375 | emission never removes a persistent listener, never reorders them and never adds one |
| Events.EmittedConsumesOnce | test/proto.js:147-163 | after an emission the event's list is exactly its persistent listeners, in order; other events' lists are unchanged |
| Events.EmittedCalls | test/proto.js:78-97 | emitting `e` calls each listener of `e` once, in registration order, and no listener of another event |
| Events.Emitter.constructor | test/proto.js:14-32 | a new registry has no listeners and no calls |
| Events.Emitter.Subscribe | test/proto.js:78-97 | the listener is appended to its event's list with id `nextId`, and `nextId` advances by one; nothing else changes |
| Events.Emitter.On | test/proto.js:266-277 | `on` appends a persistent listener |
| Events.Emitter.Once | test/proto.js:147-163 | `once` appends a fire-once listener |
| Events.Emitter.Fire | test/proto.js:377-392 | the registry becomes `Fired` of its old state |
| Events.Emitter.Emit | test/proto.js:78-97 | the registry becomes `Emitted` of its old state: every snapshotted listener is called in order |
| Validation.Failures | test/proto.js:650-731 | `errors` is empty iff every validator passes |
| Validation.FailuresConcat | test/proto.js:663-674 | validators run in registration order: earlier registrations' complaints come first |
| Validation.FailuresAllFail | test/proto.js:663-674 | when every validator fails, `errors[i]` is validator i's (attr, message) |
| Validation.FailuresFromFailing | test/proto.js:650-731 | every entry of `errors` is the complaint of some failing validator |
| Lifecycle.SetAttr | test/proto.js:57-110 | the attribute reads back the new value and the others are unchanged; a different value is marked dirty with it; the same value changes nothing at all; dirty entries keep agreeing with the attributes |
| Lifecycle.Override | test/proto.js:147-163 | after a `setting` listener's `attrs.name = v`, the argument's entry for `name` is `v` and all others are as before |
| Lifecycle.InSchema | test/proto.js:136-145 | only schema attributes remain in the argument, each with the last value given for it |
| Lifecycle.SetAll | test/proto.js:113-134 | every attribute reads the last value the entries give it, or keeps its value; `errors` and `removed` are untouched |
| Lifecycle.Assign | test/proto.js:112-164 | bulk `set` keeps `errors` and `removed`, and every dirty entry still records its attribute's current value |
| Lifecycle.Validate | test/proto.js:650-731 | `errors` is replaced by the validators' complaints, nothing else in the store changes, and the answer is true iff `errors` is empty |
| Lifecycle.Chain | test/proto.js:410-431 | a run calls at most the whole snapshot, and passes only after calling all of it |
| Lifecycle.ChainFails | test/proto.js:410-431 | a failed run stops at the last hook it called, with that hook's error or "validation failed" |
| Lifecycle.ChainPassedBefore | test/proto.js:410-431 | every hook called before the last one handed its continuation no error |
| Lifecycle.ChainUncheckedPasses | test/proto.js:294-308 | without the errors check, a run whose hooks all go on passes, whatever they report |
| Lifecycle.Prepare | test/proto.js:329-580 | a save reaches an adapter operation exactly when it has not failed |
| Lifecycle.Commit | test/proto.js:520-527 | the adapter's attributes replace the current values, other attributes stay, nothing is dirty, and `errors` and `removed` stay |
| Lifecycle.Save | test/proto.js:329-580 | the adapter operation is the one the stages up to the adapter chose; the save passes iff an operation was called and the adapter accepted; a refusal is the outcome |
| Lifecycle.Report | test/proto.js:236-252 | reporting keeps the store; with a callback nothing else happens; without one every `error` listener at each scope is called once with the error's message |
| Lifecycle.Remove | test/proto.js:217-327 | a new instance fails with "not saved" and the adapter is not called; the adapter is called only for an instance that is not new; the removal passes iff the adapter was called and accepted; an adapter error is the outcome |
| HookProps.AnnounceQuiet | test/proto.js:78-97 | emitting one event leaves every other event's listeners and calls alone |
| HookProps.SetAttrQuiet | test/proto.js:57-110 | an attribute write fires change events only |
| HookProps.ChainQuiet | test/proto.js:377-392 | a hook chain fires nothing of another event except change events |
| HookProps.ChainKeeps | test/proto.js:354-375 | running a hook chain removes no persistent hook and adds none |
| HookProps.HookSnapshotIds | test/proto.js:377-392 | a chain's snapshot holds, at each scope, exactly the ids of that scope's listeners in registration order, and no class-scope hook comes after an instance-scope one |
| HookProps.StepCalls | test/proto.js:377-392 | calling a hook records it at the scope it was registered at, and only there |
| HookProps.ChainCalls | test/proto.js:377-392 | a chain calls, at each scope, exactly that scope's hooks among those it ran, once each and in order |
| HookProps.ChainSilent | test/proto.js:528-539 | hooks that write nothing leave the attributes and the dirty map unchanged |
| HookProps.ChainKeepsKey | test/proto.js:498-517 | hooks that never unset the primary key leave it set |
| HookProps.ChainErrors | test/proto.js:410-431 | a chain only appends to `errors`: exactly the reports of the hooks it called |
| HookProps.ChainFirstError | test/proto.js:410-431 | a save chain starting with empty `errors` stops at the first hook that reports: every hook called before the last one reported nothing |
| HookProps.ChainLastReport | test/proto.js:410-431 | after a save chain starting with empty `errors`, `errors` holds exactly the reports of the last hook it called |
| HookProps.ChainStopsAt | test/proto.js:410-431 | when hooks before `k` go on (and, on save chains, report nothing) and hook `k` hands its continuation an error (or reports), the run calls exactly `k + 1` hooks and ends with that error, or with "validation failed" and that hook's reports in `errors` |
| HookProps.ValidateQuiet | test/proto.js:650-731 | validation emits `valid` or `invalid` and nothing else |
| HookProps.ValidateKeeps | test/proto.js:354-375 | validation removes no persistent listener |
| AttrProps.SetAnnounces | test/proto.js:78-97 | setting a new value calls, at each scope, every `"change <name>"` listener with (new, old) and then every `change` listener with (name, new, old) |
| AttrProps.ChangedAfterSet | test/proto.js:38-55 | on a clean instance, after one write of a new value, `changed()` is exactly that attribute with its new value |
| AttrProps.IsNewExactly | test/proto.js:166-176 | `isNew()` holds iff the primary key is absent or `undefined` |
| AttrProps.WritesFrom | test/proto.js:147-163 | every entry the `setting` listeners contribute to a bulk `set` is the write of one of those listeners |
| AttrProps.OverridesLookup | test/proto.js:147-163 | the `setting` listeners' writes act as entries appended to the argument, in call order |
| AttrProps.AssignLookup | test/proto.js:112-164 | after bulk `set`, a schema attribute holds the last value given by the argument, then by the class-scope and then the instance-scope `setting` writes; every other attribute keeps its value |
| AttrProps.AssignNoSetting | test/proto.js:113-145 | with no `setting` writes, bulk `set` gives each schema attribute its last value from the argument (`undefined` unsets it) and ignores the rest |
| AttrProps.SettingWins | test/proto.js:147-163 | a `setting` listener's write of `name` wins over any value the argument gives `name` |
| ValidateProps.ValidateAnnounces | test/proto.js:650-731 | `isValid()` replaces `errors` with the current complaints, keeps the attributes, answers true iff all validators pass, and calls `valid` (with null) or `invalid` listeners at both scopes |
| ValidateProps.ValidatePopulatesErrors | test/proto.js:663-674 | with validators for `name` then `email` and neither set, the answer is false and `errors` is the `name` complaint, then the `email` one |
| ValidateProps.ValidateAccepts | test/proto.js:705-712 | with both set, the answer is true and `errors` is empty |
| SaveProps.CommitQuiet | test/proto.js:485-497 | committing fires only `create` (or `update`) and `save` |
| SaveProps.CommitKeeps | test/proto.js:354-375 | committing removes no persistent listener |
| SaveProps.SaveInvalid | test/proto.js:557-580 | an invalid instance's save fails with "validation failed", calls no adapter operation, keeps the attributes and leaves the complaints in `errors` |
| SaveProps.SavingStopsAt | test/proto.js:410-431 | a valid instance whose `saving` chain stops at hook `k` fails with that hook's error, or with "validation failed" when it only reported; `errors` is exactly that hook's reports; hooks `0 .. k` are called once each at their scope, no later hook runs and no adapter operation is called |
| SaveProps.SavingHookInvalidates | test/proto.js:433-461 | a `saving` hook that clears a required `name` makes the save fail with exactly the `name` complaint, without calling the adapter |
| SaveProps.RecheckInvalid | test/proto.js:433-461 | validation after the `saving` chain fails the save as the first validation would |
| SaveProps.PrepareKeeps | test/proto.js:354-375 | the save up to the adapter removes no persistent listener |
| SaveProps.SaveKeeps | test/proto.js:354-375 | a whole save removes no persistent listener |
| SaveProps.SaveNotNewUpdates | test/proto.js:498-517 | when the `saving` hooks do not unset the primary key, a save of an instance that is not new never takes the create branch and calls no `creating` or `create` listener |
| SaveProps.SaveCallsBranchHooks | test/proto.js:463-555 | a save reaching the adapter called each `creating` hook (or each `updating` hook) once, at each scope |
| SaveProps.ChainHarmless | test/proto.js:541-547 | hooks that pass without reporting or writing leave the store unchanged and the run passes |
| SaveProps.ReachesCreate | test/proto.js:541-547 | a new instance whose attributes satisfy every validator of its class, with `saving` and `creating` hooks that pass without writing or reporting, reaches the create operation |
| SaveProps.ReachesUpdate | test/proto.js:548-554 | an instance that is not new, whose attributes satisfy every validator of its class, with `saving` and `updating` hooks that pass without writing or reporting, reaches the update operation |
| SaveProps.BranchStopsAt | test/proto.js:463-555 | a valid instance with harmless `saving` hooks whose `creating` (new) or `updating` (not new) chain stops at hook `k` fails with that hook's error, or with "validation failed" when it only reported; `errors` is exactly that hook's reports and no adapter operation is called |
| SaveProps.SaveCreatingOnce | test/proto.js:354-375 | one save of a new instance calls the persistent class-scope `creating` hook once and leaves it registered |
| SaveProps.TwoSavesCallCreatingTwice | test/proto.js:354-375 | two new instances saved one after the other both reach create, and the class-scope `creating` hook is called twice |
| SaveProps.SaveReply | test/proto.js:520-555 | the save passes iff it reached the adapter and the adapter accepted; the answer's attributes replace the current ones and nothing stays dirty; a refusal is handed to the callback and leaves the attributes as the hooks left them |
| SaveProps.SaveRefusedKeepsAttrs | test/proto.js:528-539 | with hooks that write nothing, a refused save leaves every attribute as it was |
| SaveEvents.SaveCallsSavingHooks | test/proto.js:377-392 | a save reaching the adapter called every `saving` hook once, in order, at each scope |
| SaveEvents.PrepareQuietAfter | test/proto.js:485-508 | before the adapter answers, a save calls no `create`, `update` or `save` listener |
| SaveEvents.CommitCalls | test/proto.js:401-408 | an accepted answer calls every `create` (or `update`) listener at both scopes and then every class-scope `save` listener |
| SaveEvents.SaveAnnounces | test/proto.js:485-497 | a save the adapter accepts passes and calls the `create` (or `update`) listeners at each scope and the class-scope `save` listeners, once each |
| RemoveProps.RemoveNew | test/proto.js:222-228 | removing a new instance fails with "not saved", calls no adapter, keeps the store, and runs no `removing` hook and no `remove` listener |
| RemoveProps.RemoveIgnoresValidators | test/proto.js:294-308 | removal does not depend on the validators at all |
| RemoveProps.RemoveSkipsValidation | test/proto.js:294-308 | when the `removing` hooks go on, the adapter is called and its answer is the outcome, even though hooks reported errors, and `errors` holds those reports |
| RemoveProps.RemoveSucceeds | test/proto.js:254-324 | an accepted removal passes, sets `removed`, and calls every `removing` hook and then every `remove` listener once, at each scope |
| RemoveProps.RemoveAdapterError | test/proto.js:236-252 | an adapter error is the outcome and `removed` stays; without a callback the instance's `error` listeners are called last, with the error's message; with a callback none is |
| RemoveProps.RemoveHookFails | test/proto.js:236-327 | a `removing` hook that hands its continuation an error, after hooks that went on, is the outcome; the adapter is not called, `removed` stays, hooks `0 .. k` are called once each at their scope, no `remove` listener is called; without a callback the instance's `error` listeners are called last with the error's message, with one none are called |
| RemoveProps.ChainKeepsRemoved | test/proto.js:266-272 | hooks never change the `removed` flag |
| Models.ModelClass.constructor | test/proto.js:14-32 | a class has its schema and primary key, no validators and an empty registry |
| Models.ModelClass.Validate | test/proto.js:433-446 | `validate(fn)` appends the validator after the existing ones |
| Models.Instance.constructor | test/proto.js:597-603 | a new instance holds a copy of the initial attributes, nothing dirty, no errors, not removed |
| Models.Instance.Get | test/proto.js:185-190 | `get(name)` is the stored value, or `undefined` when none is stored |
| Models.Instance.Has | test/proto.js:200-214 | `has(name)` holds iff an attribute other than `undefined` is stored under `name` |
| Models.Instance.ChangedAttr | test/proto.js:48-55 | nothing is reported changed on a clean instance; an attribute reported changed holds the value it was last changed to |
| Models.Instance.Changed | test/proto.js:38-55 | `changed()` has exactly the attributes `changed(attr)` reports, each with its current value |
| Models.Instance.ToJSON | test/proto.js:582-648 | the keys of `toJSON()` are exactly the instance's defined attributes; a value is JSON null iff the attribute holds `null` |
| Models.Instance.IsNew | test/proto.js:166-176 | `isNew()` holds iff the primary key reads as `undefined` |
| Models.Instance.Set | test/proto.js:57-110 | the state becomes `SetAttr` of the old state |
| Models.Instance.Unset | test/proto.js:192-198 | the state becomes `SetAttr` with `undefined` |
| Models.Instance.SetPrimary | test/proto.js:498-517 | the state becomes `SetAttr` of the primary key |
| Models.Instance.Assign | test/proto.js:112-164 | the state becomes `Lifecycle.Assign` of the old state; the loop assigns the schema entries one by one |
| Models.Instance.RecordError | test/proto.js:433-446 | `error(attr, message)` appends one entry to `errors` and changes nothing else |
| Models.Instance.CollectErrors | test/proto.js:663-674 | the validator loop leaves `errors` equal to the complaints of the failing validators, in order |
| Models.Instance.IsValid | test/proto.js:650-731 | the state and the answer are `Validate` of the old state |
| Models.Instance.Perform | test/proto.js:433-461 | a hook's write goes through the setter and its reports are appended to `errors` |
| Models.Instance.CallHook | test/proto.js:377-392 | the state becomes `Step` of the old state |
| Models.Instance.Advance | test/proto.js:410-431 | the state, outcome and number of hooks called are those of `Chain` over the rest of the snapshot |
| Models.Instance.RunChain | test/proto.js:410-431 | the run is `Chain` over the snapshot taken when it starts |
| Models.Instance.PrepareSave | test/proto.js:341-350 | the state, outcome and adapter operation are `Prepare` of the old state |
| Models.Instance.SavingStage | test/proto.js:410-431 | as `RunSaving` |
| Models.Instance.RecheckStage | test/proto.js:433-461 | as `Recheck` |
| Models.Instance.BranchStage | test/proto.js:463-555 | as `RunBranch` |
| Models.Instance.Commit | test/proto.js:520-527 | the state becomes `Lifecycle.Commit` of the old state |
| Models.Instance.Save | test/proto.js:329-580 | the state, outcome and adapter operation are `Lifecycle.Save` of the old state |
| Models.Instance.Remove | test/proto.js:217-327 | the state, outcome and whether the adapter was called are `Lifecycle.Remove` of the old state |

## Left out

- Asynchronous dispatch is not modelled: no `setTimeout`, no
  continuation-passing style, and no interleaving of concurrent runs. Each
  hook is one synchronous step with an outcome, and `next()` is modelled as
  the recursive runner `Models.Instance.Advance`.
- A listener is data, not code. It is an id, a fire-once flag and an
  `Action`: at most one attribute write, validation reports, and the value
  passed to `next`. Plain listeners only have their calls recorded. The one
  exception is a `setting` listener, whose write lands in the argument of
  `set`.
- Detecting a listener's arity is left out, and so is the `this` binding of
  instance listeners.
- Splitting `on('a b')` into several events is left out. A name with a space
  is one event.
- `off` is not part of this model. No test removes a listener explicitly.
- The calls of class-scope listeners do not record the instance they
  receive as their first argument.
- The calls of `invalid` listeners do not record the `errors` array they
  receive.
- The `model('User').attr(...)` declaration syntax is left out. A class is
  its schema, its primary key and its validators.
- The swapping of `User.save`, `update` and `remove` is left out. The
  adapter's answer is a parameter of `save` and `remove`.
- Overriding `validate` on the instance (`test/proto.js:341-350`) is not
  modelled. Validation always runs the class's validators.
- "Should not call methods with the same name" (`test/proto.js:142-145`)
  holds trivially: an instance has no method namespace that a bulk `set`
  could reach.
- `user.model` referring to the constructor (`test/proto.js:178-183`) is
  the `model` field of `Models.Instance`, with no contract of its own.
- A nested instance inside an attribute is a `Record` value snapshot. It is
  not a live reference to another instance.
- Copying in the constructor, in `changed()` and in `toJSON()` holds by
  value semantics. Aliasing of JavaScript objects is not modelled.
- An error is modelled as its kind and message. Error object identity
  (`expect(err).to.equal(error)`) is not modelled.
- Integers are unbounded and floating point is not modelled.
- Listener exceptions are not modelled, and neither are the expect.js and
  mocha `done` plumbing.
- Validation.Failures: a validator is one of two rules, `MustHave(attr,
  message)` and `MustBeTruthy(attr, message)`, and each complains at most
  once. A modella validator is an arbitrary function that may call
  `error()` any number of times, so the bound `|errors| <= |validators|`
  holds only for these two rules.
- Lifecycle.SetAttr: values are compared structurally. The source's `!==`
  compares a nested instance by identity. Assigning a different instance
  with equal attributes is therefore a change there and a no-op here.
  The dirty map records every attribute given a new value since the last
  successful save, with its latest value. Writing back the value the
  attribute had at that save does not make it clean again; only the next
  successful save clears it. `changed()` therefore reports such an attribute
  although it matches what was persisted. `test/proto.js:99-108` fixes only
  that assigning the current value is a no-op.
- SaveEvents.SaveAnnounces: emitting `save` at class scope only, and not at
  instance scope, is a modelling choice that no test fixes. The test titled
  "emits save on instance" (`test/proto.js:394-399`) listens for `saving`,
  so it asserts nothing about `save`. `Lifecycle.Commit`, `SaveEvents.CommitCalls`
  and `SaveEvents.SaveAnnounces` state this choice; `create` and `update` are
  emitted at both scopes, as `test/proto.js:485-496` shows.
- Lifecycle.RunBranch: the `creating` and `updating` chains stop with
  "validation failed" when a hook leaves `errors` non-empty, as the `saving`
  chain does (`test/proto.js:410-431`). No test registers a reporting
  `creating` or `updating` hook, so this check is a choice the suite leaves
  open. `SaveProps.BranchStopsAt` states it. The `removing` chain has no such
  check (`test/proto.js:294-308`).
- Lifecycle.Recheck: `save` validates once more after the whole `saving`
  chain, not after each hook. The test at `test/proto.js:433-461` registers a
  single `saving` hook that clears `name`, and expects exactly the `name`
  complaint in `errors`. Validating after each hook would pass it too, so
  when the second validation runs is a choice the suite leaves open.
  `SaveProps.SavingHookInvalidates` and `SaveProps.RecheckInvalid` state it.
