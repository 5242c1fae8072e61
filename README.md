# Emitter receivers and action construction, modelled in Dafny

This project models the core of the NGXS emitter plugin: how a static method of a
state class is registered as the receiver of an action type, and how action
instances are built for single and batch dispatching.

- `wrappers.dfy` — `Option` and `Result`.
- `internals.dfy` (module `Internals`) — the `ActionStatus` enum. It also holds the
  construction of action instances. An action class is an opaque constructor tag `C`,
  and `new Action(payload)` is the value `Instance(ctor, payload)`. Single dispatching
  is a function. Batch dispatching is a method with the source's two nested loops. It
  is proved equal to `CrossProduct`, a reference definition whose length, indexing,
  coverage and empty cases are proved as lemmas.
- `receiver.dfy` (module `ReceiverDecorator`) — the `@Receiver()` decorator as the
  method `Receiver`. It works over three objects. `Target` is what the decorator
  receives: the class for a static method, or the class's prototype object for an
  instance method. It holds the name, the members read as `target[key]`, the prototype
  delegates and the store metadata. `StoreMeta` is the store metadata, holding the `actions` table. `Handler` is
  a function object, which receives the receiver metadata. The pure functions `Decide`,
  `Step` and `RegisterAll` specify one registration and a run of registrations. Lemmas
  about them state the check order, the type rules, duplicate rejection and the frame.
  The method's postcondition ties it to `Step`.

Three details of type resolution in the code:
- An explicit `options.type` is not used verbatim: an empty string falls back to the
  default `"{ClassName}.{key}"`.
- A custom action's `type` takes precedence over `options.type`.
- The default name uses the class name (`target.name`), not the state's name.

## Model

| member | source | states |
|---|---|---|
| `Internals.ActionStatusesAreFour` | emitter/src/lib/core/internal/internals.ts:9-14 | there are exactly four statuses, and two statuses have the same string value only if they are the same status |
| `Internals.ConstructEventsForSingleDispatching` | emitter/src/lib/core/internal/internals.ts:95-100 | exactly one instance per constructor, in constructor order, each carrying the given payload |
| `Internals.CrossProduct` | emitter/src/lib/core/internal/internals.ts:108-121 | the batch result has exactly `#constructors * #payloads` instances |
| `Internals.CrossProductAt` | emitter/src/lib/core/internal/internals.ts:114-118 | element `i*#payloads+j` is constructor `i` applied to payload `j` (constructor-major, payload-minor order) |
| `Internals.CrossProductOnly` | emitter/src/lib/core/internal/internals.ts:112-120 | every element of the batch result is some constructor applied to some payload, at position `i*#payloads+j` |
| `Internals.CrossProductEmpty` | emitter/src/lib/core/internal/internals.ts:112-120 | the batch result is empty if and only if there are no constructors or no payloads |
| `Internals.ManyWithOnePayload` | emitter/src/lib/core/internal/internals.ts:95-121 | batch dispatching of the one payload `[p]` equals single dispatching of `p` |
| `Internals.ConstructEventsForManyDispatching` | emitter/src/lib/core/internal/internals.ts:108-121 | the nested loops that push onto one list return exactly the cross product |
| `ReceiverDecorator.Receiver` | projects/emitter/src/lib/core/decorators/receiver.ts:9-47 | the new table and the outcome are those of `Step`; an instance method (a prototype target) is rejected; on failure nothing changes; on success the handler's metadata is exactly `{type, action}`, a delegate is installed under the key's string form, the name the new entry's `fn` records, and it calls the decorated static function |
| `ReceiverDecorator.InstanceMethodPartlyRegistered` | projects/emitter/src/lib/core/decorators/receiver.ts:11-45 | as written, an instance method (a function-valued member of a prototype target) passes the guard `PassesGuardAsWritten`, gets the entry `undefined.<key>` in the table, and the decorator then throws on the missing `target.prototype` |
| `ReceiverDecorator.InstanceMethodRejected` | projects/emitter/src/lib/core/decorators/receiver.ts:11-13 | with the intended guard, an instance method fails with NotStaticFunction and the table is unchanged |
| `ReceiverDecorator.ClassTargetAsWrittenIsIntended` | projects/emitter/src/lib/core/decorators/receiver.ts:11-45 | on a class target, the decorator as written and the intended one give the same table and outcome |
| `ReceiverDecorator.StepFrame` | projects/emitter/src/lib/core/decorators/receiver.ts:28-36 | one registration either leaves the table as it was or adds one new type and nothing else |
| `ReceiverDecorator.NotStaticFunctionRejected` | projects/emitter/src/lib/core/decorators/receiver.ts:11-13 | a registration that fails the guard (the descriptor value or `target[key]` is not a function) fails with NotStaticFunction and the table is unchanged |
| `ReceiverDecorator.MissingActionTypeRejected` | projects/emitter/src/lib/core/decorators/receiver.ts:22-24 | a custom action without a string `type` fails with MissingActionType before any entry is written |
| `ReceiverDecorator.ResolvedTypeRule` | projects/emitter/src/lib/core/decorators/receiver.ts:26 | the type is the custom action's `type` even when `options.type` is set; without an action it is a non-empty `options.type`, otherwise `"{ClassName}.{key string}"` |
| `ReceiverDecorator.DuplicateTypeRejected` | projects/emitter/src/lib/core/decorators/receiver.ts:28-30 | a resolved type already in the table fails with DuplicateType naming that type, and the table is unchanged |
| `ReceiverDecorator.SuccessAddsOneEntry` | projects/emitter/src/lib/core/decorators/receiver.ts:32-36 | on success the new type was absent, now maps to `[{fn: key string, options: {}, type}]`, and every other key keeps its entry |
| `ReceiverDecorator.DefaultTypeInjective` | projects/emitter/src/lib/core/decorators/receiver.ts:15-26 | two default types of one class coincide only if the keys' string forms coincide |
| `ReceiverDecorator.RegisterAllKeepsEntries` | projects/emitter/src/lib/core/decorators/receiver.ts:28-36 | a run of registrations never changes or removes an existing entry |
| `ReceiverDecorator.RegisterAllTypesUnique` | projects/emitter/src/lib/core/decorators/receiver.ts:28-36 | in a run of registrations, successful types are new and pairwise distinct, each filed with its own single entry, and the table gains no other key |
| `ReceiverDecorator.DuplicateRejectedEitherOrder` | projects/emitter/tests/emitter.spec.ts:106-128 | of two registrations resolving to one new type, the first succeeds and the second fails with DuplicateType, in either order |
| `ReceiverDecorator.TestScenarios` | projects/emitter/tests/emitter.spec.ts:106-128 | the rule of the `@Emitter` duplicate test, for this decorator's specification: of two methods of `BarState` asking for `foo`, the first registers and the second fails with DuplicateType |
| `ReceiverDecorator.ExplicitTypeScenario` | projects/emitter/tests/emitter.spec.ts:21-30 | the `@Emitter` test replayed through `Receiver` on objects: with type `@@[bar]` the handler's metadata carries `@@[bar]` |
| `ReceiverDecorator.DefaultTypeScenario` | projects/emitter/tests/emitter.spec.ts:32-41 | the `@Emitter` test replayed through `Receiver` on objects: without options the handler's metadata carries `BarState.foo` |
| `ReceiverDecorator.DuplicateTypeScenario` | projects/emitter/tests/emitter.spec.ts:106-128 | the `@Emitter` test replayed through `Receiver` on objects: the second registration of `foo` fails with the message ``Method decorated with such type `foo` already exists`` |
| `ReceiverDecorator.SymbolDelegateMissesHandler` | projects/emitter/src/lib/core/decorators/receiver.ts:15-45 | for a symbol key, the delegate as written calls a member that is not the decorated method; the intended delegate calls it |
| `ReceiverDecorator.NamedDelegateIsIntended` | projects/emitter/src/lib/core/decorators/receiver.ts:43-45 | for a string key, the delegate as written is the intended one |

## Left out

- The emittable handle (`Emittable`), action contexts and the dispatch lifecycle are left out. This covers `emit`/`emitMany`, the status stream and cancellation of uncompleted dispatches. The files modelled only declare these types; the behaviour lives in rxjs streams and the NGXS store, which are not part of this model.
- `ensureStoreMetadata` is not part of this model. It is represented by the `meta` field of `Target`, an existing `StoreMeta` object that holds the `actions` table. The call runs before the type checks, so it may create metadata on the target even when the decorator then throws (lines 23 and 29). "Changes nothing" in `Receiver` refers to the modelled state only.
- `new Action(payload)` and Angular's `Type<T>` are abstracted to the value `Instance(ctor, payload)`. The instances are values, so the identity of distinct instances is not modelled.
- The prototype delegate's call (`target[key].apply(target, arguments)`) is not modelled. Only where the delegate is installed and which static member it calls are recorded.
- `meta.actions` is a plain JavaScript object. A type that names an inherited property, such as `toString`, already reads as present there. The model treats the table as a map that starts empty.
- A string key `"Symbol(x)"` and a symbol with description `x` have the same string form, so their default types collide. The model reproduces this collision but proves nothing about it.
- `Receiver`: the `payload` and `cancelUncompleted` fields of the options are ignored by the decorator, and so by the model.
- `Receiver`: an `action` given as an array of classes has no string `type`, so it is rejected with MissingActionType. The model represents it as a custom action whose `typeProperty` is `None`.
- The tests exercise the `@Emitter` decorator, which is not part of this model. The scenario members replay their inputs and expected values through `Receiver`.
- `InstanceMethodPartlyRegistered`: the as-written behaviour on a prototype target is modelled for the table only. The handler metadata that line 38 writes before the throw is not part of that lemma.
- The wording of the `TypeError` for the missing `target.prototype` depends on the JavaScript engine; `ErrorMessage` uses V8's.

## Findings

| source | as written | input that shows it | evidently intended | confidence | as-written member | corrected member |
|---|---|---|---|---|---|---|
| projects/emitter/src/lib/core/decorators/receiver.ts:15-17,43-45 | line 16 overwrites `key` with its string form. The prototype delegate is then installed under `"Symbol(d)"` and calls `target["Symbol(d)"]`, which is not the decorated method. | a static method keyed by `Symbol('d')`, decorated with `@Receiver()`, then called through the prototype | the delegate is installed under the key's string form, where the entry's `fn` points, and calls the decorated static method under its original key | medium; not executed | `ReceiverDecorator.SymbolDelegateMissesHandler` (with `DelegateAsWritten`) | `ReceiverDecorator.Receiver` (installs `IntendedDelegate`; its postcondition proves the delegate calls a static function) |
| projects/emitter/src/lib/core/decorators/receiver.ts:11-13,26-45 | the guard only checks that `descriptor.value` and `target[key]` are functions. For an instance method, `target` is the class's prototype, so the guard passes. The type becomes `undefined.<key>` and lines 32 and 38 write the table and the handler. Line 43 then throws, because a prototype object has no `prototype`. | `class S { @Receiver() foo() {} }` (a non-static method) | an instance method is rejected with the "Only static functions" error before anything is written | medium; not executed | `ReceiverDecorator.InstanceMethodPartlyRegistered` (with `StepAsWritten`, `PassesGuardAsWritten`) | `ReceiverDecorator.Receiver` (guard `IsStaticFunction`; its postcondition rejects a prototype target and changes nothing) and `ReceiverDecorator.InstanceMethodRejected` |
