/**
 * The `@Receiver()` method decorator: it checks that it decorates a static function,
 * resolves the action type, rejects a type the owner already registered, and then
 * records the receiver in the owner's store metadata, on the handler function and on
 * the owner's prototype.
 */
module ReceiverDecorator {
  import opened Wrappers

  /** A property key of the decorated class: a string, or a symbol with its description. */
  datatype Key = Named(name: string) | Symbol(description: string)

  /** The string form of a key; a symbol converts to `Symbol(<description>)`. */
  function KeyString(key: Key): string
  {
    match key
    case Named(name) => name
    case Symbol(description) => "Symbol(" + description + ")"
  }

  /**
   * A custom action class passed as `options.action`, abstracted to its name and its
   * static `type` property when that property is a string (`None` for any other value,
   * and for an array of classes, which has no `type` of its own).
   */
  datatype CustomAction = CustomAction(className: string, typeProperty: Option<string>)

  /** The decorator's options; `Options(None, None)` stands for a call without options. */
  datatype Options = Options(explicitType: Option<string>, action: Option<CustomAction>)

  /** Options of an action handler entry; the decorator always writes the empty object. */
  datatype EntryOptions = EntryOptions(cancelUncompleted: Option<bool>)

  const EmptyOptions: EntryOptions := EntryOptions(None)

  /** One handler registered in the store metadata under an action type. */
  datatype Entry = Entry(fn: string, options: EntryOptions, actionType: string)

  /** The metadata the decorator attaches to the handler function. */
  datatype ReceiverMeta = ReceiverMeta(actionType: string, action: Option<CustomAction>)

  /** Why a registration throws. */
  datatype RegisterError =
    | NotStaticFunction
    | MissingActionType
    | DuplicateType(actionType: string)
      /** Setting a property of the missing `target.prototype`; only the decorator as written throws it. */
    | PrototypeUndefined(key: string)

  /** The message of the error each failure throws (a `TypeError` for the first and the last kind). */
  function ErrorMessage(e: RegisterError): string
  {
    match e
    case NotStaticFunction => "Only static functions can be decorated with @Receiver() decorator"
    case MissingActionType => "Action type should be defined as a static property `type`"
    case DuplicateType(t) => "Method decorated with such type `" + t + "` already exists"
    case PrototypeUndefined(k) => "Cannot set properties of undefined (setting '" + k + "')"
  }

  /** A function object; `receiverMeta` is its property under the key `NGXS_RECEIVER_META`. */
  class Handler {
    var receiverMeta: Option<ReceiverMeta>

    constructor ()
      ensures receiverMeta == None
    {
      receiverMeta := None;
    }
  }

  /** A property value: a function, or anything else. */
  datatype Slot = FunctionValue(handler: Handler) | OtherValue

  /** The objects a property value lets the decorator write to. */
  function SlotObjects(slot: Slot): set<object>
  {
    if slot.FunctionValue? then {slot.handler} else {}
  }

  /** Store metadata of the decorated object: its table of action handlers. */
  class StoreMeta {
    var actions: map<string, seq<Entry>>

    constructor ()
      ensures actions == map[]
    {
      actions := map[];
    }
  }

  /**
   * The object a method decorator receives: the class itself for a static method, or the
   * class's prototype object for an instance method (`isPrototype`). `members` are the
   * properties `target[key]` reads, `meta` is what `ensureStoreMetadata` returns for it,
   * and `prototype` maps each delegate installed on the class's prototype to the member
   * it calls. A prototype object has no `name` and no `prototype` of its own.
   */
  class Target {
    const isPrototype: bool
    const className: string
    const members: map<Key, Slot>
    const meta: StoreMeta
    var prototype: map<Key, Key>

    constructor (isPrototype: bool, className: string, members: map<Key, Slot>, meta: StoreMeta)
      ensures this.isPrototype == isPrototype && this.className == className
      ensures this.members == members && this.meta == meta && prototype == map[]
    {
      this.isPrototype := isPrototype;
      this.className := className;
      this.members := members;
      this.meta := meta;
      prototype := map[];
    }

    /** `${target.name}`: the class name, or `undefined` on a prototype object. */
    function NameText(): string
    {
      if isPrototype then "undefined" else className
    }
  }

  /** A prototype delegate: the key it is installed under and the static member it calls. */
  datatype Delegate = Delegate(installedAt: Key, calls: Key)

  /** The delegate as the decorator writes it: after a symbol key was replaced by its string form. */
  function DelegateAsWritten(key: Key): Delegate
  {
    Delegate(Named(KeyString(key)), Named(KeyString(key)))
  }

  /**
   * The delegate the decorator means to install: under the key's string form, where the
   * entry's `fn` points, calling the decorated key itself.
   */
  function IntendedDelegate(key: Key): Delegate
  {
    Delegate(Named(KeyString(key)), key)
  }

  /** For a symbol key the written delegate calls a member that is not the decorated method. */
  lemma SymbolDelegateMissesHandler(statics: map<Key, Slot>, description: string)
    requires Symbol(description) in statics && statics[Symbol(description)].FunctionValue?
    requires Named(KeyString(Symbol(description))) !in statics
    ensures DelegateAsWritten(Symbol(description)).calls !in statics
    ensures IntendedDelegate(Symbol(description)).calls in statics
  {
  }

  /** For a string key the written delegate is the intended one. */
  lemma NamedDelegateIsIntended(name: string)
    ensures DelegateAsWritten(Named(name)) == IntendedDelegate(Named(name))
  {
  }

  /** The guard as written: both the descriptor's value and `target[key]` are functions. */
  predicate PassesGuardAsWritten(descriptorValue: Slot, members: map<Key, Slot>, key: Key)
  {
    descriptorValue.FunctionValue? && key in members && members[key].FunctionValue?
  }

  /** The guard as intended: the guard as written, on a class rather than a prototype object. */
  predicate IsStaticFunction(descriptorValue: Slot, isPrototype: bool, members: map<Key, Slot>, key: Key)
  {
    !isPrototype && PassesGuardAsWritten(descriptorValue, members, key)
  }

  /** The type used when neither a custom action nor an explicit type is given. */
  function DefaultType(ownerName: string, key: Key): string
  {
    ownerName + "." + KeyString(key)
  }

  /** Action type resolution: the custom action's `type`, else a non-empty explicit type, else the default. */
  function ResolveType(ownerName: string, key: Key, options: Options): Result<string, RegisterError>
  {
    match options.action
    case Some(action) =>
      if action.typeProperty.Some? then Ok(action.typeProperty.value) else Err(MissingActionType)
    case None =>
      if options.explicitType.Some? && options.explicitType.value != "" then Ok(options.explicitType.value)
      else Ok(DefaultType(ownerName, key))
  }

  /** The outcome of one registration against the current table, checks in the source's order. */
  function Decide(actions: map<string, seq<Entry>>, ownerName: string, key: Key, isStaticFunction: bool,
                  options: Options): Result<string, RegisterError>
  {
    if !isStaticFunction then Err(NotStaticFunction)
    else
      match ResolveType(ownerName, key, options)
      case Err(e) => Err(e)
      case Ok(t) => if t in actions then Err(DuplicateType(t)) else Ok(t)
  }

  /** The single entry a successful registration files under `actionType`. */
  function NewEntry(key: Key, actionType: string): seq<Entry>
  {
    [Entry(KeyString(key), EmptyOptions, actionType)]
  }

  /** One decorator application, as seen by the owner's table. */
  datatype Request = Request(key: Key, isStaticFunction: bool, options: Options)

  /** The table after one registration, and its outcome. */
  function Step(actions: map<string, seq<Entry>>, ownerName: string, req: Request)
    : (map<string, seq<Entry>>, Result<string, RegisterError>)
  {
    var r := Decide(actions, ownerName, req.key, req.isStaticFunction, req.options);
    (if r.Ok? then actions[r.value := NewEntry(req.key, r.value)] else actions, r)
  }

  /** The table after registering the decorated methods of one class in order, and every outcome. */
  function RegisterAll(actions: map<string, seq<Entry>>, ownerName: string, reqs: seq<Request>)
    : (result: (map<string, seq<Entry>>, seq<Result<string, RegisterError>>))
    ensures |result.1| == |reqs|
    decreases |reqs|
  {
    if reqs == [] then (actions, [])
    else
      var (next, r) := Step(actions, ownerName, reqs[0]);
      var (final, rs) := RegisterAll(next, ownerName, reqs[1..]);
      (final, [r] + rs)
  }

  /**
   * One registration as the decorator is written, on a class or on a prototype object: the
   * guard lets any function-valued member through, and on a prototype object the table
   * is written before installing the delegate throws.
   */
  function StepAsWritten(actions: map<string, seq<Entry>>, className: string, isPrototype: bool,
                         key: Key, passesGuard: bool, options: Options)
    : (map<string, seq<Entry>>, Result<string, RegisterError>)
  {
    var (next, r) := Step(actions, if isPrototype then "undefined" else className, Request(key, passesGuard, options));
    if r.Ok? && isPrototype then (next, Err(PrototypeUndefined(KeyString(key)))) else (next, r)
  }

  /** An instance method passes the guard as written, gets an `undefined.<key>` entry, and then the decorator throws. */
  lemma InstanceMethodPartlyRegistered(actions: map<string, seq<Entry>>, className: string, key: Key,
                                       descriptorValue: Slot, members: map<Key, Slot>)
    requires descriptorValue.FunctionValue? && key in members && members[key].FunctionValue?
    requires "undefined." + KeyString(key) !in actions
    ensures PassesGuardAsWritten(descriptorValue, members, key)
    ensures var (next, r) :=
        StepAsWritten(actions, className, true, key, PassesGuardAsWritten(descriptorValue, members, key), Options(None, None));
      && r == Err(PrototypeUndefined(KeyString(key)))
      && next == actions["undefined." + KeyString(key) := NewEntry(key, "undefined." + KeyString(key))]
      && next != actions
  {
    var t := "undefined." + KeyString(key);
    assert DefaultType("undefined", key) == t;
    assert t in actions[t := NewEntry(key, t)];
  }

  /** The intended guard rejects an instance method before anything is written. */
  lemma InstanceMethodRejected(actions: map<string, seq<Entry>>, className: string, key: Key,
                               descriptorValue: Slot, members: map<Key, Slot>, options: Options)
    ensures Step(actions, className, Request(key, IsStaticFunction(descriptorValue, true, members, key), options))
         == (actions, Err(NotStaticFunction))
  {
  }

  /** On a class the decorator as written behaves as intended. */
  lemma ClassTargetAsWrittenIsIntended(actions: map<string, seq<Entry>>, className: string, key: Key,
                                       descriptorValue: Slot, members: map<Key, Slot>, options: Options)
    ensures StepAsWritten(actions, className, false, key, PassesGuardAsWritten(descriptorValue, members, key), options)
         == Step(actions, className, Request(key, IsStaticFunction(descriptorValue, false, members, key), options))
  {
  }

  /** A target that fails the guard is rejected first, and the table is untouched. */
  lemma NotStaticFunctionRejected(actions: map<string, seq<Entry>>, ownerName: string, req: Request)
    requires !req.isStaticFunction
    ensures Step(actions, ownerName, req) == (actions, Err(NotStaticFunction))
  {
  }

  /** A custom action without a string `type` is rejected before any entry is written. */
  lemma MissingActionTypeRejected(actions: map<string, seq<Entry>>, ownerName: string, req: Request)
    requires req.isStaticFunction
    requires req.options.action.Some? && req.options.action.value.typeProperty.None?
    ensures Step(actions, ownerName, req) == (actions, Err(MissingActionType))
  {
  }

  /** Which type a valid registration resolves to: the custom action's, else the explicit one, else the default. */
  lemma ResolvedTypeRule(ownerName: string, key: Key, options: Options)
    requires options.action.Some? ==> options.action.value.typeProperty.Some?
    ensures ResolveType(ownerName, key, options).Ok?
    ensures options.action.Some? ==>
      ResolveType(ownerName, key, options).value == options.action.value.typeProperty.value
    ensures options.action.None? && options.explicitType.Some? && options.explicitType.value != "" ==>
      ResolveType(ownerName, key, options).value == options.explicitType.value
    ensures options.action.None? && (options.explicitType.None? || options.explicitType.value == "") ==>
      ResolveType(ownerName, key, options).value == ownerName + "." + KeyString(key)
  {
  }

  /** A type already in the table is rejected with a message naming it, and the table is untouched. */
  lemma DuplicateTypeRejected(actions: map<string, seq<Entry>>, ownerName: string, req: Request, t: string)
    requires req.isStaticFunction
    requires ResolveType(ownerName, req.key, req.options) == Ok(t)
    requires t in actions
    ensures Step(actions, ownerName, req) == (actions, Err(DuplicateType(t)))
    ensures ErrorMessage(DuplicateType(t)) == "Method decorated with such type `" + t + "` already exists"
  {
  }

  /** A successful registration adds one single-entry list under the new type and changes no other key. */
  lemma SuccessAddsOneEntry(actions: map<string, seq<Entry>>, ownerName: string, req: Request)
    requires Step(actions, ownerName, req).1.Ok?
    ensures var (next, r) := Step(actions, ownerName, req);
      && r.value !in actions
      && r == ResolveType(ownerName, req.key, req.options)
      && next.Keys == actions.Keys + {r.value}
      && next[r.value] == [Entry(KeyString(req.key), EntryOptions(None), r.value)]
      && forall t :: t in actions ==> next[t] == actions[t]
  {
  }

  /** One registration either leaves the table as it was or adds its new type alone. */
  lemma StepFrame(actions: map<string, seq<Entry>>, ownerName: string, req: Request)
    ensures var (next, r) := Step(actions, ownerName, req);
      && (r.Err? ==> next == actions)
      && (r.Ok? ==> r.value !in actions && next == actions[r.value := NewEntry(req.key, r.value)])
  {
  }

  /** Default types of two members of one class coincide only if their keys' string forms do. */
  lemma DefaultTypeInjective(ownerName: string, k1: Key, k2: Key)
    requires DefaultType(ownerName, k1) == DefaultType(ownerName, k2)
    ensures KeyString(k1) == KeyString(k2)
  {
    var prefix := |ownerName| + 1;
    assert DefaultType(ownerName, k1)[prefix..] == KeyString(k1);
    assert DefaultType(ownerName, k2)[prefix..] == KeyString(k2);
  }

  /** Registering methods in order never changes or removes an entry that was already there. */
  lemma {:induction false} RegisterAllKeepsEntries(actions: map<string, seq<Entry>>, ownerName: string, reqs: seq<Request>)
    ensures var final := RegisterAll(actions, ownerName, reqs).0;
      forall t :: t in actions ==> t in final && final[t] == actions[t]
    decreases |reqs|
  {
    if reqs != [] {
      var next := Step(actions, ownerName, reqs[0]).0;
      RegisterAllKeepsEntries(next, ownerName, reqs[1..]);
    }
  }

  /**
   * Registering methods in order: every success is a type new to the table and
   * different from every other success, the table holds exactly its old entries plus
   * one single-entry list per success, and nothing else.
   */
  lemma {:induction false} RegisterAllTypesUnique(actions: map<string, seq<Entry>>, ownerName: string, reqs: seq<Request>)
    ensures var (final, rs) := RegisterAll(actions, ownerName, reqs);
      && (forall i :: 0 <= i < |rs| && rs[i].Ok? ==>
            rs[i].value !in actions && rs[i].value in final && final[rs[i].value] == NewEntry(reqs[i].key, rs[i].value))
      && (forall i, j :: 0 <= i < j < |rs| && rs[i].Ok? && rs[j].Ok? ==> rs[i].value != rs[j].value)
      && (forall t :: t in final ==> t in actions || Ok(t) in rs)
    decreases |reqs|
  {
    if reqs != [] {
      var (next, r) := Step(actions, ownerName, reqs[0]);
      var (final, rs) := RegisterAll(next, ownerName, reqs[1..]);
      StepFrame(actions, ownerName, reqs[0]);
      RegisterAllTypesUnique(next, ownerName, reqs[1..]);
      RegisterAllKeepsEntries(next, ownerName, reqs[1..]);
      var all := [r] + rs;
      assert RegisterAll(actions, ownerName, reqs) == (final, all);
      forall i | 0 <= i < |all| && all[i].Ok?
        ensures all[i].value !in actions && all[i].value in final && final[all[i].value] == NewEntry(reqs[i].key, all[i].value)
      {
        if i > 0 {
          assert all[i] == rs[i - 1];
        }
      }
      forall i, j | 0 <= i < j < |all| && all[i].Ok? && all[j].Ok?
        ensures all[i].value != all[j].value
      {
        assert all[j] == rs[j - 1];
        if i > 0 {
          assert all[i] == rs[i - 1];
        }
      }
      forall t | t in final
        ensures t in actions || Ok(t) in all
      {
        if Ok(t) in rs {
          var k :| 0 <= k < |rs| && rs[k] == Ok(t);
          assert all[k + 1] == Ok(t);
        }
      }
    }
  }

  /** Two registrations resolving to one new type: whichever comes first wins, the other fails. */
  lemma DuplicateRejectedEitherOrder(actions: map<string, seq<Entry>>, ownerName: string, a: Request, b: Request, t: string)
    requires a.isStaticFunction && b.isStaticFunction
    requires ResolveType(ownerName, a.key, a.options) == Ok(t)
    requires ResolveType(ownerName, b.key, b.options) == Ok(t)
    requires t !in actions
    ensures RegisterAll(actions, ownerName, [a, b]).1 == [Ok(t), Err(DuplicateType(t))]
    ensures RegisterAll(actions, ownerName, [b, a]).1 == [Ok(t), Err(DuplicateType(t))]
  {
    assert [a, b][1..] == [b];
    assert [b, a][1..] == [a];
  }

  /** The rule the `@Emitter` duplicate test checks, stated for this decorator: the second method asking for `foo` fails. */
  lemma TestScenarios()
    ensures var foo := Options(Some("foo"), None);
      RegisterAll(map[], "BarState", [Request(Named("foo1"), true, foo), Request(Named("foo2"), true, foo)]).1
        == [Ok("foo"), Err(DuplicateType("foo"))]
  {
    var foo := Options(Some("foo"), None);
    DuplicateRejectedEitherOrder(map[], "BarState", Request(Named("foo1"), true, foo), Request(Named("foo2"), true, foo), "foo");
  }

  /**
   * Applies `@Receiver(options)` to the static member `key` of `target`, whose property
   * descriptor holds `descriptorValue`. Either it throws and changes none of the modelled state, or it files
   * the new entry, attaches `{type, action}` to the handler and installs the prototype delegate.
   */
  method Receiver(options: Options, target: Target, key: Key, descriptorValue: Slot)
    returns (r: Result<string, RegisterError>)
    modifies target.meta, target`prototype, SlotObjects(descriptorValue)
    ensures (target.meta.actions, r)
         == Step(old(target.meta.actions), target.NameText(),
                 Request(key, IsStaticFunction(descriptorValue, target.isPrototype, target.members, key), options))
    ensures target.isPrototype ==> r == Err(NotStaticFunction)
    ensures r.Err? ==> unchanged(target, target.meta) && unchanged(SlotObjects(descriptorValue))
    ensures r.Ok? ==>
      descriptorValue.FunctionValue? && descriptorValue.handler.receiverMeta == Some(ReceiverMeta(r.value, options.action))
    ensures r.Ok? ==> target.prototype == old(target.prototype)[Named(KeyString(key)) := key]
    ensures r.Ok? ==>
      var fn := Named(target.meta.actions[r.value][0].fn);
      fn in target.prototype && target.prototype[fn] in target.members && target.members[target.prototype[fn]].FunctionValue?
  {
    if target.isPrototype || !(descriptorValue.FunctionValue? && key in target.members && target.members[key].FunctionValue?) {
      return Err(NotStaticFunction);
    }
    var keyString := KeyString(key);
    var meta := target.meta;
    var action := options.action;
    if action.Some? && action.value.typeProperty.None? {
      return Err(MissingActionType);
    }
    var actionType :=
      if action.Some? then action.value.typeProperty.value
      else if options.explicitType.Some? && options.explicitType.value != "" then options.explicitType.value
      else target.NameText() + "." + keyString;
    if actionType in meta.actions {
      return Err(DuplicateType(actionType));
    }
    meta.actions := meta.actions[actionType := [Entry(keyString, EmptyOptions, actionType)]];
    descriptorValue.handler.receiverMeta := Some(ReceiverMeta(actionType, action));
    var delegate := IntendedDelegate(key);
    target.prototype := target.prototype[delegate.installedAt := delegate.calls];
    r := Ok(actionType);
  }

  /** The `@Emitter` test with an explicit type, replayed on objects: the handler's metadata carries `@@[bar]`. */
  method ExplicitTypeScenario() returns (meta: Option<ReceiverMeta>)
    ensures meta == Some(ReceiverMeta("@@[bar]", None))
  {
    var foo := new Handler();
    var store := new StoreMeta();
    var barState := new Target(false, "BarState", map[Named("foo") := FunctionValue(foo)], store);
    assert IsStaticFunction(FunctionValue(foo), false, barState.members, Named("foo"));
    var r := Receiver(Options(Some("@@[bar]"), None), barState, Named("foo"), FunctionValue(foo));
    meta := foo.receiverMeta;
  }

  /** The `@Emitter` test with the default type, replayed on objects: the handler's metadata carries `BarState.foo`. */
  method DefaultTypeScenario() returns (meta: Option<ReceiverMeta>)
    ensures meta == Some(ReceiverMeta("BarState.foo", None))
  {
    var foo := new Handler();
    var store := new StoreMeta();
    var barState := new Target(false, "BarState", map[Named("foo") := FunctionValue(foo)], store);
    assert IsStaticFunction(FunctionValue(foo), false, barState.members, Named("foo"));
    assert barState.NameText() + "." + KeyString(Named("foo")) == "BarState.foo";
    var r := Receiver(Options(None, None), barState, Named("foo"), FunctionValue(foo));
    meta := foo.receiverMeta;
  }

  /** The `@Emitter` duplicate test, replayed on objects: the second method asking for `foo` throws. */
  method DuplicateTypeScenario() returns (first: Result<string, RegisterError>, second: Result<string, RegisterError>)
    ensures first == Ok("foo") && second == Err(DuplicateType("foo"))
    ensures ErrorMessage(second.error) == "Method decorated with such type `foo` already exists"
  {
    var foo1 := new Handler();
    var foo2 := new Handler();
    var store := new StoreMeta();
    var members := map[Named("foo1") := FunctionValue(foo1), Named("foo2") := FunctionValue(foo2)];
    var barState := new Target(false, "BarState", members, store);
    assert IsStaticFunction(FunctionValue(foo1), false, members, Named("foo1"));
    assert IsStaticFunction(FunctionValue(foo2), false, members, Named("foo2"));
    first := Receiver(Options(Some("foo"), None), barState, Named("foo1"), FunctionValue(foo1));
    assert "foo" in store.actions;
    second := Receiver(Options(Some("foo"), None), barState, Named("foo2"), FunctionValue(foo2));
  }
}
