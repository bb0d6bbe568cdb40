/**
 * The `new` operator (section 11.2.2 of ECMAScript 5.1) and Proxy [[Construct]]
 * (section 9.5.14 of ECMAScript 2015): dispatch on the kind of the target, the
 * allocation of the receiver for a constructor call, and the cache that maps a
 * constructor's observed `prototype` to the shape of the objects it allocates.
 *
 * Everything the node calls into (the function-call nodes, property reads, the
 * proxy trap lookup, the foreign construct, argument export) is a field of
 * `Engine`: a deterministic function whose behaviour is not modelled.
 */
module NewOperator {
  import opened JSValues

  /** Slots before the user arguments in a call's argument array: `this` and the callee. */
  const RUNTIME_ARGUMENT_COUNT: nat := 2

  const NEW_KEY: PropertyKey := StringKey("__new__")
  const CONSTRUCT_TRAP: PropertyKey := StringKey("construct")

  datatype Engine = Engine(
    /** JSFunctionCallNode.createNew(): calls the callee at index 1 of the argument array. */
    callNew: seq<Value> -> Completion,
    /** JSFunctionCallNode.createNewTarget(): as callNew, with new.target at index 2. */
    callNewTarget: seq<Value> -> Completion,
    /** JSRuntime.call / JSFunction.call(callee, this, arguments). */
    call: (Value, Value, seq<Value>) -> Completion,
    /** JSObject.get(object, key). */
    get: (Value, PropertyKey) -> Completion,
    /** JSProxy.getTrapFromObject(handler, name); Undefined when there is no trap. */
    getTrap: (Value, PropertyKey) -> Completion,
    /** JSInteropNodeUtil.construct(target, arguments). */
    foreignConstruct: (Value, seq<Value>) -> Completion,
    /** ExportValueNode: converts one argument before it is handed to a foreign constructor. */
    exportValue: Value -> Value,
    /** JSForeignToJSTypeNode: converts a foreign constructor's result back. */
    toJSType: Value -> Value,
    /** JSArray.createConstantObjectArray. */
    createArray: seq<Value> -> Value
  )

  /** JSArguments.createInitial filled with the user arguments. */
  function CreateInitial(thisObj: Value, callee: Value, user: seq<Value>): (frame: seq<Value>)
    ensures |frame| == RUNTIME_ARGUMENT_COUNT + |user|
    ensures frame[0] == thisObj && frame[1] == callee
    ensures frame[RUNTIME_ARGUMENT_COUNT..] == user
  {
    [thisObj, callee] + user
  }

  /** JSArguments.createInitialWithNewTarget filled with the user arguments. */
  function CreateInitialWithNewTarget(thisObj: Value, callee: Value, newTarget: Value, user: seq<Value>): (frame: seq<Value>)
    ensures |frame| == RUNTIME_ARGUMENT_COUNT + 1 + |user|
    ensures frame[0] == thisObj && frame[1] == callee && frame[2] == newTarget
    ensures frame[RUNTIME_ARGUMENT_COUNT + 1..] == user
  {
    [thisObj, callee, newTarget] + user
  }

  /** The specialization of JSNewNode a target selects. */
  datatype NewCase = FunctionCase | AdapterCase | ProxyCase | JavaPackageCase | ForeignCase | NotConstructorCase

  function CaseOf(target: Value): (c: NewCase)
    ensures c == NotConstructorCase <==>
              !IsJSFunction(target) && !IsJSAdapter(target) && !IsProxy(target)
              && !IsJavaPackage(target) && !IsForeignObject(target)
  {
    if IsJSFunction(target) then FunctionCase
    else if IsJSAdapter(target) then AdapterCase
    else if IsProxy(target) then ProxyCase
    else if IsJavaPackage(target) then JavaPackageCase
    else if IsForeignObject(target) then ForeignCase
    else NotConstructorCase
  }

  /** doNewReturnThis: one call with the CONSTRUCT marker as `this` and the target as callee. */
  function DoNewReturnThis(engine: Engine, target: Value, args: seq<Value>): Completion
  {
    engine.callNew(CreateInitial(ConstructMarker, target, args))
  }

  /** doJSAdapter: call the adaptee's `__new__` with the adapter as `this`, if it is a function. */
  function DoJSAdapter(engine: Engine, adapter: Value, args: seq<Value>): Completion
    requires IsJSAdapter(adapter) && Consistent(adapter.obj)
  {
    match engine.get(adapter.obj.kind.adaptee, NEW_KEY)
    case Err(e) => Err(e)
    case Ok(newFunction) =>
      if IsJSFunction(newFunction) then engine.call(newFunction, adapter, args) else Ok(Undefined)
  }

  /** doNewJSProxy: Proxy [[Construct]]. */
  function DoNewJSProxy(engine: Engine, proxy: Value, args: seq<Value>): Completion
    requires IsProxy(proxy) && Consistent(proxy.obj)
  {
    var p := proxy.obj.kind;
    if !p.isConstructor then Err(TypeErrorOf(NotAFunction(SubjectValue(proxy))))
    else if p.handler.None? then Err(TypeErrorOf(ProxyRevoked))
    else
      var handler := p.handler.value;
      match engine.getTrap(handler, CONSTRUCT_TRAP)
      case Err(e) => Err(e)
      case Ok(trap) =>
        if trap == Undefined then
          if IsJSObject(p.target) then
            engine.callNewTarget(CreateInitialWithNewTarget(ConstructMarker, p.target, proxy, args))
          else
            engine.foreignConstruct(p.target, args)
        else
          match engine.call(trap, handler, [p.target, engine.createArray(args), proxy])
          case Err(e) => Err(e)
          case Ok(result) =>
            if IsJSObject(result) then Ok(result) else Err(TypeErrorOf(NotAnObject(result)))
  }

  /** Each argument converted by `exportValue`, in order. */
  function ExportAll(exportValue: Value -> Value, args: seq<Value>): (r: seq<Value>)
    ensures |r| == |args|
    ensures forall i :: 0 <= i < |args| ==> r[i] == exportValue(args[i])
  {
    seq(|args|, i requires 0 <= i < |args| => exportValue(args[i]))
  }

  /** doNewForeignObject: construct through interop with exported arguments, then convert the result. */
  function DoNewForeignObject(engine: Engine, target: Value, args: seq<Value>): Completion
  {
    match engine.foreignConstruct(target, ExportAll(engine.exportValue, args))
    case Err(e) => Err(e)
    case Ok(v) => Ok(engine.toJSType(v))
  }

  /** createClassNotFoundError. */
  function CreateClassNotFoundError(target: Value): Completion
    requires IsJavaPackage(target) && Consistent(target.obj)
  {
    Err(TypeErrorOf(ClassNotFound(target.obj.kind.packageName)))
  }

  /** createFunctionTypeError: names the target's source text when there is one. */
  function CreateFunctionTypeError(nashornCompatibilityMode: bool, targetText: Option<string>, target: Value): Completion
  {
    var subject := if targetText.Some? then SubjectText(targetText.value) else SubjectValue(target);
    if nashornCompatibilityMode then Err(TypeErrorOf(NotAFunction(subject)))
    else Err(TypeErrorOf(NotAConstructor(subject)))
  }

  /** JSNewNode.execute: the result of `new target(...args)`. */
  function Construct(engine: Engine, nashornCompatibilityMode: bool, targetText: Option<string>,
                     target: Value, args: seq<Value>): Completion
    requires WellFormed(target)
  {
    match CaseOf(target)
    case FunctionCase => DoNewReturnThis(engine, target, args)
    case AdapterCase => DoJSAdapter(engine, target, args)
    case ProxyCase => DoNewJSProxy(engine, target, args)
    case JavaPackageCase => CreateClassNotFoundError(target)
    case ForeignCase => DoNewForeignObject(engine, target, args)
    case NotConstructorCase => CreateFunctionTypeError(nashornCompatibilityMode, targetText, target)
  }

  // ---------------------------------------------------------------------------
  // Properties of the dispatch

  /** A function target is constructed by exactly one callNew with CONSTRUCT as `this`, the target as callee and the user arguments after the runtime slots. */
  lemma FunctionTargetCallsCallNew(engine: Engine, nashorn: bool, text: Option<string>, target: Value, args: seq<Value>)
    requires WellFormed(target) && IsJSFunction(target)
    ensures exists frame ::
              && Construct(engine, nashorn, text, target, args) == engine.callNew(frame)
              && |frame| == RUNTIME_ARGUMENT_COUNT + |args|
              && frame[0] == ConstructMarker && frame[1] == target
              && frame[RUNTIME_ARGUMENT_COUNT..] == args
  {
    var frame := CreateInitial(ConstructMarker, target, args);
    assert Construct(engine, nashorn, text, target, args) == engine.callNew(frame);
  }

  /** A proxy that is not a constructor fails with "not a function" whatever its handler and trap would do. */
  lemma NonConstructorProxyFailsFirst(e1: Engine, e2: Engine, nashorn: bool, text: Option<string>, proxy: Value, args: seq<Value>)
    requires WellFormed(proxy) && IsProxy(proxy) && !proxy.obj.kind.isConstructor
    ensures Construct(e1, nashorn, text, proxy, args) == Construct(e2, nashorn, text, proxy, args)
              == Err(TypeErrorOf(NotAFunction(SubjectValue(proxy))))
  {
  }

  /** A constructor proxy without a construct trap constructs a JS-object target with new.target = the proxy, and hands any other target to the foreign construct. */
  lemma ProxyWithoutTrapForwards(engine: Engine, nashorn: bool, text: Option<string>, proxy: Value, args: seq<Value>)
    requires WellFormed(proxy) && IsProxy(proxy)
    requires proxy.obj.kind.isConstructor && proxy.obj.kind.handler.Some?
    requires engine.getTrap(proxy.obj.kind.handler.value, CONSTRUCT_TRAP) == Ok(Undefined)
    ensures var target := proxy.obj.kind.target;
            Construct(engine, nashorn, text, proxy, args) ==
              if IsJSObject(target) then
                engine.callNewTarget(CreateInitialWithNewTarget(ConstructMarker, target, proxy, args))
              else engine.foreignConstruct(target, args)
  {
  }

  /** A construct trap is called with the handler as `this` and (target, argument array, proxy); only an object result is returned, unchanged. */
  lemma ProxyTrapResultMustBeObject(engine: Engine, nashorn: bool, text: Option<string>, proxy: Value, args: seq<Value>, trap: Value)
    requires WellFormed(proxy) && IsProxy(proxy)
    requires proxy.obj.kind.isConstructor && proxy.obj.kind.handler.Some?
    requires engine.getTrap(proxy.obj.kind.handler.value, CONSTRUCT_TRAP) == Ok(trap) && trap != Undefined
    ensures var p := proxy.obj.kind;
            var callResult := engine.call(trap, p.handler.value, [p.target, engine.createArray(args), proxy]);
            var r := Construct(engine, nashorn, text, proxy, args);
            && (callResult.Err? ==> r == callResult)
            && (callResult.Ok? && IsJSObject(callResult.value) ==> r == callResult)
            && (callResult.Ok? && !IsJSObject(callResult.value) ==> r == Err(TypeErrorOf(NotAnObject(callResult.value))))
  {
  }

  /** `new` on a JSAdapter returns what the adaptee's `__new__` returns when that is a function, and undefined otherwise. */
  lemma AdapterUsesNewFunction(engine: Engine, nashorn: bool, text: Option<string>, adapter: Value, args: seq<Value>)
    requires WellFormed(adapter) && IsJSAdapter(adapter)
    requires engine.get(adapter.obj.kind.adaptee, NEW_KEY).Ok?
    ensures var f := engine.get(adapter.obj.kind.adaptee, NEW_KEY).value;
            Construct(engine, nashorn, text, adapter, args) ==
              if IsJSFunction(f) then engine.call(f, adapter, args) else Ok(Undefined)
  {
  }

  /** Every target that is no function, adapter, proxy, Java package or foreign object is rejected without consulting the engine: "not a function" in Nashorn mode, "not a constructor" otherwise. */
  lemma OtherTargetsAreRejected(e1: Engine, e2: Engine, nashorn: bool, text: Option<string>, target: Value, args: seq<Value>)
    requires WellFormed(target) && CaseOf(target) == NotConstructorCase
    ensures var r := Construct(e1, nashorn, text, target, args);
            && r == Construct(e2, nashorn, text, target, args)
            && r.Err? && r.exception.thrown.ErrorThrown? && r.exception.thrown.errorType == TypeError
            && (nashorn <==> r.exception.thrown.message.NotAFunction?)
            && (!nashorn <==> r.exception.thrown.message.NotAConstructor?)
  {
  }

  /** A Java package target always fails with "class not found" naming the package. */
  lemma JavaPackageIsClassNotFound(engine: Engine, nashorn: bool, text: Option<string>, target: Value, args: seq<Value>)
    requires WellFormed(target) && IsJavaPackage(target)
    ensures Construct(engine, nashorn, text, target, args) == Err(TypeErrorOf(ClassNotFound(target.obj.kind.packageName)))
  {
  }

  /** In-place conversion of the arguments before a foreign construct (the loop in doNewForeignObject). */
  method ExportArguments(args: array<Value>, exportValue: Value -> Value)
    modifies args
    ensures args[..] == ExportAll(exportValue, old(args[..]))
  {
    for i := 0 to args.Length
      invariant forall k :: 0 <= k < i ==> args[k] == exportValue(old(args[k]))
      invariant forall k :: i <= k < args.Length ==> args[k] == old(args[k])
    {
      args[i] := exportValue(args[i]);
    }
  }

  /**
   * A `new` expression node: the specializations it has activated and the
   * call nodes it has inserted, both of which only ever grow.
   */
  class JSNewNode {
    const nashornCompatibilityMode: bool
    /** The source text of the target expression, used in error messages. */
    const targetText: Option<string>
    var activeCases: set<NewCase>
    var callNewInserted: bool
    var callNewTargetInserted: bool

    constructor (nashornCompatibilityMode: bool, targetText: Option<string>)
      ensures this.nashornCompatibilityMode == nashornCompatibilityMode && this.targetText == targetText
      ensures activeCases == {} && !callNewInserted && !callNewTargetInserted
    {
      this.nashornCompatibilityMode := nashornCompatibilityMode;
      this.targetText := targetText;
      activeCases := {};
      callNewInserted := false;
      callNewTargetInserted := false;
    }

    /** Whether constructing `proxy` goes through the new.target call node. */
    static predicate UsesCallNewTarget(engine: Engine, proxy: Value)
      requires IsProxy(proxy) && Consistent(proxy.obj)
    {
      var p := proxy.obj.kind;
      p.isConstructor && p.handler.Some?
      && engine.getTrap(p.handler.value, CONSTRUCT_TRAP) == Ok(Undefined)
      && IsJSObject(p.target)
    }

    method Execute(engine: Engine, target: Value, args: seq<Value>) returns (r: Completion)
      requires WellFormed(target)
      modifies this
      ensures r == Construct(engine, nashornCompatibilityMode, targetText, target, args)
      ensures activeCases == old(activeCases) + {CaseOf(target)}
      ensures callNewInserted == (old(callNewInserted) || CaseOf(target) == FunctionCase)
      ensures callNewTargetInserted ==
                (old(callNewTargetInserted) || (CaseOf(target) == ProxyCase && UsesCallNewTarget(engine, target)))
    {
      activeCases := activeCases + {CaseOf(target)};
      match CaseOf(target)
      case FunctionCase =>
        callNewInserted := true;
        r := engine.callNew(CreateInitial(ConstructMarker, target, args));
      case AdapterCase =>
        r := DoJSAdapter(engine, target, args);
      case ProxyCase =>
        if UsesCallNewTarget(engine, target) {
          callNewTargetInserted := true;
        }
        r := DoNewJSProxy(engine, target, args);
      case JavaPackageCase =>
        r := CreateClassNotFoundError(target);
      case ForeignCase =>
        var a := new Value[|args|](i requires 0 <= i < |args| => args[i]);
        assert a[..] == args;
        ExportArguments(a, engine.exportValue);
        var constructed := engine.foreignConstruct(target, a[..]);
        r := if constructed.Ok? then Ok(engine.toJSType(constructed.value)) else constructed;
      case NotConstructorCase =>
        r := CreateFunctionTypeError(nashornCompatibilityMode, targetText, target);
    }
  }

  // ---------------------------------------------------------------------------
  // SpecializedNewObjectNode: allocation of the receiver

  /** What the prototype-shape cache hands to the allocation: a shape, the prototype itself (multi-context), or nothing usable. */
  datatype PrototypeShape = ChildShape(shape: Shape) | PrototypeInObject(proto: ObjectRef) | NoPrototypeObject

  datatype Factory = OrdinaryFactory | GeneratorFactory | AsyncGeneratorFactory

  /** The object to allocate as receiver. */
  datatype Allocation =
    | WithShape(shape: Shape)
    | WithPrototypeInObject(proto: ObjectRef)
    | FromFactory(factory: Factory, realm: RealmId)

  /** The receiver: the CONSTRUCT marker (the builtin allocates itself) or a new object. */
  datatype Receiver = ConstructThis | Allocate(allocation: Allocation)

  /** SpecializedNewObjectNode.execute for a constructor with flags `data`, given the cache's answer and the function's realm. */
  function CreateReceiver(data: FunctionData, target: Value, prototypeShape: PrototypeShape, functionRealm: RealmId): (r: Result<Receiver>)
    ensures !data.isConstructor <==> r.Err?
    ensures r.Err? ==> r.exception == TypeErrorOf(NotConstructible(target))
    ensures data.isConstructor && data.isBuiltin ==> r == Ok(ConstructThis)
    ensures data.isConstructor && !data.isBuiltin ==> r.Ok? && r.value.Allocate?
    ensures data.isConstructor && !data.isBuiltin && prototypeShape.ChildShape? ==>
              r == Ok(Allocate(WithShape(prototypeShape.shape)))
    ensures data.isConstructor && !data.isBuiltin && prototypeShape.PrototypeInObject? ==>
              r == Ok(Allocate(WithPrototypeInObject(prototypeShape.proto)))
    ensures data.isConstructor && !data.isBuiltin && prototypeShape.NoPrototypeObject? ==>
              r.Ok? && r.value.Allocate? && r.value.allocation.FromFactory?
              && r.value.allocation.realm == functionRealm
              && (data.isAsyncGenerator ==> r.value.allocation.factory == AsyncGeneratorFactory)
              && (!data.isAsyncGenerator && data.isGenerator ==> r.value.allocation.factory == GeneratorFactory)
              && (!data.isAsyncGenerator && !data.isGenerator ==> r.value.allocation.factory == OrdinaryFactory)
  {
    if !data.isConstructor then Err(TypeErrorOf(NotConstructible(target)))
    else if data.isBuiltin then Ok(ConstructThis)
    else
      match prototypeShape
      case ChildShape(s) => Ok(Allocate(WithShape(s)))
      case PrototypeInObject(p) => Ok(Allocate(WithPrototypeInObject(p)))
      case NoPrototypeObject =>
        var factory :=
          if data.isAsyncGenerator then AsyncGeneratorFactory
          else if data.isGenerator then GeneratorFactory
          else OrdinaryFactory;
        Ok(Allocate(FromFactory(factory, functionRealm)))
  }

  // ---------------------------------------------------------------------------
  // CachedPrototypeShapeNode

  /** getProtoChildShape: the shape for children of an object prototype, nothing for any other value. */
  function ProtoChildShape(prototype: Value, childShape: ObjectRef -> Shape): (r: PrototypeShape)
    ensures prototype.Obj? <==> r.ChildShape?
    ensures !prototype.Obj? ==> r == NoPrototypeObject
  {
    if prototype.Obj? then ChildShape(childShape(prototype.obj)) else NoPrototypeObject
  }

  /** doUncachedMulti / doNotObject: the multi-context answer. */
  function MultiContextPrototype(prototype: Value): (r: PrototypeShape)
    ensures prototype.Obj? ==> r == PrototypeInObject(prototype.obj)
    ensures !prototype.Obj? ==> r == NoPrototypeObject
  {
    if prototype.Obj? then PrototypeInObject(prototype.obj) else NoPrototypeObject
  }

  /**
   * What the guard `prototype == cachedPrototype` compares: an object by its
   * identity (so the same object with a changed shape is the same key), any
   * other value by itself.
   */
  datatype PrototypeKey = ObjectKey(id: ObjId) | PrimitiveKey(value: Value)

  function KeyOf(prototype: Value): PrototypeKey
  {
    if prototype.Obj? then ObjectKey(prototype.obj.id) else PrimitiveKey(prototype)
  }

  /** Two prototypes share a key exactly when they are the same object, or the same non-object value. */
  lemma SameKeyIffSameIdentity(a: Value, b: Value)
    ensures KeyOf(a) == KeyOf(b) <==> (a.Obj? && b.Obj? && a.obj.id == b.obj.id) || (!a.Obj? && !b.Obj? && a == b)
  {
  }

  datatype CacheEntry = CacheEntry(key: PrototypeKey, shape: PrototypeShape)

  /**
   * The per-site cache of (prototype identity, child shape). It holds at most
   * `cacheLimit` entries (PropertyCacheLimit); one prototype more and the
   * uncached path replaces it for good. In multi-context mode it is never used.
   */
  class CachedPrototypeShapeNode {
    const multiContext: bool
    const cacheLimit: nat
    var entries: seq<CacheEntry>
    var uncached: bool

    ghost predicate Valid()
      reads this
    {
      && |entries| <= cacheLimit
      && (uncached ==> entries == [])
      && (multiContext ==> entries == [] && !uncached)
      && (forall i, j :: 0 <= i < j < |entries| ==> entries[i].key != entries[j].key)
      && (forall i :: 0 <= i < |entries| ==>
            (entries[i].key.ObjectKey? <==> entries[i].shape.ChildShape?)
            && (entries[i].key.PrimitiveKey? ==> entries[i].shape == NoPrototypeObject))
    }

    constructor (multiContext: bool, cacheLimit: nat)
      ensures Valid()
      ensures this.multiContext == multiContext && this.cacheLimit == cacheLimit
      ensures entries == [] && !uncached
    {
      this.multiContext := multiContext;
      this.cacheLimit := cacheLimit;
      entries := [];
      uncached := false;
    }

    /** The index of the entry whose prototype is `prototype` (by identity), if there is one. */
    function Find(prototype: Value): (k: Option<nat>)
      reads this
      ensures k.Some? ==> k.value < |entries| && entries[k.value].key == KeyOf(prototype)
      ensures k.None? ==> forall i :: 0 <= i < |entries| ==> entries[i].key != KeyOf(prototype)
    {
      FindFrom(entries, KeyOf(prototype), 0)
    }

    static function FindFrom(es: seq<CacheEntry>, key: PrototypeKey, from: nat): (k: Option<nat>)
      requires from <= |es|
      ensures k.Some? ==> from <= k.value < |es| && es[k.value].key == key
      ensures k.None? ==> forall i :: from <= i < |es| ==> es[i].key != key
      decreases |es| - from
    {
      if from == |es| then None
      else if es[from].key == key then Some(from)
      else FindFrom(es, key, from + 1)
    }

    /** executeWithPrototype, with getProtoChildShape as it stands at this call. */
    method ExecuteWithPrototype(prototype: Value, childShape: ObjectRef -> Shape) returns (r: PrototypeShape)
      requires Valid()
      modifies this
      ensures Valid()
      ensures old(uncached) ==> uncached
      ensures !prototype.Obj? ==> r == NoPrototypeObject
      ensures multiContext ==> r == MultiContextPrototype(prototype) && unchanged(this)
      // a hit returns the shape computed when the entry was made
      ensures !multiContext && old(Find(prototype)).Some? ==>
                r == old(entries[Find(prototype).value].shape) && unchanged(this)
      // a miss computes the shape now ...
      ensures !multiContext && old(Find(prototype)).None? ==> r == ProtoChildShape(prototype, childShape)
      // ... and records it while there is room,
      ensures !multiContext && old(Find(prototype)).None? && !old(uncached) && |old(entries)| < cacheLimit ==>
                entries == old(entries) + [CacheEntry(KeyOf(prototype), r)] && !uncached
      // otherwise the uncached path takes over for good
      ensures !multiContext && old(Find(prototype)).None? && (old(uncached) || |old(entries)| >= cacheLimit) ==>
                uncached && entries == []
    {
      if multiContext {
        r := MultiContextPrototype(prototype);
        return;
      }
      var k := Find(prototype);
      if k.Some? {
        r := entries[k.value].shape;
      } else {
        r := ProtoChildShape(prototype, childShape);
        if !uncached && |entries| < cacheLimit {
          entries := entries + [CacheEntry(KeyOf(prototype), r)];
        } else {
          uncached := true;
          entries := [];
        }
      }
    }

    /**
     * The same prototype object, seen again after its shape changed (a property
     * was added to it), still hits: it gets the child shape of the first call
     * and neither a second entry nor the uncached path.
     */
    method SameObjectHitsAfterShapeChange(before: ObjectRef, after: ObjectRef, childShape: ObjectRef -> Shape)
      returns (first: PrototypeShape, second: PrototypeShape)
      requires Valid() && !multiContext && !uncached
      requires Find(Obj(before)).Some? || |entries| < cacheLimit
      requires after.id == before.id
      modifies this
      ensures Valid()
      ensures second == first && first.ChildShape?
      ensures !uncached && Find(Obj(after)).Some?
      ensures |entries| == |old(entries)| + (if old(Find(Obj(before))).Some? then 0 else 1)
    {
      ghost var key := KeyOf(Obj(before));
      assert KeyOf(Obj(after)) == key;
      first := ExecuteWithPrototype(Obj(before), childShape);
      // the first call leaves an entry for the object at some index `k` that holds `first`
      ghost var k: nat;
      if old(Find(Obj(before))).Some? {
        k := old(Find(Obj(before))).value;
      } else {
        k := |entries| - 1;
        assert entries[k] == CacheEntry(key, first);
      }
      assert entries[k].key == key && entries[k].shape == first;
      assert Find(Obj(after)).Some?;
      ghost var entriesBefore := entries;
      second := ExecuteWithPrototype(Obj(after), childShape);
      assert second == entriesBefore[Find(Obj(after)).value].shape;
    }
  }

  /**
   * SpecializedNewObjectNode: the receiver allocation of a constructor call.
   * The constructor's `prototype` property (read by the runtime, here given as
   * `prototype`) goes through the shape cache before the flags are looked at.
   */
  class SpecializedNewObjectNode {
    const data: FunctionData
    const cachedShapeNode: CachedPrototypeShapeNode

    constructor (data: FunctionData, multiContext: bool, propertyCacheLimit: nat)
      ensures this.data == data && fresh(cachedShapeNode) && cachedShapeNode.Valid()
      ensures cachedShapeNode.multiContext == multiContext && cachedShapeNode.cacheLimit == propertyCacheLimit
      ensures cachedShapeNode.entries == [] && !cachedShapeNode.uncached
    {
      this.data := data;
      cachedShapeNode := new CachedPrototypeShapeNode(multiContext, propertyCacheLimit);
    }

    method Execute(target: Value, prototype: Value, childShape: ObjectRef -> Shape, functionRealm: RealmId)
      returns (r: Result<Receiver>)
      requires cachedShapeNode.Valid()
      modifies cachedShapeNode
      ensures cachedShapeNode.Valid()
      ensures old(cachedShapeNode.uncached) ==> cachedShapeNode.uncached
      // multi-context: the prototype itself, and the cache is untouched
      ensures cachedShapeNode.multiContext ==>
                r == CreateReceiver(data, target, MultiContextPrototype(prototype), functionRealm)
                && unchanged(cachedShapeNode)
      // a hit allocates with the shape cached for this prototype object
      ensures !cachedShapeNode.multiContext && old(cachedShapeNode.Find(prototype)).Some? ==>
                r == CreateReceiver(data, target,
                                    old(cachedShapeNode.entries[cachedShapeNode.Find(prototype).value].shape),
                                    functionRealm)
                && unchanged(cachedShapeNode)
      // a miss allocates with the child shape computed now ...
      ensures !cachedShapeNode.multiContext && old(cachedShapeNode.Find(prototype)).None? ==>
                r == CreateReceiver(data, target, ProtoChildShape(prototype, childShape), functionRealm)
      // ... which is recorded while there is room,
      ensures !cachedShapeNode.multiContext && old(cachedShapeNode.Find(prototype)).None?
              && !old(cachedShapeNode.uncached) && |old(cachedShapeNode.entries)| < cachedShapeNode.cacheLimit ==>
                cachedShapeNode.entries == old(cachedShapeNode.entries)
                                           + [CacheEntry(KeyOf(prototype), ProtoChildShape(prototype, childShape))]
                && !cachedShapeNode.uncached
      // otherwise the cache gives way to the uncached path for good
      ensures !cachedShapeNode.multiContext && old(cachedShapeNode.Find(prototype)).None?
              && (old(cachedShapeNode.uncached) || |old(cachedShapeNode.entries)| >= cachedShapeNode.cacheLimit) ==>
                cachedShapeNode.uncached && cachedShapeNode.entries == []
    {
      var shape := cachedShapeNode.ExecuteWithPrototype(prototype, childShape);
      r := CreateReceiver(data, target, shape, functionRealm);
    }
  }
}
