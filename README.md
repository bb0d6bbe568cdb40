# graal-js kind dispatch and adaptive specialisation, in Dafny

This project models the part of the graal-js runtime that decides, from the
kind of an operand, what a node does. It also models how such a node narrows
itself to the cases it has seen, and a few small stateful pieces around it:

- `new` (section 11.2.2 of ECMAScript 5.1), with Proxy [[Construct]]
  (section 9.5.14 of ECMAScript 2015).
  - The target's kind selects one of six specializations: function,
    JSAdapter, proxy, Java package, foreign object, or anything else.
  - The receiver of a constructor call is allocated from the constructor's
    flags and its `prototype`.
  - A per-site cache maps each observed prototype to the shape of the objects
    it allocates. It holds at most `PropertyCacheLimit` prototypes; one more
    and the uncached path replaces it for good. In multi-context mode the
    cache is never used.
- IsCallable (section 7.2.3 of ECMAScript 2015). A one-shape function cache
  answers it until the generic function case replaces that cache.
- Logical NOT (section 11.4.9 of ECMAScript 5.1), with ToBoolean (section
  7.1.2 of ECMAScript 2015). This covers the `!` node's evaluation and the
  peephole rewrite its factory applies (`!!x`, constant folding).
- Ordinary objects in the default layout: four reference slots, three `long`
  slots, indexed reads through the decimal string of the index, and copies
  without properties.
- Boolean wrapper objects and WeakMap objects:
  - the immutable payload (a boolean, or a host map);
  - the kind tests, class names and display strings;
  - their prototypes, built by successive property puts.
- The realm boundary root node:
  - it enters the function's realm when it is not the current one, and leaves
    it on every exit;
  - a JavaScript exception is attributed to the realm if it had none;
  - a host stack overflow becomes a RangeError;
  - the two "seen" flags only go from false to true.
- The realm's clock:
  - it is quantised to the timer resolution;
  - otherwise it is fuzzed and clamped so that it never goes backwards.
- Other realm state: the set-once Realm builtin, lazily created singletons,
  and the table of error constructors indexed by error type.

## How the model is organised

| Dafny file | module | Java source |
|---|---|---|
| `values.dfy` | `JSValues` | values, shapes, object kinds, errors shared by all nodes |
| `new_node.dfy` | `NewOperator` | `JSNewNode`, `SpecializedNewObjectNode`, `CachedPrototypeShapeNode` |
| `is_callable.dfy` | `Callable` | `IsCallableNode` |
| `not_node.dfy` | `LogicalNot` | `JSNotNode` |
| `ordinary_object.dfy` | `OrdinaryObjects` | `JSOrdinaryObject` and its `DefaultLayout` |
| `object_heap.dfy` | `ObjectHeap` | the `JSObjectUtil` puts that prototype creation performs |
| `boolean_object.dfy` | `BooleanObjects` | `JSBoolean` |
| `weak_map.dfy` | `WeakMaps` | `JSWeakMap` |
| `realm_boundary.dfy` | `RealmBoundary` | `JavaScriptRealmBoundaryRootNode` |
| `realm.dfy` | `Realm` | the clock, lazy fields, Realm builtin and error constructors of `JSRealm` |

Values are datatypes. An object seen at a dispatch site is an `ObjectRef`: its
identity, its shape and the immutable payload of its Java class. The class
tests (`isJSFunction`, `isProxy`, ...) read the class recorded in the shape,
as the runtime's guards do. `Consistent` is the runtime invariant that this
class matches the payload.

Node state that the runtime changes in place is held in classes, whose methods
state the new state with `old`:

- the prototype-shape cache;
- the IsCallable shape cache;
- the call nodes a `new` node inserts lazily;
- the default layout's slots;
- the realm boundary's flags;
- the realm's fields.

The services a node calls but whose code is not part of this model are fields
of the `Engine` datatype: function calls, property reads, the proxy trap lookup,
the foreign construct, argument export and array creation. They are arbitrary
deterministic functions. The host clock and the random source are method
inputs.

## Model

| member | source | states |
|---|---|---|
| `NewOperator.CreateInitial` | graal-js/src/com.oracle.truffle.js/src/com/oracle/truffle/js/nodes/function/JSNewNode.java:164-165 | the call frame holds `this`, then the callee, then exactly the user arguments after the two runtime slots |
| `NewOperator.CreateInitialWithNewTarget` | graal-js/src/com.oracle.truffle.js/src/com/oracle/truffle/js/nodes/function/JSNewNode.java:195-196 | as above with new.target in the third slot and the user arguments after it |
| `NewOperator.CaseOf` | graal-js/src/com.oracle.truffle.js/src/com/oracle/truffle/js/nodes/function/JSNewNode.java:268 | the catch-all case is selected exactly when the target is no function, adapter, proxy, Java package or foreign object |
| `NewOperator.FunctionTargetCallsCallNew` | graal-js/src/com.oracle.truffle.js/src/com/oracle/truffle/js/nodes/function/JSNewNode.java:161-167 | `new f(...)` on a function is one callNew whose frame has CONSTRUCT as `this`, f as callee and the user arguments after the runtime slots |
| `NewOperator.AdapterUsesNewFunction` | graal-js/src/com.oracle.truffle.js/src/com/oracle/truffle/js/nodes/function/JSNewNode.java:169-178 | on a JSAdapter the result is the adaptee's `__new__` called with the adapter as `this` if it is a function, and undefined otherwise |
| `NewOperator.NonConstructorProxyFailsFirst` | graal-js/src/com.oracle.truffle.js/src/com/oracle/truffle/js/nodes/function/JSNewNode.java:185-187 | a proxy that is not a constructor fails with TypeError "not a function", the same under any engine, so before handler or trap is consulted |
| `NewOperator.ProxyWithoutTrapForwards` | graal-js/src/com.oracle.truffle.js/src/com/oracle/truffle/js/nodes/function/JSNewNode.java:188-200 | with no construct trap, a JS-object target is constructed with new.target = the proxy; any other target goes to the foreign construct |
| `NewOperator.ProxyTrapResultMustBeObject` | graal-js/src/com.oracle.truffle.js/src/com/oracle/truffle/js/nodes/function/JSNewNode.java:202-208 | the trap is called with the handler as `this` and (target, argument array, proxy); its error propagates, an object result is returned unchanged, anything else is TypeError "not an object" |
| `NewOperator.JavaPackageIsClassNotFound` | graal-js/src/com.oracle.truffle.js/src/com/oracle/truffle/js/nodes/function/JSNewNode.java:211-215 | a Java package target fails with TypeError "class not found" naming the package |
| `NewOperator.OtherTargetsAreRejected` | graal-js/src/com.oracle.truffle.js/src/com/oracle/truffle/js/nodes/function/JSNewNode.java:267-277 | every other target fails with a TypeError independent of the engine: "not a function" exactly in Nashorn mode, "not a constructor" exactly otherwise |
| `NewOperator.ExportAll` | graal-js/src/com.oracle.truffle.js/src/com/oracle/truffle/js/nodes/function/JSNewNode.java:234-236 | the exported arguments keep their number and each is the export of the argument at the same position |
| `NewOperator.ExportArguments` | graal-js/src/com.oracle.truffle.js/src/com/oracle/truffle/js/nodes/function/JSNewNode.java:229-236 | the in-place loop leaves the argument array equal to the exported arguments |
| `NewOperator.JSNewNode.Execute` | graal-js/src/com.oracle.truffle.js/src/com/oracle/truffle/js/nodes/function/JSNewNode.java:161-299 | the node's result is `Construct` of the target; the active cases and the lazily inserted callNew/callNewTarget nodes only grow, and each call node is inserted exactly when its path runs |
| `NewOperator.CreateReceiver` | graal-js/src/com.oracle.truffle.js/src/com/oracle/truffle/js/nodes/function/JSNewNode.java:344-376 | a non-constructor is TypeError "not constructible" and nothing else is; a builtin gets the CONSTRUCT marker; a user constructor gets an object of the cached shape, or the prototype stored in the object, or an async-generator > generator > ordinary object from the function's realm |
| `NewOperator.ProtoChildShape` | graal-js/src/com.oracle.truffle.js/src/com/oracle/truffle/js/nodes/function/JSNewNode.java:406-412 | an object prototype gives a child shape, and any other value gives undefined |
| `NewOperator.MultiContextPrototype` | graal-js/src/com.oracle.truffle.js/src/com/oracle/truffle/js/nodes/function/JSNewNode.java:434-442 | in multi-context mode an object prototype is returned as-is and any other value gives undefined |
| `NewOperator.CachedPrototypeShapeNode.constructor` | graal-js/src/com.oracle.truffle.js/src/com/oracle/truffle/js/nodes/function/JSNewNode.java:390-397 | a new cache is empty, not yet replaced, and satisfies the cache invariant |
| `NewOperator.CachedPrototypeShapeNode.FindFrom` | graal-js/src/com.oracle.truffle.js/src/com/oracle/truffle/js/nodes/function/JSNewNode.java:415 | the index found holds the key; no index means no entry from there on holds it |
| `NewOperator.SameKeyIffSameIdentity` | graal-js/src/com.oracle.truffle.js/src/com/oracle/truffle/js/nodes/function/JSNewNode.java:415 | two prototypes share a cache key exactly when they are the same object (whatever its current shape) or the same non-object value |
| `NewOperator.CachedPrototypeShapeNode.Find` | graal-js/src/com.oracle.truffle.js/src/com/oracle/truffle/js/nodes/function/JSNewNode.java:415-420 | the `prototype == cachedPrototype` lookup: a hit is an entry with the prototype's identity key, and a miss means no entry has that key |
| `NewOperator.CachedPrototypeShapeNode.ExecuteWithPrototype` | graal-js/src/com.oracle.truffle.js/src/com/oracle/truffle/js/nodes/function/JSNewNode.java:414-442 | a hit returns the shape first computed for that prototype and changes nothing; a miss computes it and appends it while fewer than the limit are cached; otherwise the uncached path takes over for good. The invariant holds throughout: at most the limit, prototypes distinct by identity, non-objects map to undefined, empty and never uncached in multi-context mode |
| `NewOperator.CachedPrototypeShapeNode.SameObjectHitsAfterShapeChange` | graal-js/src/com.oracle.truffle.js/src/com/oracle/truffle/js/nodes/function/JSNewNode.java:414-420 | the same prototype object seen again after its shape changed hits: it gets the first call's child shape, adds no second entry and does not make the cache uncached |
| `NewOperator.SpecializedNewObjectNode.Execute` | graal-js/src/com.oracle.truffle.js/src/com/oracle/truffle/js/nodes/function/JSNewNode.java:306-376 | the prototype passes through the shape cache first. The receiver is `CreateReceiver` of the cache's answer: the prototype itself in multi-context mode, the cached shape on a hit, or the child shape computed now on a miss. A miss is recorded while there is room and otherwise turns the cache uncached for good |
| `Callable.IsCallableMeansHasCall` | graal-js/src/com.oracle.truffle.js.nodes/src/com/oracle/truffle/js/nodes/unary/IsCallableNode.java:73-107 | the specializations together decide exactly whether the value has a [[Call]] internal method |
| `Callable.FunctionsAreCallable` | graal-js/src/com.oracle.truffle.js.nodes/src/com/oracle/truffle/js/nodes/unary/IsCallableNode.java:73-84 | every JS function is callable |
| `Callable.ProxyCallableIffCallableProxy` | graal-js/src/com.oracle.truffle.js.nodes/src/com/oracle/truffle/js/nodes/unary/IsCallableNode.java:86-89 | a proxy is callable exactly when it is a callable proxy |
| `Callable.ForeignCallableIffExecutable` | graal-js/src/com.oracle.truffle.js.nodes/src/com/oracle/truffle/js/nodes/unary/IsCallableNode.java:91-95 | a foreign object is callable exactly when it is executable |
| `Callable.OthersAreNotCallable` | graal-js/src/com.oracle.truffle.js.nodes/src/com/oracle/truffle/js/nodes/unary/IsCallableNode.java:97-107 | strings, and every value that is no function, proxy or foreign object, are not callable |
| `Callable.IsCallableNode.Execute` | graal-js/src/com.oracle.truffle.js.nodes/src/com/oracle/truffle/js/nodes/unary/IsCallableNode.java:73-84 | the answer does not depend on the cache state. The shape cache holds at most one function shape: it is filled by the first function, a hit changes nothing, and a second shape replaces it by the generic case for good |
| `LogicalNot.NotOf` | graal-js/src/com.oracle.truffle.js.nodes/src/com/oracle/truffle/js/nodes/unary/JSNotNode.java:59-68 | on a boolean the result is its negation, and on every operand it is `!ToBoolean(operand)`, so both specializations agree |
| `LogicalNot.NotYieldsNegatedToBoolean` | graal-js/src/com.oracle.truffle.js.nodes/src/com/oracle/truffle/js/nodes/unary/JSNotNode.java:64-73 | a `!` node yields the boolean `!ToBoolean(operand)` and reports boolean as its result type |
| `LogicalNot.AlwaysBooleanIsSound` | graal-js/src/com.oracle.truffle.js.nodes/src/com/oracle/truffle/js/nodes/unary/JSNotNode.java:70-73 | a node that reports boolean as its only result type does yield a boolean |
| `LogicalNot.CreatePreservesMeaning` | graal-js/src/com.oracle.truffle.js.nodes/src/com/oracle/truffle/js/nodes/unary/JSNotNode.java:24-41 | whatever `create` builds evaluates to the same value as the plain `!operand` |
| `LogicalNot.CreateKeepsHonestBoolean` | graal-js/src/com.oracle.truffle.js.nodes/src/com/oracle/truffle/js/nodes/unary/JSNotNode.java:24-41 | the node `create` returns always yields a boolean, so a later rewrite may drop a `!` above it |
| `LogicalNot.DoubleNegation` | graal-js/src/com.oracle.truffle.js.nodes/src/com/oracle/truffle/js/nodes/unary/JSNotNode.java:25-31 | `!!x` becomes `x` exactly when `x` always yields a boolean; otherwise the NOT node is kept |
| `LogicalNot.FoldBooleanConstant` | graal-js/src/com.oracle.truffle.js.nodes/src/com/oracle/truffle/js/nodes/unary/JSNotNode.java:32-34 | `!c` for a boolean constant folds to the constant `!c` |
| `LogicalNot.FoldIntegerConstant` | graal-js/src/com.oracle.truffle.js.nodes/src/com/oracle/truffle/js/nodes/unary/JSNotNode.java:35-38 | `!n` for an integer constant folds to `n == 0`, which equals `!ToBoolean(n)` |
| `LogicalNot.NoSuperOperationsKeepsNot` | graal-js/src/com.oracle.truffle.js.nodes/src/com/oracle/truffle/js/nodes/unary/JSNotNode.java:40 | with super-operations off, `create` always builds the plain NOT node |
| `JSValues.ToBoolean` | graal-js/src/com.oracle.truffle.js.nodes/src/com/oracle/truffle/js/nodes/unary/JSNotNode.java:66-67 | a boolean is itself, objects and symbols are true, undefined and null are false |
| `OrdinaryObjects.DefaultLayout.constructor` | graal-js/src/com.oracle.truffle.js/src/com/oracle/truffle/js/runtime/objects/JSOrdinaryObject.java:53-55 | `create(shape)` yields a default-layout object carrying exactly that shape, with four reference slots and three `long` slots, none written |
| `OrdinaryObjects.DefaultLayout.GetOwnValue` | graal-js/src/com.oracle.truffle.js/src/com/oracle/truffle/js/runtime/objects/JSOrdinaryObject.java:74-81 | a key the shape does not describe has no value in the object |
| `OrdinaryObjects.DefaultLayout.GetIndexedValue` | graal-js/src/com.oracle.truffle.js/src/com/oracle/truffle/js/runtime/objects/JSOrdinaryObject.java:62-67 | an indexed read finds a value only if the shape has the property named by the index's decimal string |
| `OrdinaryObjects.IndexedReadIsStringRead` | graal-js/src/com.oracle.truffle.js/src/com/oracle/truffle/js/runtime/objects/JSOrdinaryObject.java:62-67 | `getValue(index)` is the read of the decimal string of `index`, and two different indices never name the same property |
| `OrdinaryObjects.DecimalStringRoundTrip` | graal-js/src/com.oracle.truffle.js/src/com/oracle/truffle/js/runtime/objects/JSOrdinaryObject.java:66 | the decimal string of every integer reads back as that integer |
| `OrdinaryObjects.DecimalStringInjective` | graal-js/src/com.oracle.truffle.js/src/com/oracle/truffle/js/runtime/objects/JSOrdinaryObject.java:66 | two integers with the same decimal string are equal |
| `OrdinaryObjects.DefaultLayout.HasOnlyShapeProperties` | graal-js/src/com.oracle.truffle.js/src/com/oracle/truffle/js/runtime/objects/JSOrdinaryObject.java:69-72 | it holds for every ordinary object, and every property the object has is described by its shape |
| `OrdinaryObjects.DefaultLayout.ClassName` | graal-js/src/com.oracle.truffle.js/src/com/oracle/truffle/js/runtime/objects/JSOrdinaryObject.java:57-60 | the class name is the ordinary-object class name "Object" |
| `OrdinaryObjects.DefaultLayout.SetOwnValue` | graal-js/src/com.oracle.truffle.js/src/com/oracle/truffle/js/runtime/objects/JSOrdinaryObject.java:74-81 | a write lands in the slot the shape assigns; it succeeds exactly when the key is in the shape and the slot can hold the value. Afterwards the key reads back the value, and when locations are distinct no other key changes |
| `OrdinaryObjects.DefaultLayout.CopyWithoutProperties` | graal-js/src/com.oracle.truffle.js/src/com/oracle/truffle/js/runtime/objects/JSOrdinaryObject.java:87-90 | the copy is a fresh default-layout object with the given shape and no values; the original is untouched |
| `ObjectHeap.FunctionProperties` | graal-js/src/com.oracle.truffle.js/src/com/oracle/truffle/js/runtime/builtins/JSBoolean.java:118 | every builtin of the container becomes a property of the same name holding it, not enumerable |
| `ObjectHeap.JSObject.SetOrVerifyPrototype` | graal-js/src/com.oracle.truffle.js/src/com/oracle/truffle/js/runtime/builtins/JSBoolean.java:115 | the object's prototype becomes the given object; its properties do not change |
| `ObjectHeap.JSObject.PutConstructorProperty` | graal-js/src/com.oracle.truffle.js/src/com/oracle/truffle/js/runtime/builtins/JSBoolean.java:117 | `constructor` is defined as writable, configurable and not enumerable; nothing else changes |
| `ObjectHeap.JSObject.PutFunctionsFromContainer` | graal-js/src/com.oracle.truffle.js/src/com/oracle/truffle/js/runtime/builtins/JSBoolean.java:118 | the container's functions are added over the existing properties |
| `ObjectHeap.JSObject.PutDataProperty` | graal-js/src/com.oracle.truffle.js/src/com/oracle/truffle/js/runtime/builtins/JSWeakMap.java:111 | the key is defined with the given value and attributes; nothing else changes |
| `BooleanObjects.Create` | graal-js/src/com.oracle.truffle.js/src/com/oracle/truffle/js/runtime/builtins/JSBoolean.java:104-108 | the created object satisfies isJSBoolean and its valueOf is the boolean it was created with |
| `BooleanObjects.CreateValueOfRoundTrip` | graal-js/src/com.oracle.truffle.js/src/com/oracle/truffle/js/runtime/builtins/JSBoolean.java:132-135 | wrappers created from different booleans are never the same object value, whatever their identity and shape, because valueOf gives back the boolean given at creation |
| `BooleanObjects.PrimitivesAreNotBooleanObjects` | graal-js/src/com.oracle.truffle.js/src/com/oracle/truffle/js/runtime/builtins/JSBoolean.java:137-139 | isJSBoolean is false on every non-object |
| `BooleanObjects.ClassName` | graal-js/src/com.oracle.truffle.js/src/com/oracle/truffle/js/runtime/builtins/JSBoolean.java:145-153 | the class name is "Boolean" for every value |
| `BooleanObjects.BuiltinToStringTag` | graal-js/src/com.oracle.truffle.js/src/com/oracle/truffle/js/runtime/builtins/JSBoolean.java:155-158 | the builtin toStringTag equals the class name |
| `BooleanObjects.BooleanToString` | graal-js/src/com.oracle.truffle.js/src/com/oracle/truffle/js/runtime/builtins/JSBoolean.java:62-63 | true prints as "true" and false as "false" |
| `BooleanObjects.ToDisplayString` | graal-js/src/com.oracle.truffle.js/src/com/oracle/truffle/js/runtime/builtins/JSBoolean.java:165-175 | Nashorn mode gives "[Boolean " + value + "]"; otherwise it is the console form of the object with tag "Boolean" and its primitive value |
| `BooleanObjects.NashornDisplayDeterminesValue` | graal-js/src/com.oracle.truffle.js/src/com/oracle/truffle/js/runtime/builtins/JSBoolean.java:168-169 | two wrappers with the same Nashorn display string wrap the same boolean |
| `BooleanObjects.CreatePrototype` | graal-js/src/com.oracle.truffle.js/src/com/oracle/truffle/js/runtime/builtins/JSBoolean.java:110-120 | Boolean.prototype is a fresh Boolean wrapper of false; its prototype is Object.prototype, and its properties are `constructor` and the prototype builtins |
| `WeakMaps.Create` | graal-js/src/com.oracle.truffle.js/src/com/oracle/truffle/js/runtime/builtins/JSWeakMap.java:90-96 | the created object satisfies isJSWeakMap, and getInternalWeakMap returns a host map allocated by this call |
| `WeakMaps.CreateTwice` | graal-js/src/com.oracle.truffle.js/src/com/oracle/truffle/js/runtime/builtins/JSWeakMap.java:90-103 | two creations wrap two distinct host maps |
| `WeakMaps.PrimitivesAreNotWeakMaps` | graal-js/src/com.oracle.truffle.js/src/com/oracle/truffle/js/runtime/builtins/JSWeakMap.java:145-147 | isJSWeakMap is false on every non-object |
| `WeakMaps.ClassName` | graal-js/src/com.oracle.truffle.js/src/com/oracle/truffle/js/runtime/builtins/JSWeakMap.java:125-133 | the class name is "WeakMap" for every value |
| `WeakMaps.ToDisplayString` | graal-js/src/com.oracle.truffle.js/src/com/oracle/truffle/js/runtime/builtins/JSWeakMap.java:135-143 | "[WeakMap]" in Nashorn mode and "WeakMap" otherwise |
| `WeakMaps.CreatePrototype` | graal-js/src/com.oracle.truffle.js/src/com/oracle/truffle/js/runtime/builtins/JSWeakMap.java:105-113 | WeakMap.prototype is a fresh ordinary object whose prototype is Object.prototype, with `constructor`, the builtins, and @@toStringTag "WeakMap" that is configurable, not enumerable and not writable |
| `RealmBoundary.SelectRealm` | graal-js/src/com.oracle.truffle.js/src/com/oracle/truffle/js/runtime/JavaScriptRealmBoundaryRootNode.java:75-84 | the body always runs in the function's realm. Without child realms no context is entered; otherwise one is entered exactly when the function's realm is not the current one |
| `RealmBoundary.BracketIsBalanced` | graal-js/src/com.oracle.truffle.js/src/com/oracle/truffle/js/runtime/JavaScriptRealmBoundaryRootNode.java:88-114 | each execution leaves exactly as often as it enters, at most once. The body runs once, in the function's realm, between the enter and the leave back to the previous realm |
| `RealmBoundary.ContextState.Enter` | graal-js/src/com.oracle.truffle.js/src/com/oracle/truffle/js/runtime/JavaScriptRealmBoundaryRootNode.java:88-91 | entering makes the realm current and returns the previous one |
| `RealmBoundary.ContextState.Leave` | graal-js/src/com.oracle.truffle.js/src/com/oracle/truffle/js/runtime/JavaScriptRealmBoundaryRootNode.java:110-114 | leaving restores the previous realm |
| `RealmBoundary.ContextState.RunBody` | graal-js/src/com.oracle.truffle.js/src/com/oracle/truffle/js/runtime/JavaScriptRealmBoundaryRootNode.java:93 | the body runs in the then current realm and leaves it current |
| `RealmBoundary.JavaScriptRealmBoundaryRootNode.constructor` | graal-js/src/com.oracle.truffle.js/src/com/oracle/truffle/js/runtime/JavaScriptRealmBoundaryRootNode.java:60-65 | both seen flags start false |
| `RealmBoundary.JavaScriptRealmBoundaryRootNode.Execute` | graal-js/src/com.oracle.truffle.js/src/com/oracle/truffle/js/runtime/JavaScriptRealmBoundaryRootNode.java:67-115 | see the note below the table |
| `Realm.WrapLong` | graal-js/src/com.oracle.truffle.js.runtime/src/com/oracle/truffle/js/runtime/JSRealm.java:1271 | Java `long` addition: the exact sum when it fits, otherwise the value congruent to it modulo 2^64 |
| `Realm.TruncDivRem` | graal-js/src/com.oracle.truffle.js.runtime/src/com/oracle/truffle/js/runtime/JSRealm.java:1274-1278 | Java's `/` and `%` with a positive divisor: quotient times divisor plus remainder is the dividend, and the remainder has the dividend's sign and is smaller than the divisor |
| `Realm.TruncateTo` | graal-js/src/com.oracle.truffle.js.runtime/src/com/oracle/truffle/js/runtime/JSRealm.java:1278 | `ns - ns % d` is a multiple of `d`, between zero and `ns`, and less than `d` away from `ns` |
| `Realm.QuantizeIsTruncation` | graal-js/src/com.oracle.truffle.js.runtime/src/com/oracle/truffle/js/runtime/JSRealm.java:1273-1274 | `(ns / resolution) * resolution` is that truncation to a multiple of the resolution |
| `Realm.Fuzz` | graal-js/src/com.oracle.truffle.js.runtime/src/com/oracle/truffle/js/runtime/JSRealm.java:1277 | the fuzz lies in [1, 1000000] |
| `Realm.Max` | graal-js/src/com.oracle.truffle.js.runtime/src/com/oracle/truffle/js/runtime/JSRealm.java:1279-1285 | the fuzzy result is the larger of the new time and the last one |
| `Realm.JSRealm.constructor` | graal-js/src/com.oracle.truffle.js.runtime/src/com/oracle/truffle/js/runtime/JSRealm.java:255-259 | the clock offsets come from the host clock at creation; lastFuzzyTime starts at Long.MIN_VALUE; the lazy fields start empty; every error type's slot is filled |
| `Realm.OrdinalsAreSlots` | graal-js/src/com.oracle.truffle.js.runtime/src/com/oracle/truffle/js/runtime/JSRealm.java:424-426 | the ordinal of the j-th error type is j, so each type has its own slot |
| `JSValues.Ordinal` | graal-js/src/com.oracle.truffle.js.runtime/src/com/oracle/truffle/js/runtime/JSRealm.java:426 | the ordinal is an index of the error-type list at which that type stands |
| `Realm.JSRealm.InitializeErrorConstructors` | graal-js/src/com.oracle.truffle.js.runtime/src/com/oracle/truffle/js/runtime/JSRealm.java:423-428 | after the loop every error type's slot holds the constructor created for that type |
| `Realm.JSRealm.GetErrorConstructorIsPerType` | graal-js/src/com.oracle.truffle.js.runtime/src/com/oracle/truffle/js/runtime/JSRealm.java:448-450 | getErrorConstructor reads the slot of the type's ordinal, which holds that type's constructor; distinct types use distinct slots |
| `Realm.JSRealm.NanoTime` | graal-js/src/com.oracle.truffle.js.runtime/src/com/oracle/truffle/js/runtime/JSRealm.java:1270-1287 | see the note below the table |
| `Realm.JSRealm.NanoTimeFromStart` | graal-js/src/com.oracle.truffle.js.runtime/src/com/oracle/truffle/js/runtime/JSRealm.java:1266-1268 | nanoTime() is nanoTime with the zero-time offset: the same value and the same `lastFuzzyTime` update in both modes; no other field changes |
| `Realm.JSRealm.CurrentTimeMillis` | graal-js/src/com.oracle.truffle.js.runtime/src/com/oracle/truffle/js/runtime/JSRealm.java:1289-1291 | the nanoTime reading with the wall-clock offset, in either mode, divided by 1000000 and truncated toward zero. `lastFuzzyTime` is updated as by nanoTime and no other field changes |
| `Realm.JSRealm.FuzzyClockIsMonotone` | graal-js/src/com.oracle.truffle.js.runtime/src/com/oracle/truffle/js/runtime/JSRealm.java:1279-1286 | in fuzzy mode two successive readings never decrease, whatever the host clock and random source return |
| `Realm.JSRealm.SetRealmBuiltinObject` | graal-js/src/com.oracle.truffle.js.runtime/src/com/oracle/truffle/js/runtime/JSRealm.java:1102-1107 | the first non-null object is stored and published as the global "Realm"; a null argument or any later call changes nothing |
| `Realm.JSRealm.GetJavaPackageToPrimitiveFunction` | graal-js/src/com.oracle.truffle.js.runtime/src/com/oracle/truffle/js/runtime/JSRealm.java:605-610 | created on the first call, the same value afterwards; no other field changes |
| `Realm.JSRealm.GetTemplateRegistry` | graal-js/src/com.oracle.truffle.js.runtime/src/com/oracle/truffle/js/runtime/JSRealm.java:612-617 | a fresh empty registry on the first call, the same registry afterwards |
| `Realm.JSRealm.CreateTemplateRegistry` | graal-js/src/com.oracle.truffle.js.runtime/src/com/oracle/truffle/js/runtime/JSRealm.java:619-624 | creates a fresh empty registry only when there is none |
| `Realm.JSRealm.GetRegexResult` | graal-js/src/com.oracle.truffle.js.runtime/src/com/oracle/truffle/js/runtime/JSRealm.java:1192-1198 | the regex engine's empty result on the first call, the stored result afterwards |
| `Realm.JSRealm.SetRegexResult` | graal-js/src/com.oracle.truffle.js.runtime/src/com/oracle/truffle/js/runtime/JSRealm.java:1200-1204 | replaces the stored result; no other field changes |
| `Realm.JSRealm.GetConsoleUtil` | graal-js/src/com.oracle.truffle.js.runtime/src/com/oracle/truffle/js/runtime/JSRealm.java:1297-1303 | a fresh console helper on the first call, the same one afterwards |

Two rows need more room than a table cell.

`RealmBoundary.JavaScriptRealmBoundaryRootNode.Execute`:

- The current realm is restored.
- The trace is the balanced bracket around one run of the body.
- A return value passes through.
- A JS exception is rethrown. It gets the realm only if it had none. `seenException` becomes true; `seenNullRealm` becomes true exactly when the exception had no realm.
- A stack overflow becomes a fresh RangeError attributed to the realm.
- Both flags only go from false to true.

`Realm.JSRealm.NanoTime`:

- With a positive resolution, the result is host time plus offset (wrapped to a `long`), truncated to a multiple of the resolution. `lastFuzzyTime` is untouched.
- Otherwise the result is the larger of `lastFuzzyTime` and that time truncated to a multiple of the fuzz. `lastFuzzyTime` becomes the result, so it never decreases.
- No other field changes.

## Left out

- Floating-point numbers: numbers are integers. ToBoolean of NaN and ±0.0 is not modelled.
- Instrumentation (`hasTag`, `getNodeObject`, `materializeInstrumentableNodes`) and `copyUninitialized`. They do not affect results.
- `doNewForeignObject` in Nashorn mode extends an abstract Java class by reflection (`JSNewNode.java:238-246`, `extend`, `throwCannotExtendError`). The model always constructs the original foreign target.
- Truffle DSL matching on non-objects. The prototype cache compares objects by identity, as the runtime does, but other values by value. The runtime compares references, so two equal boxed primitives count as one key here. The IsCallable cache compares shapes by value.
- What the services do: `JSFunctionCallNode`, `JSObject.get`, the proxy trap lookup, `JSInteropNodeUtil.construct`, `ExportValueNode`, `JSForeignToJSTypeNode`, `JSArray.createConstantObjectArray`, `getProtoChildShape` and `JSRuntime.getFunctionRealm`. They are inputs. The `prototype` property read of `SpecializedNewObjectNode` is an input too.
- NewOperator.CreateReceiver: describes the object to allocate (shape, prototype in object, or factory and realm) instead of building it.
- OrdinaryObjects.DefaultLayout.GetOwnValue: reads own properties only. In the runtime, `getValue` goes on to the prototype chain through `JSObject.get`, which is not part of this model.
- ObjectHeap.JSObject.Ref: carries the shape given at allocation. The puts record properties in `properties`; the shape transitions they cause in the runtime are not modelled.
- OrdinaryObjects.DefaultLayout.SetOwnValue: writes only properties the shape already has. Adding a property or changing a location's type changes the shape in the runtime; that is the storage layer and not part of this model.
- BooleanObjects.ToDisplayString: outside Nashorn mode the text comes from `JSRuntime.objectToConsoleString`, an input here.
- WeakMap weak-reference and garbage-collection behaviour; the host map is an opaque handle.
- LogicalNot: the result type of constant nodes is assumed. A boolean constant reports boolean and an integer constant does not. `JSConstantNode` is not part of this model, and every other operand node says for itself whether it always yields a boolean.
- RealmBoundary.JavaScriptRealmBoundaryRootNode.Execute: the body (`executeInRealm`) is given as its outcome. Any context switches inside it are assumed balanced and are not recorded. Host throwables other than stack overflow pass through unchanged.
- Realm.JSRealm.SetRegexResult: the runtime asserts that the new result is a match; that check on regex results is not modelled.
- The `synchronized` of `createTemplateRegistry`; only its sequential effect is modelled.
- `JSRealm`'s constructor body beyond the clock offsets and the error constructors (global setup, builtins, Java interop, output streams) is not part of this model.
