/**
 * WeakMap objects (section 23.3 of ECMAScript 2015): an object wrapping the
 * host map that holds its entries, its class name and display string, and
 * WeakMap.prototype.
 */
module WeakMaps {
  import opened JSValues
  import opened ObjectHeap

  const CLASS_NAME: string := "WeakMap"

  /** isJSWeakMap: an object whose shape records the WeakMap class; false for every non-object. */
  predicate IsJSWeakMap(v: Value)
  {
    HasClass(v, WeakMapClass)
  }

  /** getInternalWeakMap: the host map the object wraps. */
  function GetInternalWeakMap(v: Value): WeakHashMap
    requires IsJSWeakMap(v) && WellFormed(v)
  {
    v.obj.kind.weakHashMap
  }

  /** create: a new WeakMap object around a new, empty host map. */
  method Create(id: ObjId, factoryShape: Shape) returns (v: Value)
    requires factoryShape.cls == WeakMapClass
    ensures IsJSWeakMap(v) && WellFormed(v)
    ensures fresh(GetInternalWeakMap(v))
  {
    var weakMap := new WeakHashMap();
    v := Obj(ObjectRef(id, factoryShape, WeakMapObject(weakMap)));
  }

  /** getClassName. */
  function ClassName(v: Value): (name: string)
    ensures name == CLASS_NAME
  {
    CLASS_NAME
  }

  /** toDisplayStringImpl: the class name, in brackets in Nashorn mode. */
  function ToDisplayString(nashornCompatibilityMode: bool, v: Value): (s: string)
    ensures nashornCompatibilityMode ==> s == "[WeakMap]"
    ensures !nashornCompatibilityMode ==> s == "WeakMap"
  {
    if nashornCompatibilityMode then "[" + ClassName(v) + "]" else ClassName(v)
  }

  /** Two creations wrap two distinct host maps. */
  method CreateTwice(id1: ObjId, id2: ObjId, factoryShape: Shape) returns (a: Value, b: Value)
    requires factoryShape.cls == WeakMapClass
    ensures IsJSWeakMap(a) && WellFormed(a) && IsJSWeakMap(b) && WellFormed(b)
    ensures GetInternalWeakMap(a) != GetInternalWeakMap(b)
  {
    a := Create(id1, factoryShape);
    b := Create(id2, factoryShape);
  }

  /** isJSWeakMap never holds for a primitive. */
  lemma PrimitivesAreNotWeakMaps(v: Value)
    requires !v.Obj?
    ensures !IsJSWeakMap(v)
  {
  }

  /**
   * createPrototype: an ordinary object whose prototype is Object.prototype,
   * with `constructor`, the WeakMap.prototype builtins, and @@toStringTag
   * "WeakMap" (configurable, neither enumerable nor writable).
   */
  method CreatePrototype(id: ObjId, ordinaryShape: Shape, objectPrototype: JSObject, ctor: Value,
                         builtins: map<PropertyKey, Value>) returns (proto: JSObject)
    requires ordinaryShape.cls == OrdinaryClass
    ensures fresh(proto)
    ensures proto.kind == OrdinaryObject && proto.shape == ordinaryShape
    ensures proto.prototype == Some(objectPrototype)
    ensures proto.properties ==
              (map[CONSTRUCTOR_KEY := Property(ctor, NOT_ENUMERABLE)] + FunctionProperties(builtins))
                [SymbolKey(SymbolToStringTag) := Property(Str(CLASS_NAME), CONFIGURABLE_NOT_ENUMERABLE_NOT_WRITABLE)]
    ensures proto.properties[SymbolKey(SymbolToStringTag)].attributes == Attributes(false, false, true)
  {
    proto := new JSObject(id, ordinaryShape, OrdinaryObject);
    proto.SetOrVerifyPrototype(objectPrototype);
    proto.PutConstructorProperty(ctor);
    proto.PutFunctionsFromContainer(builtins);
    proto.PutDataProperty(SymbolKey(SymbolToStringTag), Str(CLASS_NAME), CONFIGURABLE_NOT_ENUMERABLE_NOT_WRITABLE);
  }
}
