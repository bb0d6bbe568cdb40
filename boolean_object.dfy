/**
 * Boolean wrapper objects (section 19.3 of ECMAScript 2015): an object whose
 * immutable payload is one boolean, its class name, display string and the
 * Boolean.prototype object, which is itself a wrapper of `false`.
 */
module BooleanObjects {
  import opened JSValues
  import opened ObjectHeap

  const CLASS_NAME: string := "Boolean"
  const TRUE_NAME: string := "true"
  const FALSE_NAME: string := "false"

  /** isJSBoolean: an object whose shape records the Boolean class; false for every non-object. */
  predicate IsJSBoolean(v: Value)
  {
    HasClass(v, BooleanClass)
  }

  /** create: a Boolean wrapper of `value` with the shape of the context's Boolean factory. */
  function Create(id: ObjId, factoryShape: Shape, value: bool): (v: Value)
    requires factoryShape.cls == BooleanClass
    ensures IsJSBoolean(v) && WellFormed(v)
    ensures ValueOf(v) == value
  {
    Obj(ObjectRef(id, factoryShape, BooleanObject(value)))
  }

  /** valueOf: the wrapped boolean. */
  function ValueOf(v: Value): bool
    requires IsJSBoolean(v) && WellFormed(v)
  {
    v.obj.kind.value
  }

  /** getClassName and getBuiltinToStringTag. */
  function ClassName(v: Value): (name: string)
    ensures name == CLASS_NAME
  {
    CLASS_NAME
  }

  function BuiltinToStringTag(v: Value): (tag: string)
    ensures tag == ClassName(v)
  {
    ClassName(v)
  }

  function BooleanToString(b: bool): (s: string)
    ensures b ==> s == TRUE_NAME
    ensures !b ==> s == FALSE_NAME
  {
    if b then TRUE_NAME else FALSE_NAME
  }

  /**
   * toDisplayStringImpl: "[Boolean <value>]" in Nashorn mode, otherwise the
   * runtime's console form of the object with its tag and primitive value,
   * `consoleString`, whose text is not modelled.
   */
  function ToDisplayString(nashornCompatibilityMode: bool, v: Value,
                           consoleString: (ObjectRef, string, bool) -> string): (s: string)
    requires IsJSBoolean(v) && WellFormed(v)
    ensures nashornCompatibilityMode ==> s == "[Boolean " + BooleanToString(ValueOf(v)) + "]"
    ensures !nashornCompatibilityMode ==> s == consoleString(v.obj, CLASS_NAME, ValueOf(v))
  {
    if nashornCompatibilityMode then "[Boolean " + BooleanToString(ValueOf(v)) + "]"
    else consoleString(v.obj, BuiltinToStringTag(v), ValueOf(v))
  }

  /** valueOf gives back the boolean given at creation, so wrappers of different booleans differ whatever their identity and shape. */
  lemma CreateValueOfRoundTrip(id1: ObjId, shape1: Shape, a: bool, id2: ObjId, shape2: Shape, b: bool)
    requires shape1.cls == BooleanClass && shape2.cls == BooleanClass
    requires Create(id1, shape1, a) == Create(id2, shape2, b)
    ensures a == b
  {
    assert ValueOf(Create(id1, shape1, a)) == a && ValueOf(Create(id2, shape2, b)) == b;
  }

  /** isJSBoolean never holds for a primitive. */
  lemma PrimitivesAreNotBooleanObjects(v: Value)
    requires !v.Obj?
    ensures !IsJSBoolean(v)
  {
  }

  /** In Nashorn mode the display string tells the wrapped value. */
  lemma NashornDisplayDeterminesValue(a: Value, b: Value, consoleString: (ObjectRef, string, bool) -> string)
    requires IsJSBoolean(a) && WellFormed(a) && IsJSBoolean(b) && WellFormed(b)
    requires ToDisplayString(true, a, consoleString) == ToDisplayString(true, b, consoleString)
    ensures ValueOf(a) == ValueOf(b)
  {
  }

  /**
   * createPrototype: Boolean.prototype is a Boolean wrapper of `false` whose
   * prototype is Object.prototype, with `constructor` and the Boolean.prototype
   * builtins as non-enumerable methods.
   */
  method CreatePrototype(id: ObjId, protoShape: Shape, objectPrototype: JSObject, ctor: Value,
                         builtins: map<PropertyKey, Value>) returns (proto: JSObject)
    requires protoShape.cls == BooleanClass
    ensures fresh(proto)
    ensures proto.kind == BooleanObject(false) && proto.shape == protoShape
    ensures IsJSBoolean(Obj(proto.Ref())) && WellFormed(Obj(proto.Ref())) && !ValueOf(Obj(proto.Ref()))
    ensures proto.prototype == Some(objectPrototype)
    ensures proto.properties == map[CONSTRUCTOR_KEY := Property(ctor, NOT_ENUMERABLE)] + FunctionProperties(builtins)
  {
    proto := new JSObject(id, protoShape, BooleanObject(false));
    proto.SetOrVerifyPrototype(objectPrototype);
    proto.PutConstructorProperty(ctor);
    proto.PutFunctionsFromContainer(builtins);
  }
}
