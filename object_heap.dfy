/**
 * Objects that are built up in place by successive property puts, as the
 * builtin prototypes are. Only the puts prototype creation performs are here.
 */
module ObjectHeap {
  import opened JSValues

  /** A data property: its value and attributes. */
  datatype Property = Property(value: Value, attributes: Attributes)

  /** Writable and configurable, not enumerable: the attributes of `constructor` and of builtin methods. */
  const NOT_ENUMERABLE: Attributes := Attributes(true, false, true)

  /** Configurable only: the attributes of a prototype's toStringTag. */
  const CONFIGURABLE_NOT_ENUMERABLE_NOT_WRITABLE: Attributes := Attributes(false, false, true)

  const CONSTRUCTOR_KEY: PropertyKey := StringKey("constructor")

  /** Each builtin as a non-enumerable method property. */
  function FunctionProperties(builtins: map<PropertyKey, Value>): (props: map<PropertyKey, Property>)
    ensures props.Keys == builtins.Keys
    ensures forall k :: k in builtins ==> props[k] == Property(builtins[k], NOT_ENUMERABLE)
  {
    map k | k in builtins :: Property(builtins[k], NOT_ENUMERABLE)
  }

  /**
   * An object under construction. `shape` and `kind` are fixed at allocation
   * (the shape records the class); the prototype and the own properties are
   * written by the puts below.
   */
  class JSObject {
    const id: ObjId
    const shape: Shape
    const kind: ObjKind
    var prototype: Option<JSObject>
    var properties: map<PropertyKey, Property>

    constructor (id: ObjId, shape: Shape, kind: ObjKind)
      ensures this.id == id && this.shape == shape && this.kind == kind
      ensures prototype.None? && properties == map[]
    {
      this.id := id;
      this.shape := shape;
      this.kind := kind;
      prototype := None;
      properties := map[];
    }

    /**
     * The object as seen by the dispatch code. Its shape is the one given at
     * allocation: properties put afterwards are recorded in `properties`, and
     * the shape transitions they cause in the runtime are not modelled.
     */
    function Ref(): (r: ObjectRef)
      ensures r.id == id && r.shape == shape && r.kind == kind
    {
      ObjectRef(id, shape, kind)
    }

    /** JSObjectUtil.setOrVerifyPrototype. */
    method SetOrVerifyPrototype(proto: JSObject)
      modifies this
      ensures prototype == Some(proto) && properties == old(properties)
    {
      prototype := Some(proto);
    }

    /** JSObjectUtil.putDataProperty: defines `key` with the given value and attributes. */
    method PutDataProperty(key: PropertyKey, value: Value, attributes: Attributes)
      modifies this
      ensures properties == old(properties)[key := Property(value, attributes)]
      ensures prototype == old(prototype)
    {
      properties := properties[key := Property(value, attributes)];
    }

    /** JSObjectUtil.putConstructorProperty. */
    method PutConstructorProperty(ctor: Value)
      modifies this
      ensures properties == old(properties)[CONSTRUCTOR_KEY := Property(ctor, NOT_ENUMERABLE)]
      ensures prototype == old(prototype)
    {
      PutDataProperty(CONSTRUCTOR_KEY, ctor, NOT_ENUMERABLE);
    }

    /** JSObjectUtil.putFunctionsFromContainer: every builtin of the container as a method. */
    method PutFunctionsFromContainer(builtins: map<PropertyKey, Value>)
      modifies this
      ensures properties == old(properties) + FunctionProperties(builtins)
      ensures prototype == old(prototype)
    {
      properties := properties + FunctionProperties(builtins);
    }
  }
}
