/**
 * Values, shapes and errors shared by the dispatch nodes and the object model.
 *
 * A JavaScript object appears here as an `ObjectRef`: its identity, the shape it
 * carries at the moment it is observed, and the immutable payload of its Java
 * class (a function's flags, a proxy's target and handler, a Boolean wrapper's
 * value, ...). Objects whose fields change in place are classes in the modules
 * that own them.
 */
module JSValues {

  datatype Option<+T> = None | Some(value: T)

  /** Java `long` and `int`. */
  const MIN_LONG: int := -0x8000_0000_0000_0000
  const MAX_LONG: int := 0x7FFF_FFFF_FFFF_FFFF
  type Long = x: int | MIN_LONG <= x <= MAX_LONG
  type Int32 = x: int | -0x8000_0000 <= x <= 0x7FFF_FFFF

  type ObjId = nat
  type RealmId = nat

  /** The JSClass that a shape records for every object carrying it. */
  datatype JSClass =
    | FunctionClass
    | AdapterClass
    | ProxyClass
    | JavaPackageClass
    | OrdinaryClass
    | BooleanClass
    | WeakMapClass
    | OtherClass(name: string)

  /** Where a shape stores a property: an inline reference field, an inline `long` field, or the overflow area. */
  datatype Location = ObjectField(index: nat) | PrimitiveField(index: nat) | ExtensionSlot(index: nat)

  datatype Attributes = Attributes(writable: bool, enumerable: bool, configurable: bool)

  datatype Symbol = SymbolToStringTag | UserSymbol(id: nat)

  datatype PropertyKey = StringKey(name: string) | SymbolKey(symbol: Symbol)

  /** A shape: its identity, the class of its objects and where each own property lives. */
  datatype Shape = Shape(id: nat, cls: JSClass, layout: map<PropertyKey, Location>)

  /** The flags of a function's JSFunctionData that allocation depends on. */
  datatype FunctionData = FunctionData(isBuiltin: bool, isConstructor: bool, isGenerator: bool, isAsyncGenerator: bool)

  /** The host map a WeakMap object wraps; only its identity matters here. */
  class WeakHashMap {
    constructor ()
    {
    }
  }

  /** The immutable per-class payload of an object. */
  datatype ObjKind =
    | FunctionObject(data: FunctionData, realm: RealmId)
    | AdapterObject(adaptee: Value)
    | ProxyObject(target: Value, handler: Option<Value>, isCallable: bool, isConstructor: bool)
    | JavaPackageObject(packageName: string)
    | OrdinaryObject
    | BooleanObject(value: bool)
    | WeakMapObject(weakHashMap: WeakHashMap)
    | OtherObject(className: string)

  datatype ObjectRef = ObjectRef(id: ObjId, shape: Shape, kind: ObjKind)

  /**
   * JavaScript values. Numbers are restricted to integers; `Foreign` is an object
   * of another language; `ConstructMarker` is the runtime's internal CONSTRUCT
   * marker passed as `this` to a constructor that allocates its own receiver.
   */
  datatype Value =
    | Undefined
    | Null
    | Bool(b: bool)
    | Int(n: int)
    | BigInt(big: int)
    | Str(s: string)
    | Sym(symbol: Symbol)
    | Obj(obj: ObjectRef)
    | Foreign(handle: nat)
    | ConstructMarker

  function ClassOf(kind: ObjKind): JSClass
  {
    match kind
    case FunctionObject(_, _) => FunctionClass
    case AdapterObject(_) => AdapterClass
    case ProxyObject(_, _, _, _) => ProxyClass
    case JavaPackageObject(_) => JavaPackageClass
    case OrdinaryObject => OrdinaryClass
    case BooleanObject(_) => BooleanClass
    case WeakMapObject(_) => WeakMapClass
    case OtherObject(name) => OtherClass(name)
  }

  /** Runtime invariant: an object's shape records the class of its payload. */
  predicate Consistent(o: ObjectRef)
  {
    o.shape.cls == ClassOf(o.kind)
  }

  /** A value whose object part, if any, is consistent. */
  predicate WellFormed(v: Value)
  {
    v.Obj? ==> Consistent(v.obj)
  }

  // Class tests go through the shape, as the runtime's guards do.

  predicate IsJSObject(v: Value) { v.Obj? }

  predicate HasClass(v: Value, c: JSClass) { v.Obj? && v.obj.shape.cls == c }

  predicate IsJSFunction(v: Value) { HasClass(v, FunctionClass) }

  predicate IsJSAdapter(v: Value) { HasClass(v, AdapterClass) }

  predicate IsProxy(v: Value) { HasClass(v, ProxyClass) }

  predicate IsJavaPackage(v: Value) { HasClass(v, JavaPackageClass) }

  predicate IsForeignObject(v: Value) { v.Foreign? }

  /** ToBoolean, section 7.1.2 of ECMAScript 2015, on integer numbers. */
  function ToBoolean(v: Value): (r: bool)
    ensures v.Bool? ==> r == v.b
    ensures v.Obj? || v.Sym? ==> r
    ensures v.Undefined? || v.Null? ==> !r
  {
    match v
    case Undefined => false
    case Null => false
    case Bool(b) => b
    case Int(n) => n != 0
    case BigInt(n) => n != 0
    case Str(s) => |s| > 0
    case Sym(_) => true
    case Obj(_) => true
    case Foreign(_) => true
    case ConstructMarker => true
  }

  /** The error types, in the order that gives each its ordinal. */
  datatype ErrorType = Error | EvalError | RangeError | ReferenceError | SyntaxError | TypeError | URIError

  const ERROR_TYPES: seq<ErrorType> := [Error, EvalError, RangeError, ReferenceError, SyntaxError, TypeError, URIError]

  function Ordinal(t: ErrorType): (k: nat)
    ensures k < |ERROR_TYPES| && ERROR_TYPES[k] == t
  {
    match t
    case Error => 0
    case EvalError => 1
    case RangeError => 2
    case ReferenceError => 3
    case SyntaxError => 4
    case TypeError => 5
    case URIError => 6
  }

  /** What an error message is about: the offending value, or the source text of the expression. */
  datatype Subject = SubjectValue(value: Value) | SubjectText(text: string)

  datatype Message =
    | NotAFunction(subject: Subject)
    | NotAConstructor(subject: Subject)
    | NotAnObject(value: Value)
    | ClassNotFound(packageName: string)
    | NotConstructible(callee: Value)
    | ProxyRevoked
    | StackOverflow
    | OtherMessage(text: string)

  /** What was thrown: an error the runtime created, or any value thrown by user code. */
  datatype Thrown = ErrorThrown(errorType: ErrorType, message: Message) | ValueThrown(value: Value)

  /** A JavaScript exception and the realm it is attributed to (none until a realm boundary tags it). */
  datatype Exception = Exception(thrown: Thrown, realm: Option<RealmId>)

  datatype Result<+T> = Ok(value: T) | Err(exception: Exception)

  type Completion = Result<Value>

  function TypeErrorOf(m: Message): Exception
  {
    Exception(ErrorThrown(TypeError, m), None)
  }
}
