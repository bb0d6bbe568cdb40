/**
 * IsCallable (section 7.2.3 of ECMAScript 2015) as a specializing node: a
 * function shape cache of one entry, replaced for good by the generic function
 * case once a second function shape shows up.
 */
module Callable {
  import opened JSValues

  /** The node's answer, case by case in the order the specializations are tried; class tests go through the shape. */
  function IsCallableValue(v: Value, isExecutable: nat -> bool): bool
    requires WellFormed(v)
  {
    if IsJSFunction(v) then true
    else if IsProxy(v) then v.obj.kind.isCallable
    else if IsForeignObject(v) then isExecutable(v.handle)
    else if v.Str? then false
    else false
  }

  /** The reference definition: a value is callable when it has a [[Call]] internal method, read off its payload. */
  predicate HasCallMethod(v: Value, isExecutable: nat -> bool)
  {
    if v.Obj? then
      match v.obj.kind
      case FunctionObject(_, _) => true
      case ProxyObject(_, _, isCallable, _) => isCallable
      case _ => false
    else v.Foreign? && isExecutable(v.handle)
  }

  /** The specializations together decide exactly the [[Call]] test, on every well-formed value. */
  lemma IsCallableMeansHasCall(v: Value, isExecutable: nat -> bool)
    requires WellFormed(v)
    ensures IsCallableValue(v, isExecutable) <==> HasCallMethod(v, isExecutable)
  {
  }

  /** doJSFunctionShape / doJSFunction: every JS function is callable. */
  lemma FunctionsAreCallable(v: Value, isExecutable: nat -> bool)
    requires WellFormed(v) && IsJSFunction(v)
    ensures IsCallableValue(v, isExecutable)
  {
  }

  /** doJSProxy: a proxy is callable exactly when its target was callable at creation. */
  lemma ProxyCallableIffCallableProxy(v: Value, isExecutable: nat -> bool)
    requires WellFormed(v) && IsProxy(v)
    ensures IsCallableValue(v, isExecutable) <==> v.obj.kind.isCallable
  {
  }

  /** doTruffleObject: a foreign object is callable exactly when it is executable. */
  lemma ForeignCallableIffExecutable(v: Value, isExecutable: nat -> bool)
    requires v.Foreign?
    ensures IsCallableValue(v, isExecutable) <==> isExecutable(v.handle)
  {
  }

  /** doCharSequence and doOther: strings, and every other value that is no function, proxy or foreign object, are not callable. */
  lemma OthersAreNotCallable(v: Value, isExecutable: nat -> bool)
    requires WellFormed(v) && !IsJSFunction(v) && !IsProxy(v) && !IsForeignObject(v)
    ensures !IsCallableValue(v, isExecutable)
  {
  }

  /**
   * The node's specialization state: the one function shape it has cached
   * (doJSFunctionShape, limit 1) and whether doJSFunction has replaced it.
   */
  class IsCallableNode {
    var cachedShape: Option<Shape>
    var functionGeneric: bool

    ghost predicate Valid()
      reads this
    {
      && (functionGeneric ==> cachedShape.None?)
      && (cachedShape.Some? ==> cachedShape.value.cls == FunctionClass)
    }

    constructor ()
      ensures Valid() && cachedShape.None? && !functionGeneric
    {
      cachedShape := None;
      functionGeneric := false;
    }

    method Execute(v: Value, isExecutable: nat -> bool) returns (r: bool)
      requires Valid() && WellFormed(v)
      modifies this
      ensures Valid()
      ensures r == IsCallableValue(v, isExecutable)
      // the generic function case is never undone
      ensures old(functionGeneric) ==> functionGeneric
      // only a function can change the state
      ensures !IsJSFunction(v) ==> unchanged(this)
      // a cache hit changes nothing
      ensures IsJSFunction(v) && old(cachedShape) == Some(v.obj.shape) ==> unchanged(this)
      // an empty cache, not yet replaced, takes the first function shape
      ensures IsJSFunction(v) && old(cachedShape).None? && !old(functionGeneric) ==>
                cachedShape == Some(v.obj.shape) && !functionGeneric
      // a second function shape replaces the cache by the generic case
      ensures IsJSFunction(v) && old(cachedShape).Some? && old(cachedShape) != Some(v.obj.shape) ==>
                functionGeneric && cachedShape.None?
    {
      if IsJSFunction(v) {
        if cachedShape == Some(v.obj.shape) {
          r := true;
        } else if cachedShape.None? && !functionGeneric {
          cachedShape := Some(v.obj.shape);
          r := true;
        } else {
          cachedShape := None;
          functionGeneric := true;
          r := true;
        }
      } else if IsProxy(v) {
        r := v.obj.kind.isCallable;
      } else if IsForeignObject(v) {
        r := isExecutable(v.handle);
      } else {
        r := false;
      }
    }
  }
}
