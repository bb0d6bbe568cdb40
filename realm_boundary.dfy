/**
 * The root node that runs a function body in the function's realm: it enters
 * the realm's context when it is not the current one, leaves it again on every
 * exit, attributes escaping JavaScript exceptions to the realm, and turns a host
 * stack overflow into a RangeError.
 */
module RealmBoundary {
  import opened JSValues

  /** What the context bracket records: entering a realm, running the body (in the then current realm), leaving back to a realm. */
  datatype ContextEvent = EnterRealm(realm: RealmId) | BodyRan(current: RealmId) | LeaveTo(previous: RealmId)

  /** The events of one execution: with entering, the body runs between an enter and the matching leave. */
  function BracketTrace(enterContext: bool, realm: RealmId, current: RealmId): seq<ContextEvent>
  {
    if enterContext then [EnterRealm(realm), BodyRan(realm), LeaveTo(current)] else [BodyRan(current)]
  }

  function CountEnters(t: seq<ContextEvent>): nat
  {
    if t == [] then 0 else (if t[0].EnterRealm? then 1 else 0) + CountEnters(t[1..])
  }

  function CountLeaves(t: seq<ContextEvent>): nat
  {
    if t == [] then 0 else (if t[0].LeaveTo? then 1 else 0) + CountLeaves(t[1..])
  }

  /**
   * Every execution leaves exactly as often as it enters (at most once), runs
   * the body exactly once, and runs it in the function's realm.
   */
  lemma {:induction false} BracketIsBalanced(enterContext: bool, realm: RealmId, current: RealmId)
    requires !enterContext ==> realm == current
    ensures var t := BracketTrace(enterContext, realm, current);
            && CountEnters(t) == CountLeaves(t) == (if enterContext then 1 else 0)
            && (forall i :: 0 <= i < |t| && t[i].BodyRan? ==> t[i].current == realm)
            && (enterContext ==> t[0] == EnterRealm(realm) && t[|t| - 1] == LeaveTo(current))
  {
    var t := BracketTrace(enterContext, realm, current);
    if enterContext {
      assert t[1..] == [BodyRan(realm), LeaveTo(current)];
      assert t[1..][1..] == [LeaveTo(current)];
      assert t[1..][1..][1..] == [];
      assert CountEnters(t[1..][1..]) == 0 && CountLeaves(t[1..][1..]) == 1;
      assert CountEnters(t[1..]) == 0 && CountLeaves(t[1..]) == 1;
    } else {
      assert t[1..] == [];
    }
  }

  /** The thread's Truffle context: the realm currently entered and the events so far. */
  class ContextState {
    var current: RealmId
    var trace: seq<ContextEvent>

    constructor (current: RealmId)
      ensures this.current == current && trace == []
    {
      this.current := current;
      trace := [];
    }

    /** TruffleContext.enter: returns the realm to go back to. */
    method Enter(realm: RealmId) returns (previous: RealmId)
      modifies this
      ensures previous == old(current) && current == realm
      ensures trace == old(trace) + [EnterRealm(realm)]
    {
      previous := current;
      current := realm;
      trace := trace + [EnterRealm(realm)];
    }

    /** TruffleContext.leave. */
    method Leave(previous: RealmId)
      modifies this
      ensures current == previous
      ensures trace == old(trace) + [LeaveTo(previous)]
    {
      current := previous;
      trace := trace + [LeaveTo(previous)];
    }

    /** executeInRealm, as far as the context sees it: the body runs in the current realm. */
    method RunBody()
      modifies this
      ensures current == old(current)
      ensures trace == old(trace) + [BodyRan(current)]
    {
      trace := trace + [BodyRan(current)];
    }
  }

  /** A JSException: what it carries, and the realm it is attributed to, which can be set later. */
  class JSExceptionObject {
    const thrown: Thrown
    var realm: Option<RealmId>

    constructor (thrown: Thrown, realm: Option<RealmId>)
      ensures this.thrown == thrown && this.realm == realm
    {
      this.thrown := thrown;
      this.realm := realm;
    }
  }

  /** How the body finishes: a value, a JavaScript exception, a host stack overflow, or any other host throwable. */
  datatype BodyOutcome =
    | Return(value: Value)
    | JSThrow(ex: JSExceptionObject)
    | StackOverflowError
    | OtherThrowable

  /** How execute finishes. */
  datatype NodeResult = Returned(value: Value) | ThrewJS(ex: JSExceptionObject) | ThrewOther

  /** The realm the body runs in and whether a context must be entered for it. */
  function SelectRealm(neverCreatedChildRealms: bool, functionRealm: RealmId, current: RealmId): (r: (RealmId, bool))
    requires neverCreatedChildRealms ==> functionRealm == current
    ensures r.0 == functionRealm
    ensures neverCreatedChildRealms ==> !r.1
    ensures !neverCreatedChildRealms ==> (r.1 <==> functionRealm != current)
  {
    if neverCreatedChildRealms then (current, false) else (functionRealm, functionRealm != current)
  }

  class JavaScriptRealmBoundaryRootNode {
    var seenException: bool
    var seenNullRealm: bool

    constructor ()
      ensures !seenException && !seenNullRealm
    {
      seenException := false;
      seenNullRealm := false;
    }

    /**
     * execute: the body's outcome is given, since executeInRealm is not part of
     * this model. Without child realms the function's realm is the current one.
     */
    method Execute(ctx: ContextState, neverCreatedChildRealms: bool, functionRealm: RealmId, outcome: BodyOutcome)
      returns (r: NodeResult)
      requires neverCreatedChildRealms ==> functionRealm == ctx.current
      modifies this, ctx, if outcome.JSThrow? then {outcome.ex} else {}
      ensures ctx.current == old(ctx.current)
      ensures ctx.trace == old(ctx.trace) + BracketTrace(SelectRealm(neverCreatedChildRealms, functionRealm, old(ctx.current)).1,
                                                         functionRealm, old(ctx.current))
      // the flags only go from false to true
      ensures old(seenException) ==> seenException
      ensures old(seenNullRealm) ==> seenNullRealm
      ensures outcome.Return? ==> r == Returned(outcome.value) && unchanged(this)
      ensures outcome.OtherThrowable? ==> r == ThrewOther && unchanged(this)
      // a JS exception is rethrown, attributed to the realm unless it already had one
      ensures outcome.JSThrow? ==>
                && r == ThrewJS(outcome.ex)
                && outcome.ex.realm == (if old(outcome.ex.realm).None? then Some(functionRealm) else old(outcome.ex.realm))
                && seenException
                && seenNullRealm == (old(seenNullRealm) || old(outcome.ex.realm).None?)
      // a stack overflow becomes a new RangeError attributed to the realm
      ensures outcome.StackOverflowError? ==>
                && r.ThrewJS? && fresh(r.ex)
                && r.ex.thrown == ErrorThrown(RangeError, StackOverflow)
                && r.ex.realm == Some(functionRealm)
                && unchanged(this)
    {
      var selected := SelectRealm(neverCreatedChildRealms, functionRealm, ctx.current);
      var realm, enterContext := selected.0, selected.1;
      var previous := ctx.current;
      if enterContext {
        previous := ctx.Enter(realm);
      }
      ctx.RunBody();
      match outcome {
        case Return(v) =>
          r := Returned(v);
        case JSThrow(ex) =>
          if !seenException {
            seenException := true;
          }
          if ex.realm.None? {
            if !seenNullRealm {
              seenNullRealm := true;
            }
            ex.realm := Some(realm);
          }
          r := ThrewJS(ex);
        case StackOverflowError =>
          var rangeError := new JSExceptionObject(ErrorThrown(RangeError, StackOverflow), None);
          rangeError.realm := Some(realm);
          r := ThrewJS(rangeError);
        case OtherThrowable =>
          r := ThrewOther;
      }
      if enterContext {
        ctx.Leave(previous);
      }
    }
  }
}
