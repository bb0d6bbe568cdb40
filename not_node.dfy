/**
 * Logical NOT (section 11.4.9 of ECMAScript 5.1): evaluation of a `!` node and
 * the peephole rewrite its factory applies to the operand node.
 */
module LogicalNot {
  import opened JSValues

  /**
   * The operand trees the rewrite looks at: a `!` node, a boolean or integer
   * constant node, and any other node, whose value is read from the
   * environment at `slot` and which may report that it always yields a boolean.
   */
  datatype Node =
    | Not(operand: Node)
    | BooleanConstant(b: bool)
    | IntegerConstant(n: Int32)
    | Opaque(slot: nat, alwaysBoolean: bool)

  /** isResultAlwaysOfType(boolean.class) of each kind of node. */
  predicate AlwaysBoolean(node: Node)
  {
    match node
    case Not(_) => true
    case BooleanConstant(_) => true
    case IntegerConstant(_) => false
    case Opaque(_, alwaysBoolean) => alwaysBoolean
  }

  /** doBoolean on a boolean operand, doNonBoolean on anything else. */
  function NotOf(a: Value): (r: bool)
    ensures a.Bool? ==> r == !a.b
    ensures r == !ToBoolean(a)
  {
    if a.Bool? then !a.b else !ToBoolean(a)
  }

  /** An environment agrees with the nodes that claim to always yield a boolean. */
  ghost predicate Honest(node: Node, env: nat -> Value)
  {
    match node
    case Not(operand) => Honest(operand, env)
    case Opaque(slot, alwaysBoolean) => alwaysBoolean ==> env(slot).Bool?
    case _ => true
  }

  function Evaluate(node: Node, env: nat -> Value): Value
  {
    match node
    case Not(operand) => Bool(NotOf(Evaluate(operand, env)))
    case BooleanConstant(b) => Bool(b)
    case IntegerConstant(n) => Int(n)
    case Opaque(slot, _) => env(slot)
  }

  /** JSNotNode.create: the node that stands for `!operand`. */
  function Create(operand: Node, useSuperOperations: bool): Node
  {
    if useSuperOperations && operand.Not? then
      if AlwaysBoolean(operand.operand) then operand.operand else Not(operand)
    else if useSuperOperations && operand.BooleanConstant? then
      BooleanConstant(!operand.b)
    else if useSuperOperations && operand.IntegerConstant? then
      BooleanConstant(operand.n == 0)
    else
      Not(operand)
  }

  /** A node that says it always yields a boolean does, in an honest environment. */
  lemma AlwaysBooleanIsSound(node: Node, env: nat -> Value)
    requires Honest(node, env) && AlwaysBoolean(node)
    ensures Evaluate(node, env).Bool?
  {
  }

  /** A `!` node yields a boolean, the negation of the ToBoolean of its operand. */
  lemma NotYieldsNegatedToBoolean(operand: Node, env: nat -> Value)
    ensures Evaluate(Not(operand), env) == Bool(!ToBoolean(Evaluate(operand, env)))
    ensures AlwaysBoolean(Not(operand))
  {
  }

  /** The rewrite never changes what `!operand` evaluates to. */
  lemma {:induction false} CreatePreservesMeaning(operand: Node, useSuperOperations: bool, env: nat -> Value)
    requires Honest(operand, env)
    ensures Evaluate(Create(operand, useSuperOperations), env) == Evaluate(Not(operand), env)
  {
    if useSuperOperations && operand.Not? && AlwaysBoolean(operand.operand) {
      AlwaysBooleanIsSound(operand.operand, env);
    }
  }

  /** The rewritten node is still honest and still always yields a boolean, so it can be rewritten again. */
  lemma CreateKeepsHonestBoolean(operand: Node, useSuperOperations: bool, env: nat -> Value)
    requires Honest(operand, env)
    ensures Honest(Create(operand, useSuperOperations), env)
    ensures AlwaysBoolean(Create(operand, useSuperOperations))
  {
  }

  /** `!!x` becomes `x` exactly when `x` always yields a boolean; otherwise the outer `!` is kept. */
  lemma DoubleNegation(x: Node)
    ensures AlwaysBoolean(x) ==> Create(Not(x), true) == x
    ensures !AlwaysBoolean(x) ==> Create(Not(x), true) == Not(Not(x))
  {
  }

  /** Boolean constants fold to their negation. */
  lemma FoldBooleanConstant(b: bool)
    ensures Create(BooleanConstant(b), true) == BooleanConstant(!b)
  {
  }

  /** Integer constants fold to `n == 0`, which is `!ToBoolean(n)`. */
  lemma FoldIntegerConstant(n: Int32)
    ensures Create(IntegerConstant(n), true) == BooleanConstant(n == 0)
    ensures (n == 0) == !ToBoolean(Int(n))
  {
  }

  /** Without super-operations the factory always builds the plain `!` node. */
  lemma NoSuperOperationsKeepsNot(operand: Node)
    ensures Create(operand, false) == Not(operand)
  {
  }
}
