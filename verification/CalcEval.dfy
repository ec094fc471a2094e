/** The evaluator of the calculator as tasks of the stack runtime: one task for every node of the tree. */
module CalcEval {
  import opened Wrappers
  import opened CalcGrammar
  import opened Programs
  import opened Flattened

  /** The arithmetic, which this model leaves open. */
  datatype Arith<!V> = Arith(number: string -> V, apply: (BinaryOperator, V, V) -> V, sign: (UnaryOperator, V) -> V)

  /** Where an evaluation stands: at its start, with the left value at hand, or with its value at hand. */
  datatype State<V> = Start(e: Expression) | RightOf(left: V, op: BinaryOperator, right: Expression) | Give(v: V)

  function Code<V>(a: Arith<V>): State<V> -> Act<State<V>, V> {
    (s: State<V>) =>
      match s
      case Give(v) => Done(v)
      case RightOf(left, op, right) => Call(Start(right), (v: V) => Give(a.apply(op, left, v)))
      case Start(e) =>
        match e
        case Number(text) => Done(a.number(text))
        case Covered(inner) => Call(Start(inner), (v: V) => Give(v))
        case Binary(left, op, right) => Call(Start(left), (v: V) => RightOf(v, op, right))
        case Unary(sign, expr) => Call(Start(expr), (v: V) => Give(a.sign(sign, v)))
  }

  /** The value of an expression. */
  function Denote<V>(a: Arith<V>, e: Expression): V {
    match e
    case Number(text) => a.number(text)
    case Covered(inner) => Denote(a, inner)
    case Binary(left, op, right) => a.apply(op, Denote(a, left), Denote(a, right))
    case Unary(sign, expr) => a.sign(sign, Denote(a, expr))
  }

  function Nodes(e: Expression): nat {
    match e
    case Number(_) => 1
    case Covered(inner) => 1 + Nodes(inner)
    case Binary(left, _, right) => 1 + Nodes(left) + Nodes(right)
    case Unary(_, expr) => 1 + Nodes(expr)
  }

  function Height(e: Expression): nat {
    match e
    case Number(_) => 1
    case Covered(inner) => 1 + Height(inner)
    case Binary(left, _, right) => 1 + if Height(left) > Height(right) then Height(left) else Height(right)
    case Unary(_, expr) => 1 + Height(expr)
  }

  ghost function TreeOfEval<V>(a: Arith<V>, e: Expression): Tree<State<V>, V> {
    match e
    case Number(text) => Leaf(Start(e), a.number(text))
    case Covered(inner) =>
      Node(Start(e), TreeOfEval(a, inner), Leaf(Give(Denote(a, e)), Denote(a, e)))
    case Binary(left, op, right) =>
      Node(Start(e), TreeOfEval(a, left),
        Node(RightOf(Denote(a, left), op, right), TreeOfEval(a, right), Leaf(Give(Denote(a, e)), Denote(a, e))))
    case Unary(_, expr) =>
      Node(Start(e), TreeOfEval(a, expr), Leaf(Give(Denote(a, e)), Denote(a, e)))
  }

  lemma {:induction false} EvalUnfolds<V>(a: Arith<V>, e: Expression)
    ensures var t := TreeOfEval(a, e);
      t.s == Start(e) && t.Unfolds(Code(a)) && t.Value() == Denote(a, e) && t.Tasks() == Nodes(e) && t.Waits() == 0
  {
    match e
    case Number(_) =>
    case Covered(inner) => EvalUnfolds(a, inner);
    case Binary(left, _, right) =>
      EvalUnfolds(a, left);
      EvalUnfolds(a, right);
      var rest := TreeOfEval(a, e).rest;
      assert rest.Value() == Denote(a, e) && rest.Tasks() == Nodes(right) + 1 && rest.Waits() == 0;
    case Unary(_, expr) => EvalUnfolds(a, expr);
  }

  /** No visit is deeper than the tree is high. */
  lemma {:induction false} EvalDepth<V>(a: Arith<V>, e: Expression, depth: nat)
    ensures forall x :: x in TreeOfEval(a, e).Visits(depth) ==> x.depth < depth + Height(e)
  {
    match e
    case Number(_) =>
    case Covered(inner) => EvalDepth(a, inner, depth + 1);
    case Binary(left, _, right) =>
      EvalDepth(a, left, depth + 1);
      EvalDepth(a, right, depth + 1);
      var rest := TreeOfEval(a, e).rest;
      assert rest.rest.Visits(depth) == [Visit(depth, rest.rest.s)];
      assert rest.Visits(depth) == [Visit(depth, rest.s)] + rest.child.Visits(depth + 1) + rest.rest.Visits(depth);
    case Unary(_, expr) => EvalDepth(a, expr, depth + 1);
  }

  /**
   Evaluated on the stack, an expression gives its value after `2 * Nodes - 1` polls, and at no time are
   there more tasks on the stack than the tree is high.
   */
  lemma {:induction false} EvalOnTheStack<V>(a: Arith<V>, e: Expression, n: nat)
    ensures var m := Run(Code(a), Begin([], Fresh(Start(e))), n);
      && (m.frames == [] <==> n >= 2 * Nodes(e) - 1)
      && (m.frames == [] ==> m.result == Some(Denote(a, e)))
      && |m.frames| <= Height(e)
  {
    var t := TreeOfEval(a, e);
    EvalUnfolds(a, e);
    EvalDepth(a, e, 1);
    PollsOfTasks(Code(a), t, n);
  }
}
