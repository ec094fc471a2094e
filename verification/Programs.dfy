/**
 What a task computes, and its meaning by direct recursion.

 A task is a state of type `S`. Its code finishes with a value, or runs a sub-task and goes on with the
 value of that run, or waits for something outside and goes on with another state when polled again:
 every `.await` of a run is one such call, and every other `.await` that is pending one such wait.
 */
module Programs {
  import opened Wrappers

  datatype Act<S, !V> = Done(v: V) | Call(child: S, next: V -> S) | Wait(later: S)

  /** One activation of the code: the state it ran, and how many calls deep. */
  datatype Visit<S> = Visit(depth: nat, s: S)

  datatype Outcome<S, V> = Outcome(v: V, visits: seq<Visit<S>>)

  /** Direct recursion, at most `fuel` activations deep in the chain of calls and continuations. */
  function Recurse<S, V>(code: S -> Act<S, V>, fuel: nat, s: S, depth: nat): Option<Outcome<S, V>> {
    if fuel == 0 then None
    else match code(s)
      case Done(v) => Some(Outcome(v, [Visit(depth, s)]))
      case Call(child, next) =>
        var c := Recurse(code, fuel - 1, child, depth + 1);
        var r := if c.Some? then Recurse(code, fuel - 1, next(c.value.v), depth) else None;
        if r.None? then None
        else Some(Outcome(r.value.v, [Visit(depth, s)] + c.value.visits + r.value.visits))
      case Wait(later) =>
        var r := Recurse(code, fuel - 1, later, depth);
        if r.None? then None
        else Some(Outcome(r.value.v, [Visit(depth, s)] + r.value.visits))
  }

  /** How a recursion that ends unfolds: a task that finishes, or a call or a wait and what comes after it. */
  datatype Tree<S, V> = Leaf(s: S, v: V) | Node(s: S, child: Tree<S, V>, rest: Tree<S, V>) | Pause(s: S, rest: Tree<S, V>) {
    function Value(): V {
      match this
      case Leaf(_, v) => v
      case Node(_, _, rest) => rest.Value()
      case Pause(_, rest) => rest.Value()
    }

    /** The number of tasks started. */
    function Tasks(): (n: nat)
      ensures n >= 1
    {
      match this
      case Leaf(_, _) => 1
      case Node(_, child, rest) => child.Tasks() + rest.Tasks()
      case Pause(_, rest) => rest.Tasks()
    }

    /** The number of waits for something outside. */
    function Waits(): nat {
      match this
      case Leaf(_, _) => 0
      case Node(_, child, rest) => child.Waits() + rest.Waits()
      case Pause(_, rest) => 1 + rest.Waits()
    }

    function Visits(depth: nat): seq<Visit<S>> {
      match this
      case Leaf(s, _) => [Visit(depth, s)]
      case Node(s, child, rest) => [Visit(depth, s)] + child.Visits(depth + 1) + rest.Visits(depth)
      case Pause(s, rest) => [Visit(depth, s)] + rest.Visits(depth)
    }

    function Size(): nat {
      match this
      case Leaf(_, _) => 1
      case Node(_, child, rest) => 1 + child.Size() + rest.Size()
      case Pause(_, rest) => 1 + rest.Size()
    }

    ghost predicate Unfolds(code: S -> Act<S, V>) {
      match this
      case Leaf(s, v) => code(s) == Done(v)
      case Node(s, child, rest) =>
        && child.Unfolds(code) && rest.Unfolds(code)
        && code(s).Call? && code(s).child == child.s && code(s).next(child.Value()) == rest.s
      case Pause(s, rest) => rest.Unfolds(code) && code(s) == Wait(rest.s)
    }
  }

  /** An unfolding of a recursion that ends. */
  function TreeOf<S, V>(code: S -> Act<S, V>, fuel: nat, s: S, depth: nat): (t: Tree<S, V>)
    requires Recurse(code, fuel, s, depth).Some?
    ensures t.s == s && t.Unfolds(code)
    ensures Recurse(code, fuel, s, depth) == Some(Outcome(t.Value(), t.Visits(depth)))
  {
    match code(s)
    case Done(v) => Leaf(s, v)
    case Call(child, next) =>
      var c := TreeOf(code, fuel - 1, child, depth + 1);
      Node(s, c, TreeOf(code, fuel - 1, next(c.Value()), depth))
    case Wait(later) => Pause(s, TreeOf(code, fuel - 1, later, depth))
  }

  /** The recursion of a tree ends, and gives the value and the visits of the tree. */
  lemma {:induction false} TreeRecurses<S, V>(code: S -> Act<S, V>, t: Tree<S, V>, fuel: nat, depth: nat)
    requires t.Unfolds(code) && fuel >= t.Size()
    ensures Recurse(code, fuel, t.s, depth) == Some(Outcome(t.Value(), t.Visits(depth)))
  {
    match t
    case Leaf(_, _) =>
    case Node(_, child, rest) =>
      TreeRecurses(code, child, fuel - 1, depth + 1);
      TreeRecurses(code, rest, fuel - 1, depth);
    case Pause(_, rest) =>
      TreeRecurses(code, rest, fuel - 1, depth);
  }

  /** There is only one unfolding. */
  lemma {:induction false} TreeIsUnique<S, V>(code: S -> Act<S, V>, t: Tree<S, V>, u: Tree<S, V>)
    requires t.Unfolds(code) && u.Unfolds(code) && t.s == u.s
    ensures t == u
  {
    match t
    case Leaf(_, _) =>
    case Node(_, child, rest) =>
      TreeIsUnique(code, child, u.child);
      TreeIsUnique(code, rest, u.rest);
    case Pause(_, rest) =>
      TreeIsUnique(code, rest, u.rest);
  }

  /** Every task but the first is started by one call, and every call, every wait and every finish is one visit. */
  lemma {:induction false} VisitsOfTasks<S, V>(t: Tree<S, V>, depth: nat)
    ensures |t.Visits(depth)| == 2 * t.Tasks() - 1 + t.Waits()
  {
    match t
    case Leaf(_, _) =>
    case Node(_, child, rest) =>
      VisitsOfTasks(child, depth + 1);
      VisitsOfTasks(rest, depth);
    case Pause(_, rest) =>
      VisitsOfTasks(rest, depth);
  }
}
