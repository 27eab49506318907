/** The compile-time statistics `count<T>` gathers over an expression, and
    the unroll factor `execute` derives from them to pick a loop tier. */
module Cost {
  import opened Arith
  import opened Expressions

  /** `count<T>::loads`, `::stores`, `::operations`, `::immediates`. */
  datatype Counts = Counts(loads: nat, stores: nat, operations: nat, immediates: nat)

  function Plus(a: Counts, b: Counts): Counts
  {
    Counts(a.loads + b.loads, a.stores + b.stores, a.operations + b.operations, a.immediates + b.immediates)
  }

  /** `count<T>`. Only the runtime-length array counts as a load; a scalar,
      and also an array with a compile-time size, falls to the primary
      template and counts as one immediate. A store adds one store to its
      source's counts, an operator one operation to its operands'. */
  function Count(e: Expr): (c: Counts)
    ensures e.Store? ==> c.stores >= 1
    ensures StoreFree(e) ==> c.stores == 0
    ensures c.loads + c.immediates >= 1
  {
    match e
    case Imm(_) => Counts(0, 0, 0, 1)
    case Arr(_, n) => if n == 0 then Counts(1, 0, 0, 0) else Counts(0, 0, 0, 1)
    case Unary(_, c) => var k := Count(c); Counts(k.loads, k.stores, k.operations + 1, k.immediates)
    case Binary(_, l, r) => var k := Plus(Count(l), Count(r)); Counts(k.loads, k.stores, k.operations + 1, k.immediates)
    case Store(_, s) => var k := Count(s); Counts(k.loads, k.stores + 1, k.operations, k.immediates)
  }

  // ---------------------------------------------------------------------
  // A reference definition: tally the nodes of the tree by kind

  datatype Kind = LoadLeaf | ImmediateLeaf | Operation | StoreNode

  function KindOf(e: Expr): Kind
  {
    match e
    case Imm(_) => ImmediateLeaf
    case Arr(_, n) => if n == 0 then LoadLeaf else ImmediateLeaf
    case Unary(_, _) => Operation
    case Binary(_, _, _) => Operation
    case Store(_, _) => StoreNode
  }

  /** The number of nodes of kind k in the tree, every occurrence of a
      shared operand counted again. */
  function Nodes(e: Expr, k: Kind): nat
  {
    (if KindOf(e) == k then 1 else 0) +
    match e
    case Imm(_) => 0
    case Arr(_, _) => 0
    case Unary(_, c) => Nodes(c, k)
    case Binary(_, l, r) => Nodes(l, k) + Nodes(r, k)
    case Store(_, s) => Nodes(s, k)
  }

  /** The four statistics read off the node tally. */
  function Tally(e: Expr): Counts
  {
    Counts(Nodes(e, LoadLeaf), Nodes(e, StoreNode), Nodes(e, Operation), Nodes(e, ImmediateLeaf))
  }

  /** Each statistic is the number of nodes of its kind: loads are the
      runtime-length array leaves, immediates the other leaves, operations
      the operator nodes and stores the store nodes. */
  lemma {:induction false} CountIsTally(e: Expr)
    ensures Count(e) == Tally(e)
  {
    match e
    case Imm(_) =>
    case Arr(_, _) =>
    case Unary(_, c) =>
      CountIsTally(c);
    case Binary(_, l, r) =>
      CountIsTally(l);
      CountIsTally(r);
    case Store(_, s) =>
      CountIsTally(s);
  }

  /** The number of leaves exceeds the number of binary operators by one, so
      a tree with no unary operator has loads + immediates == operations + 1. */
  predicate NoUnary(e: Expr)
  {
    match e
    case Imm(_) => true
    case Arr(_, _) => true
    case Unary(_, _) => false
    case Binary(_, l, r) => NoUnary(l) && NoUnary(r)
    case Store(_, s) => NoUnary(s)
  }

  lemma {:induction false} LeavesOutnumberOperators(e: Expr)
    ensures Count(e).loads + Count(e).immediates >= 1
    ensures NoUnary(e) ==> Count(e).loads + Count(e).immediates == Count(e).operations + 1
  {
    match e
    case Imm(_) =>
    case Arr(_, _) =>
    case Unary(_, c) =>
      LeavesOutnumberOperators(c);
    case Binary(_, l, r) =>
      LeavesOutnumberOperators(l);
      LeavesOutnumberOperators(r);
    case Store(_, s) =>
      LeavesOutnumberOperators(s);
  }

  // ---------------------------------------------------------------------
  // Unroll factor and tier

  /** The divisor `loads == 0 ? 1 : loads`, never zero. */
  function Divisor(c: Counts): (d: nat)
    ensures d >= 1
  {
    if c.loads == 0 then 1 else c.loads
  }

  /** `registers / (loads == 0 ? 1 : loads)`: how many independent copies of
      the evaluator fit the register budget. */
  function Unroll(c: Counts, registers: nat): (u: nat)
    ensures u * Divisor(c) <= registers < (u + 1) * Divisor(c)
    ensures u <= registers
    ensures c.loads == 0 ==> u == registers
  {
    var d := Divisor(c);
    var u := registers / d;
    DivBracket(registers, d);
    u
  }

  /** The specialisation of `loop<unroll>` that is chosen: the number of
      evaluators its main loop keeps in flight. */
  function TierOf(unroll: nat): (t: nat)
    ensures t == 1 || t == 2 || t == 4 || t == 8
    ensures t <= (if unroll == 0 then 1 else unroll)
    ensures t < 8 ==> unroll < 2 * t
  {
    if unroll < 2 then 1
    else if unroll < 4 then 2
    else if unroll < 8 then 4
    else 8
  }

  /** More loads never select a wider tier. */
  lemma {:induction false} TierMonotone(a: Counts, b: Counts, registers: nat)
    requires a.loads <= b.loads
    ensures TierOf(Unroll(b, registers)) <= TierOf(Unroll(a, registers))
  {
    DivAntitone(registers, Divisor(a), Divisor(b));
  }
}
