/** `array_eval_t`: the evaluator instantiated for an expression and an
    instruction-set model. It is driven by a fixed protocol: `prepare` once,
    then, for each offset, `load`, evaluate (`operator()`), `store`.

    The root of every evaluated expression is a `Store` node, and only that
    node writes memory; it is the class `Evaluator`. The evaluators of the
    nodes below it are the `Slot` value the root holds in its field `right`:
    their `prepare`, `load` and evaluate are the functions `PrepareSlot`,
    `LoadSlot` and `EvalSlot`, and their `store` does nothing. */
module Evaluation {
  import opened InstructionSets
  import opened Expressions

  /** The state of the evaluator of a node below the root: an immediate's
      broadcast register, an array's captured pointer and loaded register,
      or the evaluators of an operator's operands. */
  datatype Slot =
    | ImmSlot(tmp: Pack)
    | ArrSlot(ptr: array<int>, tmp: Pack)
    | UnarySlot(uop: UnaryTag, child: Slot)
    | BinarySlot(bop: BinaryTag, left: Slot, right: Slot)

  /** The slot tree mirrors the expression: same operators, the immediate
      already broadcast to `width` lanes, the array's pointer captured. */
  predicate Shaped(s: Slot, e: Expr, width: nat)
  {
    match e
    case Imm(v) => s == ImmSlot(Broadcast(v, width))
    case Arr(a, _) => s.ArrSlot? && s.ptr == a
    case Unary(op, c) => s.UnarySlot? && s.uop == op && Shaped(s.child, c, width)
    case Binary(op, l, r) => s.BinarySlot? && s.bop == op && Shaped(s.left, l, width) && Shaped(s.right, r, width)
    case Store(_, _) => false
  }

  /** The pointers the slot tree holds. */
  function SlotArrays(s: Slot): set<array<int>>
  {
    match s
    case ImmSlot(_) => {}
    case ArrSlot(p, _) => {p}
    case UnarySlot(_, c) => SlotArrays(c)
    case BinarySlot(_, l, r) => SlotArrays(l) + SlotArrays(r)
  }

  /** Every captured pointer has at least `hi` elements. */
  predicate InBounds(s: Slot, hi: nat)
  {
    forall p :: p in SlotArrays(s) ==> hi <= p.Length
  }

  /** Every register in the tree holds `width` lanes. */
  predicate Filled(s: Slot, width: nat)
  {
    match s
    case ImmSlot(t) => |t| == width
    case ArrSlot(_, t) => |t| == width
    case UnarySlot(_, c) => Filled(c, width)
    case BinarySlot(_, l, r) => Filled(l, width) && Filled(r, width)
  }

  /** `prepare` below the root: `set` broadcasts each immediate, each array
      leaf captures `data()`; the array's register is not yet loaded. */
  function PrepareSlot(e: Expr, width: nat): (s: Slot)
    requires StoreFree(e)
    ensures Shaped(s, e, width) && SlotArrays(s) == Arrays(e)
  {
    match e
    case Imm(v) => ImmSlot(Broadcast(v, width))
    case Arr(a, _) => ArrSlot(a, [])
    case Unary(op, c) => UnarySlot(op, PrepareSlot(c, width))
    case Binary(op, l, r) => BinarySlot(op, PrepareSlot(l, width), PrepareSlot(r, width))
  }

  /** `load` below the root: every array leaf loads the pack at `offset`
      through its captured pointer; the other nodes pass the call down. */
  function LoadSlot(s: Slot, offset: nat, width: nat): Slot
    reads SlotArrays(s)
    requires InBounds(s, offset + width)
  {
    match s
    case ImmSlot(_) => s
    case ArrSlot(p, _) => ArrSlot(p, PackLoad(p, offset, width))
    case UnarySlot(op, c) => UnarySlot(op, LoadSlot(c, offset, width))
    case BinarySlot(op, l, r) => BinarySlot(op, LoadSlot(l, offset, width), LoadSlot(r, offset, width))
  }

  /** `operator()` below the root: leaves return their register, operators
      apply `unary<tag>` / `binary<tag>` to their operands' results. */
  function EvalSlot(s: Slot, width: nat): (p: Pack)
    requires Filled(s, width)
    ensures |p| == width
  {
    match s
    case ImmSlot(t) => t
    case ArrSlot(_, t) => t
    case UnarySlot(op, c) => PackUnary(op, EvalSlot(c, width))
    case BinarySlot(op, l, r) => PackBinary(op, EvalSlot(l, width), EvalSlot(r, width))
  }

  /** After `prepare`, `load` at `offset` followed by evaluation yields the
      expression's value at `offset .. offset + width` over any memory the
      operand buffers agree with there: an immediate gives its broadcast
      value whatever the offset, an array the pack at the offset. */
  lemma {:induction false} LoadThenEvaluate(s: Slot, e: Expr, m: Memory, offset: nat, width: nat)
    requires width >= 1 && Shaped(s, e, width) && Agrees(e, m, offset, offset + width)
    ensures SlotArrays(s) == Arrays(e) && InBounds(s, offset + width)
    ensures Filled(LoadSlot(s, offset, width), width) && Shaped(LoadSlot(s, offset, width), e, width)
    ensures EvalSlot(LoadSlot(s, offset, width), width) == PackOf(e, m, offset, width)
  {
    match e
    case Imm(v) =>
      assert EvalSlot(LoadSlot(s, offset, width), width) == PackOf(e, m, offset, width);
    case Arr(a, _) =>
      var p := EvalSlot(LoadSlot(s, offset, width), width);
      assert forall k :: 0 <= k < width ==> p[k] == a[offset + k] == Elem(m, a, offset + k);
      assert p == PackOf(e, m, offset, width);
    case Unary(op, c) =>
      AgreesSubtree(c, e, m, offset, offset + width);
      LoadThenEvaluate(s.child, c, m, offset, width);
      var p := EvalSlot(LoadSlot(s, offset, width), width);
      assert p == PackOf(e, m, offset, width);
    case Binary(op, l, r) =>
      AgreesSubtree(l, e, m, offset, offset + width);
      AgreesSubtree(r, e, m, offset, offset + width);
      LoadThenEvaluate(s.left, l, m, offset, width);
      LoadThenEvaluate(s.right, r, m, offset, width);
      var p := EvalSlot(LoadSlot(s, offset, width), width);
      assert p == PackOf(e, m, offset, width);
  }

  /** Where the root evaluator is in its protocol. */
  datatype Stage = Unprepared | Ready | Loaded(offset: nat) | Evaluated(offset: nat)

  /** A store the root performed: `width` elements from `offset`. */
  datatype Write = Write(offset: nat, width: nat)

  /** `array_eval_t` for the `Store` root, instantiated for a model whose
      registers hold `width` elements. */
  class Evaluator {
    const width: nat
    var tmp: Pack
    var ptr: array?<int>
    var right: Slot
    ghost var stage: Stage

    /** Prepared for `expr`, and the protocol's order kept: after `load`
        every register below the root is filled, and after evaluation `tmp`
        holds the source's value. */
    ghost predicate Valid(expr: Expr)
      reads this
    {
      expr.Store? && StoreFree(expr.src) && width >= 1 && stage != Unprepared
      && ptr == expr.dest && Shaped(right, expr.src, width)
      && (stage.Loaded? || stage.Evaluated? ==> Filled(right, width))
      && (stage.Evaluated? ==> Filled(right, width) && tmp == EvalSlot(right, width))
    }

    constructor (model: Isa)
      ensures width == model.packSize && stage == Unprepared && ptr == null
    {
      width := model.packSize;
      tmp := [];
      ptr := null;
      right := ImmSlot([]);
      stage := Unprepared;
    }

    /** `prepare`: prepares the source's evaluator and captures the
        destination pointer. */
    method Prepare(expr: Expr)
      requires stage == Unprepared && expr.Store? && StoreFree(expr.src) && width >= 1
      modifies this
      ensures Valid(expr) && stage == Ready
      ensures right == PrepareSlot(expr.src, width) && ptr == expr.dest && tmp == old(tmp)
    {
      right := PrepareSlot(expr.src, width);
      ptr := expr.dest;
      stage := Ready;
    }

    /** `load` at `offset`: the source's evaluator loads its operands. When
        the operand buffers hold what m says at `offset .. offset + width`,
        evaluation will produce the source's value there over m. */
    method Load(expr: Expr, offset: nat, ghost m: Memory)
      requires Valid(expr) && stage == Ready
      requires Agrees(expr.src, m, offset, offset + width)
      modifies this
      ensures Valid(expr) && stage == Loaded(offset) && tmp == old(tmp)
      ensures Filled(right, width) && EvalSlot(right, width) == PackOf(expr.src, m, offset, width)
    {
      LoadThenEvaluate(right, expr.src, m, offset, width);
      right := LoadSlot(right, offset, width);
      stage := Loaded(offset);
    }

    /** `operator()`: evaluates the source into `tmp` and returns it; the
        value returned is the one `store` will write. */
    method Evaluate(expr: Expr, offset: nat) returns (r: Pack)
      requires Valid(expr) && stage == Loaded(offset)
      modifies this
      ensures Valid(expr) && stage == Evaluated(offset) && right == old(right)
      ensures r == tmp == EvalSlot(right, width) && |r| == width
    {
      tmp := EvalSlot(right, width);
      r := tmp;
      stage := Evaluated(offset);
    }

    /** `store`: writes `tmp` to `width` elements of the destination from
        `offset` and leaves every other element alone. */
    method Store(expr: Expr, offset: nat) returns (ghost w: Write)
      requires Valid(expr) && stage == Evaluated(offset)
      requires offset + width <= expr.dest.Length
      modifies this, expr.dest
      ensures Valid(expr) && stage == Ready && tmp == old(tmp) && right == old(right)
      ensures w == Write(offset, width)
      ensures forall k :: 0 <= k < expr.dest.Length ==>
        expr.dest[k] == if offset <= k < offset + width then tmp[k - offset] else old(expr.dest[k])
    {
      var _ := PackStore(ptr, offset, tmp);
      stage := Ready;
      w := Write(offset, width);
    }
  }
}
