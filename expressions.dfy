/** The expression graph: the tagged tuples that the arithmetic operators
    build, and the elementwise value such a tree denotes. */
module Expressions {
  import opened InstructionSets

  /** A node of the graph. `Arr` is a reference to an `arithmetic_array`'s
      buffer together with the array's compile-time size, 0 for the
      runtime-length specialisation; `Store` writes its source into the
      buffer `dest` points to. */
  datatype Expr =
    | Imm(value: int)
    | Arr(buffer: array<int>, staticSize: nat)
    | Unary(uop: UnaryTag, child: Expr)
    | Binary(bop: BinaryTag, left: Expr, right: Expr)
    | Store(dest: array<int>, src: Expr)

  datatype Option<T> = None | Some(value: T)

  /** `is_node<T>`: operator and store tuples and arrays are nodes, a plain
      scalar is not. */
  predicate IsNode(e: Expr)
  {
    !e.Imm?
  }

  /** `sqrt`, `rsqrt`, `rcp`: the overload exists only for a node or array
      operand; for a scalar operand there is nothing to call (`None`). */
  function MakeUnary(op: UnaryTag, a: Expr): (r: Option<Expr>)
    ensures r.Some? <==> IsNode(a)
    ensures r.Some? ==> r.value.Unary? && r.value.uop == op && r.value.child == a
  {
    if IsNode(a) then Some(Unary(op, a)) else None
  }

  /** `+ - * / min max`: the overload exists only when at least one operand
      is a node or an array, so two plain scalars never form a node. */
  function MakeBinary(op: BinaryTag, a: Expr, b: Expr): (r: Option<Expr>)
    ensures r.Some? <==> IsNode(a) || IsNode(b)
    ensures r.Some? ==> r.value.Binary? && r.value.bop == op && r.value.left == a && r.value.right == b
  {
    if IsNode(a) || IsNode(b) then Some(Binary(op, a, b)) else None
  }

  /** Trees the operator overloads can produce. */
  predicate Buildable(e: Expr)
  {
    match e
    case Imm(_) => true
    case Arr(_, _) => true
    case Unary(_, c) => IsNode(c) && Buildable(c)
    case Binary(_, l, r) => (IsNode(l) || IsNode(r)) && Buildable(l) && Buildable(r)
    case Store(_, s) => Buildable(s)
  }

  /** Whatever the overloads return is again buildable, and a built tree
      never has an operator whose operands are all plain scalars. */
  lemma {:induction false} OverloadsBuild(op: BinaryTag, u: UnaryTag, a: Expr, b: Expr)
    requires Buildable(a) && Buildable(b)
    ensures MakeBinary(op, a, b).Some? ==> Buildable(MakeBinary(op, a, b).value)
    ensures MakeUnary(u, a).Some? ==> Buildable(MakeUnary(u, a).value)
    ensures !IsNode(a) && !IsNode(b) ==> !Buildable(Binary(op, a, b)) && !Buildable(Unary(u, a))
  {
  }

  /** A tree with no `Store` below its root. */
  predicate StoreFree(e: Expr)
  {
    match e
    case Imm(_) => true
    case Arr(_, _) => true
    case Unary(_, c) => StoreFree(c)
    case Binary(_, l, r) => StoreFree(l) && StoreFree(r)
    case Store(_, _) => false
  }

  /** The buffers the tree reads. */
  function Arrays(e: Expr): set<array<int>>
  {
    match e
    case Imm(_) => {}
    case Arr(a, _) => {a}
    case Unary(_, c) => Arrays(c)
    case Binary(_, l, r) => Arrays(l) + Arrays(r)
    case Store(_, s) => Arrays(s)
  }

  /** The buffers a tree refers to exist in the current heap, so a method
      that modifies other objects leaves them alone. */
  lemma {:induction false} ArraysAllocated(e: Expr)
    ensures forall a :: a in Arrays(e) ==> allocated(a)
  {
    match e
    case Imm(_) =>
    case Arr(_, _) =>
    case Unary(_, c) =>
      ArraysAllocated(c);
    case Binary(_, l, r) =>
      ArraysAllocated(l);
      ArraysAllocated(r);
    case Store(_, s) =>
      ArraysAllocated(s);
  }

  /** Contents of buffers, as a value. */
  type Memory = map<array<int>, seq<int>>

  /** Element j of buffer a in m (0 where m has no such element; the
      loop engine only asks for elements that exist). */
  function Elem(m: Memory, a: array<int>, j: int): int
  {
    if a in m && 0 <= j < |m[a]| then m[a][j] else 0
  }

  /** The current contents of every buffer the tree reads. */
  function Snapshot(e: Expr): (m: Memory)
    reads Arrays(e)
    ensures m.Keys == Arrays(e)
    ensures forall a, j :: a in Arrays(e) && 0 <= j < a.Length ==> Elem(m, a, j) == a[j]
  {
    map a | a in Arrays(e) :: a[..]
  }

  /** The value the tree denotes at element j, with the operands' contents
      taken from m. A `Store` node's value is that of its source. */
  function ValueAt(e: Expr, m: Memory, j: int): int
  {
    match e
    case Imm(v) => v
    case Arr(a, _) => Elem(m, a, j)
    case Unary(op, c) => ApplyUnary(op, ValueAt(c, m, j))
    case Binary(op, l, r) => ApplyBinary(op, ValueAt(l, m, j), ValueAt(r, m, j))
    case Store(_, s) => ValueAt(s, m, j)
  }

  /** The values at elements `lo .. lo + width`. */
  function PackOf(e: Expr, m: Memory, lo: int, width: nat): (p: Pack)
    ensures |p| == width && forall k :: 0 <= k < width ==> p[k] == ValueAt(e, m, lo + k)
  {
    seq(width, k => ValueAt(e, m, lo + k))
  }

  /** The buffers the tree reads have elements `lo .. hi`, and hold there
      what m says. */
  ghost predicate Agrees(e: Expr, m: Memory, lo: int, hi: int)
    reads Arrays(e)
  {
    (forall a :: a in Arrays(e) ==> 0 <= lo && hi <= a.Length)
    && forall a, j :: a in Arrays(e) && lo <= j < hi ==> Elem(m, a, j) == a[j]
  }

  /** Agreement carries over to a tree reading fewer buffers. */
  lemma AgreesSubtree(sub: Expr, e: Expr, m: Memory, lo: int, hi: int)
    requires Arrays(sub) <= Arrays(e) && Agrees(e, m, lo, hi)
    ensures Agrees(sub, m, lo, hi)
  {
  }

  /** Evaluation is elementwise: the value at j depends only on element j
      of each operand buffer. */
  lemma {:induction false} ValueAtIsElementwise(e: Expr, m1: Memory, m2: Memory, j: int)
    requires forall a :: a in Arrays(e) ==> Elem(m1, a, j) == Elem(m2, a, j)
    ensures ValueAt(e, m1, j) == ValueAt(e, m2, j)
  {
    match e
    case Imm(_) =>
    case Arr(_, _) =>
    case Unary(_, c) =>
      ValueAtIsElementwise(c, m1, m2, j);
    case Binary(_, l, r) =>
      ValueAtIsElementwise(l, m1, m2, j);
      ValueAtIsElementwise(r, m1, m2, j);
    case Store(_, s) =>
      ValueAtIsElementwise(s, m1, m2, j);
  }
}
