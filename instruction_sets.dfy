/** The instruction-set models an evaluator is instantiated with.

    The element type is modelled as `int` (the library instantiated with an
    integer element type), so every primitive has exact semantics. The
    scalar model is given concretely; a vector model is described by its
    shape constants and by the abstract semantics of its primitives: a
    pack is the `packSize` consecutive elements a vector register holds,
    `load` reads the slice at an index, `store` overwrites it, and the
    arithmetic primitives act lane by lane. */
module InstructionSets {
  import opened Arith

  datatype UnaryTag = Sqrt | Rsqrt | Rcp

  datatype BinaryTag = Add | Sub | Mul | Div | Min | Max

  /** Shape of an instruction-set model: elements per register, the byte
      alignment its loads and stores need, and the number of vector registers
      the unroll heuristic budgets for. */
  datatype Isa = Isa(packSize: nat, alignment: nat, registers: nat)

  /** `scalar_instruction_set<T>`: one element per "register". */
  const Scalar: Isa := Isa(1, 16, 8)

  /** The vector extension the build was compiled for. */
  datatype Extension = Avx | Sse2 | NoVector

  datatype ElementType = Float | Double | OtherElement(bytes: nat)

  function SizeOf(t: ElementType): nat
  {
    match t
    case Float => 4
    case Double => 8
    case OtherElement(b) => b
  }

  /** Whether `vector_instruction_set<T>` has its own specialisation. */
  predicate HasSpecialisation(ext: Extension, t: ElementType)
  {
    ext != NoVector && (t == Float || t == Double)
  }

  /** `vector_instruction_set<T>` for the build's extension: the AVX or SSE2
      specialisation for float and double, otherwise the scalar model it
      inherits from. */
  function VectorIsa(ext: Extension, t: ElementType): (isa: Isa)
    ensures HasSpecialisation(ext, t) ==>
      IsPowerOfTwo(isa.packSize) && isa.packSize > 1 && isa.packSize * SizeOf(t) == isa.alignment
    ensures !HasSpecialisation(ext, t) ==> isa == Scalar
    ensures IsPowerOfTwo(isa.packSize) && isa.packSize <= 8
  {
    match (ext, t)
    case (Avx, Float) => Isa(8, 32, 16)
    case (Avx, Double) => Isa(4, 32, 16)
    case (Sse2, Float) => Isa(4, 16, 8)
    case (Sse2, Double) => Isa(2, 16, 8)
    case _ => Scalar
  }

  // ---------------------------------------------------------------------
  // Scalar element operations (`scalar_instruction_set<int>`)

  function Abs(x: int): nat { if x < 0 then -x else x }

  /** Truncating the magnitude quotient leaves a remainder of the
      dividend's sign and smaller than the divisor. */
  lemma {:induction false} TruncatedRemainder(a: int, b: int, d: int, q: int)
    requires b != 0 && d == Abs(a) / Abs(b)
    requires q == if (a >= 0) == (b > 0) then d else -d
    ensures Abs(a - q * b) < Abs(b)
    ensures a - q * b == 0 || (a - q * b > 0 <==> a > 0)
  {
    var r := Abs(a) - d * Abs(b);
    MagnitudeRemainder(Abs(a), Abs(b), d);
    SignedProduct(a, b, d, q);
    if a >= 0 {
      assert a - q * b == r;
    } else {
      assert a - q * b == -r;
    }
  }

  lemma MagnitudeRemainder(x: nat, y: nat, d: int)
    requires y > 0 && d == x / y
    ensures 0 <= x - d * y < y
    ensures x == 0 ==> x - d * y == 0
  {
    assert x == d * y + x % y;
  }

  /** The quotient with the sign put back, times the divisor, is the
      magnitude product with the dividend's sign. */
  lemma SignedProduct(a: int, b: int, d: int, q: int)
    requires q == if (a >= 0) == (b > 0) then d else -d
    ensures q * b == if a >= 0 then d * Abs(b) else -(d * Abs(b))
  {
    if (a >= 0) == (b > 0) {
      SameSignProduct(a, b, d);
    } else {
      OppositeSignProduct(a, b, d);
    }
  }

  lemma SameSignProduct(a: int, b: int, d: int)
    requires (a >= 0) == (b > 0)
    ensures d * b == (if a >= 0 then d * Abs(b) else -(d * Abs(b)))
  {
  }

  lemma OppositeSignProduct(a: int, b: int, d: int)
    requires (a >= 0) != (b > 0)
    ensures (-d) * b == (if a >= 0 then d * Abs(b) else -(d * Abs(b)))
  {
  }

  /** C++ integer division: the quotient is truncated toward zero, so the
      remainder `a - q * b` is smaller than the divisor in magnitude and
      takes the sign of the dividend. Division by zero is undefined
      behaviour in C++; it yields 0 here. */
  function TruncDiv(a: int, b: int): (q: int)
    ensures b != 0 ==> Abs(a - q * b) < Abs(b)
    ensures b != 0 ==> a - q * b == 0 || (a - q * b > 0 <==> a > 0)
    ensures b == 0 ==> q == 0
  {
    if b == 0 then 0
    else
      var d := Abs(a) / Abs(b);
      var q := if (a >= 0) == (b > 0) then d else -d;
      TruncatedRemainder(a, b, d, q);
      q
  }

  /** One step of the integer square root: doubling the root of a / 4
      brackets the root of a within two. */
  lemma SqrtStep(a: nat, r0: nat)
    requires r0 * r0 <= a / 4 < (r0 + 1) * (r0 + 1)
    ensures (2 * r0) * (2 * r0) <= a < (2 * r0 + 2) * (2 * r0 + 2)
  {
    var q := a / 4;
    assert 4 * q <= a < 4 * q + 4;
    assert (2 * r0) * (2 * r0) == 4 * (r0 * r0);
    assert (2 * r0 + 2) * (2 * r0 + 2) == 4 * ((r0 + 1) * (r0 + 1));
    assert (r0 + 1) * (r0 + 1) >= q + 1;
  }

  /** `(int) std::sqrt(a)`: the integer square root, rounded down. A
      negative argument gives NaN in C++, which has no integer value; it
      yields 0 here. */
  function FloorSqrt(a: int): (r: nat)
    ensures a >= 0 ==> r * r <= a < (r + 1) * (r + 1)
    ensures a < 0 ==> r == 0
    decreases if a < 0 then 0 else a
  {
    if a < 2 then (if a < 0 then 0 else a)
    else
      var r0 := FloorSqrt(a / 4);
      SqrtStep(a, r0);
      SqrtRefine(a, 2 * r0)
  }

  /** From a root rounded down to within two, the root rounded down. */
  function SqrtRefine(a: nat, s: nat): (r: nat)
    requires s * s <= a < (s + 2) * (s + 2)
    ensures r * r <= a < (r + 1) * (r + 1)
  {
    if (s + 1) * (s + 1) <= a then s + 1 else s
  }

  function ApplyUnary(op: UnaryTag, a: int): int
  {
    match op
    case Sqrt => FloorSqrt(a)
    // `1 / std::sqrt(a)` converted back to int: 1 for a == 1, 0 above;
    // a <= 0 divides by zero or by NaN and yields 0 here
    case Rsqrt => if a == 1 then 1 else 0
    // `1 / a` in integer arithmetic
    case Rcp => TruncDiv(1, a)
  }

  /** `a < b ? a : b`: ties return b. */
  function ScalarMin(a: int, b: int): (r: int)
    ensures r <= a && r <= b && (r == a || r == b)
  {
    if a < b then a else b
  }

  /** `a > b ? a : b`: ties return b. */
  function ScalarMax(a: int, b: int): (r: int)
    ensures r >= a && r >= b && (r == a || r == b)
  {
    if a > b then a else b
  }

  function ApplyBinary(op: BinaryTag, a: int, b: int): int
  {
    match op
    case Add => a + b
    case Sub => a - b
    case Mul => a * b
    case Div => TruncDiv(a, b)
    case Min => ScalarMin(a, b)
    case Max => ScalarMax(a, b)
  }

  /** Scalar `set`: the broadcast of a value to a one-element register. */
  function ScalarSet(value: int): int { value }

  /** Scalar `load`: reads `ptr[index]`. */
  function ScalarLoad(ptr: array<int>, index: nat): (v: int)
    reads ptr
    requires index < ptr.Length
  {
    ptr[index]
  }

  /** Scalar `store`: writes `ptr[index]` and returns the value written. */
  method ScalarStore(ptr: array<int>, index: nat, val: int) returns (r: int)
    requires index < ptr.Length
    modifies ptr
    ensures r == val && ptr[index] == val
    ensures forall k :: 0 <= k < ptr.Length && k != index ==> ptr[k] == old(ptr[k])
  {
    ptr[index] := val;
    r := val;
  }

  /** Scalar `stream`: the non-temporal store, which for one element is an
      ordinary store. */
  method ScalarStream(ptr: array<int>, index: nat, val: int) returns (r: int)
    requires index < ptr.Length
    modifies ptr
    ensures r == val && ptr[index] == val
    ensures forall k :: 0 <= k < ptr.Length && k != index ==> ptr[k] == old(ptr[k])
  {
    ptr[index] := val;
    r := val;
  }

  // ---------------------------------------------------------------------
  // Packs: the contents of one register of a model with `packSize` lanes

  type Pack = seq<int>

  /** `set`: the value broadcast to every lane. */
  function Broadcast(value: int, width: nat): (p: Pack)
    ensures |p| == width && forall k :: 0 <= k < width ==> p[k] == value
  {
    seq(width, _ => value)
  }

  /** `load(ptr, index)`: the `width` elements starting at `index`. */
  function PackLoad(ptr: array<int>, index: nat, width: nat): (p: Pack)
    reads ptr
    requires index + width <= ptr.Length
    ensures |p| == width && forall k :: 0 <= k < width ==> p[k] == ptr[index + k]
  {
    ptr[index..index + width]
  }

  /** `store(ptr, index, val)`: overwrites the `|val|` elements starting at
      `index` and returns `val`. */
  method PackStore(ptr: array<int>, index: nat, val: Pack) returns (r: Pack)
    requires index + |val| <= ptr.Length
    modifies ptr
    ensures r == val
    ensures forall k :: 0 <= k < ptr.Length ==>
      ptr[k] == if index <= k < index + |val| then val[k - index] else old(ptr[k])
  {
    forall k | 0 <= k < |val| {
      ptr[index + k] := val[k];
    }
    r := val;
  }

  /** `unary<tag>`: the element operation applied to every lane. */
  function PackUnary(op: UnaryTag, a: Pack): (r: Pack)
    ensures |r| == |a| && forall k :: 0 <= k < |a| ==> r[k] == ApplyUnary(op, a[k])
  {
    seq(|a|, k requires 0 <= k < |a| => ApplyUnary(op, a[k]))
  }

  /** `binary<tag>`: the element operation applied lane by lane. */
  function PackBinary(op: BinaryTag, a: Pack, b: Pack): (r: Pack)
    requires |a| == |b|
    ensures |r| == |a| && forall k :: 0 <= k < |a| ==> r[k] == ApplyBinary(op, a[k], b[k])
  {
    seq(|a|, k requires 0 <= k < |a| => ApplyBinary(op, a[k], b[k]))
  }

  /** A pack store of one lane has exactly the contract of the scalar
      `store`: the element at `index` becomes the value, which is returned,
      and every other element is unchanged. The scalar tail of the loop
      engine writes through `PackStore` at width 1, so this is what ties it
      to `ScalarStore`. */
  method OneLaneStore(ptr: array<int>, index: nat, val: int) returns (r: int)
    requires index < ptr.Length
    modifies ptr
    ensures r == val && ptr[index] == val
    ensures forall k :: 0 <= k < ptr.Length && k != index ==> ptr[k] == old(ptr[k])
  {
    var p := PackStore(ptr, index, [val]);
    r := p[0];
  }

  /** With one lane, the pack primitives are the scalar model's. */
  lemma OneLaneIsScalar(ptr: array<int>, index: nat, value: int, u: UnaryTag, op: BinaryTag, a: int, b: int)
    requires index < ptr.Length
    ensures Broadcast(value, 1) == [ScalarSet(value)]
    ensures PackLoad(ptr, index, 1) == [ScalarLoad(ptr, index)]
    ensures PackUnary(u, [a]) == [ApplyUnary(u, a)]
    ensures PackBinary(op, [a], [b]) == [ApplyBinary(op, a, b)]
  {
  }
}
