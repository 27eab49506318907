/** `arithmetic_array<T, size_>`: an array of `int` elements whose
    assignments evaluate an expression tree into its buffer through
    `execute`. `staticSize` is the `size_` template argument: positive for
    the fixed-size array, 0 for the runtime-length specialisation. */
module Container {
  import opened Arith
  import opened InstructionSets
  import opened Expressions
  import opened Cost
  import opened Evaluation
  import opened Loops

  /** `std::fill(first, last, val)` over a whole buffer. */
  method Fill(a: array<int>, val: int)
    modifies a
    ensures forall j :: 0 <= j < a.Length ==> a[j] == val
  {
    var k := 0;
    while k < a.Length
      invariant 0 <= k <= a.Length
      invariant forall j :: 0 <= j < k ==> a[j] == val
    {
      a[k] := val;
      k := k + 1;
    }
  }

  class ArithmeticArray {
    /** `vector_instruction_set<T>`: the model every assignment runs with. */
    const vector: Isa
    const staticSize: nat
    var size: nat
    var data: array<int>

    /** The buffer holds `size` elements, a fixed-size array's size is its
        template argument, `size` is a `size_t` value, and the vector model
        has the shape the loop engine works with. */
    ghost predicate Valid()
      reads this
    {
      data.Length == size && size < Word() && (staticSize > 0 ==> size == staticSize)
      && IsPowerOfTwo(vector.packSize) && vector.packSize <= 8
    }

    /** The array as an operand of an expression. It is a node, so the
        operator overloads accept it, and it reads its own buffer. Only the
        runtime-length array counts as a load; a fixed-size array falls to
        the primary `count` template and counts as an immediate. */
    function Node(): (e: Expr)
      reads this
      ensures e.Arr? && e.buffer == data && IsNode(e)
      ensures Count(e) == if staticSize == 0 then Counts(1, 0, 0, 0) else Counts(0, 0, 0, 1)
    {
      Arr(data, staticSize)
    }

    /** `arithmetic_array<T, size_>(val)`: every element of the fixed-size
        buffer set to `val`. */
    constructor Fixed(staticSize: nat, val: int, vector: Isa)
      requires 1 <= staticSize < Word() && IsPowerOfTwo(vector.packSize) && vector.packSize <= 8
      ensures Valid() && fresh(data) && this.staticSize == staticSize && this.vector == vector
      ensures size == staticSize && forall j :: 0 <= j < size ==> data[j] == val
    {
      var buffer := new int[staticSize];
      Fill(buffer, val);
      this.vector := vector;
      this.staticSize := staticSize;
      size := staticSize;
      data := buffer;
    }

    /** `arithmetic_array<T>(size, val)`: a runtime-length buffer of `size`
        elements, every one set to `val`. */
    constructor Sized(size: nat, val: int, vector: Isa)
      requires size < Word() && IsPowerOfTwo(vector.packSize) && vector.packSize <= 8
      ensures Valid() && fresh(data) && staticSize == 0 && this.vector == vector
      ensures this.size == size && forall j :: 0 <= j < size ==> data[j] == val
    {
      var buffer := new int[size];
      Fill(buffer, val);
      this.vector := vector;
      staticSize := 0;
      this.size := size;
      data := buffer;
    }

    /** `operator=(const T1 &rhs)`: `execute(store(data, rhs), size)`. Every
        element ends up holding the expression's value there over the
        contents the operands had before the call, even when `rhs` reads
        this array's own buffer. */
    method Assign(rhs: Expr) returns (ghost writes: seq<Write>)
      requires Valid() && StoreFree(rhs) && forall a :: a in Arrays(rhs) ==> size <= a.Length
      modifies data
      ensures forall j :: 0 <= j < size ==> data[j] == ValueAt(rhs, old(Snapshot(rhs)), j)
      ensures writes == Schedule(size, vector.packSize)
    {
      writes := Execute(Store(data, rhs), size, vector);
    }

    /** `operator=(const arithmetic_array &rhs)`: `execute(store(data, rhs),
        size)`; the first `size` elements of `rhs` are copied. */
    method AssignArray(rhs: ArithmeticArray) returns (ghost writes: seq<Write>)
      requires Valid() && rhs.Valid() && size <= rhs.size
      modifies data
      ensures forall j :: 0 <= j < size ==> data[j] == old(rhs.data[j])
      ensures writes == Schedule(size, vector.packSize)
    {
      writes := Execute(Store(data, rhs.Node()), size, vector);
    }

    /** `operator+=`, `-=`, `*=`, `/=`: `execute(store(data, *this op rhs),
        size)`. Each element becomes its old value combined with the
        right-hand side's value there, both read before the element is
        overwritten. */
    method CompoundAssign(op: BinaryTag, rhs: Expr) returns (ghost writes: seq<Write>)
      requires op == Add || op == Sub || op == Mul || op == Div
      requires Valid() && StoreFree(rhs) && forall a :: a in Arrays(rhs) ==> size <= a.Length
      modifies data
      ensures forall j :: 0 <= j < size ==> data[j] == ApplyBinary(op, old(data[j]), ValueAt(rhs, old(Snapshot(rhs)), j))
      ensures writes == Schedule(size, vector.packSize)
    {
      var src := MakeBinary(op, Node(), rhs).value;
      ghost var m0, mr := Snapshot(src), Snapshot(rhs);
      ghost var before := data[..];
      writes := Execute(Store(data, src), size, vector);
      forall j | 0 <= j < size
        ensures data[j] == ApplyBinary(op, before[j], ValueAt(rhs, mr, j))
      {
        assert data[j] == ValueAt(src, m0, j);
        assert ValueAt(src, m0, j) == ApplyBinary(op, ValueAt(Node(), m0, j), ValueAt(rhs, m0, j));
        assert data in Arrays(src);
        assert ValueAt(Node(), m0, j) == Elem(m0, data, j) == before[j];
        ValueAtIsElementwise(rhs, m0, mr, j);
      }
    }

    /** `swap`: the two arrays exchange their buffers and sizes. */
    method Swap(other: ArithmeticArray)
      requires Valid() && other.Valid() && other.staticSize == staticSize && other.vector == vector
      modifies this, other
      ensures Valid() && other.Valid()
      ensures data == old(other.data) && other.data == old(data)
      ensures size == old(other.size) && other.size == old(size)
    {
      data, other.data := other.data, data;
      size, other.size := other.size, size;
    }
  }
}
