# ARRR in Dafny

ARRR is a header-only C++ library of expression templates for arithmetic on
arrays. An arithmetic expression over `arithmetic_array`s (`a + b * c`,
`min(a, b)`, `sqrt(a)`) builds a tree of tagged tuples. Assignment turns the
tree into a `store` node and hands it to `execute`. `execute` counts the
tree's loads, picks an unroll tier and runs one fused loop over the
destination. That loop drives one, two, four or eight copies of the tree's
evaluator (`array_eval_t`) over packs of `pack_size` elements and finishes
the remainder element by element with the scalar model.

This project models that core with `int` elements:

- `arith.dfy` (module `Arith`): `size_t` arithmetic.
  - The loop bounds `N & ~(b - 1)` are computed bit by bit, and the bound is
    proved to be the largest multiple of `b` not above N.
- `instruction_sets.dfy` (module `InstructionSets`): the instruction-set
  models.
  - `scalar_instruction_set<int>` is modelled concretely, including C++
    truncating division.
  - The shapes of the vector specialisations are given as constants.
  - Vector registers are abstract packs, with slice load and store and lanewise
    operations.
- `expressions.dfy` (module `Expressions`): the expression tree, the operator
  overloads that build it, and `ValueAt`, the elementwise value of a tree over
  a memory snapshot.
- `cost.dfy` (module `Cost`): `count<T>`, the unroll factor and the tier it
  selects.
- `evaluation.dfy` (module `Evaluation`): `array_eval_t`.
  - The `Store` root is the class `Evaluator`, with its `tmp` and `ptr` fields
    and the `right` sub-evaluator.
  - The evaluators of the nodes below it are a `Slot` value, because they
    never write memory.
  - A ghost `stage` field enforces the protocol: `prepare` once, then `load`,
    evaluate and `store` at each offset.
- `loops.dfy` (module `Loops`): the four `loop<unroll>::execute` tiers and
  `execute`.
  - Each `for` loop of a tier is a method with its invariants.
  - A round is the source's straight-line sequence: all evaluators load,
    then all evaluate, then all store, at consecutive packs. Each phase's
    calls are grouped by two, four and eight, keeping the source's order.
  - Each tier is proved to leave `dest[j]` equal to the source's value at j
    over the entry contents for every j below N, and to leave the rest of the
    buffer alone.
  - The stores each tier performs are proved to form one fixed schedule:
    aligned packs, then single elements, each index stored exactly once and
    in increasing order. The unroll tier is therefore unobservable.
- `container.dfy` (module `Container`): `arithmetic_array`.
  - The fill constructors, `=` from an expression and from an array, the
    compound assignments and `swap`.

## Model

| member | source | states |
|---|---|---|
| Arith.Complement | loops.hpp:10 | `~x` on `size_t`: the value whose bits are those of x flipped, within 64 bits; its meaning in the loop bounds is carried by Arith.ThresholdIsLargestMultiple |
| Arith.Threshold | loops.hpp:10 | `N & ~(b - 1)`, the bitwise AND computed bit by bit; what it is (the largest multiple of b up to N) is stated by Arith.ThresholdIsLargestMultiple |
| Arith.ThresholdIsLargestMultiple | loops.hpp:10 | for a power of two b, `N & ~(b - 1)` equals N minus N mod b: a multiple of b, not above N, within b of N, and no multiple of b up to N exceeds it |
| Arith.MaskRoundsDown | loops.hpp:37 | clearing the bits below a power of two m rounds N down to a multiple of m |
| Arith.ProductIsPowerOfTwo | loops.hpp:117 | the block sizes `k * pack_size` are powers of two when k and `pack_size` are |
| InstructionSets.VectorIsa | instruction_sets.hpp:36-148 | an AVX or SSE2 specialisation for float or double has a power-of-two pack size above 1, and its lanes times the element size equal its alignment; every other combination is the inherited scalar model; every pack size is a power of two of at most 8 |
| InstructionSets.TruncDiv | instruction_sets.hpp:28 | C++ `a / b` on integers: the remainder is smaller than the divisor in magnitude and has the dividend's sign; division by zero yields 0 |
| InstructionSets.FloorSqrt | instruction_sets.hpp:17 | `sqrt` converted to an integer is the root rounded down (r² ≤ a < (r+1)²); a negative argument yields 0 |
| InstructionSets.ScalarMin | instruction_sets.hpp:29 | `a < b ? a : b` is at most both operands and is one of them |
| InstructionSets.ScalarMax | instruction_sets.hpp:30 | `a > b ? a : b` is at least both operands and is one of them |
| InstructionSets.ApplyUnary | instruction_sets.hpp:16-19 | the scalar `unary_op` for each tag: `sqrt` is FloorSqrt, `rsqrt` is 1 at 1 and 0 elsewhere (`1 / sqrt(a)` truncated), `rcp` is TruncDiv(1, a); the meaning of each is carried by FloorSqrt and TruncDiv |
| InstructionSets.ApplyBinary | instruction_sets.hpp:24-30 | the scalar `binary_op` for each tag: `+`, `-`, `*`, TruncDiv, ScalarMin and ScalarMax; the meaning of each is carried by those members |
| InstructionSets.ScalarSet | instruction_sets.hpp:11 | scalar `set` returns its argument; OneLaneIsScalar ties it to the one-lane broadcast |
| InstructionSets.ScalarLoad | instruction_sets.hpp:12 | scalar `load` returns `ptr[index]` and, being a function, changes nothing; OneLaneIsScalar ties it to the one-lane pack load |
| InstructionSets.ScalarStore | instruction_sets.hpp:13 | `store` sets `ptr[index]`, returns the value and leaves every other element unchanged |
| InstructionSets.ScalarStream | instruction_sets.hpp:14 | `stream` behaves exactly like `store` |
| InstructionSets.Broadcast | instruction_sets.hpp:48-49 | `set` puts the value in every lane |
| InstructionSets.PackLoad | instruction_sets.hpp:50 | `load` returns the `pack_size` elements starting at `index` |
| InstructionSets.PackStore | instruction_sets.hpp:51 | `store` overwrites exactly the elements `index .. index + pack_size` with the pack and returns it |
| InstructionSets.PackUnary | instruction_sets.hpp:54-60 | `unary<tag>` applies the element operation in every lane |
| InstructionSets.PackBinary | instruction_sets.hpp:62-71 | `binary<tag>` applies the element operation lane by lane |
| InstructionSets.OneLaneIsScalar | instruction_sets.hpp:10-33 | with one lane, `set`, `load`, `unary` and `binary` of a pack are the scalar model's |
| InstructionSets.OneLaneStore | instruction_sets.hpp:13 | a one-lane pack store has exactly the scalar `store`'s contract: the element at the index becomes the value, which is returned, and every other element is unchanged; this is what ties the scalar tail, which stores through PackStore at width 1, to ScalarStore |
| Expressions.IsNode | arrr.hpp:23-26 | `is_node`: false for a plain scalar, true for operator and store tuples and for arrays (arrr.hpp:31-33, 43-45, 67-70, 226-229); the overload guards built on it are stated by MakeUnary and MakeBinary |
| Expressions.MakeUnary | arrr.hpp:28-38 | a unary overload exists exactly when its operand is a node or array, and builds the tagged node over it |
| Expressions.MakeBinary | arrr.hpp:40-51 | a binary overload exists exactly when at least one operand is a node or array, and builds the tagged node over both |
| Expressions.OverloadsBuild | arrr.hpp:52-63 | whatever the overloads build is again a well-formed tree, and an operator over plain scalars only is never well formed |
| Expressions.ValueAtIsElementwise | arrr.hpp:319-364 | the value of a tree at element j depends only on element j of each operand buffer |
| Cost.Count | arrr.hpp:232-266 | a store root has at least one store, a store-free tree has none, and every tree has at least one leaf |
| Cost.CountIsTally | arrr.hpp:232-266 | the statistics equal an independent tally of the tree's nodes by kind: loads are the runtime-length array leaves, immediates are the scalars and fixed-size arrays, operations are the operator nodes and stores are the store nodes, each counted once per occurrence |
| Cost.LeavesOutnumberOperators | arrr.hpp:253-266 | a tree without unary operators has exactly one more leaf than operators |
| Cost.Unroll | arrr.hpp:90 | `registers / (loads == 0 ? 1 : loads)` is the largest u with u times the divisor within the register budget, never divides by zero, and is at most `registers` |
| Cost.TierOf | loops.hpp:2-3 | unroll below 2 selects one evaluator, 2 to 3 selects two, 4 to 7 selects four, and 8 or more selects eight; the tier is 1 at unroll 0 and never exceeds a positive unroll, and below eight the unroll is less than twice the tier |
| Cost.TierMonotone | arrr.hpp:90 | more loads never select a wider tier |
| Evaluation.PrepareSlot | arrr.hpp:268-292 | `prepare` below the root broadcasts each immediate and captures each array's pointer, mirroring the tree |
| Evaluation.LoadSlot | arrr.hpp:287 | `load` below the root: each array leaf loads the pack at the offset through its captured pointer, and the operator nodes pass the call down (arrr.hpp:327-329, 350-353); what the loaded registers then evaluate to is stated by LoadThenEvaluate |
| Evaluation.EvalSlot | arrr.hpp:319-364 | evaluation below the root yields a pack of `pack_size` lanes |
| Evaluation.LoadThenEvaluate | arrr.hpp:268-364 | after `prepare`, `load` at an offset followed by evaluation yields the tree's value there: an immediate gives its broadcast value at any offset, an array gives the pack at the offset |
| Evaluation.Evaluator.constructor | arrr.hpp:294-300 | a fresh root evaluator has the model's width and is not yet prepared |
| Evaluation.Evaluator.Prepare | arrr.hpp:302-305 | `prepare`, allowed only on an evaluator not yet prepared, prepares the source's evaluators and captures the destination pointer |
| Evaluation.Evaluator.Load | arrr.hpp:306-308 | `load` at an offset loads every operand, so that evaluation will give the source's value there |
| Evaluation.Evaluator.Evaluate | arrr.hpp:313-315 | `operator()` stores the source's value in `tmp` and returns it |
| Evaluation.Evaluator.Store | arrr.hpp:309-312 | `store` writes `tmp`, the value evaluation returned, to `pack_size` elements of the destination from the offset, and changes no other element |
| Loops.PacksTile | loops.hpp:11 | packs of `pack_size` from lo to hi lie end to end, each aligned to `pack_size` from lo |
| Loops.ScheduleShape | loops.hpp:6-22 | the writes of a tier are aligned in-bounds vector packs up to the largest multiple of `pack_size`, then fewer than `pack_size` single elements; together they tile [0, N), and N = 0 writes nothing |
| Loops.ScheduleExactlyOnce | loops.hpp:2-328 | every index below N is stored exactly once, nothing outside [0, N) is stored, and the stores go in strictly increasing order |
| Loops.DoneAdvances | arrr.hpp:309-312 | storing the source's value over `i .. i + pack_size` moves the written boundary from i to `i + pack_size` |
| Loops.ProgressAgrees | arrr.hpp:306-308 | above the written boundary, the operands still hold their entry contents, so a load there sees what a load at entry would |
| Loops.ProgressStart | loops.hpp:4-5 | at the start of a tier nothing has been written |
| Loops.LoadAt | loops.hpp:12 | one evaluator's `load` at an offset above the written boundary |
| Loops.EvaluateAt | loops.hpp:13 | one evaluator's `operator()` after its `load` |
| Loops.StoreAt | loops.hpp:14 | one evaluator's `store` moves the written boundary by one pack |
| Loops.RunConcat | loops.hpp:38-73 | a run of a packs followed by a run of b packs is a run of a + b packs |
| Loops.LoadTwo | loops.hpp:39-40 | `root0`, `root1` load at consecutive packs |
| Loops.EvaluateTwo | loops.hpp:42-43 | `root0`, `root1` evaluate at consecutive packs |
| Loops.StoreTwo | loops.hpp:45-46 | `root0`, `root1` store at consecutive packs, in that order |
| Loops.LoadFour | loops.hpp:119-122 | four evaluators load at consecutive packs |
| Loops.EvaluateFour | loops.hpp:124-127 | four evaluators evaluate at consecutive packs |
| Loops.StoreFour | loops.hpp:129-132 | four evaluators store at consecutive packs, in order |
| Loops.LoadEight | loops.hpp:237-245 | eight evaluators load at consecutive packs |
| Loops.EvaluateEight | loops.hpp:247-255 | eight evaluators evaluate at consecutive packs |
| Loops.StoreEight | loops.hpp:257-265 | eight evaluators store at consecutive packs, in order |
| Loops.FinishEight | loops.hpp:247-265 | the eight evaluations, then the eight stores |
| Loops.Round1 | loops.hpp:11-15 | load, evaluate, store of one evaluator writes the source's value over one pack and keeps the evaluator ready for the next |
| Loops.Round2 | loops.hpp:39-47 | one two-evaluator round writes the source's value over two consecutive packs |
| Loops.Round4 | loops.hpp:181-194 | one four-evaluator round writes the source's value over four consecutive packs |
| Loops.Round8 | loops.hpp:237-265 | one eight-evaluator round writes the source's value over eight consecutive packs |
| Loops.BlockSize | loops.hpp:117 | a block of k packs, with k and `pack_size` powers of two, is a power of two of at most 128 elements |
| Loops.Nest | loops.hpp:37-86 | the bounds for blocks of a and b packs (a dividing b) are multiples of a packs and nest: the bound for b is at most the bound for a, which is at most N |
| Loops.BlockFits | loops.hpp:38 | a block starting below the bound ends at or below it, at the next multiple |
| Loops.EightPacksByTwoBody | loops.hpp:39-73 | four two-evaluator rounds write eight consecutive packs |
| Loops.SixteenPacksByFourBody | loops.hpp:119-177 | four four-evaluator rounds write sixteen consecutive packs |
| Loops.SixteenPacksByEightBody | loops.hpp:237-295 | two eight-evaluator rounds write sixteen consecutive packs |
| Loops.EightPacksByTwo | loops.hpp:37-74 | the size8 loop writes every pack up to its bound and stops exactly there |
| Loops.TwoPacks | loops.hpp:75-85 | the size2 loop resumes where the previous loop stopped and writes every pack up to its bound |
| Loops.SixteenPacksByFour | loops.hpp:117-178 | the four-evaluator size16 loop writes every pack up to its bound |
| Loops.FourPacks | loops.hpp:179-195 | the size4 loop resumes where the previous loop stopped and writes every pack up to its bound |
| Loops.SixteenPacksByEight | loops.hpp:235-296 | the eight-evaluator size16 loop writes every pack up to its bound |
| Loops.OnePack | loops.hpp:86-91 | the size1 loop with `root0` writes every whole pack up to `N & ~(pack_size - 1)` |
| Loops.ScalarRound | loops.hpp:16-21 | a freshly constructed and prepared scalar evaluator writes the source's value at one element |
| Loops.ScalarTail | loops.hpp:92-98 | the scalar loop writes each remaining element up to N |
| Loops.ProgressExecuted | loops.hpp:2-328 | once every element below N is written, the destination holds the source's value below N and its entry contents from N on |
| Loops.PrepareFour | loops.hpp:106-115 | four distinct fresh evaluators, each prepared for the expression |
| Loops.ExecuteTier1 | loops.hpp:1-23 | the one-evaluator tier leaves `dest[j]` equal to the source's value at j over the entry contents for j below N, leaves the rest unchanged, and performs the common schedule of stores |
| Loops.ExecuteTier2 | loops.hpp:25-100 | the two-evaluator tier leaves the same destination and performs the same schedule |
| Loops.ExecuteTier4 | loops.hpp:102-210 | the four-evaluator tier leaves the same destination and performs the same schedule |
| Loops.ExecuteTier8 | loops.hpp:212-328 | the eight-evaluator tier leaves the same destination and performs the same schedule |
| Loops.Execute | arrr.hpp:89-93 | `execute` runs the tier chosen by the unroll factor; whatever the tier, the destination ends up holding the expression's elementwise value over the entry contents |
| Container.Fill | arrr.hpp:109 | `std::fill` sets every element of the buffer to the value |
| Container.ArithmeticArray.Fixed | arrr.hpp:108-110 | the fixed-size array holds `size_` elements, all equal to `val` |
| Container.ArithmeticArray.Sized | arrr.hpp:173-177 | the runtime-length array holds `size` elements, all equal to `val` |
| Container.ArithmeticArray.Node | arrr.hpp:226-245 | an array used in an expression is a node, so the overloads accept it, and reads its own buffer; it counts as one load when it has runtime length and as one immediate when it has a compile-time size |
| Container.ArithmeticArray.Assign | arrr.hpp:127-131 | `= rhs` leaves every element equal to rhs's value there over the contents before the call, even when rhs reads this array, and performs the common store schedule |
| Container.ArithmeticArray.AssignArray | arrr.hpp:190-193 | `= other` copies the first `size` elements of other |
| Container.ArithmeticArray.CompoundAssign | arrr.hpp:132-151 | `op= rhs` leaves element j equal to the old element j combined with rhs's value at j, both read before the element is overwritten |
| Container.ArithmeticArray.Swap | arrr.hpp:121 | the two arrays exchange buffers and sizes |

## Left out

- Floating point: elements are `int`.
  - `sqrt` is the integer root rounded down.
  - `rsqrt` and `rcp` are `1 / sqrt(a)` and `1 / a` truncated to an integer.
  - Cases C++ leaves undefined (division by zero, the root of a negative number) yield 0.
  - NaN and the precision of the vector approximations are not modelled.
- Integer overflow: `int` arithmetic is unbounded. Sizes are bounded by 2^64, as `size_t` is.
- The SSE2 and AVX intrinsic bodies: the vector model is an abstract pack of `pack_size` lanes with slice load and store and lanewise operations. The vector `stream` is not used by the loop engine and is not modelled.
- `_mm_malloc` and `_mm_free`, `ARRR_ALIGN` and the buffer's byte alignment. The offsets are proved to be multiples of `pack_size` from the buffer's start.
- Loops.Execute: requires a store-free source. A `store` nested inside the source would make a second evaluator write memory, and that case is not modelled.
- Container.ArithmeticArray.Assign, Container.ArithmeticArray.CompoundAssign and Loops.Execute: require every operand buffer to hold at least as many elements as are written. The source checks nothing here; a shorter operand is read out of bounds, which is undefined behaviour in C++ and is not modelled.
- Loops.Execute: requires a vector model of at most 8 lanes, as every specialisation has. The scalar model of the tail is `scalar_instruction_set`, the one every `arithmetic_array` passes.
- Loops.Round2: the calls of each phase of a round are grouped into helper methods (two, four or eight at a time) so that each group is proved once. The order of the calls is the source's.
- Evaluation.Evaluator: the evaluators below the `Store` root are a value held in the root's `right` field, not separate objects. They only read memory, so no aliasing between them is lost.
- Container.ArithmeticArray.AssignArray: as written, the fixed-size copy assignment (arrr.hpp:123-126) does not compile when instantiated. It passes `data_` to `store` without the cast to `pointer` that line 129 uses, so the store evaluator's `ptr` field has a C array type and cannot be assigned (arrr.hpp:298, 304). The model gives both variants the runtime-length behaviour of arrr.hpp:190-193.
- Container.ArithmeticArray.Fixed: the default argument `val = T()` is not modelled; the constructors take `val` explicitly, and `T()` for `int` is 0.
- Container.ArithmeticArray.Swap: as written, `swap` does not compile when instantiated. It calls `swap` on a C array, and applies `std::swap` to a template parameter in one class and to a `const` member in the other. The model exchanges buffer and size, as intended, and requires both arrays to have the same type.
- The deleted copy constructor; the accessors `size()`, `data()`, `operator[]`, `begin()` and `end()`, which only return fields.
- example.cc is not part of this model.
