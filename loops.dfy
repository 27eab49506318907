/** `loop<unroll>::execute`: the four loop tiers that sweep `[0, N)` with
    1, 2, 4 or 8 evaluators of the vector model, stepping down through
    smaller blocks and finishing with the scalar model, and `execute`,
    which picks the tier from the expression's statistics. */
module Loops {
  import opened Arith
  import opened InstructionSets
  import opened Expressions
  import opened Cost
  import opened Evaluation

  // ---------------------------------------------------------------------
  // Write schedules

  /** The packs of `width` elements that tile `lo .. hi` from the bottom,
      in increasing order (for `hi - lo` a multiple of `width`). */
  function Packs(lo: nat, hi: nat, width: nat): seq<Write>
    requires width >= 1
    decreases hi
  {
    if hi < lo + width then [] else Packs(lo, hi - width, width) + [Write(hi - width, width)]
  }

  /** `count` consecutive packs of `width` elements from `offset`. */
  function Run(offset: nat, count: nat, width: nat): (ws: seq<Write>)
    ensures |ws| == count && forall k :: 0 <= k < count ==> ws[k] == Write(offset + k * width, width)
  {
    seq(count, k requires 0 <= k < count => Write(offset + k * width, width))
  }

  lemma {:induction false} PacksExtend(lo: nat, hi: nat, count: nat, width: nat)
    requires width >= 1 && lo <= hi
    ensures Packs(lo, hi + count * width, width) == Packs(lo, hi, width) + Run(hi, count, width)
    decreases count
  {
    if count == 0 {
      assert Run(hi, 0, width) == [];
    } else {
      var c := count - 1;
      PacksExtend(lo, hi, c, width);
      var top := hi + count * width;
      assert top == hi + c * width + width;
      assert Packs(lo, top, width) == Packs(lo, hi + c * width, width) + [Write(hi + c * width, width)];
      assert Run(hi, count, width) == Run(hi, c, width) + [Write(hi + c * width, width)];
    }
  }

  /** The writes every tier performs for N elements on a model of `width`
      lanes: packs of `width` up to `N & ~(width - 1)`, then single
      elements up to N. */
  function Schedule(n: nat, width: nat): seq<Write>
    requires 1 <= width <= Word()
  {
    var t := Threshold(n, width);
    Packs(0, t, width) + Packs(t, n, 1)
  }

  function End(w: Write): nat { w.offset + w.width }

  predicate Covers(w: Write, j: int) { w.offset <= j < End(w) }

  /** Some write in ws stores index j. */
  predicate Written(ws: seq<Write>, j: int)
  {
    exists t :: 0 <= t < |ws| && Covers(ws[t], j)
  }

  /** The writes lie end to end, each non-empty, from `lo` up to `hi`. */
  predicate Tiles(ws: seq<Write>, lo: nat, hi: nat)
    decreases |ws|
  {
    if ws == [] then lo == hi
    else ws[0].offset == lo && ws[0].width >= 1 && End(ws[0]) <= hi && Tiles(ws[1..], End(ws[0]), hi)
  }

  lemma {:induction false} TilesConcat(a: seq<Write>, b: seq<Write>, lo: nat, mid: nat, hi: nat)
    requires Tiles(a, lo, mid) && Tiles(b, mid, hi)
    ensures Tiles(a + b, lo, hi)
    decreases |a|
  {
    if a == [] {
      assert a + b == b;
    } else {
      TilesOrdered(b, mid, hi);
      TilesConcat(a[1..], b, End(a[0]), mid, hi);
      assert (a + b)[1..] == a[1..] + b;
    }
  }

  /** Tiling writes are in strictly increasing order, do not overlap and stay
      inside `lo .. hi`. */
  lemma {:induction false} TilesOrdered(ws: seq<Write>, lo: nat, hi: nat)
    requires Tiles(ws, lo, hi)
    ensures lo <= hi
    ensures forall t :: 0 <= t < |ws| ==> lo <= ws[t].offset && ws[t].width >= 1 && End(ws[t]) <= hi
    ensures forall s, t :: 0 <= s < t < |ws| ==> End(ws[s]) <= ws[t].offset
    decreases |ws|
  {
    if ws != [] {
      var rest := ws[1..];
      TilesOrdered(rest, End(ws[0]), hi);
      forall s, t | 0 <= s < t < |ws|
        ensures End(ws[s]) <= ws[t].offset
      {
        assert ws[t] == rest[t - 1];
        if s > 0 {
          assert ws[s] == rest[s - 1];
        }
      }
    }
  }

  /** Tiling writes cover every index of `lo .. hi`. */
  lemma {:induction false} TilesCover(ws: seq<Write>, lo: nat, hi: nat)
    requires Tiles(ws, lo, hi)
    ensures forall j :: lo <= j < hi ==> Written(ws, j)
    decreases |ws|
  {
    if ws != [] {
      var rest := ws[1..];
      TilesCover(rest, End(ws[0]), hi);
      forall j | lo <= j < hi
        ensures Written(ws, j)
      {
        if j < End(ws[0]) {
          assert Covers(ws[0], j);
        } else {
          assert Written(rest, j);
          var t :| 0 <= t < |rest| && Covers(rest[t], j);
          assert ws[t + 1] == rest[t];
        }
      }
    }
  }

  /** Tiling writes store every index of `lo .. hi` exactly once and
      nothing outside it. */
  lemma TilesExactlyOnce(ws: seq<Write>, lo: nat, hi: nat)
    requires Tiles(ws, lo, hi)
    ensures forall j :: lo <= j < hi ==> Written(ws, j)
    ensures forall s, t, j :: 0 <= s < |ws| && 0 <= t < |ws| && Covers(ws[s], j) && Covers(ws[t], j) ==> s == t
    ensures forall t, j :: 0 <= t < |ws| && Covers(ws[t], j) ==> lo <= j < hi
  {
    TilesCover(ws, lo, hi);
    TilesOrdered(ws, lo, hi);
  }

  /** `count` packs from `offset` lie end to end up to `offset + count * width`. */
  lemma {:induction false} RunTiles(offset: nat, count: nat, width: nat)
    requires width >= 1
    ensures Tiles(Run(offset, count, width), offset, offset + count * width)
    decreases count
  {
    if count > 0 {
      var c := count - 1;
      RunTiles(offset, c, width);
      var mid := offset + c * width;
      assert offset + count * width == mid + width;
      assert Tiles([Write(mid, width)], mid, mid + width) by {
        assert [Write(mid, width)][1..] == [];
      }
      TilesConcat(Run(offset, c, width), [Write(mid, width)], offset, mid, mid + width);
      assert Run(offset, count, width) == Run(offset, c, width) + [Write(mid, width)];
    }
  }

  lemma PacksTile(lo: nat, hi: nat, width: nat)
    requires width >= 1 && lo <= hi && (hi - lo) % width == 0
    ensures Tiles(Packs(lo, hi, width), lo, hi)
    ensures forall k :: 0 <= k < |Packs(lo, hi, width)| ==>
      Packs(lo, hi, width)[k].width == width && (Packs(lo, hi, width)[k].offset - lo) % width == 0
    ensures |Packs(lo, hi, width)| == (hi - lo) / width
  {
    var c := (hi - lo) / width;
    assert hi == lo + c * width by {
      ModUnique(hi - lo, width, c, 0);
    }
    var ws := Run(lo, c, width);
    assert Packs(lo, hi, width) == ws by {
      PacksExtend(lo, lo, c, width);
      assert Packs(lo, lo, width) == [];
    }
    RunTiles(lo, c, width);
    forall k | 0 <= k < c
      ensures (ws[k].offset - lo) % width == 0
    {
      assert ws[k].offset - lo == width * k;
      MultipleOfProduct(width, k);
    }
  }

  /** The schedule every tier follows: the vector packs come first, each
      `width` long, aligned to `width` and inside `[0, N)`; the scalar
      remainder is fewer than `width` single elements; N = 0 stores
      nothing; and the writes lie end to end over `[0, N)`. */
  lemma ScheduleShape(n: nat, width: nat)
    requires n < Word() && IsPowerOfTwo(width) && width <= Word()
    ensures var ws, t := Schedule(n, width), Threshold(n, width);
      && t <= n && n - t < width && t % width == 0
      && Tiles(ws, 0, n)
      && |ws| == t / width + (n - t)
      && (forall k :: 0 <= k < t / width ==> ws[k].width == width && ws[k].offset % width == 0 && End(ws[k]) <= n)
      && (forall k :: t / width <= k < |ws| ==> ws[k].width == 1)
      && (n == 0 ==> ws == [])
  {
    var t := Threshold(n, width);
    assert t <= n && n < t + width && t % width == 0 by {
      ThresholdIsLargestMultiple(n, width);
    }
    var vec, rem := Packs(0, t, width), Packs(t, n, 1);
    PacksTile(0, t, width);
    PacksTile(t, n, 1);
    TilesOrdered(vec, 0, t);
    TilesConcat(vec, rem, 0, t, n);
    var ws := Schedule(n, width);
    assert ws == vec + rem;
    assert (n - t) / 1 == n - t;
    forall k | t / width <= k < |ws|
      ensures ws[k].width == 1
    {
      assert ws[k] == rem[k - |vec|];
    }
  }

  /** Every tier stores each index of `[0, N)` exactly once, nothing outside
      it, and in strictly increasing order. */
  lemma ScheduleExactlyOnce(n: nat, width: nat)
    requires n < Word() && IsPowerOfTwo(width) && width <= Word()
    ensures var ws := Schedule(n, width);
      && (forall j :: 0 <= j < n ==> Written(ws, j))
      && (forall s, k, j :: 0 <= s < |ws| && 0 <= k < |ws| && Covers(ws[s], j) && Covers(ws[k], j) ==> s == k)
      && (forall k, j :: 0 <= k < |ws| && Covers(ws[k], j) ==> 0 <= j < n)
      && (forall s, k :: 0 <= s < k < |ws| ==> End(ws[s]) <= ws[k].offset)
  {
    ScheduleShape(n, width);
    TilesExactlyOnce(Schedule(n, width), 0, n);
    TilesOrdered(Schedule(n, width), 0, n);
  }

  // ---------------------------------------------------------------------
  // The state of the destination while a tier runs

  /** What the loop engine needs of its arguments: a store root whose
      source is store-free, N elements in every buffer involved, a model
      whose `pack_size` is a power of two of at most 8 lanes. */
  predicate Runnable(expr: Expr, n: nat, vector: Isa)
  {
    expr.Store? && StoreFree(expr.src)
    && IsPowerOfTwo(vector.packSize) && vector.packSize <= 8 && n < Word()
    && n <= expr.dest.Length && (forall a :: a in Arrays(expr.src) ==> n <= a.Length)
  }

  /** `cur`, the destination's contents, holds the source's value over the
      entry contents m0 below `i` and its entry contents `before` from `i`. */
  predicate Done(src: Expr, m0: Memory, before: seq<int>, cur: seq<int>, i: nat, n: nat)
  {
    |cur| == |before| && i <= n <= |before|
    && (forall j :: 0 <= j < i ==> cur[j] == ValueAt(src, m0, j))
    && (forall j :: i <= j < |before| ==> cur[j] == before[j])
  }

  /** Overwriting `i .. i + width` of `cur` with the source's value there,
      and nothing else, moves the boundary from i to i + width. */
  lemma DoneAdvances(src: Expr, m0: Memory, before: seq<int>, cur: seq<int>, next: seq<int>, i: nat, width: nat, n: nat, p: Pack)
    requires Done(src, m0, before, cur, i, n) && i + width <= n
    requires p == PackOf(src, m0, i, width)
    requires |next| == |cur| && forall k :: 0 <= k < |cur| ==> next[k] == if i <= k < i + width then p[k - i] else cur[k]
    ensures Done(src, m0, before, next, i + width, n)
  {
    forall j | 0 <= j < i + width
      ensures next[j] == ValueAt(src, m0, j)
    {
      if i <= j {
        assert next[j] == p[j - i] == ValueAt(src, m0, i + (j - i));
      }
    }
  }

  /** The operand buffers other than the destination hold their entry
      contents m0, and so did the destination (`before`) if it is one. */
  ghost predicate Untouched(expr: Expr, m0: Memory, before: seq<int>)
    requires expr.Store?
    reads Arrays(expr.src)
  {
    (forall a, j :: a in Arrays(expr.src) && a != expr.dest && 0 <= j < a.Length ==> a[j] == Elem(m0, a, j))
    && (expr.dest in Arrays(expr.src) ==> forall j :: 0 <= j < |before| ==> before[j] == Elem(m0, expr.dest, j))
  }

  /** The tier has written the first `i` of N elements; everything else
      still holds its entry contents. */
  ghost predicate Progress(expr: Expr, m0: Memory, before: seq<int>, i: nat, n: nat)
    requires expr.Store?
    reads expr.dest, Arrays(expr.src)
  {
    |before| == expr.dest.Length && Done(expr.src, m0, before, expr.dest[..], i, n)
    && (forall a :: a in Arrays(expr.src) ==> n <= a.Length)
    && Untouched(expr, m0, before)
  }

  /** The source's operands, read now at `lo .. hi` above `i`, still hold
      their entry contents: a load there sees what a load at entry would. */
  lemma ProgressAgrees(expr: Expr, m0: Memory, before: seq<int>, i: nat, n: nat, lo: nat, hi: nat)
    requires expr.Store? && Progress(expr, m0, before, i, n) && i <= lo <= hi <= n
    ensures Agrees(expr.src, m0, lo, hi)
  {
    forall a, j | a in Arrays(expr.src) && lo <= j < hi
      ensures Elem(m0, a, j) == a[j]
    {
      if a == expr.dest {
        assert a[j] == expr.dest[..][j] == before[j];
      }
    }
  }

  lemma ProgressStart(expr: Expr, n: nat, vector: Isa)
    requires Runnable(expr, n, vector)
    ensures Progress(expr, Snapshot(expr.src), expr.dest[..], 0, n)
  {
  }

  /** All N elements written: the destination holds the source's value over
      m0 below N and is unchanged from N on. */
  ghost predicate Executed(expr: Expr, n: nat, m0: Memory, before: seq<int>)
    requires expr.Store?
    reads expr.dest
  {
    |before| == expr.dest.Length
    && forall j :: 0 <= j < |before| ==> expr.dest[j] == if j < n then ValueAt(expr.src, m0, j) else before[j]
  }

  // ---------------------------------------------------------------------
  // One round: every evaluator loads, then every one evaluates, then every
  // one stores, at consecutive packs. The calls of a phase are grouped by
  // two, four and eight so that each group is proved once; the order of
  // the calls is the source's.

  /** Where an evaluator stands in a round, as far as the proof needs it:
      prepared for `expr` with `width` lanes and waiting for its next
      `load`; loaded at an offset, so that evaluating gives the source's
      value there over the entry contents m0; or holding that value in
      `tmp`. */
  datatype Phase = Off | Waiting | LoadedAt(offset: nat) | HoldingAt(offset: nat)

  ghost function PhaseOf(root: Evaluator, expr: Expr, m0: Memory, width: nat): Phase
    reads root
  {
    if root.Valid(expr) && root.width == width then
      var st := root.stage;
      if st.Ready? then Waiting
      else if st.Loaded? && EvalSlot(root.right, width) == PackOf(expr.src, m0, st.offset, width) then LoadedAt(st.offset)
      else if st.Evaluated? && root.tmp == PackOf(expr.src, m0, st.offset, width) then HoldingAt(st.offset)
      else Off
    else Off
  }

  /** `root.load(expr, offset)` at or above the progress boundary i: the
      operands still hold their entry contents there. */
  method LoadAt(root: Evaluator, expr: Expr, offset: nat, width: nat, ghost i: nat, ghost n: nat, ghost m0: Memory, ghost before: seq<int>)
    requires expr.Store? && PhaseOf(root, expr, m0, width) == Waiting
    requires Progress(expr, m0, before, i, n) && i <= offset && offset + width <= n
    modifies root
    ensures PhaseOf(root, expr, m0, width) == LoadedAt(offset)
  {
    ProgressAgrees(expr, m0, before, i, n, offset, offset + width);
    root.Load(expr, offset, m0);
  }

  /** `root(expr, offset)` after the load at `offset`. */
  method EvaluateAt(root: Evaluator, expr: Expr, offset: nat, width: nat, ghost m0: Memory)
    requires PhaseOf(root, expr, m0, width) == LoadedAt(offset)
    modifies root
    ensures PhaseOf(root, expr, m0, width) == HoldingAt(offset)
  {
    var _ := root.Evaluate(expr, offset);
  }

  /** `root.store(expr, offset)` at the progress boundary, of the source's
      value there: the boundary moves up by one pack. */
  method StoreAt(root: Evaluator, expr: Expr, offset: nat, width: nat, ghost n: nat, ghost m0: Memory, ghost before: seq<int>)
    returns (ghost w: Write)
    requires expr.Store? && PhaseOf(root, expr, m0, width) == HoldingAt(offset)
    requires Progress(expr, m0, before, offset, n) && offset + width <= n
    modifies root, expr.dest
    ensures PhaseOf(root, expr, m0, width) == Waiting
    ensures Progress(expr, m0, before, offset + width, n)
    ensures w == Write(offset, width)
  {
    ArraysAllocated(expr.src);
    ghost var cur := expr.dest[..];
    w := root.Store(expr, offset);
    DoneAdvances(expr.src, m0, before, cur, expr.dest[..], offset, width, n, root.tmp);
  }

  /** Two runs of packs side by side form one run. */
  lemma RunConcat(offset: nat, a: nat, b: nat, width: nat)
    ensures Run(offset, a, width) + Run(offset + a * width, b, width) == Run(offset, a + b, width)
  {
    var r := Run(offset, a, width) + Run(offset + a * width, b, width);
    forall k | a <= k < a + b
      ensures r[k] == Write(offset + k * width, width)
    {
      assert (k - a) * width + a * width == k * width;
    }
  }

  method LoadTwo(r0: Evaluator, r1: Evaluator, expr: Expr, offset: nat, width: nat, ghost i: nat, ghost n: nat, ghost m0: Memory, ghost before: seq<int>)
    requires r0 != r1 && expr.Store? && PhaseOf(r0, expr, m0, width) == Waiting && PhaseOf(r1, expr, m0, width) == Waiting
    requires Progress(expr, m0, before, i, n) && i <= offset && offset + 2 * width <= n
    modifies r0, r1
    ensures PhaseOf(r0, expr, m0, width) == LoadedAt(offset) && PhaseOf(r1, expr, m0, width) == LoadedAt(offset + width)
  {
    ArraysAllocated(expr.src);
    LoadAt(r0, expr, offset, width, i, n, m0, before);
    LoadAt(r1, expr, offset + width, width, i, n, m0, before);
  }

  method EvaluateTwo(r0: Evaluator, r1: Evaluator, expr: Expr, offset: nat, width: nat, ghost m0: Memory)
    requires r0 != r1 && PhaseOf(r0, expr, m0, width) == LoadedAt(offset) && PhaseOf(r1, expr, m0, width) == LoadedAt(offset + width)
    modifies r0, r1
    ensures PhaseOf(r0, expr, m0, width) == HoldingAt(offset) && PhaseOf(r1, expr, m0, width) == HoldingAt(offset + width)
  {
    EvaluateAt(r0, expr, offset, width, m0);
    EvaluateAt(r1, expr, offset + width, width, m0);
  }

  method StoreTwo(r0: Evaluator, r1: Evaluator, expr: Expr, offset: nat, width: nat, ghost n: nat, ghost m0: Memory, ghost before: seq<int>)
    returns (ghost ws: seq<Write>)
    requires r0 != r1 && expr.Store? && PhaseOf(r0, expr, m0, width) == HoldingAt(offset) && PhaseOf(r1, expr, m0, width) == HoldingAt(offset + width)
    requires Progress(expr, m0, before, offset, n) && offset + 2 * width <= n
    modifies r0, r1, expr.dest
    ensures PhaseOf(r0, expr, m0, width) == Waiting && PhaseOf(r1, expr, m0, width) == Waiting
    ensures Progress(expr, m0, before, offset + 2 * width, n)
    ensures ws == Run(offset, 2, width)
  {
    var w0 := StoreAt(r0, expr, offset, width, n, m0, before);
    var w1 := StoreAt(r1, expr, offset + width, width, n, m0, before);
    ws := [w0, w1];
    assert ws == Run(offset, 2, width);
  }

  predicate Apart4(r0: Evaluator, r1: Evaluator, r2: Evaluator, r3: Evaluator)
  {
    r0 != r1 && r0 != r2 && r0 != r3 && r1 != r2 && r1 != r3 && r2 != r3
  }

  method LoadFour(r0: Evaluator, r1: Evaluator, r2: Evaluator, r3: Evaluator, expr: Expr, offset: nat, width: nat, ghost i: nat, ghost n: nat, ghost m0: Memory, ghost before: seq<int>)
    requires Apart4(r0, r1, r2, r3) && expr.Store?
    requires PhaseOf(r0, expr, m0, width) == Waiting && PhaseOf(r1, expr, m0, width) == Waiting && PhaseOf(r2, expr, m0, width) == Waiting && PhaseOf(r3, expr, m0, width) == Waiting
    requires Progress(expr, m0, before, i, n) && i <= offset && offset + 4 * width <= n
    modifies r0, r1, r2, r3
    ensures PhaseOf(r0, expr, m0, width) == LoadedAt(offset) && PhaseOf(r1, expr, m0, width) == LoadedAt(offset + width)
    ensures PhaseOf(r2, expr, m0, width) == LoadedAt(offset + 2 * width) && PhaseOf(r3, expr, m0, width) == LoadedAt(offset + 3 * width)
  {
    ArraysAllocated(expr.src);
    LoadTwo(r0, r1, expr, offset, width, i, n, m0, before);
    LoadTwo(r2, r3, expr, offset + 2 * width, width, i, n, m0, before);
  }

  method EvaluateFour(r0: Evaluator, r1: Evaluator, r2: Evaluator, r3: Evaluator, expr: Expr, offset: nat, width: nat, ghost m0: Memory)
    requires Apart4(r0, r1, r2, r3)
    requires PhaseOf(r0, expr, m0, width) == LoadedAt(offset) && PhaseOf(r1, expr, m0, width) == LoadedAt(offset + width)
    requires PhaseOf(r2, expr, m0, width) == LoadedAt(offset + 2 * width) && PhaseOf(r3, expr, m0, width) == LoadedAt(offset + 3 * width)
    modifies r0, r1, r2, r3
    ensures PhaseOf(r0, expr, m0, width) == HoldingAt(offset) && PhaseOf(r1, expr, m0, width) == HoldingAt(offset + width)
    ensures PhaseOf(r2, expr, m0, width) == HoldingAt(offset + 2 * width) && PhaseOf(r3, expr, m0, width) == HoldingAt(offset + 3 * width)
  {
    EvaluateTwo(r0, r1, expr, offset, width, m0);
    EvaluateTwo(r2, r3, expr, offset + 2 * width, width, m0);
  }

  method StoreFour(r0: Evaluator, r1: Evaluator, r2: Evaluator, r3: Evaluator, expr: Expr, offset: nat, width: nat, ghost n: nat, ghost m0: Memory, ghost before: seq<int>)
    returns (ghost ws: seq<Write>)
    requires Apart4(r0, r1, r2, r3) && expr.Store?
    requires PhaseOf(r0, expr, m0, width) == HoldingAt(offset) && PhaseOf(r1, expr, m0, width) == HoldingAt(offset + width)
    requires PhaseOf(r2, expr, m0, width) == HoldingAt(offset + 2 * width) && PhaseOf(r3, expr, m0, width) == HoldingAt(offset + 3 * width)
    requires Progress(expr, m0, before, offset, n) && offset + 4 * width <= n
    modifies r0, r1, r2, r3, expr.dest
    ensures PhaseOf(r0, expr, m0, width) == Waiting && PhaseOf(r1, expr, m0, width) == Waiting && PhaseOf(r2, expr, m0, width) == Waiting && PhaseOf(r3, expr, m0, width) == Waiting
    ensures Progress(expr, m0, before, offset + 4 * width, n)
    ensures ws == Run(offset, 4, width)
  {
    var ws0 := StoreTwo(r0, r1, expr, offset, width, n, m0, before);
    var ws1 := StoreTwo(r2, r3, expr, offset + 2 * width, width, n, m0, before);
    ws := ws0 + ws1;
    RunConcat(offset, 2, 2, width);
  }

  /** Eight evaluators, pairwise distinct. */
  predicate Apart8(r0: Evaluator, r1: Evaluator, r2: Evaluator, r3: Evaluator, r4: Evaluator, r5: Evaluator, r6: Evaluator, r7: Evaluator)
  {
    Apart4(r0, r1, r2, r3) && Apart4(r4, r5, r6, r7)
    && r0 != r4 && r0 != r5 && r0 != r6 && r0 != r7 && r1 != r4 && r1 != r5 && r1 != r6 && r1 != r7
    && r2 != r4 && r2 != r5 && r2 != r6 && r2 != r7 && r3 != r4 && r3 != r5 && r3 != r6 && r3 != r7
  }

  // The eight-evaluator contracts compare Progress with `true` so that the
  // verifier carries it as one fact instead of conjunct by conjunct; this
  // only keeps the proofs of these wide contracts small and means `Progress(...)`.
  method LoadEight(r0: Evaluator, r1: Evaluator, r2: Evaluator, r3: Evaluator, r4: Evaluator, r5: Evaluator, r6: Evaluator, r7: Evaluator,
                   expr: Expr, offset: nat, width: nat, ghost i: nat, ghost n: nat, ghost m0: Memory, ghost before: seq<int>)
    requires Apart8(r0, r1, r2, r3, r4, r5, r6, r7) && expr.Store?
    requires PhaseOf(r0, expr, m0, width) == Waiting && PhaseOf(r1, expr, m0, width) == Waiting && PhaseOf(r2, expr, m0, width) == Waiting && PhaseOf(r3, expr, m0, width) == Waiting
    requires PhaseOf(r4, expr, m0, width) == Waiting && PhaseOf(r5, expr, m0, width) == Waiting && PhaseOf(r6, expr, m0, width) == Waiting && PhaseOf(r7, expr, m0, width) == Waiting
    requires (Progress(expr, m0, before, i, n) == true) && i <= offset && offset + 8 * width <= n
    modifies r0, r1, r2, r3, r4, r5, r6, r7
    ensures PhaseOf(r0, expr, m0, width) == LoadedAt(offset) && PhaseOf(r1, expr, m0, width) == LoadedAt(offset + width)
    ensures PhaseOf(r2, expr, m0, width) == LoadedAt(offset + 2 * width) && PhaseOf(r3, expr, m0, width) == LoadedAt(offset + 3 * width)
    ensures PhaseOf(r4, expr, m0, width) == LoadedAt(offset + 4 * width) && PhaseOf(r5, expr, m0, width) == LoadedAt(offset + 5 * width)
    ensures PhaseOf(r6, expr, m0, width) == LoadedAt(offset + 6 * width) && PhaseOf(r7, expr, m0, width) == LoadedAt(offset + 7 * width)
  {
    ArraysAllocated(expr.src);
    LoadFour(r0, r1, r2, r3, expr, offset, width, i, n, m0, before);
    LoadFour(r4, r5, r6, r7, expr, offset + 4 * width, width, i, n, m0, before);
  }

  method EvaluateEight(r0: Evaluator, r1: Evaluator, r2: Evaluator, r3: Evaluator, r4: Evaluator, r5: Evaluator, r6: Evaluator, r7: Evaluator,
                       expr: Expr, offset: nat, width: nat, ghost m0: Memory)
    requires Apart8(r0, r1, r2, r3, r4, r5, r6, r7)
    requires PhaseOf(r0, expr, m0, width) == LoadedAt(offset) && PhaseOf(r1, expr, m0, width) == LoadedAt(offset + width)
    requires PhaseOf(r2, expr, m0, width) == LoadedAt(offset + 2 * width) && PhaseOf(r3, expr, m0, width) == LoadedAt(offset + 3 * width)
    requires PhaseOf(r4, expr, m0, width) == LoadedAt(offset + 4 * width) && PhaseOf(r5, expr, m0, width) == LoadedAt(offset + 5 * width)
    requires PhaseOf(r6, expr, m0, width) == LoadedAt(offset + 6 * width) && PhaseOf(r7, expr, m0, width) == LoadedAt(offset + 7 * width)
    modifies r0, r1, r2, r3, r4, r5, r6, r7
    ensures PhaseOf(r0, expr, m0, width) == HoldingAt(offset) && PhaseOf(r1, expr, m0, width) == HoldingAt(offset + width)
    ensures PhaseOf(r2, expr, m0, width) == HoldingAt(offset + 2 * width) && PhaseOf(r3, expr, m0, width) == HoldingAt(offset + 3 * width)
    ensures PhaseOf(r4, expr, m0, width) == HoldingAt(offset + 4 * width) && PhaseOf(r5, expr, m0, width) == HoldingAt(offset + 5 * width)
    ensures PhaseOf(r6, expr, m0, width) == HoldingAt(offset + 6 * width) && PhaseOf(r7, expr, m0, width) == HoldingAt(offset + 7 * width)
  {
    EvaluateFour(r0, r1, r2, r3, expr, offset, width, m0);
    EvaluateFour(r4, r5, r6, r7, expr, offset + 4 * width, width, m0);
  }

  method StoreEight(r0: Evaluator, r1: Evaluator, r2: Evaluator, r3: Evaluator, r4: Evaluator, r5: Evaluator, r6: Evaluator, r7: Evaluator,
                    expr: Expr, offset: nat, width: nat, ghost n: nat, ghost m0: Memory, ghost before: seq<int>)
    returns (ghost ws: seq<Write>)
    requires Apart8(r0, r1, r2, r3, r4, r5, r6, r7) && expr.Store?
    requires PhaseOf(r0, expr, m0, width) == HoldingAt(offset) && PhaseOf(r1, expr, m0, width) == HoldingAt(offset + width)
    requires PhaseOf(r2, expr, m0, width) == HoldingAt(offset + 2 * width) && PhaseOf(r3, expr, m0, width) == HoldingAt(offset + 3 * width)
    requires PhaseOf(r4, expr, m0, width) == HoldingAt(offset + 4 * width) && PhaseOf(r5, expr, m0, width) == HoldingAt(offset + 5 * width)
    requires PhaseOf(r6, expr, m0, width) == HoldingAt(offset + 6 * width) && PhaseOf(r7, expr, m0, width) == HoldingAt(offset + 7 * width)
    requires (Progress(expr, m0, before, offset, n) == true) && offset + 8 * width <= n
    modifies r0, r1, r2, r3, r4, r5, r6, r7, expr.dest
    ensures PhaseOf(r0, expr, m0, width) == Waiting && PhaseOf(r1, expr, m0, width) == Waiting && PhaseOf(r2, expr, m0, width) == Waiting && PhaseOf(r3, expr, m0, width) == Waiting
    ensures PhaseOf(r4, expr, m0, width) == Waiting && PhaseOf(r5, expr, m0, width) == Waiting && PhaseOf(r6, expr, m0, width) == Waiting && PhaseOf(r7, expr, m0, width) == Waiting
    ensures (Progress(expr, m0, before, offset + 8 * width, n) == true)
    ensures ws == Run(offset, 8, width)
  {
    var ws0 := StoreFour(r0, r1, r2, r3, expr, offset, width, n, m0, before);
    var ws1 := StoreFour(r4, r5, r6, r7, expr, offset + 4 * width, width, n, m0, before);
    ws := ws0 + ws1;
    RunConcat(offset, 4, 4, width);
  }

  /** The second half of an eight-evaluator round: all eight evaluate,
      then all eight store. */
  method FinishEight(r0: Evaluator, r1: Evaluator, r2: Evaluator, r3: Evaluator, r4: Evaluator, r5: Evaluator, r6: Evaluator, r7: Evaluator,
                     expr: Expr, offset: nat, width: nat, ghost n: nat, ghost m0: Memory, ghost before: seq<int>)
    returns (ghost ws: seq<Write>)
    requires Apart8(r0, r1, r2, r3, r4, r5, r6, r7) && expr.Store?
    requires PhaseOf(r0, expr, m0, width) == LoadedAt(offset) && PhaseOf(r1, expr, m0, width) == LoadedAt(offset + width)
    requires PhaseOf(r2, expr, m0, width) == LoadedAt(offset + 2 * width) && PhaseOf(r3, expr, m0, width) == LoadedAt(offset + 3 * width)
    requires PhaseOf(r4, expr, m0, width) == LoadedAt(offset + 4 * width) && PhaseOf(r5, expr, m0, width) == LoadedAt(offset + 5 * width)
    requires PhaseOf(r6, expr, m0, width) == LoadedAt(offset + 6 * width) && PhaseOf(r7, expr, m0, width) == LoadedAt(offset + 7 * width)
    requires (Progress(expr, m0, before, offset, n) == true) && offset + 8 * width <= n
    modifies r0, r1, r2, r3, r4, r5, r6, r7, expr.dest
    ensures PhaseOf(r0, expr, m0, width) == Waiting && PhaseOf(r1, expr, m0, width) == Waiting && PhaseOf(r2, expr, m0, width) == Waiting && PhaseOf(r3, expr, m0, width) == Waiting
    ensures PhaseOf(r4, expr, m0, width) == Waiting && PhaseOf(r5, expr, m0, width) == Waiting && PhaseOf(r6, expr, m0, width) == Waiting && PhaseOf(r7, expr, m0, width) == Waiting
    ensures (Progress(expr, m0, before, offset + 8 * width, n) == true)
    ensures ws == Run(offset, 8, width)
  {
    ArraysAllocated(expr.src);
    EvaluateEight(r0, r1, r2, r3, r4, r5, r6, r7, expr, offset, width, m0);
    ws := StoreEight(r0, r1, r2, r3, r4, r5, r6, r7, expr, offset, width, n, m0, before);
  }

  /** The body of the single-evaluator loops: `root.load`, `root(...)`,
      `root.store` at offset i. */
  method Round1(root: Evaluator, expr: Expr, i: nat, width: nat, ghost n: nat, ghost m0: Memory, ghost before: seq<int>)
    returns (ghost ws: seq<Write>)
    requires expr.Store? && PhaseOf(root, expr, m0, width) == Waiting
    requires Progress(expr, m0, before, i, n) && i + width <= n
    modifies root, expr.dest
    ensures PhaseOf(root, expr, m0, width) == Waiting
    ensures Progress(expr, m0, before, i + width, n)
    ensures ws == Run(i, 1, width)
  {
    ArraysAllocated(expr.src);
    LoadAt(root, expr, i, width, i, n, m0, before);
    EvaluateAt(root, expr, i, width, m0);
    var w0 := StoreAt(root, expr, i, width, n, m0, before);
    ws := [w0];
  }

  /** `root0` and `root1` at `i` and `i + P`: both load, both evaluate,
      both store. */
  method Round2(root0: Evaluator, root1: Evaluator, expr: Expr, i: nat, width: nat, ghost n: nat, ghost m0: Memory, ghost before: seq<int>)
    returns (ghost ws: seq<Write>)
    requires root0 != root1 && expr.Store? && PhaseOf(root0, expr, m0, width) == Waiting && PhaseOf(root1, expr, m0, width) == Waiting
    requires Progress(expr, m0, before, i, n) && i + 2 * width <= n
    modifies root0, root1, expr.dest
    ensures PhaseOf(root0, expr, m0, width) == Waiting && PhaseOf(root1, expr, m0, width) == Waiting
    ensures Progress(expr, m0, before, i + 2 * width, n)
    ensures ws == Run(i, 2, width)
  {
    ArraysAllocated(expr.src);
    LoadTwo(root0, root1, expr, i, width, i, n, m0, before);
    EvaluateTwo(root0, root1, expr, i, width, m0);
    ws := StoreTwo(root0, root1, expr, i, width, n, m0, before);
  }

  /** `root0 .. root3` at `i + k * P`, k = 0 .. 3. */
  method Round4(root0: Evaluator, root1: Evaluator, root2: Evaluator, root3: Evaluator, expr: Expr, i: nat, width: nat, ghost n: nat, ghost m0: Memory, ghost before: seq<int>)
    returns (ghost ws: seq<Write>)
    requires Apart4(root0, root1, root2, root3) && expr.Store?
    requires PhaseOf(root0, expr, m0, width) == Waiting && PhaseOf(root1, expr, m0, width) == Waiting && PhaseOf(root2, expr, m0, width) == Waiting && PhaseOf(root3, expr, m0, width) == Waiting
    requires Progress(expr, m0, before, i, n) && i + 4 * width <= n
    modifies root0, root1, root2, root3, expr.dest
    ensures PhaseOf(root0, expr, m0, width) == Waiting && PhaseOf(root1, expr, m0, width) == Waiting && PhaseOf(root2, expr, m0, width) == Waiting && PhaseOf(root3, expr, m0, width) == Waiting
    ensures Progress(expr, m0, before, i + 4 * width, n)
    ensures ws == Run(i, 4, width)
  {
    ArraysAllocated(expr.src);
    LoadFour(root0, root1, root2, root3, expr, i, width, i, n, m0, before);
    EvaluateFour(root0, root1, root2, root3, expr, i, width, m0);
    ws := StoreFour(root0, root1, root2, root3, expr, i, width, n, m0, before);
  }

  /** `root0 .. root7` at `i + k * P`, k = 0 .. 7. */
  method Round8(root0: Evaluator, root1: Evaluator, root2: Evaluator, root3: Evaluator, root4: Evaluator, root5: Evaluator, root6: Evaluator, root7: Evaluator,
                expr: Expr, i: nat, width: nat, ghost n: nat, ghost m0: Memory, ghost before: seq<int>)
    returns (ghost ws: seq<Write>)
    requires Apart8(root0, root1, root2, root3, root4, root5, root6, root7) && expr.Store?
    requires PhaseOf(root0, expr, m0, width) == Waiting && PhaseOf(root1, expr, m0, width) == Waiting && PhaseOf(root2, expr, m0, width) == Waiting && PhaseOf(root3, expr, m0, width) == Waiting
    requires PhaseOf(root4, expr, m0, width) == Waiting && PhaseOf(root5, expr, m0, width) == Waiting && PhaseOf(root6, expr, m0, width) == Waiting && PhaseOf(root7, expr, m0, width) == Waiting
    requires (Progress(expr, m0, before, i, n) == true) && i + 8 * width <= n
    modifies root0, root1, root2, root3, root4, root5, root6, root7, expr.dest
    ensures PhaseOf(root0, expr, m0, width) == Waiting && PhaseOf(root1, expr, m0, width) == Waiting && PhaseOf(root2, expr, m0, width) == Waiting && PhaseOf(root3, expr, m0, width) == Waiting
    ensures PhaseOf(root4, expr, m0, width) == Waiting && PhaseOf(root5, expr, m0, width) == Waiting && PhaseOf(root6, expr, m0, width) == Waiting && PhaseOf(root7, expr, m0, width) == Waiting
    ensures (Progress(expr, m0, before, i + 8 * width, n) == true)
    ensures ws == Run(i, 8, width)
  {
    ArraysAllocated(expr.src);
    LoadEight(root0, root1, root2, root3, root4, root5, root6, root7, expr, i, width, i, n, m0, before);
    ws := FinishEight(root0, root1, root2, root3, root4, root5, root6, root7, expr, i, width, n, m0, before);
  }

  // ---------------------------------------------------------------------
  // The loops of the tiers. Each `for` loop of the source is one method
  // here: it continues the sweep from `i0`, where the previous loop
  // stopped, up to its bound, and `done` is what was written before it.

  /** A block of k packs of `width` lanes, k and `width` powers of two of
      at most 16 and 8, is a power of two of at most 128 elements. */
  lemma BlockSize(width: nat, k: nat)
    requires IsPowerOfTwo(width) && width <= 8 && IsPowerOfTwo(k) && k <= 16
    ensures 1 <= k * width <= 128 && IsPowerOfTwo(k * width)
  {
    MulMonotone(k, width, 8);
    MulMonotone(8, k, 16);
    MulMonotone(k, 1, width);
    ProductIsPowerOfTwo(k, width);
  }

  lemma MulAssociates(x: nat, y: nat, z: nat)
    ensures (x * y) * z == x * (y * z)
  {
  }

  /** The loop bounds `N & ~(k * P - 1)` for blocks of a and b packs of
      `width` lanes (a dividing b): each is a multiple of a packs, and the
      bound for the larger block is not above the one for the smaller. */
  lemma Nest(n: nat, width: nat, a: nat, b: nat, q: nat)
    requires n < Word() && IsPowerOfTwo(width) && width <= 8
    requires IsPowerOfTwo(a) && IsPowerOfTwo(b) && a <= b <= 16 && b == q * a
    ensures 1 <= a * width <= b * width <= Word()
    ensures Threshold(n, b * width) <= Threshold(n, a * width) <= n
    ensures Threshold(n, a * width) % (a * width) == 0 && Threshold(n, b * width) % (a * width) == 0
    ensures Threshold(n, b * width) % (b * width) == 0
  {
    var small, big := a * width, b * width;
    MulAssociates(q, a, width);
    BlockSize(width, a);
    BlockSize(width, b);
    MulMonotone(width, a, b);
    assert q > 0;
    ThresholdIsLargestMultiple(n, small);
    ThresholdIsLargestMultiple(n, big);
    var t := Threshold(n, big);
    MultipleOfFactor(t, q, small);
  }

  /** A block that starts below the bound, both multiples of the block,
      ends at or below the bound, at the next multiple. */
  lemma BlockFits(i: nat, size: nat, block: nat)
    requires block > 0 && i % block == 0 && size % block == 0 && i < size
    ensures i + block <= size && (i + block) % block == 0
  {
    MultipleStep(i, size, block);
    MultipleAdd(i, block);
  }

  /** The body of the two-evaluator tier's block loop: rounds of `root0`,
      `root1` at i, i + 2P, i + 4P and i + 6P. */
  method EightPacksByTwoBody(root0: Evaluator, root1: Evaluator, expr: Expr, i: nat, width: nat, ghost n: nat, ghost m0: Memory, ghost before: seq<int>)
    returns (ghost ws: seq<Write>)
    requires root0 != root1 && expr.Store? && PhaseOf(root0, expr, m0, width) == Waiting && PhaseOf(root1, expr, m0, width) == Waiting
    requires Progress(expr, m0, before, i, n) && i + 8 * width <= n
    modifies root0, root1, expr.dest
    ensures PhaseOf(root0, expr, m0, width) == Waiting && PhaseOf(root1, expr, m0, width) == Waiting
    ensures Progress(expr, m0, before, i + 8 * width, n)
    ensures ws == Run(i, 8, width)
  {
    var w0 := Round2(root0, root1, expr, i, width, n, m0, before);
    var w1 := Round2(root0, root1, expr, i + 2 * width, width, n, m0, before);
    var w2 := Round2(root0, root1, expr, i + 4 * width, width, n, m0, before);
    var w3 := Round2(root0, root1, expr, i + 6 * width, width, n, m0, before);
    RunConcat(i, 2, 2, width);
    RunConcat(i, 4, 2, width);
    RunConcat(i, 6, 2, width);
    ws := w0 + w1 + w2 + w3;
  }

  /** The body of the four-evaluator tier's block loop: rounds of
      `root0 .. root3` at i, i + 4P, i + 8P and i + 12P. */
  method SixteenPacksByFourBody(root0: Evaluator, root1: Evaluator, root2: Evaluator, root3: Evaluator, expr: Expr, i: nat, width: nat, ghost n: nat, ghost m0: Memory, ghost before: seq<int>)
    returns (ghost ws: seq<Write>)
    requires Apart4(root0, root1, root2, root3) && expr.Store?
    requires PhaseOf(root0, expr, m0, width) == Waiting && PhaseOf(root1, expr, m0, width) == Waiting && PhaseOf(root2, expr, m0, width) == Waiting && PhaseOf(root3, expr, m0, width) == Waiting
    requires Progress(expr, m0, before, i, n) && i + 16 * width <= n
    modifies root0, root1, root2, root3, expr.dest
    ensures PhaseOf(root0, expr, m0, width) == Waiting && PhaseOf(root1, expr, m0, width) == Waiting && PhaseOf(root2, expr, m0, width) == Waiting && PhaseOf(root3, expr, m0, width) == Waiting
    ensures Progress(expr, m0, before, i + 16 * width, n)
    ensures ws == Run(i, 16, width)
  {
    var w0 := Round4(root0, root1, root2, root3, expr, i, width, n, m0, before);
    var w1 := Round4(root0, root1, root2, root3, expr, i + 4 * width, width, n, m0, before);
    var w2 := Round4(root0, root1, root2, root3, expr, i + 8 * width, width, n, m0, before);
    var w3 := Round4(root0, root1, root2, root3, expr, i + 12 * width, width, n, m0, before);
    RunConcat(i, 4, 4, width);
    RunConcat(i, 8, 4, width);
    RunConcat(i, 12, 4, width);
    ws := w0 + w1 + w2 + w3;
  }

  /** `for(; i < size8; i += 8 * P)` of the two-evaluator tier: four rounds
      of `root0`, `root1` per block of eight packs. */
  method EightPacksByTwo(root0: Evaluator, root1: Evaluator, expr: Expr, width: nat, i0: nat, size: nat,
                         ghost n: nat, ghost m0: Memory, ghost before: seq<int>, ghost done: seq<Write>)
    returns (i: nat, ghost ws: seq<Write>)
    requires root0 != root1 && expr.Store? && width >= 1
    requires PhaseOf(root0, expr, m0, width) == Waiting && PhaseOf(root1, expr, m0, width) == Waiting
    requires Progress(expr, m0, before, i0, n) && i0 <= size <= n && i0 % (8 * width) == 0 && size % (8 * width) == 0
    requires done == Packs(0, i0, width)
    modifies root0, root1, expr.dest
    ensures i == size && PhaseOf(root0, expr, m0, width) == Waiting && PhaseOf(root1, expr, m0, width) == Waiting
    ensures Progress(expr, m0, before, size, n) && ws == Packs(0, size, width)
  {
    i, ws := i0, done;
    while i < size
      invariant i0 <= i <= size && i % (8 * width) == 0
      invariant PhaseOf(root0, expr, m0, width) == Waiting && PhaseOf(root1, expr, m0, width) == Waiting
      invariant Progress(expr, m0, before, i, n) && ws == Packs(0, i, width)
      decreases size - i
    {
      BlockFits(i, size, 8 * width);
      var w := EightPacksByTwoBody(root0, root1, expr, i, width, n, m0, before);
      PacksExtend(0, i, 8, width);
      ws := ws + w;
      i := i + 8 * width;
    }
  }

  /** `for(; i < size2; i += 2 * P)`: one round of `root0`, `root1`. */
  method TwoPacks(root0: Evaluator, root1: Evaluator, expr: Expr, width: nat, i0: nat, size: nat,
                  ghost n: nat, ghost m0: Memory, ghost before: seq<int>, ghost done: seq<Write>)
    returns (i: nat, ghost ws: seq<Write>)
    requires root0 != root1 && expr.Store? && width >= 1
    requires PhaseOf(root0, expr, m0, width) == Waiting && PhaseOf(root1, expr, m0, width) == Waiting
    requires Progress(expr, m0, before, i0, n) && i0 <= size <= n && i0 % (2 * width) == 0 && size % (2 * width) == 0
    requires done == Packs(0, i0, width)
    modifies root0, root1, expr.dest
    ensures i == size && PhaseOf(root0, expr, m0, width) == Waiting && PhaseOf(root1, expr, m0, width) == Waiting
    ensures Progress(expr, m0, before, size, n) && ws == Packs(0, size, width)
  {
    i, ws := i0, done;
    while i < size
      invariant i0 <= i <= size && i % (2 * width) == 0
      invariant PhaseOf(root0, expr, m0, width) == Waiting && PhaseOf(root1, expr, m0, width) == Waiting
      invariant Progress(expr, m0, before, i, n) && ws == Packs(0, i, width)
      decreases size - i
    {
      BlockFits(i, size, 2 * width);
      var w := Round2(root0, root1, expr, i, width, n, m0, before);
      PacksExtend(0, i, 2, width);
      ws := ws + w;
      i := i + 2 * width;
    }
  }

  /** `for(; i < size16; i += 16 * P)` of the four-evaluator tier: four
      rounds of `root0 .. root3` per block of sixteen packs. */
  method SixteenPacksByFour(root0: Evaluator, root1: Evaluator, root2: Evaluator, root3: Evaluator, expr: Expr, width: nat, i0: nat, size: nat,
                            ghost n: nat, ghost m0: Memory, ghost before: seq<int>, ghost done: seq<Write>)
    returns (i: nat, ghost ws: seq<Write>)
    requires Apart4(root0, root1, root2, root3) && expr.Store? && width >= 1
    requires PhaseOf(root0, expr, m0, width) == Waiting && PhaseOf(root1, expr, m0, width) == Waiting && PhaseOf(root2, expr, m0, width) == Waiting && PhaseOf(root3, expr, m0, width) == Waiting
    requires Progress(expr, m0, before, i0, n) && i0 <= size <= n && i0 % (16 * width) == 0 && size % (16 * width) == 0
    requires done == Packs(0, i0, width)
    modifies root0, root1, root2, root3, expr.dest
    ensures i == size
    ensures PhaseOf(root0, expr, m0, width) == Waiting && PhaseOf(root1, expr, m0, width) == Waiting && PhaseOf(root2, expr, m0, width) == Waiting && PhaseOf(root3, expr, m0, width) == Waiting
    ensures Progress(expr, m0, before, size, n) && ws == Packs(0, size, width)
  {
    i, ws := i0, done;
    while i < size
      invariant i0 <= i <= size && i % (16 * width) == 0
      invariant PhaseOf(root0, expr, m0, width) == Waiting && PhaseOf(root1, expr, m0, width) == Waiting && PhaseOf(root2, expr, m0, width) == Waiting && PhaseOf(root3, expr, m0, width) == Waiting
      invariant Progress(expr, m0, before, i, n) && ws == Packs(0, i, width)
      decreases size - i
    {
      BlockFits(i, size, 16 * width);
      var w := SixteenPacksByFourBody(root0, root1, root2, root3, expr, i, width, n, m0, before);
      PacksExtend(0, i, 16, width);
      ws := ws + w;
      i := i + 16 * width;
    }
  }

  /** `for(; i < size4; i += 4 * P)`: one round of `root0 .. root3`. */
  method FourPacks(root0: Evaluator, root1: Evaluator, root2: Evaluator, root3: Evaluator, expr: Expr, width: nat, i0: nat, size: nat,
                   ghost n: nat, ghost m0: Memory, ghost before: seq<int>, ghost done: seq<Write>)
    returns (i: nat, ghost ws: seq<Write>)
    requires Apart4(root0, root1, root2, root3) && expr.Store? && width >= 1
    requires PhaseOf(root0, expr, m0, width) == Waiting && PhaseOf(root1, expr, m0, width) == Waiting && PhaseOf(root2, expr, m0, width) == Waiting && PhaseOf(root3, expr, m0, width) == Waiting
    requires Progress(expr, m0, before, i0, n) && i0 <= size <= n && i0 % (4 * width) == 0 && size % (4 * width) == 0
    requires done == Packs(0, i0, width)
    modifies root0, root1, root2, root3, expr.dest
    ensures i == size
    ensures PhaseOf(root0, expr, m0, width) == Waiting && PhaseOf(root1, expr, m0, width) == Waiting && PhaseOf(root2, expr, m0, width) == Waiting && PhaseOf(root3, expr, m0, width) == Waiting
    ensures Progress(expr, m0, before, size, n) && ws == Packs(0, size, width)
  {
    i, ws := i0, done;
    while i < size
      invariant i0 <= i <= size && i % (4 * width) == 0
      invariant PhaseOf(root0, expr, m0, width) == Waiting && PhaseOf(root1, expr, m0, width) == Waiting && PhaseOf(root2, expr, m0, width) == Waiting && PhaseOf(root3, expr, m0, width) == Waiting
      invariant Progress(expr, m0, before, i, n) && ws == Packs(0, i, width)
      decreases size - i
    {
      BlockFits(i, size, 4 * width);
      var w := Round4(root0, root1, root2, root3, expr, i, width, n, m0, before);
      PacksExtend(0, i, 4, width);
      ws := ws + w;
      i := i + 4 * width;
    }
  }

  /** The body of the eight-evaluator tier's block loop: rounds of
      `root0 .. root7` at i and i + 8P. */
  method SixteenPacksByEightBody(root0: Evaluator, root1: Evaluator, root2: Evaluator, root3: Evaluator, root4: Evaluator, root5: Evaluator, root6: Evaluator, root7: Evaluator,
                                 expr: Expr, i: nat, width: nat, ghost n: nat, ghost m0: Memory, ghost before: seq<int>)
    returns (ghost ws: seq<Write>)
    requires Apart8(root0, root1, root2, root3, root4, root5, root6, root7) && expr.Store?
    requires PhaseOf(root0, expr, m0, width) == Waiting && PhaseOf(root1, expr, m0, width) == Waiting && PhaseOf(root2, expr, m0, width) == Waiting && PhaseOf(root3, expr, m0, width) == Waiting
    requires PhaseOf(root4, expr, m0, width) == Waiting && PhaseOf(root5, expr, m0, width) == Waiting && PhaseOf(root6, expr, m0, width) == Waiting && PhaseOf(root7, expr, m0, width) == Waiting
    requires (Progress(expr, m0, before, i, n) == true) && i + 16 * width <= n
    modifies root0, root1, root2, root3, root4, root5, root6, root7, expr.dest
    ensures PhaseOf(root0, expr, m0, width) == Waiting && PhaseOf(root1, expr, m0, width) == Waiting && PhaseOf(root2, expr, m0, width) == Waiting && PhaseOf(root3, expr, m0, width) == Waiting
    ensures PhaseOf(root4, expr, m0, width) == Waiting && PhaseOf(root5, expr, m0, width) == Waiting && PhaseOf(root6, expr, m0, width) == Waiting && PhaseOf(root7, expr, m0, width) == Waiting
    ensures (Progress(expr, m0, before, i + 16 * width, n) == true)
    ensures ws == Run(i, 16, width)
  {
    var w0 := Round8(root0, root1, root2, root3, root4, root5, root6, root7, expr, i, width, n, m0, before);
    var w1 := Round8(root0, root1, root2, root3, root4, root5, root6, root7, expr, i + 8 * width, width, n, m0, before);
    RunConcat(i, 8, 8, width);
    ws := w0 + w1;
  }

  /** `for(; i < size16; i += 16 * P)` of the eight-evaluator tier: two
      rounds of `root0 .. root7` per block of sixteen packs. */
  method SixteenPacksByEight(root0: Evaluator, root1: Evaluator, root2: Evaluator, root3: Evaluator, root4: Evaluator, root5: Evaluator, root6: Evaluator, root7: Evaluator,
                             expr: Expr, width: nat, i0: nat, size: nat,
                             ghost n: nat, ghost m0: Memory, ghost before: seq<int>, ghost done: seq<Write>)
    returns (i: nat, ghost ws: seq<Write>)
    requires Apart8(root0, root1, root2, root3, root4, root5, root6, root7) && expr.Store? && width >= 1
    requires PhaseOf(root0, expr, m0, width) == Waiting && PhaseOf(root1, expr, m0, width) == Waiting && PhaseOf(root2, expr, m0, width) == Waiting && PhaseOf(root3, expr, m0, width) == Waiting
    requires PhaseOf(root4, expr, m0, width) == Waiting && PhaseOf(root5, expr, m0, width) == Waiting && PhaseOf(root6, expr, m0, width) == Waiting && PhaseOf(root7, expr, m0, width) == Waiting
    requires Progress(expr, m0, before, i0, n) && i0 <= size <= n && i0 % (16 * width) == 0 && size % (16 * width) == 0
    requires done == Packs(0, i0, width)
    modifies root0, root1, root2, root3, root4, root5, root6, root7, expr.dest
    ensures i == size
    ensures PhaseOf(root0, expr, m0, width) == Waiting && PhaseOf(root1, expr, m0, width) == Waiting && PhaseOf(root2, expr, m0, width) == Waiting && PhaseOf(root3, expr, m0, width) == Waiting
    ensures PhaseOf(root4, expr, m0, width) == Waiting && PhaseOf(root5, expr, m0, width) == Waiting && PhaseOf(root6, expr, m0, width) == Waiting && PhaseOf(root7, expr, m0, width) == Waiting
    ensures Progress(expr, m0, before, size, n) && ws == Packs(0, size, width)
  {
    i, ws := i0, done;
    while i < size
      invariant i0 <= i <= size && i % (16 * width) == 0
      invariant PhaseOf(root0, expr, m0, width) == Waiting && PhaseOf(root1, expr, m0, width) == Waiting && PhaseOf(root2, expr, m0, width) == Waiting && PhaseOf(root3, expr, m0, width) == Waiting
      invariant PhaseOf(root4, expr, m0, width) == Waiting && PhaseOf(root5, expr, m0, width) == Waiting && PhaseOf(root6, expr, m0, width) == Waiting && PhaseOf(root7, expr, m0, width) == Waiting
      invariant Progress(expr, m0, before, i, n) && ws == Packs(0, i, width)
      decreases size - i
    {
      BlockFits(i, size, 16 * width);
      var w := SixteenPacksByEightBody(root0, root1, root2, root3, root4, root5, root6, root7, expr, i, width, n, m0, before);
      PacksExtend(0, i, 16, width);
      ws := ws + w;
      i := i + 16 * width;
    }
  }

  /** `for(; i < size1; i += P)`, in every tier: one round of `root0`. */
  method OnePack(root0: Evaluator, expr: Expr, width: nat, i0: nat, size: nat,
                 ghost n: nat, ghost m0: Memory, ghost before: seq<int>, ghost done: seq<Write>)
    returns (i: nat, ghost ws: seq<Write>)
    requires expr.Store? && width >= 1 && PhaseOf(root0, expr, m0, width) == Waiting
    requires Progress(expr, m0, before, i0, n) && i0 <= size <= n && i0 % width == 0 && size % width == 0
    requires done == Packs(0, i0, width)
    modifies root0, expr.dest
    ensures i == size && PhaseOf(root0, expr, m0, width) == Waiting
    ensures Progress(expr, m0, before, size, n) && ws == Packs(0, size, width)
  {
    i, ws := i0, done;
    while i < size
      invariant i0 <= i <= size && i % width == 0
      invariant PhaseOf(root0, expr, m0, width) == Waiting
      invariant Progress(expr, m0, before, i, n) && ws == Packs(0, i, width)
      decreases size - i
    {
      BlockFits(i, size, width);
      var w := Round1(root0, expr, i, width, n, m0, before);
      PacksExtend(0, i, 1, width);
      ws := ws + w;
      i := i + width;
    }
  }

  /** The body of `for(; i < N; i += 1)`: a fresh evaluator of the scalar
      model, prepared, runs one round at element i. */
  method ScalarRound(expr: Expr, i: nat, ghost n: nat, ghost m0: Memory, ghost before: seq<int>)
    returns (ghost ws: seq<Write>)
    requires expr.Store? && StoreFree(expr.src)
    requires Progress(expr, m0, before, i, n) && i < n
    modifies expr.dest
    ensures Progress(expr, m0, before, i + 1, n) && ws == Run(i, 1, 1)
  {
    ArraysAllocated(expr.src);
    var root := new Evaluator(Scalar);
    root.Prepare(expr);
    ws := Round1(root, expr, i, 1, n, m0, before);
  }

  /** `for(; i < N; i += 1)`, in every tier: the elements above the last
      whole pack, one scalar round each. */
  method ScalarTail(expr: Expr, i0: nat, n: nat, ghost m0: Memory, ghost before: seq<int>, ghost done: seq<Write>)
    returns (i: nat, ghost ws: seq<Write>)
    requires expr.Store? && StoreFree(expr.src)
    requires Progress(expr, m0, before, i0, n) && i0 <= n
    modifies expr.dest
    ensures i == n && Progress(expr, m0, before, n, n) && ws == done + Packs(i0, n, 1)
  {
    i, ws := i0, done;
    while i < n
      invariant i0 <= i <= n && Progress(expr, m0, before, i, n) && ws == done + Packs(i0, i, 1)
      decreases n - i
    {
      var w := ScalarRound(expr, i, n, m0, before);
      PacksExtend(i0, i, 1, 1);
      ws := ws + w;
      i := i + 1;
    }
  }

  // ---------------------------------------------------------------------
  // The tiers and `execute`

  /** With every element below N written, the destination is as `execute`
      promises. */
  lemma ProgressExecuted(expr: Expr, m0: Memory, before: seq<int>, n: nat)
    requires expr.Store? && Progress(expr, m0, before, n, n)
    ensures Executed(expr, n, m0, before)
  {
    forall j | 0 <= j < |before|
      ensures expr.dest[j] == if j < n then ValueAt(expr.src, m0, j) else before[j]
    {
      assert expr.dest[j] == expr.dest[..][j];
    }
  }

  /** Four evaluators of the vector model declared and prepared for
      `expr`, as every tier of two or more evaluators begins. */
  method PrepareFour(expr: Expr, vector: Isa, ghost m0: Memory)
    returns (root0: Evaluator, root1: Evaluator, root2: Evaluator, root3: Evaluator)
    requires expr.Store? && StoreFree(expr.src) && vector.packSize >= 1
    ensures fresh(root0) && fresh(root1) && fresh(root2) && fresh(root3) && Apart4(root0, root1, root2, root3)
    ensures PhaseOf(root0, expr, m0, vector.packSize) == Waiting && PhaseOf(root1, expr, m0, vector.packSize) == Waiting
    ensures PhaseOf(root2, expr, m0, vector.packSize) == Waiting && PhaseOf(root3, expr, m0, vector.packSize) == Waiting
  {
    root0 := new Evaluator(vector);
    root1 := new Evaluator(vector);
    root2 := new Evaluator(vector);
    root3 := new Evaluator(vector);
    root0.Prepare(expr);
    root1.Prepare(expr);
    root2.Prepare(expr);
    root3.Prepare(expr);
  }

  /** `loop<unroll>::execute` for unroll below 2: one evaluator over whole
      packs, then the scalar tail. */
  method ExecuteTier1(expr: Expr, n: nat, vector: Isa) returns (ghost writes: seq<Write>)
    requires Runnable(expr, n, vector)
    modifies expr.dest
    ensures Executed(expr, n, old(Snapshot(expr.src)), old(expr.dest[..]))
    ensures writes == Schedule(n, vector.packSize)
  {
    ghost var m0, before := Snapshot(expr.src), expr.dest[..];
    ProgressStart(expr, n, vector);
    ArraysAllocated(expr.src);
    var width := vector.packSize;
    var root := new Evaluator(vector);
    root.Prepare(expr);
    Nest(n, width, 1, 1, 1);
    var size1 := Threshold(n, 1 * width);
    var i;
    i, writes := OnePack(root, expr, width, 0, size1, n, m0, before, []);
    i, writes := ScalarTail(expr, i, n, m0, before, writes);
    ProgressExecuted(expr, m0, before, n);
  }

  /** `loop<unroll>::execute` for unroll 2 and 3: `root0`, `root1` over
      blocks of eight packs, then of two, then `root0` over single packs,
      then the scalar tail. */
  method ExecuteTier2(expr: Expr, n: nat, vector: Isa) returns (ghost writes: seq<Write>)
    requires Runnable(expr, n, vector)
    modifies expr.dest
    ensures Executed(expr, n, old(Snapshot(expr.src)), old(expr.dest[..]))
    ensures writes == Schedule(n, vector.packSize)
  {
    ghost var m0, before := Snapshot(expr.src), expr.dest[..];
    ProgressStart(expr, n, vector);
    ArraysAllocated(expr.src);
    var width := vector.packSize;
    var root0 := new Evaluator(vector);
    var root1 := new Evaluator(vector);
    root0.Prepare(expr);
    root1.Prepare(expr);
    Nest(n, width, 2, 8, 4);
    Nest(n, width, 1, 2, 2);
    var i;
    var size8 := Threshold(n, 8 * width);
    i, writes := EightPacksByTwo(root0, root1, expr, width, 0, size8, n, m0, before, []);
    var size2 := Threshold(n, 2 * width);
    i, writes := TwoPacks(root0, root1, expr, width, i, size2, n, m0, before, writes);
    var size1 := Threshold(n, 1 * width);
    i, writes := OnePack(root0, expr, width, i, size1, n, m0, before, writes);
    i, writes := ScalarTail(expr, i, n, m0, before, writes);
    ProgressExecuted(expr, m0, before, n);
  }

  /** `loop<unroll>::execute` for unroll 4 to 7: `root0 .. root3` over
      blocks of sixteen packs, then of four, then `root0` over single
      packs, then the scalar tail. */
  method ExecuteTier4(expr: Expr, n: nat, vector: Isa) returns (ghost writes: seq<Write>)
    requires Runnable(expr, n, vector)
    modifies expr.dest
    ensures Executed(expr, n, old(Snapshot(expr.src)), old(expr.dest[..]))
    ensures writes == Schedule(n, vector.packSize)
  {
    ghost var m0, before := Snapshot(expr.src), expr.dest[..];
    ProgressStart(expr, n, vector);
    ArraysAllocated(expr.src);
    var width := vector.packSize;
    var root0, root1, root2, root3 := PrepareFour(expr, vector, m0);
    Nest(n, width, 4, 16, 4);
    Nest(n, width, 1, 4, 4);
    var i;
    var size16 := Threshold(n, 16 * width);
    i, writes := SixteenPacksByFour(root0, root1, root2, root3, expr, width, 0, size16, n, m0, before, []);
    var size4 := Threshold(n, 4 * width);
    i, writes := FourPacks(root0, root1, root2, root3, expr, width, i, size4, n, m0, before, writes);
    var size1 := Threshold(n, 1 * width);
    i, writes := OnePack(root0, expr, width, i, size1, n, m0, before, writes);
    i, writes := ScalarTail(expr, i, n, m0, before, writes);
    ProgressExecuted(expr, m0, before, n);
  }

  /** `loop<unroll>::execute` for unroll 8 and more: `root0 .. root7` over
      blocks of sixteen packs, then `root0 .. root3` over blocks of four,
      then `root0` over single packs, then the scalar tail. */
  method ExecuteTier8(expr: Expr, n: nat, vector: Isa) returns (ghost writes: seq<Write>)
    requires Runnable(expr, n, vector)
    modifies expr.dest
    ensures Executed(expr, n, old(Snapshot(expr.src)), old(expr.dest[..]))
    ensures writes == Schedule(n, vector.packSize)
  {
    ghost var m0, before := Snapshot(expr.src), expr.dest[..];
    ProgressStart(expr, n, vector);
    ArraysAllocated(expr.src);
    var width := vector.packSize;
    var root0, root1, root2, root3 := PrepareFour(expr, vector, m0);
    var root4, root5, root6, root7 := PrepareFour(expr, vector, m0);
    Nest(n, width, 4, 16, 4);
    Nest(n, width, 1, 4, 4);
    var i;
    var size16 := Threshold(n, 16 * width);
    i, writes := SixteenPacksByEight(root0, root1, root2, root3, root4, root5, root6, root7, expr, width, 0, size16, n, m0, before, []);
    var size4 := Threshold(n, 4 * width);
    i, writes := FourPacks(root0, root1, root2, root3, expr, width, i, size4, n, m0, before, writes);
    var size1 := Threshold(n, 1 * width);
    i, writes := OnePack(root0, expr, width, i, size1, n, m0, before, writes);
    i, writes := ScalarTail(expr, i, n, m0, before, writes);
    ProgressExecuted(expr, m0, before, n);
  }

  /** `execute`: the tier chosen by `registers / loads` (loads counted as
      at least one), run with the scalar model for the tail. Every element
      below N is written exactly once and ends up holding the source's
      value over the entry contents. */
  method Execute(expr: Expr, n: nat, vector: Isa) returns (ghost writes: seq<Write>)
    requires Runnable(expr, n, vector)
    modifies expr.dest
    ensures Executed(expr, n, old(Snapshot(expr.src)), old(expr.dest[..]))
    ensures writes == Schedule(n, vector.packSize)
  {
    var tier := TierOf(Unroll(Count(expr), vector.registers));
    if tier == 1 {
      writes := ExecuteTier1(expr, n, vector);
    } else if tier == 2 {
      writes := ExecuteTier2(expr, n, vector);
    } else if tier == 4 {
      writes := ExecuteTier4(expr, n, vector);
    } else {
      writes := ExecuteTier8(expr, n, vector);
    }
  }
}
