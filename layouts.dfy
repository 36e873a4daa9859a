/** The placeholder-row selection rule of the list skeleton adapter, as pure
    functions over the adapter's two layout settings: one layout id, and an
    optional array of layout ids (a Java `int[]` that may be null). */
module Layouts {

  /** A Java reference that may be null: `None` stands for null. */
  datatype Option<T> = None | Some(value: T)

  /** True when a layout array is configured and non-empty; a null array and
      an empty array both mean "no array" (`doesArrayOfLayoutsExist`). */
  function HasArray(layouts: Option<seq<int>>): (present: bool)
    ensures present <==> layouts != None && layouts.value != []
  {
    layouts.Some? && |layouts.value| != 0
  }

  /** The layout id of the row at `position` (`getCorrectLayoutItem`). With an
      array the source indexes it by `position % length`; Java's `%` truncates,
      so a negative position that is not a multiple of the length is an
      out-of-bounds access there. Only then, with an array, is `position >= 0`
      required; for `position >= 0` Java's `%` and Dafny's `%` agree. */
  function Select(single: int, layouts: Option<seq<int>>, position: int): (id: int)
    requires HasArray(layouts) ==> position >= 0
    ensures HasArray(layouts) ==> id in layouts.value
    ensures !HasArray(layouts) ==> id == single
  {
    if HasArray(layouts) then layouts.value[position % |layouts.value|] else single
  }

  /** The layout ids of the first `count` rows, in row order. */
  function RowLayouts(single: int, layouts: Option<seq<int>>, count: nat): (rows: seq<int>)
    ensures |rows| == count
    ensures forall p :: 0 <= p < count ==> rows[p] == Select(single, layouts, p)
  {
    seq(count, p requires 0 <= p < count => Select(single, layouts, p))
  }

  /** Reference definition of the cyclic choice: the rows are taken in blocks
      of `|a|`, and inside a block the row at offset `i` uses `a[i]`. */
  function Tile(a: seq<int>, position: nat): (id: int)
    requires |a| > 0
    decreases position
  {
    if position < |a| then a[position] else Tile(a, position - |a|)
  }

  /** The array written out `k` times in a row. */
  function Repeat(a: seq<int>, k: nat): (r: seq<int>)
  {
    if k == 0 then [] else Repeat(a, k - 1) + a
  }

  // ---------------------------------------------------------------------
  // Arithmetic helpers for Java's `%` on non-negative operands.

  lemma ModShift(p: nat, n: nat)
    requires n > 0
    ensures (p + n) % n == p % n
  {
    var q, r := p / n, p % n;
    assert p == q * n + r;
    assert p + n == (q + 1) * n + r;
    DivModUnique(p + n, n, q + 1, r);
  }

  lemma DivModUnique(x: nat, n: nat, q: int, r: int)
    requires n > 0 && 0 <= r < n && x == q * n + r
    ensures x % n == r
  {
    var q', r' := x / n, x % n;
    assert x == q' * n + r';
    if q > q' {
      assert q * n == q' * n + (q - q') * n;
      MulAtLeast(q - q', n);
    } else if q < q' {
      assert q' * n == q * n + (q' - q) * n;
      MulAtLeast(q' - q, n);
    }
  }

  lemma MulAtLeast(m: int, n: nat)
    requires m >= 1
    ensures m * n >= n
  {
  }

  lemma {:induction false} ModOfBlock(q: nat, n: nat, j: nat)
    requires n > 0 && j < n
    ensures (q * n + j) % n == j
  {
    if q > 0 {
      ModOfBlock(q - 1, n, j);
      assert q * n + j == ((q - 1) * n + j) + n;
      ModShift((q - 1) * n + j, n);
    }
  }

  // ---------------------------------------------------------------------
  // Properties of the selection rule.

  /** The choice repeats with the array's length as its period. */
  lemma SelectPeriodic(single: int, a: seq<int>, position: nat)
    requires |a| > 0
    ensures Select(single, Some(a), position + |a|) == Select(single, Some(a), position)
  {
    ModShift(position, |a|);
  }

  /** `Select` with an array agrees with the block-by-block reference choice. */
  lemma {:induction false} SelectIsTile(single: int, a: seq<int>, position: nat)
    requires |a| > 0
    ensures Select(single, Some(a), position) == Tile(a, position)
    decreases position
  {
    if position < |a| {
      DivModUnique(position, |a|, 0, position);
    } else {
      SelectIsTile(single, a, position - |a|);
      SelectPeriodic(single, a, position - |a|);
    }
  }

  /** Without a usable array every row gets the single layout id, whatever
      the position; an empty array behaves exactly as a null one. */
  lemma FallbackIsConstant(single: int, layouts: Option<seq<int>>, p: int, q: int)
    requires !HasArray(layouts)
    ensures Select(single, layouts, p) == Select(single, layouts, q) == single
    ensures Select(single, layouts, p) == Select(single, None, p)
  {
  }

  /** An empty array is treated as no array at all. */
  lemma EmptyArrayIsNoArray(single: int, p: int)
    ensures Select(single, Some([]), p) == Select(single, None, p) == single
  {
  }

  /** A one-element array gives every row that element. */
  lemma SingletonArrayIsConstant(single: int, t: int, p: nat)
    ensures Select(single, Some([t]), p) == t
  {
  }

  /** Once a non-empty array is configured, the single layout id no longer
      influences the choice. */
  lemma SingleIgnoredWithArray(s1: int, s2: int, a: seq<int>, p: nat)
    requires |a| > 0
    ensures Select(s1, Some(a), p) == Select(s2, Some(a), p)
  {
  }

  lemma {:induction false} RepeatAt(a: seq<int>, k: nat, i: nat)
    requires |a| > 0 && i < k * |a|
    ensures |Repeat(a, k)| == k * |a|
    ensures Repeat(a, k)[i] == a[i % |a|]
  {
    var n := |a|;
    RepeatLength(a, k - 1);
    if i < (k - 1) * n {
      RepeatAt(a, k - 1, i);
    } else {
      var j := i - (k - 1) * n;
      ModOfBlock(k - 1, n, j);
    }
  }

  lemma {:induction false} RepeatLength(a: seq<int>, k: nat)
    ensures |Repeat(a, k)| == k * |a|
  {
    if k > 0 {
      RepeatLength(a, k - 1);
    }
  }

  /** The first `k * |a|` placeholder rows are the array repeated `k` times. */
  lemma RowsRepeatArray(single: int, a: seq<int>, k: nat)
    requires |a| > 0
    ensures RowLayouts(single, Some(a), k * |a|) == Repeat(a, k)
  {
    var rows := RowLayouts(single, Some(a), k * |a|);
    RepeatLength(a, k);
    forall i | 0 <= i < k * |a|
      ensures rows[i] == Repeat(a, k)[i]
    {
      RepeatAt(a, k, i);
    }
  }

  /** The first `|a|` rows show the array exactly once, in order. */
  lemma FirstRowsAreTheArray(single: int, a: seq<int>)
    requires |a| > 0
    ensures RowLayouts(single, Some(a), |a|) == a
  {
    RowsRepeatArray(single, a, 1);
    assert Repeat(a, 1) == Repeat(a, 0) + a == a;
  }

  /** Eight rows over two templates alternate, starting with the first. */
  lemma EightRowsOverTwoTemplates(single: int, x: int, y: int)
    ensures RowLayouts(single, Some([x, y]), 8) == [x, y, x, y, x, y, x, y]
  {
    RowsRepeatArray(single, [x, y], 4);
  }

  /** Without a usable array every row shows the single layout id. */
  lemma RowsWithoutArray(single: int, layouts: Option<seq<int>>, count: nat)
    requires !HasArray(layouts)
    ensures forall p :: 0 <= p < count ==> RowLayouts(single, layouts, count)[p] == single
  {
  }
}
