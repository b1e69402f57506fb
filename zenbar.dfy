/** The eight-cell progress bar drawn for each exchange tier. */
module ZenBar {
  import opened Text

  /** Number of cells in a bar. */
  const Width := 8

  const FullCell := '█'
  const EmptyCell := '░'

  /** `int(min(current / target, 1.0) * 8)`: how many cells are filled, with
      exact rationals in place of the float division. */
  function Filled(current: int, target: int): (f: int)
    requires target > 0
    ensures f <= Width
    ensures current >= 0 ==> 0 <= f
  {
    var ratio := current as real / target as real;
    Truncate((if ratio < 1.0 then ratio else 1.0) * Width as real)
  }

  /** The cells: `filled` full cells, then `8 - filled` empty ones. */
  function Cells(current: int, target: int): string
    requires target > 0
  {
    var filled := Filled(current, target);
    Repeat(FullCell, filled) + Repeat(EmptyCell, Width - filled)
  }

  /** The text `get_zen_bar` returns. `percent` is its float percentage
      already formatted to three columns, which the model takes as given. */
  function BarText(current: int, target: int, percent: string): string
    requires target > 0
  {
    "`" + Cells(current, target) + "` " + percent + "% (" + IntText(current) + "/" + IntText(target) + "pt)"
  }

  /** The bar text is one line when the percentage text is. */
  lemma BarTextSingle(current: int, target: int, percent: string)
    requires target > 0 && '\n' !in percent
    ensures '\n' !in BarText(current, target, percent)
  {
    assert '\n' !in Cells(current, target);
    assert '\n' !in IntText(current) by {
      if current < 0 { assert IntText(current) == "-" + NatText(-current); }
    }
    assert '\n' !in IntText(target);
    assert '\n' !in "pt)" && '\n' !in "% (";
  }

  /** For a non-negative balance the filled count is the whole number of
      eighths of the target reached, capped at eight. */
  lemma FilledInEighths(current: int, target: int)
    requires current >= 0 && target > 0
    ensures Filled(current, target) == if Width * current / target < Width then Width * current / target else Width
  {
    var ratio := current as real / target as real;
    assert ratio * target as real == current as real;
    if current >= target {
      assert ratio >= 1.0;
      DivAtLeast(Width * current, target, Width);
    } else {
      assert ratio < 1.0;
      EighthsBelowTarget(current, target);
    }
  }

  /** Below the target, truncating eight times the ratio is integer division. */
  lemma EighthsBelowTarget(current: int, target: int)
    requires 0 <= current < target
    ensures var x := current as real / target as real * 8.0;
      0.0 <= x && x.Floor == Width * current / target < Width
  {
    var x := current as real / target as real * 8.0;
    var n := Width * current;
    var q, m := n / target, n % target;
    DivBelow(n, target, Width);
    ScaledRatio(current as real, target as real, x);
    SumAsReal(n, q, target, m);
    RealBetween(x, n as real, q as real, m as real, target as real);
  }

  lemma DivBelow(n: int, d: int, k: int)
    requires d > 0 && 0 <= n < k * d
    ensures 0 <= n / d < k
  {
    MulCancel(k, n / d, d);
  }

  lemma ScaledRatio(c: real, t: real, x: real)
    requires t > 0.0 && x == c / t * 8.0
    ensures x * t == 8.0 * c
  {
  }

  lemma SumAsReal(n: int, q: int, d: int, m: int)
    requires n == q * d + m
    ensures n as real == q as real * d as real + m as real
  {
    ToRealMul(q, d);
  }

  lemma DivAtLeast(n: int, d: int, k: int)
    requires d > 0 && n >= k * d
    ensures n / d >= k
  {
    var q := n / d;
    assert n < (q + 1) * d;
    MulCancel(q + 1, k, d);
  }

  lemma MulCancel(a: int, b: int, d: int)
    requires d > 0 && a * d > b * d
    ensures a > b
  {
    assert (a - b) * d > 0;
  }

  lemma ToRealMul(a: int, b: int)
    ensures (a * b) as real == (a as real) * (b as real)
  {
  }

  /** The sign of a product with a positive factor is the sign of the other. */
  lemma MulSign(a: real, t: real)
    requires t > 0.0
    ensures a > 0.0 ==> a * t > 0.0
    ensures a < 0.0 ==> a * t < 0.0
  {
  }

  /** If `x * t == q * t + m` with `0 <= m < t`, then `x` lies in `[q, q + 1)`. */
  lemma RealBetween(x: real, w: real, q: real, m: real, t: real)
    requires t > 0.0 && 0.0 <= m < t
    requires x * t == w && w == q * t + m
    ensures q <= x < q + 1.0
  {
    assert (x - q) * t == m;
    assert (x - q - 1.0) * t == m - t;
    MulSign(x - q, t);
    MulSign(x - q - 1.0, t);
  }

  /** With a non-negative balance the bar is exactly eight cells: the filled
      ones first, all of them once the balance reaches the target. */
  lemma BarHasEightCells(current: int, target: int)
    requires current >= 0 && target > 0
    ensures var filled := Filled(current, target);
      0 <= filled <= Width && |Cells(current, target)| == Width
      && (forall i :: 0 <= i < filled ==> Cells(current, target)[i] == FullCell)
      && (forall i :: filled <= i < Width ==> Cells(current, target)[i] == EmptyCell)
    ensures current >= target ==> Cells(current, target) == Repeat(FullCell, Width)
  {
    FilledInEighths(current, target);
    var filled := Filled(current, target);
    var full, empty := Repeat(FullCell, filled), Repeat(EmptyCell, Width - filled);
    forall i | 0 <= i < filled ensures Cells(current, target)[i] == FullCell {
      assert full[i] in full;
    }
    forall i | filled <= i < Width ensures Cells(current, target)[i] == EmptyCell {
      assert empty[i - filled] in empty;
    }
    if current >= target {
      assert Width * current / target >= Width by {
        DivAtLeast(Width * current, target, Width);
      }
      assert empty == [];
    }
  }

  /** A negative balance fills nothing and pads with more than eight empty
      cells: the cap applies only from above. */
  lemma NegativeBalanceOverflowsBar(current: int, target: int)
    requires current < 0 && target > 0
    ensures Filled(current, target) <= 0
    ensures Cells(current, target) == Repeat(EmptyCell, Width - Filled(current, target))
    ensures |Cells(current, target)| >= Width
  {
    var ratio := current as real / target as real;
    assert ratio < 0.0 by {
      assert ratio * target as real == current as real;
    }
  }
}
