/** Time series as sequences of reals (one value per time step), and the
    reductions and element-wise operations the evaluation applies to them. */
module Series {

  /** `sum(series)`: Python's left fold over the values, starting from 0. */
  function Sum(s: seq<real>): real
  {
    if |s| == 0 then 0.0 else Sum(s[..|s| - 1]) + s[|s| - 1]
  }

  /** `max(series)` and `Series.max()` on a non-empty series: a value of the
      series that no value of the series exceeds. */
  function Max(s: seq<real>): (m: real)
    requires |s| > 0
    ensures exists i :: 0 <= i < |s| && s[i] == m
    ensures forall i :: 0 <= i < |s| ==> s[i] <= m
  {
    if |s| == 1 then s[0]
    else
      var rest := Max(s[..|s| - 1]);
      if s[|s| - 1] > rest then s[|s| - 1] else rest
  }

  /** `a + b` on two series with the same index. */
  function Add(a: seq<real>, b: seq<real>): (r: seq<real>)
    requires |a| == |b|
    ensures |r| == |a|
    ensures forall i :: 0 <= i < |r| ==> r[i] == a[i] + b[i]
  {
    seq(|a|, i requires 0 <= i < |a| => a[i] + b[i])
  }

  /** `a - b` on two series with the same index. */
  function Sub(a: seq<real>, b: seq<real>): (r: seq<real>)
    requires |a| == |b|
    ensures |r| == |a|
    ensures forall i :: 0 <= i < |r| ==> r[i] == a[i] - b[i]
  {
    seq(|a|, i requires 0 <= i < |a| => a[i] - b[i])
  }

  /** `s / c` for a non-zero scalar `c`. */
  function DivBy(s: seq<real>, c: real): (r: seq<real>)
    requires c != 0.0
    ensures |r| == |s|
    ensures forall i :: 0 <= i < |r| ==> r[i] * c == s[i]
  {
    seq(|s|, i requires 0 <= i < |s| => s[i] / c)
  }

  /** `c * s`: every step scaled by `c`. */
  function Scale(c: real, s: seq<real>): (r: seq<real>)
    ensures |r| == |s|
    ensures forall i :: 0 <= i < |r| ==> r[i] == c * s[i]
  {
    seq(|s|, i requires 0 <= i < |s| => c * s[i])
  }

  /** Dividing by `c` is scaling by the inverse of `c`. */
  lemma DivByIsScale(s: seq<real>, c: real)
    requires c != 0.0
    ensures DivBy(s, c) == Scale(1.0 / c, s)
  {
    forall i | 0 <= i < |s| ensures DivBy(s, c)[i] == Scale(1.0 / c, s)[i] {
      var x := DivBy(s, c)[i];
      assert x * c == s[i];
      assert (1.0 / c) * c == 1.0;
      calc {
        (1.0 / c) * s[i];
        (1.0 / c) * (x * c);
        x * ((1.0 / c) * c);
        x;
      }
    }
  }

  /** A series of `n` zeros. */
  function Zeros(n: nat): (r: seq<real>)
    ensures |r| == n
    ensures forall i :: 0 <= i < n ==> r[i] == 0.0
  {
    seq(n, i => 0.0)
  }

  /** The values at step `i` of a list of series that all cover step `i`. */
  function At(rows: seq<seq<real>>, i: nat): (r: seq<real>)
    requires forall j :: 0 <= j < |rows| ==> i < |rows[j]|
    ensures |r| == |rows|
    ensures forall j :: 0 <= j < |rows| ==> r[j] == rows[j][i]
  {
    seq(|rows|, j requires 0 <= j < |rows| => rows[j][i])
  }

  /** All series of `rows` have `n` steps. */
  predicate AllOfLength(rows: seq<seq<real>>, n: nat)
  {
    forall j :: 0 <= j < |rows| ==> |rows[j]| == n
  }

  /** The element-wise total of `rows` over `n` steps: step `i` holds the sum
      of the values all series have at step `i`. */
  function ColumnTotals(rows: seq<seq<real>>, n: nat): (r: seq<real>)
    requires AllOfLength(rows, n)
    ensures |r| == n
    ensures forall i :: 0 <= i < n ==> r[i] == Sum(At(rows, i))
  {
    seq(n, i requires 0 <= i < n => Sum(At(rows, i)))
  }

  /** The total of each series of `rows`, in order. */
  function RowTotals(rows: seq<seq<real>>): (r: seq<real>)
    ensures |r| == |rows|
    ensures forall j :: 0 <= j < |rows| ==> r[j] == Sum(rows[j])
  {
    seq(|rows|, j requires 0 <= j < |rows| => Sum(rows[j]))
  }

  lemma {:induction false} SumOfZeros(n: nat)
    ensures Sum(Zeros(n)) == 0.0
  {
    if n > 0 {
      assert Zeros(n)[..n - 1] == Zeros(n - 1);
      SumOfZeros(n - 1);
    }
  }

  /** A series of non-negative values has a non-negative sum. */
  lemma {:induction false} SumNonNegative(s: seq<real>)
    requires forall i :: 0 <= i < |s| ==> s[i] >= 0.0
    ensures Sum(s) >= 0.0
  {
    if |s| > 0 {
      SumNonNegative(s[..|s| - 1]);
    }
  }

  /** Summing is additive over element-wise addition. */
  lemma {:induction false} SumOfAdd(a: seq<real>, b: seq<real>)
    requires |a| == |b|
    ensures Sum(Add(a, b)) == Sum(a) + Sum(b)
  {
    if |a| > 0 {
      var n := |a| - 1;
      assert Add(a, b)[..n] == Add(a[..n], b[..n]);
      SumOfAdd(a[..n], b[..n]);
    }
  }

  /** Summing is additive over element-wise subtraction. */
  lemma {:induction false} SumOfSub(a: seq<real>, b: seq<real>)
    requires |a| == |b|
    ensures Sum(Sub(a, b)) == Sum(a) - Sum(b)
  {
    if |a| > 0 {
      var n := |a| - 1;
      assert Sub(a, b)[..n] == Sub(a[..n], b[..n]);
      SumOfSub(a[..n], b[..n]);
    }
  }

  /** Summing commutes with scaling. */
  lemma {:induction false} SumOfScale(c: real, s: seq<real>)
    ensures Sum(Scale(c, s)) == c * Sum(s)
  {
    if |s| > 0 {
      var n := |s| - 1;
      forall i | 0 <= i < n ensures Scale(c, s)[..n][i] == Scale(c, s[..n])[i] {
        assert s[..n][i] == s[i];
      }
      assert Scale(c, s)[..n] == Scale(c, s[..n]);
      SumOfScale(c, s[..n]);
    }
  }

  /** Adding one more series to a list adds its values to the element-wise total. */
  lemma ColumnTotalsSnoc(rows: seq<seq<real>>, last: seq<real>, n: nat)
    requires AllOfLength(rows, n) && |last| == n
    ensures AllOfLength(rows + [last], n)
    ensures ColumnTotals(rows + [last], n) == Add(ColumnTotals(rows, n), last)
  {
    forall i | 0 <= i < n
      ensures ColumnTotals(rows + [last], n)[i] == Add(ColumnTotals(rows, n), last)[i]
    {
      assert At(rows + [last], i)[..|rows|] == At(rows, i);
    }
  }

  /** Summing the element-wise total over all steps gives the same as adding
      up the totals of each series: the two orders of a double sum agree. */
  lemma {:induction false} SumOfColumnTotals(rows: seq<seq<real>>, n: nat)
    requires AllOfLength(rows, n)
    ensures Sum(ColumnTotals(rows, n)) == Sum(RowTotals(rows))
  {
    if |rows| == 0 {
      assert ColumnTotals(rows, n) == Zeros(n);
      SumOfZeros(n);
    } else {
      var init := rows[..|rows| - 1];
      var last := rows[|rows| - 1];
      assert rows == init + [last];
      ColumnTotalsSnoc(init, last, n);
      SumOfAdd(ColumnTotals(init, n), last);
      SumOfColumnTotals(init, n);
      assert RowTotals(rows)[..|rows| - 1] == RowTotals(init);
    }
  }
}
