/**
 * `check_df_sum`: every row sum (or column sum) of a table, over absolute
 * values when asked, must round to 1 at four decimals. The `target`
 * argument only appears in the failure message: the comparison is with the
 * literal 1, whatever `target` is.
 */
module SumCheck {
  import opened Outcomes
  import opened Tables

  /**
   * The `axis` argument. `Index` (axis 0) reduces down the index, giving one
   * sum per column; `Columns` (axis 1, the default) reduces across the
   * columns, giving one sum per row.
   */
  datatype Axis = Index | Columns

  /** The failure message: the target it names and the rounded sum it found. */
  datatype SumError = SumMismatch(target: real, rounded: real)

  function Abs(x: real): (y: real)
    ensures y >= 0.0 && (y == x || y == -x)
  {
    if x < 0.0 then -x else x
  }

  /** `abs` on one cell; a missing value stays missing. */
  function AbsCell(v: Option<real>): Option<real> {
    match v
    case None => None
    case Some(x) => Some(Abs(x))
  }

  /**
   * `abs(df.copy())`: a new table with the same labels and the absolute
   * value in every cell. The argument is a value, so the caller's table is
   * untouched.
   */
  function AbsTable<R, C>(t: Table<R, C, real>): (u: Table<R, C, real>)
    ensures u.rows == t.rows && u.cols == t.cols
    ensures forall r, c :: r in t.rows && c in t.cols ==> (IsNull(u.cells(r, c)) <==> IsNull(t.cells(r, c)))
    ensures forall r, c :: r in t.rows && c in t.cols && u.cells(r, c).Some? && t.cells(r, c).Some? ==>
      u.cells(r, c).value >= 0.0 && (u.cells(r, c).value == t.cells(r, c).value || u.cells(r, c).value == -t.cells(r, c).value)
  {
    t.(cells := (r, c) => AbsCell(t.cells(r, c)))
  }

  /** The sum of the values present, skipping missing ones as `sum` does by default. */
  function SumPresent(vs: seq<Option<real>>): (s: real)
    ensures (forall k :: 0 <= k < |vs| ==> vs[k].None?) ==> s == 0.0
  {
    if vs == [] then 0.0
    else (match vs[0] case None => 0.0 case Some(x) => x) + SumPresent(vs[1..])
  }

  /** The cells of row `r`, in column order. */
  function RowValues<R, C>(t: Table<R, C, real>, r: R): seq<Option<real>> {
    seq(|t.cols|, j requires 0 <= j < |t.cols| => t.cells(r, t.cols[j]))
  }

  /** The cells of column `c`, in row order. */
  function ColumnValues<R, C>(t: Table<R, C, real>, c: C): seq<Option<real>> {
    seq(|t.rows|, i requires 0 <= i < |t.rows| => t.cells(t.rows[i], c))
  }

  /** `df.sum(axis=axis).tolist()`. */
  function AxisSums<R, C>(t: Table<R, C, real>, axis: Axis): (sums: seq<real>)
    ensures |sums| == if axis == Columns then |t.rows| else |t.cols|
  {
    match axis
    case Columns => seq(|t.rows|, i requires 0 <= i < |t.rows| => SumPresent(RowValues(t, t.rows[i])))
    case Index => seq(|t.cols|, j requires 0 <= j < |t.cols| => SumPresent(ColumnValues(t, t.cols[j])))
  }

  /** The list of sums the validator walks through. */
  function Sums<R, C>(t: Table<R, C, real>, absolute: bool, axis: Axis): seq<real> {
    AxisSums(if absolute then AbsTable(t) else t, axis)
  }

  /**
   * `round(x, 4)` on an exact value: to the nearest multiple of 1/10000,
   * a tie going to the even multiple.
   */
  function Round4(x: real): (y: real)
    ensures (y * 10000.0).Floor as real == y * 10000.0
    ensures -0.00005 <= y - x <= 0.00005
    ensures x * 10000.0 - (x * 10000.0).Floor as real == 0.5 ==> (y * 10000.0).Floor % 2 == 0
  {
    var scaled := x * 10000.0;
    var k := scaled.Floor;
    var frac := scaled - k as real;
    var n := if frac < 0.5 then k
             else if frac > 0.5 then k + 1
             else if k % 2 == 0 then k else k + 1;
    n as real / 10000.0
  }

  /** What it takes for the validator to return `True`; `target` plays no part. */
  ghost predicate Passes<R, C>(t: Table<R, C, real>, absolute: bool, axis: Axis) {
    forall i :: 0 <= i < |Sums(t, absolute, axis)| ==> Round4(Sums(t, absolute, axis)[i]) == 1.0
  }

  /**
   * The validator: take absolute values if asked, reduce along `axis`, and
   * stop at the first sum that does not round to 1, reporting `target` and
   * that rounded sum.
   */
  method CheckDfSum<R, C>(t: Table<R, C, real>, target: real := 1.0, absolute: bool := true, axis: Axis := Columns)
    returns (res: Outcome<SumError>)
    ensures res.Pass? <==> Passes(t, absolute, axis)
    ensures res.Fail? ==>
      var sums := Sums(t, absolute, axis);
      exists i :: && 0 <= i < |sums|
                  && Round4(sums[i]) != 1.0
                  && (forall k :: 0 <= k < i ==> Round4(sums[k]) == 1.0)
                  && res.error == SumMismatch(target, Round4(sums[i]))
  {
    var df := t;
    if absolute {
      df := AbsTable(t);
    }
    var dfSum := AxisSums(df, axis);
    assert dfSum == Sums(t, absolute, axis);
    var k := 0;
    while k < |dfSum|
      invariant 0 <= k <= |dfSum|
      invariant forall i :: 0 <= i < k ==> Round4(dfSum[i]) == 1.0
    {
      if Round4(dfSum[k]) != 1.0 {
        return Fail(SumMismatch(target, Round4(dfSum[k])));
      }
      k := k + 1;
    }
    return Pass;
  }

  /** A sum rounds to 1 exactly when it lies within half a unit of the fourth decimal of 1. */
  lemma RoundsToOneBand(x: real)
    ensures Round4(x) == 1.0 <==> 0.99995 <= x <= 1.00005
  {
    var scaled := x * 10000.0;
    var k := scaled.Floor;
    var frac := scaled - k as real;
    assert k as real <= scaled < k as real + 1.0;
    var n := if frac < 0.5 then k
             else if frac > 0.5 then k + 1
             else if k % 2 == 0 then k else k + 1;
    assert Round4(x) == n as real / 10000.0;
    assert Round4(x) == 1.0 <==> n == 10000;
    if 0.99995 <= x <= 1.00005 {
      assert 9999.5 <= scaled <= 10000.5;
      assert k == 9999 || k == 10000;
    }
    if n == 10000 {
      assert k == 9999 || k == 10000;
    }
  }

  /**
   * The comparison is with the literal 1: a non-empty reduction whose sums
   * all equal a `target` outside the rounding band of 1 fails.
   */
  lemma SumsAtOtherTargetFail<R, C>(t: Table<R, C, real>, target: real, absolute: bool, axis: Axis)
    requires |Sums(t, absolute, axis)| > 0
    requires forall i :: 0 <= i < |Sums(t, absolute, axis)| ==> Sums(t, absolute, axis)[i] == target
    requires target < 0.99995 || 1.00005 < target
    ensures !Passes(t, absolute, axis)
  {
    RoundsToOneBand(Sums(t, absolute, axis)[0]);
  }

  /** Sums of exactly 1 (the default target) pass. */
  lemma UnitSumsPass<R, C>(t: Table<R, C, real>, absolute: bool, axis: Axis)
    requires forall i :: 0 <= i < |Sums(t, absolute, axis)| ==> Sums(t, absolute, axis)[i] == 1.0
    ensures Passes(t, absolute, axis)
  {
    RoundsToOneBand(1.0);
  }

  /** With nothing to reduce along the chosen axis, the validator passes vacuously. */
  lemma EmptyReductionPasses<R, C>(t: Table<R, C, real>, absolute: bool, axis: Axis)
    requires if axis == Columns then |t.rows| == 0 else |t.cols| == 0
    ensures Passes(t, absolute, axis)
  {
  }

  lemma {:induction false} SumPresentNonNegative(vs: seq<Option<real>>)
    requires forall k :: 0 <= k < |vs| && vs[k].Some? ==> vs[k].value >= 0.0
    ensures SumPresent(vs) >= 0.0
  {
    if vs != [] {
      SumPresentNonNegative(vs[1..]);
    }
  }

  /** Over absolute values every sum is non-negative. */
  lemma AbsoluteSumsNonNegative<R, C>(t: Table<R, C, real>, axis: Axis)
    ensures forall i :: 0 <= i < |Sums(t, true, axis)| ==> Sums(t, true, axis)[i] >= 0.0
  {
    var u := AbsTable(t);
    match axis
    case Columns =>
      forall i | 0 <= i < |t.rows| ensures SumPresent(RowValues(u, t.rows[i])) >= 0.0 {
        SumPresentNonNegative(RowValues(u, t.rows[i]));
      }
    case Index =>
      forall j | 0 <= j < |t.cols| ensures SumPresent(ColumnValues(u, t.cols[j])) >= 0.0 {
        SumPresentNonNegative(ColumnValues(u, t.cols[j]));
      }
  }

  /** On a table with no negative value, taking absolute values changes no sum. */
  lemma AbsoluteIrrelevantWhenNonNegative<R, C>(t: Table<R, C, real>, axis: Axis)
    requires forall r, c :: r in t.rows && c in t.cols && t.cells(r, c).Some? ==> t.cells(r, c).value >= 0.0
    ensures Sums(t, true, axis) == Sums(t, false, axis)
  {
    var u := AbsTable(t);
    match axis
    case Columns =>
      forall i | 0 <= i < |t.rows| ensures RowValues(u, t.rows[i]) == RowValues(t, t.rows[i]) {
        assert forall j :: 0 <= j < |t.cols| ==> u.cells(t.rows[i], t.cols[j]) == t.cells(t.rows[i], t.cols[j]);
      }
    case Index =>
      forall j | 0 <= j < |t.cols| ensures ColumnValues(u, t.cols[j]) == ColumnValues(t, t.cols[j]) {
        assert forall i :: 0 <= i < |t.rows| ==> u.cells(t.rows[i], t.cols[j]) == t.cells(t.rows[i], t.cols[j]);
      }
  }

  /** Rows of two columns A and B holding 0.5 each sum to 1, with or without absolute values. */
  lemma HalfAndHalfRowsPass(n: nat, absolute: bool)
    ensures Passes(Filled(Range(n), ["A", "B"], 0.5), absolute, Columns)
  {
    var t := Filled(Range(n), ["A", "B"], 0.5);
    var half: seq<Option<real>> := [Some(0.5), Some(0.5)];
    assert |half[1..][1..]| == 0;
    assert SumPresent(half) == 1.0;
    forall i | 0 <= i < n ensures Sums(t, absolute, Columns)[i] == 1.0 {
      assert RowValues(if absolute then AbsTable(t) else t, t.rows[i]) == half;
    }
    UnitSumsPass(t, absolute, Columns);
  }

  /**
   * A row holding 1.5 and -0.5 sums to 1 as signed values but to 2 over
   * absolute values, so it passes only with `absolute` off.
   */
  lemma OffsettingRowPassesOnlySigned()
    ensures var t := Table([0], ["A", "B"], (r, c) => if c == "A" then Some(1.5) else Some(-0.5));
            Passes(t, false, Columns) && !Passes(t, true, Columns)
  {
    var t := Table([0], ["A", "B"], (r, c) => if c == "A" then Some(1.5) else Some(-0.5));
    var signed: seq<Option<real>>, unsigned: seq<Option<real>> := [Some(1.5), Some(-0.5)], [Some(1.5), Some(0.5)];
    assert |signed[1..][1..]| == 0 && |unsigned[1..][1..]| == 0;
    assert RowValues(t, 0) == signed && SumPresent(signed) == 1.0;
    assert RowValues(AbsTable(t), 0) == unsigned && SumPresent(unsigned) == 2.0;
    UnitSumsPass(t, false, Columns);
    SumsAtOtherTargetFail(t, 2.0, true, Columns);
  }
}
