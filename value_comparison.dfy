/**
 * `df_value_comparison`: two tables must carry the same sets of row and
 * column labels, and a cell must be missing in one exactly where it is
 * missing in the other. The non-missing values themselves are never compared.
 */
module ValueComparison {
  import opened Outcomes
  import opened Tables

  /** The three assertion failures the validator can raise. */
  datatype AlignError =
    | LabelsDiffer   // column or row label sets differ
    | NullOnlyInA    // missing in A, present in B
    | NullOnlyInB    // missing in B, present in A

  /** The label check made before any cell is looked at; order and repetition are ignored. */
  predicate SameLabels<R(==), C(==), V>(a: Table<R, C, V>, b: Table<R, C, V>) {
    LabelSet(a.cols) == LabelSet(b.cols) && LabelSet(a.rows) == LabelSet(b.rows)
  }

  /** At (r, c) the value is missing in A exactly when it is missing in B. */
  predicate AlignedAt<R(==), C(==), V>(a: Table<R, C, V>, b: Table<R, C, V>, r: R, c: C) {
    IsNull(a.cells(r, c)) <==> IsNull(b.cells(r, c))
  }

  /** Every position of A's labels is aligned. */
  ghost predicate NullsAligned<R, C, V>(a: Table<R, C, V>, b: Table<R, C, V>) {
    forall r, c :: r in a.rows && c in a.cols ==> AlignedAt(a, b, r, c)
  }

  /** What it takes for the validator to return `True`. */
  ghost predicate Comparable<R, C, V>(a: Table<R, C, V>, b: Table<R, C, V>) {
    SameLabels(a, b) && NullsAligned(a, b)
  }

  /** The error raised at a misaligned position: the side holding the unpartnered null. */
  function CellError<R(==), C(==), V>(a: Table<R, C, V>, b: Table<R, C, V>, r: R, c: C): (e: AlignError)
    requires !AlignedAt(a, b, r, c)
    ensures e == NullOnlyInA <==> IsNull(a.cells(r, c)) && !IsNull(b.cells(r, c))
    ensures e == NullOnlyInB <==> IsNull(b.cells(r, c)) && !IsNull(a.cells(r, c))
  {
    if IsNull(a.cells(r, c)) then NullOnlyInA else NullOnlyInB
  }

  /**
   * Position (row i, column j) is the first misaligned one in the scan
   * order: columns outermost, rows innermost, both in A's label order.
   */
  ghost predicate FirstMisaligned<R, C, V>(a: Table<R, C, V>, b: Table<R, C, V>, j: int, i: int) {
    && 0 <= j < |a.cols| && 0 <= i < |a.rows|
    && !AlignedAt(a, b, a.rows[i], a.cols[j])
    && (forall j', i' :: 0 <= j' < j && 0 <= i' < |a.rows| ==> AlignedAt(a, b, a.rows[i'], a.cols[j']))
    && (forall i' :: 0 <= i' < i ==> AlignedAt(a, b, a.rows[i'], a.cols[j]))
  }

  /**
   * The validator: the label-set check, then a column-by-column,
   * row-by-row scan that stops at the first misaligned position.
   */
  method DfValueComparison<R(==), C(==), V>(a: Table<R, C, V>, b: Table<R, C, V>) returns (res: Outcome<AlignError>)
    ensures res.Pass? <==> Comparable(a, b)
    ensures res == Fail(LabelsDiffer) <==> !SameLabels(a, b)
    ensures res.Fail? && SameLabels(a, b) ==>
      exists j, i :: FirstMisaligned(a, b, j, i) && res.error == CellError(a, b, a.rows[i], a.cols[j])
  {
    if !SameLabels(a, b) {
      return Fail(LabelsDiffer);
    }
    var j := 0;
    while j < |a.cols|
      invariant 0 <= j <= |a.cols|
      invariant forall j', i' :: 0 <= j' < j && 0 <= i' < |a.rows| ==> AlignedAt(a, b, a.rows[i'], a.cols[j'])
    {
      var column := a.cols[j];
      var i := 0;
      while i < |a.rows|
        invariant 0 <= i <= |a.rows|
        invariant forall i' :: 0 <= i' < i ==> AlignedAt(a, b, a.rows[i'], column)
      {
        var row := a.rows[i];
        if IsNull(a.cells(row, column)) && !IsNull(b.cells(row, column)) {
          assert FirstMisaligned(a, b, j, i);
          return Fail(NullOnlyInA);
        }
        if IsNull(b.cells(row, column)) && !IsNull(a.cells(row, column)) {
          assert FirstMisaligned(a, b, j, i);
          return Fail(NullOnlyInB);
        }
        i := i + 1;
      }
      j := j + 1;
    }
    forall r, c | r in a.rows && c in a.cols
      ensures AlignedAt(a, b, r, c)
    {
      var i' :| 0 <= i' < |a.rows| && a.rows[i'] == r;
      var j' :| 0 <= j' < |a.cols| && a.cols[j'] == c;
      assert AlignedAt(a, b, a.rows[i'], a.cols[j']);
    }
    return Pass;
  }

  /** The first misaligned position is unique, so the error the scan reports is determined. */
  lemma FirstMisalignedUnique<R, C, V>(a: Table<R, C, V>, b: Table<R, C, V>, j: int, i: int, j2: int, i2: int)
    requires FirstMisaligned(a, b, j, i) && FirstMisaligned(a, b, j2, i2)
    ensures j == j2 && i == i2
  {
  }

  /** The outcome does not depend on which table is called A: both checks are symmetric. */
  lemma ComparableSymmetric<R, C, V>(a: Table<R, C, V>, b: Table<R, C, V>)
    ensures Comparable(a, b) <==> Comparable(b, a)
  {
    if Comparable(a, b) {
      forall r, c | r in b.rows && c in b.cols ensures AlignedAt(b, a, r, c) {
        assert r in LabelSet(b.rows) && c in LabelSet(b.cols);
        assert AlignedAt(a, b, r, c);
      }
    }
    if Comparable(b, a) {
      forall r, c | r in a.rows && c in a.cols ensures AlignedAt(a, b, r, c) {
        assert r in LabelSet(a.rows) && c in LabelSet(a.cols);
        assert AlignedAt(b, a, r, c);
      }
    }
  }

  /**
   * Labels are compared as sets, so reordering the row and column labels
   * of either table, keeping the same label sets and cells, does not change
   * whether the validator passes.
   */
  lemma LabelOrderIrrelevant<R, C, V>(a: Table<R, C, V>, b: Table<R, C, V>,
                                              rowsA: seq<R>, colsA: seq<C>, rowsB: seq<R>, colsB: seq<C>)
    requires LabelSet(rowsA) == LabelSet(a.rows) && LabelSet(colsA) == LabelSet(a.cols)
    requires LabelSet(rowsB) == LabelSet(b.rows) && LabelSet(colsB) == LabelSet(b.cols)
    ensures Comparable(a.(rows := rowsA, cols := colsA), b.(rows := rowsB, cols := colsB)) <==> Comparable(a, b)
  {
    var a', b' := a.(rows := rowsA, cols := colsA), b.(rows := rowsB, cols := colsB);
    assert SameLabels(a', b') <==> SameLabels(a, b);
    if Comparable(a, b) {
      forall r, c | r in a'.rows && c in a'.cols ensures AlignedAt(a', b', r, c) {
        assert r in LabelSet(rowsA) && c in LabelSet(colsA);
        assert AlignedAt(a, b, r, c);
      }
    }
    if Comparable(a', b') {
      forall r, c | r in a.rows && c in a.cols ensures AlignedAt(a, b, r, c) {
        assert r in LabelSet(a.rows) && c in LabelSet(a.cols);
        assert AlignedAt(a', b', r, c);
      }
    }
  }

  /**
   * Only where values are missing matters: replacing B's present values by
   * any other present values, same labels, leaves the outcome unchanged.
   */
  lemma PresentValuesNeverCompared<R, C, V>(a: Table<R, C, V>, b: Table<R, C, V>, b': Table<R, C, V>)
    requires b'.rows == b.rows && b'.cols == b.cols
    requires forall r, c :: r in a.rows && c in a.cols ==> (IsNull(b'.cells(r, c)) <==> IsNull(b.cells(r, c)))
    ensures Comparable(a, b') <==> Comparable(a, b)
  {
    assert forall r, c :: r in a.rows && c in a.cols ==> (AlignedAt(a, b', r, c) <==> AlignedAt(a, b, r, c));
  }

  /** Two 100-row tables over columns A and B, all 1 and all 2, pass: values differ, nulls align. */
  lemma AllOnesAgainstAllTwos()
    ensures Comparable(Filled(Range(100), ["A", "B"], 1), Filled(Range(100), ["A", "B"], 2))
    ensures Filled(Range(100), ["A", "B"], 1).cells(0, "A") != Filled(Range(100), ["A", "B"], 2).cells(0, "A")
  {
  }

  /**
   * Every shared position aligns, yet the column label sets differ, so the
   * validator fails.
   */
  lemma ExtraColumnFails()
    ensures NullsAligned(Filled(Range(3), ["A"], 1), Filled(Range(3), ["A", "B"], 1))
    ensures !Comparable(Filled(Range(3), ["A"], 1), Filled(Range(3), ["A", "B"], 1))
  {
    assert "B" in LabelSet(["A", "B"]) && "B" !in LabelSet(["A"]);
  }

  /**
   * A is missing a value at (row 3, column B) where B is not: the first
   * misaligned position is that one and the error names A's null.
   */
  lemma NullOnlyInAReported()
    ensures var a := Table(Range(5), ["A", "B"], (r, c) => if r == 3 && c == "B" then None else Some(1));
            var b := Filled(Range(5), ["A", "B"], 2);
            && !Comparable(a, b)
            && FirstMisaligned(a, b, 1, 3)
            && CellError(a, b, 3, "B") == NullOnlyInA
  {
    var a := Table(Range(5), ["A", "B"], (r, c) => if r == 3 && c == "B" then None else Some(1));
    var b := Filled(Range(5), ["A", "B"], 2);
    assert a.rows[3] == 3 && a.cols[1] == "B";
    assert !AlignedAt(a, b, 3, "B");
  }
}
