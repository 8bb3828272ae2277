/** The arithmetic of rendering a layout: the grid is as many rows as the layout
    and as many columns as its widest row; each plot of a row gets an equal
    block of `ncols // len(row)` adjacent columns, laid out from column 0. */
module Grid {
  import opened Wrappers
  import opened Plots
  import opened Composition

  /** The sub-region one plot is drawn in: columns `colStart` up to, not
      including, `colEnd` of grid row `row`. The plot carries the style
      overrides that are in force while it is drawn. */
  datatype Span = Span(row: nat, colStart: int, colEnd: int, plot: Plot)

  /** The grid handed to the drawing library and every plot's span, row-major. */
  datatype Partition = Partition(nrows: nat, ncols: int, spans: seq<Span>)

  /** The running maximum of the row lengths, started at -1 as the source does. */
  function Widest(rows: Rows): (w: int)
    ensures |rows| == 0 ==> w == -1
    ensures forall i :: 0 <= i < |rows| ==> |rows[i]| <= w
    ensures |rows| > 0 ==> exists i :: 0 <= i < |rows| && |rows[i]| == w
    decreases |rows|
  {
    if |rows| == 0 then -1
    else
      var init := rows[..|rows| - 1];
      var w := Widest(init);
      assert forall i :: 0 <= i < |init| ==> init[i] == rows[i];
      var last := |rows[|rows| - 1]|;
      if w < last then last else w
  }

  /** The column-count loop of the render methods. */
  method ColumnCount(rows: Rows) returns (ncols: int)
    ensures ncols == Widest(rows)
    ensures |rows| == 0 ==> ncols == -1
    ensures forall i :: 0 <= i < |rows| ==> |rows[i]| <= ncols
    ensures |rows| > 0 ==> exists i :: 0 <= i < |rows| && |rows[i]| == ncols
  {
    ncols := -1;
    var k := 0;
    while k < |rows|
      invariant 0 <= k <= |rows|
      invariant ncols == Widest(rows[..k])
    {
      assert rows[..k + 1][..k] == rows[..k];
      if ncols < |rows[k]| {
        ncols := |rows[k]|;
      }
      k := k + 1;
    }
    assert rows[..|rows|] == rows;
  }

  /** The spans of row `i`. Python's `//` floors; for the positive divisor
      `len(row)` that is Dafny's `/`. */
  function RowSpans(i: nat, row: seq<Plot>, ncols: int): (spans: seq<Span>)
    requires |row| > 0
    ensures |spans| == |row|
    ensures forall j :: 0 <= j < |spans| ==>
      && spans[j].row == i && spans[j].plot == row[j]
      && spans[j].colStart == j * (ncols / |row|)
      && spans[j].colEnd == spans[j].colStart + ncols / |row|
  {
    var w := ncols / |row|;
    seq(|row|, j requires 0 <= j < |row| => Span(i, j * w, (j + 1) * w, row[j]))
  }

  /** Column `c` lies in one of the spans. */
  ghost predicate Covered(spans: seq<Span>, c: int)
  {
    exists j :: 0 <= j < |spans| && spans[j].colStart <= c < spans[j].colEnd
  }

  lemma MulMonotone(a: int, b: int, w: int)
    requires a <= b && w >= 0
    ensures a * w <= b * w
  {
  }

  lemma DivisionFacts(ncols: int, n: int)
    requires 0 < n <= ncols
    ensures ncols / n >= 1
    ensures n * (ncols / n) == ncols - ncols % n
    ensures 0 <= ncols % n < n
  {
  }

  /** Span `j` of a row holds plot `j` of that row, on that grid row, and is
      `ncols // len(row)` columns wide. */
  lemma RowSpansShape(i: nat, row: seq<Plot>, ncols: int)
    requires 0 < |row| <= ncols
    ensures var s := RowSpans(i, row, ncols);
      && |s| == |row|
      && (forall j :: 0 <= j < |s| ==> s[j].row == i && s[j].plot == row[j])
      && (forall j :: 0 <= j < |s| ==> s[j].colEnd - s[j].colStart == ncols / |row|)
  {
  }

  /** Every span of a row is a non-empty block of columns inside the grid. */
  lemma RowSpansInside(i: nat, row: seq<Plot>, ncols: int)
    requires 0 < |row| <= ncols
    ensures var s := RowSpans(i, row, ncols);
      forall j :: 0 <= j < |s| ==> 0 <= s[j].colStart < s[j].colEnd <= ncols
  {
    var s := RowSpans(i, row, ncols);
    var n := |row|;
    var w := ncols / n;
    DivisionFacts(ncols, n);
    forall j | 0 <= j < n
      ensures 0 <= s[j].colStart < s[j].colEnd <= ncols
    {
      MulMonotone(0, j, w);
      MulMonotone(j + 1, n, w);
      assert (j + 1) * w == j * w + w;
    }
  }

  /** The spans of a row are in column order and pairwise disjoint. */
  lemma RowSpansOrdered(i: nat, row: seq<Plot>, ncols: int)
    requires 0 < |row| <= ncols
    ensures var s := RowSpans(i, row, ncols);
      forall j, k :: 0 <= j < k < |s| ==> s[j].colEnd <= s[k].colStart
  {
    var s := RowSpans(i, row, ncols);
    var w := ncols / |row|;
    forall j, k | 0 <= j < k < |s|
      ensures s[j].colEnd <= s[k].colStart
    {
      MulMonotone(j + 1, k, w);
    }
  }

  /** Within a row whose length is at most the column count, every span is a
      non-empty block of `ncols // len(row)` columns inside the grid, the spans
      are strictly increasing and pairwise disjoint, and span `j` holds plot `j`. */
  lemma RowSpansWellFormed(i: nat, row: seq<Plot>, ncols: int)
    requires 0 < |row| <= ncols
    ensures var s := RowSpans(i, row, ncols);
      && |s| == |row|
      && (forall j :: 0 <= j < |s| ==> s[j].row == i && s[j].plot == row[j])
      && (forall j :: 0 <= j < |s| ==> 0 <= s[j].colStart < s[j].colEnd <= ncols)
      && (forall j :: 0 <= j < |s| ==> s[j].colEnd - s[j].colStart == ncols / |row|)
      && (forall j, k :: 0 <= j < k < |s| ==> s[j].colEnd <= s[k].colStart)
  {
    RowSpansShape(i, row, ncols);
    RowSpansInside(i, row, ncols);
    RowSpansOrdered(i, row, ncols);
  }

  /** The spans of a row cover exactly the columns before `ncols - ncols % len(row)`:
      when the length does not divide the column count, the rightmost
      `ncols % len(row)` columns of the row stay empty. */
  lemma RowCoverage(i: nat, row: seq<Plot>, ncols: int, c: int)
    requires 0 < |row| <= ncols
    ensures Covered(RowSpans(i, row, ncols), c) <==> 0 <= c < ncols - ncols % |row|
  {
    var s := RowSpans(i, row, ncols);
    var n := |row|;
    var w := ncols / n;
    DivisionFacts(ncols, n);
    RowSpansWellFormed(i, row, ncols);
    if Covered(s, c) {
      var j :| 0 <= j < |s| && s[j].colStart <= c < s[j].colEnd;
      MulMonotone(j + 1, n, w);
    }
    if 0 <= c < ncols - ncols % n {
      var j := c / w;
      assert c == j * w + c % w;
      assert 0 <= j;
      if j >= n {
        MulMonotone(n, j, w);
        assert false;
      }
      assert s[j].colStart <= c < s[j].colEnd;
    }
  }

  /** A row's spans cover the whole grid width if and only if its length divides the column count. */
  lemma ExactCoverIffDivides(i: nat, row: seq<Plot>, ncols: int)
    requires 0 < |row| <= ncols
    ensures (forall c :: 0 <= c < ncols ==> Covered(RowSpans(i, row, ncols), c)) <==> ncols % |row| == 0
  {
    var s := RowSpans(i, row, ncols);
    DivisionFacts(ncols, |row|);
    if ncols % |row| == 0 {
      forall c | 0 <= c < ncols
        ensures Covered(s, c)
      {
        RowCoverage(i, row, ncols, c);
      }
    } else {
      RowCoverage(i, row, ncols, ncols - 1);
    }
  }

  /** The spans of the first `n` rows, row-major. */
  function Place(rows: Rows, ncols: int, n: nat): (spans: seq<Span>)
    requires n <= |rows|
    requires forall i :: 0 <= i < n ==> |rows[i]| > 0
  {
    if n == 0 then [] else Place(rows, ncols, n - 1) + RowSpans(n - 1, rows[n - 1], ncols)
  }

  /** The reference partition: a ZeroDivisionError if any row is empty,
      otherwise the grid size and the spans of every row. */
  function Partitioned(rows: Rows): (r: Result<Partition>)
  {
    if exists i :: 0 <= i < |rows| && |rows[i]| == 0 then Err(ZeroDivisionError)
    else Ok(Partition(|rows|, Widest(rows), Place(rows, Widest(rows), |rows|)))
  }

  /** The plots the spans are given to, in span order. */
  function PlotsOf(spans: seq<Span>): (plots: seq<Plot>)
    ensures |plots| == |spans|
  {
    seq(|spans|, k requires 0 <= k < |spans| => spans[k].plot)
  }

  /** The spans of the first `n` rows lie inside the grid, in row-major order and
      pairwise disjoint, and they hand out the plots of those rows in reading order. */
  lemma {:induction false} PlaceWellFormed(rows: Rows, ncols: int, n: nat)
    requires n <= |rows|
    requires forall i :: 0 <= i < n ==> 0 < |rows[i]| <= ncols
    ensures var p := Place(rows, ncols, n);
      && (forall k :: 0 <= k < |p| ==> p[k].row < n && 0 <= p[k].colStart < p[k].colEnd <= ncols)
      && (forall k, m :: 0 <= k < m < |p| ==>
            p[k].row < p[m].row || (p[k].row == p[m].row && p[k].colEnd <= p[m].colStart))
      && PlotsOf(p) == Flatten(rows[..n])
    decreases n
  {
    if n > 0 {
      PlaceWellFormed(rows, ncols, n - 1);
      RowSpansWellFormed(n - 1, rows[n - 1], ncols);
      var a := Place(rows, ncols, n - 1);
      var b := RowSpans(n - 1, rows[n - 1], ncols);
      var p := a + b;
      assert rows[..n][..n - 1] == rows[..n - 1];
      assert Flatten(rows[..n]) == Flatten(rows[..n - 1]) + rows[n - 1];
      assert PlotsOf(b) == rows[n - 1];
      assert PlotsOf(p) == PlotsOf(a) + PlotsOf(b);
      forall k, m | 0 <= k < m < |p|
        ensures p[k].row < p[m].row || (p[k].row == p[m].row && p[k].colEnd <= p[m].colStart)
      {
        if m < |a| {
        } else if k < |a| {
          assert p[m] == b[m - |a|];
        } else {
          assert p[k] == b[k - |a|] && p[m] == b[m - |a|];
        }
      }
    }
  }

  /** The partition of a layout without empty rows: one span per plot, in reading
      order, inside the `len(layout) x widest-row` grid, in row-major order and
      pairwise disjoint; the grid fails exactly when some row is empty. */
  lemma PartitionWellFormed(rows: Rows)
    ensures Partitioned(rows).Err? <==> exists i :: 0 <= i < |rows| && |rows[i]| == 0
    ensures Partitioned(rows).Err? ==> Partitioned(rows).error == ZeroDivisionError
    ensures Partitioned(rows).Ok? ==>
      var p := Partitioned(rows).value;
      && p.nrows == |rows|
      && p.ncols == Widest(rows)
      && PlotsOf(p.spans) == Flatten(rows)
      && (forall k :: 0 <= k < |p.spans| ==>
            p.spans[k].row < p.nrows && 0 <= p.spans[k].colStart < p.spans[k].colEnd <= p.ncols)
      && (forall k, m :: 0 <= k < m < |p.spans| ==>
            p.spans[k].row < p.spans[m].row
            || (p.spans[k].row == p.spans[m].row && p.spans[k].colEnd <= p.spans[m].colStart))
  {
    if Partitioned(rows).Ok? {
      PlaceWellFormed(rows, Widest(rows), |rows|);
      assert rows[..|rows|] == rows;
    }
  }

  /** The render loops of the source: count the columns, then walk the rows and
      their cells, stopping with a ZeroDivisionError at the first empty row. */
  method PartitionGrid(rows: Rows) returns (r: Result<Partition>)
    ensures r == Partitioned(rows)
  {
    var ncols := ColumnCount(rows);
    var spans: seq<Span> := [];
    var i := 0;
    while i < |rows|
      invariant 0 <= i <= |rows|
      invariant forall k :: 0 <= k < i ==> |rows[k]| > 0
      invariant spans == Place(rows, ncols, i)
    {
      var row := rows[i];
      if |row| == 0 {
        return Err(ZeroDivisionError);
      }
      var w := ncols / |row|;
      var j := 0;
      while j < |row|
        invariant 0 <= j <= |row|
        invariant spans == Place(rows, ncols, i) + RowSpans(i, row, ncols)[..j]
      {
        assert RowSpans(i, row, ncols)[..j + 1] == RowSpans(i, row, ncols)[..j] + [Span(i, j * w, (j + 1) * w, row[j])];
        spans := spans + [Span(i, j * w, (j + 1) * w, row[j])];
        j := j + 1;
      }
      assert RowSpans(i, row, ncols)[..|row|] == RowSpans(i, row, ncols);
      i := i + 1;
    }
    return Ok(Partition(|rows|, ncols, spans));
  }

  /** Row lengths `[1, 2]`: the single plot of row 0 spans both columns, the two
      plots of row 1 one column each. */
  lemma RaggedExample(a: Plot, b: Plot, c: Plot)
    ensures Partitioned([[a], [b, c]]) == Ok(Partition(2, 2, [Span(0, 0, 2, a), Span(1, 0, 1, b), Span(1, 1, 2, c)]))
  {
    var rows := [[a], [b, c]];
    assert Widest(rows[..1]) == 1;
    assert Widest(rows) == 2;
    assert !exists i :: 0 <= i < |rows| && |rows[i]| == 0;
    assert RowSpans(0, [a], 2) == [Span(0, 0, 2, a)];
    assert RowSpans(1, [b, c], 2) == [Span(1, 0, 1, b), Span(1, 1, 2, c)];
    assert Place(rows, 2, 1) == Place(rows, 2, 0) + RowSpans(0, rows[0], 2);
    assert Place(rows, 2, 1) == [Span(0, 0, 2, a)];
    assert Place(rows, 2, 2) == Place(rows, 2, 1) + RowSpans(1, rows[1], 2);
    assert Place(rows, 2, 2) == [Span(0, 0, 2, a), Span(1, 0, 1, b), Span(1, 1, 2, c)];
    assert Partitioned(rows) == Ok(Partition(2, 2, Place(rows, 2, 2)));
  }

  /** Row lengths `[3, 2]`: row 1 gets `3 // 2 == 1` column per plot, so its third column stays empty. */
  lemma NonDivisibleExample(a: Plot, b: Plot, c: Plot, d: Plot, e: Plot)
    ensures Partitioned([[a, b, c], [d, e]]) ==
      Ok(Partition(2, 3, [Span(0, 0, 1, a), Span(0, 1, 2, b), Span(0, 2, 3, c), Span(1, 0, 1, d), Span(1, 1, 2, e)]))
  {
    var rows := [[a, b, c], [d, e]];
    assert Widest(rows[..1]) == 3;
    assert Widest(rows) == 3;
    assert !exists i :: 0 <= i < |rows| && |rows[i]| == 0;
    assert RowSpans(0, [a, b, c], 3) == [Span(0, 0, 1, a), Span(0, 1, 2, b), Span(0, 2, 3, c)];
    assert RowSpans(1, [d, e], 3) == [Span(1, 0, 1, d), Span(1, 1, 2, e)];
    assert Place(rows, 3, 1) == Place(rows, 3, 0) + RowSpans(0, rows[0], 3);
    assert Place(rows, 3, 1) == [Span(0, 0, 1, a), Span(0, 1, 2, b), Span(0, 2, 3, c)];
    assert Place(rows, 3, 2) == Place(rows, 3, 1) + RowSpans(1, rows[1], 3);
    assert Place(rows, 3, 2) == [Span(0, 0, 1, a), Span(0, 1, 2, b), Span(0, 2, 3, c), Span(1, 0, 1, d), Span(1, 1, 2, e)];
    assert Partitioned(rows) == Ok(Partition(2, 3, Place(rows, 3, 2)));
  }
}
