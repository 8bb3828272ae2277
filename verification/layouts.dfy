/** The exported classes of src/escodrinyar/layout.py: a layout's options are a
    figure size and optional width and height ratios, a new layout gets the
    `opts()` defaults, and `plot` partitions the canvas with those options. The
    operators are the shared algebra of `Composition`, given these defaults. */
module Layouts {
  import opened Wrappers
  import opened Plots
  import opened Composition
  import opened Grid

  /** The canvas options `opts` stores; the ratios go to the gridspec unchecked. */
  datatype Options = Options(figsize: Figsize, widthRatios: Option<seq<real>>, heightRatios: Option<seq<real>>)

  /** `opts()` with every argument defaulted, as `__init__` calls it. */
  const DefaultOptions: Options := Options(DefaultFigsize, None, None)

  type Layout = Composition.Layout<Options>

  /** `Layout(rows)`. */
  function New(rows: Rows): (r: Layout)
    ensures r.rows == rows && r.options == DefaultOptions
    ensures r.options.figsize == DefaultFigsize && r.options.widthRatios.None? && r.options.heightRatios.None?
  {
    Composition.Layout(rows, DefaultOptions)
  }

  /** `Layout.opts`: all three options are overwritten, the rows kept. */
  function Opts(self: Layout, figsize: Figsize, widthRatios: Option<seq<real>>, heightRatios: Option<seq<real>>): (r: Layout)
    ensures r.rows == self.rows && r.options == Options(figsize, widthRatios, heightRatios)
  {
    self.(options := Options(figsize, widthRatios, heightRatios))
  }

  /** `Plot.opts`: the plot lifted to a 1x1 layout with the given figure size and no ratios. */
  function PlotOpts(self: Plot, figsize: Figsize): (r: Layout)
    ensures r.rows == [[self]] && r.options == Options(figsize, None, None)
  {
    Opts(New([[self]]), figsize, None, None)
  }

  /** The last `opts` call wins: it overwrites every option set before it, and
      `opts()` with its defaults gives back a new layout of the same rows. */
  lemma OptsLastCallWins(l: Layout, f1: Figsize, w1: Option<seq<real>>, h1: Option<seq<real>>,
                         f2: Figsize, w2: Option<seq<real>>, h2: Option<seq<real>>)
    ensures Opts(Opts(l, f1, w1, h1), f2, w2, h2) == Opts(l, f2, w2, h2)
    ensures Opts(l, f2, w2, h2).rows == l.rows && Opts(l, f2, w2, h2).options == Options(f2, w2, h2)
    ensures Opts(l, DefaultFigsize, None, None) == New(l.rows)
  {
  }

  /** Options set with `opts` on an operand do not survive `+` or `|`: the
      result is a new layout with the defaults. */
  lemma OptsLostByComposition(l: Layout, b: LayoutOperand<Options>, f: Figsize, w: Option<seq<real>>, h: Option<seq<real>>)
    ensures Plus(Composite(Opts(l, f, w, h)), b, DefaultOptions) == Plus(Composite(l), b, DefaultOptions)
    ensures Pipe(Composite(Opts(l, f, w, h)), b, DefaultOptions) == Pipe(Composite(l), b, DefaultOptions)
    ensures Plus(Composite(l), b, DefaultOptions).Ok? ==>
      Plus(Composite(l), b, DefaultOptions) == Ok(New(Plus(Composite(l), b, DefaultOptions).value.rows))
    ensures Pipe(Composite(l), b, DefaultOptions).Ok? ==>
      Pipe(Composite(l), b, DefaultOptions) == Ok(New(Pipe(Composite(l), b, DefaultOptions).value.rows))
  {
  }

  /** What `Layout.plot` hands the drawing library: the canvas options and the
      grid partition, each span drawn under its plot's style overrides. */
  datatype Figure = Figure(figsize: Figsize, widthRatios: Option<seq<real>>, heightRatios: Option<seq<real>>, grid: Partition)

  /** `Layout.plot`, without the drawing: the grid of the rows with the stored
      options, or the ZeroDivisionError an empty row raises. */
  function Render(self: Layout): (r: Result<Figure>)
    ensures r.Err? <==> exists i :: 0 <= i < |self.rows| && |self.rows[i]| == 0
    ensures r.Err? ==> r.error == ZeroDivisionError
    ensures r.Ok? ==> r.value.figsize == self.options.figsize
    ensures r.Ok? ==> r.value.widthRatios == self.options.widthRatios && r.value.heightRatios == self.options.heightRatios
    ensures r.Ok? ==> r.value.grid.nrows == |self.rows| && r.value.grid.ncols == Widest(self.rows)
    ensures r.Ok? ==> PlotsOf(r.value.grid.spans) == Flatten(self.rows)
    ensures r.Ok? ==> r.value.grid == Partitioned(self.rows).value
  {
    PartitionWellFormed(self.rows);
    match Partitioned(self.rows)
    case Ok(grid) => Ok(Figure(self.options.figsize, self.options.widthRatios, self.options.heightRatios, grid))
    case Err(e) => Err(e)
  }

  /** `Plot.plot`: a single plot is drawn alone, on the whole 1x1 grid. */
  lemma RenderPlot(p: Plot)
    ensures Render(New([[p]])) == Ok(Figure(DefaultFigsize, None, None, Partition(1, 1, [Span(0, 0, 1, p)])))
  {
    var rows := [[p]];
    assert Widest(rows[..0]) == -1;
    assert Widest(rows) == 1;
    assert RowSpans(0, [p], 1) == [Span(0, 0, 1, p)];
    assert Place(rows, 1, 1) == Place(rows, 1, 0) + RowSpans(0, rows[0], 1);
    assert Place(rows, 1, 1) == [Span(0, 0, 1, p)];
    assert !exists i :: 0 <= i < |rows| && |rows[i]| == 0;
    assert Partitioned(rows) == Ok(Partition(1, 1, [Span(0, 0, 1, p)]));
  }
}
