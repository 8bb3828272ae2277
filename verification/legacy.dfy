/** The older copy of the classes in src/escodrinyar/plot.py, which the package
    does not export. Its operators are the shared algebra of `Composition`; its
    options are a column count and a figure size, and it renders only through
    `_repr_png_`, without width or height ratios. The agreement lemmas show that
    it composes and partitions exactly as the exported classes do. */
module LegacyLayouts {
  import opened Wrappers
  import opened Plots
  import opened Composition
  import opened Grid
  import Layouts

  /** What this version's `opts` stores. `ncols` is stored and never read. */
  datatype Options = Options(ncols: int, figsize: Figsize)

  /** `opts()` with its defaults `ncols=-1, figsize=(5, 5)`, as `__init__` calls it. */
  const DefaultOptions: Options := Options(-1, DefaultFigsize)

  type Layout = Composition.Layout<Options>

  /** `Layout(rows)`. */
  function New(rows: Rows): (r: Layout)
    ensures r.rows == rows && r.options == DefaultOptions
    ensures r.options.ncols == -1 && r.options.figsize == DefaultFigsize
  {
    Composition.Layout(rows, DefaultOptions)
  }

  /** `Layout.opts(ncols, figsize)`: both stored, the rows kept. */
  function Opts(self: Layout, ncols: int, figsize: Figsize): (r: Layout)
    ensures r.rows == self.rows && r.options == Options(ncols, figsize)
  {
    self.(options := Options(ncols, figsize))
  }

  /** What `_repr_png_` hands the drawing library before encoding: the figure
      size and the grid partition (no ratios). */
  datatype Figure = Figure(figsize: Figsize, grid: Partition)

  /** `Layout._repr_png_`, without the drawing and the encoding. The column
      count is the widest row's, whatever `opts` stored. */
  function ReprPng(self: Layout): (r: Result<Figure>)
    ensures r.Err? <==> exists i :: 0 <= i < |self.rows| && |self.rows[i]| == 0
    ensures r.Err? ==> r.error == ZeroDivisionError
    ensures r.Ok? ==> r.value.figsize == self.options.figsize
    ensures r.Ok? ==> r.value.grid.nrows == |self.rows| && r.value.grid.ncols == Widest(self.rows)
    ensures r.Ok? ==> PlotsOf(r.value.grid.spans) == Flatten(self.rows)
    ensures r.Ok? ==> r.value.grid == Partitioned(self.rows).value
  {
    PartitionWellFormed(self.rows);
    match Partitioned(self.rows)
    case Ok(grid) => Ok(Figure(self.options.figsize, grid))
    case Err(e) => Err(e)
  }

  /** `Plot._repr_png_`: the plot rendered as a 1x1 layout. */
  function PlotReprPng(self: Plot): (r: Result<Figure>)
    ensures r == Ok(Figure(DefaultFigsize, Partition(1, 1, [Span(0, 0, 1, self)])))
  {
    Layouts.RenderPlot(self);
    ReprPng(New([[self]]))
  }

  /** The `ncols` stored by `opts` never reaches the grid: only the figure size does. */
  lemma StoredColumnCountIgnored(l: Layout, ncols: int, figsize: Figsize)
    ensures ReprPng(Opts(l, ncols, figsize)).Ok? <==> ReprPng(l).Ok?
    ensures ReprPng(l).Ok? ==>
      ReprPng(Opts(l, ncols, figsize)).value == ReprPng(l).value.(figsize := figsize)
    ensures ReprPng(l).Ok? ==> ReprPng(l).value.grid.ncols == Widest(l.rows)
  {
  }

  /** The exported options with the same figure size and no ratios. */
  function Upgrade(o: Options): (u: Layouts.Options)
    ensures u.figsize == o.figsize && u.widthRatios.None? && u.heightRatios.None?
  {
    Layouts.Options(o.figsize, None, None)
  }

  /** A new layout of this version is, once its options are translated, a new
      exported layout: the two `opts()` defaults share the figure size and the
      exported ones set no ratios. */
  lemma UpgradeNew(rows: Rows)
    ensures Relabel(New(rows), Upgrade) == Layouts.New(rows)
    ensures Upgrade(DefaultOptions) == Layouts.DefaultOptions
  {
  }

  /** Both copies of `+` agree on every pair of operands, errors included: a
      fresh layout of this version is a fresh exported layout. */
  lemma PlusAgrees(a: LayoutOperand<Options>, b: LayoutOperand<Options>)
    ensures RelabelResult(Plus(a, b, DefaultOptions), Upgrade)
         == Plus(RelabelOperand(a, Upgrade), RelabelOperand(b, Upgrade), Layouts.DefaultOptions)
  {
    PlusRelabel(a, b, DefaultOptions, Upgrade);
  }

  /** Both copies of `|` agree on every pair of operands, errors included. */
  lemma PipeAgrees(a: LayoutOperand<Options>, b: LayoutOperand<Options>)
    ensures RelabelResult(Pipe(a, b, DefaultOptions), Upgrade)
         == Pipe(RelabelOperand(a, Upgrade), RelabelOperand(b, Upgrade), Layouts.DefaultOptions)
  {
    PipeRelabel(a, b, DefaultOptions, Upgrade);
  }

  /** `_repr_png_` partitions the canvas exactly as the exported `plot` does,
      with the same figure size, and fails on the same layouts. */
  lemma ReprPngAgrees(l: Layout)
    ensures ReprPng(l).Ok? <==> Layouts.Render(Relabel(l, Upgrade)).Ok?
    ensures ReprPng(l).Err? ==> ReprPng(l).error == Layouts.Render(Relabel(l, Upgrade)).error
    ensures ReprPng(l).Ok? ==>
      var f := Layouts.Render(Relabel(l, Upgrade)).value;
      ReprPng(l).value == Figure(f.figsize, f.grid) && f.widthRatios == None && f.heightRatios == None
  {
  }
}
