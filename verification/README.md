# escodrinyar layout algebra in Dafny

escodrinyar composes seaborn plots into one matplotlib figure. Plots are combined
with three operators. `+` puts plots side by side in a row. `|` stacks rows. `*`
overlays the layers of two plots. A `Layout` is a list of rows, each a list of
plots, and rendering it cuts the figure into a grid. This project models that
algebra and the grid arithmetic as pure functions over immutable values, and
proves what they guarantee.

- `Plots` (plots.dfy): a `Plot` is an opaque seaborn handle plus its matplotlib
  style overrides (`rc_params`, a `map<string, string>`). The module holds `*`,
  the builder methods `add`/`theme`/`facet`/`pair`/`label`, and builder chains.
  The seaborn handle is seen only through its source data, its layer list and
  the configuration calls made on it. `add` appends one layer, and every other
  builder records its call. `*` also assigns to its left operand's `rc_params`.
  The model returns that updated left plot next to the product (`Product`).
- `Composition` (composition.dfy): the operator algebra both files share. A
  layout is `Layout<O>`: its rows plus an option record `O`, which is the one
  thing the two classes define differently. `+`, `|` and `*` and the `Plot`
  operators that build layouts are defined once here, generic in `O`, and take
  as a parameter the options a new `Layout(rows)` gets. The module also holds
  reading-order flattening and the lemmas that translating the options
  commutes with `+` and `|`.
- `Grid` (grid.dfy): the render arithmetic. There are `len(layout)` grid rows
  and as many columns as the widest row (a running maximum that starts at -1).
  Plot `j` of a row of `n` plots gets columns `[j*w, (j+1)*w)` with
  `w = ncols // n`. The result is a row-major list of spans. The module also
  proves bounds, disjointness and exact coverage.
- `Layouts` (layouts.dfy): the exported classes of `src/escodrinyar/layout.py`:
  their options (figure size, width and height ratios), `opts` and `plot`. Its
  operators are those of `Composition` with these defaults. Python's exceptions
  are `Result` errors. `IndexError` is row 0 of a layout without rows. `+`
  reads the left layout's row 0 first, so an empty left layout gives IndexError
  even when the right operand is not a plot or layout (`EmptyLayoutPlusForeign`).
  `AttributeError` is a foreign operand: one that is neither a Plot nor a
  Layout and has no `layout` attribute, so reading `other.layout` fails. `ValueError` is `Plot * x` for a non-Plot `x`. `TypeError` comes
  from a left operand whose class lacks the operator. `ZeroDivisionError` is an
  empty row at render time.
- `LegacyLayouts` (legacy.dfy): the unexported older copy in
  `src/escodrinyar/plot.py`. Its operators (plot.py:23-34 and 91-101) are the
  `Composition` definitions given this class's options, `ncols` and
  `figsize`. It adds `opts(ncols, figsize)` and `_repr_png_`, and lemmas prove
  that both copies compose and partition identically. Its `Plot` class
  repeats `*` and the builders of layout.py line for line (plot.py:103-168), so `Plots` serves both files.

Behaviour worth knowing, as the code has it:

- `+` always gives one row: the left first row, then the right first row. Every
  later row of either operand is dropped (`PlusDropsLaterRows`).
- Every layout an operator builds is a new `Layout(rows)`, so it carries the
  default options (figsize `(5, 5)`, no ratios). This holds whatever options the
  operands had (`CompositionForgetsOptions`, `OptsLostByComposition`).
- Each row's plots get `ncols // len(row)` columns each. When the row length
  does not divide the column count, the rightmost `ncols % len(row)` columns of
  that row stay empty (`RowCoverage`).
- `*` with a layout raises ValueError when a plot is on the left, and TypeError
  when a layout is on the left, because no class defines `__rmul__` (`Times`).
- `Plot.theme(config)` hands the seaborn handle the receiver's old overrides,
  not `config`. `config` only enters `rc_params`.

## Model

| member | source | states |
|---|---|---|
| Plots.Mul | src/escodrinyar/layout.py:125-135 | `p * q` has `p`'s layers then `q`'s, and overrides that merge both with `q` winning. The left plot is rebound to the merged overrides, and its handle is untouched. Any non-Plot operand gives ValueError. |
| Plots.RightBiasedIsUnion | src/escodrinyar/layout.py:130 | The `{**a, **b}` merge is exactly one map: the union with `b`'s values winning. |
| Plots.MulAssociative | src/escodrinyar/layout.py:125-133 | `(a * b) * c` and `a * (b * c)` have the same layers and the same style overrides. |
| Plots.MulExample | src/escodrinyar/layout.py:125-133 | `{x:1} * {x:2, y:3}` gives `{x:2, y:3}`, on the product and on the rebound left plot. |
| Plots.FromData | src/escodrinyar/layout.py:103-111 | A new plot has no layers, no recorded settings and no style overrides. |
| Plots.AddLayer | src/escodrinyar/layout.py:144-156 | `add` appends exactly one layer and carries the overrides over unchanged. |
| Plots.Theme | src/escodrinyar/layout.py:158-164 | `theme(config)` gives the receiver's overrides updated by `config`, with `config` winning. The handle is themed with the old overrides. |
| Plots.Facet | src/escodrinyar/layout.py:166-175 | `facet` carries the overrides and the layers over unchanged. |
| Plots.Pair | src/escodrinyar/layout.py:177-186 | `pair` carries the overrides and the layers over unchanged. |
| Plots.Label | src/escodrinyar/layout.py:188-194 | `label` carries the overrides and the layers over unchanged. |
| Plots.OverridesAfterChain | src/escodrinyar/layout.py:144-194 | After any chain of builder calls, the overrides are the starting ones updated by each `theme` config in call order. |
| Plots.LayersAfterChain | src/escodrinyar/layout.py:144-194 | After any chain of builder calls, the layers are the starting ones followed by those that `add` contributed, in order. |
| Composition.FlattenConcat | src/escodrinyar/layout.py:33 | Concatenating row lists keeps every plot, in reading order. |
| Grid.Widest | src/escodrinyar/layout.py:44-48 | The column count is -1 for a layout without rows. Otherwise it is the length of some row and at least every row's length. |
| Grid.ColumnCount | src/escodrinyar/layout.py:44-48 | The source's running-maximum loop computes exactly that column count. |
| Grid.RowSpans | src/escodrinyar/layout.py:61-64 | Row `i` of length `n` gives one span per plot. Plot `j` is on grid row `i`, starts at column `j * (ncols // n)` and is `ncols // n` columns wide. |
| Grid.RowSpansShape | src/escodrinyar/layout.py:61-64 | A row gives one span per plot. Span `j` sits on that grid row, holds plot `j` and is `ncols // len(row)` columns wide. |
| Grid.RowSpansInside | src/escodrinyar/layout.py:61-64 | When a row is no longer than the column count, every span is a non-empty column block inside `[0, ncols)`. |
| Grid.RowSpansOrdered | src/escodrinyar/layout.py:61-64 | A row's spans are in column order and pairwise disjoint. |
| Grid.RowSpansWellFormed | src/escodrinyar/layout.py:61-64 | In a non-empty row, each span is `ncols // len(row)` columns wide (at least one) and lies inside `[0, ncols)`. Spans are strictly increasing and pairwise disjoint, and span `j` holds plot `j`. |
| Grid.RowCoverage | src/escodrinyar/layout.py:61-64 | A row's spans cover exactly columns `[0, ncols - ncols % len(row))`, so the rightmost remainder columns stay empty. |
| Grid.ExactCoverIffDivides | src/escodrinyar/layout.py:61-64 | A row's spans cover all `ncols` columns if and only if `len(row)` divides `ncols`. |
| Grid.PlaceWellFormed | src/escodrinyar/layout.py:61-64 | The spans of the first `n` rows are inside the grid, row-major and pairwise disjoint. They hand out those rows' plots in reading order. |
| Grid.PartitionWellFormed | src/escodrinyar/layout.py:43-64 | The grid fails with ZeroDivisionError exactly when some row is empty. Otherwise it is `len(rows)` by the widest row, with one span per plot, in reading order, in row-major order and pairwise disjoint. |
| Grid.PartitionGrid | src/escodrinyar/layout.py:43-64 | The source's nested render loops give exactly the reference partition, or stop at the first empty row. |
| Grid.RaggedExample | src/escodrinyar/layout.py:43-64 | With row lengths `[1, 2]`, the single plot spans both columns and the two plots get one column each. |
| Grid.NonDivisibleExample | src/escodrinyar/layout.py:61-64 | With row lengths `[3, 2]`, row 1 gets one column per plot and its third column stays empty. |
| Composition.LayoutAdd | src/escodrinyar/layout.py:22-27 | `layout + x` is one row: row 0 of the layout, then row 0 of `x` (a plot is lifted to `[[p]]`), with the options of a new layout. A receiver without rows gives IndexError whatever `x` is. Otherwise a foreign `x` gives AttributeError and an `x` without rows gives IndexError. |
| Composition.LayoutOr | src/escodrinyar/layout.py:29-33 | `layout \| x` is the layout's rows followed by `x`'s rows (a plot is one single-cell row), with the options of a new layout. A foreign operand gives AttributeError. |
| Composition.PlotAdd | src/escodrinyar/layout.py:113-117 | `p + q` is `[[p, q]]`. `p + layout` puts `p` in front of the layout's first row only, and a layout without rows gives IndexError. |
| Composition.PlotOr | src/escodrinyar/layout.py:119-123 | `p \| q` is `[[p], [q]]`, and `p \| layout` puts the row `[p]` above the layout's rows. |
| Composition.Plus | src/escodrinyar/layout.py:22-27 | Python's `a + b` on plots and layouts is the join of their lifted first rows. A foreign left operand gives TypeError. An empty left layout gives IndexError, even with a foreign right operand. Otherwise a foreign right operand gives AttributeError, and an empty right layout gives IndexError. |
| Composition.Pipe | src/escodrinyar/layout.py:29-33 | Python's `a \| b` on plots and layouts is the concatenation of their lifted rows. |
| Composition.Times | src/escodrinyar/layout.py:125-135 | `a * b` succeeds only for two plots. With a plot on the left it is exactly `Plot.__mul__`, so a plot times anything else gives ValueError. A layout or foreign value on the left gives TypeError. |
| Composition.PlotPlusPlot | src/escodrinyar/layout.py:113-115 | Python's `a + b` of two plots is the one-row layout `[[a, b]]`. |
| Composition.PlotPipePlot | src/escodrinyar/layout.py:119-121 | Python's `a \| b` of two plots is the two-row layout `[[a], [b]]`. |
| Composition.PlusDropsLaterRows | src/escodrinyar/layout.py:24-27 | Adding a plot to a layout of two or more rows gives the single row `row0 + [p]`. Every later row is gone. |
| Composition.PlusAssociative | src/escodrinyar/layout.py:22-27 | `(a + b) + c` and `a + (b + c)` fail together and are otherwise the same layout. |
| Composition.PipeKeepsEveryPlot | src/escodrinyar/layout.py:29-33 | `a \| b` never fails on plots and layouts. It keeps every plot in reading order and adds the row counts. |
| Composition.PipeAssociative | src/escodrinyar/layout.py:29-33 | `(a \| b) \| c` equals `a \| (b \| c)`. |
| Composition.EmptyLayoutPlusForeign | src/escodrinyar/layout.py:22-33 | `Layout([]) + x` raises IndexError at the receiver's row 0 even for a foreign `x`. A receiver with rows, or a plot, gives AttributeError for a foreign `x`, and so does `\|` whatever the receiver. |
| Composition.CompositionForgetsOptions | src/escodrinyar/layout.py:18-33 | The options set on either operand of `+` or `\|` do not reach the result. |
| Composition.PlusRelabel | src/escodrinyar/layout.py:22-27 | Two classes whose layouts differ only in their option records compose identically under `+`, errors included, once the options are translated. |
| Composition.PipeRelabel | src/escodrinyar/layout.py:29-33 | The same for `\|`: translating the options commutes with stacking rows. |
| Layouts.New | src/escodrinyar/layout.py:18-20 | `Layout(rows)` keeps the rows and applies the `opts()` defaults: figsize `(5, 5)`, no width or height ratios. |
| Layouts.Opts | src/escodrinyar/layout.py:92-97 | `opts(figsize, width_ratios, height_ratios)` keeps the rows and stores exactly the three given options. |
| Layouts.OptsLastCallWins | src/escodrinyar/layout.py:93-98 | `opts` overwrites all three options and keeps the rows. The last call wins, and `opts()` with defaults gives back a new layout of the same rows. |
| Layouts.OptsLostByComposition | src/escodrinyar/layout.py:18-33 | `opts` set on the left operand of `+` or `\|` changes nothing in the result, which carries the exported defaults. |
| Layouts.PlotOpts | src/escodrinyar/layout.py:207-208 | `Plot.opts(figsize)` is the 1x1 layout of the plot with that size and no ratios. |
| Layouts.Render | src/escodrinyar/layout.py:43-73 | `plot()` partitions the grid under the stored figure size and ratios, one span per plot in reading order. The grid is exactly the reference partition, so plot `j` of row `i` gets columns `[j*w, (j+1)*w)` with `w = ncols // len(row)`. It raises ZeroDivisionError exactly when some row is empty. |
| Layouts.RenderPlot | src/escodrinyar/layout.py:198-199 | `Plot.plot()` draws the plot alone on a 1x1 grid of the default size. |
| LegacyLayouts.ReprPng | src/escodrinyar/plot.py:36-58 | `_repr_png_` partitions the widest-row grid with the stored figure size. The grid is exactly the reference partition, so plot `j` of row `i` gets columns `[j*w, (j+1)*w)`. It raises ZeroDivisionError exactly when some row is empty. |
| LegacyLayouts.PlotReprPng | src/escodrinyar/plot.py:115-116 | A plot's PNG is drawn on a 1x1 grid of the default size. |
| LegacyLayouts.New | src/escodrinyar/plot.py:19-21 | `Layout(rows)` keeps the rows and applies this version's `opts()` defaults: `ncols = -1`, figsize `(5, 5)`. |
| LegacyLayouts.Opts | src/escodrinyar/plot.py:73-77 | `opts(ncols, figsize)` keeps the rows and stores exactly the two given options. |
| LegacyLayouts.StoredColumnCountIgnored | src/escodrinyar/plot.py:73-77 | The `ncols` stored by `opts` never changes the grid. Only the figure size reaches the figure. |
| LegacyLayouts.UpgradeNew | src/escodrinyar/plot.py:19-21 | A new layout of this version, its options translated, is a new exported layout, and the two defaults agree. |
| LegacyLayouts.PlusAgrees | src/escodrinyar/plot.py:23-28 | Both copies of `+` agree on every pair of operands, errors included. |
| LegacyLayouts.PipeAgrees | src/escodrinyar/plot.py:30-34 | Both copies of `\|` agree on every pair of operands, errors included. |
| LegacyLayouts.ReprPngAgrees | src/escodrinyar/plot.py:38-51 | `_repr_png_` and the exported `plot()` fail on the same layouts. Otherwise they give the same grid and figure size, and `plot()` gets no ratios. |

## Left out

- Drawing and output: figure, gridspec and subfigure creation, `plt.ioff`, `show`, `save`, the PNG/SVG buffer and its base64 encoding, and `plt.close`. These are foreign-library calls and I/O. `_repr_`, `_repr_png_` and `_repr_svg_` of layout.py are modelled only through the `plot()` they call.
- The drawing library's own checks are not modelled. It refuses a gridspec with no rows or no columns, and ratio lists of the wrong length. For a layout whose rows are all empty, that refusal would come before the ZeroDivisionError modelled here.
- `mpl.rc_context` scoping is library behaviour. Each span records its plot, and so the overrides in force while that plot is drawn.
- Legends: the code reads `_legend_contents`, discards it, and clears the per-subfigure and figure legends. It merges nothing, so there is no legend merge to model.
- Render caching: the source has none. Every `plot()`, `show()`, `save()` and `_repr_*` call renders again.
- seaborn internals: `on(...).plot()`, and the data, variable mappings and ordering arguments of `Plot(...)`, `add`, `facet`, `pair` and `label`. These are opaque strings or left out. The handle model (layers plus a log of configuration calls) is an assumption about seaborn.
- Python object identity and in-place mutation. The model works on immutable values. The source mutates objects that other objects may still reference:
  - `Plot.__mul__` reassigns `rc_params` on its left operand (layout.py:130, plot.py:108).
  - `opts` assigns its attributes on the receiver and returns it (layout.py:93-95, plot.py:74-75).

  The model returns the rebound left plot as `Product.left`. It does not propagate that plot into layouts built earlier from the same object. After `L = a | b; c = a * d; L.plot()`, Python draws `a` with the merged overrides, while the model's `L` still holds `a` with its old overrides. Likewise, `|` shares row lists with its operands; the model copies them.
- Operands that are neither a Plot nor a Layout but have a `layout` attribute. seaborn's `Plot` (imported at layout.py:5) has a `layout` method, so `Layout([[p]]) + so.Plot(df)` raises TypeError at layout.py:27 and `Layout([[p]]) | so.Plot(df)` raises TypeError at layout.py:33. The model's `Foreign` stands only for values without that attribute.
- Mixing the two files' classes. `Plots.Plot` stands for the `Plot` class of both layout.py and plot.py. In the source, `isinstance(other, Plot)` accepts only its own file's class. So `layout.Layout([[p]]) + plot.Plot(...)` raises AttributeError in Python, while the model treats the operand as a plot (`Single`).
- A `Layout` built directly with rows or cells that are not plots. The operators never build one, and `plot()` fails on it in escodrinyar's own code before any drawing: a flat row such as `Layout([p, q])` raises TypeError from `len(row)` (layout.py:47), and a nested layout or a raw seaborn plot as a cell raises AttributeError from `plot.rc_params` (layout.py:65).
- `figsize` and the ratios are stored and passed through, with no area computation (that would be floating-point geometry).
