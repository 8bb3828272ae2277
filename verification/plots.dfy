/** A single plot: an opaque seaborn specification plus the matplotlib style
    overrides (`rc_params`) applied while that plot is drawn. This module covers
    the `Plot` operators and builder methods that layout.py and plot.py share
    line for line: `*` and `add`/`theme`/`facet`/`pair`/`label`. */
module Plots {
  import opened Wrappers

  /** matplotlib rc parameters; a value is kept as its textual form. */
  type RcParams = map<string, string>

  /** One seaborn layer: what was passed to `add` (data and variable mappings are opaque and left out). */
  datatype Layer = Layer(mark: string, transforms: seq<string>, orient: Option<string>, legend: bool, legendLabel: Option<string>)

  /** A configuration call made on a seaborn specification, with its non-style arguments kept opaque. */
  datatype Setting =
    | ThemeSetting(config: RcParams)
    | FacetSetting(args: string)
    | PairSetting(args: string)
    | LabelSetting(args: string)

  /** The seaborn `Plot` handle, seen only through what the core relies on: the
      data it was built from, its list of layers, and the configuration calls
      made on it. Each seaborn builder returns a copy with one more layer (`add`)
      or one more recorded setting (the others); `_clone` is a plain copy. */
  datatype Handle = Handle(source: string, layers: seq<Layer>, settings: seq<Setting>)

  /** A plot of the composition algebra. */
  datatype Plot = Plot(splot: Handle, rcParams: RcParams)

  /** A right operand of an operator, as Python dispatches on it: a plot, a
      layout (of the module's own layout type), or `Foreign`, a value that is
      neither and has no `layout` attribute, so that reading `other.layout`
      raises AttributeError. */
  datatype Operand<L> = Single(plot: Plot) | Composite(layout: L) | Foreign

  /** The outcome of `a * b`: the new plot, and `a` as the assignment to
      `self.rc_params` leaves it. */
  datatype Product = Product(left: Plot, result: Plot)

  /** `m` is the dict `{**a, **b}`: every key of either side, `b`'s value winning on a collision. */
  ghost predicate RightBiased(m: RcParams, a: RcParams, b: RcParams)
  {
    && m.Keys == a.Keys + b.Keys
    && (forall k :: k in b ==> m[k] == b[k])
    && (forall k :: k in a && k !in b ==> m[k] == a[k])
  }

  /** Dafny's map union is exactly the right-biased merge, and the merge is unique. */
  lemma RightBiasedIsUnion(m: RcParams, a: RcParams, b: RcParams)
    ensures RightBiased(m, a, b) <==> m == a + b
  {
    if RightBiased(m, a, b) {
      assert m.Keys == (a + b).Keys;
      forall k | k in m
        ensures m[k] == (a + b)[k]
      {
      }
    }
  }

  /** `Plot(splot)`: a fresh plot starts with no style overrides. */
  function Wrap(splot: Handle): (p: Plot)
  {
    Plot(splot, map[])
  }

  /** `Plot(data=..., **variables)`: a new seaborn specification with no layers. */
  function FromData(source: string): (p: Plot)
    ensures p.splot.layers == [] && p.splot.settings == [] && p.rcParams == map[]
  {
    Wrap(Handle(source, [], []))
  }

  /** seaborn's `theme(config)`, as the handle records it. */
  function ThemeHandle(h: Handle, config: RcParams): (r: Handle)
  {
    h.(settings := h.settings + [ThemeSetting(config)])
  }

  /** `Plot.__mul__`: overlay the layers of `other` on a clone of `self`, merge the
      style overrides with `other` winning, rebind `self.rc_params` to the merged
      dict, and refuse anything that is not a Plot. */
  function Mul<L>(self: Plot, other: Operand<L>): (r: Result<Product>)
    ensures r.Err? <==> !other.Single?
    ensures r.Err? ==> r.error == ValueError
    ensures r.Ok? ==> RightBiased(r.value.result.rcParams, self.rcParams, other.plot.rcParams)
    ensures r.Ok? ==> r.value.result.splot.layers == self.splot.layers + other.plot.splot.layers
    ensures r.Ok? ==> r.value.result.splot.source == self.splot.source
    ensures r.Ok? ==> r.value.result.splot.settings == self.splot.settings + [ThemeSetting(r.value.result.rcParams)]
    ensures r.Ok? ==> r.value.left.splot == self.splot && r.value.left.rcParams == r.value.result.rcParams
  {
    match other
    case Single(b) =>
      var cloned := self.splot.(layers := self.splot.layers + b.splot.layers);
      var left := self.(rcParams := self.rcParams + b.rcParams);
      var plot := Wrap(ThemeHandle(cloned, left.rcParams)).(rcParams := left.rcParams);
      Ok(Product(left, plot))
    case _ => Err(ValueError)
  }

  /** `Plot.add`: one more layer, style overrides carried over. */
  function AddLayer(self: Plot, layer: Layer): (r: Plot)
    ensures r.rcParams == self.rcParams
    ensures r.splot.layers == self.splot.layers + [layer]
    ensures r.splot.source == self.splot.source && r.splot.settings == self.splot.settings
  {
    Wrap(self.splot.(layers := self.splot.layers + [layer])).(rcParams := self.rcParams)
  }

  /** `Plot.theme`: the new overrides are the old ones updated by `config`. The
      seaborn handle is themed with the receiver's OLD overrides, not with `config`. */
  function Theme(self: Plot, config: RcParams): (r: Plot)
    ensures RightBiased(r.rcParams, self.rcParams, config)
    ensures r.splot.layers == self.splot.layers && r.splot.source == self.splot.source
    ensures r.splot.settings == self.splot.settings + [ThemeSetting(self.rcParams)]
  {
    Wrap(ThemeHandle(self.splot, self.rcParams)).(rcParams := self.rcParams + config)
  }

  /** `Plot.facet`: style overrides and layers carried over. */
  function Facet(self: Plot, args: string): (r: Plot)
    ensures r.rcParams == self.rcParams && r.splot.layers == self.splot.layers
    ensures r.splot.source == self.splot.source
    ensures r.splot.settings == self.splot.settings + [FacetSetting(args)]
  {
    Wrap(self.splot.(settings := self.splot.settings + [FacetSetting(args)])).(rcParams := self.rcParams)
  }

  /** `Plot.pair`: style overrides and layers carried over. */
  function Pair(self: Plot, args: string): (r: Plot)
    ensures r.rcParams == self.rcParams && r.splot.layers == self.splot.layers
    ensures r.splot.source == self.splot.source
    ensures r.splot.settings == self.splot.settings + [PairSetting(args)]
  {
    Wrap(self.splot.(settings := self.splot.settings + [PairSetting(args)])).(rcParams := self.rcParams)
  }

  /** `Plot.label`: style overrides and layers carried over. */
  function Label(self: Plot, args: string): (r: Plot)
    ensures r.rcParams == self.rcParams && r.splot.layers == self.splot.layers
    ensures r.splot.source == self.splot.source
    ensures r.splot.settings == self.splot.settings + [LabelSetting(args)]
  {
    Wrap(self.splot.(settings := self.splot.settings + [LabelSetting(args)])).(rcParams := self.rcParams)
  }

  /** One call of a builder chain such as `p.add(...).theme(...).facet(...)`. */
  datatype Step =
    | AddStep(layer: Layer)
    | ThemeStep(config: RcParams)
    | FacetStep(args: string)
    | PairStep(args: string)
    | LabelStep(args: string)

  function Apply(p: Plot, steps: seq<Step>): (r: Plot)
  {
    if |steps| == 0 then p
    else
      var q := Apply(p, steps[..|steps| - 1]);
      match steps[|steps| - 1]
      case AddStep(layer) => AddLayer(q, layer)
      case ThemeStep(config) => Theme(q, config)
      case FacetStep(args) => Facet(q, args)
      case PairStep(args) => Pair(q, args)
      case LabelStep(args) => Label(q, args)
  }

  /** The `theme` configurations of a chain merged in call order, later ones winning. */
  function Overrides(steps: seq<Step>): (r: RcParams)
  {
    if |steps| == 0 then map[]
    else
      var earlier := Overrides(steps[..|steps| - 1]);
      match steps[|steps| - 1]
      case ThemeStep(config) => earlier + config
      case _ => earlier
  }

  /** The layers a chain adds, in call order. */
  function AddedLayers(steps: seq<Step>): (r: seq<Layer>)
  {
    if |steps| == 0 then []
    else
      var earlier := AddedLayers(steps[..|steps| - 1]);
      match steps[|steps| - 1]
      case AddStep(layer) => earlier + [layer]
      case _ => earlier
  }

  lemma UnionAssociative(a: RcParams, b: RcParams, c: RcParams)
    ensures (a + b) + c == a + (b + c)
  {
    assert ((a + b) + c).Keys == (a + (b + c)).Keys;
    forall k | k in (a + b) + c
      ensures ((a + b) + c)[k] == (a + (b + c))[k]
    {
    }
  }

  /** Along any builder chain the style overrides change only through `theme`:
      they are the starting overrides updated by every theme config in order. */
  lemma {:induction false} OverridesAfterChain(p: Plot, steps: seq<Step>)
    ensures Apply(p, steps).rcParams == p.rcParams + Overrides(steps)
    decreases |steps|
  {
    if |steps| == 0 {
      assert p.rcParams + map[] == p.rcParams;
    } else {
      var init := steps[..|steps| - 1];
      OverridesAfterChain(p, init);
      var q := Apply(p, init);
      match steps[|steps| - 1]
      case ThemeStep(config) =>
        RightBiasedIsUnion(Apply(p, steps).rcParams, q.rcParams, config);
        UnionAssociative(p.rcParams, Overrides(init), config);
      case AddStep(layer) =>
      case FacetStep(args) =>
      case PairStep(args) =>
      case LabelStep(args) =>
    }
  }

  /** Along any builder chain the layers are the starting layers followed by those `add` contributed. */
  lemma {:induction false} LayersAfterChain(p: Plot, steps: seq<Step>)
    ensures Apply(p, steps).splot.layers == p.splot.layers + AddedLayers(steps)
    decreases |steps|
  {
    if |steps| > 0 {
      LayersAfterChain(p, steps[..|steps| - 1]);
    }
  }

  /** Overlaying with `*` is associative in the layers and style overrides it
      produces (the recorded theme calls differ between the two groupings). */
  lemma MulAssociative(a: Plot, b: Plot, c: Plot)
    ensures
      var ab := Mul<()>(a, Single(b)).value.result;
      var bc := Mul<()>(b, Single(c)).value.result;
      var left := Mul<()>(ab, Single(c)).value.result;
      var right := Mul<()>(a, Single(bc)).value.result;
      left.splot.layers == right.splot.layers && left.rcParams == right.rcParams
  {
    var ab := Mul<()>(a, Single(b)).value.result;
    var bc := Mul<()>(b, Single(c)).value.result;
    var left := Mul<()>(ab, Single(c)).value.result;
    var right := Mul<()>(a, Single(bc)).value.result;
    RightBiasedIsUnion(ab.rcParams, a.rcParams, b.rcParams);
    RightBiasedIsUnion(bc.rcParams, b.rcParams, c.rcParams);
    RightBiasedIsUnion(left.rcParams, ab.rcParams, c.rcParams);
    RightBiasedIsUnion(right.rcParams, a.rcParams, bc.rcParams);
    UnionAssociative(a.rcParams, b.rcParams, c.rcParams);
  }

  /** The worked example: `{x: 1} * {x: 2, y: 3}` gives `{x: 2, y: 3}`, and the left plot is rebound to it. */
  lemma MulExample(h1: Handle, h2: Handle)
    ensures
      var r := Mul<()>(Plot(h1, map["x" := "1"]), Single(Plot(h2, map["x" := "2", "y" := "3"])));
      r.Ok? && r.value.result.rcParams == map["x" := "2", "y" := "3"]
      && r.value.left.rcParams == map["x" := "2", "y" := "3"]
  {
    var a := Plot(h1, map["x" := "1"]);
    var b := Plot(h2, map["x" := "2", "y" := "3"]);
    var r := Mul<()>(a, Single(b));
    RightBiasedIsUnion(r.value.result.rcParams, a.rcParams, b.rcParams);
    assert r.value.result.rcParams.Keys == {"x", "y"};
  }
}
