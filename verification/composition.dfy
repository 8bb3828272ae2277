/** The composition algebra both layout classes implement: a layout is a list of
    rows, each a list of plots; `+` joins the first rows into a single row and
    `|` stacks the row lists. The two classes differ only in the options a new
    layout carries, so a layout here is generic in its option record `O`, and
    every operator takes, as `blank`, the options `Layout.__init__` gives a new layout. */
module Composition {
  import opened Wrappers
  import opened Plots

  /** The rows of a layout, ragged in general. */
  type Rows = seq<seq<Plot>>

  /** A figure size in inches, handed to the drawing library unchecked. */
  datatype Figsize = Figsize(width: real, height: real)

  /** The `figsize=(5, 5)` default of every `opts` signature. */
  const DefaultFigsize: Figsize := Figsize(5.0, 5.0)

  /** A layout with the canvas options of the class that built it. */
  datatype Layout<O> = Layout(rows: Rows, options: O)

  /** A right operand of a layout operator. */
  type LayoutOperand<O> = Operand<Layout<O>>

  /** The plots of a layout read row by row, left to right. */
  function Flatten(rows: Rows): (plots: seq<Plot>)
  {
    if |rows| == 0 then [] else Flatten(rows[..|rows| - 1]) + rows[|rows| - 1]
  }

  /** Stacking row lists keeps every plot, in order. */
  lemma {:induction false} FlattenConcat(a: Rows, b: Rows)
    ensures Flatten(a + b) == Flatten(a) + Flatten(b)
    decreases |b|
  {
    if |b| == 0 {
      assert a + b == a;
    } else {
      var init := b[..|b| - 1];
      assert (a + b)[..|a + b| - 1] == a + init;
      assert (a + b)[|a + b| - 1] == b[|b| - 1];
      FlattenConcat(a, init);
    }
  }

  /** The rows a plot or layout operand contributes: a plot is lifted to `[[p]]`. */
  function Lifted<O>(o: LayoutOperand<O>): (rows: Rows)
    requires !o.Foreign?
    ensures o.Single? ==> rows == [[o.plot]]
    ensures o.Composite? ==> rows == o.layout.rows
  {
    match o
    case Single(p) => [[p]]
    case Composite(l) => l.rows
  }

  /** `Layout.__add__`: one row, the receiver's first row followed by the
      operand's first row; every other row of both is dropped. The receiver's
      row 0 is read first, so a receiver without rows raises IndexError whatever
      the operand; otherwise reading `.layout` of a value that has no such attribute
      raises AttributeError, and an operand without rows IndexError. */
  function LayoutAdd<O>(self: Layout<O>, other: LayoutOperand<O>, blank: O): (r: Result<Layout<O>>)
    ensures other.Foreign? ==> r == Err(if |self.rows| == 0 then IndexError else AttributeError)
    ensures !other.Foreign? ==> (r.Ok? <==> |self.rows| > 0 && |Lifted(other)| > 0)
    ensures !other.Foreign? && r.Err? ==> r.error == IndexError
    ensures r.Ok? ==> r.value.options == blank && |r.value.rows| == 1
    ensures r.Ok? ==> |r.value.rows[0]| == |self.rows[0]| + |Lifted(other)[0]|
    ensures r.Ok? ==> r.value.rows[0][..|self.rows[0]|] == self.rows[0]
    ensures r.Ok? ==> r.value.rows[0][|self.rows[0]|..] == Lifted(other)[0]
    decreases if other.Single? then 1 else 0
  {
    match other
    case Single(p) => LayoutAdd(self, Composite(Layout([[p]], blank)), blank)
    case Composite(o) =>
      if |self.rows| == 0 || |o.rows| == 0 then Err(IndexError)
      else Ok(Layout([self.rows[0] + o.rows[0]], blank))
    case Foreign => if |self.rows| == 0 then Err(IndexError) else Err(AttributeError)
  }

  /** `Layout.__or__`: the receiver's rows followed by the operand's rows. */
  function LayoutOr<O>(self: Layout<O>, other: LayoutOperand<O>, blank: O): (r: Result<Layout<O>>)
    ensures r.Err? <==> other.Foreign?
    ensures r.Err? ==> r.error == AttributeError
    ensures r.Ok? ==> r.value.options == blank
    ensures r.Ok? ==> |r.value.rows| == |self.rows| + |Lifted(other)|
    ensures r.Ok? ==> r.value.rows[..|self.rows|] == self.rows && r.value.rows[|self.rows|..] == Lifted(other)
    decreases if other.Single? then 1 else 0
  {
    match other
    case Single(p) => LayoutOr(self, Composite(Layout([[p]], blank)), blank)
    case Composite(o) => Ok(Layout(self.rows + o.rows, blank))
    case Foreign => Err(AttributeError)
  }

  /** `Plot.__add__`: the plot, lifted to `[[self]]`, added to the operand. */
  function PlotAdd<O>(self: Plot, other: LayoutOperand<O>, blank: O): (r: Result<Layout<O>>)
    ensures other.Foreign? ==> r == Err(AttributeError)
    ensures other.Single? ==> r == Ok(Layout([[self, other.plot]], blank))
    ensures other.Composite? && |other.layout.rows| == 0 ==> r == Err(IndexError)
    ensures other.Composite? && |other.layout.rows| > 0 ==> r == Ok(Layout([[self] + other.layout.rows[0]], blank))
  {
    var r := LayoutAdd(Layout([[self]], blank), other, blank);
    assert r.Ok? ==> r.value == Layout(r.value.rows, blank);
    assert r.Ok? ==> r.value.rows == [r.value.rows[0]] && r.value.rows[0] == r.value.rows[0][..1] + r.value.rows[0][1..];
    assert other.Single? ==> [self] + [other.plot] == [self, other.plot];
    r
  }

  /** `Plot.__or__`: the plot, lifted to `[[self]]`, stacked above the operand. */
  function PlotOr<O>(self: Plot, other: LayoutOperand<O>, blank: O): (r: Result<Layout<O>>)
    ensures other.Foreign? ==> r == Err(AttributeError)
    ensures other.Single? ==> r == Ok(Layout([[self], [other.plot]], blank))
    ensures other.Composite? ==> r == Ok(Layout([[self]] + other.layout.rows, blank))
  {
    var r := LayoutOr(Layout([[self]], blank), other, blank);
    assert r.Ok? ==> r.value == Layout(r.value.rows, blank);
    assert r.Ok? ==> r.value.rows == r.value.rows[..1] + r.value.rows[1..];
    assert other.Single? ==> [[self]] + [[other.plot]] == [[self], [other.plot]];
    r
  }

  /** Python's `a + b`: the left operand's `__add__`, or a TypeError when its
      class defines none (neither `Plot` nor `Layout` defines `__radd__`). */
  function Plus<O>(a: LayoutOperand<O>, b: LayoutOperand<O>, blank: O): (r: Result<Layout<O>>)
    ensures a.Foreign? ==> r == Err(TypeError)
    ensures !a.Foreign? && b.Foreign? ==> r == Err(if |Lifted(a)| == 0 then IndexError else AttributeError)
    ensures !a.Foreign? && !b.Foreign? ==>
      r == if |Lifted(a)| > 0 && |Lifted(b)| > 0 then Ok(Layout([Lifted(a)[0] + Lifted(b)[0]], blank)) else Err(IndexError)
  {
    match a
    case Single(p) =>
      assert b.Single? ==> [p] + [b.plot] == [p, b.plot];
      PlotAdd(p, b, blank)
    case Composite(l) =>
      var r := LayoutAdd(l, b, blank);
      assert r.Ok? ==> r.value == Layout(r.value.rows, blank) && r.value.rows == [r.value.rows[0]];
      assert r.Ok? ==> r.value.rows[0] == r.value.rows[0][..|l.rows[0]|] + r.value.rows[0][|l.rows[0]|..];
      r
    case Foreign => Err(TypeError)
  }

  /** Python's `a | b`, dispatched as `Plus`. */
  function Pipe<O>(a: LayoutOperand<O>, b: LayoutOperand<O>, blank: O): (r: Result<Layout<O>>)
    ensures a.Foreign? ==> r == Err(TypeError)
    ensures !a.Foreign? && b.Foreign? ==> r == Err(AttributeError)
    ensures !a.Foreign? && !b.Foreign? ==> r == Ok(Layout(Lifted(a) + Lifted(b), blank))
  {
    match a
    case Single(p) =>
      assert b.Single? ==> [[p]] + [[b.plot]] == [[p], [b.plot]];
      PlotOr(p, b, blank)
    case Composite(l) =>
      var r := LayoutOr(l, b, blank);
      assert r.Ok? ==> r.value == Layout(r.value.rows, blank);
      assert r.Ok? ==> r.value.rows == r.value.rows[..|l.rows|] + r.value.rows[|l.rows|..];
      r
    case Foreign => Err(TypeError)
  }

  /** Python's `a * b`: only `Plot` defines `__mul__`, and nothing defines `__rmul__`. */
  function Times<O>(a: LayoutOperand<O>, b: LayoutOperand<O>): (r: Result<Product>)
    ensures r.Ok? <==> a.Single? && b.Single?
    ensures a.Single? && !b.Single? ==> r == Err(ValueError)
    ensures !a.Single? ==> r == Err(TypeError)
    ensures a.Single? ==> r == Mul(a.plot, b)
  {
    match a
    case Single(p) => Mul(p, b)
    case _ => Err(TypeError)
  }

  /** `a + b` of two plots is the one-row layout `[[a, b]]`. */
  lemma PlotPlusPlot<O>(a: Plot, b: Plot, blank: O)
    ensures Plus(Single(a), Single(b), blank) == Ok(Layout([[a, b]], blank))
  {
  }

  /** A layout without rows fails `+` at its own row 0, before the operand is
      looked at: the error is IndexError even for an operand that is neither a
      plot nor a layout. AttributeError needs a receiver with rows, such as a
      plot lifted to `[[p]]`; `|` reads no row and always gives AttributeError. */
  lemma EmptyLayoutPlusForeign<O>(l: Layout<O>, p: Plot, blank: O)
    ensures |l.rows| == 0 ==> Plus(Composite(l), Foreign, blank) == Err(IndexError)
    ensures |l.rows| > 0 ==> Plus(Composite(l), Foreign, blank) == Err(AttributeError)
    ensures Plus(Single(p), Foreign, blank) == Err(AttributeError)
    ensures Pipe(Composite(l), Foreign, blank) == Err(AttributeError)
  {
  }

  /** `a | b` of two plots is the two-row layout `[[a], [b]]`. */
  lemma PlotPipePlot<O>(a: Plot, b: Plot, blank: O)
    ensures Pipe(Single(a), Single(b), blank) == Ok(Layout([[a], [b]], blank))
  {
  }

  /** Adding a plot to a layout of several rows appends it to row 0 and drops
      every later row, with all of their plots. */
  lemma PlusDropsLaterRows<O>(l: Layout<O>, p: Plot, blank: O)
    requires |l.rows| >= 2
    ensures Plus(Composite(l), Single(p), blank) == Ok(Layout([l.rows[0] + [p]], blank))
    ensures Flatten(Plus(Composite(l), Single(p), blank).value.rows) == l.rows[0] + [p]
  {
  }

  /** `+` is associative on plots and layouts: both groupings fail together, and
      otherwise give the same layout. */
  lemma PlusAssociative<O>(a: LayoutOperand<O>, b: LayoutOperand<O>, c: LayoutOperand<O>, blank: O)
    requires !a.Foreign? && !b.Foreign? && !c.Foreign?
    ensures
      var left := match Plus(a, b, blank) case Ok(ab) => Plus(Composite(ab), c, blank) case Err(e) => Err(e);
      var right := match Plus(b, c, blank) case Ok(bc) => Plus(a, Composite(bc), blank) case Err(e) => Err(e);
      left == right
  {
    var ra, rb, rc := Lifted(a), Lifted(b), Lifted(c);
    if |ra| > 0 && |rb| > 0 && |rc| > 0 {
      assert (ra[0] + rb[0]) + rc[0] == ra[0] + (rb[0] + rc[0]);
    }
  }

  /** `|` keeps every plot of both operands, in reading order, and adds their row counts. */
  lemma PipeKeepsEveryPlot<O>(a: LayoutOperand<O>, b: LayoutOperand<O>, blank: O)
    requires !a.Foreign? && !b.Foreign?
    ensures Pipe(a, b, blank).Ok?
    ensures |Pipe(a, b, blank).value.rows| == |Lifted(a)| + |Lifted(b)|
    ensures Flatten(Pipe(a, b, blank).value.rows) == Flatten(Lifted(a)) + Flatten(Lifted(b))
  {
    FlattenConcat(Lifted(a), Lifted(b));
  }

  /** `|` is associative on plots and layouts. */
  lemma PipeAssociative<O>(a: LayoutOperand<O>, b: LayoutOperand<O>, c: LayoutOperand<O>, blank: O)
    requires !a.Foreign? && !b.Foreign? && !c.Foreign?
    ensures Pipe(Composite(Pipe(a, b, blank).value), c, blank) == Pipe(a, Composite(Pipe(b, c, blank).value), blank)
  {
    var ra, rb, rc := Lifted(a), Lifted(b), Lifted(c);
    assert (ra + rb) + rc == ra + (rb + rc);
  }

  /** The options of the operands never reach a composition: every result is a
      new layout, whatever options either side carried. */
  lemma CompositionForgetsOptions<O>(l: Layout<O>, m: Layout<O>, x: O, y: O, blank: O)
    ensures LayoutAdd(l.(options := x), Composite(m.(options := y)), blank) == LayoutAdd(l, Composite(m), blank)
    ensures LayoutOr(l.(options := x), Composite(m.(options := y)), blank) == LayoutOr(l, Composite(m), blank)
  {
  }

  /** The same layout with its options translated by `f`. */
  function Relabel<O, P>(l: Layout<O>, f: O -> P): (r: Layout<P>)
    ensures r.rows == l.rows && r.options == f(l.options)
  {
    Layout(l.rows, f(l.options))
  }

  /** The same operand with a layout's options translated by `f`; plots and
      foreign values are unchanged. */
  function RelabelOperand<O, P>(o: LayoutOperand<O>, f: O -> P): (r: LayoutOperand<P>)
    ensures r.Single? <==> o.Single?
    ensures r.Foreign? <==> o.Foreign?
    ensures o.Single? ==> r.plot == o.plot
    ensures o.Composite? ==> r.layout == Relabel(o.layout, f)
  {
    match o
    case Single(p) => Single(p)
    case Composite(l) => Composite(Relabel(l, f))
    case Foreign => Foreign
  }

  /** The same outcome with a result layout's options translated by `f`; an
      error is unchanged. */
  function RelabelResult<O, P>(r: Result<Layout<O>>, f: O -> P): (t: Result<Layout<P>>)
    ensures t.Ok? <==> r.Ok?
    ensures r.Ok? ==> t.value == Relabel(r.value, f)
    ensures r.Err? ==> t.error == r.error
  {
    match r
    case Ok(l) => Ok(Relabel(l, f))
    case Err(e) => Err(e)
  }

  /** Two layout classes whose operators differ only in their option records
      compose identically: translating the options commutes with `+`, errors included. */
  lemma PlusRelabel<O, P>(a: LayoutOperand<O>, b: LayoutOperand<O>, blank: O, f: O -> P)
    ensures RelabelResult(Plus(a, b, blank), f) == Plus(RelabelOperand(a, f), RelabelOperand(b, f), f(blank))
  {
  }

  /** Translating the options commutes with `|`, errors included. */
  lemma PipeRelabel<O, P>(a: LayoutOperand<O>, b: LayoutOperand<O>, blank: O, f: O -> P)
    ensures RelabelResult(Pipe(a, b, blank), f) == Pipe(RelabelOperand(a, f), RelabelOperand(b, f), f(blank))
  {
  }
}
