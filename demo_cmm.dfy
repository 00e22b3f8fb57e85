/** The causal-mixture-model demo (components/demo/DemoCMM.tsx): a scatter plot of the fetched
    points, laid out in a fixed 360 x 260 box with a 5% margin around the data, grey until the
    reader reveals the mixture components. Geometry is over `real`. */
module DemoCMM {
  import opened Wrappers

  datatype Point = Point(x: real, y: real, component: int, soft: Option<seq<real>>)

  /** The fetched JSON. Its `bic` and `meta` fields are not read by the demo and are not kept. */
  datatype CmmData = CmmData(points: seq<Point>, components: int)

  // ---------------------------------------------------------------- layout

  const Width: real := 360.0
  const Height: real := 260.0
  const PadTop: real := 20.0
  const PadRight: real := 20.0
  const PadBottom: real := 30.0
  const PadLeft: real := 35.0

  /** The margin factor of `expand`. */
  const Factor: real := 0.05

  const Palette: seq<string> := ["#4fa2e1", "#E2A432"]
  const Grey: string := "#9ca3af"

  /** The data window `[x0, x1] x [y0, y1]` the scales map onto the plot area. */
  datatype Layout = Layout(x0: real, x1: real, y0: real, y1: real)

  predicate ValidLayout(l: Layout) {
    l.x0 < l.x1 && l.y0 < l.y1
  }

  function Xs(ps: seq<Point>): (r: seq<real>)
    ensures |r| == |ps| && forall i :: 0 <= i < |ps| ==> r[i] == ps[i].x
  {
    seq(|ps|, i requires 0 <= i < |ps| => ps[i].x)
  }

  function Ys(ps: seq<Point>): (r: seq<real>)
    ensures |r| == |ps| && forall i :: 0 <= i < |ps| ==> r[i] == ps[i].y
  {
    seq(|ps|, i requires 0 <= i < |ps| => ps[i].y)
  }

  /** `Math.min(...xs)` on a non-empty list: an element no larger than any other. */
  function MinOf(xs: seq<real>): (r: real)
    requires |xs| > 0
    ensures r in xs
    ensures forall i :: 0 <= i < |xs| ==> r <= xs[i]
  {
    if |xs| == 1 then xs[0]
    else
      var m := MinOf(xs[1..]);
      assert forall i :: 1 <= i < |xs| ==> xs[i] == xs[1..][i - 1];
      if xs[0] <= m then xs[0] else m
  }

  /** `Math.max(...xs)` on a non-empty list. */
  function MaxOf(xs: seq<real>): (r: real)
    requires |xs| > 0
    ensures r in xs
    ensures forall i :: 0 <= i < |xs| ==> xs[i] <= r
  {
    if |xs| == 1 then xs[0]
    else
      var m := MaxOf(xs[1..]);
      assert forall i :: 1 <= i < |xs| ==> xs[i] == xs[1..][i - 1];
      if xs[0] >= m then xs[0] else m
  }

  /** `expand(min, max)`: widen the interval by 5% of its length on each side, taking the length
      as 1 when it is 0 (JavaScript's `max - min || 1`). */
  function Expand(min: real, max: real): (r: (real, real))
    ensures min - r.0 == r.1 - max
    ensures min <= max ==> r.0 < min && max < r.1
    ensures min == max ==> min - r.0 == Factor
    ensures min < max ==> (min - r.0) / (max - min) == Factor
  {
    var range := if max - min == 0.0 then 1.0 else max - min;
    var pad := range * Factor;
    ScaledRatio(range, Factor);
    (min - pad, max + pad)
  }

  /** `useScatterLayout`: nothing without data or without points; otherwise a window that holds
      every point strictly inside. */
  function ScatterLayout(data: Option<CmmData>): (r: Option<Layout>)
    ensures r.Some? <==> data.Some? && |data.value.points| > 0
    ensures r.Some? ==> ValidLayout(r.value)
    ensures r.Some? ==> forall i :: 0 <= i < |data.value.points| ==>
      && r.value.x0 < data.value.points[i].x < r.value.x1
      && r.value.y0 < data.value.points[i].y < r.value.y1
  {
    if data.None? || |data.value.points| == 0 then None
    else
      var ps := data.value.points;
      var xs, ys := Xs(ps), Ys(ps);
      var (x0, x1) := Expand(MinOf(xs), MaxOf(xs));
      var (y0, y1) := Expand(MinOf(ys), MaxOf(ys));
      Some(Layout(x0, x1, y0, y1))
  }

  /** `xScale`: the window's x range onto `[left, width - right]`. */
  function XScale(l: Layout, x: real): (r: real)
    requires ValidLayout(l)
    ensures l.x0 <= x <= l.x1 ==> PadLeft <= r <= Width - PadRight
  {
    var t := (x - l.x0) / (l.x1 - l.x0);
    UnitFraction(x - l.x0, l.x1 - l.x0);
    PadLeft + t * (Width - PadLeft - PadRight)
  }

  /** `yScale`: the window's y range onto `[height - bottom, top]`, upwards. */
  function YScale(l: Layout, y: real): (r: real)
    requires ValidLayout(l)
    ensures l.y0 <= y <= l.y1 ==> PadTop <= r <= Height - PadBottom
  {
    var t := (y - l.y0) / (l.y1 - l.y0);
    UnitFraction(y - l.y0, l.y1 - l.y0);
    Height - PadBottom - t * (Height - PadTop - PadBottom)
  }

  /** A part of a positive whole is a fraction in `[0, 1]`. */
  lemma UnitFraction(a: real, d: real)
    requires d > 0.0
    ensures 0.0 <= a <= d ==> 0.0 <= a / d <= 1.0
  {
    var q := a / d;
    assert q * d == a;
    ProductSign(q, d);
    ProductSign(q - 1.0, d);
    assert (q - 1.0) * d == a - d;
  }

  /** With a positive factor, the sign of a product is the sign of the other factor. */
  lemma ProductSign(x: real, d: real)
    requires d > 0.0
    ensures x * d >= 0.0 ==> x >= 0.0
    ensures x * d <= 0.0 ==> x <= 0.0
  {
  }

  /** The window's corners land on the ends of the axes. */
  lemma ScaleEndpoints(l: Layout)
    requires ValidLayout(l)
    ensures XScale(l, l.x0) == 35.0 && XScale(l, l.x1) == 340.0
    ensures YScale(l, l.y0) == 230.0 && YScale(l, l.y1) == 20.0
  {
    var dx, dy := l.x1 - l.x0, l.y1 - l.y0;
    SelfRatio(dx);
    SelfRatio(dy);
    assert (l.x0 - l.x0) / dx == 0.0 && (l.x1 - l.x0) / dx == 1.0;
    assert (l.y0 - l.y0) / dy == 0.0 && (l.y1 - l.y0) / dy == 1.0;
  }

  lemma SelfRatio(d: real)
    requires d > 0.0
    ensures d / d == 1.0
  {
  }

  lemma ScaledRatio(d: real, a: real)
    requires d != 0.0
    ensures (d * a) / d == a
  {
  }

  lemma DiffRatio(a: real, b: real, d: real)
    requires d != 0.0
    ensures (a - b) / d == a / d - b / d
  {
  }

  lemma FractionMonotone(a: real, b: real, d: real)
    requires a < b && d > 0.0
    ensures a / d < b / d
  {
    assert b / d - a / d == (b - a) / d;
  }

  /** A larger x lies further right; a larger y lies higher (a smaller svg y). */
  lemma ScaleMonotone(l: Layout, a: real, b: real)
    requires ValidLayout(l) && a < b
    ensures XScale(l, a) < XScale(l, b)
    ensures YScale(l, a) > YScale(l, b)
  {
    FractionMonotone(a - l.x0, b - l.x0, l.x1 - l.x0);
    FractionMonotone(a - l.y0, b - l.y0, l.y1 - l.y0);
  }

  /** Every point is drawn strictly inside the plot area between the axes. */
  lemma PointsInsidePlotArea(data: CmmData)
    requires |data.points| > 0
    ensures var l := ScatterLayout(Some(data)).value;
      forall i :: 0 <= i < |data.points| ==>
        && 35.0 < XScale(l, data.points[i].x) < 340.0
        && 20.0 < YScale(l, data.points[i].y) < 230.0
  {
    var l := ScatterLayout(Some(data)).value;
    ScaleEndpoints(l);
    forall i | 0 <= i < |data.points|
      ensures 35.0 < XScale(l, data.points[i].x) < 340.0
      ensures 20.0 < YScale(l, data.points[i].y) < 230.0
    {
      ScaleMonotone(l, l.x0, data.points[i].x);
      ScaleMonotone(l, data.points[i].x, l.x1);
      ScaleMonotone(l, l.y0, data.points[i].y);
      ScaleMonotone(l, data.points[i].y, l.y1);
    }
  }

  /** Distinct data points are drawn at distinct positions: the two scales are injective. */
  lemma DistinctPointsApart(data: CmmData, i: int, j: int)
    requires 0 <= i < |data.points| && 0 <= j < |data.points|
    requires data.points[i].x != data.points[j].x || data.points[i].y != data.points[j].y
    ensures var l := ScatterLayout(Some(data)).value;
      XScale(l, data.points[i].x) != XScale(l, data.points[j].x)
      || YScale(l, data.points[i].y) != YScale(l, data.points[j].y)
  {
    var l := ScatterLayout(Some(data)).value;
    var p, q := data.points[i], data.points[j];
    if p.x < q.x { ScaleMonotone(l, p.x, q.x); }
    else if q.x < p.x { ScaleMonotone(l, q.x, p.x); }
    else if p.y < q.y { ScaleMonotone(l, p.y, q.y); }
    else { ScaleMonotone(l, q.y, p.y); }
  }

  /** Values as far inside the window from either end land as far inside the plot area from
      either end. */
  lemma XScaleSymmetric(l: Layout, lo: real, hi: real)
    requires ValidLayout(l) && lo - l.x0 == l.x1 - hi
    ensures XScale(l, lo) - 35.0 == 340.0 - XScale(l, hi)
  {
    var d := l.x1 - l.x0;
    var pad := lo - l.x0;
    assert hi - l.x0 == d - pad;
    SelfRatio(d);
    DiffRatio(d, pad, d);
  }

  /** The horizontal margins left and right of the data are equal; points that all share one x
      sit in the middle of the plot area. */
  lemma HorizontalMarginsBalanced(data: CmmData)
    requires |data.points| > 0
    ensures var l := ScatterLayout(Some(data)).value;
      var xs := Xs(data.points);
      XScale(l, MinOf(xs)) - 35.0 == 340.0 - XScale(l, MaxOf(xs))
    ensures var l := ScatterLayout(Some(data)).value;
      var xs := Xs(data.points);
      MinOf(xs) == MaxOf(xs) ==> XScale(l, MinOf(xs)) == 187.5
  {
    var l := ScatterLayout(Some(data)).value;
    var xs := Xs(data.points);
    XScaleSymmetric(l, MinOf(xs), MaxOf(xs));
  }

  // ---------------------------------------------------------------- colouring

  /** Euclidean division is unique: a quotient and a remainder in `[0, n)` are `/` and `%`. */
  lemma ModUnique(a: int, n: int, q: int, m: int)
    requires n > 0 && a == q * n + m && 0 <= m < n
    ensures a % n == m
  {
    var d := q - a / n;
    assert d * n == a % n - m;
    MultipleBound(d, n);
  }

  /** A non-zero multiple of `n` is at least `n` away from zero. */
  lemma MultipleBound(d: int, n: int)
    requires n > 0
    ensures d >= 1 ==> d * n >= n
    ensures d <= -1 ==> d * n <= -n
  {
  }

  /** JavaScript's `%`: the remainder takes the sign of the dividend. Stated against Dafny's
      Euclidean `%`, whose remainder is never negative. */
  function JsRem(a: int, n: int): (r: int)
    requires n > 0
    ensures a >= 0 ==> 0 <= r < n && r == a % n
    ensures a < 0 ==> -n < r <= 0 && r == (if a % n == 0 then 0 else a % n - n)
  {
    if a >= 0 then a % n
    else
      var q, m := (-a) / n, (-a) % n;
      if m == 0 then
        ModUnique(a, n, -q, 0);
        0
      else
        ModUnique(a, n, -q - 1, n - m);
        -m
  }

  /** The fill of a point: grey while components are hidden, otherwise
      `colors[component % colors.length]`, which is `undefined` (here `None`) for an index
      outside the palette. */
  function Fill(isColored: bool, component: int): (r: Option<string>)
    ensures r.Some? ==> r.value == Grey || r.value in Palette
    ensures r.None? ==> isColored && component < 0
  {
    if !isColored then Some(Grey)
    else
      var k := JsRem(component, |Palette|);
      if 0 <= k < |Palette| then Some(Palette[k]) else None
  }

  function Opacity(isColored: bool): real {
    if isColored then 0.9 else 0.8
  }

  lemma FillCases(isColored: bool, component: int)
    ensures !isColored ==> Fill(isColored, component) == Some(Grey)
    ensures isColored && component >= 0 ==> Fill(isColored, component) == Some(Palette[component % 2])
    ensures isColored && component < 0 ==>
      (Fill(isColored, component).None? <==> component % 2 == 1)
    ensures isColored && component < 0 && component % 2 == 0 ==> Fill(isColored, component) == Some(Palette[0])
    ensures component >= 0 ==> Fill(isColored, component) == Fill(isColored, component + 2)
  {
  }

  /** One drawn circle. */
  datatype Mark = Mark(cx: real, cy: real, radius: int, fill: Option<string>, opacity: real)

  function MarkOf(l: Layout, p: Point, isColored: bool): Mark
    requires ValidLayout(l)
  {
    Mark(XScale(l, p.x), YScale(l, p.y), 3, Fill(isColored, p.component), Opacity(isColored))
  }

  /** The circles, one per point, in the order of the data. */
  function Marks(l: Layout, ps: seq<Point>, isColored: bool): (r: seq<Mark>)
    requires ValidLayout(l)
    ensures |r| == |ps|
    ensures forall i :: 0 <= i < |ps| ==> r[i] == MarkOf(l, ps[i], isColored)
  {
    seq(|ps|, i requires 0 <= i < |ps| => MarkOf(l, ps[i], isColored))
  }

  /** Revealing the components recolours the circles and moves none of them. */
  lemma ToggleKeepsPositions(l: Layout, ps: seq<Point>)
    requires ValidLayout(l)
    ensures var a, b := Marks(l, ps, false), Marks(l, ps, true);
      |a| == |b| && forall i :: 0 <= i < |a| ==>
        a[i].cx == b[i].cx && a[i].cy == b[i].cy && a[i].radius == b[i].radius
    ensures forall m :: m in Marks(l, ps, false) ==> m.fill == Some(Grey) && m.opacity == 0.8
    ensures forall m :: m in Marks(l, ps, true) ==> m.opacity == 0.9
  {
  }

  // ---------------------------------------------------------------- screen

  const LoadError: string := "Could not load demo data."

  datatype CmmScreen =
    | CmmError(message: string)
    | CmmLoading
    | CmmPlot(marks: seq<Mark>, colored: bool)

  /** The render: a (non-empty) error wins, then the loading text while there is no data or no
      layout, then the plot. */
  function Render(error: Option<string>, data: Option<CmmData>, isColored: bool): (r: CmmScreen)
    ensures r.CmmError? <==> error.Some? && error.value != ""
    ensures r.CmmPlot? ==> data.Some? && |r.marks| == |data.value.points| && r.colored == isColored
  {
    if error.Some? && error.value != "" then CmmError(error.value)
    else
      var plot := ScatterLayout(data);
      if data.None? || plot.None? then CmmLoading
      else CmmPlot(Marks(plot.value, data.value.points, isColored), isColored)
  }

  lemma RenderCases(error: Option<string>, data: Option<CmmData>, isColored: bool)
    ensures error.Some? && error.value != "" ==> Render(error, data, isColored) == CmmError(error.value)
    ensures Render(error, data, isColored).CmmPlot? <==>
      (error.None? || error.value == "") && data.Some? && |data.value.points| > 0
    ensures Render(error, data, isColored).CmmPlot? ==>
      |Render(error, data, isColored).marks| == |data.value.points|
      && Render(error, data, isColored).colored == isColored
  {
  }

  /** The state of one `DemoCMM` instance. The load effect has no cancellation: whatever
      response arrives is written. */
  class CmmDemo {
    const dataUrl: string
    var data: Option<CmmData>
    var error: Option<string>
    var isColored: bool

    constructor (dataUrl: string)
      ensures this.dataUrl == dataUrl && data == None && error == None && !isColored
    {
      this.dataUrl := dataUrl;
      data, error, isColored := None, None, false;
    }

    function Screen(): CmmScreen reads this {
      Render(error, data, isColored)
    }

    /** The load effect for `dataUrl`: everything is reset before the request goes out. */
    method Load()
      modifies this
      ensures data == None && error == None && !isColored
      ensures Screen() == CmmLoading
    {
      error, data, isColored := None, None, false;
    }

    /** The request settles: the JSON is stored, or the error message is set. */
    method Loaded(outcome: Outcome<CmmData>)
      modifies this
      ensures isColored == old(isColored)
      ensures outcome.Ok? ==> data == Some(outcome.payload) && error == old(error)
      ensures outcome.Failed? ==> data == old(data) && error == Some(LoadError)
      ensures outcome.Failed? ==> Screen() == CmmError(LoadError)
    {
      match outcome
      case Ok(json) => data := Some(json);
      case Failed => error := Some(LoadError);
    }

    /** The button and the svg both flip the colouring; they exist only on the plot. */
    method ToggleColor()
      requires Screen().CmmPlot?
      modifies this`isColored
      ensures isColored == !old(isColored)
      ensures Screen().CmmPlot? && Screen().colored == isColored
      ensures |Screen().marks| == |old(Screen()).marks|
    {
      isColored := !isColored;
    }
  }

  /** A successful load shows every point grey; revealing colours them by component. */
  method LoadThenReveal(json: CmmData) returns (greyFill: Option<string>, revealedFill: Option<string>)
    requires |json.points| > 0 && json.points[0].component == 1
    ensures greyFill == Some("#9ca3af") && revealedFill == Some("#E2A432")
  {
    var demo := new CmmDemo("/demos/cmm_tcga_colon_x3_y3.json");
    demo.Load();
    demo.Loaded(Ok(json));
    var l := ScatterLayout(Some(json)).value;
    assert demo.Screen() == CmmPlot(Marks(l, json.points, false), false);
    greyFill := demo.Screen().marks[0].fill;
    assert greyFill == Fill(false, 1);
    demo.ToggleColor();
    assert demo.Screen() == CmmPlot(Marks(l, json.points, true), true);
    revealedFill := demo.Screen().marks[0].fill;
    assert revealedFill == Fill(true, 1);
    FillOfComponentOne();
  }

  /** Component 1 is grey while hidden and the second palette colour once revealed. */
  lemma FillOfComponentOne()
    ensures Fill(false, 1) == Some("#9ca3af")
    ensures Fill(true, 1) == Some("#E2A432")
  {
    assert JsRem(1, |Palette|) == 1;
  }
}
