/** `drawXPLineGraph`: an XP progression drawn as an 800 x 300 line chart with
    an 80-unit inset. Points are spaced by index; the value axis runs from 0 to
    the final amount rounded up to a 100 000 tick step. */
module XPLineGraph {
  import opened Wrappers
  import opened JsStrings
  import opened Svg

  const Width: int := 800
  const Height: int := 300
  const Padding: int := 80
  const TickStep: int := 100000
  const MarkerRadius: real := 5.0
  const MaxXLabels: int := 12
  const UnknownProject: string := "Unknown Project"

  /** The calendar fields the source reads from `new Date(createdAt)`:
      `getFullYear()`, `getMonth() + 1` and `getDate()`. */
  datatype Date = Date(year: int, month: int, day: int)

  /** One element of `xpProgression`. */
  datatype XPPoint = XPPoint(amount: int, createdAt: Date, path: Option<string>)

  /** `Math.ceil(a / d)`: the least integer whose multiple of `d` reaches `a`. */
  function CeilDiv(a: int, d: int): (q: int)
    requires d > 0
    ensures q * d >= a && (q - 1) * d < a
  {
    var f := (-a) / d;
    assert d * f <= -a < d * f + d;
    -f
  }

  /** `year % 100` with JavaScript's `%`, whose remainder has the sign of the year. */
  function ShortYear(year: int): (r: int)
    ensures year >= 0 ==> 0 <= r < 100 && (year - r) % 100 == 0
    ensures year < 0 ==> -100 < r <= 0 && (year - r) % 100 == 0
  {
    if year >= 0 then year % 100 else -((-year) % 100)
  }

  /** The axis maximum: `Math.ceil(totalXP / 100000) * 100000 || 100000`, where
      `totalXP` is the final point's amount, or 100000 when that amount is 0 or
      missing. */
  function MaxXP(lastAmount: Option<int>): (m: int)
    ensures m != 0 && m % TickStep == 0
    ensures (lastAmount == None || lastAmount == Some(0)) ==> m == TickStep
  {
    var totalXP := if lastAmount == None || lastAmount.value == 0 then TickStep else lastAmount.value;
    var rounded := CeilDiv(totalXP, TickStep) * TickStep;
    if rounded == 0 then TickStep else rounded
  }

  /** For a non-negative final amount the axis maximum is the smallest positive
      multiple of the tick step that is at least that amount. */
  lemma MaxXPLeastMultiple(a: int)
    requires a >= 0
    ensures MaxXP(Some(a)) >= a && MaxXP(Some(a)) > 0
    ensures MaxXP(Some(a)) == TickStep || MaxXP(Some(a)) - TickStep < a
  {
    var q := CeilDiv(a, TickStep);
    if a > 0 {
      assert q * TickStep - TickStep == (q - 1) * TickStep;
    }
  }

  /** A negative final amount above -100000 still gives the 100000 floor; from
      -100000 down the axis maximum is negative. */
  lemma MaxXPPositive(a: int)
    ensures MaxXP(Some(a)) > 0 <==> a > -TickStep
    ensures -TickStep < a <= 0 ==> MaxXP(Some(a)) == TickStep
  {
    var q := CeilDiv(if a == 0 then TickStep else a, TickStep);
    if a <= -TickStep {
      assert q * TickStep <= -TickStep;
    } else if a < 0 {
    } else if a > 0 {
      MaxXPLeastMultiple(a);
    }
  }

  /** `maxTicks = Math.ceil(maxXP / tickStep)`. */
  function MaxTicks(maxXP: int): int {
    CeilDiv(maxXP, TickStep)
  }

  /** How often `for (let i = 0; i <= maxTicks; i++)` runs. */
  function GridLineCount(maxXP: int): nat {
    if MaxTicks(maxXP) >= 0 then MaxTicks(maxXP) + 1 else 0
  }

  /** `yScale`: 0 maps to the bottom inner edge, `maxXP` to the top inner edge. */
  function YScale(xp: real, maxXP: int): real
    requires maxXP != 0
  {
    (Height - Padding) as real - (xp / maxXP as real) * (Height - 2 * Padding) as real
  }

  /** `xScale`: point `i` of `n` at `i * 640 / (n - 1) + 80`. With one point the
      source divides 0 by 0, so the scale is defined only from two points on. */
  function XScale(i: int, n: int): real
    requires n >= 2
  {
    (i * (Width - 2 * Padding)) as real / (n - 1) as real + Padding as real
  }

  lemma DivStrictlyMonotone(u: real, v: real, d: real)
    requires d > 0.0 && u < v
    ensures u / d < v / d
  {
    var p, q := u / d, v / d;
    assert p * d == u && q * d == v;
    if p >= q {
      assert false;
    }
  }

  lemma DivBounded(u: real, d: real)
    requires d > 0.0 && 0.0 <= u <= d
    ensures 0.0 <= u / d <= 1.0
  {
    var p := u / d;
    assert p * d == u;
    if p < 0.0 {
      assert false;
    }
    if p > 1.0 {
      assert false;
    }
  }

  /** The value axis: 0 at y = 220, the axis maximum at y = 80, values between
      them inside the plot, and higher values strictly above lower ones
      whenever the axis maximum is positive. */
  lemma YScaleEndpoints(maxXP: int, a: real, b: real)
    requires maxXP > 0
    ensures YScale(0.0, maxXP) == (Height - Padding) as real
    ensures YScale(maxXP as real, maxXP) == Padding as real
    ensures 0.0 <= a <= maxXP as real ==> Padding as real <= YScale(a, maxXP) <= (Height - Padding) as real
    ensures a < b ==> YScale(b, maxXP) < YScale(a, maxXP)
  {
    var m := maxXP as real;
    if 0.0 <= a <= m {
      DivBounded(a, m);
    }
    if a < b {
      DivStrictlyMonotone(a, b, m);
    }
  }

  /** The index axis: the first point at x = 80, the last at x = 720, every
      point inside the plot, and later points strictly to the right of earlier ones. */
  lemma XScaleEndpoints(n: int, i: int, j: int)
    requires n >= 2
    ensures XScale(0, n) == Padding as real
    ensures XScale(n - 1, n) == (Width - Padding) as real
    ensures 0 <= i <= n - 1 ==> Padding as real <= XScale(i, n) <= (Width - Padding) as real
    ensures i < j ==> XScale(i, n) < XScale(j, n)
  {
    XScaleLast(n);
    if 0 <= i <= n - 1 {
      XScaleInside(n, i);
    }
    if i < j {
      XScaleIncreasing(n, i, j);
    }
  }

  lemma XScaleLast(n: int)
    requires n >= 2
    ensures XScale(n - 1, n) == (Width - Padding) as real
  {
    var d := (n - 1) as real;
    var w := (Width - 2 * Padding) as real;
    assert ((n - 1) * (Width - 2 * Padding)) as real == d * w;
    assert (d * w) / d == w;
  }

  lemma XScaleIncreasing(n: int, i: int, j: int)
    requires n >= 2 && i < j
    ensures XScale(i, n) < XScale(j, n)
  {
    var w := Width - 2 * Padding;
    assert i * w < j * w;
    DivStrictlyMonotone((i * w) as real, (j * w) as real, (n - 1) as real);
  }

  lemma XScaleInside(n: int, i: int)
    requires n >= 2 && 0 <= i <= n - 1
    ensures Padding as real <= XScale(i, n) <= (Width - Padding) as real
  {
    var d := (n - 1) as real;
    var w := Width - 2 * Padding;
    var u := (i * w) as real;
    assert i * w <= (n - 1) * w;
    assert 0.0 <= u <= d * w as real;
    DivBounded(u / w as real, d);
    assert u / d == (u / w as real / d) * w as real;
  }

  /** `labelStep = Math.max(1, Math.ceil(n / 12))`. */
  function LabelStep(n: nat): (step: int)
    ensures step >= 1
    ensures step * MaxXLabels >= n
  {
    var c := CeilDiv(n, MaxXLabels);
    if c >= 1 then c else 1
  }

  /** The indices `for (let i = from; i < n; i += step)` visits. */
  function LabelIndices(n: int, step: int, from: nat): seq<nat>
    requires step >= 1
    decreases n - from
  {
    if from >= n then [] else [from] + LabelIndices(n, step, from + step)
  }

  /** The `k`-th visited index is `from + k * step`, every one is below `n`, and
      every such index below `n` is visited. */
  lemma {:induction false} LabelIndicesAt(n: int, step: int, from: nat)
    requires step >= 1
    ensures forall k :: 0 <= k < |LabelIndices(n, step, from)| ==>
      LabelIndices(n, step, from)[k] == from + k * step && from + k * step < n
    ensures forall k: nat :: from + k * step < n ==> k < |LabelIndices(n, step, from)|
    decreases n - from
  {
    if from < n {
      LabelIndicesAt(n, step, from + step);
      var rest := LabelIndices(n, step, from + step);
      forall k | 1 <= k < |LabelIndices(n, step, from)|
        ensures LabelIndices(n, step, from)[k] == from + k * step
      {
        assert LabelIndices(n, step, from)[k] == rest[k - 1];
        assert (from + step) + (k - 1) * step == from + k * step;
      }
      forall k: nat | from + k * step < n
        ensures k < |LabelIndices(n, step, from)|
      {
        if k >= 1 {
          assert (from + step) + (k - 1) * step == from + k * step;
        }
      }
    }
  }

  lemma MulCancel(a: int, b: int, s: int)
    requires s > 0 && a * s < b * s
    ensures a < b
  {
  }

  /** The date labels land on indices 0, step, 2 step, ... below n: index 0 is
      labelled whenever there is a point, and there are at most 12 labels. */
  lemma AtMostTwelveLabels(n: nat)
    ensures n > 0 ==> LabelIndices(n, LabelStep(n), 0) != [] && LabelIndices(n, LabelStep(n), 0)[0] == 0
    ensures |LabelIndices(n, LabelStep(n), 0)| <= MaxXLabels
  {
    var step := LabelStep(n);
    var idx := LabelIndices(n, step, 0);
    LabelIndicesAt(n, step, 0);
    if |idx| > 0 {
      var last := |idx| - 1;
      assert idx[last] == last * step;
      MulCancel(last, MaxXLabels, step);
    }
  }

  /** The two axis lines (`[padding, padding, padding, height - padding]` and
      `[padding, height - padding, width - padding, height - padding]`). */
  function Axes(): seq<Shape> {
    [Line(Padding as real, Padding as real, Padding as real, (Height - Padding) as real, Axis),
     Line(Padding as real, (Height - Padding) as real, (Width - Padding) as real, (Height - Padding) as real, Axis)]
  }

  /** Gridline `j` and its value label. */
  function GridRow(maxXP: int, j: int): seq<Shape>
    requires maxXP != 0
  {
    var value := j * TickStep;
    var y := YScale(value as real, maxXP);
    [Line(Padding as real, y, (Width - Padding) as real, y, Grid),
     Text((Padding - 10) as real, y + 4.0, TickValue(value))]
  }

  /** Gridlines and labels `0 .. k - 1`. */
  function GridUpTo(maxXP: int, k: nat): seq<Shape>
    requires maxXP != 0
  {
    if k == 0 then [] else GridUpTo(maxXP, k - 1) + GridRow(maxXP, k - 1)
  }

  /** The date label of point `i`. */
  function XLabel(points: seq<XPPoint>, i: nat): Shape
    requires |points| >= 2 && i < |points|
  {
    var d := points[i].createdAt;
    Text(XScale(i, |points|), (Height - Padding + 20) as real, MonthYear(d.month, ShortYear(d.year)))
  }

  /** The date labels the x-label loop draws from index `from` on. */
  function XLabelsFrom(points: seq<XPPoint>, step: int, from: nat): seq<Shape>
    requires |points| >= 2 && step >= 1
    decreases |points| - from
  {
    if from >= |points| then [] else [XLabel(points, from)] + XLabelsFrom(points, step, from + step)
  }

  /** The `d` command for point `i`: `M` for the first point, `L` after it. */
  function PathCommand(points: seq<XPPoint>, maxXP: int, i: nat): Command
    requires |points| >= 2 && i < |points| && maxXP != 0
  {
    var x := XScale(i, |points|);
    var y := YScale(points[i].amount as real, maxXP);
    if i == 0 then MoveTo(x, y) else LineTo(x, y)
  }

  /** The path commands for points `0 .. k - 1`. */
  function PathUpTo(points: seq<XPPoint>, maxXP: int, k: nat): seq<Command>
    requires |points| >= 2 && k <= |points| && maxXP != 0
  {
    if k == 0 then [] else PathUpTo(points, maxXP, k - 1) + [PathCommand(points, maxXP, k - 1)]
  }

  /** The tooltip's project name: the last `/`-separated segment of the path,
      or "Unknown Project" when the path or that segment is empty or missing. */
  function ProjectName(path: Option<string>): (name: string)
    ensures name != [] && '/' !in name
    ensures (path == None || path == Some("")) ==> name == UnknownProject
    ensures name == UnknownProject || (path.Some? && |name| <= |path.value| && name == path.value[|path.value| - |name|..])
  {
    UnknownProjectIsClean();
    var p := if path == None || path.value == "" then UnknownProject else path.value;
    var seg := LastSegment(p, '/');
    LastSegmentIsSuffix(p, '/');
    if seg == "" then UnknownProject else seg
  }

  lemma UnknownProjectIsClean()
    ensures UnknownProject != [] && '/' !in UnknownProject
  {
    forall i | 0 <= i < |UnknownProject|
      ensures UnknownProject[i] != '/'
    {
    }
  }

  /** A project path yields its last segment; a path ending in `/` yields "Unknown Project". */
  lemma ProjectNameOfPath(prefix: string, seg: string)
    requires '/' !in seg
    ensures ProjectName(Some(prefix + "/" + seg)) == if seg == "" then UnknownProject else seg
  {
    LastSegmentAfter(prefix, '/', seg);
  }

  /** A non-empty path without `/` is its own project name. */
  lemma ProjectNameNoSlash(p: string)
    requires p != "" && '/' !in p
    ensures ProjectName(Some(p)) == p
  {
    LastSegmentIsSuffix(p, '/');
  }

  /** The marker for point `i`, with its tooltip. */
  function Marker(points: seq<XPPoint>, maxXP: int, i: nat): Shape
    requires |points| >= 2 && i < |points| && maxXP != 0
  {
    var d := points[i].createdAt;
    Circle(XScale(i, |points|), YScale(points[i].amount as real, maxXP), MarkerRadius,
           Tooltip(d.day, d.month, d.year, ProjectName(points[i].path)))
  }

  /** The markers for points `0 .. k - 1`. */
  function MarkersUpTo(points: seq<XPPoint>, maxXP: int, k: nat): seq<Shape>
    requires |points| >= 2 && k <= |points| && maxXP != 0
  {
    if k == 0 then [] else MarkersUpTo(points, maxXP, k - 1) + [Marker(points, maxXP, k - 1)]
  }

  /** The axis maximum of a series. */
  function SeriesMaxXP(points: seq<XPPoint>): int
    requires |points| >= 1
  {
    MaxXP(Some(points[|points| - 1].amount))
  }

  /** Everything `drawXPLineGraph` appends to the svg, in order. */
  function LineChartShapes(points: seq<XPPoint>): seq<Shape>
    requires |points| >= 2
  {
    var m := SeriesMaxXP(points);
    Axes() + GridUpTo(m, GridLineCount(m)) + XLabelsFrom(points, LabelStep(|points|), 0)
      + [Path(PathUpTo(points, m, |points|))] + MarkersUpTo(points, m, |points|)
  }

  function LineChartImage(points: seq<XPPoint>): Image
    requires |points| >= 2
  {
    Image(Width as real, Height as real, LineChartShapes(points))
  }

  /** Row `j` of the grid is the line at the height of `j * 100000` and its label. */
  lemma {:induction false} GridUpToAt(maxXP: int, k: nat)
    requires maxXP != 0
    ensures |GridUpTo(maxXP, k)| == 2 * k
    ensures forall j :: 0 <= j < k ==> GridUpTo(maxXP, k)[2 * j..2 * j + 2] == GridRow(maxXP, j)
  {
    if k > 0 {
      GridUpToAt(maxXP, k - 1);
      var g := GridUpTo(maxXP, k);
      assert g[..2 * (k - 1)] == GridUpTo(maxXP, k - 1);
      forall j | 0 <= j < k
        ensures g[2 * j..2 * j + 2] == GridRow(maxXP, j)
      {
        if j < k - 1 {
          assert g[2 * j..2 * j + 2] == GridUpTo(maxXP, k - 1)[2 * j..2 * j + 2];
        }
      }
    }
  }

  /** For a non-negative final amount there are `maxXP / 100000 + 1` gridlines:
      the first at value 0 on the x axis (y = 220), the last at the axis maximum
      on the top edge (y = 80). */
  lemma GridLines(a: int)
    requires a >= 0
    ensures GridLineCount(MaxXP(Some(a))) == MaxXP(Some(a)) / TickStep + 1
    ensures GridRow(MaxXP(Some(a)), 0)[0] == Line(Padding as real, (Height - Padding) as real, (Width - Padding) as real, (Height - Padding) as real, Grid)
    ensures GridRow(MaxXP(Some(a)), MaxXP(Some(a)) / TickStep)[0] == Line(Padding as real, Padding as real, (Width - Padding) as real, Padding as real, Grid)
  {
    var m := MaxXP(Some(a));
    MaxXPLeastMultiple(a);
    assert m == (m / TickStep) * TickStep;
    var q := MaxTicks(m);
    assert q == m / TickStep by {
      assert q * TickStep >= m && (q - 1) * TickStep < m;
    }
    YScaleEndpoints(m, 0.0, 0.0);
  }

  /** The date labels are the points at the visited indices, in order. */
  lemma {:induction false} XLabelsAtIndices(points: seq<XPPoint>, step: int, from: nat)
    requires |points| >= 2 && step >= 1
    ensures |XLabelsFrom(points, step, from)| == |LabelIndices(|points|, step, from)|
    ensures forall k :: 0 <= k < |XLabelsFrom(points, step, from)| ==>
      LabelIndices(|points|, step, from)[k] < |points| &&
      XLabelsFrom(points, step, from)[k] == XLabel(points, LabelIndices(|points|, step, from)[k])
    decreases |points| - from
  {
    if from < |points| {
      XLabelsAtIndices(points, step, from + step);
    }
  }

  /** The path holds one command per point in index order: `M` for the first, `L` for the rest. */
  lemma {:induction false} PathUpToAt(points: seq<XPPoint>, maxXP: int, k: nat)
    requires |points| >= 2 && k <= |points| && maxXP != 0
    ensures |PathUpTo(points, maxXP, k)| == k
    ensures forall i :: 0 <= i < k ==> PathUpTo(points, maxXP, k)[i] == PathCommand(points, maxXP, i)
  {
    if k > 0 {
      PathUpToAt(points, maxXP, k - 1);
    }
  }

  /** Marker `i` is the circle for point `i`. */
  lemma {:induction false} MarkersUpToAt(points: seq<XPPoint>, maxXP: int, k: nat)
    requires |points| >= 2 && k <= |points| && maxXP != 0
    ensures |MarkersUpTo(points, maxXP, k)| == k
    ensures forall i :: 0 <= i < k ==> MarkersUpTo(points, maxXP, k)[i] == Marker(points, maxXP, i)
  {
    if k > 0 {
      MarkersUpToAt(points, maxXP, k - 1);
      MarkersStep(points, maxXP, k, MarkersUpTo(points, maxXP, k - 1));
    }
  }

  lemma MarkersStep(points: seq<XPPoint>, maxXP: int, k: nat, prev: seq<Shape>)
    requires |points| >= 2 && 0 < k <= |points| && maxXP != 0
    requires |prev| == k - 1 && forall i :: 0 <= i < k - 1 ==> prev[i] == Marker(points, maxXP, i)
    ensures forall i :: 0 <= i < k ==> (prev + [Marker(points, maxXP, k - 1)])[i] == Marker(points, maxXP, i)
  {
    var markers := prev + [Marker(points, maxXP, k - 1)];
    forall i | 0 <= i < k
      ensures markers[i] == Marker(points, maxXP, i)
    {
      if i < k - 1 {
        assert markers[i] == prev[i];
      }
    }
  }

  lemma {:induction false} GridHasOnlyLinesAndText(maxXP: int, k: nat, kind: Kind)
    requires maxXP != 0 && kind != LineKind && kind != TextKind
    ensures Select(GridUpTo(maxXP, k), kind) == []
  {
    if k > 0 {
      GridHasOnlyLinesAndText(maxXP, k - 1, kind);
      var row := GridRow(maxXP, k - 1);
      assert Select(row, kind) == [] by {
        assert KindOf(row[0]) == LineKind && KindOf(row[1]) == TextKind;
        assert row[1..][1..] == [];
        assert Select(row[1..], kind) == [];
      }
      assert GridUpTo(maxXP, k) == GridUpTo(maxXP, k - 1) + row;
      SelectAppend(GridUpTo(maxXP, k - 1), row, kind);
    }
  }

  lemma {:induction false} LabelsHaveOnlyText(points: seq<XPPoint>, step: int, from: nat, kind: Kind)
    requires |points| >= 2 && step >= 1 && kind != TextKind
    ensures Select(XLabelsFrom(points, step, from), kind) == []
    decreases |points| - from
  {
    if from < |points| {
      LabelsHaveOnlyText(points, step, from + step, kind);
      SelectAppend([XLabel(points, from)], XLabelsFrom(points, step, from + step), kind);
    }
  }

  lemma MarkersAreCircles(points: seq<XPPoint>, maxXP: int, k: nat)
    requires |points| >= 2 && k <= |points| && maxXP != 0
    ensures Select(MarkersUpTo(points, maxXP, k), CircleKind) == MarkersUpTo(points, maxXP, k)
    ensures Select(MarkersUpTo(points, maxXP, k), PathKind) == []
  {
    var markers := MarkersUpTo(points, maxXP, k);
    MarkersUpToAt(points, maxXP, k);
    forall i | 0 <= i < |markers|
      ensures KindOf(markers[i]) == CircleKind
    {
      assert markers[i] == Marker(points, maxXP, i);
    }
    SelectUniform(markers, CircleKind, PathKind);
  }

  /** Only the polyline and the markers contribute circles or paths to the chart. */
  lemma ChartSelect(points: seq<XPPoint>, kind: Kind)
    requires |points| >= 2 && kind != LineKind && kind != TextKind
    ensures Select(LineChartShapes(points), kind) ==
      Select([Path(PathUpTo(points, SeriesMaxXP(points), |points|))], kind) +
      Select(MarkersUpTo(points, SeriesMaxXP(points), |points|), kind)
  {
    var m := SeriesMaxXP(points);
    var n := |points|;
    var axes, grid, labels := Axes(), GridUpTo(m, GridLineCount(m)), XLabelsFrom(points, LabelStep(n), 0);
    var path, markers := [Path(PathUpTo(points, m, n))], MarkersUpTo(points, m, n);
    assert LineChartShapes(points) == axes + grid + labels + path + markers;
    assert Select(axes, kind) == [] by {
      assert axes[1..][1..] == [];
    }
    GridHasOnlyLinesAndText(m, GridLineCount(m), kind);
    LabelsHaveOnlyText(points, LabelStep(n), 0, kind);
    SelectAppend(axes, grid, kind);
    SelectAppend(axes + grid, labels, kind);
    SelectAppend(axes + grid + labels, path, kind);
    SelectAppend(axes + grid + labels + path, markers, kind);
  }

  /** The circles of the chart are exactly its markers. */
  lemma ChartCircles(points: seq<XPPoint>)
    requires |points| >= 2
    ensures Select(LineChartShapes(points), CircleKind) == MarkersUpTo(points, SeriesMaxXP(points), |points|)
  {
    var m := SeriesMaxXP(points);
    ChartSelect(points, CircleKind);
    MarkersAreCircles(points, m, |points|);
    OnlyMarkers(Path(PathUpTo(points, m, |points|)), MarkersUpTo(points, m, |points|));
  }

  lemma OnlyMarkers(polyline: Shape, markers: seq<Shape>)
    requires polyline.Path? && Select(markers, CircleKind) == markers
    ensures Select([polyline], CircleKind) + Select(markers, CircleKind) == markers
  {
    SelectSingle(polyline, CircleKind);
  }

  /** The only path of the chart is the polyline. */
  lemma ChartPaths(points: seq<XPPoint>)
    requires |points| >= 2
    ensures Select(LineChartShapes(points), PathKind) == [Path(PathUpTo(points, SeriesMaxXP(points), |points|))]
  {
    var m := SeriesMaxXP(points);
    ChartSelect(points, PathKind);
    MarkersAreCircles(points, m, |points|);
    OnlyPolyline(Path(PathUpTo(points, m, |points|)), MarkersUpTo(points, m, |points|));
  }

  lemma OnlyPolyline(polyline: Shape, markers: seq<Shape>)
    requires polyline.Path? && Select(markers, PathKind) == []
    ensures Select([polyline], PathKind) + Select(markers, PathKind) == [polyline]
  {
    SelectSingle(polyline, PathKind);
  }

  /** One marker per point, centred on the matching vertex of the single
      polyline, whose commands are one `M` followed by `n - 1` `L`s in index
      order; each marker's tooltip names the point's project. */
  lemma MarkersOnPath(points: seq<XPPoint>)
    requires |points| >= 2
    ensures var circles := Select(LineChartShapes(points), CircleKind);
            var paths := Select(LineChartShapes(points), PathKind);
            |paths| == 1 && paths[0].Path? && |paths[0].d| == |points| && |circles| == |points| &&
            paths[0].d[0].MoveTo? && (forall i :: 1 <= i < |points| ==> paths[0].d[i].LineTo?) &&
            forall i :: 0 <= i < |points| ==>
              circles[i].Circle? &&
              circles[i].cx == paths[0].d[i].x == XScale(i, |points|) &&
              circles[i].cy == paths[0].d[i].y == YScale(points[i].amount as real, SeriesMaxXP(points)) &&
              circles[i].title.project == ProjectName(points[i].path)
  {
    var m := SeriesMaxXP(points);
    ChartCircles(points);
    ChartPaths(points);
    PathUpToAt(points, m, |points|);
    MarkersUpToAt(points, m, |points|);
  }

  /** The gridline loop: one dashed line and one value label per tick. */
  method AppendGrid(shapes: seq<Shape>, maxXP: int) returns (r: seq<Shape>)
    requires maxXP != 0
    ensures r == shapes + GridUpTo(maxXP, GridLineCount(maxXP))
  {
    r := shapes;
    var maxTicks := CeilDiv(maxXP, TickStep);
    var i := 0;
    while i <= maxTicks
      invariant 0 <= i && (i <= maxTicks + 1 || i == 0)
      invariant r == shapes + GridUpTo(maxXP, i)
      decreases maxTicks - i
    {
      var value := i * TickStep;
      var y := YScale(value as real, maxXP);
      r := r + [Line(Padding as real, y, (Width - Padding) as real, y, Grid)];
      r := r + [Text((Padding - 10) as real, y + 4.0, TickValue(value))];
      i := i + 1;
    }
  }

  /** The date-label loop: every `labelStep`-th point gets a `month/yy` label. */
  method AppendDateLabels(shapes: seq<Shape>, points: seq<XPPoint>) returns (r: seq<Shape>)
    requires |points| >= 2
    ensures r == shapes + XLabelsFrom(points, LabelStep(|points|), 0)
  {
    var n := |points|;
    var labelStep := LabelStep(n);
    r := shapes;
    var i := 0;
    while i < n
      invariant 0 <= i
      invariant r + XLabelsFrom(points, labelStep, i) == shapes + XLabelsFrom(points, labelStep, 0)
      decreases n - i
    {
      var d := points[i].createdAt;
      r := r + [Text(XScale(i, n), (Height - Padding + 20) as real, MonthYear(d.month, ShortYear(d.year)))];
      i := i + labelStep;
    }
  }

  /** The `pathData +=` loop: one `M` command, then one `L` command per further point. */
  method BuildPath(points: seq<XPPoint>, maxXP: int) returns (pathData: seq<Command>)
    requires |points| >= 2 && maxXP != 0
    ensures pathData == PathUpTo(points, maxXP, |points|)
  {
    var n := |points|;
    pathData := [MoveTo(XScale(0, n), YScale(points[0].amount as real, maxXP))];
    var i := 1;
    while i < n
      invariant 1 <= i <= n
      invariant pathData == PathUpTo(points, maxXP, i)
    {
      pathData := pathData + [LineTo(XScale(i, n), YScale(points[i].amount as real, maxXP))];
      i := i + 1;
    }
  }

  /** The marker loop: one circle with a tooltip per point. */
  method AppendMarkers(shapes: seq<Shape>, points: seq<XPPoint>, maxXP: int) returns (r: seq<Shape>)
    requires |points| >= 2 && maxXP != 0
    ensures r == shapes + MarkersUpTo(points, maxXP, |points|)
  {
    var n := |points|;
    r := shapes;
    var i := 0;
    while i < n
      invariant 0 <= i <= n
      invariant r == shapes + MarkersUpTo(points, maxXP, i)
    {
      // the circle at (xScale(i), yScale(amount)) with its date and project tooltip
      var marker := Marker(points, maxXP, i);
      assert (shapes + MarkersUpTo(points, maxXP, i)) + [marker] == shapes + (MarkersUpTo(points, maxXP, i) + [marker]);
      r := r + [marker];
      i := i + 1;
    }
  }

  /** The svg's children in the order `drawXPLineGraph` appends them: the two
      axes, the grid, the date labels, the polyline and the markers. */
  method BuildLineChart(points: seq<XPPoint>) returns (shapes: seq<Shape>)
    requires |points| >= 2
    ensures shapes == LineChartShapes(points)
  {
    var n := |points|;
    var maxXP := MaxXP(Some(points[n - 1].amount));
    assert maxXP == SeriesMaxXP(points);
    shapes := [];
    shapes := shapes + [Line(Padding as real, Padding as real, Padding as real, (Height - Padding) as real, Axis)];
    shapes := shapes + [Line(Padding as real, (Height - Padding) as real, (Width - Padding) as real, (Height - Padding) as real, Axis)];
    assert shapes == Axes();
    shapes := AppendGrid(shapes, maxXP);
    shapes := AppendDateLabels(shapes, points);
    var pathData := BuildPath(points, maxXP);
    shapes := shapes + [Path(pathData)];
    shapes := AppendMarkers(shapes, points, maxXP);
  }

  /** `drawXPLineGraph(xpProgression, chartTitle, containerId)`. With no data it
      returns before drawing anything; with a missing container it draws and
      then returns without touching any container; otherwise the container's
      content is replaced by one wrapper holding the title and the chart. */
  method DrawXPLineGraph(doc: Document, xpProgression: Option<seq<XPPoint>>,
                         chartTitle: string := "XP Progression", containerId: string := "xp-graph")
    requires xpProgression.Some? ==> |xpProgression.value| != 1
    modifies doc.elements.Values
    ensures (xpProgression.None? || xpProgression.value == [] || containerId !in doc.elements) ==>
      unchanged(doc.elements.Values)
    ensures xpProgression.Some? && xpProgression.value != [] && containerId in doc.elements ==>
      doc.elements[containerId].children == [ChartWrapper(chartTitle, LineChartImage(xpProgression.value))]
    ensures containerId in doc.elements ==>
      forall c | c in doc.elements.Values && c != doc.elements[containerId] :: c.children == old(c.children)
  {
    if xpProgression.None? || |xpProgression.value| == 0 {
      return;
    }
    var shapes := BuildLineChart(xpProgression.value);
    Mount(doc, containerId, chartTitle, Image(Width as real, Height as real, shapes));
  }
}
