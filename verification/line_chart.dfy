/** Geometry of the "Monthly User Activity" line chart: an affine map from a
    data index to a horizontal coordinate, an inverted affine map from a user
    count to a vertical coordinate, the path through the plotted points and
    the horizontal grid lines. Coordinates are exact reals. */
module LineChart {

  /** One month of the data set: its label and its user count. */
  datatype DataPoint = DataPoint(name: string, users: real)

  /** An SVG view box `0 0 width height` with a margin `padding` on every side. */
  datatype Frame = Frame(width: real, height: real, padding: real)

  datatype Point = Point(x: real, y: real)

  /** A path command: `M` moves the pen, `L` draws a straight line. */
  datatype PathOp = M | L

  datatype PathCommand = PathCommand(op: PathOp, to: Point)

  /** One horizontal grid line with the position of its tick label. */
  datatype GridLine = GridLine(from: Point, to: Point, tickText: Point)

  /** A month label under the horizontal axis. */
  datatype AxisLabel = AxisLabel(text: string, at: Point)

  const ChartFrame: Frame := Frame(600.0, 300.0, 40.0)

  /** The fixed value that maps to the top margin. */
  const ScaleMax: real := 1000.0

  const MonthlyUsers: seq<DataPoint> := [
    DataPoint("Jan", 400.0), DataPoint("Feb", 300.0), DataPoint("Mar", 600.0),
    DataPoint("Apr", 820.0), DataPoint("May", 500.0), DataPoint("Jun", 700.0)
  ]

  const YAxisLabels: seq<real> := [0.0, 200.0, 400.0, 600.0, 800.0]

  /** The margin leaves a plot area of positive width and height. */
  predicate HasPlotArea(f: Frame) {
    0.0 <= f.padding && 2.0 * f.padding < f.width && 2.0 * f.padding < f.height
  }

  /** `xScale(i)` for a data set of `n` points. */
  function XScale(f: Frame, n: nat, i: int): real
    requires n >= 2
  {
    f.padding + i as real * (f.width - 2.0 * f.padding) / (n - 1) as real
  }

  /** `yScale(value)`: larger values are drawn higher, with no clamping. */
  function YScale(f: Frame, value: real): real {
    f.height - f.padding - (value / ScaleMax) * (f.height - 2.0 * f.padding)
  }

  /** Where point `i` of `data` is plotted (path vertex and marker circles). */
  function Vertex(f: Frame, data: seq<DataPoint>, i: nat): Point
    requires |data| >= 2 && i < |data|
  {
    Point(XScale(f, |data|, i), YScale(f, data[i].users))
  }

  /** `linePath`: a move to the first vertex and a line to each later one.
      A single point is excluded: there the division by `n - 1` is by zero. */
  function LinePath(f: Frame, data: seq<DataPoint>): seq<PathCommand>
    requires |data| != 1
  {
    seq(|data|, i requires 0 <= i < |data| =>
      PathCommand(if i == 0 then M else L, Vertex(f, data, i)))
  }

  /** The month labels under the horizontal axis, 20 units below the plot. */
  function XAxisLabels(f: Frame, data: seq<DataPoint>): seq<AxisLabel>
    requires |data| != 1
  {
    seq(|data|, i requires 0 <= i < |data| =>
      AxisLabel(data[i].name, Point(XScale(f, |data|, i), f.height - f.padding + 20.0)))
  }

  /** One grid line per tick value, across the plot area at `yScale(label)`,
      with its label 10 units left of the plot and 5 units lower. */
  function GridLines(f: Frame, labels: seq<real>): seq<GridLine> {
    seq(|labels|, k requires 0 <= k < |labels| =>
      var y := YScale(f, labels[k]);
      GridLine(Point(f.padding, y), Point(f.width - f.padding, y), Point(f.padding - 10.0, y + 5.0)))
  }

  /** The first index is drawn at the left margin and the last at the right. */
  lemma XScaleEndpoints(f: Frame, n: nat)
    requires n >= 2
    ensures XScale(f, n, 0) == f.padding
    ensures XScale(f, n, n - 1) == f.width - f.padding
  {
  }

  /** Consecutive indices are a constant step `(width - 2 padding) / (n - 1)`
      apart. */
  lemma XScaleEvenSpacing(f: Frame, n: nat, i: int)
    requires n >= 2
    ensures XScale(f, n, i + 1) - XScale(f, n, i) == (f.width - 2.0 * f.padding) / (n - 1) as real
  {
    var w, d := f.width - 2.0 * f.padding, (n - 1) as real;
    assert (i + 1) as real * w / d == i as real * w / d + w / d;
  }

  /** With a plot area, `xScale` is strictly increasing in the index. */
  lemma XScaleIncreasing(f: Frame, n: nat, i: int, j: int)
    requires n >= 2 && HasPlotArea(f) && i < j
    ensures XScale(f, n, i) < XScale(f, n, j)
  {
    var w, d := f.width - 2.0 * f.padding, (n - 1) as real;
    var a, b := i as real * w, j as real * w;
    assert b - a == (j - i) as real * w;
    assert a < b by {
      assert (j - i) as real >= 1.0 && w > 0.0;
      assert (j - i) as real * w >= w;
    }
    assert a / d < b / d by {
      assert d > 0.0;
      assert b / d - a / d == (b - a) / d;
    }
  }

  /** `yScale` is inverted and affine: zero sits on the bottom margin,
      `ScaleMax` on the top margin, and equal steps in value give equal
      steps upwards. */
  lemma YScaleInvertedAffine(f: Frame, u: real, v: real)
    ensures YScale(f, 0.0) == f.height - f.padding
    ensures YScale(f, ScaleMax) == f.padding
    ensures YScale(f, u) - YScale(f, v) == (v - u) / ScaleMax * (f.height - 2.0 * f.padding)
  {
    assert (v / ScaleMax) * (f.height - 2.0 * f.padding) - (u / ScaleMax) * (f.height - 2.0 * f.padding)
        == (v - u) / ScaleMax * (f.height - 2.0 * f.padding);
  }

  /** With a plot area a larger value is drawn strictly higher; values in
      `[0, ScaleMax]` stay between the margins and larger ones are not
      clamped but drawn above the top margin. */
  lemma YScaleOrder(f: Frame, u: real, v: real)
    requires HasPlotArea(f)
    ensures u < v ==> YScale(f, v) < YScale(f, u)
    ensures 0.0 <= u <= ScaleMax ==> f.padding <= YScale(f, u) <= f.height - f.padding
    ensures u > ScaleMax ==> YScale(f, u) < f.padding
  {
    var top, h := f.height - f.padding, f.height - 2.0 * f.padding;
    assert ScaleMax == 1000.0;
    var a, b := u / ScaleMax, v / ScaleMax;
    assert YScale(f, u) == top - a * h;
    if u < v {
      calc {
        YScale(f, v);
        top - b * h;
      < { DrawnBelow(top, h, a, b); }
        top - a * h;
      }
    }
    if 0.0 <= u <= ScaleMax {
      calc {
        f.padding;
        top - 1.0 * h;
      <= { DrawnBelow(top, h, a, 1.0); }
        top - a * h;
      }
      calc {
        top - a * h;
      <= { DrawnBelow(top, h, 0.0, a); }
        top - 0.0 * h;
        f.height - f.padding;
      }
    }
    if u > ScaleMax {
      calc {
        top - a * h;
      < { DrawnBelow(top, h, 1.0, a); }
        top - 1.0 * h;
        f.padding;
      }
    }
  }

  /** On a line drawn downwards from `top`, a larger fraction of the height
      `h` ends higher. */
  lemma DrawnBelow(top: real, h: real, a: real, b: real)
    requires h > 0.0
    ensures a <= b ==> top - b * h <= top - a * h
    ensures a < b ==> top - b * h < top - a * h
  {
    ScaledOrder(a, b, h);
  }

  /** Scaling by a positive factor keeps the order. */
  lemma ScaledOrder(a: real, b: real, h: real)
    requires h > 0.0
    ensures a <= b ==> a * h <= b * h
    ensures a < b ==> a * h < b * h
  {
    assert b * h - a * h == (b - a) * h;
  }

  /** The path has one command per data point, in index order: `M` to the
      first vertex, `L` to every later one. */
  lemma LinePathCommands(f: Frame, data: seq<DataPoint>)
    requires |data| >= 2
    ensures |LinePath(f, data)| == |data|
    ensures LinePath(f, data)[0] == PathCommand(M, Point(f.padding, YScale(f, data[0].users)))
    ensures forall i :: 0 < i < |data| ==> LinePath(f, data)[i] == PathCommand(L, Vertex(f, data, i))
    ensures LinePath(f, data)[|data| - 1].to.x == f.width - f.padding
  {
    XScaleEndpoints(f, |data|);
  }

  /** With a plot area the path runs strictly left to right, and when every
      value lies in `[0, ScaleMax]` it stays inside the plot area. */
  lemma LinePathInsidePlot(f: Frame, data: seq<DataPoint>)
    requires |data| >= 2 && HasPlotArea(f)
    ensures forall i, j :: 0 <= i < j < |data| ==> LinePath(f, data)[i].to.x < LinePath(f, data)[j].to.x
    ensures (forall i :: 0 <= i < |data| ==> 0.0 <= data[i].users <= ScaleMax) ==>
              forall i :: 0 <= i < |data| ==>
                && f.padding <= LinePath(f, data)[i].to.x <= f.width - f.padding
                && f.padding <= LinePath(f, data)[i].to.y <= f.height - f.padding
  {
    var path, n := LinePath(f, data), |data|;
    forall i, j | 0 <= i < j < n
      ensures path[i].to.x < path[j].to.x
    {
      XScaleIncreasing(f, n, i, j);
    }
    forall i | 0 <= i < n
      ensures f.padding <= path[i].to.x <= f.width - f.padding
    {
      XScaleEndpoints(f, n);
      if i > 0 { XScaleIncreasing(f, n, 0, i); }
      if i < n - 1 { XScaleIncreasing(f, n, i, n - 1); }
    }
    forall i | 0 <= i < n && 0.0 <= data[i].users <= ScaleMax
      ensures f.padding <= path[i].to.y <= f.height - f.padding
    {
      YScaleOrder(f, data[i].users, data[i].users);
    }
  }

  /** Every grid line is horizontal and spans the plot area, its label sits
      left of the plot, and a larger tick value gives a higher line. */
  lemma GridLinesLayout(f: Frame, labels: seq<real>)
    requires HasPlotArea(f)
    ensures |GridLines(f, labels)| == |labels|
    ensures forall k :: 0 <= k < |labels| ==>
      var g := GridLines(f, labels)[k];
      && g.from.y == g.to.y == YScale(f, labels[k])
      && g.from.x == f.padding && g.to.x == f.width - f.padding
      && g.tickText == Point(f.padding - 10.0, g.from.y + 5.0)
    ensures forall k, m :: 0 <= k < |labels| && 0 <= m < |labels| && labels[k] < labels[m] ==>
      GridLines(f, labels)[m].from.y < GridLines(f, labels)[k].from.y
  {
    forall k, m | 0 <= k < |labels| && 0 <= m < |labels| && labels[k] < labels[m]
      ensures GridLines(f, labels)[m].from.y < GridLines(f, labels)[k].from.y
    {
      YScaleOrder(f, labels[k], labels[m]);
    }
  }

  /** The month labels sit under the path vertices, in data order. */
  lemma XAxisLabelsUnderVertices(f: Frame, data: seq<DataPoint>)
    requires |data| >= 2
    ensures |XAxisLabels(f, data)| == |data|
    ensures forall i :: 0 <= i < |data| ==>
      XAxisLabels(f, data)[i].text == data[i].name &&
      XAxisLabels(f, data)[i].at.x == LinePath(f, data)[i].to.x
  {
  }

  /** The chart as drawn: vertices 104 units apart from x = 40 to x = 560. */
  lemma MonthlyUsersPath()
    ensures LinePath(ChartFrame, MonthlyUsers) == [
      PathCommand(M, Point(40.0, 172.0)), PathCommand(L, Point(144.0, 194.0)),
      PathCommand(L, Point(248.0, 128.0)), PathCommand(L, Point(352.0, 79.6)),
      PathCommand(L, Point(456.0, 150.0)), PathCommand(L, Point(560.0, 106.0))
    ]
    ensures GridLines(ChartFrame, YAxisLabels)[0].from.y == 260.0
    ensures GridLines(ChartFrame, YAxisLabels)[4].from.y == 84.0
  {
  }
}
