/** Angle arithmetic of the "Product Type Distribution" pie chart. Each
    slice's value is a weight; a running cumulative weight turns the weights
    into angular spans in degrees. Angles are exact reals; the trigonometric
    wedge end points are not part of this model. */
module PieChart {
  import opened Wrappers

  /** One slice of the data set. */
  datatype Slice = Slice(name: string, value: real, color: string)

  /** What `getPath` draws for one slice: the sweep from `startAngle` to
      `endAngle` (degrees), the radius and the SVG large-arc flag. */
  datatype Wedge = Wedge(startAngle: real, endAngle: real, radius: real, largeArc: bool)

  const Radius: real := 50.0
  const HoverRadius: real := 55.0

  const ProductTypes: seq<Slice> := [
    Slice("Land Products", 30.0, "#10B981"),
    Slice("Ocean Products", 40.0, "#3B82F6"),
    Slice("Atmospheric Products", 20.0, "#F97316"),
    Slice("Climate Products", 10.0, "#F59E0B")
  ]

  /** The sum of the first `k` values, accumulated from the left as `reduce`
      does; it is also the value of `cumulative` before slice `k` is drawn. */
  function PrefixTotal(data: seq<Slice>, k: nat): real
    requires k <= |data|
  {
    if k == 0 then 0.0 else PrefixTotal(data, k - 1) + data[k - 1].value
  }

  /** `total`: the sum of all the values. */
  function Total(data: seq<Slice>): real {
    PrefixTotal(data, |data|)
  }

  /** The chart divides by the total only when there is a slice to draw. */
  predicate Drawable(data: seq<Slice>) {
    data == [] || Total(data) != 0.0
  }

  predicate AllPositive(data: seq<Slice>) {
    forall i :: 0 <= i < |data| ==> data[i].value > 0.0
  }

  predicate AllNonNegative(data: seq<Slice>) {
    forall i :: 0 <= i < |data| ==> data[i].value >= 0.0
  }

  /** A weight as an angle: `(weight / total) * 360`. */
  function Degrees(weight: real, total: real): real
    requires total != 0.0
  {
    (weight / total) * 360.0
  }

  /** `getPath(value, isHovered)` with `cumulative` the weight drawn so far. */
  function WedgeFor(value: real, cumulative: real, total: real, hovered: bool): Wedge
    requires total != 0.0
  {
    Wedge(Degrees(cumulative, total), Degrees(cumulative + value, total),
          if hovered then HoverRadius else Radius, value / total > 0.5)
  }

  /** What the chart draws for slice `i`: it starts at the weight of the
      slices before it. `hovered` is the index under the mouse, if any. */
  function WedgeAt(data: seq<Slice>, hovered: Option<nat>, i: nat): Wedge
    requires Drawable(data) && i < |data|
  {
    WedgeFor(data[i].value, PrefixTotal(data, i), Total(data), hovered == Some(i))
  }

  /** What the chart draws, slice by slice. */
  function Wedges(data: seq<Slice>, hovered: Option<nat>): seq<Wedge>
    requires Drawable(data)
  {
    seq(|data|, i requires 0 <= i < |data| => WedgeAt(data, hovered, i))
  }

  /** The render loop: `cumulative` starts at 0, each slice's wedge is computed
      from it and it is then advanced by the slice's value. */
  method DrawPie(data: seq<Slice>, hovered: Option<nat>) returns (wedges: seq<Wedge>)
    requires Drawable(data)
    ensures wedges == Wedges(data, hovered)
  {
    var total := Total(data);
    var cumulative := 0.0;
    wedges := [];
    for index := 0 to |data|
      invariant cumulative == PrefixTotal(data, index)
      invariant |wedges| == index
      invariant forall k :: 0 <= k < index ==> wedges[k] == WedgeAt(data, hovered, k)
    {
      var path := WedgeFor(data[index].value, cumulative, total, hovered == Some(index));
      cumulative := cumulative + data[index].value;
      wedges := wedges + [path];
    }
  }

  /** Angles of weights add up as the weights do. */
  lemma DegreesAdd(a: real, b: real, t: real)
    requires t != 0.0
    ensures Degrees(a + b, t) == Degrees(a, t) + Degrees(b, t)
  {
  }

  /** No weight is 0 degrees and the whole total is 360. */
  lemma DegreesEnds(t: real)
    requires t != 0.0
    ensures Degrees(0.0, t) == 0.0 && Degrees(t, t) == 360.0
  {
    assert t / t == 1.0;
  }

  /** Scaling weights to degrees by a positive total keeps their order. */
  lemma DegreesOrder(a: real, b: real, t: real)
    requires t > 0.0 && a <= b
    ensures Degrees(a, t) <= Degrees(b, t)
    ensures a < b ==> Degrees(a, t) < Degrees(b, t)
  {
    DegreesAdd(a, b - a, t);
    assert Degrees(b - a, t) >= 0.0;
    assert a < b ==> Degrees(b - a, t) > 0.0;
  }

  /** The first wedge starts at 0 degrees, the last ends at 360, and each
      wedge starts where the previous one ends: the spans tile the circle for
      any weights whose total is not zero. */
  lemma WedgesTileCircle(data: seq<Slice>, hovered: Option<nat>)
    requires data != [] && Drawable(data)
    ensures |Wedges(data, hovered)| == |data|
    ensures Wedges(data, hovered)[0].startAngle == 0.0
    ensures Wedges(data, hovered)[|data| - 1].endAngle == 360.0
    ensures forall i :: 0 <= i < |data| - 1 ==>
      Wedges(data, hovered)[i].endAngle == Wedges(data, hovered)[i + 1].startAngle
  {
    DegreesEnds(Total(data));
  }

  /** Wedge `i` spans `360 * prefix(i) / total` to `360 * prefix(i + 1) / total`,
      a sweep of `360 * value / total`. */
  lemma WedgeAngles(data: seq<Slice>, hovered: Option<nat>, i: nat)
    requires Drawable(data) && i < |data|
    ensures Wedges(data, hovered)[i].startAngle == Degrees(PrefixTotal(data, i), Total(data))
    ensures Wedges(data, hovered)[i].endAngle == Degrees(PrefixTotal(data, i + 1), Total(data))
    ensures Wedges(data, hovered)[i].endAngle - Wedges(data, hovered)[i].startAngle
         == Degrees(data[i].value, Total(data))
  {
    DegreesAdd(PrefixTotal(data, i), data[i].value, Total(data));
  }

  /** The sum of the sweeps of a list of wedges. */
  function Sweep(wedges: seq<Wedge>): real {
    if wedges == [] then 0.0
    else Sweep(wedges[..|wedges| - 1]) + (wedges[|wedges| - 1].endAngle - wedges[|wedges| - 1].startAngle)
  }

  /** The sweeps of the first `k` wedges add up to the angle where wedge `k`
      starts. */
  lemma {:induction false} SweepOfPrefix(data: seq<Slice>, hovered: Option<nat>, k: nat)
    requires data != [] && Drawable(data) && k <= |data|
    ensures Sweep(Wedges(data, hovered)[..k]) == Degrees(PrefixTotal(data, k), Total(data))
  {
    var w := Wedges(data, hovered);
    if k == 0 {
      assert w[..0] == [];
    } else {
      assert w[..k][..k - 1] == w[..k - 1];
      SweepOfPrefix(data, hovered, k - 1);
      WedgeAngles(data, hovered, k - 1);
      DegreesAdd(PrefixTotal(data, k - 1), data[k - 1].value, Total(data));
    }
  }

  /** The sweeps of all wedges add up to exactly one full turn. */
  lemma SweepIsFullTurn(data: seq<Slice>, hovered: Option<nat>)
    requires data != [] && Drawable(data)
    ensures Sweep(Wedges(data, hovered)) == 360.0
  {
    SweepOfPrefix(data, hovered, |data|);
    assert Wedges(data, hovered)[..|data|] == Wedges(data, hovered);
    DegreesEnds(Total(data));
  }

  /** The prefix totals of non-negative weights grow with the prefix length. */
  lemma {:induction false} PrefixTotalMonotone(data: seq<Slice>, i: nat, j: nat)
    requires AllNonNegative(data) && i <= j <= |data|
    ensures PrefixTotal(data, i) <= PrefixTotal(data, j)
    decreases j - i
  {
    if i < j {
      PrefixTotalMonotone(data, i, j - 1);
    }
  }

  /** The prefix totals of positive weights grow strictly. */
  lemma {:induction false} PrefixTotalIncreasing(data: seq<Slice>, i: nat, j: nat)
    requires AllPositive(data) && i < j <= |data|
    ensures PrefixTotal(data, i) < PrefixTotal(data, j)
    decreases j - i
  {
    if i < j - 1 {
      PrefixTotalIncreasing(data, i, j - 1);
    }
  }

  /** With positive weights no two wedges overlap: every wedge has a positive
      sweep, the angles lie in `[0, 360]`, and wedge `i` ends no later than
      wedge `j > i` starts. */
  lemma WedgesDisjoint(data: seq<Slice>, hovered: Option<nat>)
    requires data != [] && AllPositive(data)
    ensures Drawable(data)
    ensures forall i :: 0 <= i < |data| ==>
      0.0 <= Wedges(data, hovered)[i].startAngle < Wedges(data, hovered)[i].endAngle <= 360.0
    ensures forall i, j :: 0 <= i < j < |data| ==>
      Wedges(data, hovered)[i].endAngle <= Wedges(data, hovered)[j].startAngle
  {
    var n, t := |data|, Total(data);
    PrefixTotalIncreasing(data, 0, n);
    assert t > 0.0;
    var w := Wedges(data, hovered);
    forall i | 0 <= i < n
      ensures 0.0 <= w[i].startAngle < w[i].endAngle <= 360.0
    {
      PrefixTotalMonotone(data, 0, i);
      PrefixTotalMonotone(data, i + 1, n);
      DegreesOrder(0.0, PrefixTotal(data, i), t);
      DegreesOrder(PrefixTotal(data, i), PrefixTotal(data, i + 1), t);
      DegreesOrder(PrefixTotal(data, i + 1), t, t);
      DegreesEnds(t);
    }
    forall i, j | 0 <= i < j < n
      ensures w[i].endAngle <= w[j].startAngle
    {
      PrefixTotalMonotone(data, i + 1, j);
      DegreesOrder(PrefixTotal(data, i + 1), PrefixTotal(data, j), t);
    }
  }

  /** Two different non-negative slices together weigh no more than the
      total. */
  lemma TwoSlicesWithinTotal(data: seq<Slice>, i: nat, j: nat)
    requires AllNonNegative(data) && i < j < |data|
    ensures data[i].value + data[j].value <= Total(data)
  {
    PrefixTotalMonotone(data, 0, i);
    PrefixTotalMonotone(data, i + 1, j);
    PrefixTotalMonotone(data, j + 1, |data|);
  }

  /** The large-arc flag is set exactly for a slice weighing more than half
      the total, so with non-negative weights at most one wedge has it. */
  lemma LargeArcAtMostOnce(data: seq<Slice>, hovered: Option<nat>)
    requires Drawable(data)
    ensures forall i :: 0 <= i < |data| ==>
      (Wedges(data, hovered)[i].largeArc <==> data[i].value / Total(data) > 0.5)
    ensures AllNonNegative(data) ==> forall i, j :: 0 <= i < j < |data| ==>
      !(Wedges(data, hovered)[i].largeArc && Wedges(data, hovered)[j].largeArc)
  {
    if AllNonNegative(data) {
      var w, t := Wedges(data, hovered), Total(data);
      forall i, j | 0 <= i < j < |data|
        ensures !(w[i].largeArc && w[j].largeArc)
      {
        TwoSlicesWithinTotal(data, i, j);
        PrefixTotalMonotone(data, 0, |data|);
        HalfShares(data[i].value, data[j].value, t);
      }
    }
  }

  /** Two non-negative shares of a total they do not exceed cannot both be
      more than half of it. */
  lemma HalfShares(a: real, b: real, t: real)
    requires 0.0 <= a && 0.0 <= b && a + b <= t && t != 0.0
    ensures !(a / t > 0.5 && b / t > 0.5)
  {
    assert t > 0.0;
    if a <= 0.5 * t {
      assert a / t <= 0.5;
    } else {
      assert b <= 0.5 * t;
      assert b / t <= 0.5;
    }
  }

  /** Hovering a slice changes only its radius (55 instead of 50): every angle
      and flag is the same whichever slice is hovered. */
  lemma HoverOnlyChangesRadius(data: seq<Slice>, h1: Option<nat>, h2: Option<nat>)
    requires Drawable(data)
    ensures forall i :: 0 <= i < |data| ==>
      && Wedges(data, h1)[i].startAngle == Wedges(data, h2)[i].startAngle
      && Wedges(data, h1)[i].endAngle == Wedges(data, h2)[i].endAngle
      && Wedges(data, h1)[i].largeArc == Wedges(data, h2)[i].largeArc
      && Wedges(data, h1)[i].radius == (if h1 == Some(i) then HoverRadius else Radius)
  {
  }

  /** The chart as drawn: the boundaries are 0, 108, 252, 324 and 360 degrees
      and no slice takes the large arc. */
  lemma ProductTypesAngles()
    ensures Total(ProductTypes) == 100.0
    ensures Wedges(ProductTypes, None) == [
      Wedge(0.0, 108.0, Radius, false), Wedge(108.0, 252.0, Radius, false),
      Wedge(252.0, 324.0, Radius, false), Wedge(324.0, 360.0, Radius, false)
    ]
  {
    var d := ProductTypes;
    assert PrefixTotal(d, 1) == 30.0;
    assert PrefixTotal(d, 2) == 70.0;
    assert PrefixTotal(d, 3) == 90.0;
    assert PrefixTotal(d, 4) == 100.0;
  }
}
