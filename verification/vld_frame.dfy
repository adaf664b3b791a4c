/** The plot frame of the cross-section validation program: the axis ranges
    a comparison page is drawn in, computed from the data points and the
    model predictions, and the ranges of the two-graph frame helper. Only
    minima, maxima and scalings are involved; values are real numbers. */
module VldFrame {
  import opened Wrappers

  datatype Point = Point(x: real, y: real)

  /** A graph's points in storage order. */
  type Graph = seq<Point>

  datatype Axis = X | Y

  function Coord(p: Point, a: Axis): real {
    match a
    case X => p.x
    case Y => p.y
  }

  /** `TMath::Min` and `TMath::Max`. */
  function Min(a: real, b: real): real {
    if a <= b then a else b
  }

  function Max(a: real, b: real): real {
    if a >= b then a else b
  }

  /** The value at `TMath::LocMin` of a graph's coordinate array. */
  function Least(g: Graph, a: Axis): (r: real)
    requires |g| > 0
    ensures forall k :: 0 <= k < |g| ==> r <= Coord(g[k], a)
    ensures exists k :: 0 <= k < |g| && Coord(g[k], a) == r
  {
    if |g| == 1 then Coord(g[0], a)
    else
      var rest := Least(g[1..], a);
      var k :| 0 <= k < |g[1..]| && Coord(g[1..][k], a) == rest;
      assert Coord(g[k + 1], a) == rest;
      Min(Coord(g[0], a), rest)
  }

  /** The value at `TMath::LocMax` of a graph's coordinate array. */
  function Greatest(g: Graph, a: Axis): (r: real)
    requires |g| > 0
    ensures forall k :: 0 <= k < |g| ==> Coord(g[k], a) <= r
    ensures exists k :: 0 <= k < |g| && Coord(g[k], a) == r
  {
    if |g| == 1 then Coord(g[0], a)
    else
      var rest := Greatest(g[1..], a);
      var k :| 0 <= k < |g[1..]| && Coord(g[1..][k], a) == rest;
      assert Coord(g[k + 1], a) == rest;
      Max(Coord(g[0], a), rest)
  }

  // ---------------------------------------------------------------------
  // The frame of a comparison page

  /** The running extremes of the frame computation. */
  datatype Bounds = Bounds(xmin: real, xmax: real, ymin: real, ymax: real)

  /** The start values of the extremes. */
  const Sentinel: real := 9999999.0
  const Unset: Bounds := Bounds(Sentinel, -Sentinel, Sentinel, -Sentinel)

  /** Every point of the non-null graphs, graph after graph. */
  function AllPoints(graphs: seq<Option<Graph>>): seq<Point> {
    if graphs == [] then []
    else (if graphs[0].Some? then graphs[0].value else []) + AllPoints(graphs[1..])
  }

  predicate Covers(b: Bounds, p: Point) {
    b.xmin <= p.x <= b.xmax && b.ymin <= p.y <= b.ymax
  }

  /** `outer` spans at least the ranges of `inner`. */
  predicate Spans(outer: Bounds, inner: Bounds) {
    outer.xmin <= inner.xmin && inner.xmax <= outer.xmax
    && outer.ymin <= inner.ymin && inner.ymax <= outer.ymax
  }

  /** Each extreme of `r` is the start value or a coordinate of one of `pts`. */
  predicate Attained(r: Bounds, start: Bounds, pts: seq<Point>) {
    (r.xmin == start.xmin || exists p :: p in pts && p.x == r.xmin)
    && (r.xmax == start.xmax || exists p :: p in pts && p.x == r.xmax)
    && (r.ymin == start.ymin || exists p :: p in pts && p.y == r.ymin)
    && (r.ymax == start.ymax || exists p :: p in pts && p.y == r.ymax)
  }

  /** One non-null data graph folded into the extremes. */
  function Widen(b: Bounds, g: Graph): Bounds
    requires |g| > 0
  {
    Bounds(Min(b.xmin, Least(g, X)), Max(b.xmax, Greatest(g, X)),
           Min(b.ymin, Least(g, Y)), Max(b.ymax, Greatest(g, Y)))
  }

  predicate HasEmptyGraph(graphs: seq<Option<Graph>>) {
    exists i :: 0 <= i < |graphs| && graphs[i] == Some([])
  }

  /** The data loop. A non-null graph without points sends `TMath::LocMin`
      to index -1 and the array read out of bounds: `None`. Otherwise the
      extremes span the start values and every data point, and each is a
      start value or a data coordinate. */
  function DataBounds(b: Bounds, data: seq<Option<Graph>>): (r: Option<Bounds>)
    ensures r.None? <==> HasEmptyGraph(data)
    ensures r.Some? ==> Spans(r.value, b)
    ensures r.Some? ==> forall p :: p in AllPoints(data) ==> Covers(r.value, p)
    ensures r.Some? ==> Attained(r.value, b, AllPoints(data))
    decreases |data|
  {
    if data == [] then Some(b)
    else
      assert HasEmptyGraph(data) <==> data[0] == Some([]) || HasEmptyGraph(data[1..]) by {
        if HasEmptyGraph(data) && data[0] != Some([]) {
          var i :| 0 <= i < |data| && data[i] == Some([]);
          assert data[1..][i - 1] == Some([]);
        }
        if HasEmptyGraph(data[1..]) {
          var i :| 0 <= i < |data[1..]| && data[1..][i] == Some([]);
          assert data[i + 1] == Some([]);
        }
      }
      var head := if data[0].Some? then data[0].value else [];
      assert AllPoints(data) == head + AllPoints(data[1..]);
      if data[0].None? then
        DataBounds(b, data[1..])
      else if data[0].value == [] then None
      else
        var g := data[0].value;
        var w := Widen(b, g);
        var r := DataBounds(w, data[1..]);
        WidenProperties(b, g);
        AttainedStep(r, w, b, g, AllPoints(data[1..]));
        r
  }

  lemma WidenProperties(b: Bounds, g: Graph)
    requires |g| > 0
    ensures Spans(Widen(b, g), b)
    ensures forall p :: p in g ==> Covers(Widen(b, g), p)
    ensures Attained(Widen(b, g), b, g)
  {
  }

  /** Attainment composes: extremes attained from `w` over `rest`, where `w`
      is attained from `b` over `g`, are attained from `b` over `g + rest`. */
  lemma AttainedStep(r: Option<Bounds>, w: Bounds, b: Bounds, g: seq<Point>, rest: seq<Point>)
    requires r.Some? ==> Attained(r.value, w, rest)
    requires Attained(w, b, g)
    ensures r.Some? ==> Attained(r.value, b, g + rest)
  {
  }

  /** Folds the model points into the y extremes: a point counts only when
      its x lies in [xmin, xmax]; the x extremes stay. */
  predicate InXRange(b: Bounds, p: Point) {
    !(p.x < b.xmin || p.x > b.xmax)
  }

  function AddModelPoints(b: Bounds, pts: seq<Point>): (r: Bounds)
    ensures r.xmin == b.xmin && r.xmax == b.xmax
    ensures Spans(r, b)
    ensures forall p :: p in pts && InXRange(b, p) ==> r.ymin <= p.y <= r.ymax
    ensures r.ymin == b.ymin || exists p :: p in pts && InXRange(b, p) && p.y == r.ymin
    ensures r.ymax == b.ymax || exists p :: p in pts && InXRange(b, p) && p.y == r.ymax
    decreases |pts|
  {
    if pts == [] then b
    else
      var p := pts[0];
      var next := if InXRange(b, p) then b.(ymin := Min(b.ymin, p.y), ymax := Max(b.ymax, p.y)) else b;
      assert forall q :: q in pts <==> q == p || q in pts[1..];
      assert forall q :: InXRange(next, q) <==> InXRange(b, q);
      AddModelPoints(next, pts[1..])
  }

  /** A model point outside the data's x range leaves the frame as it is. */
  lemma OutOfRangeModelPointIgnored(b: Bounds, pts: seq<Point>, p: Point, more: seq<Point>)
    requires !InXRange(b, p)
    ensures AddModelPoints(b, pts + [p] + more) == AddModelPoints(b, pts + more)
  {
  }

  /** The x and y extremes the frame is cut from: the data loop, then the
      model loop. */
  function FrameBounds(data: seq<Option<Graph>>, models: seq<Option<Graph>>): Option<Bounds> {
    var d :- DataBounds(Unset, data);
    Some(AddModelPoints(d, AllPoints(models)))
  }

  /** A frame in the order `DrawFrame` takes it: lower x, lower y, upper x,
      upper y. */
  datatype Frame = Frame(xlo: real, ylo: real, xhi: real, yhi: real)

  function YMaxScale(inLogY: bool): real {
    if inLogY then 2.0 else 1.4
  }

  /** The frame of a comparison page. */
  function PageFrame(data: seq<Option<Graph>>, models: seq<Option<Graph>>, inLogY: bool): (r: Option<Frame>)
    ensures r.None? <==> HasEmptyGraph(data)
    ensures r.Some? ==> (exists b :: FrameBounds(data, models) == Some(b)
                           && r.value == Frame(0.5 * b.xmin, 0.4 * b.ymin, 1.2 * b.xmax, YMaxScale(inLogY) * b.ymax))
  {
    var b :- FrameBounds(data, models);
    Some(Frame(0.5 * b.xmin, 0.4 * b.ymin, 1.2 * b.xmax, YMaxScale(inLogY) * b.ymax))
  }

  predicate StrictlyInside(f: Frame, p: Point) {
    f.xlo < p.x < f.xhi && f.ylo < p.y < f.yhi
  }

  /** With positive data and model values the page frame holds every data
      point, and every model point inside the data's x range, strictly
      inside its borders. */
  lemma PageFrameEnclosesPoints(data: seq<Option<Graph>>, models: seq<Option<Graph>>, inLogY: bool)
    requires !HasEmptyGraph(data)
    requires AllPoints(data) != []
    requires forall p :: p in AllPoints(data) ==> p.x > 0.0 && p.y > 0.0
    requires forall p :: p in AllPoints(models) ==> p.y > 0.0
    ensures PageFrame(data, models, inLogY).Some?
    ensures forall p :: p in AllPoints(data) ==> StrictlyInside(PageFrame(data, models, inLogY).value, p)
    ensures forall p :: p in AllPoints(models) && InXRange(DataBounds(Unset, data).value, p)
              ==> StrictlyInside(PageFrame(data, models, inLogY).value, p)
  {
  }

  /** Without any data point the extremes keep their start values and the
      frame comes out with its lower x border above its upper one. */
  lemma NoDataInvertsFrame(data: seq<Option<Graph>>, models: seq<Option<Graph>>, inLogY: bool)
    requires forall i :: 0 <= i < |data| ==> data[i].None?
    ensures DataBounds(Unset, data) == Some(Unset)
    ensures PageFrame(data, models, inLogY).Some?
    ensures PageFrame(data, models, inLogY).value.xlo > PageFrame(data, models, inLogY).value.xhi
  {
    NoPointsFromNulls(data);
  }

  lemma {:induction false} NoPointsFromNulls(data: seq<Option<Graph>>)
    requires forall i :: 0 <= i < |data| ==> data[i].None?
    ensures AllPoints(data) == []
  {
    if data != [] {
      NoPointsFromNulls(data[1..]);
    }
  }

  // ---------------------------------------------------------------------
  // The two-graph frame helper

  /** The axis ranges of a graph as its axes report them. */
  datatype AxisRanges = AxisRanges(xmin: real, xmax: real, ymin: real, ymax: real)

  const DefaultRanges: AxisRanges := AxisRanges(0.00001, 1.0, 0.00001, 1.0)

  /** The ranges the two-graph frame is computed from: the first graph's, or
      the defaults when it is null, and the second graph's when it is given. */
  function Sources(gr0: Option<AxisRanges>, gr1: Option<AxisRanges>): seq<AxisRanges> {
    [if gr0.Some? then gr0.value else DefaultRanges] + (if gr1.Some? then [gr1.value] else [])
  }

  /** `DrawFrame(TGraph*, TGraph*)`: the first graph's ranges replace the
      defaults, the second's are merged in; then the ranges are widened and
      the lower x border is kept at 0.1 or above. The frame's borders are the
      extremes over the source ranges, scaled by 0.5 below and 1.5 above. */
  function GraphsFrame(gr0: Option<AxisRanges>, gr1: Option<AxisRanges>): (f: Frame)
    ensures f.xlo >= 0.1
    ensures forall s :: s in Sources(gr0, gr1) ==>
              f.xlo <= Max(0.1, 0.5 * s.xmin) && 1.5 * s.xmax <= f.xhi
              && f.ylo <= 0.5 * s.ymin && 1.5 * s.ymax <= f.yhi
    ensures exists s :: s in Sources(gr0, gr1) && f.xlo == Max(0.1, 0.5 * s.xmin)
    ensures exists s :: s in Sources(gr0, gr1) && f.xhi == 1.5 * s.xmax
    ensures exists s :: s in Sources(gr0, gr1) && f.ylo == 0.5 * s.ymin
    ensures exists s :: s in Sources(gr0, gr1) && f.yhi == 1.5 * s.ymax
    ensures forall g :: (gr0 == Some(g) || gr1 == Some(g)) && g.xmin >= 0.1 && g.ymin >= 0.0
              && g.xmax >= 0.0 && g.ymax >= 0.0
              ==> f.xlo <= g.xmin && g.xmax <= f.xhi && f.ylo <= g.ymin && g.ymax <= f.yhi
    ensures gr0.None? && gr1.None? ==> f == Frame(0.1, 0.000005, 1.5, 1.5)
  {
    var a := if gr0.Some? then gr0.value else DefaultRanges;
    var m := if gr1.Some? then
               AxisRanges(Min(a.xmin, gr1.value.xmin), Max(a.xmax, gr1.value.xmax),
                          Min(a.ymin, gr1.value.ymin), Max(a.ymax, gr1.value.ymax))
             else a;
    assert Sources(gr0, gr1) == [a] + (if gr1.Some? then [gr1.value] else []);
    Frame(Max(0.1, 0.5 * m.xmin), 0.5 * m.ymin, 1.5 * m.xmax, 1.5 * m.ymax)
  }

  /** With both graphs present their order does not matter. */
  lemma GraphsFrameSymmetric(a: AxisRanges, b: AxisRanges)
    ensures GraphsFrame(Some(a), Some(b)) == GraphsFrame(Some(b), Some(a))
  {
  }

  /** The merged ranges of the two-graph frame, before widening. */
  function MergedRanges(gr0: Option<AxisRanges>, gr1: Option<AxisRanges>): AxisRanges {
    var a := if gr0.Some? then gr0.value else DefaultRanges;
    if gr1.Some? then
      AxisRanges(Min(a.xmin, gr1.value.xmin), Max(a.xmax, gr1.value.xmax),
                 Min(a.ymin, gr1.value.ymin), Max(a.ymax, gr1.value.ymax))
    else a
  }

  /** The frame depends on the graphs only through their merged ranges. */
  lemma FrameOfMerged(gr0: Option<AxisRanges>, gr1: Option<AxisRanges>)
    ensures GraphsFrame(gr0, gr1) == GraphsFrame(Some(MergedRanges(gr0, gr1)), None)
  {
  }

  /** A lone graph in first position is framed from its own ranges alone,
      exactly as if it were given twice. */
  lemma LoneFirstGraph(g: AxisRanges)
    ensures GraphsFrame(Some(g), None) == GraphsFrame(Some(g), Some(g))
  {
    FrameOfMerged(Some(g), Some(g));
    assert MergedRanges(Some(g), Some(g)) == g;
  }

  /** A lone graph in second position is merged with the defaults, exactly
      as if the defaults had been passed first. */
  lemma LoneSecondGraph(g: AxisRanges)
    ensures GraphsFrame(None, Some(g)) == GraphsFrame(Some(DefaultRanges), Some(g))
  {
    FrameOfMerged(None, Some(g));
    FrameOfMerged(Some(DefaultRanges), Some(g));
  }

  /** The two positions of a lone graph agree when its ranges already
      enclose the defaults. */
  lemma LoneGraphEnclosingDefaults(g: AxisRanges)
    requires g.xmin <= DefaultRanges.xmin && DefaultRanges.xmax <= g.xmax
    requires g.ymin <= DefaultRanges.ymin && DefaultRanges.ymax <= g.ymax
    ensures GraphsFrame(Some(g), None) == GraphsFrame(None, Some(g))
  {
    FrameOfMerged(None, Some(g));
    assert MergedRanges(None, Some(g)) == g;
  }

  /** An example where the position of a lone graph changes the frame: the
      ranges 2..3 on both axes, which the defaults' lower borders undercut. */
  lemma GraphsFrameOneGraphAsymmetric()
    ensures GraphsFrame(Some(AxisRanges(2.0, 3.0, 2.0, 3.0)), None) == Frame(1.0, 1.0, 4.5, 4.5)
    ensures GraphsFrame(None, Some(AxisRanges(2.0, 3.0, 2.0, 3.0))) == Frame(0.1, 0.000005, 4.5, 4.5)
  {
  }
}
