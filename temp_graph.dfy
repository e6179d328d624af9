/** The temperature chart (src/pages/Analytics/components/CurrentTempGraph.tsx): the series
    built from the history and the forecast, the axis ticks, and the drag-to-zoom state. */
module TempGraph {
  import opened Wrappers
  import Analytics

  datatype PointKind = HistoryPoint | ConnectorPoint | FuturePoint

  /** A chart point; `None` is a null value. */
  datatype Point = Point(time: int, current: Option<real>, upperBound: Option<real>, lowerBound: Option<real>, kind: PointKind)

  /** The last history temperature, or null without history. */
  function LastTemp(history: seq<Analytics.HistoryPoint>): (r: Option<real>)
    ensures |history| == 0 ==> r.None?
    ensures |history| > 0 ==> r == history[|history| - 1].temperature
  {
    if |history| > 0 then history[|history| - 1].temperature else None
  }

  /** `xs[i] ?? null`. */
  function At(xs: seq<real>, i: nat): (r: Option<real>)
    ensures r.Some? <==> i < |xs|
    ensures i < |xs| ==> r.value == xs[i]
  {
    if i < |xs| then Some(xs[i]) else None
  }

  function HistoryPoints(history: seq<Analytics.HistoryPoint>): seq<Point>
  {
    seq(|history|, i requires 0 <= i < |history| =>
      Point(history[i].datetime, history[i].temperature, None, None, HistoryPoint))
  }

  function Connector(history: seq<Analytics.HistoryPoint>, timestamps: seq<int>): seq<Point>
  {
    if |timestamps| > 0 then [Point(timestamps[0], LastTemp(history), None, None, ConnectorPoint)] else []
  }

  function FuturePoints(future: Analytics.Forecast): seq<Point>
  {
    seq(|future.timestamps|, i requires 0 <= i < |future.timestamps| =>
      Point(future.timestamps[i], None, At(future.upperBound, i), At(future.lowerBound, i), FuturePoint))
  }

  /** `fullData`: the history points in order with no bounds; then, when there is a
      forecast, one connector at the first forecast instant carrying the last history
      temperature; then one point per forecast instant with no reading and the bounds at
      the same index (null past their end). */
  function FullData(history: seq<Analytics.HistoryPoint>, future: Analytics.Forecast): (r: seq<Point>)
    ensures |r| == |history| + (if |future.timestamps| > 0 then 1 + |future.timestamps| else 0)
    ensures forall i :: 0 <= i < |history| ==>
              r[i] == Point(history[i].datetime, history[i].temperature, None, None, HistoryPoint)
    ensures |future.timestamps| > 0 ==>
              r[|history|] == Point(future.timestamps[0], LastTemp(history), None, None, ConnectorPoint)
    ensures forall i :: 0 <= i < |future.timestamps| ==>
              r[|history| + 1 + i] ==
                Point(future.timestamps[i], None, At(future.upperBound, i), At(future.lowerBound, i), FuturePoint)
  {
    HistoryPoints(history) + Connector(history, future.timestamps) + FuturePoints(future)
  }

  /** There is a connector exactly when there is a forecast, and never more than one. */
  lemma OneConnector(history: seq<Analytics.HistoryPoint>, future: Analytics.Forecast)
    ensures var r := FullData(history, future);
            && ((exists i :: 0 <= i < |r| && r[i].kind == ConnectorPoint) <==> |future.timestamps| > 0)
            && (forall i, j :: 0 <= i < |r| && 0 <= j < |r| && r[i].kind == ConnectorPoint && r[j].kind == ConnectorPoint ==> i == j)
  {
    var r := FullData(history, future);
    forall i | |history| < i < |r|
      ensures r[i].kind == FuturePoint
    {
      assert r[i] == r[|history| + 1 + (i - |history| - 1)];
    }
    if |future.timestamps| > 0 {
      assert r[|history|].kind == ConnectorPoint;
    }
  }

  /** The points whose time lies in `[lo, hi]`, in order. */
  function Within(points: seq<Point>, lo: int, hi: int): (r: seq<Point>)
    ensures |r| <= |points|
    ensures forall i :: 0 <= i < |r| ==> lo <= r[i].time <= hi
  {
    if points == [] then []
    else (if lo <= points[0].time <= hi then [points[0]] else []) + Within(points[1..], lo, hi)
  }

  /** A point is kept exactly when it is in the series and its time is in range. */
  lemma {:induction false} WithinMembership(points: seq<Point>, lo: int, hi: int, p: Point)
    ensures p in Within(points, lo, hi) <==> p in points && lo <= p.time <= hi
  {
    if points != [] {
      WithinMembership(points[1..], lo, hi, p);
      assert points == [points[0]] + points[1..];
    }
  }

  /** Filtering twice with the same range keeps the same points. */
  lemma {:induction false} WithinIdempotent(points: seq<Point>, lo: int, hi: int)
    ensures Within(Within(points, lo, hi), lo, hi) == Within(points, lo, hi)
  {
    if points != [] {
      WithinIdempotent(points[1..], lo, hi);
      var rest := Within(points[1..], lo, hi);
      if lo <= points[0].time <= hi {
        var kept := [points[0]] + rest;
        assert Within(points, lo, hi) == kept;
        assert kept[0] == points[0] && kept[1..] == rest;
        assert Within(kept, lo, hi) == [points[0]] + Within(rest, lo, hi);
      } else {
        assert Within(points, lo, hi) == rest;
      }
    }
  }

  /** The axis ticks: the times of the points whose index is a multiple of 90, in order. */
  function Ticks(points: seq<Point>): (r: seq<int>)
    ensures |r| == (|points| + 89) / 90
    ensures forall k :: 0 <= k < |r| ==> 90 * k < |points| && r[k] == points[90 * k].time
  {
    if points == [] then []
    else
      var n := |points| - 1;
      var before := Ticks(points[..n]);
      assert forall k :: 0 <= k < |before| ==> points[..n][90 * k] == points[90 * k];
      before + (if n % 90 == 0 then [points[n].time] else [])
  }

  /** `x1 < x2 ? [x1, x2] : [x2, x1]`. */
  function Ordered(a: int, b: int): (r: (int, int))
    ensures r.0 <= r.1
    ensures {r.0, r.1} == {a, b}
  {
    if a < b then (a, b) else (b, a)
  }

  /** `e && e.activeLabel`: a label is usable when present and not 0. */
  predicate Usable(activeLabel: Option<int>)
  {
    activeLabel.Some? && activeLabel.value != 0
  }

  /** The chart's zoom state. */
  class ZoomState {
    var isZooming: bool
    var x1: Option<int>
    var x2: Option<int>
    var filteredData: seq<Point>
    var isZoomed: bool

    /** A zoom shows more than two points, and without one nothing is kept. */
    ghost predicate Valid()
      reads this
    {
      (isZoomed ==> |filteredData| > 2) && (!isZoomed ==> filteredData == [])
    }

    constructor ()
      ensures Valid()
      ensures !isZooming && x1 == None && x2 == None && filteredData == [] && !isZoomed
    {
      isZooming := false;
      x1 := None;
      x2 := None;
      filteredData := [];
      isZoomed := false;
    }

    /** `dataToRender`: the zoomed points while zoomed, the full series otherwise. */
    function Rendered(full: seq<Point>): (r: seq<Point>)
      reads this
      requires Valid()
      ensures isZoomed ==> r == filteredData && |r| > 2
      ensures !isZoomed ==> r == full
    {
      if isZoomed then filteredData else full
    }

    /** `handleMouseDown`: a usable label starts a selection at that label. */
    method MouseDown(activeLabel: Option<int>)
      requires Valid()
      modifies this
      ensures Valid()
      ensures Usable(activeLabel) ==> isZooming && x1 == activeLabel && x2 == activeLabel
      ensures !Usable(activeLabel) ==> isZooming == old(isZooming) && x1 == old(x1) && x2 == old(x2)
      ensures filteredData == old(filteredData) && isZoomed == old(isZoomed)
    {
      if Usable(activeLabel) {
        isZooming := true;
        x1, x2 := activeLabel, activeLabel;
      }
    }

    /** `handleMouseMove`: only the selection's far end moves, and only while selecting. */
    method MouseMove(activeLabel: Option<int>)
      requires Valid()
      modifies this
      ensures Valid()
      ensures x2 == if old(isZooming) && Usable(activeLabel) then activeLabel else old(x2)
      ensures isZooming == old(isZooming) && x1 == old(x1)
      ensures filteredData == old(filteredData) && isZoomed == old(isZoomed)
    {
      if isZooming && Usable(activeLabel) {
        x2 := activeLabel;
      }
    }

    /** `handleMouseUp`: ends a selection. With both ends set, the points between them
        (inclusive, whichever end is larger) become the zoom if there are more than two,
        and the selection is cleared. */
    method MouseUp(full: seq<Point>)
      requires Valid()
      modifies this
      ensures Valid()
      ensures !old(isZooming) ==>
                isZooming == old(isZooming) && x1 == old(x1) && x2 == old(x2)
                && filteredData == old(filteredData) && isZoomed == old(isZoomed)
      ensures old(isZooming) ==> !isZooming
      ensures old(isZooming) && (old(x1).None? || old(x2).None?) ==>
                x1 == old(x1) && x2 == old(x2) && filteredData == old(filteredData) && isZoomed == old(isZoomed)
      ensures old(isZooming) && old(x1).Some? && old(x2).Some? ==>
                var range := Ordered(old(x1).value, old(x2).value);
                var zoomed := Within(full, range.0, range.1);
                && x1 == None && x2 == None
                && (|zoomed| > 2 ==> filteredData == zoomed && isZoomed)
                && (|zoomed| <= 2 ==> filteredData == old(filteredData) && isZoomed == old(isZoomed))
    {
      if !isZooming {
        return;
      }
      isZooming := false;
      if x1.None? || x2.None? {
        return;
      }
      var range := Ordered(x1.value, x2.value);
      var zoomed := Within(full, range.0, range.1);
      if |zoomed| > 2 {
        filteredData := zoomed;
        isZoomed := true;
      }
      x1, x2 := None, None;
    }

    /** `handleZoomOut`: back to the full series. */
    method ZoomOut()
      requires Valid()
      modifies this
      ensures Valid()
      ensures !isZoomed && filteredData == []
      ensures isZooming == old(isZooming) && x1 == old(x1) && x2 == old(x2)
    {
      isZoomed := false;
      filteredData := [];
    }
  }
}
