/** The second chart (src/pages/Analytics/components/CurrentHumidityGraph.tsx). It is built
    from the temperature history and forecast, not from the humidity slices of the state,
    labels its points with a display clock, and shows a red overlay when some reading is
    above 38. */
module HumidityGraph {
  import opened Wrappers
  import Analytics
  import TempGraph

  /** A chart point labelled with its clock time (`toLocaleTimeString`, given as `clock`). */
  datatype Point = Point(time: string, current: Option<real>, upperBound: Option<real>, lowerBound: Option<real>)

  /** The overlay threshold. */
  const Threshold: real := 38.0

  /** `chartData`, from the state's temperature history and forecast. */
  function ChartData(state: Analytics.MetricState, clock: int -> string): (r: seq<Point>)
    ensures |r| == |state.tempHistory| +
                   (if |state.tempFuture.timestamps| > 0 then 1 + |state.tempFuture.timestamps| else 0)
    ensures forall i :: 0 <= i < |state.tempHistory| ==> r[i].current == state.tempHistory[i].temperature
  {
    var history := state.tempHistory;
    var future := state.tempFuture;
    seq(|history|, i requires 0 <= i < |history| =>
      Point(clock(history[i].datetime), history[i].temperature, None, None))
    + (if |future.timestamps| > 0
       then [Point(clock(future.timestamps[0]), TempGraph.LastTemp(history), None, None)]
       else [])
    + seq(|future.timestamps|, i requires 0 <= i < |future.timestamps| =>
        Point(clock(future.timestamps[i]), None, TempGraph.At(future.upperBound, i), TempGraph.At(future.lowerBound, i)))
  }

  /** A temperature-chart point as this chart shows it. */
  function Relabel(p: TempGraph.Point, clock: int -> string): Point
  {
    Point(clock(p.time), p.current, p.upperBound, p.lowerBound)
  }

  /** The series is the temperature chart's series point for point, kinds dropped and
      times shown on the clock: the same history points, the same connector when there is
      a forecast, and the same index-aligned bounds. */
  lemma SameSeriesAsTemperatureChart(state: Analytics.MetricState, clock: int -> string)
    ensures var full := TempGraph.FullData(state.tempHistory, state.tempFuture);
            var chart := ChartData(state, clock);
            |chart| == |full| && forall i :: 0 <= i < |full| ==> chart[i] == Relabel(full[i], clock)
  {
    var full := TempGraph.FullData(state.tempHistory, state.tempFuture);
    var chart := ChartData(state, clock);
    var h := |state.tempHistory|;
    forall i | 0 <= i < |full|
      ensures chart[i] == Relabel(full[i], clock)
    {
      if h < i {
        assert full[i] == full[h + 1 + (i - h - 1)];
      }
    }
  }

  /** `d.current > threshold`; a null reading is never above it. */
  predicate Above(current: Option<real>)
  {
    current.Some? && current.value > Threshold
  }

  /** `chartData.some(d => d.current > threshold)`, scanning from the front. */
  function SomeAbove(points: seq<Point>): (r: bool)
    ensures r <==> exists i :: 0 <= i < |points| && Above(points[i].current)
  {
    if points == [] then false
    else if Above(points[0].current) then true
    else
      var rest := SomeAbove(points[1..]);
      assert forall i :: 1 <= i < |points| ==> points[i] == points[1..][i - 1];
      rest
  }

  /** The overlay's stroke opacity. */
  function StrokeOpacity(points: seq<Point>): (r: int)
    ensures r == 1 <==> SomeAbove(points)
    ensures r == 0 || r == 1
  {
    if SomeAbove(points) then 1 else 0
  }

  /** The overlay shows exactly when some history reading is above the threshold: the
      connector repeats the last history reading and forecast points carry none. */
  lemma OverlayFromHistory(state: Analytics.MetricState, clock: int -> string)
    ensures StrokeOpacity(ChartData(state, clock)) == 1 <==>
            exists i :: 0 <= i < |state.tempHistory| && Above(state.tempHistory[i].temperature)
  {
    var history := state.tempHistory;
    var chart := ChartData(state, clock);
    var h := |history|;
    if SomeAbove(chart) {
      var i :| 0 <= i < |chart| && Above(chart[i].current);
      if i == h {
        assert Above(history[h - 1].temperature);
      } else {
        assert i < h;
        assert Above(history[i].temperature);
      }
    }
    if exists i :: 0 <= i < h && Above(history[i].temperature) {
      var i :| 0 <= i < h && Above(history[i].temperature);
      assert chart[i].current == history[i].temperature;
    }
  }
}
