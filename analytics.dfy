/** The environment metrics container (src/context/AnalyticsContext.tsx): its reducer, the
    threshold alerts, the sensor counts, and the temperature history and forecast built
    for the charts. Instants are integer milliseconds; the REST responses are inputs. */
module Analytics {
  import opened Wrappers
  import Text
  import Config

  datatype Sensors = Sensors(total: int, online: int, offline: int)

  datatype AlertKind = TemperatureAlert | HumidityAlert | SensorAlert

  datatype Color = Red | Yellow | Normal

  datatype Alert = Alert(id: string, kind: AlertKind, message: string, color: Color, timestamp: string)

  /** A history record: its instant and its reading (`None` is a null reading). */
  datatype HistoryPoint = HistoryPoint(datetime: int, temperature: Option<real>)

  datatype Forecast = Forecast(upperBound: seq<real>, lowerBound: seq<real>, predicted: seq<real>, timestamps: seq<int>)

  datatype MetricState = MetricState(
    temperature: real,
    humidity: real,
    sensors: Sensors,
    tempHistory: seq<HistoryPoint>,
    tempFuture: Forecast,
    humidityHistory: seq<HistoryPoint>,
    humidityFuture: Forecast,
    alerts: seq<Alert>)

  function InitialState(): MetricState
  {
    var none := Forecast([], [], [], []);
    MetricState(0.0, 0.0, Sensors(0, 0, 0), [], none, [], none, [])
  }

  /** `updateMetrics` carries only the keys its payload has (`None` = key absent). */
  datatype Action =
    | UpdateMetrics(temperature: Option<real>, humidity: Option<real>, sensors: Option<Sensors>)
    | UpdateTempGraph(history: seq<HistoryPoint>, future: Forecast)
    | UpdateHumidityGraph(history: seq<HistoryPoint>, future: Forecast)
    | UpdateAlerts(alerts: seq<Alert>)
    | UnrecognisedAction(tag: string)

  /** The reducer: `updateMetrics` overwrites exactly the keys its payload has, the graph
      and alert actions replace their own slices, anything else changes nothing. */
  function Reduce(state: MetricState, action: Action): (r: MetricState)
    ensures action.UnrecognisedAction? ==> r == state
    ensures r.temperature == if action.UpdateMetrics? && action.temperature.Some? then action.temperature.value else state.temperature
    ensures r.humidity == if action.UpdateMetrics? && action.humidity.Some? then action.humidity.value else state.humidity
    ensures r.sensors == if action.UpdateMetrics? && action.sensors.Some? then action.sensors.value else state.sensors
    ensures action.UpdateTempGraph? ==> r.tempHistory == action.history && r.tempFuture == action.future
    ensures !action.UpdateTempGraph? ==> r.tempHistory == state.tempHistory && r.tempFuture == state.tempFuture
    ensures action.UpdateHumidityGraph? ==> r.humidityHistory == action.history && r.humidityFuture == action.future
    ensures !action.UpdateHumidityGraph? ==> r.humidityHistory == state.humidityHistory && r.humidityFuture == state.humidityFuture
    ensures r.alerts == if action.UpdateAlerts? then action.alerts else state.alerts
  {
    match action
    case UpdateMetrics(t, h, s) =>
      state.(temperature := t.GetOr(state.temperature),
             humidity := h.GetOr(state.humidity),
             sensors := s.GetOr(state.sensors))
    case UpdateTempGraph(history, future) => state.(tempHistory := history, tempFuture := future)
    case UpdateHumidityGraph(history, future) => state.(humidityHistory := history, humidityFuture := future)
    case UpdateAlerts(alerts) => state.(alerts := alerts)
    case UnrecognisedAction(_) => state
  }

  /** A temperature/humidity reading leaves the sensor counts as they were, and a sensor
      update leaves the readings as they were. */
  lemma MetricsUpdatesIndependent(state: MetricState, t: real, h: real, s: Sensors)
    ensures Reduce(state, UpdateMetrics(Some(t), Some(h), None)).sensors == state.sensors
    ensures var r := Reduce(state, UpdateMetrics(None, None, Some(s)));
            r.temperature == state.temperature && r.humidity == state.humidity && r.sensors == s
  {
  }

  // ---------------------------------------------------------------------------------
  // Alerts

  /** The order alerts come in. */
  function Rank(k: AlertKind): nat
  {
    match k
    case TemperatureAlert => 0
    case HumidityAlert => 1
    case SensorAlert => 2
  }

  function KindName(k: AlertKind): string
  {
    match k
    case TemperatureAlert => "temperature"
    case HumidityAlert => "humidity"
    case SensorAlert => "sensor"
  }

  /** `${x}` of a configured threshold: its rendering, or "undefined" when missing. */
  function ThresholdText(threshold: Option<real>, show: real -> string): string
  {
    if threshold.Some? then show(threshold.value) else "undefined"
  }

  /** The temperature alert's message, which opens by naming what crossed. */
  function TemperatureMessage(threshold: Option<real>, temperature: real, show: real -> string): (m: string)
    ensures |m| > 20 && m[..20] == "Temperature crossed "
  {
    "Temperature crossed " + ThresholdText(threshold, show) + "°C (Current: " + show(temperature) + "°C)"
  }

  /** The humidity alert's message, which opens by naming what crossed. */
  function HumidityMessage(threshold: Option<real>, humidity: real, show: real -> string): (m: string)
    ensures |m| > 17 && m[..17] == "Humidity crossed "
  {
    "Humidity crossed " + ThresholdText(threshold, show) + "% (Current: " + show(humidity) + "%)"
  }

  /** "N sensor offline" / "N sensors offline". */
  function SensorMessage(offline: nat): string
  {
    Text.Digits(offline) + (if offline > 1 then " sensors" else " sensor") + " offline"
  }

  /** The sensor message is plural exactly when more than one sensor is offline. */
  lemma SensorMessagePlural(offline: nat)
    ensures var m := SensorMessage(offline);
            |m| >= 15 && (m[|m| - 15..] == "sensors offline" <==> offline > 1)
  {
    var m := SensorMessage(offline);
    var d := Text.Digits(offline);
    if offline > 1 {
      assert m == d + " sensors offline";
    } else {
      assert m == d + " sensor offline";
      assert m[|m| - 15..] == " sensor offline";
    }
  }

  /** What `buildAlerts` reads: the readings and sensor counts it is given (`None` when
      absent) and the configured thresholds (`None` when undefined or null). */
  datatype AlertInputs = AlertInputs(
    temperature: Option<real>,
    humidity: Option<real>,
    sensors: Option<Sensors>,
    temperatureThreshold: Option<real>,
    humidityThreshold: Option<real>)

  /** A reading above its threshold; a missing reading or threshold counts as 0. */
  predicate Crossed(reading: Option<real>, threshold: Option<real>)
  {
    reading.GetOr(0.0) > threshold.GetOr(0.0)
  }

  /** When an alert of each kind is due. */
  predicate Due(inputs: AlertInputs, k: AlertKind)
  {
    match k
    case TemperatureAlert => Crossed(inputs.temperature, inputs.temperatureThreshold)
    case HumidityAlert => Crossed(inputs.humidity, inputs.humidityThreshold)
    case SensorAlert => inputs.sensors.Some? && inputs.sensors.value.offline > 0
  }

  /** The message of each kind of alert (the sensor one only when it is due). */
  function MessageFor(inputs: AlertInputs, k: AlertKind, show: real -> string): (m: string)
    ensures m == "" <==> k == SensorAlert && !(inputs.sensors.Some? && inputs.sensors.value.offline > 0)
    ensures k == SensorAlert && m != "" ==> m == SensorMessage(inputs.sensors.value.offline)
  {
    match k
    case TemperatureAlert => TemperatureMessage(inputs.temperatureThreshold, inputs.temperature.GetOr(0.0), show)
    case HumidityAlert => HumidityMessage(inputs.humidityThreshold, inputs.humidity.GetOr(0.0), show)
    case SensorAlert =>
      if inputs.sensors.Some? && inputs.sensors.value.offline > 0 then SensorMessage(inputs.sensors.value.offline) else ""
  }

  /** The alert of one kind: present only when due, red, stamped with the local time and
      identified by its kind and the instant. */
  function AlertIf(inputs: AlertInputs, k: AlertKind, nowMs: nat, nowLocal: string, show: real -> string): (r: seq<Alert>)
    ensures |r| == if Due(inputs, k) then 1 else 0
    ensures forall i :: 0 <= i < |r| ==>
              r[i] == Alert(KindName(k) + "-" + Text.Digits(nowMs), k, MessageFor(inputs, k, show), Red, nowLocal)
  {
    if Due(inputs, k) then [Alert(KindName(k) + "-" + Text.Digits(nowMs), k, MessageFor(inputs, k, show), Red, nowLocal)]
    else []
  }

  /** The alerts `buildAlerts` returns: the temperature alert, then the humidity alert,
      then the sensor alert, each present only when due. */
  function AlertsFor(inputs: AlertInputs, nowMs: nat, nowLocal: string, show: real -> string): (alerts: seq<Alert>)
    ensures |alerts| <= 3
  {
    AlertIf(inputs, TemperatureAlert, nowMs, nowLocal, show)
    + AlertIf(inputs, HumidityAlert, nowMs, nowLocal, show)
    + AlertIf(inputs, SensorAlert, nowMs, nowLocal, show)
  }

  predicate Raised(alerts: seq<Alert>, k: AlertKind)
  {
    exists i :: 0 <= i < |alerts| && alerts[i].kind == k
  }

  lemma RaisedConcat(a: seq<Alert>, b: seq<Alert>, k: AlertKind)
    ensures Raised(a + b, k) <==> Raised(a, k) || Raised(b, k)
  {
    if Raised(a, k) {
      var i :| 0 <= i < |a| && a[i].kind == k;
      assert (a + b)[i] == a[i];
    }
    if Raised(b, k) {
      var i :| 0 <= i < |b| && b[i].kind == k;
      assert (a + b)[|a| + i] == b[i];
    }
  }

  lemma RaisedAlertIf(inputs: AlertInputs, kind: AlertKind, nowMs: nat, nowLocal: string, show: real -> string, k: AlertKind)
    ensures Raised(AlertIf(inputs, kind, nowMs, nowLocal, show), k) <==> Due(inputs, kind) && kind == k
  {
    if Due(inputs, kind) {
      assert AlertIf(inputs, kind, nowMs, nowLocal, show)[0].kind == kind;
    }
  }

  /** An alert of each kind is raised exactly when it is due: a reading above its
      threshold (missing values count as 0), or some sensor offline. */
  lemma AlertsRaisedIff(inputs: AlertInputs, nowMs: nat, nowLocal: string, show: real -> string, k: AlertKind)
    ensures Raised(AlertsFor(inputs, nowMs, nowLocal, show), k) <==> Due(inputs, k)
  {
    var a := AlertIf(inputs, TemperatureAlert, nowMs, nowLocal, show);
    var b := AlertIf(inputs, HumidityAlert, nowMs, nowLocal, show);
    var c := AlertIf(inputs, SensorAlert, nowMs, nowLocal, show);
    RaisedConcat(a + b, c, k);
    RaisedConcat(a, b, k);
    RaisedAlertIf(inputs, TemperatureAlert, nowMs, nowLocal, show, k);
    RaisedAlertIf(inputs, HumidityAlert, nowMs, nowLocal, show, k);
    RaisedAlertIf(inputs, SensorAlert, nowMs, nowLocal, show, k);
  }

  /** Where an alert of a kind sits: after one alert for each earlier kind that is due. */
  function Position(inputs: AlertInputs, k: AlertKind): nat
  {
    (if Rank(k) > 0 && Due(inputs, TemperatureAlert) then 1 else 0)
    + (if Rank(k) > 1 && Due(inputs, HumidityAlert) then 1 else 0)
  }

  /** Every alert is due, red, stamped with the local time, identified by its kind and the
      instant, carries its kind's message, and sits after the due alerts of earlier kinds. */
  lemma AlertAt(inputs: AlertInputs, nowMs: nat, nowLocal: string, show: real -> string, i: nat)
    requires i < |AlertsFor(inputs, nowMs, nowLocal, show)|
    ensures var a := AlertsFor(inputs, nowMs, nowLocal, show)[i];
            && Due(inputs, a.kind)
            && a == Alert(KindName(a.kind) + "-" + Text.Digits(nowMs), a.kind, MessageFor(inputs, a.kind, show), Red, nowLocal)
            && i == Position(inputs, a.kind)
  {
    var a := AlertIf(inputs, TemperatureAlert, nowMs, nowLocal, show);
    var b := AlertIf(inputs, HumidityAlert, nowMs, nowLocal, show);
    var c := AlertIf(inputs, SensorAlert, nowMs, nowLocal, show);
    var all := a + b + c;
    if i < |a| {
      assert all[i] == a[i];
    } else if i < |a| + |b| {
      assert all[i] == b[i - |a|];
    } else {
      assert all[i] == c[i - |a| - |b|];
    }
  }

  /** Alerts come in the order temperature, humidity, sensor, so there is at most one of
      each kind. */
  lemma AlertsOrdered(inputs: AlertInputs, nowMs: nat, nowLocal: string, show: real -> string)
    ensures var alerts := AlertsFor(inputs, nowMs, nowLocal, show);
            forall i, j :: 0 <= i < j < |alerts| ==> Rank(alerts[i].kind) < Rank(alerts[j].kind)
  {
    var alerts := AlertsFor(inputs, nowMs, nowLocal, show);
    forall i, j | 0 <= i < j < |alerts|
      ensures Rank(alerts[i].kind) < Rank(alerts[j].kind)
    {
      AlertAt(inputs, nowMs, nowLocal, show, i);
      AlertAt(inputs, nowMs, nowLocal, show, j);
    }
  }

  /** `buildAlerts` itself: pushes each due alert in turn onto an initially empty list. */
  method BuildAlerts(inputs: AlertInputs, nowMs: nat, nowLocal: string, show: real -> string) returns (alerts: seq<Alert>)
    ensures alerts == AlertsFor(inputs, nowMs, nowLocal, show)
  {
    alerts := [];
    var stamp := Text.Digits(nowMs);
    var temperature := inputs.temperature.GetOr(0.0);
    var humidity := inputs.humidity.GetOr(0.0);
    assert "temperature-" + stamp == KindName(TemperatureAlert) + "-" + stamp;
    assert "humidity-" + stamp == KindName(HumidityAlert) + "-" + stamp;
    assert "sensor-" + stamp == KindName(SensorAlert) + "-" + stamp;
    if temperature > inputs.temperatureThreshold.GetOr(0.0) {
      alerts := alerts + [Alert("temperature-" + stamp, TemperatureAlert,
                                TemperatureMessage(inputs.temperatureThreshold, temperature, show), Red, nowLocal)];
    }
    if humidity > inputs.humidityThreshold.GetOr(0.0) {
      alerts := alerts + [Alert("humidity-" + stamp, HumidityAlert,
                                HumidityMessage(inputs.humidityThreshold, humidity, show), Red, nowLocal)];
    }
    if inputs.sensors.Some? && inputs.sensors.value.offline > 0 {
      alerts := alerts + [Alert("sensor-" + stamp, SensorAlert, SensorMessage(inputs.sensors.value.offline), Red, nowLocal)];
    }
  }

  // ---------------------------------------------------------------------------------
  // Sensors

  /** `filter(s => s.isActive).length`, each sensor given by its `isActive` truthiness. */
  function CountActive(isActive: seq<bool>): (n: nat)
    ensures n <= |isActive|
  {
    if isActive == [] then 0 else (if isActive[0] then 1 else 0) + CountActive(isActive[1..])
  }

  /** The count is the number of `true` entries, whatever their order. */
  lemma {:induction false} CountActiveIsMultiplicity(isActive: seq<bool>)
    ensures CountActive(isActive) == multiset(isActive)[true]
  {
    if isActive != [] {
      assert isActive == [isActive[0]] + isActive[1..];
      assert multiset(isActive) == multiset([isActive[0]]) + multiset(isActive[1..]);
      CountActiveIsMultiplicity(isActive[1..]);
    }
  }

  /** The counts for a sensor list: every sensor is online or offline, never both. */
  function SensorCounts(isActive: seq<bool>): (s: Sensors)
    ensures s.total == |isActive|
    ensures 0 <= s.online <= s.total && 0 <= s.offline <= s.total
    ensures s.online + s.offline == s.total
    ensures s.online == multiset(isActive)[true] && s.offline == s.total - s.online
    ensures s.offline == 0 <==> forall i :: 0 <= i < |isActive| ==> isActive[i]
  {
    var online := CountActive(isActive);
    CountActiveIsMultiplicity(isActive);
    AllActiveIffFull(isActive);
    Sensors(|isActive|, online, |isActive| - online)
  }

  lemma {:induction false} AllActiveIffFull(isActive: seq<bool>)
    ensures CountActive(isActive) == |isActive| <==> forall i :: 0 <= i < |isActive| ==> isActive[i]
  {
    if isActive != [] {
      AllActiveIffFull(isActive[1..]);
      if forall i :: 0 <= i < |isActive| ==> isActive[i] {
        assert forall i :: 0 <= i < |isActive| - 1 ==> isActive[1..][i];
      }
      if CountActive(isActive) == |isActive| {
        forall i | 0 <= i < |isActive|
          ensures isActive[i]
        {
          if i > 0 {
            assert isActive[i] == isActive[1..][i - 1];
          }
        }
      }
    }
  }

  /** The sensor list response: the request failed (network error, non-OK status or
      unreadable body), or a body with its `success` flag and `data` (`None` when it is
      not an array; each sensor given by its `isActive` truthiness). */
  datatype SensorResponse = SensorRequestFailed | SensorBody(success: bool, data: Option<seq<bool>>)

  predicate SensorPollDispatches(configured: bool, response: SensorResponse)
  {
    configured && response.SensorBody? && response.success && response.data.Some?
  }

  /** `fetchSensorStatus` (`configured`: the API base URL and the sensor endpoint are both
      set). With a valid list it dispatches the counts, then the alerts rebuilt from the
      readings the state holds and the new counts; otherwise nothing. A sensor alert is
      raised exactly when some listed sensor is inactive. */
  method FetchSensorStatus(configured: bool, response: SensorResponse, state: MetricState,
                           temperatureThreshold: Option<real>, humidityThreshold: Option<real>,
                           nowMs: nat, nowLocal: string, show: real -> string)
    returns (actions: seq<Action>)
    ensures !SensorPollDispatches(configured, response) ==> actions == []
    ensures SensorPollDispatches(configured, response) ==>
              var sensors := SensorCounts(response.data.value);
              var inputs := AlertInputs(Some(state.temperature), Some(state.humidity), Some(sensors),
                                        temperatureThreshold, humidityThreshold);
              && actions == [UpdateMetrics(None, None, Some(sensors)), UpdateAlerts(AlertsFor(inputs, nowMs, nowLocal, show))]
              && (Raised(actions[1].alerts, SensorAlert) <==>
                    exists i :: 0 <= i < |response.data.value| && !response.data.value[i])
  {
    if !SensorPollDispatches(configured, response) {
      return [];
    }
    var sensors := SensorCounts(response.data.value);
    var inputs := AlertInputs(Some(state.temperature), Some(state.humidity), Some(sensors),
                              temperatureThreshold, humidityThreshold);
    var alerts := BuildAlerts(inputs, nowMs, nowLocal, show);
    AlertsRaisedIff(inputs, nowMs, nowLocal, show, SensorAlert);
    actions := [UpdateMetrics(None, None, Some(sensors)), UpdateAlerts(alerts)];
  }

  /** The current-reading response's `data`: `temperature.data.celsius`,
      `temperature.value`, `humidity.data.relativePercentage`, `humidity.value`
      (`None` when missing or null). */
  datatype EnvData = EnvData(celsius: Option<real>, temperatureValue: Option<real>,
                             relativePercentage: Option<real>, humidityValue: Option<real>)

  datatype EnvResponse = EnvRequestFailed | EnvBody(success: bool, data: Option<EnvData>)

  predicate EnvPollDispatches(configured: bool, response: EnvResponse)
  {
    configured && response.EnvBody? && response.success && response.data.Some?
  }

  /** `x ?? y ?? 0`: the first reading present. */
  function Reading(first: Option<real>, second: Option<real>): (r: real)
    ensures first.Some? ==> r == first.value
    ensures first.None? && second.Some? ==> r == second.value
    ensures first.None? && second.None? ==> r == 0.0
  {
    first.GetOr(second.GetOr(0.0))
  }

  /** `fetchEnvMetrics` (`configured`: the API base URL is set). With a valid body it
      dispatches the readings (the detailed field, else `value`, else 0), then the
      alerts rebuilt from them and the sensor counts the state held when the poll began. */
  method FetchEnvMetrics(configured: bool, response: EnvResponse, state: MetricState,
                         temperatureThreshold: Option<real>, humidityThreshold: Option<real>,
                         nowMs: nat, nowLocal: string, show: real -> string)
    returns (actions: seq<Action>)
    ensures !EnvPollDispatches(configured, response) ==> actions == []
    ensures EnvPollDispatches(configured, response) ==>
              var d := response.data.value;
              var t := Reading(d.celsius, d.temperatureValue);
              var h := Reading(d.relativePercentage, d.humidityValue);
              var inputs := AlertInputs(Some(t), Some(h), Some(state.sensors), temperatureThreshold, humidityThreshold);
              && actions == [UpdateMetrics(Some(t), Some(h), None), UpdateAlerts(AlertsFor(inputs, nowMs, nowLocal, show))]
              && (Raised(actions[1].alerts, TemperatureAlert) <==> t > temperatureThreshold.GetOr(0.0))
              && (Raised(actions[1].alerts, HumidityAlert) <==> h > humidityThreshold.GetOr(0.0))
              && (Raised(actions[1].alerts, SensorAlert) <==> state.sensors.offline > 0)
  {
    if !EnvPollDispatches(configured, response) {
      return [];
    }
    var d := response.data.value;
    var t := Reading(d.celsius, d.temperatureValue);
    var h := Reading(d.relativePercentage, d.humidityValue);
    var inputs := AlertInputs(Some(t), Some(h), Some(state.sensors), temperatureThreshold, humidityThreshold);
    var alerts := BuildAlerts(inputs, nowMs, nowLocal, show);
    AlertsRaisedIff(inputs, nowMs, nowLocal, show, TemperatureAlert);
    AlertsRaisedIff(inputs, nowMs, nowLocal, show, HumidityAlert);
    AlertsRaisedIff(inputs, nowMs, nowLocal, show, SensorAlert);
    actions := [UpdateMetrics(Some(t), Some(h), None), UpdateAlerts(alerts)];
  }

  // ---------------------------------------------------------------------------------
  // Temperature history and forecast

  /** The fixed +5:30 display shift, in milliseconds. */
  const DisplayShiftMs: int := 19_800_000

  /** A stored record: `createdAt` as an instant (`None` when it does not parse as a
      date) and its temperature (`None` when undefined or null). */
  datatype DbRecord = DbRecord(createdAt: Option<int>, temperature: Option<real>)

  /** The history for a list of records: every record shifted by the display offset with
      a null reading kept null, or `None` when some record's date is invalid (formatting
      it throws and the whole fetch is abandoned). */
  function HistoryOf(actual: seq<DbRecord>): (r: Option<seq<HistoryPoint>>)
    ensures r.None? <==> exists i :: 0 <= i < |actual| && actual[i].createdAt.None?
    ensures r.Some? ==> |r.value| == |actual|
    ensures r.Some? ==> forall i :: 0 <= i < |actual| ==>
              r.value[i] == HistoryPoint(actual[i].createdAt.value + DisplayShiftMs, actual[i].temperature)
  {
    if actual == [] then Some([])
    else if actual[0].createdAt.None? then None
    else
      var rest := HistoryOf(actual[1..]);
      if rest.None? then
        assert actual[1..][0] == actual[1];
        None
      else
        Some([HistoryPoint(actual[0].createdAt.value + DisplayShiftMs, actual[0].temperature)] + rest.value)
  }

  /** `data.actual` mapped when it is an array (`Some`), the empty history otherwise. */
  function HistoryFromBody(actual: Option<seq<DbRecord>>): (r: Option<seq<HistoryPoint>>)
    ensures actual.None? ==> r == Some([])
    ensures actual.Some? ==> r == HistoryOf(actual.value)
  {
    if actual.None? then Some([]) else HistoryOf(actual.value)
  }

  /** The UTC calendar fields of an instant, as `getUTCFullYear()`, `getUTCMonth()`
      (from 0), `getUTCDate()`, `getUTCHours()`, `getUTCMinutes()`, `getUTCSeconds()`. */
  datatype UtcParts = UtcParts(year: int, month0: nat, day: nat, hours: nat, minutes: nat, seconds: nat)

  predicate ValidParts(p: UtcParts)
  {
    p.month0 < 12 && 1 <= p.day <= 31 && p.hours < 24 && p.minutes < 60 && p.seconds < 60
  }

  /** Years with four digits, the ones the grid text can carry. */
  predicate FourDigitYear(p: UtcParts)
  {
    1000 <= p.year <= 9999
  }

  /** A number concatenated to a string: its decimal text, signed when negative. */
  function YearText(year: int): string
  {
    if year < 0 then "-" + Text.Digits(-year) else Text.Digits(year)
  }

  /** A grid entry: the zero-padded UTC fields as `YYYY-MM-DD HH:mm:SS`. */
  function GridText(p: UtcParts): string
  {
    Layout(YearText(p.year), Text.Pad2(p.month0 + 1), Text.Pad2(p.day),
           Text.Pad2(p.hours), Text.Pad2(p.minutes), Text.Pad2(p.seconds))
  }

  /** `YYYY-MM-DD HH:mm:SS` assembled from its six fields. */
  function Layout(year: string, month: string, day: string, hours: string, minutes: string, seconds: string): string
  {
    year + "-" + month + "-" + day + " " + hours + ":" + minutes + ":" + seconds
  }

  /** A prefix made of two parts holds each part at its place. */
  lemma PrefixParts<T>(s: seq<T>, a: seq<T>, b: seq<T>)
    requires |a| + |b| <= |s| && s[..|a| + |b|] == a + b
    ensures s[..|a|] == a && s[|a|..|a| + |b|] == b
  {
    assert s[..|a|] == s[..|a| + |b|][..|a|];
    assert s[|a|..|a| + |b|] == s[..|a| + |b|][|a|..];
  }

  /** A layout of four- and two-character fields puts each field and separator at a fixed
      position. */
  lemma LayoutPositions(year: string, month: string, day: string, hours: string, minutes: string, seconds: string)
    requires |year| == 4 && |month| == 2 && |day| == 2 && |hours| == 2 && |minutes| == 2 && |seconds| == 2
    ensures var s := Layout(year, month, day, hours, minutes, seconds);
            && |s| == 19 && s[4] == '-' && s[7] == '-' && s[10] == ' ' && s[13] == ':' && s[16] == ':'
            && s[..4] == year && s[5..7] == month && s[8..10] == day
            && s[11..13] == hours && s[14..16] == minutes && s[17..] == seconds
  {
    var s := Layout(year, month, day, hours, minutes, seconds);
    var a := year + "-";
    var b := a + month;
    var c := b + "-";
    var d := c + day;
    var e := d + " ";
    var f := e + hours;
    var g := f + ":";
    var h := g + minutes;
    var i := h + ":";
    assert s == i + seconds;
    assert s[..|s|] == s;
    PrefixParts(s, i, seconds);
    PrefixParts(s, h, ":");
    PrefixParts(s, g, minutes);
    PrefixParts(s, f, ":");
    PrefixParts(s, e, hours);
    PrefixParts(s, d, " ");
    PrefixParts(s, c, day);
    PrefixParts(s, b, "-");
    PrefixParts(s, a, month);
    PrefixParts(s, year, "-");
    assert s[4] == s[4..5][0];
    assert s[7] == s[7..8][0];
    assert s[10] == s[10..11][0];
    assert s[13] == s[13..14][0];
    assert s[16] == s[16..17][0];
  }

  /** The calendar fields a date-time's digit groups name, when they are in range. */
  function FieldsOf(year: string, month: string, day: string, hours: string, minutes: string, seconds: string): (r: Option<UtcParts>)
    requires Text.AllDigits(year) && Text.AllDigits(month) && Text.AllDigits(day)
    requires Text.AllDigits(hours) && Text.AllDigits(minutes) && Text.AllDigits(seconds)
    ensures r.Some? ==> ValidParts(r.value) && FourDigitYear(r.value)
  {
    var m := Text.ValueOf(month);
    var p := UtcParts(Text.ValueOf(year), if m > 0 then m - 1 else 0, Text.ValueOf(day),
                      Text.ValueOf(hours), Text.ValueOf(minutes), Text.ValueOf(seconds));
    if 1 <= m && ValidParts(p) && FourDigitYear(p) then Some(p) else None
  }

  /** What `new Date(text.replace(" ", "T") + "Z")` reads from a grid entry: the date-time
      `YYYY-MM-DD HH:mm:SS` with in-range fields, or `None` (an invalid date). */
  function ParseGridText(s: string): (r: Option<UtcParts>)
    ensures r.Some? ==> |s| == 19 && ValidParts(r.value) && FourDigitYear(r.value)
  {
    if |s| == 19 && s[4] == '-' && s[7] == '-' && s[10] == ' ' && s[13] == ':' && s[16] == ':'
       && Text.AllDigits(s[..4]) && Text.AllDigits(s[5..7]) && Text.AllDigits(s[8..10])
       && Text.AllDigits(s[11..13]) && Text.AllDigits(s[14..16]) && Text.AllDigits(s[17..])
    then FieldsOf(s[..4], s[5..7], s[8..10], s[11..13], s[14..16], s[17..])
    else None
  }

  /** A layout of digit fields of the right widths reads back as the fields they name. */
  lemma ParseLayout(year: string, month: string, day: string, hours: string, minutes: string, seconds: string)
    requires |year| == 4 && |month| == 2 && |day| == 2 && |hours| == 2 && |minutes| == 2 && |seconds| == 2
    requires Text.AllDigits(year) && Text.AllDigits(month) && Text.AllDigits(day)
    requires Text.AllDigits(hours) && Text.AllDigits(minutes) && Text.AllDigits(seconds)
    ensures ParseGridText(Layout(year, month, day, hours, minutes, seconds)) == FieldsOf(year, month, day, hours, minutes, seconds)
  {
    LayoutPositions(year, month, day, hours, minutes, seconds);
  }

  /** The zero-padded texts of in-range fields name those fields. */
  lemma FieldTextsReadBack(p: UtcParts)
    requires ValidParts(p) && FourDigitYear(p)
    ensures FieldsOf(Text.Digits(p.year), Text.Pad2(p.month0 + 1), Text.Pad2(p.day),
                     Text.Pad2(p.hours), Text.Pad2(p.minutes), Text.Pad2(p.seconds)) == Some(p)
  {
    Text.ValueOfDigits(p.year);
    Text.Pad2ReadsBack(p.month0 + 1);
    Text.Pad2ReadsBack(p.day);
    Text.Pad2ReadsBack(p.hours);
    Text.Pad2ReadsBack(p.minutes);
    Text.Pad2ReadsBack(p.seconds);
  }

  /** Grid text reads back as the fields it was made from. */
  lemma GridTextRoundTrip(p: UtcParts)
    requires ValidParts(p) && FourDigitYear(p)
    ensures ParseGridText(GridText(p)) == Some(p)
  {
    var y, mo, d := Text.Digits(p.year), Text.Pad2(p.month0 + 1), Text.Pad2(p.day);
    var h, mi, se := Text.Pad2(p.hours), Text.Pad2(p.minutes), Text.Pad2(p.seconds);
    Text.DigitsLength(p.year);
    Text.Pad2ReadsBack(p.month0 + 1);
    Text.Pad2ReadsBack(p.day);
    Text.Pad2ReadsBack(p.hours);
    Text.Pad2ReadsBack(p.minutes);
    Text.Pad2ReadsBack(p.seconds);
    assert GridText(p) == Layout(y, mo, d, h, mi, se);
    ParseLayout(y, mo, d, h, mi, se);
    FieldTextsReadBack(p);
  }

  lemma ExampleFieldTexts()
    ensures Text.Digits(2025) == "2025"
    ensures Text.Pad2(11) == "11" && Text.Pad2(3) == "03" && Text.Pad2(22) == "22"
    ensures Text.Pad2(30) == "30" && Text.Pad2(0) == "00"
  {
    assert Text.Digits(202) == "202" by {
      assert Text.Digits(20) == "20";
    }
    assert Text.Digits(11) == "11";
    assert Text.Digits(22) == "22";
    assert Text.Digits(30) == "30";
  }

  /** A concrete entry: 22:30:00 UTC on 3 November 2025 is sent as "2025-11-03 22:30:00". */
  lemma GridTextExample()
    ensures GridText(UtcParts(2025, 10, 3, 22, 30, 0)) == "2025-11-03 22:30:00"
  {
    ExampleFieldTexts();
  }

  /** Distinct calendar fields give distinct grid entries. */
  lemma GridTextInjective(p: UtcParts, q: UtcParts)
    requires ValidParts(p) && FourDigitYear(p) && ValidParts(q) && FourDigitYear(q)
    ensures GridText(p) == GridText(q) ==> p == q
  {
    GridTextRoundTrip(p);
    GridTextRoundTrip(q);
  }

  /** The number of grid entries: 12 hours at 2-minute steps. */
  const GridSize: nat := 360

  /** The instant of the k-th grid entry: 2 minutes from now, then every 2 minutes. */
  function GridInstant(now: int, k: int): int
  {
    now + 120_000 + 120_000 * k
  }

  /** The forecast request grid, built by the loop over minutes 0, 2, ..., 718 past the
      start; `format` renders one instant (here `GridText` of its UTC calendar fields). */
  method ForecastGrid(now: int, format: int -> string) returns (timestamps: seq<string>)
    ensures |timestamps| == GridSize
    ensures forall k :: 0 <= k < GridSize ==> timestamps[k] == format(GridInstant(now, k))
  {
    timestamps := [];
    var start := now + 2 * 60 * 1000;
    var i := 0;
    while i < 12 * 60
      invariant 0 <= i <= 12 * 60 + 1
      invariant i == 2 * |timestamps|
      invariant forall k :: 0 <= k < |timestamps| ==> timestamps[k] == format(GridInstant(now, k))
    {
      timestamps := timestamps + [format(start + i * 60 * 1000)];
      i := i + 2;
    }
  }

  /** The forecast instants: each grid entry read back as a date and shifted for display,
      or `None` when some entry is an invalid date (formatting it throws). */
  function ForecastTimestamps(grid: seq<string>, instantOf: UtcParts -> int): (r: Option<seq<int>>)
    ensures r.None? <==> exists i :: 0 <= i < |grid| && ParseGridText(grid[i]).None?
    ensures r.Some? ==> |r.value| == |grid|
    ensures r.Some? ==> forall i :: 0 <= i < |grid| ==>
              r.value[i] == instantOf(ParseGridText(grid[i]).value) + DisplayShiftMs
  {
    if grid == [] then Some([])
    else if ParseGridText(grid[0]).None? then None
    else
      var rest := ForecastTimestamps(grid[1..], instantOf);
      if rest.None? then
        assert grid[1..][0] == grid[1];
        None
      else
        Some([instantOf(ParseGridText(grid[0]).value) + DisplayShiftMs] + rest.value)
  }

  /** An instant cut to its whole second, as the grid text keeps it. */
  function WholeSecond(t: int): int
  {
    t - t % 1000
  }

  /** The calendar gives valid four-digit-year fields for every grid instant, and
      `instantOf` maps them back to that instant's whole second. */
  ghost predicate CalendarAgrees(now: int, calendar: int -> UtcParts, instantOf: UtcParts -> int)
  {
    forall k :: 0 <= k < GridSize ==>
      && ValidParts(calendar(GridInstant(now, k)))
      && FourDigitYear(calendar(GridInstant(now, k)))
      && instantOf(calendar(GridInstant(now, k))) == WholeSecond(GridInstant(now, k))
  }

  /** The displayed forecast instants the grid yields. */
  function ForecastInstants(now: int): (r: seq<int>)
    ensures |r| == GridSize
  {
    seq(GridSize, k requires 0 <= k < GridSize => WholeSecond(GridInstant(now, k)) + DisplayShiftMs)
  }

  /** Reading the grid back gives the grid instants, cut to the second and shifted
      for display. */
  lemma ForecastFromGrid(now: int, calendar: int -> UtcParts, instantOf: UtcParts -> int, grid: seq<string>)
    requires |grid| == GridSize
    requires forall k :: 0 <= k < GridSize ==> grid[k] == GridText(calendar(GridInstant(now, k)))
    requires CalendarAgrees(now, calendar, instantOf)
    ensures ForecastTimestamps(grid, instantOf) == Some(ForecastInstants(now))
  {
    forall k | 0 <= k < GridSize
      ensures ParseGridText(grid[k]) == Some(calendar(GridInstant(now, k)))
    {
      GridTextRoundTrip(calendar(GridInstant(now, k)));
    }
    ReadBackGrid(now, calendar, instantOf, grid);
  }

  /** A grid whose entries read back as the calendar fields of the grid instants yields
      those instants, cut to the second and shifted for display. */
  lemma ReadBackGrid(now: int, calendar: int -> UtcParts, instantOf: UtcParts -> int, grid: seq<string>)
    requires |grid| == GridSize
    requires forall k :: 0 <= k < GridSize ==> ParseGridText(grid[k]) == Some(calendar(GridInstant(now, k)))
    requires CalendarAgrees(now, calendar, instantOf)
    ensures ForecastTimestamps(grid, instantOf) == Some(ForecastInstants(now))
  {
    var r := ForecastTimestamps(grid, instantOf);
    assert r.Some?;
    assert r.value == ForecastInstants(now);
  }

  lemma WholeSecondShift(t: int, n: int)
    ensures WholeSecond(t + 1000 * n) == WholeSecond(t) + 1000 * n
  {
    var q := t / 1000;
    var r := t % 1000;
    assert t + 1000 * n == 1000 * (q + n) + r;
  }

  /** The displayed forecast starts 2 minutes from now (to the second, plus the display
      shift) and its entries are exactly 2 minutes apart. */
  lemma ForecastInstantsSpaced(now: int)
    ensures ForecastInstants(now)[0] == WholeSecond(now + 120_000) + DisplayShiftMs
    ensures forall k :: 0 <= k < GridSize - 1 ==> ForecastInstants(now)[k + 1] == ForecastInstants(now)[k] + 120_000
  {
    forall k | 0 <= k < GridSize - 1
      ensures ForecastInstants(now)[k + 1] == ForecastInstants(now)[k] + 120_000
    {
      WholeSecondShift(GridInstant(now, k), 120);
    }
  }

  /** The prediction response: the request failed, or its `predicted_temperature` and
      `predicted_temperature_lower_bound` (`None` when not arrays). */
  datatype AiResponse = AiRequestFailed | AiBody(predicted: Option<seq<real>>, lowerBound: Option<seq<real>>)

  /** The history response: the request failed, or its `data.actual` (`None` when not an
      array). */
  datatype DbResponse = DbRequestFailed | DbBody(actual: Option<seq<DbRecord>>)

  /** `fetchTemperatureGraphData` (`configured`: the API base URL is set): the history, then the forecast whose upper band and prediction
      are both the predicted series, whose lower band is the lower-bound series, and
      whose instants are the grid's read back and shifted for display. Any failure
      dispatches nothing. */
  method FetchTemperatureGraph(configured: bool, db: DbResponse, ai: AiResponse, now: int,
                               calendar: int -> UtcParts, instantOf: UtcParts -> int)
    returns (action: Option<Action>)
    ensures action.Some? ==>
              && configured && db.DbBody? && ai.AiBody?
              && action.value.UpdateTempGraph?
              && Some(action.value.history) == HistoryFromBody(db.actual)
              && action.value.future.upperBound == ai.predicted.GetOr([])
              && action.value.future.predicted == ai.predicted.GetOr([])
              && action.value.future.lowerBound == ai.lowerBound.GetOr([])
              && |action.value.future.timestamps| == GridSize
    ensures configured && db.DbBody? && HistoryFromBody(db.actual).Some? && ai.AiBody?
            && CalendarAgrees(now, calendar, instantOf) ==>
              action.Some? && action.value.future.timestamps == ForecastInstants(now)
  {
    if !configured || db.DbRequestFailed? {
      return None;
    }
    var history := HistoryFromBody(db.actual);
    if history.None? {
      return None;
    }
    var grid := ForecastGrid(now, t => GridText(calendar(t)));
    if ai.AiRequestFailed? {
      return None;
    }
    var timestamps := ForecastTimestamps(grid, instantOf);
    if CalendarAgrees(now, calendar, instantOf) {
      ForecastFromGrid(now, calendar, instantOf, grid);
    }
    if timestamps.None? {
      return None;
    }
    var predicted := ai.predicted.GetOr([]);
    action := Some(UpdateTempGraph(history.value, Forecast(predicted, ai.lowerBound.GetOr([]), predicted, timestamps.value)));
  }

  // ---------------------------------------------------------------------------------
  // The provider

  /** `config.analytics.pollMs || 120000`: never a falsy period. */
  function PollPeriod(analytics: map<string, Config.Value>): (r: Config.Value)
    ensures !Config.Falsy(r)
    ensures "pollMs" in analytics && !Config.Falsy(analytics["pollMs"]) ==> r == analytics["pollMs"]
    ensures "pollMs" !in analytics || Config.Falsy(analytics["pollMs"]) ==> r == Config.Num(120000.0)
  {
    if "pollMs" in analytics && !Config.Falsy(analytics["pollMs"]) then analytics["pollMs"] else Config.Num(120000.0)
  }

  /** The provider's state, its `pollingStarted` ref and the number of live intervals. */
  class AnalyticsProvider {
    var state: MetricState
    var pollingStarted: bool
    var liveIntervals: nat

    /** The three polling intervals run exactly while polling is marked as started. */
    ghost predicate Valid()
      reads this
    {
      liveIntervals == if pollingStarted then 3 else 0
    }

    constructor ()
      ensures Valid() && state == InitialState() && !pollingStarted
    {
      state := InitialState();
      pollingStarted := false;
      liveIntervals := 0;
    }

    method Dispatch(action: Action)
      requires Valid()
      modifies this
      ensures Valid()
      ensures state == Reduce(old(state), action)
      ensures pollingStarted == old(pollingStarted) && liveIntervals == old(liveIntervals)
    {
      state := Reduce(state, action);
    }

    /** The polling effect (`analytics`: the configuration's analytics section, `None`
        while absent). It sets up the three intervals, returning their period, only once
        the configuration has loaded with an analytics section and polling is not already
        running; otherwise nothing changes. */
    method StartPolling(loading: bool, analytics: Option<map<string, Config.Value>>) returns (period: Option<Config.Value>)
      requires Valid()
      modifies this
      ensures Valid()
      ensures state == old(state)
      ensures period.Some? <==> !loading && analytics.Some? && !old(pollingStarted)
      ensures period.Some? ==> pollingStarted && period.value == PollPeriod(analytics.value)
      ensures period.None? ==> pollingStarted == old(pollingStarted) && liveIntervals == old(liveIntervals)
    {
      if loading || analytics.None? || pollingStarted {
        return None;
      }
      pollingStarted := true;
      liveIntervals := 3;
      period := Some(PollPeriod(analytics.value));
    }

    /** The effect's cleanup: clears the intervals and lets polling start again. */
    method StopPolling()
      requires Valid()
      modifies this
      ensures Valid()
      ensures !pollingStarted && state == old(state)
    {
      liveIntervals := 0;
      pollingStarted := false;
    }

    /** The alerts effect: with an analytics section, the alerts are rebuilt from the
        readings and sensor counts the state holds; nothing else changes. */
    method RefreshAlerts(hasAnalytics: bool, temperatureThreshold: Option<real>, humidityThreshold: Option<real>,
                         nowMs: nat, nowLocal: string, show: real -> string)
      requires Valid()
      modifies this
      ensures Valid()
      ensures pollingStarted == old(pollingStarted) && liveIntervals == old(liveIntervals)
      ensures !hasAnalytics ==> state == old(state)
      ensures hasAnalytics ==>
                state == old(state).(alerts := AlertsFor(AlertInputs(Some(old(state).temperature), Some(old(state).humidity),
                                                                     Some(old(state).sensors), temperatureThreshold, humidityThreshold),
                                                         nowMs, nowLocal, show))
    {
      if !hasAnalytics {
        return;
      }
      var alerts := BuildAlerts(AlertInputs(Some(state.temperature), Some(state.humidity), Some(state.sensors),
                                            temperatureThreshold, humidityThreshold), nowMs, nowLocal, show);
      Dispatch(UpdateAlerts(alerts));
    }
  }
}
