# Live-monitoring dashboard: a verified model of its state containers

The dashboard shows a live camera stream with face boxes, people counters and an intruder
list. It also shows the environment: temperature, humidity, sensor status, threshold alerts,
and a 12-hour temperature history with a 12-hour forecast. This project models the logic
behind those panels in Dafny and proves properties of it:

- the reconnecting socket client (`Socket`);
- the stream state container (`StreamAnalytics`): its reducer, the inbound socket messages,
  the face-box deduplication, the counters poll and the event record built for storage;
- the environment metrics container (`Analytics`): its reducer, the alert builder, the
  sensor counts, the history and forecast fetch, and the polling lifecycle;
- the configuration loader (`Config`): built-in defaults, the section-by-section overlay of
  the loaded document, and the fall-back to the defaults;
- the login reducer (`Auth`);
- the temperature chart's series, ticks and drag-to-zoom (`TempGraph`), and the second chart
  with its threshold overlay (`HumidityGraph`);
- the video panel's camera buttons, placeholder and image-load handling (`VideoStream`).

Some things are inputs rather than computations:

- Network responses are datatypes: `SensorResponse`, `EnvResponse`, `DbResponse`,
  `AiResponse`, `PollOutcome` and `LoadOutcome`.
- Clock readings are parameters: `now`, `nowMs` and `nowIso`.
- Locale renderings are parameters: `nowLocal`, `show` and `clock`.
- The UTC calendar is a pair of parameters: `calendar` and `instantOf`.
- Socket events and timer firings are method calls on `Socket.SocketManager`. What the
  client does that others can observe is logged in its `effects` field.

Instants are integer milliseconds, a JavaScript `null`/`undefined` is `Option.None`, and a
YAML/JSON value is `Config.Value`.

Where the system's documented behaviour and its code differ, the model follows the code:

- `start()` is not idempotent. Every call creates a new socket (`Socket.SocketManager.Start`).
- A box label "Unknown" does not imply that the distance exceeded the threshold. An identity
  that itself begins with "Unknown_" gives the same label (`StreamAnalytics.UnknownLabelWithinThreshold`).
- The forecast's upper band is filled from the predicted series, not from an upper-bound
  series (`Analytics.FetchTemperatureGraph`).
- The "humidity" chart is built from the temperature history and forecast
  (`HumidityGraph.SameSeriesAsTemperatureChart`).
- The environment poll rebuilds its alerts from the sensor counts the state held when the
  poll began, not from the latest ones (`Analytics.FetchEnvMetrics`).
- The forecast fetch reads `analytics.aiBaseUrl`. The defaults put that URL under
  `analytics.endpoints` instead. The model takes the prediction response as an input either way.

## Model

| member | source | states |
|---|---|---|
| Socket.NextBackoff | src/services/SocketManager.ts:62-65 | the next backoff is doubled while that stays within 5000 ms; it never exceeds 5000 and never drops below the current value or 500 |
| Socket.BackoffSchedule | src/services/SocketManager.ts:15-16 | consecutive failures back off 500, 1000, 2000, 4000 ms, then 5000 ms for ever; the schedule never decreases and stays within [500, 5000] |
| Socket.CloseRequested | src/services/SocketManager.ts:33-34 | closing an absent socket leaves it absent; closing a present one leaves it closing or closed |
| Socket.SocketManager.constructor | src/services/SocketManager.ts:11-24 | no sockets, backoff 500, not stopped, no timers, nothing done yet |
| Socket.SocketManager.Connect | src/services/SocketManager.ts:37-41 | a no-op while stopped; otherwise a fresh connecting socket is created, plus a mirror socket when a mirror URL is configured |
| Socket.SocketManager.Start | src/services/SocketManager.ts:26-29 | clears `stopped` and always creates a new socket |
| Socket.SocketManager.Stop | src/services/SocketManager.ts:31-35 | sets `stopped` and asks both sockets to close; it invokes no callback and schedules nothing |
| Socket.SocketManager.HandleOpen | src/services/SocketManager.ts:43-46 | the backoff is reset to 500 before `onOpen` runs |
| Socket.SocketManager.HandleMessage | src/services/SocketManager.ts:47-57 | a malformed frame leaves no trace; a parsed one goes to `onMessage`, then to the mirror exactly when `onMessage` did not throw and the mirror is open |
| Socket.SocketManager.HandleError | src/services/SocketManager.ts:58 | only `onError` runs: no state change and no reconnect |
| Socket.SocketManager.HandleClose | src/services/SocketManager.ts:59-66 | `onClose` runs; unless stopped, one reconnect is scheduled after the current backoff, which stays unchanged until the timer fires |
| Socket.SocketManager.TimerFires | src/services/SocketManager.ts:62-65 | the backoff becomes `NextBackoff` of the old one, then `connect()` runs, which does nothing if the client was stopped meanwhile; otherwise a new main socket is connecting, and so is a new mirror socket when a mirror URL is configured (the old mirror is kept otherwise) |
| Socket.SocketManager.SendMessage | src/services/SocketManager.ts:69-73 | data is sent exactly when the socket is open; otherwise it is dropped silently |
| Socket.SocketManager.MirrorOpens | src/services/SocketManager.ts:41 | the mirror socket becomes open; nothing else changes |
| Socket.SocketManager.MirrorCloses | src/services/SocketManager.ts:41 | the mirror socket becomes closed; nothing else changes |
| Socket.ConsecutiveFailures | src/services/SocketManager.ts:59-66 | n close-then-timer cycles schedule reconnects after exactly the first n delays of the backoff schedule, in order, and leave the earlier log untouched |
| Socket.StopWithPendingTimer | src/services/SocketManager.ts:31-38 | after `stop()`, a timer already pending creates no socket, and a later close schedules nothing |
| StreamAnalytics.Reduce | src/context/StreamAnalyticsContext.tsx:52-72 | each action replaces exactly its own fields, every other field is kept, and an unknown action returns the state unchanged |
| StreamAnalytics.ReduceIdempotent | src/context/StreamAnalyticsContext.tsx:52-72 | dispatching an action twice gives the same state as dispatching it once |
| StreamAnalytics.IdentityPrefix | src/context/StreamAnalyticsContext.tsx:157 | `identity.split('_')[0]`: an underscore-free prefix of the identity, followed by an underscore unless it is the whole identity |
| StreamAnalytics.IdentityPrefixUnique | src/context/StreamAnalyticsContext.tsx:157 | the prefix is the only string with those properties |
| StreamAnalytics.FirstKeys | src/context/StreamAnalyticsContext.tsx:147-164 | the distinct region keys of the predictions, without repeats, and exactly the keys that occur |
| StreamAnalytics.BestIndex | src/context/StreamAnalyticsContext.tsx:150 | the prediction kept for a region has the smallest distance of that region; on a tie the first one is kept |
| StreamAnalytics.MergeBoxes | src/context/StreamAnalyticsContext.tsx:147-164 | the fold over the predictions into an object keyed by region, read back with `Object.values`, gives `MergedBoxes` |
| StreamAnalytics.MergedBoxes | src/context/StreamAnalyticsContext.tsx:147-164 | one box per region, in the order regions first occur, built from that region's closest prediction (no contract of its own; `MergedBoxesSpec` states it) |
| StreamAnalytics.MergedBoxesSpec | src/context/StreamAnalyticsContext.tsx:147-164 | one box per distinct region, ordered by the region's first occurrence; each box has its region's smallest distance and the message threshold, and is labelled "Unknown" beyond the threshold or else with the identity prefix |
| StreamAnalytics.FirstKeysOrdered | src/context/StreamAnalyticsContext.tsx:147-164 | the distinct keys come in the order of their first occurrence |
| StreamAnalytics.UnknownLabelWithinThreshold | src/context/StreamAnalyticsContext.tsx:157 | a prediction within the threshold whose identity begins "Unknown_" is also labelled "Unknown" |
| StreamAnalytics.SingleUnknownPrediction | src/context/StreamAnalyticsContext.tsx:147-165 | a single prediction beyond the threshold yields one "Unknown" box with its region, distance and threshold |
| StreamAnalytics.MessageActions | src/context/StreamAnalyticsContext.tsx:139-189 | a `response` dispatches its frame first, then its boxes exactly when `predictions` is an array (absent, `null` and other non-arrays dispatch none); the other message types dispatch their own action |
| StreamAnalytics.ResponseMessageState | src/context/StreamAnalyticsContext.tsx:142-166 | after a `response`, the frame is shown, the boxes are replaced when predictions came as an array, and nothing else changes |
| StreamAnalytics.SomeBeyond | src/context/StreamAnalyticsContext.tsx:318 | true exactly when some prediction's distance exceeds the threshold |
| StreamAnalytics.TransformAiResponse | src/context/StreamAnalyticsContext.tsx:303-336 | no record (the `TypeError` of `.map`) exactly when `predictions` is present but not an array; otherwise, with an absent field read as empty: status "no_face" iff there are no predictions, "unknown" iff some prediction is beyond the threshold, "verified" iff there are predictions and all are within it; one coordinate per prediction, in order; image, threshold and time are carried over; the type is "response", distance and confidence are 0 and both frame sizes are "0" |
| StreamAnalytics.DefaultedPredictions | src/context/StreamAnalyticsContext.tsx:304 | the destructuring default turns only an absent field into the empty array; an array is kept; any other value is left and cannot be mapped |
| StreamAnalytics.StatusAgreesWithBoxes | src/context/StreamAnalyticsContext.tsx:145-171 | the stored status agrees with the boxes drawn for the same message: no face iff no box; a box beyond the threshold only under "unknown"; under "verified", every box is labelled with its identity prefix |
| StreamAnalytics.StoredOnResponse | src/context/StreamAnalyticsContext.tsx:168-171 | a record is sent for storage exactly when the frame is non-empty and `predictions` is absent or an array, and that record is the transformed response |
| StreamAnalytics.OnMessageThrows | src/context/StreamAnalyticsContext.tsx:139-171 | `onMessage` throws exactly on a `response` with a non-empty frame whose `predictions` is present but not an array; by then only the frame has been dispatched, and nothing is stored |
| StreamAnalytics.FetchAnalyticsAndIntruders | src/context/StreamAnalyticsContext.tsx:214-266 | a failed, cancelled or invalid poll dispatches nothing; otherwise unknown = number of intruders, the total is raised to it, verified = the rest (never negative), no-face = 0, and the history has one "Unknown Person" entry per intruder, with the placeholder snapshot when there is no image |
| StreamAnalytics.IntruderEntry | src/context/StreamAnalyticsContext.tsx:248-252 | an intruder's history entry always has a snapshot: its own image when non-empty, else the placeholder; it is labelled "Unknown Person" with the intruder's local time |
| StreamAnalytics.ClampedPoll | src/context/StreamAnalyticsContext.tsx:228-232 | more intruders than the reported total: total = unknown = the intruder count, and verified = no-face = 0 |
| StreamAnalytics.StartActions | src/context/StreamAnalyticsContext.tsx:112-114 | the stream is marked connecting exactly once the configuration has loaded |
| StreamAnalytics.OneCallback | src/context/StreamAnalyticsContext.tsx:121-138 | one client effect sets the connection to the status it announces, and leaves it alone otherwise |
| StreamAnalytics.CallbackActions | src/context/StreamAnalyticsContext.tsx:121-189 | what the provider's callbacks dispatch for one client effect: connected on open, disconnected on close or error, a message's own actions, nothing otherwise (stated through `OneCallback`) |
| StreamAnalytics.ConnectionFollowsLastCallback | src/context/StreamAnalyticsContext.tsx:121-189 | after any run of client callbacks, the connection shown is the one announced by the latest open, close, error or status message, or the previous one when none announced anything |
| StreamAnalytics.LastStatus | src/context/StreamAnalyticsContext.tsx:121-189 | the status announced by the latest effect that announces one, or the initial status when none does (the reference `ConnectionFollowsLastCallback` is proved against) |
| StreamAnalytics.StreamSource | src/context/StreamAnalyticsContext.tsx:124 | `sources.defaultRtsp \|\| 'default'`: never falsy, and it is the configured source whenever it is not "default" |
| StreamAnalytics.OpenCommand | src/context/StreamAnalyticsContext.tsx:121-136 | on open, a start-stream command with a non-falsy source |
| StreamAnalytics.RtspCommand | src/context/StreamAnalyticsContext.tsx:279-283 | a stream command is handed to the client's `sendMessage` exactly when the URL is non-empty and a client exists, and it carries that URL |
| StreamAnalytics.SendRtsp | src/context/StreamAnalyticsContext.tsx:279-283 | with a client, the command for a non-empty URL reaches the wire exactly when the client's socket is open; an empty URL or a socket that is not open leaves the client's effects unchanged |
| Auth.Reduce | src/context/AuthContext.tsx:18-27 | login sets the user and authenticates; logout returns the initial state; anything else changes nothing; consistency is preserved |
| Auth.ConsistentAlways | src/context/AuthContext.tsx:18-30 | from a consistent state, "authenticated iff a user id is set" holds after any sequence of actions |
| Auth.InitialConsistent | src/context/AuthContext.tsx:30 | the initial state is consistent |
| Auth.LastActionDecides | src/context/AuthContext.tsx:18-27 | the last login or logout decides the state, whatever came before |
| Auth.LogoutIdempotent | src/context/AuthContext.tsx:22-23 | logging out twice is logging out once |
| Auth.LoginThenLogout | src/context/AuthContext.tsx:20-23 | a login followed by a logout returns exactly the initial state |
| Config.Spread | src/context/ConfigContext.tsx:54-55 | spreading an object copies its fields; spreading null, a boolean or a number copies nothing |
| Config.Get | src/context/ConfigContext.tsx:56-66 | a key is present exactly when the value is an object holding it |
| Config.SectionOrEmpty | src/context/ConfigContext.tsx:56-63 | `v?.key \|\| {}`: the section when it is present and truthy, otherwise the empty object |
| Config.IndicesDistinct | src/context/ConfigContext.tsx:54-55 | distinct array indices give distinct property names |
| Config.FlatSectionsMerged | src/context/ConfigContext.tsx:56-60 | exactly the five one-level sections are rebuilt |
| Config.Defaults | src/context/ConfigContext.tsx:13-40 | the built-in `DEFAULTS`, with the same keys and values (its shape is stated by `DefaultsWellShaped`) |
| Config.MergeOver | src/context/ConfigContext.tsx:53-69 | the merged object over given defaults: top-level spread, then the five one-level sections, then `analytics` (stated by `MergeTopLevel`, `MergeFlatSection` and `MergeAnalyticsSection`) |
| Config.MergedAnalytics | src/context/ConfigContext.tsx:61-68 | the `analytics` section: the default overlaid with the document's, and `endpoints` one level deeper (stated by `AnalyticsOverlay`) |
| Config.Merge | src/context/ConfigContext.tsx:53-69 | the merge over `DEFAULTS` that `load()` publishes (stated by `DefaultsAsDocument`, `EmptyDocument`, `TemperatureThresholdOnly` and `ReadLoadPublishesMerge`) |
| Config.DefaultsWellShaped | src/context/ConfigContext.tsx:13-40 | every default section is an object, `analytics.endpoints` included |
| Config.MergeTopLevel | src/context/ConfigContext.tsx:53-55 | the merged keys are those of the defaults and of the document; a non-section key takes the document's value when present, else the default |
| Config.MergeFlatSection | src/context/ConfigContext.tsx:56-60 | `sockets`, `health`, `sources`, `ui` and `otherBackend` are the default section overlaid key by key with the document's section |
| Config.MergeAnalyticsSection | src/context/ConfigContext.tsx:61-68 | `analytics` is rebuilt from the default section, whatever the document's top level holds under that key |
| Config.AnalyticsOverlay | src/context/ConfigContext.tsx:61-68 | `analytics` is overlaid key by key, and its `endpoints` one level deeper |
| Config.MapsEqual | src/context/ConfigContext.tsx:53-69 | two maps that agree key by key are equal |
| Config.AbsentSectionKeepsDefault | src/context/ConfigContext.tsx:56-60 | a section that is absent or falsy in the document keeps its default |
| Config.AbsentAnalyticsKeepsDefault | src/context/ConfigContext.tsx:61-68 | an absent `analytics` keeps the default one, `endpoints` included |
| Config.AbsentOverlay | src/context/ConfigContext.tsx:61-68 | the analytics overlay with no document section is the default section |
| Config.EmptyDocument | src/context/ConfigContext.tsx:52-69 | an empty document yields exactly the defaults |
| Config.SameSectionKeepsDefault | src/context/ConfigContext.tsx:56-60 | a section given with the default's own entries stays as it was |
| Config.SameAnalyticsKeepsDefault | src/context/ConfigContext.tsx:61-68 | `analytics` given as the default stays as it was |
| Config.DefaultsSectionsRead | src/context/ConfigContext.tsx:63-66 | reading the defaults as a document gives back their analytics section and endpoints |
| Config.SelfOverlay | src/context/ConfigContext.tsx:61-68 | overlaying the analytics section with itself changes nothing |
| Config.DefaultsAsDocument | src/context/ConfigContext.tsx:53-69 | feeding the defaults back in as the document changes nothing |
| Config.OneKeyAnalytics | src/context/ConfigContext.tsx:61-68 | one analytics key in the document replaces that key of the analytics section |
| Config.OneKeyOverlay | src/context/ConfigContext.tsx:61-68 | the analytics overlay with one key is the default section with that key replaced |
| Config.SingleAnalyticsKey | src/context/ConfigContext.tsx:53-69 | a document holding one analytics key (other than `endpoints`) changes that key and nothing else |
| Config.TemperatureThresholdOnly | src/context/ConfigContext.tsx:13-69 | `{analytics: {temperatureThreshold: 50}}` changes only that threshold |
| Config.ErrorText | src/context/ConfigContext.tsx:50-73 | the error text is never empty; a non-OK response reads "Failed to load config: " followed by the status digits; an exception's own message is kept, and an empty one reads "Unknown error" |
| Config.Finished | src/context/ConfigContext.tsx:71-73 | loading is over and a configuration is always published; there is no error iff the document was read; otherwise the error text is non-empty |
| Config.ReadLoadPublishesMerge | src/context/ConfigContext.tsx:53-71 | a document that was read publishes its merge over the defaults, with no error |
| Config.ConfigProvider.constructor | src/context/ConfigContext.tsx:43-46 | loading, with no configuration and no error, and mounted |
| Config.ConfigProvider.Unmount | src/context/ConfigContext.tsx:77-79 | the effect's cleanup marks the provider unmounted and changes no published state |
| Config.ConfigProvider.Finish | src/context/ConfigContext.tsx:71-73 | the state `load()` computed is set only while mounted; unmounted, nothing changes |
| Config.EndLoad | src/context/ConfigContext.tsx:71-73 | while mounted, the end of a load publishes `Finished` of how the read ended; once unmounted, the state stays as it was |
| Config.LateLoad | src/context/ConfigContext.tsx:46-79 | a load that finishes after unmounting changes nothing |
| Config.FailedLoadFallsBack | src/context/ConfigContext.tsx:50-73 | every load that does not reach a parsed document (non-OK status or thrown error) publishes the defaults; the error is "Failed to load config: " plus the status for a non-OK response, else the exception's message or "Unknown error" |
| Analytics.Reduce | src/context/AnalyticsContext.tsx:46-71 | `updateMetrics` overwrites exactly the keys its payload has; the graph and alert actions replace their own slices; anything else changes nothing |
| Analytics.MetricsUpdatesIndependent | src/context/AnalyticsContext.tsx:46-71 | a reading update keeps the sensor counts, and a sensor update keeps the readings |
| Analytics.SensorMessagePlural | src/context/AnalyticsContext.tsx:116 | the sensor message ends "sensors offline" exactly when more than one sensor is offline |
| Analytics.SensorMessage | src/context/AnalyticsContext.tsx:116 | the count of offline sensors followed by "sensor offline" or "sensors offline" (the plural is stated by `SensorMessagePlural`) |
| Analytics.TemperatureMessage | src/context/AnalyticsContext.tsx:94 | the temperature message opens with "Temperature crossed " |
| Analytics.HumidityMessage | src/context/AnalyticsContext.tsx:105 | the humidity message opens with "Humidity crossed " |
| Analytics.MessageFor | src/context/AnalyticsContext.tsx:89-120 | the message of each kind is empty only for the sensor kind with no sensor offline; a sensor message is the offline-count message |
| Analytics.AlertIf | src/context/AnalyticsContext.tsx:89-120 | an alert of a kind is present exactly when it is due, and is red, stamped with the local time and identified by its kind and the instant |
| Analytics.AlertsFor | src/context/AnalyticsContext.tsx:80-123 | at most three alerts |
| Analytics.AlertsRaisedIff | src/context/AnalyticsContext.tsx:87-120 | an alert of each kind is raised exactly when a reading exceeds its threshold (missing values count as 0), or for sensors exactly when some sensor is offline |
| Analytics.AlertAt | src/context/AnalyticsContext.tsx:89-120 | every alert is due, red, stamped with the local time, identified by its kind and the instant, carries its kind's message, and follows the due alerts of earlier kinds |
| Analytics.AlertsOrdered | src/context/AnalyticsContext.tsx:89-120 | alerts come in the order temperature, humidity, sensor, so there is at most one of each kind |
| Analytics.BuildAlerts | src/context/AnalyticsContext.tsx:80-123 | pushing each due alert in turn onto an empty list gives `AlertsFor` |
| Analytics.CountActive | src/context/AnalyticsContext.tsx:172 | the number of active sensors is at most the number of sensors |
| Analytics.CountActiveIsMultiplicity | src/context/AnalyticsContext.tsx:172 | the count is the number of active entries, whatever their order |
| Analytics.SensorCounts | src/context/AnalyticsContext.tsx:170-175 | total = number of sensors; online = the number of active sensors; offline = total − online; offline is 0 iff every sensor is active |
| Analytics.AllActiveIffFull | src/context/AnalyticsContext.tsx:171-173 | all sensors are online exactly when every sensor is active |
| Analytics.FetchSensorStatus | src/context/AnalyticsContext.tsx:158-185 | nothing is dispatched unless configured with a valid list; otherwise the counts, then the alerts rebuilt from the held readings and the new counts, with a sensor alert iff some listed sensor is inactive |
| Analytics.Reading | src/context/AnalyticsContext.tsx:141-142 | the detailed reading, else `value`, else 0 |
| Analytics.FetchEnvMetrics | src/context/AnalyticsContext.tsx:126-155 | nothing is dispatched unless configured with a valid body; otherwise the readings, then the alerts rebuilt from them and the held sensor counts, with a temperature or humidity alert iff that reading exceeds its threshold and a sensor alert iff the held count has sensors offline |
| Analytics.HistoryOf | src/context/AnalyticsContext.tsx:228-240 | one history point per record, in order, shifted by +5:30 with null readings kept null; none at all (the fetch is abandoned) iff some record's date is invalid |
| Analytics.HistoryFromBody | src/context/AnalyticsContext.tsx:233-241 | a body whose `actual` is not an array gives the empty history |
| Analytics.LayoutPositions | src/context/AnalyticsContext.tsx:251-262 | with four- and two-character fields, each field and separator of `YYYY-MM-DD HH:mm:SS` sits at a fixed position |
| Analytics.Layout | src/context/AnalyticsContext.tsx:251-262 | the six fields joined as `YYYY-MM-DD HH:mm:SS` (positions stated by `LayoutPositions`) |
| Analytics.GridText | src/context/AnalyticsContext.tsx:249-264 | a grid entry from UTC calendar fields, zero-padded, 1-based month (stated by `GridTextRoundTrip`, `GridTextInjective` and `GridTextExample`) |
| Analytics.FieldsOf | src/context/AnalyticsContext.tsx:288 | fields read from digit groups are in range and have a four-digit year |
| Analytics.ParseGridText | src/context/AnalyticsContext.tsx:288 | a date is read only from a 19-character text, and only with in-range fields |
| Analytics.ParseLayout | src/context/AnalyticsContext.tsx:288 | digit fields of widths 4, 2, 2, 2, 2, 2 laid out as `YYYY-MM-DD HH:mm:SS` read back as the values those fields name |
| Analytics.FieldTextsReadBack | src/context/AnalyticsContext.tsx:251-262 | the year's digits and the zero-padded month (1-based), day, hours, minutes and seconds of in-range fields name exactly those fields |
| Analytics.GridTextRoundTrip | src/context/AnalyticsContext.tsx:249-288 | grid text reads back as exactly the calendar fields it was made from |
| Analytics.GridTextInjective | src/context/AnalyticsContext.tsx:249-264 | distinct calendar fields give distinct grid entries |
| Analytics.GridTextExample | src/context/AnalyticsContext.tsx:251-262 | 22:30:00 UTC on 3 November 2025 is sent as "2025-11-03 22:30:00" |
| Analytics.ForecastGrid | src/context/AnalyticsContext.tsx:246-264 | 360 entries; entry k is the rendering (the grid text of the UTC fields, as the fetch passes it) of the instant 2 + 2k minutes from now |
| Analytics.ForecastTimestamps | src/context/AnalyticsContext.tsx:287-290 | one instant per grid entry, read back and shifted by +5:30; none at all iff some entry is an invalid date |
| Analytics.ReadBackGrid | src/context/AnalyticsContext.tsx:287-290 | when every grid entry reads back as the calendar fields of its grid instant, and the calendar agrees with its inverse on those instants, the grid yields those instants cut to the second and shifted by +5:30 |
| Analytics.ForecastFromGrid | src/context/AnalyticsContext.tsx:246-290 | reading the grid back gives the grid instants, cut to the second and shifted by +5:30 |
| Analytics.WholeSecondShift | src/context/AnalyticsContext.tsx:250 | cutting to the second commutes with whole-second shifts |
| Analytics.ForecastInstantsSpaced | src/context/AnalyticsContext.tsx:247-250 | the displayed forecast starts 2 minutes from now (to the second, plus +5:30), and its entries are exactly 2 minutes apart |
| Analytics.FetchTemperatureGraph | src/context/AnalyticsContext.tsx:188-307 | any failure dispatches nothing; a dispatch carries the history read from the body, the predicted series as both upper band and prediction, the lower-bound series, and 360 instants; with every input well formed it dispatches, and the instants are the forecast grid's |
| Analytics.PollPeriod | src/context/AnalyticsContext.tsx:322 | `pollMs \|\| 120000`: never falsy; the configured period when truthy |
| Analytics.AnalyticsProvider.constructor | src/context/AnalyticsContext.tsx:34-76 | the initial metrics, with polling not started |
| Analytics.AnalyticsProvider.Dispatch | src/context/AnalyticsContext.tsx:75 | the state becomes the reducer's result and polling is untouched |
| Analytics.AnalyticsProvider.StartPolling | src/context/AnalyticsContext.tsx:312-325 | the three intervals start exactly when the configuration has loaded with an analytics section and polling is not already running, and they use `PollPeriod`; otherwise nothing changes |
| Analytics.AnalyticsProvider.StopPolling | src/context/AnalyticsContext.tsx:327-332 | the intervals are cleared and polling may start again |
| Analytics.AnalyticsProvider.RefreshAlerts | src/context/AnalyticsContext.tsx:335-355 | with an analytics section, only the alerts change, rebuilt from the readings and counts held; without one, nothing changes |
| TempGraph.LastTemp | src/pages/Analytics/components/CurrentTempGraph.tsx:45-48 | the last history reading, or null without history |
| TempGraph.At | src/pages/Analytics/components/CurrentTempGraph.tsx:72-73 | `xs[i] ?? null`: present exactly within the array |
| TempGraph.FullData | src/pages/Analytics/components/CurrentTempGraph.tsx:50-76 | the history points in order; then, when there is a forecast, one connector carrying the last reading at the first forecast instant; then one point per forecast instant with the bounds of the same index |
| TempGraph.HistoryPoints | src/pages/Analytics/components/CurrentTempGraph.tsx:51-57 | one history point per reading, in order, without bounds (stated through `FullData`) |
| TempGraph.Connector | src/pages/Analytics/components/CurrentTempGraph.tsx:58-68 | the connector point, only when there is a forecast (stated through `FullData` and `OneConnector`) |
| TempGraph.FuturePoints | src/pages/Analytics/components/CurrentTempGraph.tsx:69-75 | one forecast point per instant with the bounds of the same index (stated through `FullData`) |
| TempGraph.OneConnector | src/pages/Analytics/components/CurrentTempGraph.tsx:58-68 | there is a connector exactly when there is a forecast, and never more than one |
| TempGraph.Within | src/pages/Analytics/components/CurrentTempGraph.tsx:162 | every point kept lies in the range, and no more points are kept than were given |
| TempGraph.WithinMembership | src/pages/Analytics/components/CurrentTempGraph.tsx:162 | a point is kept exactly when it is in the series and its time is in the range |
| TempGraph.WithinIdempotent | src/pages/Analytics/components/CurrentTempGraph.tsx:162 | filtering twice with the same range keeps the same points |
| TempGraph.Ticks | src/pages/Analytics/components/CurrentTempGraph.tsx:230 | one tick per 90 points, in order: the times of the points whose index is a multiple of 90 |
| TempGraph.Ordered | src/pages/Analytics/components/CurrentTempGraph.tsx:161 | the two selection ends, smaller first |
| TempGraph.ZoomState.constructor | src/pages/Analytics/components/CurrentTempGraph.tsx:25-31 | not selecting, no ends, nothing zoomed |
| TempGraph.ZoomState.Rendered | src/pages/Analytics/components/CurrentTempGraph.tsx:78 | the zoomed points (more than two) while zoomed, otherwise the full series |
| TempGraph.ZoomState.MouseDown | src/pages/Analytics/components/CurrentTempGraph.tsx:141-146 | a usable label starts a selection at that label; otherwise nothing changes |
| TempGraph.ZoomState.MouseMove | src/pages/Analytics/components/CurrentTempGraph.tsx:148-152 | only the far end moves, and only while selecting with a usable label |
| TempGraph.ZoomState.MouseUp | src/pages/Analytics/components/CurrentTempGraph.tsx:154-178 | ends a selection; with both ends set, the points between them (inclusive, whichever end is larger) become the zoom when there are more than two, and the selection is cleared |
| TempGraph.ZoomState.ZoomOut | src/pages/Analytics/components/CurrentTempGraph.tsx:180-184 | back to the full series, with the selection untouched |
| HumidityGraph.SameSeriesAsTemperatureChart | src/pages/Analytics/components/CurrentHumidityGraph.tsx:19-64 | the series is the temperature chart's series point for point, with the times shown on the clock |
| HumidityGraph.ChartData | src/pages/Analytics/components/CurrentHumidityGraph.tsx:28-64 | as many points as the temperature series (history, connector when there is a forecast, forecast points), and the history points carry the history readings |
| HumidityGraph.SomeAbove | src/pages/Analytics/components/CurrentHumidityGraph.tsx:148 | true exactly when some point's reading is above 38 |
| HumidityGraph.StrokeOpacity | src/pages/Analytics/components/CurrentHumidityGraph.tsx:148 | 1 exactly when some reading is above the threshold, else 0 |
| HumidityGraph.OverlayFromHistory | src/pages/Analytics/components/CurrentHumidityGraph.tsx:148 | the red overlay shows exactly when some history reading is above 38 |
| VideoStream.Coalesce | src/components/VideoStream.tsx:17-19 | `a ?? b`: `a` unless it is undefined or null |
| VideoStream.StringOf | src/components/VideoStream.tsx:24 | only a string comes back |
| VideoStream.RtspFor | src/components/VideoStream.tsx:14-25 | Cam 1 to Cam 3 use their own entry unless it is undefined or null, else the default; Cam 4 and Cam 5 use the default; any other name has none; only strings come back |
| VideoStream.SourcesOf | src/components/VideoStream.tsx:15 | `config?.sources \|\| {}`, the empty object before the configuration has loaded (used by `RtspFor` and `DefaultSourcesAreEmpty`) |
| VideoStream.DefaultSourcesAreEmpty | src/components/VideoStream.tsx:14-25 | with the built-in defaults, every camera resolves to the empty source |
| VideoStream.Placeholder | src/components/VideoStream.tsx:108-115 | a placeholder shows exactly while not connected and before the first frame; it reads "Connectingâ€¦" (the literal as the component spells it: U+00E2 U+20AC U+00A6 after "Connecting") iff connecting, and "Stream Disconnected" when disconnected |
| VideoStream.VideoPanel.constructor | src/components/VideoStream.tsx:8-10 | Cam 1 active, no frame yet, aspect 16:9, nothing sent |
| VideoStream.VideoPanel.ClickCamera | src/components/VideoStream.tsx:72 | the camera becomes active whatever happens; its URL is sent exactly when it is a non-empty string |
| VideoStream.VideoPanel.ImageLoaded | src/components/VideoStream.tsx:27-33 | an image with both natural dimensions non-zero sets the aspect ratio and marks a frame as shown; otherwise nothing changes |
| VideoStream.FrameStaysUp | src/components/VideoStream.tsx:27-33 | once a frame has loaded, the placeholder never comes back, whatever the connection does |
| Text.Digits | src/context/AnalyticsContext.tsx:252 | decimal text of a number: non-empty, all digits, a leading zero only for 0 |
| Text.ValueOfDigits | src/context/AnalyticsContext.tsx:252 | decimal text reads back as the number it renders |
| Text.DigitsInjective | src/context/AnalyticsContext.tsx:252 | distinct numbers render differently |
| Text.DigitsLength | src/context/AnalyticsContext.tsx:252 | two-digit numbers render in two characters, four-digit numbers in four |
| Text.Pad2 | src/context/AnalyticsContext.tsx:254-262 | `padStart(2, "0")` of a number below 100 has two characters |
| Text.Pad2ReadsBack | src/context/AnalyticsContext.tsx:254-262 | the padded text is all digits and reads back as the number |

## Left out

- Network I/O, WebSocket objects and timers. Responses and socket events are inputs or method calls; URLs, headers, request bodies and `cache` options are not modelled.
- JSON and YAML parsing. Documents and messages arrive already parsed (`Config.Value`, `Types.SocketMessage`).
- Date and locale formatting (`toLocaleTimeString`, `toLocaleString`, `toISOString`, `new Date(...)`). These are the parameters `calendar`, `instantOf`, `clock`, `show`, `nowLocal` and `nowIso`, and ISO strings are modelled as the instants they denote.
- `Number(...)` coercion, NaN, and the rounding `roundTo1` applies to the forecast: readings are exact reals.
- The zoom's dynamic y-axis range (min/max of the zoomed readings), `formatXAxis`, the tooltips, the legend and the full-screen toggle: presentation only.
- The storage POST of the transformed response and the forwarding of frames to a second socket. These are fire-and-forget I/O; the record sent is modelled by `StreamAnalytics.StoredOnResponse`.
- The storage query's time window (`formatDBTime`, from now − 12 h to now) and the URLs built from the configuration.
- The initial fetches the polling effect makes before its intervals: the effect is modelled only as starting and clearing the intervals.
- `Analytics.ThresholdText`: a null threshold renders as "undefined" rather than JavaScript's "null".
- `Analytics.BuildAlerts`: every alert id is stamped with one instant, whereas the source reads `Date.now()` once per alert.
- `Analytics.ParseGridText`: does not check day-of-month against month length or leap years. Years outside 1000–9999 are treated as unreadable.
- `Config.Spread`: strings and arrays spread as indexed characters and items. YAML timestamps (`!!timestamp`, loaded as a `Date`) and binary values (`!!binary`, loaded as bytes) are not representable in `Config.Value`; in the source a `Date` is truthy and spreads no fields, so a section holding one falls back to its defaults, while the model cannot express that document.
- Events from a socket the client no longer holds (an old socket closing after `start()` replaced it) are not modelled. Events always concern the current socket.
- `JSON.stringify` of outgoing commands is the parameter `encode` of `StreamAnalytics.SendRtsp`.
- Predictions are typed records: a prediction whose fields have the wrong JSON types (an `identity` that is not a string, say) would make `onMessage` throw in `split`, and that throw is not modelled. Only a `predictions` field that is present but not an array throws (`StreamAnalytics.OnMessageThrows`).
- Region coordinates are integers, and a region key is the tuple of its four coordinates rather than their `-`-joined string, which groups predictions the same way.
- The humidity-graph-specific slices of the state (`humidityHistory`, `humidityFuture`) are held and updated by the reducer, but no fetch fills them and the humidity chart does not read them.
