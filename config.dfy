/** The configuration loader (src/context/ConfigContext.tsx): built-in defaults, the
    section-by-section overlay of the document read from `/config.yaml`, and the state the
    loader publishes (falling back to the defaults on any failure). The document is taken
    as already parsed. */
module Config {
  import opened Wrappers
  import Text

  /** A parsed YAML/JSON value. A missing key is the absence of the key in `Obj`. */
  datatype Value =
    | Null
    | Bool(b: bool)
    | Num(n: real)
    | Str(s: string)
    | Arr(items: seq<Value>)
    | Obj(fields: map<string, Value>)

  /** JavaScript falsiness for the values a document can hold. */
  predicate Falsy(v: Value)
  {
    v == Null || v == Bool(false) || v == Num(0.0) || v == Str("")
  }

  /** The own enumerable properties `{...v}` copies: an object's fields, an array's items
      and a string's characters under their decimal indices, nothing for the rest. */
  function Spread(v: Value): (m: map<string, Value>)
    ensures v.Obj? ==> m == v.fields
    ensures v.Null? || v.Bool? || v.Num? ==> m == map[]
  {
    match v
    case Obj(f) => f
    case Arr(items) => Indexed(items)
    case Str(s) => Indexed(seq(|s|, i requires 0 <= i < |s| => Str([s[i]])))
    case _ => map[]
  }

  /** Items under their decimal indices "0", "1", ... */
  function Indexed(items: seq<Value>): map<string, Value>
  {
    IndicesDistinct();
    map i | 0 <= i < |items| :: Text.Digits(i) := items[i]
  }

  lemma IndicesDistinct()
    ensures forall a: nat, b: nat :: Text.Digits(a) == Text.Digits(b) ==> a == b
  {
    forall a: nat, b: nat ensures Text.Digits(a) == Text.Digits(b) ==> a == b {
      Text.DigitsInjective(a, b);
    }
  }

  /** `v?.key` for the fixed key names read here: `None` is `undefined`. */
  function Get(v: Value, key: string): (r: Option<Value>)
    ensures r.Some? <==> v.Obj? && key in v.fields
  {
    if v.Obj? && key in v.fields then Some(v.fields[key]) else None
  }

  /** `v?.key || {}`. */
  function SectionOrEmpty(v: Value, key: string): (r: Value)
    ensures Get(v, key).Some? && !Falsy(Get(v, key).value) ==> r == Get(v, key).value
    ensures Get(v, key).None? || Falsy(Get(v, key).value) ==> r == Obj(map[])
  {
    var m := Get(v, key);
    if m.None? || Falsy(m.value) then Obj(map[]) else m.value
  }

  function DefaultEndpoints(): map<string, Value>
  {
    map["currentTempHumid" := Str("/api/sensor-dashboard/current-reading"),
        "currentSensors" := Str("/api/sensor-dashboard/sensor-list"),
        "aiBaseUrl" := Str("http://172.26.119.12:8001"),
        "previousTemp" := Str("/api/sensor-dashboard/temperature-record"),
        "previousHumidity" := Str("/api/")]
  }

  function DefaultAnalytics(): map<string, Value>
  {
    map["pollMs" := Num(120000.0),
        "temperatureThreshold" := Num(42.0),
        "humidityThreshold" := Num(80.0),
        "apiBaseUrl" := Str("http://localhost:3000"),
        "endpoints" := Obj(DefaultEndpoints())]
  }

  function DefaultSockets(): map<string, Value>
  {
    map["incomingUrl" := Str("ws://172.30.205.102:8000/v2/ws/streamsc")]
  }

  function DefaultHealth(): map<string, Value>
  {
    map["v1" := Str("/v1/health"), "v2" := Str("/v2/health")]
  }

  function DefaultSources(): map<string, Value>
  {
    map["defaultRtsp" := Str(""), "cam1" := Null, "cam2" := Null]
  }

  function DefaultUi(): map<string, Value>
  {
    map["modelVersion" := Str("v2")]
  }

  function DefaultOtherBackend(): map<string, Value>
  {
    map["apiBaseUrl" := Str("http://localhost:3000"),
        "forwardFramePath" := Str("/api/room-live/activity-logs/bulk?camera_id=1&room_id=1"),
        "analyticsPath" := Str("/api/room-live/status"),
        "statusPath" := Str("/status"),
        "pollMs" := Num(5000.0)]
  }

  /** `DEFAULTS`. */
  function Defaults(): map<string, Value>
  {
    map["apiBaseUrl" := Str("http://172.30.205.102:8000"),
        "sockets" := Obj(DefaultSockets()),
        "health" := Obj(DefaultHealth()),
        "sources" := Obj(DefaultSources()),
        "ui" := Obj(DefaultUi()),
        "rooms" := Arr([Str("Lobby"), Str("Server Room"), Str("Office A")]),
        "otherBackend" := Obj(DefaultOtherBackend()),
        "analytics" := Obj(DefaultAnalytics())]
  }

  /** The sections merged one level deep (`analytics` is merged two levels deep). */
  const FlatSections: set<string> := {"sockets", "health", "sources", "ui", "otherBackend"}

  /** `top` laid over `base` key by key: every key of either, the value from `top` where
      it has one. */
  ghost predicate Overlay(r: map<string, Value>, base: map<string, Value>, top: map<string, Value>)
  {
    && (forall k :: k in r <==> k in base || k in top)
    && (forall k :: k in top ==> r[k] == top[k])
    && (forall k :: k in base && k !in top ==> r[k] == base[k])
  }

  function OverlayOf(base: map<string, Value>, top: map<string, Value>): map<string, Value>
  {
    base + top
  }

  /** `parsed?.analytics?.endpoints || {}`. */
  function ParsedEndpoints(parsed: Value): Value
  {
    var a := Get(parsed, "analytics");
    if a.None? then Obj(map[]) else SectionOrEmpty(a.value, "endpoints")
  }

  /** `d[s]` is an object. */
  predicate IsSection(d: map<string, Value>, s: string)
  {
    s in d && d[s].Obj?
  }

  /** Defaults whose sections are objects, as the merge spreads them. */
  predicate WellShaped(d: map<string, Value>)
  {
    && (forall s :: s in FlatSections ==> IsSection(d, s))
    && IsSection(d, "analytics") && IsSection(d["analytics"].fields, "endpoints")
  }

  lemma DefaultsWellShaped()
    ensures WellShaped(Defaults())
  {
  }

  /** The merge in `load()` over given defaults `d`: the document's top-level keys over
      `d`, then each one-level section rebuilt as the default section overlaid with the
      document's section, and `analytics` the same way with its `endpoints` rebuilt one
      level further down. */
  function MergeOver(d: map<string, Value>, parsed: Value): map<string, Value>
    requires WellShaped(d)
  {
    (OverlayOf(d, Spread(parsed)) + FlatSectionsMerged(d, parsed))
      ["analytics" := Obj(MergedAnalytics(d["analytics"].fields, parsed))]
  }

  /** Each one-level section as the default section overlaid with the document's. */
  function FlatSectionsMerged(d: map<string, Value>, parsed: Value): (m: map<string, Value>)
    requires WellShaped(d)
    ensures m.Keys == FlatSections
  {
    map s | s in FlatSections :: Obj(OverlayOf(d[s].fields, Spread(SectionOrEmpty(parsed, s))))
  }

  /** The merged `analytics` section over the default section `da`. */
  function MergedAnalytics(da: map<string, Value>, parsed: Value): map<string, Value>
    requires IsSection(da, "endpoints")
  {
    OverlayOf(da, Spread(SectionOrEmpty(parsed, "analytics")))
      ["endpoints" := Obj(OverlayOf(da["endpoints"].fields, Spread(ParsedEndpoints(parsed))))]
  }

  /** The configuration `load()` publishes for a parsed document. */
  function Merge(parsed: Value): map<string, Value>
  {
    DefaultsWellShaped();
    MergeOver(Defaults(), parsed)
  }

  /** The merged configuration has the keys of the defaults and of the document; a key
      that is not a section takes the document's value when present (scalars and arrays
      such as `apiBaseUrl` and `rooms` are replaced wholesale), else the default. */
  lemma MergeTopLevel(d: map<string, Value>, parsed: Value, k: string)
    requires WellShaped(d)
    ensures k in MergeOver(d, parsed) <==> k in d || k in Spread(parsed)
    ensures k in MergeOver(d, parsed) && k !in FlatSections && k != "analytics" ==>
              MergeOver(d, parsed)[k] == if k in Spread(parsed) then Spread(parsed)[k] else d[k]
  {
  }

  /** `sockets`, `health`, `sources`, `ui` and `otherBackend` are the default section
      overlaid key by key with the document's section (none, when absent or falsy). */
  lemma MergeFlatSection(d: map<string, Value>, parsed: Value, s: string)
    requires WellShaped(d) && s in FlatSections
    ensures IsSection(MergeOver(d, parsed), s)
    ensures Overlay(MergeOver(d, parsed)[s].fields, d[s].fields, Spread(SectionOrEmpty(parsed, s)))
  {
    assert "analytics" !in FlatSections;
  }

  /** The merged `analytics` is rebuilt from the default one, whatever the document's
      top level holds under that key. */
  lemma MergeAnalyticsSection(d: map<string, Value>, parsed: Value)
    requires WellShaped(d)
    ensures "analytics" in MergeOver(d, parsed)
    ensures MergeOver(d, parsed)["analytics"] == Obj(MergedAnalytics(d["analytics"].fields, parsed))
  {
  }

  /** `analytics` is overlaid key by key, and its `endpoints` one level deeper. */
  lemma AnalyticsOverlay(da: map<string, Value>, parsed: Value)
    requires IsSection(da, "endpoints")
    ensures var a := MergedAnalytics(da, parsed);
            var top := Spread(SectionOrEmpty(parsed, "analytics"));
            && (forall k :: k in a <==> k in da || k in top)
            && (forall k :: k in a && k != "endpoints" ==> a[k] == if k in top then top[k] else da[k])
            && IsSection(a, "endpoints")
            && Overlay(a["endpoints"].fields, da["endpoints"].fields, Spread(ParsedEndpoints(parsed)))
  {
  }

  /** Two maps that agree key by key are equal. */
  lemma MapsEqual(a: map<string, Value>, b: map<string, Value>)
    requires forall k :: k in a <==> k in b
    requires forall k :: k in a ==> a[k] == b[k]
    ensures a == b
  {
  }

  /** A section the document leaves out (or sets to a falsy value) keeps its default. */
  lemma AbsentSectionKeepsDefault(d: map<string, Value>, parsed: Value, s: string)
    requires WellShaped(d) && s in FlatSections
    requires Get(parsed, s).None? || Falsy(Get(parsed, s).value)
    ensures MergeOver(d, parsed)[s] == d[s]
  {
    MergeFlatSection(d, parsed, s);
    MapsEqual(MergeOver(d, parsed)[s].fields, d[s].fields);
  }

  /** An absent `analytics` section keeps the default one, `endpoints` included. */
  lemma AbsentAnalyticsKeepsDefault(d: map<string, Value>, parsed: Value)
    requires WellShaped(d) && Get(parsed, "analytics").None?
    ensures MergeOver(d, parsed)["analytics"] == d["analytics"]
  {
    MergeAnalyticsSection(d, parsed);
    AbsentOverlay(d["analytics"].fields, parsed);
  }

  lemma AbsentOverlay(da: map<string, Value>, parsed: Value)
    requires IsSection(da, "endpoints") && Get(parsed, "analytics").None?
    ensures MergedAnalytics(da, parsed) == da
  {
    AnalyticsOverlay(da, parsed);
    MapsEqual(MergedAnalytics(da, parsed)["endpoints"].fields, da["endpoints"].fields);
    MapsEqual(MergedAnalytics(da, parsed), da);
  }

  /** An empty document (`yaml.load` of an empty file) yields the defaults. */
  lemma EmptyDocument(d: map<string, Value>)
    requires WellShaped(d)
    ensures MergeOver(d, Null) == d
  {
    var m := MergeOver(d, Null);
    forall k | k in m || k in d
      ensures k in m && k in d && m[k] == d[k]
    {
      MergeTopLevel(d, Null, k);
      if k in FlatSections {
        AbsentSectionKeepsDefault(d, Null, k);
      } else if k == "analytics" {
        AbsentAnalyticsKeepsDefault(d, Null);
      }
    }
    MapsEqual(m, d);
  }

  /** A section given in full with the default's own entries stays as it was. */
  lemma SameSectionKeepsDefault(d: map<string, Value>, s: string)
    requires WellShaped(d) && s in FlatSections
    ensures MergeOver(d, Obj(d))[s] == d[s]
  {
    MergeFlatSection(d, Obj(d), s);
    MapsEqual(MergeOver(d, Obj(d))[s].fields, d[s].fields);
  }

  lemma SameAnalyticsKeepsDefault(d: map<string, Value>)
    requires WellShaped(d)
    ensures MergeOver(d, Obj(d))["analytics"] == d["analytics"]
  {
    MergeAnalyticsSection(d, Obj(d));
    var da := d["analytics"].fields;
    DefaultsSectionsRead(d);
    SelfOverlay(da, Obj(d));
  }

  /** Reading the sections back out of the defaults as a document. */
  lemma DefaultsSectionsRead(d: map<string, Value>)
    requires WellShaped(d)
    ensures SectionOrEmpty(Obj(d), "analytics") == d["analytics"]
    ensures ParsedEndpoints(Obj(d)) == d["analytics"].fields["endpoints"]
  {
  }

  /** Overlaying a section with itself changes nothing. */
  lemma SelfOverlay(da: map<string, Value>, parsed: Value)
    requires IsSection(da, "endpoints")
    requires SectionOrEmpty(parsed, "analytics") == Obj(da)
    requires ParsedEndpoints(parsed) == da["endpoints"]
    ensures MergedAnalytics(da, parsed) == da
  {
    AnalyticsOverlay(da, parsed);
    MapsEqual(MergedAnalytics(da, parsed)["endpoints"].fields, da["endpoints"].fields);
    MapsEqual(MergedAnalytics(da, parsed), da);
  }

  /** Feeding the defaults back in as the document changes nothing. */
  lemma DefaultsAsDocument(d: map<string, Value>)
    requires WellShaped(d)
    ensures MergeOver(d, Obj(d)) == d
  {
    var m := MergeOver(d, Obj(d));
    forall k | k in m || k in d
      ensures k in m && k in d && m[k] == d[k]
    {
      MergeTopLevel(d, Obj(d), k);
      if k in FlatSections {
        SameSectionKeepsDefault(d, k);
      } else if k == "analytics" {
        SameAnalyticsKeepsDefault(d);
      }
    }
    MapsEqual(m, d);
  }

  lemma OneKeyAnalytics(d: map<string, Value>, key: string, v: Value)
    requires WellShaped(d) && key != "endpoints"
    ensures var doc := Obj(map["analytics" := Obj(map[key := v])]);
            MergeOver(d, doc)["analytics"] == Obj(d["analytics"].fields[key := v])
  {
    var doc := Obj(map["analytics" := Obj(map[key := v])]);
    MergeAnalyticsSection(d, doc);
    OneKeyOverlay(d["analytics"].fields, key, v);
  }

  lemma OneKeyOverlay(da: map<string, Value>, key: string, v: Value)
    requires IsSection(da, "endpoints") && key != "endpoints"
    ensures MergedAnalytics(da, Obj(map["analytics" := Obj(map[key := v])])) == da[key := v]
  {
    var doc := Obj(map["analytics" := Obj(map[key := v])]);
    assert SectionOrEmpty(doc, "analytics") == Obj(map[key := v]);
    assert ParsedEndpoints(doc) == Obj(map[]);
    AnalyticsOverlay(da, doc);
    MapsEqual(MergedAnalytics(da, doc)["endpoints"].fields, da["endpoints"].fields);
    MapsEqual(MergedAnalytics(da, doc), da[key := v]);
  }

  /** A document holding one analytics key (other than `endpoints`) changes that key
      and nothing else. */
  lemma SingleAnalyticsKey(d: map<string, Value>, key: string, v: Value)
    requires WellShaped(d) && key != "endpoints"
    ensures var doc := Obj(map["analytics" := Obj(map[key := v])]);
            MergeOver(d, doc) == d["analytics" := Obj(d["analytics"].fields[key := v])]
  {
    var doc := Obj(map["analytics" := Obj(map[key := v])]);
    var m := MergeOver(d, doc);
    var expected := d["analytics" := Obj(d["analytics"].fields[key := v])];
    forall k | k in m || k in expected
      ensures k in m && k in expected && m[k] == expected[k]
    {
      MergeTopLevel(d, doc, k);
      if k in FlatSections {
        AbsentSectionKeepsDefault(d, doc, k);
      } else if k == "analytics" {
        OneKeyAnalytics(d, key, v);
      }
    }
    MapsEqual(m, expected);
  }

  /** `{analytics: {temperatureThreshold: 50}}` changes only that threshold. */
  lemma TemperatureThresholdOnly()
    ensures var doc := Obj(map["analytics" := Obj(map["temperatureThreshold" := Num(50.0)])]);
            Merge(doc) == Defaults()["analytics" := Obj(DefaultAnalytics()["temperatureThreshold" := Num(50.0)])]
  {
    DefaultsWellShaped();
    SingleAnalyticsKey(Defaults(), "temperatureThreshold", Num(50.0));
  }

  // ---------------------------------------------------------------------------------
  // The loader

  /** What the provider publishes. */
  datatype ConfigState = ConfigState(config: Option<map<string, Value>>, loading: bool, error: Option<string>)

  /** How reading `/config.yaml` ended: a non-OK HTTP status, an exception with its
      message ("" when it has none: a thrown non-error or an empty message), or a parsed
      document. */
  datatype LoadOutcome = NotOk(status: nat) | Failed(message: string) | Parsed(doc: Value)

  const UnknownError: string := "Unknown error"

  /** `err?.message || 'Unknown error'` for the error `load()` catches. */
  function ErrorText(outcome: LoadOutcome): (e: string)
    requires !outcome.Parsed?
    ensures e != ""
    ensures outcome.NotOk? ==> e == "Failed to load config: " + Text.Digits(outcome.status)
    ensures outcome.Failed? && outcome.message != "" ==> e == outcome.message
    ensures outcome.Failed? && outcome.message == "" ==> e == UnknownError
  {
    match outcome
    case NotOk(status) => "Failed to load config: " + Text.Digits(status)
    case Failed(message) => if message == "" then UnknownError else message
  }

  /** The state `load()` sets when it finishes: the merged configuration with no error,
      or the defaults with the error text. Loading is over either way. */
  function Finished(outcome: LoadOutcome): (s: ConfigState)
    ensures !s.loading && s.config.Some?
    ensures outcome.Parsed? <==> s.error.None?
    ensures !outcome.Parsed? ==> s.error.Some? && s.error.value != ""
  {
    if outcome.Parsed? then ConfigState(Some(Merge(outcome.doc)), false, None)
    else ConfigState(Some(Defaults()), false, Some(ErrorText(outcome)))
  }

  /** The provider: its published state and the `isMounted` flag of its effect. */
  class ConfigProvider {
    var state: ConfigState
    var isMounted: bool

    /** While loading there may be no configuration yet; afterwards there always is one. */
    ghost predicate Valid()
      reads this
    {
      state.loading || state.config.Some?
    }

    constructor ()
      ensures Valid() && isMounted
      ensures state == ConfigState(None, true, None)
    {
      state := ConfigState(None, true, None);
      isMounted := true;
    }

    /** The effect's cleanup. */
    method Unmount()
      modifies this
      ensures !isMounted && state == old(state)
    {
      isMounted := false;
    }

    /** The end of `load()`: the state it computed (`Finished` of how the read ended) is
        set only while mounted. */
    method Finish(next: ConfigState)
      requires Valid() && !next.loading && next.config.Some?
      modifies this
      ensures Valid() && isMounted == old(isMounted)
      ensures old(isMounted) ==> state == next
      ensures !old(isMounted) ==> state == old(state)
    {
      if isMounted {
        state := next;
      }
    }
  }

  /** A load that ends while mounted publishes `Finished` of how the read ended. */
  method EndLoad(p: ConfigProvider, outcome: LoadOutcome)
    requires p.Valid()
    modifies p
    ensures p.Valid() && p.isMounted == old(p.isMounted)
    ensures old(p.isMounted) ==> p.state == Finished(outcome)
    ensures !old(p.isMounted) ==> p.state == old(p.state)
  {
    p.Finish(Finished(outcome));
  }

  /** Once unmounted, a load that finishes later changes nothing. */
  method LateLoad(p: ConfigProvider, outcome: LoadOutcome)
    requires p.Valid()
    modifies p
    ensures p.state == old(p.state) && !p.isMounted
  {
    p.Unmount();
    p.Finish(Finished(outcome));
  }

  /** A document that was read publishes its merge over the defaults, with no error. */
  lemma ReadLoadPublishesMerge(doc: Value)
    ensures Finished(Parsed(doc)).config == Some(Merge(doc))
    ensures Finished(Parsed(doc)).error.None?
  {
  }

  /** A failed load publishes the defaults; unreadable errors read "Unknown error". */
  lemma FailedLoadFallsBack(outcome: LoadOutcome)
    requires !outcome.Parsed?
    ensures Finished(outcome).config == Some(Defaults())
    ensures outcome.NotOk? ==>
              Finished(outcome).error == Some("Failed to load config: " + Text.Digits(outcome.status))
    ensures outcome.Failed? && outcome.message == "" ==> Finished(outcome).error == Some(UnknownError)
    ensures outcome.Failed? && outcome.message != "" ==> Finished(outcome).error == Some(outcome.message)
  {
  }
}
