/** The stream state container (src/context/StreamAnalyticsContext.tsx): its reducer, the
    handling of inbound socket messages (frames, deduplicated face boxes, counters), the
    REST poll of counters and intruders, and the event record built for storage. */
module StreamAnalytics {
  import opened Wrappers
  import opened Types
  import Socket
  import Config

  datatype Source = DefaultSource | Cam1Source | Cam2Source

  /** One entry of the intruder history list. */
  datatype HistoryEntry = HistoryEntry(snap: string, name: string, timestamp: string)

  /** A face box drawn over the frame. */
  datatype Box = Box(x: int, y: int, w: int, h: int, distance: real, name: string, threshold: real)

  /** The four counter fields of the state are grouped as one `Counters` record. */
  datatype StreamState = StreamState(
    source: Source,
    sourceUrl: Option<string>,
    connection: Connection,
    currentFrame: Option<string>,
    counters: Counters,
    verifiedUsers: seq<string>,
    intruderHistory: seq<HistoryEntry>,
    boundingBoxes: Option<seq<Box>>)

  function InitialState(): StreamState
  {
    StreamState(DefaultSource, None, Disconnected, None, Counters(0, 0, 0, 0), [], [], None)
  }

  datatype Action =
    | SetSource(source: Source, url: Option<string>)
    | SetConnection(status: Connection)
    | ShowFrame(imageBase64: string)
    | SetAnalytics(payload: Counters)
    | SetVerified(users: seq<string>)
    | SetIntruderHistory(history: seq<HistoryEntry>)
    | SetBoundingBoxes(boxes: Option<seq<Box>>)
    | UnrecognisedAction(tag: string)

  /** The reducer: each action replaces its own field(s) and leaves every other field as it
      was; an unrecognised action returns the state unchanged. */
  function Reduce(state: StreamState, action: Action): (r: StreamState)
    ensures action.UnrecognisedAction? ==> r == state
    ensures action.SetSource? ==> r.source == action.source && r.sourceUrl == action.url
    ensures !action.SetSource? ==> r.source == state.source && r.sourceUrl == state.sourceUrl
    ensures action.SetConnection? ==> r.connection == action.status
    ensures !action.SetConnection? ==> r.connection == state.connection
    ensures action.ShowFrame? ==> r.currentFrame == Some(action.imageBase64)
    ensures !action.ShowFrame? ==> r.currentFrame == state.currentFrame
    ensures action.SetAnalytics? ==> r.counters == action.payload
    ensures !action.SetAnalytics? ==> r.counters == state.counters
    ensures action.SetVerified? ==> r.verifiedUsers == action.users
    ensures !action.SetVerified? ==> r.verifiedUsers == state.verifiedUsers
    ensures action.SetIntruderHistory? ==> r.intruderHistory == action.history
    ensures !action.SetIntruderHistory? ==> r.intruderHistory == state.intruderHistory
    ensures action.SetBoundingBoxes? ==> r.boundingBoxes == action.boxes
    ensures !action.SetBoundingBoxes? ==> r.boundingBoxes == state.boundingBoxes
  {
    match action
    case SetSource(s, url) => state.(source := s, sourceUrl := url)
    case SetConnection(c) => state.(connection := c)
    case ShowFrame(img) => state.(currentFrame := Some(img))
    case SetAnalytics(c) => state.(counters := c)
    case SetVerified(users) => state.(verifiedUsers := users)
    case SetIntruderHistory(h) => state.(intruderHistory := h)
    case SetBoundingBoxes(b) => state.(boundingBoxes := b)
    case UnrecognisedAction(_) => state
  }

  /** Dispatching the same action twice gives the same state as dispatching it once. */
  lemma ReduceIdempotent(state: StreamState, action: Action)
    ensures Reduce(Reduce(state, action), action) == Reduce(state, action)
  {
  }

  /** Dispatching a list of actions in order. */
  function ApplyAll(state: StreamState, actions: seq<Action>): StreamState
    decreases |actions|
  {
    if actions == [] then state else ApplyAll(Reduce(state, actions[0]), actions[1..])
  }

  // ---------------------------------------------------------------------------------
  // Face boxes

  /** The region a prediction is about: the string key `${x}-${y}-${w}-${h}` is modelled
      as the tuple it is built from. */
  datatype Key = Key(x: int, y: int, w: int, h: int)

  function KeyOf(p: Prediction): Key
  {
    Key(p.sourceX, p.sourceY, p.sourceW, p.sourceH)
  }

  function BoxKey(b: Box): Key
  {
    Key(b.x, b.y, b.w, b.h)
  }

  predicate Occurs(preds: seq<Prediction>, k: Key)
  {
    exists i :: 0 <= i < |preds| && KeyOf(preds[i]) == k
  }

  lemma OccursSnoc(preds: seq<Prediction>, k: Key)
    requires preds != []
    ensures Occurs(preds, k) <==> Occurs(preds[..|preds| - 1], k) || KeyOf(preds[|preds| - 1]) == k
  {
    var init := preds[..|preds| - 1];
    if Occurs(preds, k) && KeyOf(preds[|preds| - 1]) != k {
      var i :| 0 <= i < |preds| && KeyOf(preds[i]) == k;
      assert init[i] == preds[i];
    }
    if Occurs(init, k) {
      var i :| 0 <= i < |init| && KeyOf(init[i]) == k;
      assert preds[i] == init[i];
    }
  }

  /** `identity.split('_')[0]`: the identity up to (not including) its first underscore. */
  function IdentityPrefix(identity: string): (r: string)
    ensures r <= identity && '_' !in r
    ensures |r| < |identity| ==> identity[|r|] == '_'
  {
    if identity == [] || identity[0] == '_' then "" else [identity[0]] + IdentityPrefix(identity[1..])
  }

  /** The three properties above single out the prefix: it is the longest underscore-free
      prefix of the identity. */
  lemma {:induction false} IdentityPrefixUnique(identity: string, r: string)
    requires r <= identity && '_' !in r
    requires |r| < |identity| ==> identity[|r|] == '_'
    ensures r == IdentityPrefix(identity)
  {
    if identity != [] && identity[0] != '_' && r != [] {
      IdentityPrefixUnique(identity[1..], r[1..]);
    }
  }

  /** The label of a box: "Unknown" beyond the threshold, else the identity prefix. */
  function BoxName(p: Prediction, threshold: real): string
  {
    if p.distance > threshold then "Unknown" else IdentityPrefix(p.identity)
  }

  function BoxOf(p: Prediction, threshold: real): Box
  {
    Box(p.sourceX, p.sourceY, p.sourceW, p.sourceH, p.distance, BoxName(p, threshold), threshold)
  }

  /** The distinct keys of the predictions, in the order each first occurs. */
  function FirstKeys(preds: seq<Prediction>): (keys: seq<Key>)
    ensures forall k :: k in keys <==> Occurs(preds, k)
    ensures forall i, j :: 0 <= i < j < |keys| ==> keys[i] != keys[j]
  {
    if preds == [] then []
    else
      var init := preds[..|preds| - 1];
      var k := KeyOf(preds[|preds| - 1]);
      var ks := FirstKeys(init);
      assert forall k' :: Occurs(preds, k') <==> Occurs(init, k') || k' == k by {
        forall k' ensures Occurs(preds, k') <==> Occurs(init, k') || k' == k {
          OccursSnoc(preds, k');
        }
      }
      if k in ks then ks else ks + [k]
  }

  /** The index of the first prediction with key k. */
  function FirstIndex(preds: seq<Prediction>, k: Key): (i: nat)
    requires Occurs(preds, k)
    ensures i < |preds| && KeyOf(preds[i]) == k
    ensures forall j :: 0 <= j < i ==> KeyOf(preds[j]) != k
  {
    var init := preds[..|preds| - 1];
    OccursSnoc(preds, k);
    if Occurs(init, k) then FirstIndex(init, k) else |preds| - 1
  }

  /** The prediction that the dedup keeps for key k: the one with the smallest distance,
      and among equally small ones the first (a later one replaces it only if strictly
      closer). */
  function BestIndex(preds: seq<Prediction>, k: Key): (b: nat)
    requires Occurs(preds, k)
    ensures b < |preds| && KeyOf(preds[b]) == k
    ensures forall j :: 0 <= j < |preds| && KeyOf(preds[j]) == k ==> preds[b].distance <= preds[j].distance
    ensures forall j :: 0 <= j < b && KeyOf(preds[j]) == k ==> preds[b].distance < preds[j].distance
  {
    var n := |preds| - 1;
    var init := preds[..n];
    OccursSnoc(preds, k);
    if KeyOf(preds[n]) != k then BestIndex(init, k)
    else if !Occurs(init, k) then n
    else
      var b := BestIndex(init, k);
      if preds[n].distance < preds[b].distance then n else b
  }

  /** The boxes the dedup produces: one per distinct key, in first-occurrence order, each
      built from that key's kept prediction. */
  function MergedBoxes(preds: seq<Prediction>, threshold: real): seq<Box>
  {
    var keys := FirstKeys(preds);
    seq(|keys|, j requires 0 <= j < |keys| => BoxOf(preds[BestIndex(preds, keys[j])], threshold))
  }

  /** The dedup as the source runs it: a left fold over the predictions into an object
      keyed by region (here a map plus the list of keys in insertion order, which is the
      order `Object.values` returns), replacing an entry only by a strictly closer one. */
  method MergeBoxes(preds: seq<Prediction>, threshold: real) returns (boxes: seq<Box>)
    ensures boxes == MergedBoxes(preds, threshold)
  {
    var keys: seq<Key> := [];
    var acc: map<Key, Box> := map[];
    var i := 0;
    while i < |preds|
      invariant 0 <= i <= |preds|
      invariant FoldState(keys, acc, preds[..i], threshold)
    {
      var p := preds[i];
      var key := KeyOf(p);
      ghost var keysBefore, accBefore := keys, acc;
      if key !in acc || p.distance < acc[key].distance {
        if key !in acc {
          keys := keys + [key];
        }
        acc := acc[key := BoxOf(p, threshold)];
      }
      FoldStep(keysBefore, accBefore, keys, acc, preds, i, threshold);
      i := i + 1;
    }
    ValuesInKeyOrder(acc, keys, preds, threshold);
    boxes := ValuesInOrder(acc, keys);
  }

  /** `Object.values` of the accumulator: its entries in key-insertion order. */
  function ValuesInOrder(acc: map<Key, Box>, keys: seq<Key>): (values: seq<Box>)
    requires forall k :: k in keys ==> k in acc
    ensures |values| == |keys| && forall j :: 0 <= j < |keys| ==> values[j] == acc[keys[j]]
  {
    if keys == [] then [] else [acc[keys[0]]] + ValuesInOrder(acc, keys[1..])
  }

  /** After a prefix of the fold: the keys in insertion order are the prefix's distinct
      keys, and the accumulator holds exactly those keys, each with its kept box. */
  ghost predicate FoldState(keys: seq<Key>, acc: map<Key, Box>, prefix: seq<Prediction>, threshold: real)
  {
    && keys == FirstKeys(prefix)
    && (forall k :: k in acc <==> k in keys)
    && KeptBoxes(acc, prefix, threshold)
  }

  lemma FoldStep(keys: seq<Key>, acc: map<Key, Box>, keys': seq<Key>, acc': map<Key, Box>,
                 preds: seq<Prediction>, i: nat, threshold: real)
    requires i < |preds|
    requires FoldState(keys, acc, preds[..i], threshold)
    requires keys' == if KeyOf(preds[i]) !in acc then keys + [KeyOf(preds[i])] else keys
    requires acc' == if KeyOf(preds[i]) !in acc || preds[i].distance < acc[KeyOf(preds[i])].distance
                     then acc[KeyOf(preds[i]) := BoxOf(preds[i], threshold)] else acc
    ensures FoldState(keys', acc', preds[..i + 1], threshold)
  {
    TakeSnoc(preds, i);
    FirstKeysSnoc(preds[..i], preds[i]);
    KeptBoxesStep(acc, acc', preds[..i], preds[i], threshold);
  }

  lemma TakeSnoc<T>(s: seq<T>, i: nat)
    requires i < |s|
    ensures s[..i + 1] == s[..i] + [s[i]]
  {
  }

  /** Reading the accumulator's values in key-insertion order gives the merged boxes. */
  lemma ValuesInKeyOrder(acc: map<Key, Box>, keys: seq<Key>, preds: seq<Prediction>, threshold: real)
    requires FoldState(keys, acc, preds[..|preds|], threshold)
    ensures forall k :: k in keys ==> k in acc
    ensures ValuesInOrder(acc, keys) == MergedBoxes(preds, threshold)
  {
    assert preds[..|preds|] == preds;
  }

  /** The accumulator holds, for each key seen, the box of that key's kept prediction. */
  ghost predicate KeptBoxes(acc: map<Key, Box>, prefix: seq<Prediction>, threshold: real)
  {
    forall k :: k in acc ==> Occurs(prefix, k) && acc[k] == BoxOf(prefix[BestIndex(prefix, k)], threshold)
  }

  lemma FirstKeysSnoc(prefix: seq<Prediction>, p: Prediction)
    ensures FirstKeys(prefix + [p]) ==
            if KeyOf(p) in FirstKeys(prefix) then FirstKeys(prefix) else FirstKeys(prefix) + [KeyOf(p)]
  {
    assert (prefix + [p])[..|prefix|] == prefix;
  }

  lemma BestIndexSnoc(prefix: seq<Prediction>, p: Prediction, k: Key)
    requires Occurs(prefix + [p], k)
    ensures KeyOf(p) != k ==> Occurs(prefix, k) && BestIndex(prefix + [p], k) == BestIndex(prefix, k)
    ensures KeyOf(p) == k && !Occurs(prefix, k) ==> BestIndex(prefix + [p], k) == |prefix|
    ensures KeyOf(p) == k && Occurs(prefix, k) ==>
              BestIndex(prefix + [p], k) ==
              if p.distance < prefix[BestIndex(prefix, k)].distance then |prefix| else BestIndex(prefix, k)
  {
    assert (prefix + [p])[..|prefix|] == prefix;
    OccursSnoc(prefix + [p], k);
  }

  /** One step of the fold keeps the accumulator accurate. */
  lemma KeptBoxesStep(acc: map<Key, Box>, acc': map<Key, Box>, prefix: seq<Prediction>, p: Prediction,
                      threshold: real)
    requires KeptBoxes(acc, prefix, threshold)
    requires forall k :: k in acc <==> Occurs(prefix, k)
    requires acc' == if KeyOf(p) !in acc || p.distance < acc[KeyOf(p)].distance
                     then acc[KeyOf(p) := BoxOf(p, threshold)] else acc
    ensures KeptBoxes(acc', prefix + [p], threshold)
  {
    var full := prefix + [p];
    assert full[|prefix|] == p;
    forall k | k in acc'
      ensures Occurs(full, k) && acc'[k] == BoxOf(full[BestIndex(full, k)], threshold)
    {
      OccursSnoc(full, k);
      assert full[..|prefix|] == prefix;
      BestIndexSnoc(prefix, p, k);
      if KeyOf(p) != k {
        assert full[BestIndex(prefix, k)] == prefix[BestIndex(prefix, k)];
      }
    }
  }

  /** What the dedup guarantees: exactly one box per distinct region, ordered by the
      region's first occurrence; each box carries the smallest distance seen for its region
      (the first such prediction on ties), the message threshold, and the label
      "Unknown" beyond the threshold or else that prediction's identity prefix. */
  lemma {:induction false} MergedBoxesSpec(preds: seq<Prediction>, threshold: real)
    ensures var boxes := MergedBoxes(preds, threshold);
      && (forall k :: Occurs(preds, k) <==> exists i :: 0 <= i < |boxes| && BoxKey(boxes[i]) == k)
      && (forall i, j :: 0 <= i < j < |boxes| ==> BoxKey(boxes[i]) != BoxKey(boxes[j]))
      && (forall i, j :: 0 <= i < j < |boxes| ==>
            FirstIndex(preds, BoxKey(boxes[i])) < FirstIndex(preds, BoxKey(boxes[j])))
      && (forall i :: 0 <= i < |boxes| ==>
            var p := preds[BestIndex(preds, BoxKey(boxes[i]))];
            && boxes[i].distance == p.distance
            && (forall j :: 0 <= j < |preds| && KeyOf(preds[j]) == BoxKey(boxes[i]) ==> boxes[i].distance <= preds[j].distance)
            && boxes[i].threshold == threshold
            && (boxes[i].distance > threshold ==> boxes[i].name == "Unknown")
            && (boxes[i].distance <= threshold ==> boxes[i].name == IdentityPrefix(p.identity)))
  {
    var boxes := MergedBoxes(preds, threshold);
    var keys := FirstKeys(preds);
    assert forall i :: 0 <= i < |boxes| ==> BoxKey(boxes[i]) == keys[i];
    forall k | Occurs(preds, k)
      ensures exists i :: 0 <= i < |boxes| && BoxKey(boxes[i]) == k
    {
      var i :| 0 <= i < |keys| && keys[i] == k;
      assert BoxKey(boxes[i]) == k;
    }
    FirstKeysOrdered(preds);
  }

  /** The distinct keys come in the order of their first occurrence. */
  lemma {:induction false} FirstKeysOrdered(preds: seq<Prediction>)
    ensures forall i, j :: 0 <= i < j < |FirstKeys(preds)| ==>
              FirstIndex(preds, FirstKeys(preds)[i]) < FirstIndex(preds, FirstKeys(preds)[j])
  {
    if preds != [] {
      var init := preds[..|preds| - 1];
      FirstKeysOrdered(init);
      var ks := FirstKeys(init);
      forall k | k in ks
        ensures FirstIndex(preds, k) == FirstIndex(init, k)
      {
        OccursSnoc(preds, k);
      }
    }
  }

  /** A box label can be "Unknown" within the threshold too: when the identity itself
      begins "Unknown_". So the label alone does not tell whether the threshold was
      crossed. */
  lemma UnknownLabelWithinThreshold()
    ensures var p := Prediction(1, 2, 3, 4, 0.1, "Unknown_7");
            p.distance <= 0.4 && BoxName(p, 0.4) == "Unknown"
  {
    var id := "Unknown_7";
    assert id[7] == '_';
    IdentityPrefixUnique(id, "Unknown");
  }

  // ---------------------------------------------------------------------------------
  // Socket messages

  /** The actions `onMessage` dispatches for a parsed message, in order. A `response`
      dispatches its frame first, then its boxes only when `predictions` is an array. */
  function MessageActions(msg: SocketMessage): (actions: seq<Action>)
    ensures msg.ResponseMessage? ==> 1 <= |actions| <= 2 && actions[0] == ShowFrame(msg.frame)
    ensures msg.ResponseMessage? ==> (|actions| == 2 <==> msg.predictions.Predictions?)
    ensures msg.ErrorMessage? ==> actions == []
  {
    match msg
    case ResponseMessage(frame, threshold, preds) =>
      [ShowFrame(frame)] +
      (if preds.Predictions? then [SetBoundingBoxes(Some(MergedBoxes(preds.items, threshold)))] else [])
    case FrameMessage(img) => [ShowFrame(img)]
    case AnalyticsMessage(c) => [SetAnalytics(c)]
    case VerifiedMessage(users) => [SetVerified(users)]
    case StatusMessage(c) => [SetConnection(c)]
    case ErrorMessage(_) => []
  }

  /** The state after a `response` message: the frame is shown, the boxes are replaced by
      the deduplicated boxes when predictions came as an array, and nothing else changes. */
  lemma {:induction false} ResponseMessageState(state: StreamState, frame: string, threshold: real,
                                                preds: PredictionsField)
    ensures ApplyAll(state, MessageActions(ResponseMessage(frame, threshold, preds))) ==
            state.(currentFrame := Some(frame),
                   boundingBoxes := if preds.Predictions? then Some(MergedBoxes(preds.items, threshold))
                                    else state.boundingBoxes)
  {
    var actions := MessageActions(ResponseMessage(frame, threshold, preds));
    var s1 := Reduce(state, actions[0]);
    if preds.Predictions? {
      assert actions[1..][1..] == [];
      assert ApplyAll(state, actions) == ApplyAll(Reduce(s1, actions[1]), []);
    } else {
      assert actions[1..] == [];
    }
  }

  /** The scenario of a single prediction beyond the threshold yields one "Unknown" box. */
  lemma SingleUnknownPrediction()
    ensures MergedBoxes([Prediction(1, 2, 3, 4, 0.6, "Unknown_1")], 0.4)
            == [Box(1, 2, 3, 4, 0.6, "Unknown", 0.4)]
  {
    var preds := [Prediction(1, 2, 3, 4, 0.6, "Unknown_1")];
    assert preds[..0] == [];
    assert FirstKeys(preds) == [Key(1, 2, 3, 4)];
  }

  // ---------------------------------------------------------------------------------
  // The event record built for the storage backend

  datatype EventStatus = NoFace | UnknownFace | VerifiedFace

  datatype Coordinate = Coordinate(x: int, y: int, w: int, h: int, distance: real, name: string)

  /** The record in the order the source builds it; `kind` is its `type` field. */
  datatype StoredEvent = StoredEvent(
    kind: string, image: string, threshold: real, datetime: string, distance: real, confidence: real,
    frameHeight: string, frameWidth: string, status: EventStatus, coordinates: seq<Coordinate>)

  const ResponseKind: string := "response"

  /** `predictions.some(p => p.distance > threshold)`, scanning left to right. */
  function SomeBeyond(preds: seq<Prediction>, threshold: real): (b: bool)
    ensures b <==> exists i :: 0 <= i < |preds| && preds[i].distance > threshold
  {
    if preds == [] then false
    else preds[0].distance > threshold || SomeBeyond(preds[1..], threshold)
  }

  function CoordinateOf(p: Prediction): Coordinate
  {
    Coordinate(p.sourceX, p.sourceY, p.sourceW, p.sourceH, p.distance, IdentityPrefix(p.identity))
  }

  /** `const {predictions = []} = msg`: an absent field becomes the empty array; any other
      value that is not an array stays, and its `.map` then throws (`None`). */
  function DefaultedPredictions(field: PredictionsField): (r: Option<seq<Prediction>>)
    ensures r.None? <==> field.NotArray?
    ensures field.Missing? ==> r == Some([])
    ensures field.Predictions? ==> r == Some(field.items)
  {
    match field
    case Missing => Some([])
    case NotArray => None
    case Predictions(items) => Some(items)
  }

  /** `transformAiResponse`; `datetime` is the current instant, given. `None` is the
      `TypeError` it throws when `predictions` is present but not an array. */
  function TransformAiResponse(frame: string, threshold: real, predictions: PredictionsField,
                               nowIso: string): (r: Option<StoredEvent>)
    ensures r.None? <==> predictions.NotArray?
    ensures r.Some? ==> var preds := DefaultedPredictions(predictions).value; var e := r.value;
      && (e.status == NoFace <==> preds == [])
      && (e.status == UnknownFace <==> exists i :: 0 <= i < |preds| && preds[i].distance > threshold)
      && (e.status == VerifiedFace <==>
            preds != [] && forall i :: 0 <= i < |preds| ==> preds[i].distance <= threshold)
      && |e.coordinates| == |preds|
      && (forall i :: 0 <= i < |preds| ==> e.coordinates[i] == CoordinateOf(preds[i]))
      && e.image == frame && e.threshold == threshold && e.datetime == nowIso
      && e.kind == ResponseKind && e.distance == 0.0 && e.confidence == 0.0
      && e.frameHeight == "0" && e.frameWidth == "0"
  {
    var defaulted := DefaultedPredictions(predictions);
    if defaulted.None? then None
    else
      var preds := defaulted.value;
      var status := if |preds| == 0 then NoFace
                    else if SomeBeyond(preds, threshold) then UnknownFace
                    else VerifiedFace;
      var coordinates := seq(|preds|, i requires 0 <= i < |preds| => CoordinateOf(preds[i]));
      Some(StoredEvent(ResponseKind, frame, threshold, nowIso, 0.0, 0.0, "0", "0", status, coordinates))
  }

  /** The stored status agrees with the boxes drawn for the same message: no face iff no
      box, a box beyond the threshold only under status "unknown", and under "verified"
      every box is labelled with its identity prefix. */
  lemma {:induction false} StatusAgreesWithBoxes(frame: string, threshold: real, preds: seq<Prediction>,
                                                 nowIso: string)
    ensures var e := TransformAiResponse(frame, threshold, Predictions(preds), nowIso).value;
            var boxes := MergedBoxes(preds, threshold);
      && (e.status == NoFace <==> boxes == [])
      && ((exists i :: 0 <= i < |boxes| && boxes[i].distance > threshold) ==> e.status == UnknownFace)
      && (e.status == VerifiedFace ==>
            forall i :: 0 <= i < |boxes| ==>
              boxes[i].distance <= threshold
              && boxes[i].name == IdentityPrefix(preds[BestIndex(preds, BoxKey(boxes[i]))].identity))
  {
    var boxes := MergedBoxes(preds, threshold);
    var keys := FirstKeys(preds);
    if preds != [] {
      assert Occurs(preds, KeyOf(preds[0]));
      assert |keys| > 0;
    }
    MergedBoxesSpec(preds, threshold);
  }

  // ---------------------------------------------------------------------------------
  // The REST poll of counters and intruders

  /** An intruder record: `image` is "" when absent or empty; `localTime` is the locale
      rendering of its datetime, given. */
  datatype Intruder = Intruder(image: string, localTime: string)

  /** `result.data`: "Total User" (absent = None) and "Intruders" (None when not an array). */
  datatype PollData = PollData(totalUser: Option<int>, intruders: Option<seq<Intruder>>)

  /** The poll's response: the request failed (network error, non-OK status or unreadable
      JSON), or a body with its `success` flag and `data`. */
  datatype PollOutcome = PollFailed | PollReceived(success: bool, data: Option<PollData>)

  const PlaceholderSnap: string := "/placeholder-image.jpg"
  const IntruderLabel: string := "Unknown Person"

  function IntruderEntry(i: Intruder): (h: HistoryEntry)
    ensures h.snap != "" && (i.image != "" ==> h.snap == i.image)
    ensures h.name == IntruderLabel && h.timestamp == i.localTime
  {
    HistoryEntry(if i.image == "" then PlaceholderSnap else i.image, IntruderLabel, i.localTime)
  }

  /** Whether a poll result reaches the dispatches. */
  predicate PollDispatches(outcome: PollOutcome, cancelled: bool)
  {
    outcome.PollReceived? && !cancelled && outcome.success && outcome.data.Some?
  }

  /** `fetchAnalyticsAndIntruders`: the actions it dispatches. The intruder count becomes
      `unknown`, the total is raised to it when smaller, `verified` is the rest, `noFace`
      is zero; the history is replaced by one entry per intruder. A failed request, a
      cancelled poll or a body without `success`/`data` dispatches nothing. */
  method FetchAnalyticsAndIntruders(outcome: PollOutcome, cancelled: bool) returns (actions: seq<Action>)
    ensures !PollDispatches(outcome, cancelled) ==> actions == []
    ensures PollDispatches(outcome, cancelled) ==>
      var reported := outcome.data.value.totalUser.GetOr(0);
      var intruders := outcome.data.value.intruders.GetOr([]);
      && |actions| == 2 && actions[0].SetAnalytics? && actions[1].SetIntruderHistory?
      && var c := actions[0].payload;
      && c.unknown == |intruders|
      && c.totalEvents == (if reported < |intruders| then |intruders| else reported)
      && c.verified + c.unknown == c.totalEvents && c.verified >= 0 && c.noFace == 0
      && var h := actions[1].history;
      && |h| == |intruders|
      && forall i :: 0 <= i < |h| ==>
           h[i].name == IntruderLabel && h[i].timestamp == intruders[i].localTime
           && h[i].snap == (if intruders[i].image == "" then PlaceholderSnap else intruders[i].image)
  {
    if !PollDispatches(outcome, cancelled) {
      return [];
    }
    var data := outcome.data.value;
    var total := data.totalUser.GetOr(0);
    var intruders := data.intruders.GetOr([]);
    var unknown := |intruders|;
    if unknown > total {
      total := unknown;
    }
    var verified := if total - unknown > 0 then total - unknown else 0;
    var noFace := total - (verified + unknown);
    actions := [SetAnalytics(Counters(total, unknown, verified, noFace))];
    if |intruders| > 0 {
      var history := seq(|intruders|, i requires 0 <= i < |intruders| => IntruderEntry(intruders[i]));
      actions := actions + [SetIntruderHistory(history)];
    } else {
      actions := actions + [SetIntruderHistory([])];
    }
  }

  /** More intruders than the reported total: the total is raised to the intruder count
      and nobody counts as verified. */
  method ClampedPoll(reported: int, intruders: seq<Intruder>) returns (c: Counters)
    requires |intruders| > reported
    ensures c.totalEvents == c.unknown == |intruders| && c.verified == 0 && c.noFace == 0
  {
    var actions := FetchAnalyticsAndIntruders(PollReceived(true, Some(PollData(Some(reported), Some(intruders)))), false);
    c := actions[0].payload;
  }

  // ---------------------------------------------------------------------------------
  // The stream socket's callbacks and the commands sent on it

  /** The provider's stream-socket effect: once the configuration has loaded it marks the
      stream as connecting before starting the client. */
  function StartActions(loading: bool, config: Option<map<string, Config.Value>>): (actions: seq<Action>)
    ensures actions == [] <==> loading || config.None?
    ensures actions != [] ==> actions == [SetConnection(Connecting)]
  {
    if loading || config.None? then [] else [SetConnection(Connecting)]
  }

  /** The actions the provider's callbacks dispatch for one thing the client did: an
      open marks the stream connected, a close or an error marks it disconnected, a
      message dispatches its own actions; the provider sees nothing else. */
  function CallbackActions(e: Socket.Effect): seq<Action>
  {
    match e
    case OpenCallback(_) => [SetConnection(Connected)]
    case CloseCallback => [SetConnection(Disconnected)]
    case ErrorCallback => [SetConnection(Disconnected)]
    case MessageCallback(msg) => MessageActions(msg)
    case _ => []
  }

  /** The actions dispatched for a run of client effects, in order. */
  function AllCallbackActions(effects: seq<Socket.Effect>): seq<Action>
  {
    if effects == [] then []
    else AllCallbackActions(effects[..|effects| - 1]) + CallbackActions(effects[|effects| - 1])
  }

  /** The connection status an effect announces, if any: the lifecycle callbacks, and
      `status` messages. */
  function StatusOf(e: Socket.Effect): Option<Connection>
  {
    match e
    case OpenCallback(_) => Some(Connected)
    case CloseCallback => Some(Disconnected)
    case ErrorCallback => Some(Disconnected)
    case MessageCallback(StatusMessage(c)) => Some(c)
    case _ => None
  }

  /** The status the last announcing effect gave, or `initial` when none did. */
  function LastStatus(effects: seq<Socket.Effect>, initial: Connection): Connection
  {
    if effects == [] then initial
    else
      var last := StatusOf(effects[|effects| - 1]);
      if last.Some? then last.value else LastStatus(effects[..|effects| - 1], initial)
  }

  lemma {:induction false} ApplyAllAppend(state: StreamState, a: seq<Action>, b: seq<Action>)
    ensures ApplyAll(state, a + b) == ApplyAll(ApplyAll(state, a), b)
    decreases |a|
  {
    if a != [] {
      assert (a + b)[1..] == a[1..] + b;
      ApplyAllAppend(Reduce(state, a[0]), a[1..], b);
    } else {
      assert a + b == b;
    }
  }

  /** One effect's actions set the connection to the status it announces, and leave it
      alone otherwise. */
  lemma OneCallback(state: StreamState, e: Socket.Effect)
    ensures ApplyAll(state, CallbackActions(e)).connection ==
            if StatusOf(e).Some? then StatusOf(e).value else state.connection
  {
    var actions := CallbackActions(e);
    if |actions| == 1 {
      assert ApplyAll(state, actions) == ApplyAll(Reduce(state, actions[0]), []);
    } else if |actions| == 2 {
      assert actions[1..][1..] == [];
      assert ApplyAll(state, actions) == ApplyAll(Reduce(Reduce(state, actions[0]), actions[1]), []);
    }
  }

  /** The connection shown is the one the latest open, close, error or status message
      announced; with none of them it is what it was before. */
  lemma {:induction false} ConnectionFollowsLastCallback(state: StreamState, effects: seq<Socket.Effect>)
    ensures ApplyAll(state, AllCallbackActions(effects)).connection == LastStatus(effects, state.connection)
  {
    if effects != [] {
      var front := effects[..|effects| - 1];
      var e := effects[|effects| - 1];
      ConnectionFollowsLastCallback(state, front);
      ApplyAllAppend(state, AllCallbackActions(front), CallbackActions(e));
      OneCallback(ApplyAll(state, AllCallbackActions(front)), e);
    }
  }

  /** A command sent on the stream socket. */
  datatype Command = StartStream(source: Config.Value) | StreamUrl(rtsp: string)

  /** `config?.sources?.defaultRtsp || 'default'`. */
  function StreamSource(config: Option<map<string, Config.Value>>): (r: Config.Value)
    ensures !Config.Falsy(r)
    ensures r != Config.Str("default") && config.Some? ==>
              && Config.Get(Config.Obj(config.value), "sources").Some?
              && Config.Get(Config.Get(Config.Obj(config.value), "sources").value, "defaultRtsp") == Some(r)
  {
    var sources := if config.None? then None else Config.Get(Config.Obj(config.value), "sources");
    var rtsp := if sources.None? then None else Config.Get(sources.value, "defaultRtsp");
    if rtsp.None? || Config.Falsy(rtsp.value) then Config.Str("default") else rtsp.value
  }

  /** `onOpen`'s command: start the stream from the configured default source. */
  function OpenCommand(config: Option<map<string, Config.Value>>): (c: Command)
    ensures c.StartStream? && !Config.Falsy(c.source)
  {
    StartStream(StreamSource(config))
  }

  /** `sendRtsp`: an empty URL, or no stream socket, sends nothing. */
  function RtspCommand(url: string, hasSocket: bool): (c: Option<Command>)
    ensures c.Some? <==> url != "" && hasSocket
    ensures c.Some? ==> c.value == StreamUrl(url)
  {
    if url == "" || !hasSocket then None else Some(StreamUrl(url))
  }

  /** `sendRtsp` on the provider's client (`null` before the stream socket exists): the
      command for a non-empty URL is handed to `sendMessage`, which puts it on the wire
      only while the socket is open. `encode` is `JSON.stringify`. */
  method SendRtsp(client: Socket.SocketManager?, url: string, encode: Command -> string)
    requires client != null ==> client.Valid()
    modifies client
    ensures client != null ==> client.Valid()
    ensures client != null && url != "" && old(client.ws) == Some(Socket.OpenState) ==>
              client.effects == old(client.effects) + [Socket.Sent(encode(StreamUrl(url)))]
    ensures client != null && (url == "" || old(client.ws) != Some(Socket.OpenState)) ==>
              client.effects == old(client.effects)
    ensures client != null ==> client.ws == old(client.ws) && client.mirror == old(client.mirror)
  {
    var command := RtspCommand(url, client != null);
    if command.Some? {
      client.SendMessage(encode(command.value));
    }
  }

  /** The record sent for storage on a `response`: only when it carries a non-empty frame
      and `transformAiResponse` does not throw. */
  function StoredOnResponse(frame: string, threshold: real, predictions: PredictionsField,
                            nowIso: string): (r: Option<StoredEvent>)
    ensures r.Some? <==> frame != "" && !predictions.NotArray?
    ensures r.Some? ==> Some(r.value) == TransformAiResponse(frame, threshold, predictions, nowIso)
  {
    if frame == "" then None else TransformAiResponse(frame, threshold, predictions, nowIso)
  }

  /** Whether `onMessage` throws on a message: only on a `response` with a frame whose
      `predictions` is present but not an array. The frame has been shown by then and no
      boxes are dispatched; nothing is stored. */
  function OnMessageThrows(msg: SocketMessage): (b: bool)
    ensures b <==> msg.ResponseMessage? && msg.frame != "" &&
                   TransformAiResponse(msg.frame, msg.threshold, msg.predictions, "").None?
    ensures b ==> MessageActions(msg) == [ShowFrame(msg.frame)]
    ensures b ==> forall nowIso :: StoredOnResponse(msg.frame, msg.threshold, msg.predictions, nowIso).None?
  {
    msg.ResponseMessage? && msg.frame != "" && msg.predictions.NotArray?
  }
}
