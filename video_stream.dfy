/** The live video panel (src/components/VideoStream.tsx): the camera-to-RTSP lookup, the
    camera buttons, the placeholder shown while no frame is up, and the image-load
    handler. */
module VideoStream {
  import opened Wrappers
  import opened Types
  import Config

  /** `a ?? b` on possibly-absent values: `b` when `a` is undefined or null. */
  function Coalesce(a: Option<Config.Value>, b: Option<Config.Value>): (r: Option<Config.Value>)
    ensures a.Some? && !a.value.Null? ==> r == a
    ensures a.None? || a.value.Null? ==> r == b
  {
    if a.None? || a.value.Null? then b else a
  }

  /** `typeof value === 'string' ? value : undefined`. */
  function StringOf(v: Option<Config.Value>): (r: Option<string>)
    ensures r.Some? <==> v.Some? && v.value.Str?
    ensures r.Some? ==> v.value == Config.Str(r.value)
  {
    if v.Some? && v.value.Str? then Some(v.value.s) else None
  }

  /** `config?.sources || {}`; `None` is a configuration not loaded yet. */
  function SourcesOf(config: Option<map<string, Config.Value>>): Config.Value
  {
    if config.None? then Config.Obj(map[]) else Config.SectionOrEmpty(Config.Obj(config.value), "sources")
  }

  /** `getRtspFor(cam)`. Cam 1 to Cam 3 use their own entry unless it is undefined or
      null, then the default; Cam 4, Cam 5 use the default; any other name has no entry.
      Only a string comes back. */
  function RtspFor(config: Option<map<string, Config.Value>>, cam: string): (r: Option<string>)
    ensures var src := SourcesOf(config);
            var own := if cam == "Cam 1" then Config.Get(src, "cam1")
                       else if cam == "Cam 2" then Config.Get(src, "cam2")
                       else Config.Get(src, "cam3");
            var fallback := Config.Get(src, "defaultRtsp");
            && (cam == "Cam 1" || cam == "Cam 2" || cam == "Cam 3" ==>
                  r == if own.Some? && !own.value.Null? then StringOf(own) else StringOf(fallback))
            && (cam == "Cam 4" || cam == "Cam 5" ==> r == StringOf(fallback))
            && (cam !in {"Cam 1", "Cam 2", "Cam 3", "Cam 4", "Cam 5"} ==> r.None?)
  {
    var sources := SourcesOf(config);
    var fallback := Config.Get(sources, "defaultRtsp");
    var value :=
      if cam == "Cam 1" then Coalesce(Config.Get(sources, "cam1"), fallback)
      else if cam == "Cam 2" then Coalesce(Config.Get(sources, "cam2"), fallback)
      else if cam == "Cam 3" then Coalesce(Config.Get(sources, "cam3"), fallback)
      else if cam == "Cam 4" || cam == "Cam 5" then fallback
      else None;
    StringOf(value)
  }

  /** With the built-in defaults every camera resolves to the empty default source, so a
      camera click sends nothing. */
  lemma DefaultSourcesAreEmpty(cam: string)
    requires cam in {"Cam 1", "Cam 2", "Cam 3", "Cam 4", "Cam 5"}
    ensures RtspFor(Some(Config.Defaults()), cam) == Some("")
  {
    var src := SourcesOf(Some(Config.Defaults()));
    assert src == Config.Obj(Config.DefaultSources());
  }

  /** The placeholder text, when one is shown: only while not connected and before the
      first frame has loaded. The connecting text is kept character for character as the
      component spells it, "Connectingâ€¦" (an ellipsis whose UTF-8 bytes were re-read as
      Windows-1252 characters). */
  function Placeholder(connection: Connection, hasFrame: bool): (r: Option<string>)
    ensures r.Some? <==> connection != Connected && !hasFrame
    ensures r.Some? ==> (r.value == "Connecting\U{00E2}\U{20AC}\U{00A6}" <==> connection == Connecting)
    ensures r.Some? && connection == Disconnected ==> r.value == "Stream Disconnected"
  {
    if connection != Connected && !hasFrame then
      Some(if connection == Connecting then "Connecting\U{00E2}\U{20AC}\U{00A6}" else "Stream Disconnected")
    else None
  }

  /** The panel's own state; `sent` lists the URLs handed to `sendRtsp`, in order. */
  class VideoPanel {
    var activeCam: string
    var hasFrame: bool
    var aspect: real
    var sent: seq<string>

    /** The aspect ratio stays positive and no empty URL is ever sent. */
    ghost predicate Valid()
      reads this
    {
      aspect > 0.0 && forall i :: 0 <= i < |sent| ==> sent[i] != ""
    }

    constructor ()
      ensures Valid()
      ensures activeCam == "Cam 1" && !hasFrame && aspect == 16.0 / 9.0 && sent == []
    {
      activeCam := "Cam 1";
      hasFrame := false;
      aspect := 16.0 / 9.0;
      sent := [];
    }

    /** A camera button: the camera becomes active whatever happens; its URL is sent
        only when it is a non-empty string. */
    method ClickCamera(config: Option<map<string, Config.Value>>, cam: string)
      requires Valid()
      modifies this
      ensures Valid()
      ensures activeCam == cam && hasFrame == old(hasFrame) && aspect == old(aspect)
      ensures var url := RtspFor(config, cam);
              sent == old(sent) + (if url.Some? && url.value != "" then [url.value] else [])
    {
      activeCam := cam;
      var url := RtspFor(config, cam);
      if url.Some? && url.value != "" {
        sent := sent + [url.value];
      }
    }

    /** `handleImgLoad`: a loaded image with both natural dimensions non-zero sets the
        aspect ratio and marks a frame as shown; otherwise nothing changes. */
    method ImageLoaded(naturalWidth: nat, naturalHeight: nat)
      requires Valid()
      modifies this
      ensures Valid()
      ensures hasFrame == (old(hasFrame) || (naturalWidth != 0 && naturalHeight != 0))
      ensures naturalWidth != 0 && naturalHeight != 0 ==> aspect == naturalWidth as real / naturalHeight as real
      ensures naturalWidth == 0 || naturalHeight == 0 ==> aspect == old(aspect)
      ensures activeCam == old(activeCam) && sent == old(sent)
    {
      if naturalWidth != 0 && naturalHeight != 0 {
        aspect := naturalWidth as real / naturalHeight as real;
        hasFrame := true;
      }
    }
  }

  /** Once a frame has loaded the placeholder never comes back, whatever the connection
      status does. */
  method FrameStaysUp(panel: VideoPanel, w: nat, h: nat, later: Connection) returns (shown: Option<string>)
    requires panel.Valid() && w != 0 && h != 0
    modifies panel
    ensures shown == None
  {
    panel.ImageLoaded(w, h);
    shown := Placeholder(later, panel.hasFrame);
  }
}
