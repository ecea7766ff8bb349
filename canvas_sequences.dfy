/** Start-up of the page's canvas sequences (src/animations/canvasSequences.ts):
    six canvases, five standard videos and one square video, each matched by
    id to an entry of the fetched manifest. The model records which sequences
    are started, on which canvas, with which manifest entry and target. */
module CanvasSequences {
  import opened Wrappers
  import opened Helpers
  import opened Triggers

  datatype CanvasKey = Canvas1 | Canvas2 | Canvas3 | Canvas4 | Canvas5 | Square

  /** A mounted canvas element and its parent element, if any. */
  datatype Canvas = Canvas(name: string, parent: Option<string>)

  /** The six React refs; None is a ref whose `current` is null. */
  datatype CanvasRefs = CanvasRefs(
    canvas1: Option<Canvas>, canvas2: Option<Canvas>, canvas3: Option<Canvas>,
    canvas4: Option<Canvas>, canvas5: Option<Canvas>, square: Option<Canvas>)

  /** `canvasRefs[key].current`. */
  function Ref(refs: CanvasRefs, key: CanvasKey): Option<Canvas> {
    match key
    case Canvas1 => refs.canvas1
    case Canvas2 => refs.canvas2
    case Canvas3 => refs.canvas3
    case Canvas4 => refs.canvas4
    case Canvas5 => refs.canvas5
    case Square => refs.square
  }

  /** `validateCanvasRefs`: every ref holds a canvas. */
  function ValidateCanvasRefs(refs: CanvasRefs): (ok: bool)
    ensures ok <==> forall key :: Ref(refs, key).Some?
  {
    var ok := refs.canvas1.Some? && refs.canvas2.Some? && refs.canvas3.Some?
      && refs.canvas4.Some? && refs.canvas5.Some? && refs.square.Some?;
    assert !ok ==> exists key :: Ref(refs, key).None? by {
      if !ok {
        if refs.canvas1.None? { assert Ref(refs, Canvas1).None?; }
        else if refs.canvas2.None? { assert Ref(refs, Canvas2).None?; }
        else if refs.canvas3.None? { assert Ref(refs, Canvas3).None?; }
        else if refs.canvas4.None? { assert Ref(refs, Canvas4).None?; }
        else if refs.canvas5.None? { assert Ref(refs, Canvas5).None?; }
        else { assert Ref(refs, Square).None?; }
      }
    }
    ok
  }

  datatype VideoConfig = VideoConfig(
    id: string, canvasKey: CanvasKey, scrub: ScrubConfig, fadeIn: FadeConfig, fadeOut: FadeConfig)

  /** A standard video: scrubbed over its canvas spacer, fading in at the end
      of `fadeInTrigger` and out as `fadeOutTrigger` enters. */
  function StandardConfig(id: string, key: CanvasKey, spacer: string, fadeInTrigger: string, fadeOutTrigger: string): VideoConfig {
    VideoConfig(id, key,
      ScrubConfig(spacer, Some("top top"), Some("bottom top"), None),
      FadeConfig(fadeInTrigger, Some("80% top"), Some("100% top")),
      FadeConfig(fadeOutTrigger, Some("top bottom"), Some("top center")))
  }

  /** `VIDEO_CONFIGS`. */
  const VideoConfigs: seq<VideoConfig> := [
    StandardConfig("video1", Canvas1, "#canvas-1-spacer", "#hero-scroll-space", "#text-images-1"),
    StandardConfig("video2", Canvas2, "#canvas-2-spacer", "#text-images-1", "#text-images-2"),
    StandardConfig("video3", Canvas3, "#canvas-3-spacer", "#text-images-2", "#text-images-3"),
    StandardConfig("video4", Canvas4, "#canvas-4-spacer", "#text-images-3", "#text-images-4"),
    StandardConfig("video5", Canvas5, "#canvas-5-spacer", "#text-images-4", "#services")
  ]

  /** `SQUARE_VIDEO_CONFIG`: pinned to its container. */
  const SquareVideoConfig: VideoConfig := VideoConfig("squareVideo", Square,
    ScrubConfig("#text-images-5-canvas-container", Some("top top"), Some("bottom top"), Some(true)),
    FadeConfig("#text-images-5-canvas-container", Some("top 500%"), Some("top top")),
    FadeConfig("#text-images-5-canvas-container", Some("bottom top"), Some("bottom top+=100")))

  /** Each standard video fades out at the trigger where the next one fades
      in, and every configuration has its own canvas and its own id. */
  lemma ConfigsChain()
    ensures forall i :: 0 <= i < |VideoConfigs| - 1 ==> VideoConfigs[i].fadeOut.trigger == VideoConfigs[i + 1].fadeIn.trigger
    ensures var all := VideoConfigs + [SquareVideoConfig];
      forall i, j :: 0 <= i < j < |all| ==> all[i].canvasKey != all[j].canvasKey && all[i].id != all[j].id
  {
  }

  /** How fetching `/videos/manifest.json` ended: a network error or a
      response whose body is the list of videos, or None if it is not JSON. */
  datatype FetchOutcome = NetworkError | Response(ok: bool, status: int, body: Option<seq<Manifest>>)

  /** `loadManifest()`: errors of every kind give the empty list. */
  function LoadManifest(fetched: FetchOutcome): (videos: seq<Manifest>)
    ensures fetched.NetworkError? || !fetched.ok || fetched.body.None? ==> videos == []
    ensures fetched.Response? && fetched.ok && fetched.body.Some? ==> videos == fetched.body.value
  {
    match fetched
    case NetworkError => []
    case Response(ok, _, body) => if ok && body.Some? then body.value else []
  }

  /** `videos.find(v => v.id === id)`: the first entry with that id. */
  function Find(videos: seq<Manifest>, id: string): (r: Option<Manifest>)
    ensures r.Some? ==> r.value in videos && r.value.id == id
    ensures r.Some? ==> exists i :: 0 <= i < |videos| && videos[i] == r.value && forall j :: 0 <= j < i ==> videos[j].id != id
    ensures r.None? ==> forall v :: v in videos ==> v.id != id
  {
    if videos == [] then None
    else if videos[0].id == id then Some(videos[0])
    else
      var rest := Find(videos[1..], id);
      assert rest.Some? ==> exists i :: 1 <= i < |videos| && videos[i] == rest.value && forall j :: 0 <= j < i ==> videos[j].id != id by {
        if rest.Some? {
          var k :| 0 <= k < |videos[1..]| && videos[1..][k] == rest.value && forall j :: 0 <= j < k ==> videos[1..][j].id != id;
          assert videos[k + 1] == rest.value;
          assert forall j :: 0 <= j < k + 1 ==> videos[j].id != id by {
            forall j | 0 <= j < k + 1 ensures videos[j].id != id {
              if j > 0 { assert videos[j] == videos[1..][j - 1]; }
            }
          }
        }
      }
      rest
  }

  /** One `initializeVideoSequence` call: a canvas player for `manifest` on
      `canvas`, whose target is the canvas's parent element. */
  datatype Started = Started(config: VideoConfig, canvas: Canvas, manifest: Manifest, target: Option<string>)

  /** What one configuration starts: a sequence if both its canvas and its
      manifest entry exist, nothing otherwise. */
  function Attempt(refs: CanvasRefs, videos: seq<Manifest>, config: VideoConfig): (r: Option<Started>)
    ensures r.Some? <==> Ref(refs, config.canvasKey).Some? && Find(videos, config.id).Some?
    ensures r.Some? ==> r.value == Started(config, Ref(refs, config.canvasKey).value, Find(videos, config.id).value, Ref(refs, config.canvasKey).value.parent)
  {
    var canvas := Ref(refs, config.canvasKey);
    var video := Find(videos, config.id);
    if video.Some? && canvas.Some? then Some(Started(config, canvas.value, video.value, canvas.value.parent)) else None
  }

  /** The sequences a list of configurations starts, in list order. */
  function Selection(refs: CanvasRefs, videos: seq<Manifest>, configs: seq<VideoConfig>): (r: seq<Started>)
    ensures |r| <= |configs|
    ensures forall s :: s in r ==> s.config in configs && Attempt(refs, videos, s.config) == Some(s)
    ensures forall c :: c in configs && Attempt(refs, videos, c).Some? ==> Attempt(refs, videos, c).value in r
  {
    if configs == [] then []
    else
      var rest := Selection(refs, videos, configs[1..]);
      assert forall c :: c in configs <==> c == configs[0] || c in configs[1..];
      var a := Attempt(refs, videos, configs[0]);
      (if a.Some? then [a.value] else []) + rest
  }

  /** Selection over two lists of configurations is the selection over each. */
  lemma {:induction false} SelectionAppend(refs: CanvasRefs, videos: seq<Manifest>, a: seq<VideoConfig>, b: seq<VideoConfig>)
    ensures Selection(refs, videos, a + b) == Selection(refs, videos, a) + Selection(refs, videos, b)
  {
    if a == [] {
      assert a + b == b;
    } else {
      assert (a + b)[1..] == a[1..] + b;
      SelectionAppend(refs, videos, a[1..], b);
    }
  }

  /** A configuration is started exactly when its canvas is mounted and the
      manifest lists its id. */
  lemma StartedIff(refs: CanvasRefs, videos: seq<Manifest>, configs: seq<VideoConfig>, c: VideoConfig)
    requires c in configs
    ensures (exists s :: s in Selection(refs, videos, configs) && s.config == c)
        <==> Ref(refs, c.canvasKey).Some? && Find(videos, c.id).Some?
  {
    if Ref(refs, c.canvasKey).Some? && Find(videos, c.id).Some? {
      var s := Attempt(refs, videos, c).value;
      assert s in Selection(refs, videos, configs) && s.config == c;
    }
  }

  /** Selecting one more configuration appends what it starts, if anything. */
  lemma SelectionStep(refs: CanvasRefs, videos: seq<Manifest>, configs: seq<VideoConfig>, i: nat)
    requires i < |configs|
    ensures var a := Attempt(refs, videos, configs[i]);
      Selection(refs, videos, configs[..i + 1]) == Selection(refs, videos, configs[..i]) + (if a.Some? then [a.value] else [])
  {
    SelectionAppend(refs, videos, configs[..i], [configs[i]]);
    assert configs[..i + 1] == configs[..i] + [configs[i]];
    assert [configs[i]][1..] == [];
  }

  /** `initializeStandardVideos`: the configurations in order, each started if
      it can be. */
  method InitializeStandardVideos(refs: CanvasRefs, videos: seq<Manifest>) returns (started: seq<Started>)
    ensures started == Selection(refs, videos, VideoConfigs)
  {
    var configs := VideoConfigs;
    started := [];
    for i := 0 to |configs|
      invariant started == Selection(refs, videos, configs[..i])
    {
      var config := configs[i];
      SelectionStep(refs, videos, configs, i);
      var canvas := Ref(refs, config.canvasKey);
      var video := Find(videos, config.id);
      if video.Some? && canvas.Some? {
        started := started + [Started(config, canvas.value, video.value, canvas.value.parent)];
      }
    }
    assert configs[..|configs|] == configs;
  }

  /** `initializeSquareVideo`. */
  function InitializeSquareVideo(refs: CanvasRefs, videos: seq<Manifest>): (started: seq<Started>)
    ensures started == Selection(refs, videos, [SquareVideoConfig])
  {
    assert [SquareVideoConfig][1..] == [];
    match Attempt(refs, videos, SquareVideoConfig)
    case Some(s) => [s]
    case None => []
  }

  /** How `initializeCanvasSequences` ended: refs not ready (before any
      fetch), an empty manifest, or the sequences it started. */
  datatype Outcome = RefsNotReady | NoVideos | Initialized(started: seq<Started>)

  /** `initializeCanvasSequences(canvasRefs)`. The refs are read once before
      the manifest is fetched and again, as `refsLater`, when it has arrived. */
  method InitializeCanvasSequences(refs: CanvasRefs, fetched: FetchOutcome, refsLater: CanvasRefs) returns (outcome: Outcome)
    ensures !ValidateCanvasRefs(refs) ==> outcome == RefsNotReady
    ensures ValidateCanvasRefs(refs) && LoadManifest(fetched) == [] ==> outcome == NoVideos
    ensures ValidateCanvasRefs(refs) && LoadManifest(fetched) != [] ==>
      outcome == Initialized(Selection(refsLater, LoadManifest(fetched), VideoConfigs + [SquareVideoConfig]))
  {
    if !ValidateCanvasRefs(refs) {
      return RefsNotReady;
    }
    var videos := LoadManifest(fetched);
    if |videos| == 0 {
      return NoVideos;
    }
    var standard := InitializeStandardVideos(refsLater, videos);
    var square := InitializeSquareVideo(refsLater, videos);
    SelectionAppend(refsLater, videos, VideoConfigs, [SquareVideoConfig]);
    outcome := Initialized(standard + square);
  }

  /** No two configurations share a canvas or a video id. */
  predicate DistinctConfigs(configs: seq<VideoConfig>) {
    forall i, j :: 0 <= i < j < |configs| ==>
      configs[i].canvasKey != configs[j].canvasKey && configs[i].id != configs[j].id
  }

  /** No two started sequences share a canvas or a video id. */
  predicate DistinctStarted(r: seq<Started>) {
    forall i, j :: 0 <= i < j < |r| ==>
      r[i].config.canvasKey != r[j].config.canvasKey && r[i].config.id != r[j].config.id
  }

  /** Dropping the first configuration keeps the rest distinct. */
  lemma TailDistinct(configs: seq<VideoConfig>)
    requires configs != [] && DistinctConfigs(configs)
    ensures DistinctConfigs(configs[1..])
  {
    var tail := configs[1..];
    forall i, j | 0 <= i < j < |tail|
      ensures tail[i].canvasKey != tail[j].canvasKey && tail[i].id != tail[j].id
    {
      assert tail[i] == configs[i + 1] && tail[j] == configs[j + 1];
    }
  }

  /** A sequence started for a configuration ahead of those `rest` came from
      shares nothing with `rest`. */
  lemma ConsDistinct(configs: seq<VideoConfig>, s: Started, rest: seq<Started>)
    requires configs != [] && DistinctConfigs(configs) && s.config == configs[0]
    requires forall x :: x in rest ==> x.config in configs[1..]
    requires DistinctStarted(rest)
    ensures DistinctStarted([s] + rest)
  {
    var r := [s] + rest;
    forall i, j | 0 <= i < j < |r|
      ensures r[i].config.canvasKey != r[j].config.canvasKey && r[i].config.id != r[j].config.id
    {
      assert r[j] == rest[j - 1] && r[j] in rest;
      if i == 0 {
        var k :| 0 <= k < |configs[1..]| && configs[1..][k] == r[j].config;
        assert configs[k + 1] == r[j].config;
      } else {
        assert r[i] == rest[i - 1];
      }
    }
  }

  /** A selection from configurations with their own canvases and ids starts
      each canvas and each video at most once. */
  lemma {:induction false} SelectionKeepsDistinct(refs: CanvasRefs, videos: seq<Manifest>, configs: seq<VideoConfig>)
    requires DistinctConfigs(configs)
    ensures DistinctStarted(Selection(refs, videos, configs))
  {
    if configs != [] {
      TailDistinct(configs);
      SelectionKeepsDistinct(refs, videos, configs[1..]);
      var rest := Selection(refs, videos, configs[1..]);
      var a := Attempt(refs, videos, configs[0]);
      if a.Some? {
        ConsDistinct(configs, a.value, rest);
      }
    }
  }

  /** No two sequences the initialisation starts share a canvas or a video
      id. */
  lemma StartedOnDistinctCanvases(refs: CanvasRefs, videos: seq<Manifest>)
    ensures DistinctStarted(Selection(refs, videos, VideoConfigs + [SquareVideoConfig]))
  {
    ConfigsChain();
    SelectionKeepsDistinct(refs, videos, VideoConfigs + [SquareVideoConfig]);
  }
}
