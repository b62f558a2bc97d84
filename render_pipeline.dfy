/**
 * The frame orchestrator: switches the main camera between the layer sets of the
 * passes (skipping switches its cached key shows to be redundant), runs the four
 * passes of a frame in a fixed order, and fans `resize` and `destroy` out.
 */
module Pipeline {
  import opened Wrappers
  import opened Gpu
  import opened Viewport
  import opened Quad
  import opened LayerConfig
  import opened Bloom
  import PostProcess

  // ---------------------------------------------------------------------------
  // The layer key

  /** Each element is at most the next one. */
  predicate Sorted(s: seq<int>)
    decreases |s|
  {
    |s| < 2 || (s[0] <= s[1] && Sorted(s[1..]))
  }

  /** Places `x` into a sorted sequence, after the elements smaller than it. */
  function Insert(x: int, s: seq<int>): seq<int>
  {
    if s == [] then [x]
    else if x <= s[0] then [x] + s
    else [s[0]] + Insert(x, s[1..])
  }

  lemma {:induction false} InsertMultiset(x: int, s: seq<int>)
    ensures multiset(Insert(x, s)) == multiset(s) + multiset{x}
    decreases |s|
  {
    if s != [] && x > s[0] {
      assert s == [s[0]] + s[1..];
      InsertMultiset(x, s[1..]);
    }
  }

  lemma {:induction false} InsertSorted(x: int, s: seq<int>)
    requires Sorted(s)
    ensures Sorted(Insert(x, s))
    decreases |s|
  {
    if s != [] && x > s[0] {
      var rest := s[1..];
      InsertSorted(x, rest);
      var r := Insert(x, rest);
      assert r[0] == x || r[0] == rest[0];
      assert ([s[0]] + r)[1..] == r;
    }
  }

  /**
   * The cache key of a layer list: the list sorted. The source sorts the layers as
   * strings and joins them with commas; both keys identify exactly the multiset of
   * layers, which is all the cache depends on.
   */
  function SortedKey(layers: seq<int>): (k: seq<int>)
    ensures Sorted(k) && multiset(k) == multiset(layers)
  {
    if layers == [] then []
    else
      var init := layers[..|layers| - 1];
      assert layers == init + [layers[|layers| - 1]];
      InsertSorted(layers[|layers| - 1], SortedKey(init));
      InsertMultiset(layers[|layers| - 1], SortedKey(init));
      Insert(layers[|layers| - 1], SortedKey(init))
  }

  /** Dropping the head of a sequence drops one copy of it from the multiset. */
  lemma MultisetTail(s: seq<int>)
    requires s != []
    ensures multiset(s) == multiset{s[0]} + multiset(s[1..])
  {
    assert s == [s[0]] + s[1..];
  }

  /** The head of a non-empty sorted sequence is below every element. */
  lemma {:induction false} SortedHead(s: seq<int>, y: int)
    requires Sorted(s) && s != [] && y in multiset(s)
    ensures s[0] <= y
    decreases |s|
  {
    if y != s[0] {
      MultisetTail(s);
      assert y in multiset(s[1..]);
      SortedHead(s[1..], y);
    }
  }

  /** A sorted sequence is determined by its multiset. */
  lemma {:induction false} SortedUnique(a: seq<int>, b: seq<int>)
    requires Sorted(a) && Sorted(b) && multiset(a) == multiset(b)
    ensures a == b
    decreases |a|
  {
    if a != [] {
      assert b != [] by {
        assert a[0] in multiset(b);
      }
      SortedHead(a, b[0]);
      SortedHead(b, a[0]);
      MultisetTail(a);
      MultisetTail(b);
      assert multiset(a[1..]) == multiset(b[1..]) by {
        forall y ensures multiset(a[1..])[y] == multiset(b[1..])[y] {
          assert multiset(a)[y] == multiset(b)[y];
        }
      }
      SortedUnique(a[1..], b[1..]);
      assert a == [a[0]] + a[1..] && b == [b[0]] + b[1..];
    }
  }

  /** Two layer lists share a key exactly when they list the same layers, order aside. */
  lemma KeyOrderIndependent(a: seq<int>, b: seq<int>)
    ensures SortedKey(a) == SortedKey(b) <==> multiset(a) == multiset(b)
  {
    if multiset(a) == multiset(b) {
      SortedUnique(SortedKey(a), SortedKey(b));
    }
  }

  /** Lists with the same multiset of layers name the same layers. */
  lemma SameLayers(a: seq<int>, b: seq<int>)
    requires multiset(a) == multiset(b)
    ensures LayerSet(a) == LayerSet(b)
  {
    forall l ensures l in a <==> l in b {
      assert l in a <==> l in multiset(a);
      assert l in b <==> l in multiset(b);
    }
  }

  /** So a key determines the set of layers of every list that has it. */
  lemma KeyDeterminesLayers(a: seq<int>, b: seq<int>)
    requires SortedKey(a) == SortedKey(b)
    ensures LayerSet(a) == LayerSet(b)
  {
    KeyOrderIndependent(a, b);
    SameLayers(a, b);
  }

  // ---------------------------------------------------------------------------
  // The frame

  /** One scene pass: bind the target, clear it, draw the scene through the mask. */
  function ScenePass(mask: set<int>, target: Binding, autoClear: bool): seq<Event>
  {
    [SetTarget(target), Clear(target), DrawScene(mask, target, autoClear)]
  }

  /** The additive bloom overlay onto the screen, with `autoClear` off around it. */
  function Overlay(bloom: RenderTarget): seq<Event>
  {
    [SetAutoClear(false), DrawQuad(BloomOverlayDraw(bloom), None, false), SetAutoClear(true)]
  }

  /**
   * What `render()` issues, given the glow target, the bloom targets and tunables,
   * and the renderer's `autoClear` at the start of the frame (in `s`).
   */
  function FrameTrace(glow: RenderTarget, rt1: RenderTarget, rt2: RenderTarget,
                      threshold: real, smoothing: real, iterations: nat, s: BlurSettings): seq<Event>
  {
    ScenePass(PassMask(GlowCapture), Some(glow), s.autoClear)
    + ScenePass(PassMask(BloomRender), Some(rt1), s.autoClear)
    + BloomTrace(rt1, rt2, threshold, smoothing, iterations, s)
    + ScenePass(PassMask(MainScene), None, s.autoClear)
    + Overlay(rt2)
  }

  /**
   * Where everything sits in a frame: the glow scene draw at 2, the bloom-layer scene
   * draw at 5, the bloom filter from 6 on, the main scene draw at `|t| - 4` and the
   * overlay last.
   */
  lemma FrameLayout(glow: RenderTarget, rt1: RenderTarget, rt2: RenderTarget,
                    threshold: real, smoothing: real, iterations: nat, s: BlurSettings)
    ensures var t := FrameTrace(glow, rt1, rt2, threshold, smoothing, iterations, s);
            var b := BloomTrace(rt1, rt2, threshold, smoothing, iterations, s);
      && |b| == 2 + 4 * iterations && |t| == 14 + 4 * iterations
      && t[1] == Clear(Some(glow)) && t[2] == DrawScene(PassMask(GlowCapture), Some(glow), s.autoClear)
      && t[4] == Clear(Some(rt1)) && t[5] == DrawScene(PassMask(BloomRender), Some(rt1), s.autoClear)
      && (forall i :: 6 <= i < |t| - 6 ==> t[i] == b[i - 6])
      && t[|t| - 6] == SetTarget(None) && t[|t| - 5] == Clear(None)
      && t[|t| - 4] == DrawScene(PassMask(MainScene), None, s.autoClear)
      && t[|t| - 3] == SetAutoClear(false) && t[|t| - 2] == DrawQuad(BloomOverlayDraw(rt2), None, false)
      && t[|t| - 1] == SetAutoClear(true)
  {
    BloomStartsWithThreshold(rt1, rt2, threshold, smoothing, iterations, s);
  }

  /** The only scene draws of a frame are the three scene passes. */
  lemma FrameScenes(glow: RenderTarget, rt1: RenderTarget, rt2: RenderTarget,
                    threshold: real, smoothing: real, iterations: nat, s: BlurSettings)
    ensures var t := FrameTrace(glow, rt1, rt2, threshold, smoothing, iterations, s);
      forall i :: 0 <= i < |t| && t[i].DrawScene? ==> i == 2 || i == 5 || i == |t| - 4
  {
    var t := FrameTrace(glow, rt1, rt2, threshold, smoothing, iterations, s);
    var b := BloomTrace(rt1, rt2, threshold, smoothing, iterations, s);
    FrameLayout(glow, rt1, rt2, threshold, smoothing, iterations, s);
    BloomTargets(rt1, rt2, threshold, smoothing, iterations, s);
  }

  /** Every scene draw of a frame comes straight after a clear of the target it draws into. */
  lemma FrameScenesCleared(glow: RenderTarget, rt1: RenderTarget, rt2: RenderTarget,
                           threshold: real, smoothing: real, iterations: nat, s: BlurSettings)
    ensures var t := FrameTrace(glow, rt1, rt2, threshold, smoothing, iterations, s);
      forall i :: 0 <= i < |t| && t[i].DrawScene? ==> 1 <= i && t[i - 1] == Clear(t[i].target)
  {
    FrameLayout(glow, rt1, rt2, threshold, smoothing, iterations, s);
    FrameScenes(glow, rt1, rt2, threshold, smoothing, iterations, s);
  }

  /**
   * Through the pass masks, a glow-only object is drawn into the glow target only, a
   * bloom object into the bloom input and onto the screen, and an untagged object onto
   * the screen only.
   */
  lemma FrameVisibility(glow: RenderTarget, rt1: RenderTarget, rt2: RenderTarget,
                        threshold: real, smoothing: real, iterations: nat, s: BlurSettings)
    requires glow != rt1
    ensures var t := FrameTrace(glow, rt1, rt2, threshold, smoothing, iterations, s);
      forall i :: 0 <= i < |t| && t[i].DrawScene? ==>
        && (Visible({GLOW}, t[i].layers) <==> t[i].target == Some(glow))
        && (Visible({BLOOM}, t[i].layers) <==> t[i].target != Some(glow))
        && (Visible({NO_FX}, t[i].layers) <==> t[i].target == None)
  {
    FrameLayout(glow, rt1, rt2, threshold, smoothing, iterations, s);
    FrameScenes(glow, rt1, rt2, threshold, smoothing, iterations, s);
    LayerPartition(GlowCapture);
    LayerPartition(BloomRender);
    LayerPartition(MainScene);
  }

  /** A frame issues `5 + 2 * iterations` draws: three scenes, the bloom filter and the overlay. */
  lemma FrameDraws(glow: RenderTarget, rt1: RenderTarget, rt2: RenderTarget,
                   threshold: real, smoothing: real, iterations: nat, s: BlurSettings)
    ensures Draws(FrameTrace(glow, rt1, rt2, threshold, smoothing, iterations, s)) == 5 + 2 * iterations
  {
    var a := s.autoClear;
    forall m: set<int>, t: Binding ensures Draws(ScenePass(m, t, a)) == 1 {
      var p := ScenePass(m, t, a);
      assert p == [p[0]] + [p[1]] + [p[2]];
      DrawsAppend([p[0]] + [p[1]], [p[2]]);
      DrawsAppend([p[0]], [p[1]]);
      DrawsSingle(p[0]);
      DrawsSingle(p[1]);
      DrawsSingle(p[2]);
    }
    var o := Overlay(rt2);
    assert o == [o[0]] + [o[1]] + [o[2]];
    DrawsAppend([o[0]] + [o[1]], [o[2]]);
    DrawsAppend([o[0]], [o[1]]);
    DrawsSingle(o[0]);
    DrawsSingle(o[1]);
    DrawsSingle(o[2]);
    var g := ScenePass(PassMask(GlowCapture), Some(glow), a);
    var r := ScenePass(PassMask(BloomRender), Some(rt1), a);
    var b := BloomTrace(rt1, rt2, threshold, smoothing, iterations, s);
    var m := ScenePass(PassMask(MainScene), None, a);
    DrawsAppend(g, r);
    DrawsAppend(g + r, b);
    DrawsAppend(g + r + b, m);
    DrawsAppend(g + r + b + m, o);
    BloomDraws(rt1, rt2, threshold, smoothing, iterations, s);
  }

  /**
   * The glow target receives exactly one draw per frame, the glow-capture scene,
   * provided it is neither bloom target.
   */
  lemma FrameGlowDrawnOnce(glow: RenderTarget, rt1: RenderTarget, rt2: RenderTarget,
                           threshold: real, smoothing: real, iterations: nat, s: BlurSettings)
    requires glow != rt1 && glow != rt2
    ensures var t := FrameTrace(glow, rt1, rt2, threshold, smoothing, iterations, s);
      forall i :: 0 <= i < |t| && t[i].IsDraw() && t[i].target == Some(glow) ==> i == 2
  {
    var t := FrameTrace(glow, rt1, rt2, threshold, smoothing, iterations, s);
    var b := BloomTrace(rt1, rt2, threshold, smoothing, iterations, s);
    FrameLayout(glow, rt1, rt2, threshold, smoothing, iterations, s);
    BloomTargets(rt1, rt2, threshold, smoothing, iterations, s);
  }

  /**
   * The overlay samples `renderTarget2` after the bloom filter of the same frame has
   * written it last, with `autoClear` off, and the frame ends with `autoClear` on.
   */
  lemma FrameOverlayReadsBloom(glow: RenderTarget, rt1: RenderTarget, rt2: RenderTarget,
                               threshold: real, smoothing: real, iterations: nat, s: BlurSettings)
    ensures var t := FrameTrace(glow, rt1, rt2, threshold, smoothing, iterations, s);
      && |t| >= 7
      && t[|t| - 2] == DrawQuad(BloomOverlayDraw(rt2), None, false)
      && t[|t| - 1] == SetAutoClear(true)
      && t[|t| - 7].DrawQuad? && t[|t| - 7].target == Some(rt2)
      && (forall j :: |t| - 7 < j < |t| && t[j].IsDraw() ==> t[j].target == None)
  {
    var t := FrameTrace(glow, rt1, rt2, threshold, smoothing, iterations, s);
    var b := BloomTrace(rt1, rt2, threshold, smoothing, iterations, s);
    FrameLayout(glow, rt1, rt2, threshold, smoothing, iterations, s);
    BloomEndsInTarget2(rt1, rt2, threshold, smoothing, iterations, s);
    assert t[|t| - 7] == b[|b| - 1];
  }

  /** No quad draw of a frame samples the target it writes, provided the bloom targets are distinct. */
  lemma FrameNoFeedback(glow: RenderTarget, rt1: RenderTarget, rt2: RenderTarget,
                        threshold: real, smoothing: real, iterations: nat, s: BlurSettings)
    requires rt1 != rt2
    ensures var t := FrameTrace(glow, rt1, rt2, threshold, smoothing, iterations, s);
      forall i :: 0 <= i < |t| && t[i].DrawQuad? && t[i].target.Some? ==> t[i].target.value !in Inputs(t[i].draw)
  {
    var t := FrameTrace(glow, rt1, rt2, threshold, smoothing, iterations, s);
    var b := BloomTrace(rt1, rt2, threshold, smoothing, iterations, s);
    FrameLayout(glow, rt1, rt2, threshold, smoothing, iterations, s);
    BloomNoFeedback(rt1, rt2, threshold, smoothing, iterations, s);
    forall i | 0 <= i < |t| && t[i].DrawQuad? && t[i].target.Some?
      ensures t[i].target.value !in Inputs(t[i].draw)
    {
      if 6 <= i < |t| - 6 {
        assert t[i] == b[i - 6];
      }
    }
  }

  // ---------------------------------------------------------------------------
  // The orchestrator

  class RenderPipeline {
    const camera: Camera
    const renderer: Renderer
    const sizes: Sizes
    const postProcessing: PostProcess.PostProcessing

    /** The key of the layer list the camera was last switched to; `None` until the first switch. */
    var currentLayerKey: Option<seq<int>>

    // The bloom overlay: an orthographic camera framing a plane with an additive material.
    var bounds: Bounds
    const bloomMaterial: Material
    var bloomGeometry: Geometry
    var lastAspect: Option<real>
    /** The overlay material's `bloomTexture` uniform. */
    var uBloomTexture: Option<RenderTarget>

    /** The cached key names exactly the layers the camera shows. */
    ghost predicate KeyCoherent()
      reads this, camera
    {
      currentLayerKey.Some? ==> camera.mask == LayerSet(currentLayerKey.value)
    }

    ghost predicate Valid()
      reads this, camera, postProcessing, postProcessing.glowPass, postProcessing.glowPass.renderTarget,
            postProcessing.bloomPass, postProcessing.bloomPass.renderTarget1, postProcessing.bloomPass.renderTarget2,
            postProcessing.compositePass
    {
      && postProcessing.Valid()
      && postProcessing.camera == camera && postProcessing.renderer == renderer && postProcessing.sizes == sizes
      && KeyCoherent()
      && bloomGeometry.height == 1.0
      && (lastAspect.Some? ==> bloomGeometry.width == lastAspect.value)
      && bloomGeometry != postProcessing.bloomPass.quadGeometry && bloomGeometry != postProcessing.compositePass.geometry
      && bloomMaterial != postProcessing.bloomPass.thresholdMaterial && bloomMaterial != postProcessing.bloomPass.blurMaterial
      && bloomMaterial != postProcessing.compositePass.material
    }

    constructor (camera: Camera, sizes: Sizes, renderer: Renderer)
      modifies camera
      ensures Valid()
      ensures this.camera == camera && this.sizes == sizes && this.renderer == renderer
      ensures fresh(postProcessing)
      ensures camera.mask == old(camera.mask) + {NO_FX, GLOW, BLOOM}
      ensures currentLayerKey == None && lastAspect == None && uBloomTexture == None
      ensures bounds == OrthoBounds(sizes.aspect) && bloomGeometry.width == sizes.aspect
      ensures renderer.log == old(renderer.log)
    {
      this.camera := camera;
      this.renderer := renderer;
      this.sizes := sizes;
      postProcessing := new PostProcess.PostProcessing(camera, sizes, renderer);
      currentLayerKey := None;
      bounds := OrthoBounds(sizes.aspect);
      bloomMaterial := new Material();
      uBloomTexture := None;
      bloomGeometry := new Geometry(sizes.aspect, 1.0);
      lastAspect := None;
    }

    /**
     * `setCameraToLayers(layers)`: when the key of `layers` differs from the cached
     * one, a single layer replaces the mask and several layers clear it and are
     * enabled one by one; an equal key leaves the camera alone. Either way the
     * camera shows exactly `layers` afterwards, as long as the cached key was
     * coherent before.
     */
    method SetCameraToLayers(layers: seq<int>)
      modifies camera, this`currentLayerKey
      ensures currentLayerKey == Some(SortedKey(layers))
      ensures old(currentLayerKey) == Some(SortedKey(layers)) ==> unchanged(camera)
      ensures old(currentLayerKey) != Some(SortedKey(layers)) ==> camera.mask == LayerSet(layers)
      ensures old(KeyCoherent()) ==> KeyCoherent() && camera.mask == LayerSet(layers)
    {
      var key := SortedKey(layers);
      SameLayers(key, layers);
      if currentLayerKey != Some(key) {
        if |layers| == 1 {
          camera.SetLayer(layers[0]);
          assert LayerSet(layers) == {layers[0]};
        } else {
          camera.DisableAllLayers();
          camera.EnableEach(layers);
        }
        currentLayerKey := Some(key);
      }
    }

    /** One scene pass: switch the camera to the pass's layers, bind, clear, draw. */
    method ScenePassStep(p: Pass, target: Binding)
      requires KeyCoherent()
      modifies camera, renderer, this`currentLayerKey
      ensures KeyCoherent() && camera.mask == PassMask(p)
      ensures renderer.target == target && renderer.autoClear == old(renderer.autoClear)
      ensures renderer.log == old(renderer.log) + ScenePass(PassMask(p), target, old(renderer.autoClear))
    {
      SetCameraToLayers(PassLayers(p));
      renderer.SetRenderTarget(target);
      renderer.Clear();
      renderer.RenderScene(camera);
    }

    /**
     * `render()`: the glow capture, the bloom layer into the bloom input, the bloom
     * filter, the main scene onto the screen, then the bloom overlay with `autoClear`
     * switched off around it.
     */
    method Render()
      requires Valid()
      modifies camera, renderer, this`currentLayerKey, this`uBloomTexture,
               postProcessing.bloomPass`renderTarget, postProcessing.bloomPass`quadMaterial,
               postProcessing.bloomPass`thresholdInput, postProcessing.bloomPass`uThreshold,
               postProcessing.bloomPass`uSmoothing, postProcessing.bloomPass`blurInput,
               postProcessing.bloomPass`uDirection, postProcessing.bloomPass`uStrength
      ensures Valid()
      ensures renderer.log == old(renderer.log) + FrameTrace(
                postProcessing.glowPass.renderTarget, postProcessing.bloomPass.renderTarget1,
                postProcessing.bloomPass.renderTarget2, postProcessing.bloomPass.threshold,
                postProcessing.bloomPass.smoothing, postProcessing.bloomPass.iterations,
                BlurSettings(postProcessing.bloomPass.radius, postProcessing.bloomPass.strength,
                             postProcessing.bloomPass.uResolution, old(renderer.autoClear)))
      ensures renderer.autoClear && renderer.target == None
      ensures camera.mask == PassMask(MainScene)
      ensures uBloomTexture == Some(postProcessing.bloomPass.renderTarget2)
      ensures postProcessing.bloomPass.renderTarget == postProcessing.bloomPass.renderTarget2
    {
      OffscreenPasses();
      ScreenPasses();
    }

    /** Passes 1 and 2 of `render()`: the glow capture, the bloom layer, the bloom filter. */
    method OffscreenPasses()
      requires Valid()
      modifies camera, renderer, this`currentLayerKey,
               postProcessing.bloomPass`renderTarget, postProcessing.bloomPass`quadMaterial,
               postProcessing.bloomPass`thresholdInput, postProcessing.bloomPass`uThreshold,
               postProcessing.bloomPass`uSmoothing, postProcessing.bloomPass`blurInput,
               postProcessing.bloomPass`uDirection, postProcessing.bloomPass`uStrength
      ensures Valid()
      ensures renderer.log == old(renderer.log)
              + ScenePass(PassMask(GlowCapture), Some(postProcessing.glowPass.renderTarget), old(renderer.autoClear))
              + ScenePass(PassMask(BloomRender), Some(postProcessing.bloomPass.renderTarget1), old(renderer.autoClear))
              + BloomTrace(postProcessing.bloomPass.renderTarget1, postProcessing.bloomPass.renderTarget2,
                           postProcessing.bloomPass.threshold, postProcessing.bloomPass.smoothing,
                           postProcessing.bloomPass.iterations,
                           BlurSettings(postProcessing.bloomPass.radius, postProcessing.bloomPass.strength,
                                        postProcessing.bloomPass.uResolution, old(renderer.autoClear)))
      ensures renderer.autoClear == old(renderer.autoClear)
      ensures postProcessing.bloomPass.renderTarget == postProcessing.bloomPass.renderTarget2
    {
      var glow := postProcessing.glowPass;
      var bloom := postProcessing.bloomPass;
      ScenePassStep(GlowCapture, Some(glow.renderTarget));
      ScenePassStep(BloomRender, Some(bloom.renderTarget1));
      bloom.Render();
    }

    /** Passes 3 and 4 of `render()`: the main scene, then the additive bloom overlay. */
    method ScreenPasses()
      requires Valid()
      modifies camera, renderer, this`currentLayerKey, this`uBloomTexture
      ensures Valid()
      ensures renderer.log == old(renderer.log)
              + ScenePass(PassMask(MainScene), None, old(renderer.autoClear))
              + Overlay(postProcessing.bloomPass.renderTarget)
      ensures renderer.autoClear && renderer.target == None
      ensures camera.mask == PassMask(MainScene)
      ensures uBloomTexture == Some(postProcessing.bloomPass.renderTarget)
    {
      ScenePassStep(MainScene, None);
      renderer.SetAutoClear(false);
      uBloomTexture := Some(postProcessing.bloomPass.renderTarget);
      renderer.RenderQuad(BloomOverlayDraw(uBloomTexture.value));
      renderer.SetAutoClear(true);
    }

    /**
     * `resize()`: the passes first, then the overlay camera's bounds and plane.
     */
    method Resize()
      requires Valid()
      modifies renderer, postProcessing.glowPass.renderTarget, postProcessing.bloomPass.renderTarget1,
               postProcessing.bloomPass.renderTarget2, postProcessing.bloomPass`uResolution,
               postProcessing.compositePass`bounds, postProcessing.compositePass`geometry,
               postProcessing.compositePass`lastAspect, this`bounds, this`bloomGeometry, this`lastAspect
      ensures Valid()
      ensures renderer.target == old(renderer.target) && renderer.autoClear == old(renderer.autoClear)
      ensures renderer.log == old(renderer.log)
              + postProcessing.ResizeTrace(old(postProcessing.compositePass.geometry), old(postProcessing.compositePass.lastAspect))
              + (if NeedsRegeneration(old(lastAspect), sizes.aspect) then Disposals([GeometryResource(old(bloomGeometry))]) else [])
      ensures bounds == OrthoBounds(sizes.aspect)
      ensures Abs(bloomGeometry.width - sizes.aspect) <= ASPECT_EPSILON
      ensures sizes.aspect != 0.0 ==>
                !NeedsRegeneration(lastAspect, sizes.aspect) && !NeedsRegeneration(postProcessing.compositePass.lastAspect, sizes.aspect)
      ensures NeedsRegeneration(old(lastAspect), sizes.aspect) ==> fresh(bloomGeometry) && lastAspect == Some(sizes.aspect)
      ensures !NeedsRegeneration(old(lastAspect), sizes.aspect) ==> bloomGeometry == old(bloomGeometry) && lastAspect == old(lastAspect)
      ensures if NeedsRegeneration(old(postProcessing.compositePass.lastAspect), sizes.aspect) then
                fresh(postProcessing.compositePass.geometry) && postProcessing.compositePass.lastAspect == Some(sizes.aspect)
              else
                && postProcessing.compositePass.geometry == old(postProcessing.compositePass.geometry)
                && postProcessing.compositePass.lastAspect == old(postProcessing.compositePass.lastAspect)
    {
      postProcessing.Resize();
      ReframeOverlay();
    }

    /**
     * The overlay half of `resize()`: bounds to the current aspect, and a new plane when
     * the aspect moved by more than the epsilon (or none was recorded), the old plane
     * disposed first.
     */
    method ReframeOverlay()
      requires bloomGeometry.height == 1.0 && (lastAspect.Some? ==> bloomGeometry.width == lastAspect.value)
      modifies renderer, this`bounds, this`bloomGeometry, this`lastAspect
      ensures bloomGeometry.height == 1.0 && (lastAspect.Some? ==> bloomGeometry.width == lastAspect.value)
      ensures renderer.target == old(renderer.target) && renderer.autoClear == old(renderer.autoClear)
      ensures bounds == OrthoBounds(sizes.aspect)
      ensures Abs(bloomGeometry.width - sizes.aspect) <= ASPECT_EPSILON
      ensures sizes.aspect != 0.0 ==> !NeedsRegeneration(lastAspect, sizes.aspect)
      ensures if NeedsRegeneration(old(lastAspect), sizes.aspect) then
                && fresh(bloomGeometry) && lastAspect == Some(sizes.aspect)
                && renderer.log == old(renderer.log) + Disposals([GeometryResource(old(bloomGeometry))])
              else
                bloomGeometry == old(bloomGeometry) && lastAspect == old(lastAspect) && renderer.log == old(renderer.log)
    {
      bounds := OrthoBounds(sizes.aspect);
      var newAspect := sizes.aspect;
      PlaneTracksAspect(lastAspect, bloomGeometry.width, newAspect);
      RegenerationSettles(newAspect);
      if NeedsRegeneration(lastAspect, newAspect) {
        renderer.Dispose(GeometryResource(bloomGeometry));
        bloomGeometry := new Geometry(newAspect, 1.0);
        lastAspect := Some(newAspect);
      }
    }

    /** Everything released by `destroy()`, in order. */
    function Owned(): seq<Resource>
      reads this, postProcessing, postProcessing.compositePass
    {
      postProcessing.Owned() + [GeometryResource(bloomGeometry), MaterialResource(bloomMaterial)]
    }

    /** `destroy()`: the passes, then the overlay plane's geometry and material. */
    method Destroy()
      requires postProcessing.Wired() && postProcessing.renderer == renderer
      modifies renderer
      ensures renderer.target == old(renderer.target) && renderer.autoClear == old(renderer.autoClear)
      ensures renderer.log == old(renderer.log) + Disposals(Owned())
    {
      postProcessing.Destroy();
      renderer.Dispose(GeometryResource(bloomGeometry));
      renderer.Dispose(MaterialResource(bloomMaterial));
      DisposalsAppend(postProcessing.Owned(), [GeometryResource(bloomGeometry), MaterialResource(bloomMaterial)]);
    }

    /** A destroy releases every resource of the pipeline exactly once, and nothing else. */
    lemma DestroyReleasesEachOnce()
      requires Valid()
      ensures forall r :: r in Owned() ==> multiset(Disposals(Owned()))[Dispose(r)] == 1
      ensures forall e :: e in Disposals(Owned()) ==> e.Dispose? && e.resource in Owned()
    {
      postProcessing.OwnedDistinct();
      var p := postProcessing.Owned();
      var o := Owned();
      assert Distinct(o) by {
        forall i, j | 0 <= i < j < |o| ensures o[i] != o[j] {
          if j >= |p| {
            assert o[j] == GeometryResource(bloomGeometry) || o[j] == MaterialResource(bloomMaterial);
            if i < |p| {
              assert o[i] == p[i];
            }
          } else {
            assert o[i] == p[i] && o[j] == p[j];
          }
        }
      }
      DisposalsOnce(o);
    }
  }
}
