/**
 * The bloom stage: bloom-tagged objects are drawn into `renderTarget1` by the
 * pipeline; this pass then draws a brightness threshold into `renderTarget2` and
 * blurs by ping-ponging between the two targets, one horizontal and one vertical
 * draw per iteration, and records in `renderTarget` where the result ended up.
 */
module Bloom {
  import opened Wrappers
  import opened Gpu
  import opened Viewport

  /** `Math.floor(n * 0.5)`: half the viewport, rounded down, with no lower clamp. */
  function BloomDimension(n: nat): (d: nat)
    ensures 2 * d <= n < 2 * d + 2
  {
    n / 2
  }

  datatype Direction = Horizontal | Vertical

  function Flip(d: Direction): Direction
  {
    if d == Horizontal then Vertical else Horizontal
  }

  /** `uDirection` for a direction: `(radius, 0)` or `(0, radius)`. */
  function DirectionVector(d: Direction, radius: real): (real, real)
  {
    if d == Horizontal then (radius, 0.0) else (0.0, radius)
  }

  /** The blur uniforms that stay fixed for one `render()`, and the renderer's `autoClear`. */
  datatype BlurSettings = BlurSettings(radius: real, strength: real, resolution: (nat, nat), autoClear: bool)

  /** One blur draw: bind `write`, then draw the blur quad sampling `read`. */
  function BlurStep(read: RenderTarget, write: RenderTarget, d: Direction, s: BlurSettings): seq<Event>
  {
    [SetTarget(Some(write)),
     DrawQuad(BlurDraw(read, DirectionVector(d, s.radius), s.strength, s.resolution), Some(write), s.autoClear)]
  }

  /**
   * `k` blur draws starting in direction `d`: each draw reads `read` and writes
   * `write`, then the two are swapped and the direction flips.
   */
  function PingPong(read: RenderTarget, write: RenderTarget, d: Direction, k: nat, s: BlurSettings): (r: seq<Event>)
    decreases k
    ensures |r| == 2 * k
  {
    if k == 0 then [] else BlurStep(read, write, d, s) + PingPong(write, read, Flip(d), k - 1, s)
  }

  /** The read target after `k` swaps, where the last draw's output sits. */
  function PingPongResult(read: RenderTarget, write: RenderTarget, k: nat): RenderTarget
  {
    if k % 2 == 0 then read else write
  }

  function DirectionAt(d: Direction, k: nat): Direction
  {
    if k % 2 == 0 then d else Flip(d)
  }

  /** The ping-pong sequence grows at its end by the draw its parity calls for. */
  lemma {:induction false} PingPongSnoc(read: RenderTarget, write: RenderTarget, d: Direction, k: nat, s: BlurSettings)
    decreases k
    ensures PingPong(read, write, d, k + 1, s)
         == PingPong(read, write, d, k, s)
            + BlurStep(PingPongResult(read, write, k), PingPongResult(write, read, k), DirectionAt(d, k), s)
  {
    if k > 0 {
      PingPongSnoc(write, read, Flip(d), k - 1, s);
      assert DirectionAt(Flip(d), k - 1) == DirectionAt(d, k);
    }
  }

  /** An even number of blur draws leaves the targets as they were: the next round starts over. */
  lemma PingPongRound(read: RenderTarget, write: RenderTarget, k: nat, s: BlurSettings)
    requires k % 2 == 0
    ensures PingPong(read, write, Horizontal, k + 2, s)
         == PingPong(read, write, Horizontal, k, s) + BlurStep(read, write, Horizontal, s) + BlurStep(write, read, Vertical, s)
  {
    PingPongSnoc(read, write, Horizontal, k, s);
    PingPongSnoc(read, write, Horizontal, k + 1, s);
  }

  /**
   * The `j`-th blur draw binds and writes one target and samples the other, in the
   * direction its parity calls for.
   */
  lemma {:induction false} PingPongAt(read: RenderTarget, write: RenderTarget, d: Direction, k: nat, s: BlurSettings, j: nat)
    requires j < k
    decreases k
    ensures |PingPong(read, write, d, k, s)| == 2 * k
    ensures PingPong(read, write, d, k, s)[2 * j] == SetTarget(Some(PingPongResult(write, read, j)))
    ensures PingPong(read, write, d, k, s)[2 * j + 1]
         == DrawQuad(BlurDraw(PingPongResult(read, write, j), DirectionVector(DirectionAt(d, j), s.radius), s.strength, s.resolution),
                     Some(PingPongResult(write, read, j)), s.autoClear)
  {
    if j == 0 {
      if k > 1 {
        PingPongAt(write, read, Flip(d), k - 1, s, 0);
      }
    } else {
      PingPongAt(write, read, Flip(d), k - 1, s, j - 1);
      assert DirectionAt(Flip(d), j - 1) == DirectionAt(d, j);
    }
  }

  /** A ping-pong of `k` draws issues exactly `k` draw calls. */
  lemma {:induction false} PingPongDraws(read: RenderTarget, write: RenderTarget, d: Direction, k: nat, s: BlurSettings)
    decreases k
    ensures Draws(PingPong(read, write, d, k, s)) == k
  {
    if k > 0 {
      PingPongDraws(write, read, Flip(d), k - 1, s);
      DrawsAppend(BlurStep(read, write, d, s), PingPong(write, read, Flip(d), k - 1, s));
      var step := BlurStep(read, write, d, s);
      DrawsAppend([step[0]], [step[1]]);
      DrawsSingle(step[0]);
      DrawsSingle(step[1]);
      assert step == [step[0]] + [step[1]];
    }
  }

  /** What `render()` issues: the threshold draw into `renderTarget2`, then `2 * iterations` blur draws. */
  function BloomTrace(rt1: RenderTarget, rt2: RenderTarget, threshold: real, smoothing: real,
                      iterations: nat, s: BlurSettings): seq<Event>
  {
    [SetTarget(Some(rt2)), DrawQuad(ThresholdDraw(rt1, threshold, smoothing), Some(rt2), s.autoClear)]
    + PingPong(rt2, rt1, Horizontal, 2 * iterations, s)
  }

  /** `render()` issues `1 + 2 * iterations` draws, the count the debug pane reports. */
  lemma BloomDraws(rt1: RenderTarget, rt2: RenderTarget, threshold: real, smoothing: real, iterations: nat, s: BlurSettings)
    ensures Draws(BloomTrace(rt1, rt2, threshold, smoothing, iterations, s)) == 1 + 2 * iterations
  {
    var head := [SetTarget(Some(rt2)), DrawQuad(ThresholdDraw(rt1, threshold, smoothing), Some(rt2), s.autoClear)];
    DrawsAppend([head[0]], [head[1]]);
    DrawsSingle(head[0]);
    DrawsSingle(head[1]);
    assert head == [head[0]] + [head[1]];
    DrawsAppend(head, PingPong(rt2, rt1, Horizontal, 2 * iterations, s));
    PingPongDraws(rt2, rt1, Horizontal, 2 * iterations, s);
  }

  /** The first draw of `render()` samples `renderTarget1` through the threshold and writes `renderTarget2`. */
  lemma BloomStartsWithThreshold(rt1: RenderTarget, rt2: RenderTarget, threshold: real, smoothing: real, iterations: nat, s: BlurSettings)
    ensures var t := BloomTrace(rt1, rt2, threshold, smoothing, iterations, s);
      |t| == 2 + 4 * iterations && t[0] == SetTarget(Some(rt2))
      && t[1] == DrawQuad(ThresholdDraw(rt1, threshold, smoothing), Some(rt2), s.autoClear)
  {
    if iterations > 0 {
      PingPongAt(rt2, rt1, Horizontal, 2 * iterations, s, 0);
    }
  }

  /** No draw of `render()` samples the target it writes, provided the two targets are distinct. */
  lemma BloomNoFeedback(rt1: RenderTarget, rt2: RenderTarget, threshold: real, smoothing: real, iterations: nat, s: BlurSettings)
    requires rt1 != rt2
    ensures var t := BloomTrace(rt1, rt2, threshold, smoothing, iterations, s);
      forall i :: 0 <= i < |t| && t[i].DrawQuad? ==> t[i].target.Some? && t[i].target.value !in Inputs(t[i].draw)
  {
    var t := BloomTrace(rt1, rt2, threshold, smoothing, iterations, s);
    var k := 2 * iterations;
    var p := PingPong(rt2, rt1, Horizontal, k, s);
    assert t == t[..2] + p;
    forall i | 0 <= i < |t| && t[i].DrawQuad?
      ensures t[i].target.Some? && t[i].target.value !in Inputs(t[i].draw)
    {
      if i >= 2 {
        var j := (i - 2) / 2;
        PingPongAt(rt2, rt1, Horizontal, k, s, j);
        if i % 2 == 0 {
          assert false;
        } else {
          assert t[i] == p[2 * j + 1];
        }
      }
    }
  }

  /**
   * `render()` only binds and draws into its two own targets: every event is a
   * target switch or a quad draw, aimed at `renderTarget1` or `renderTarget2`.
   */
  lemma BloomTargets(rt1: RenderTarget, rt2: RenderTarget, threshold: real, smoothing: real, iterations: nat, s: BlurSettings)
    ensures var t := BloomTrace(rt1, rt2, threshold, smoothing, iterations, s);
      forall i :: 0 <= i < |t| ==> (t[i].SetTarget? || t[i].DrawQuad?) && (t[i].target == Some(rt1) || t[i].target == Some(rt2))
  {
    var t := BloomTrace(rt1, rt2, threshold, smoothing, iterations, s);
    var k := 2 * iterations;
    var p := PingPong(rt2, rt1, Horizontal, k, s);
    assert t == t[..2] + p;
    forall i | 0 <= i < |t|
      ensures (t[i].SetTarget? || t[i].DrawQuad?) && (t[i].target == Some(rt1) || t[i].target == Some(rt2))
    {
      if i >= 2 {
        var j := (i - 2) / 2;
        PingPongAt(rt2, rt1, Horizontal, k, s, j);
        if i % 2 == 0 {
          assert t[i] == p[2 * j];
        } else {
          assert t[i] == p[2 * j + 1];
        }
      }
    }
  }

  /** Every blur iteration draws horizontally, with direction `(radius, 0)`, then vertically, with `(0, radius)`. */
  lemma BloomDirections(rt1: RenderTarget, rt2: RenderTarget, threshold: real, smoothing: real, iterations: nat, s: BlurSettings, n: nat)
    requires n < iterations
    ensures var t := BloomTrace(rt1, rt2, threshold, smoothing, iterations, s);
      && |t| == 2 + 4 * iterations
      && t[4 * n + 3].DrawQuad? && t[4 * n + 3].draw.BlurDraw? && t[4 * n + 3].draw.direction == (s.radius, 0.0)
      && t[4 * n + 5].DrawQuad? && t[4 * n + 5].draw.BlurDraw? && t[4 * n + 5].draw.direction == (0.0, s.radius)
  {
    var k := 2 * iterations;
    var p := PingPong(rt2, rt1, Horizontal, k, s);
    PingPongAt(rt2, rt1, Horizontal, k, s, 2 * n);
    PingPongAt(rt2, rt1, Horizontal, k, s, 2 * n + 1);
    assert BloomTrace(rt1, rt2, threshold, smoothing, iterations, s)[4 * n + 3] == p[2 * (2 * n) + 1];
    assert BloomTrace(rt1, rt2, threshold, smoothing, iterations, s)[4 * n + 5] == p[2 * (2 * n + 1) + 1];
  }

  /**
   * The last draw of `render()` writes `renderTarget2`, for every iteration count,
   * 0 included: the target `render()` then records as its result holds the last write.
   */
  lemma BloomEndsInTarget2(rt1: RenderTarget, rt2: RenderTarget, threshold: real, smoothing: real, iterations: nat, s: BlurSettings)
    ensures var t := BloomTrace(rt1, rt2, threshold, smoothing, iterations, s);
      |t| > 0 && t[|t| - 1].DrawQuad? && t[|t| - 1].target == Some(rt2)
      && PingPongResult(rt2, rt1, 2 * iterations) == rt2
  {
    var k := 2 * iterations;
    if k > 0 {
      PingPongAt(rt2, rt1, Horizontal, k, s, k - 1);
      assert BloomTrace(rt1, rt2, threshold, smoothing, iterations, s)[2 + 2 * (k - 1) + 1]
          == PingPong(rt2, rt1, Horizontal, k, s)[2 * (k - 1) + 1];
    }
  }

  class BloomPass {
    const sizes: Sizes
    const renderer: Renderer
    /** Ping-pong targets; the pipeline draws the bloom layer into `renderTarget1`. */
    const renderTarget1: RenderTarget
    const renderTarget2: RenderTarget
    /** The target holding the finished bloom, sampled by the composites. */
    var renderTarget: RenderTarget
    const thresholdMaterial: Material
    const blurMaterial: Material
    const quadGeometry: Geometry
    var quadMaterial: Material

    // Tunables, set from the debug pane.
    var strength: real
    var radius: real
    var threshold: real
    var smoothing: real
    var iterations: nat

    // Uniforms of the threshold material.
    var thresholdInput: Option<RenderTarget>
    var uThreshold: real
    var uSmoothing: real

    // Uniforms of the blur material.
    var blurInput: Option<RenderTarget>
    var uResolution: (nat, nat)
    var uDirection: (real, real)
    var uStrength: real

    ghost predicate Valid()
      reads this, renderTarget1, renderTarget2
    {
      && renderTarget1 != renderTarget2
      && thresholdMaterial != blurMaterial
      && (renderTarget == renderTarget1 || renderTarget == renderTarget2)
      && renderTarget1.width == renderTarget2.width
      && renderTarget1.height == renderTarget2.height
      && uResolution == (renderTarget1.width, renderTarget1.height)
    }

    /** The uniforms sampled by a draw of the quad with its current material. */
    function QuadSnapshot(): QuadDraw
      reads this
      requires quadMaterial == thresholdMaterial ==> thresholdInput.Some?
      requires quadMaterial != thresholdMaterial ==> blurInput.Some?
    {
      if quadMaterial == thresholdMaterial then ThresholdDraw(thresholdInput.value, uThreshold, uSmoothing)
      else BlurDraw(blurInput.value, uDirection, uStrength, uResolution)
    }

    constructor (sizes: Sizes, renderer: Renderer)
      ensures this.sizes == sizes && this.renderer == renderer && Valid()
      ensures fresh(renderTarget1) && fresh(renderTarget2) && fresh(thresholdMaterial) && fresh(blurMaterial) && fresh(quadGeometry)
      ensures renderTarget1.width == BloomDimension(sizes.width) && renderTarget1.height == BloomDimension(sizes.height)
      ensures renderTarget == renderTarget2 && quadMaterial == thresholdMaterial
      ensures strength == 0.01 && radius == 1.0 && threshold == 0.0 && smoothing == 0.1 && iterations == 2
      ensures uThreshold == threshold && uSmoothing == smoothing && uStrength == strength && uDirection == (1.0, 0.0)
      ensures thresholdInput == None && blurInput == None
      ensures quadGeometry.width == 2.0 && quadGeometry.height == 2.0
    {
      this.sizes := sizes;
      this.renderer := renderer;
      strength, radius, threshold, smoothing, iterations := 0.01, 1.0, 0.0, 0.1, 2;
      var width := BloomDimension(sizes.width);
      var height := BloomDimension(sizes.height);
      renderTarget1 := new RenderTarget(width, height);
      renderTarget2 := new RenderTarget(width, height);
      renderTarget := renderTarget2;
      thresholdMaterial := new Material();
      thresholdInput, uThreshold, uSmoothing := None, 0.0, 0.1;
      blurMaterial := new Material();
      blurInput, uResolution, uDirection, uStrength := None, (width, height), (1.0, 0.0), 0.01;
      quadGeometry := new Geometry(2.0, 2.0);
      quadMaterial := thresholdMaterial;
    }

    /** The threshold draw, then `iterations` horizontal-and-vertical blur rounds. */
    method Render()
      requires Valid()
      modifies renderer, this`renderTarget, this`quadMaterial, this`thresholdInput, this`uThreshold,
               this`uSmoothing, this`blurInput, this`uDirection, this`uStrength
      ensures Valid()
      ensures renderTarget == renderTarget2
      ensures renderer.log == old(renderer.log)
              + BloomTrace(renderTarget1, renderTarget2, threshold, smoothing, iterations,
                           BlurSettings(radius, strength, uResolution, old(renderer.autoClear)))
      ensures renderer.target == Some(renderTarget2) && renderer.autoClear == old(renderer.autoClear)
      ensures quadMaterial == blurMaterial && uStrength == strength
      ensures thresholdInput == Some(renderTarget1) && uThreshold == threshold && uSmoothing == smoothing
    {
      ThresholdInto(renderTarget2);
      quadMaterial := blurMaterial;
      uStrength := strength;
      renderTarget := PingPongBlur();
    }

    /**
     * The blur rounds of `render()`: starting from `renderTarget2`, each round blurs
     * horizontally into the other target and vertically back, swapping read and
     * write targets after each draw; returns the final read target.
     */
    method PingPongBlur() returns (readTarget: RenderTarget)
      requires Valid() && quadMaterial == blurMaterial && uStrength == strength
      requires renderer.target == Some(renderTarget2)
      modifies renderer, this`blurInput, this`uDirection
      ensures readTarget == renderTarget2 && renderer.target == Some(renderTarget2)
      ensures renderer.autoClear == old(renderer.autoClear)
      ensures renderer.log == old(renderer.log)
              + PingPong(renderTarget2, renderTarget1, Horizontal, 2 * iterations,
                         BlurSettings(radius, strength, uResolution, old(renderer.autoClear)))
    {
      ghost var s := BlurSettings(radius, strength, uResolution, renderer.autoClear);
      var writeTarget;
      readTarget, writeTarget := renderTarget2, renderTarget1;
      var i := 0;
      while i < iterations
        invariant 0 <= i <= iterations
        invariant readTarget == renderTarget2 && writeTarget == renderTarget1
        invariant renderer.log == old(renderer.log) + PingPong(renderTarget2, renderTarget1, Horizontal, 2 * i, s)
        invariant renderer.autoClear == s.autoClear
        invariant renderer.target == Some(renderTarget2)
      {
        ghost var before := renderer.log;

        BlurInto(readTarget, writeTarget, (radius, 0.0));
        readTarget, writeTarget := writeTarget, readTarget;
        assert renderer.log == before + BlurStep(renderTarget2, renderTarget1, Horizontal, s);
        ghost var middle := renderer.log;

        BlurInto(readTarget, writeTarget, (0.0, radius));
        readTarget, writeTarget := writeTarget, readTarget;
        assert renderer.log == middle + BlurStep(renderTarget1, renderTarget2, Vertical, s);

        PingPongRound(renderTarget2, renderTarget1, 2 * i, s);
        i := i + 1;
      }
    }

    /** The threshold draw: sample `renderTarget1` through the threshold material into `write`. */
    method ThresholdInto(write: RenderTarget)
      modifies renderer, this`quadMaterial, this`thresholdInput, this`uThreshold, this`uSmoothing
      ensures quadMaterial == thresholdMaterial && thresholdInput == Some(renderTarget1)
      ensures uThreshold == threshold && uSmoothing == smoothing
      ensures renderer.target == Some(write) && renderer.autoClear == old(renderer.autoClear)
      ensures renderer.log == old(renderer.log)
              + [SetTarget(Some(write)), DrawQuad(ThresholdDraw(renderTarget1, threshold, smoothing), Some(write), old(renderer.autoClear))]
    {
      quadMaterial := thresholdMaterial;
      thresholdInput := Some(renderTarget1);
      uThreshold := threshold;
      uSmoothing := smoothing;
      renderer.SetRenderTarget(Some(write));
      renderer.RenderQuad(QuadSnapshot());
    }

    /** One blur draw: sample `read` in direction `direction` and draw into `write`. */
    method BlurInto(read: RenderTarget, write: RenderTarget, direction: (real, real))
      requires quadMaterial == blurMaterial != thresholdMaterial
      modifies renderer, this`blurInput, this`uDirection
      ensures blurInput == Some(read) && uDirection == direction
      ensures renderer.target == Some(write) && renderer.autoClear == old(renderer.autoClear)
      ensures renderer.log == old(renderer.log)
              + [SetTarget(Some(write)), DrawQuad(BlurDraw(read, direction, uStrength, uResolution), Some(write), old(renderer.autoClear))]
    {
      blurInput := Some(read);
      uDirection := direction;
      renderer.SetRenderTarget(Some(write));
      renderer.RenderQuad(QuadSnapshot());
    }

    /** Both targets and the blur resolution follow the current viewport. */
    method Resize()
      requires Valid()
      modifies renderer, renderTarget1, renderTarget2, this`uResolution
      ensures Valid()
      ensures renderTarget1.width == BloomDimension(sizes.width) && renderTarget1.height == BloomDimension(sizes.height)
      ensures renderer.target == old(renderer.target) && renderer.autoClear == old(renderer.autoClear)
      ensures renderer.log == old(renderer.log)
              + [Resized(renderTarget1, BloomDimension(sizes.width), BloomDimension(sizes.height)),
                 Resized(renderTarget2, BloomDimension(sizes.width), BloomDimension(sizes.height))]
    {
      var width := BloomDimension(sizes.width);
      var height := BloomDimension(sizes.height);
      renderer.SetSize(renderTarget1, width, height);
      renderer.SetSize(renderTarget2, width, height);
      uResolution := (width, height);
    }

    /** The resources this pass owns, in the order `destroy()` releases them. */
    function Owned(): seq<Resource>
    {
      [TargetResource(renderTarget1), TargetResource(renderTarget2),
       MaterialResource(thresholdMaterial), MaterialResource(blurMaterial), GeometryResource(quadGeometry)]
    }

    method Destroy()
      modifies renderer
      ensures renderer.target == old(renderer.target) && renderer.autoClear == old(renderer.autoClear)
      ensures renderer.log == old(renderer.log) + Disposals(Owned())
    {
      renderer.Dispose(TargetResource(renderTarget1));
      renderer.Dispose(TargetResource(renderTarget2));
      renderer.Dispose(MaterialResource(thresholdMaterial));
      renderer.Dispose(MaterialResource(blurMaterial));
      renderer.Dispose(GeometryResource(quadGeometry));
    }
  }
}
