/**
 * The composite stage: one full-screen quad drawn additively over the screen that
 * samples the finished bloom and glow textures, with the glow centred on the
 * projected position of the glow source.
 */
module Composite {
  import opened Wrappers
  import opened Gpu
  import opened Viewport
  import opened Quad
  import Bloom
  import Glow

  /** Normalised device coordinates to texture coordinates: `(x + 1) * 0.5` per axis. */
  function NdcToUv(p: (real, real)): (real, real)
  {
    ((p.0 + 1.0) * 0.5, (p.1 + 1.0) * 0.5)
  }

  /** The inverse mapping, `2 * u - 1` per axis. */
  function UvToNdc(uv: (real, real)): (real, real)
  {
    (2.0 * uv.0 - 1.0, 2.0 * uv.1 - 1.0)
  }

  predicate InSquare(p: (real, real), lo: real, hi: real)
  {
    lo <= p.0 <= hi && lo <= p.1 <= hi
  }

  /**
   * The mapping takes the visible NDC square [-1, 1]^2 exactly onto the texture square
   * [0, 1]^2, and the two mappings undo each other.
   */
  lemma NdcUvBijection(p: (real, real), uv: (real, real))
    ensures InSquare(p, -1.0, 1.0) <==> InSquare(NdcToUv(p), 0.0, 1.0)
    ensures UvToNdc(NdcToUv(p)) == p
    ensures NdcToUv(UvToNdc(uv)) == uv
  {
  }

  class CompositePass {
    const sizes: Sizes
    const renderer: Renderer
    const bloomPass: Bloom.BloomPass
    const glowPass: Glow.GlowPass

    // Tunables, set from the debug pane.
    var bloomEnabled: bool
    var glowEnabled: bool
    var glowSamples: int

    /** The orthographic camera's frustum. */
    var bounds: Bounds
    const material: Material
    var geometry: Geometry
    var lastAspect: Option<real>

    // Uniforms of the combined material.
    var bloomTexture: Option<RenderTarget>
    var glowTexture: Option<RenderTarget>
    var uTime: real
    var uMeshCenter: (real, real)
    var uBloomEnabled: bool
    var uGlowEnabled: bool
    var uGlowSamples: int

    /**
     * The uniforms mirror the tunables, and once a resize has built the plane its
     * width is the aspect it was built for.
     */
    ghost predicate Valid()
      reads this
    {
      && uBloomEnabled == bloomEnabled && uGlowEnabled == glowEnabled && uGlowSamples == glowSamples
      && geometry.height == 1.0
      && (lastAspect.Some? ==> geometry.width == lastAspect.value)
    }

    constructor (bloomPass: Bloom.BloomPass, glowPass: Glow.GlowPass, sizes: Sizes, renderer: Renderer)
      ensures Valid()
      ensures this.bloomPass == bloomPass && this.glowPass == glowPass
      ensures this.sizes == sizes && this.renderer == renderer
      ensures fresh(material) && fresh(geometry)
      ensures bounds == OrthoBounds(sizes.aspect) && geometry.width == sizes.aspect && lastAspect == None
      ensures bloomEnabled && glowEnabled && glowSamples == 24
      ensures bloomTexture == None && glowTexture == None && uTime == 0.0 && uMeshCenter == (0.5, 0.5)
    {
      this.bloomPass := bloomPass;
      this.glowPass := glowPass;
      this.sizes := sizes;
      this.renderer := renderer;
      bloomEnabled, glowEnabled, glowSamples := true, true, 24;
      bounds := OrthoBounds(sizes.aspect);
      material := new Material();
      bloomTexture, glowTexture, uTime, uMeshCenter := None, None, 0.0, (0.5, 0.5);
      uBloomEnabled, uGlowEnabled, uGlowSamples := true, true, 24;
      geometry := new Geometry(sizes.aspect, 1.0);
      lastAspect := None;
    }

    /**
     * `renderCombined()`, given the clock's elapsed time and, when the glow source
     * exists, its position already projected to normalised device coordinates. It
     * draws once to the screen whatever the enable flags, which reach the shader only
     * as uniforms.
     */
    method RenderCombined(elapsed: real, source: Option<(real, real)>)
      requires Valid()
      modifies renderer, this`bloomTexture, this`glowTexture, this`uTime, this`uMeshCenter
      ensures Valid()
      ensures bloomTexture == Some(bloomPass.renderTarget) && glowTexture == Some(glowPass.renderTarget)
      ensures uTime == elapsed
      ensures uMeshCenter == if glowEnabled && source.Some? then NdcToUv(source.value) else old(uMeshCenter)
      ensures renderer.target == None && renderer.autoClear == old(renderer.autoClear)
      ensures renderer.log == old(renderer.log)
              + [SetTarget(None),
                 DrawQuad(CombinedDraw(bloomPass.renderTarget, glowPass.renderTarget, elapsed, uMeshCenter,
                                       bloomEnabled, glowEnabled, glowSamples), None, old(renderer.autoClear))]
    {
      bloomTexture := Some(bloomPass.renderTarget);
      glowTexture := Some(glowPass.renderTarget);
      uTime := elapsed;
      if glowEnabled {
        if source.Some? {
          uMeshCenter := NdcToUv(source.value);
        }
      }
      renderer.SetRenderTarget(None);
      renderer.RenderQuad(CombinedDraw(bloomTexture.value, glowTexture.value, uTime, uMeshCenter,
                                       uBloomEnabled, uGlowEnabled, uGlowSamples));
    }

    /** The debug pane's "Bloom Enabled" binding. */
    method SetBloomEnabled(v: bool)
      requires Valid()
      modifies this`bloomEnabled, this`uBloomEnabled
      ensures Valid() && bloomEnabled == v
    {
      bloomEnabled := v;
      uBloomEnabled := v;
    }

    /** The debug pane's "Glow Enabled" binding. */
    method SetGlowEnabled(v: bool)
      requires Valid()
      modifies this`glowEnabled, this`uGlowEnabled
      ensures Valid() && glowEnabled == v
    {
      glowEnabled := v;
      uGlowEnabled := v;
    }

    /** The debug pane's "Glow Samples" binding. */
    method SetGlowSamples(v: int)
      requires Valid()
      modifies this`glowSamples, this`uGlowSamples
      ensures Valid() && glowSamples == v
    {
      glowSamples := v;
      uGlowSamples := v;
    }

    /**
     * Reframes the camera to the current aspect and rebuilds the plane when the aspect
     * moved by more than the epsilon (or none was recorded), disposing the old plane
     * first.
     */
    method Resize()
      requires Valid()
      modifies renderer, this`bounds, this`geometry, this`lastAspect
      ensures Valid()
      ensures bounds == OrthoBounds(sizes.aspect)
      ensures Abs(geometry.width - sizes.aspect) <= ASPECT_EPSILON
      ensures sizes.aspect != 0.0 ==> !NeedsRegeneration(lastAspect, sizes.aspect)
      ensures renderer.target == old(renderer.target) && renderer.autoClear == old(renderer.autoClear)
      ensures if NeedsRegeneration(old(lastAspect), sizes.aspect) then
                && fresh(geometry) && geometry.width == sizes.aspect && lastAspect == Some(sizes.aspect)
                && renderer.log == old(renderer.log) + Disposals([GeometryResource(old(geometry))])
              else
                geometry == old(geometry) && lastAspect == old(lastAspect) && renderer.log == old(renderer.log)
    {
      bounds := OrthoBounds(sizes.aspect);
      var newAspect := sizes.aspect;
      PlaneTracksAspect(lastAspect, geometry.width, newAspect);
      RegenerationSettles(newAspect);
      if NeedsRegeneration(lastAspect, newAspect) {
        renderer.Dispose(GeometryResource(geometry));
        geometry := new Geometry(newAspect, 1.0);
        lastAspect := Some(newAspect);
      }
    }

    function Owned(): seq<Resource>
      reads this
    {
      [GeometryResource(geometry), MaterialResource(material)]
    }

    method Destroy()
      modifies renderer
      ensures renderer.target == old(renderer.target) && renderer.autoClear == old(renderer.autoClear)
      ensures renderer.log == old(renderer.log) + Disposals(Owned())
    {
      renderer.Dispose(GeometryResource(geometry));
      renderer.Dispose(MaterialResource(material));
    }
  }
}
