/**
 * The post-processing container: enables every registered layer on the main camera,
 * builds the glow, bloom and composite passes (the composite sharing the very
 * instances of the other two) and fans `resize` and `destroy` out to them.
 */
module PostProcess {
  import opened Wrappers
  import opened Gpu
  import opened Viewport
  import opened Quad
  import opened LayerConfig
  import Glow
  import Bloom
  import Composite

  class PostProcessing {
    const camera: Camera
    const sizes: Sizes
    const renderer: Renderer
    const glowPass: Glow.GlowPass
    const bloomPass: Bloom.BloomPass
    const compositePass: Composite.CompositePass

    /**
     * The passes share one viewport and one renderer, the composite is wired to this
     * container's own glow and bloom passes, and no two owned resources coincide.
     */
    ghost predicate Valid()
      reads this, glowPass, glowPass.renderTarget, bloomPass, bloomPass.renderTarget1, bloomPass.renderTarget2, compositePass
    {
      && Wired()
      && glowPass.Valid() && bloomPass.Valid() && compositePass.Valid()
      && glowPass.renderTarget != bloomPass.renderTarget1 && glowPass.renderTarget != bloomPass.renderTarget2
      && compositePass.material != bloomPass.thresholdMaterial && compositePass.material != bloomPass.blurMaterial
      && compositePass.geometry != bloomPass.quadGeometry
    }

    /** The wiring part of `Valid()`, fixed at construction. */
    predicate Wired()
    {
      && glowPass.sizes == sizes && bloomPass.sizes == sizes && compositePass.sizes == sizes
      && glowPass.renderer == renderer && bloomPass.renderer == renderer && compositePass.renderer == renderer
      && compositePass.bloomPass == bloomPass && compositePass.glowPass == glowPass
    }

    constructor (camera: Camera, sizes: Sizes, renderer: Renderer)
      modifies camera
      ensures Valid()
      ensures this.camera == camera && this.sizes == sizes && this.renderer == renderer
      ensures camera.mask == old(camera.mask) + {NO_FX, GLOW, BLOOM}
      ensures fresh(glowPass) && fresh(glowPass.renderTarget)
      ensures fresh(bloomPass) && fresh(bloomPass.renderTarget1) && fresh(bloomPass.renderTarget2)
      ensures fresh(compositePass) && fresh(compositePass.geometry)
      ensures bloomPass.renderTarget == bloomPass.renderTarget2
      ensures compositePass.lastAspect == None
      ensures renderer.log == old(renderer.log)
    {
      this.camera := camera;
      this.sizes := sizes;
      this.renderer := renderer;
      var glow := new Glow.GlowPass(sizes, renderer);
      var bloom := new Bloom.BloomPass(sizes, renderer);
      glowPass := glow;
      bloomPass := bloom;
      compositePass := new Composite.CompositePass(bloom, glow, sizes, renderer);
      new;
      SetCameraLayers(AllLayers());
    }

    /** Enables each listed layer on the camera; layers already enabled stay enabled. */
    method SetCameraLayers(layers: seq<int>)
      modifies camera
      ensures camera.mask == old(camera.mask) + LayerSet(layers)
    {
      camera.EnableEach(layers);
    }

    /** The log a resize leaves: glow target, both bloom targets, then the composite plane. */
    ghost function ResizeTrace(oldGeometry: Geometry, lastAspect: Option<real>): seq<Event>
      reads this, sizes
    {
      [Resized(glowPass.renderTarget, Glow.GlowDimension(sizes.width), Glow.GlowDimension(sizes.height))]
      + [Resized(bloomPass.renderTarget1, Bloom.BloomDimension(sizes.width), Bloom.BloomDimension(sizes.height)),
         Resized(bloomPass.renderTarget2, Bloom.BloomDimension(sizes.width), Bloom.BloomDimension(sizes.height))]
      + (if NeedsRegeneration(lastAspect, sizes.aspect) then Disposals([GeometryResource(oldGeometry)]) else [])
    }

    /** `resize()`: glow, bloom and composite, once each and in that order. */
    method Resize()
      requires Valid()
      modifies renderer, glowPass.renderTarget, bloomPass.renderTarget1, bloomPass.renderTarget2, bloomPass`uResolution,
               compositePass`bounds, compositePass`geometry, compositePass`lastAspect
      ensures Valid()
      ensures renderer.target == old(renderer.target) && renderer.autoClear == old(renderer.autoClear)
      ensures renderer.log == old(renderer.log) + ResizeTrace(old(compositePass.geometry), old(compositePass.lastAspect))
      ensures glowPass.renderTarget.width == Glow.GlowDimension(sizes.width)
      ensures glowPass.renderTarget.height == Glow.GlowDimension(sizes.height)
      ensures bloomPass.renderTarget1.width == Bloom.BloomDimension(sizes.width)
      ensures bloomPass.renderTarget1.height == Bloom.BloomDimension(sizes.height)
      ensures compositePass.bounds == OrthoBounds(sizes.aspect)
      ensures compositePass.geometry == old(compositePass.geometry) || fresh(compositePass.geometry)
      ensures if NeedsRegeneration(old(compositePass.lastAspect), sizes.aspect) then
                fresh(compositePass.geometry) && compositePass.lastAspect == Some(sizes.aspect)
              else
                compositePass.geometry == old(compositePass.geometry) && compositePass.lastAspect == old(compositePass.lastAspect)
      ensures Abs(compositePass.geometry.width - sizes.aspect) <= ASPECT_EPSILON
      ensures sizes.aspect != 0.0 ==> !NeedsRegeneration(compositePass.lastAspect, sizes.aspect)
    {
      glowPass.Resize();
      bloomPass.Resize();
      compositePass.Resize();
    }

    /** Everything the three passes own, in the order `destroy()` releases it. */
    function Owned(): seq<Resource>
      reads this, compositePass
    {
      [TargetResource(glowPass.renderTarget)] + bloomPass.Owned() + compositePass.Owned()
    }

    /** Under `Valid()` the owned resources are pairwise distinct. */
    lemma OwnedDistinct()
      requires Valid()
      ensures Distinct(Owned())
    {
      var o := Owned();
      assert o == [TargetResource(glowPass.renderTarget),
                   TargetResource(bloomPass.renderTarget1), TargetResource(bloomPass.renderTarget2),
                   MaterialResource(bloomPass.thresholdMaterial), MaterialResource(bloomPass.blurMaterial),
                   GeometryResource(bloomPass.quadGeometry),
                   GeometryResource(compositePass.geometry), MaterialResource(compositePass.material)];
    }

    /** `destroy()`: each pass's own `destroy()`, once each and in that order. */
    method Destroy()
      requires Wired()
      modifies renderer
      ensures renderer.target == old(renderer.target) && renderer.autoClear == old(renderer.autoClear)
      ensures renderer.log == old(renderer.log) + Disposals(Owned())
    {
      glowPass.Destroy();
      bloomPass.Destroy();
      compositePass.Destroy();
      DisposalsAppend([TargetResource(glowPass.renderTarget)], bloomPass.Owned());
      DisposalsAppend([TargetResource(glowPass.renderTarget)] + bloomPass.Owned(), compositePass.Owned());
    }

    /** So a destroy releases every resource the passes own exactly once, and nothing else. */
    lemma DestroyReleasesEachOnce()
      requires Valid()
      ensures forall r :: r in Owned() ==> multiset(Disposals(Owned()))[Dispose(r)] == 1
      ensures forall e :: e in Disposals(Owned()) ==> e.Dispose? && e.resource in Owned()
    {
      OwnedDistinct();
      DisposalsOnce(Owned());
    }
  }
}
