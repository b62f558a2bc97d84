/** The glow capture stage: one half-resolution target that glow-tagged objects are drawn into. */
module Glow {
  import opened Wrappers
  import opened Gpu
  import opened Viewport

  /**
   * `Math.max(1, Math.floor(n * 0.5))` for a viewport dimension `n`: half the
   * viewport, rounded down, and never empty, so a viewport of 0 or 1 pixels still
   * gets a 1-pixel target.
   */
  function GlowDimension(n: nat): (d: nat)
    ensures d >= 1
    ensures n >= 2 ==> 2 * d <= n < 2 * d + 2
    ensures n < 2 ==> d == 1
  {
    if n / 2 < 1 then 1 else n / 2
  }

  class GlowPass {
    const sizes: Sizes
    const renderer: Renderer
    const renderTarget: RenderTarget

    ghost predicate Valid()
      reads renderTarget
    {
      renderTarget.width >= 1 && renderTarget.height >= 1
    }

    constructor (sizes: Sizes, renderer: Renderer)
      ensures this.sizes == sizes && this.renderer == renderer
      ensures fresh(renderTarget) && Valid()
      ensures renderTarget.width == GlowDimension(sizes.width)
      ensures renderTarget.height == GlowDimension(sizes.height)
    {
      this.sizes := sizes;
      this.renderer := renderer;
      renderTarget := new RenderTarget(GlowDimension(sizes.width), GlowDimension(sizes.height));
    }

    /** The new size depends on the current viewport only, so resizes never drift. */
    method Resize()
      modifies renderer, renderTarget
      ensures Valid()
      ensures renderTarget.width == GlowDimension(sizes.width)
      ensures renderTarget.height == GlowDimension(sizes.height)
      ensures renderer.target == old(renderer.target) && renderer.autoClear == old(renderer.autoClear)
      ensures renderer.log == old(renderer.log) + [Resized(renderTarget, GlowDimension(sizes.width), GlowDimension(sizes.height))]
    {
      var width := GlowDimension(sizes.width);
      var height := GlowDimension(sizes.height);
      renderer.SetSize(renderTarget, width, height);
    }

    method Destroy()
      modifies renderer
      ensures renderer.target == old(renderer.target) && renderer.autoClear == old(renderer.autoClear)
      ensures renderer.log == old(renderer.log) + Disposals([TargetResource(renderTarget)])
    {
      renderer.Dispose(TargetResource(renderTarget));
    }
  }
}
