/**
 * The full-screen quad shared by the pipeline's bloom overlay and the composite
 * pass: an orthographic camera of frustum size 1 framing an `aspect` x 1 plane, and
 * the rule that decides when a resize must rebuild the plane.
 */
module Quad {
  import opened Wrappers

  datatype Bounds = Bounds(left: real, right: real, top: real, bottom: real)

  /** The camera bounds for frustum size 1: `(-1 * aspect) / 2`, `aspect / 2`, `1 / 2`, `-1 / 2`. */
  function OrthoBounds(aspect: real): (b: Bounds)
    ensures b.right - b.left == aspect && b.top - b.bottom == 1.0
    ensures b.left == -b.right && b.bottom == -b.top
  {
    Bounds((-1.0 * aspect) / 2.0, (1.0 * aspect) / 2.0, 1.0 / 2.0, -1.0 / 2.0)
  }

  /** The largest aspect change a resize ignores. */
  const ASPECT_EPSILON: real := 0.01

  function Abs(x: real): real
  {
    if x < 0.0 then -x else x
  }

  /**
   * `!lastAspect || Math.abs(lastAspect - aspect) > 0.01`: JavaScript treats an
   * undefined and a zero `lastAspect` alike as falsy.
   */
  predicate NeedsRegeneration(lastAspect: Option<real>, aspect: real)
  {
    lastAspect == None || lastAspect.value == 0.0 || Abs(lastAspect.value - aspect) > ASPECT_EPSILON
  }

  /**
   * Once a plane was rebuilt for a non-zero `aspect`, another resize to the same aspect
   * keeps it. (An aspect of 0 reads as falsy and forces a rebuild on every resize.)
   */
  lemma RegenerationSettles(aspect: real)
    ensures aspect != 0.0 ==> !NeedsRegeneration(Some(aspect), aspect)
  {
  }

  /**
   * Whatever the decision, the plane ends within the epsilon of the new aspect: it is
   * rebuilt at `aspect`, or it was kept because its width already was that close.
   */
  lemma PlaneTracksAspect(lastAspect: Option<real>, width: real, aspect: real)
    requires lastAspect.Some? ==> width == lastAspect.value
    ensures Abs((if NeedsRegeneration(lastAspect, aspect) then aspect else width) - aspect) <= ASPECT_EPSILON
  {
  }
}
