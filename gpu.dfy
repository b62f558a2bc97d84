/**
 * An abstract stand-in for the parts of Three.js the pipeline drives: a camera's
 * layer mask, off-screen render targets, plane geometries, shader materials and a
 * renderer. Nothing is drawn: every call the pipeline makes on the renderer or on a
 * GPU resource is appended to one ordered log, so that pass order, the target bound
 * at each draw, what each draw samples and every disposal can be stated and proved.
 */
module Gpu {
  import opened Wrappers

  /** A camera's layer mask, with Three.js `Layers` semantics over layer numbers. */
  class Camera {
    var mask: set<int>

    /** A new Three.js object is on layer 0 only. */
    constructor ()
      ensures mask == {0}
    {
      mask := {0};
    }

    /** `layers.set(n)`: exactly layer `n`. */
    method SetLayer(n: int)
      modifies this
      ensures mask == {n}
    {
      mask := {n};
    }

    /** `layers.enable(n)`: adds layer `n`, removes nothing. */
    method EnableLayer(n: int)
      modifies this
      ensures mask == old(mask) + {n}
    {
      mask := mask + {n};
    }

    /** `layers.forEach((layer) => camera.layers.enable(layer))`: adds every listed layer, removes nothing. */
    method EnableEach(layers: seq<int>)
      modifies this
      ensures mask == old(mask) + LayerSet(layers)
    {
      var i := 0;
      while i < |layers|
        invariant 0 <= i <= |layers|
        invariant mask == old(mask) + LayerSet(layers[..i])
      {
        EnableLayer(layers[i]);
        assert layers[..i + 1] == layers[..i] + [layers[i]];
        i := i + 1;
      }
      assert layers[..i] == layers;
    }

    /** `layers.disableAll()`. */
    method DisableAllLayers()
      modifies this
      ensures mask == {}
    {
      mask := {};
    }
  }

  /** The layers a list names. */
  function LayerSet(layers: seq<int>): set<int>
  {
    set l | l in layers
  }

  /** Three.js `Layers.test`: an object is drawn when it shares a layer with the camera. */
  predicate Visible(objectLayers: set<int>, cameraMask: set<int>)
  {
    objectLayers * cameraMask != {}
  }

  /** A `WebGLRenderTarget`: an off-screen colour buffer of a given size. */
  class RenderTarget {
    var width: nat
    var height: nat

    constructor (w: nat, h: nat)
      ensures width == w && height == h
    {
      width, height := w, h;
    }
  }

  /** A `PlaneGeometry`; the pipeline replaces geometries, it never reshapes one. */
  class Geometry {
    const width: real
    const height: real

    constructor (w: real, h: real)
      ensures width == w && height == h
    {
      width, height := w, h;
    }
  }

  /** A `ShaderMaterial`, tracked by identity only; its uniforms live in the owning pass. */
  class Material {
    constructor ()
    {
    }
  }

  /** Anything the pipeline must dispose of. */
  datatype Resource =
    | TargetResource(target: RenderTarget)
    | GeometryResource(geometry: Geometry)
    | MaterialResource(material: Material)

  /** The uniforms a full-screen quad samples at the moment it is drawn. */
  datatype QuadDraw =
    | ThresholdDraw(input: RenderTarget, threshold: real, smoothing: real)
    | BlurDraw(input: RenderTarget, direction: (real, real), strength: real, resolution: (nat, nat))
    | BloomOverlayDraw(bloom: RenderTarget)
    | CombinedDraw(bloom: RenderTarget, glow: RenderTarget, time: real, center: (real, real),
                   bloomEnabled: bool, glowEnabled: bool, samples: int)

  /** The render targets a quad draw samples. */
  function Inputs(d: QuadDraw): (r: set<RenderTarget>)
  {
    match d
    case ThresholdDraw(input, _, _) => {input}
    case BlurDraw(input, _, _, _) => {input}
    case BloomOverlayDraw(bloom) => {bloom}
    case CombinedDraw(bloom, glow, _, _, _, _, _) => {bloom, glow}
  }

  /** A bound target: `Some(t)` for an off-screen target, `None` for the screen (`null`). */
  type Binding = Option<RenderTarget>

  datatype Event =
    | SetTarget(target: Binding)
    | Clear(target: Binding)
    | DrawScene(layers: set<int>, target: Binding, autoClear: bool)
    | DrawQuad(draw: QuadDraw, target: Binding, autoClear: bool)
    | SetAutoClear(on: bool)
    | Resized(resized: RenderTarget, width: nat, height: nat)
    | Dispose(resource: Resource)
  {
    predicate IsDraw() { DrawScene? || DrawQuad? }
  }

  /** The number of draw calls in a log. */
  function Draws(log: seq<Event>): nat
  {
    if log == [] then 0 else Draws(log[..|log| - 1]) + (if log[|log| - 1].IsDraw() then 1 else 0)
  }

  lemma {:induction false} DrawsAppend(a: seq<Event>, b: seq<Event>)
    ensures Draws(a + b) == Draws(a) + Draws(b)
    decreases |b|
  {
    if b == [] {
      assert a + b == a;
    } else {
      var b' := b[..|b| - 1];
      assert (a + b)[..|a + b| - 1] == a + b';
      DrawsAppend(a, b');
    }
  }

  lemma DrawsSingle(e: Event)
    ensures Draws([e]) == if e.IsDraw() then 1 else 0
  {
    assert [e][..0] == [];
  }

  /** The WebGL renderer: the bound target, `autoClear`, and the log of what it was asked to do. */
  class Renderer {
    var log: seq<Event>
    var target: Binding
    var autoClear: bool

    /** A fresh renderer draws to the screen and clears automatically (the Three.js default). */
    constructor ()
      ensures log == [] && target == None && autoClear
    {
      log, target, autoClear := [], None, true;
    }

    method SetRenderTarget(t: Binding)
      modifies this
      ensures target == t && autoClear == old(autoClear)
      ensures log == old(log) + [SetTarget(t)]
    {
      target := t;
      log := log + [SetTarget(t)];
    }

    /** `clear()` acts on whatever target is bound. */
    method Clear()
      modifies this
      ensures target == old(target) && autoClear == old(autoClear)
      ensures log == old(log) + [Event.Clear(old(target))]
    {
      log := log + [Event.Clear(target)];
    }

    /** `render(scene, camera)`: draws the objects the camera's mask lets through. */
    method RenderScene(camera: Camera)
      modifies this
      ensures target == old(target) && autoClear == old(autoClear)
      ensures log == old(log) + [DrawScene(camera.mask, old(target), old(autoClear))]
    {
      log := log + [DrawScene(camera.mask, target, autoClear)];
    }

    /** `render(quadScene, orthoCamera)` for a full-screen quad with the given uniforms. */
    method RenderQuad(d: QuadDraw)
      modifies this
      ensures target == old(target) && autoClear == old(autoClear)
      ensures log == old(log) + [DrawQuad(d, old(target), old(autoClear))]
    {
      log := log + [DrawQuad(d, target, autoClear)];
    }

    method SetAutoClear(on: bool)
      modifies this
      ensures target == old(target) && autoClear == on
      ensures log == old(log) + [Event.SetAutoClear(on)]
    {
      autoClear := on;
      log := log + [Event.SetAutoClear(on)];
    }

    /** `renderTarget.setSize(w, h)`, recorded in the log. */
    method SetSize(rt: RenderTarget, w: nat, h: nat)
      modifies this, rt
      ensures rt.width == w && rt.height == h
      ensures target == old(target) && autoClear == old(autoClear)
      ensures log == old(log) + [Resized(rt, w, h)]
    {
      rt.width, rt.height := w, h;
      log := log + [Resized(rt, w, h)];
    }

    /** `resource.dispose()`, recorded in the log. */
    method Dispose(r: Resource)
      modifies this
      ensures target == old(target) && autoClear == old(autoClear)
      ensures log == old(log) + [Event.Dispose(r)]
    {
      log := log + [Event.Dispose(r)];
    }
  }

  /** `n` disposal events, one per resource of `owned`, in that order. */
  function Disposals(owned: seq<Resource>): seq<Event>
  {
    seq(|owned|, i requires 0 <= i < |owned| => Dispose(owned[i]))
  }

  /** Disposing two lists in turn is disposing their concatenation. */
  lemma DisposalsAppend(a: seq<Resource>, b: seq<Resource>)
    ensures Disposals(a) + Disposals(b) == Disposals(a + b)
  {
    assert forall i :: 0 <= i < |a + b| ==> (Disposals(a) + Disposals(b))[i] == Disposals(a + b)[i];
  }

  predicate Distinct<T(==)>(s: seq<T>)
  {
    forall i, j :: 0 <= i < j < |s| ==> s[i] != s[j]
  }

  /** The tail of a list without repeats has none either, and does not hold the head. */
  lemma DistinctTail<T>(s: seq<T>)
    requires Distinct(s) && s != []
    ensures Distinct(s[1..]) && s[0] !in s[1..]
  {
    var rest := s[1..];
    forall i, j | 0 <= i < j < |rest| ensures rest[i] != rest[j] {
      assert rest[i] == s[i + 1] && rest[j] == s[j + 1];
    }
    forall k | 0 <= k < |rest| ensures rest[k] != s[0] {
      assert rest[k] == s[k + 1];
    }
  }

  /** Disposing a list disposes its head, then its tail. */
  lemma DisposalsCons(owned: seq<Resource>)
    requires owned != []
    ensures Disposals(owned) == [Dispose(owned[0])] + Disposals(owned[1..])
  {
    assert forall i :: 0 <= i < |owned| - 1 ==> Disposals(owned[1..])[i] == Disposals(owned)[i + 1];
  }

  /**
   * Disposing a list of distinct resources disposes each of them exactly once and
   * nothing else.
   */
  lemma {:induction false} DisposalsOnce(owned: seq<Resource>)
    requires Distinct(owned)
    ensures forall r :: r in owned ==> multiset(Disposals(owned))[Dispose(r)] == 1
    ensures forall e :: e in Disposals(owned) ==> e.Dispose? && e.resource in owned
  {
    if owned != [] {
      var rest := owned[1..];
      DistinctTail(owned);
      DisposalsOnce(rest);
      DisposalsCons(owned);
      assert Dispose(owned[0]) !in Disposals(rest);
      forall r | r in owned ensures multiset(Disposals(owned))[Dispose(r)] == 1 {
        if r != owned[0] {
          assert r in rest;
        }
      }
    }
  }
}
