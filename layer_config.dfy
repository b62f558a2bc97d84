/**
 * The layer registry: the closed set of render layers every drawable is tagged
 * with, and for each pass of the frame the layers the camera shows.
 */
module LayerConfig {
  import opened Gpu

  /** Objects drawn without effects; Three.js's default layer. */
  const NO_FX: int := 0
  /** Objects that only feed the custom glow post-process. */
  const GLOW: int := 1
  /** Objects that are drawn and also bloom. */
  const BLOOM: int := 2

  /** The values of `LAYERS`, in declaration order. */
  function AllLayers(): (r: seq<int>)
    ensures |r| == 3 && Distinct(r)
    ensures NO_FX in r && GLOW in r && BLOOM in r
  {
    [NO_FX, GLOW, BLOOM]
  }

  datatype Pass = GlowCapture | BloomRender | MainScene

  /** `PASS_CONFIG`: the layers the camera shows during each pass. */
  function PassLayers(p: Pass): (r: seq<int>)
    ensures Distinct(r)
    ensures forall l :: l in r ==> l in AllLayers()
    ensures p == GlowCapture ==> (set l | l in r) == {GLOW}
    ensures p == MainScene ==> GLOW !in r
    ensures p != GlowCapture ==> BLOOM in r
  {
    match p
    case GlowCapture => [GLOW]
    case BloomRender => [BLOOM]
    case MainScene => [BLOOM, NO_FX]
  }

  /** The mask a camera holds once it has been switched to pass `p`. */
  function PassMask(p: Pass): set<int>
  {
    set l | l in PassLayers(p)
  }

  /**
   * The partition the registry is built for: a glow-only object appears in the glow
   * capture and in no other pass, a bloom object in the bloom render and the main
   * scene, and an untagged object in the main scene only.
   */
  lemma LayerPartition(p: Pass)
    ensures Visible({GLOW}, PassMask(p)) <==> p == GlowCapture
    ensures Visible({BLOOM}, PassMask(p)) <==> p != GlowCapture
    ensures Visible({NO_FX}, PassMask(p)) <==> p == MainScene
  {
    match p
    case GlowCapture =>
      assert PassMask(p) == {GLOW};
      assert {GLOW} * PassMask(p) == {GLOW};
      assert {BLOOM} * PassMask(p) == {} && {NO_FX} * PassMask(p) == {};
    case BloomRender =>
      assert PassMask(p) == {BLOOM};
      assert {BLOOM} * PassMask(p) == {BLOOM};
      assert {GLOW} * PassMask(p) == {} && {NO_FX} * PassMask(p) == {};
    case MainScene =>
      assert PassMask(p) == {BLOOM, NO_FX};
      assert {BLOOM} * PassMask(p) == {BLOOM} && {NO_FX} * PassMask(p) == {NO_FX};
      assert {GLOW} * PassMask(p) == {};
  }

  /** Every layer the bloom render shows is shown by the main scene too. */
  lemma BloomWithinMain()
    ensures PassMask(BloomRender) <= PassMask(MainScene)
  {
  }
}
