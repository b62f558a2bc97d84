# The Erdtree: render pipeline, audio and intro narration in Dafny

This project models the non-decorative logic of *The Erdtree*, a Three.js scene. It covers three parts.

**The layered post-processing pipeline.**
- Every drawable is tagged with a render layer (`NO_FX`, `GLOW`, `BLOOM`).
- Each frame, the main camera is switched between per-pass layer sets.
- A frame draws:
  - glow objects into a half-resolution glow target;
  - bloom objects into the bloom input;
  - a threshold-and-ping-pong-blur filter;
  - the main scene onto the screen;
  - an additive bloom overlay, with `autoClear` switched off around it.
- A separate composite pass can draw bloom and glow together, with the glow centred on the projected glow source.
- Resizes rebuild the full-screen planes only when the aspect ratio moves by more than 0.01.
- Destroy releases every GPU resource.

**The background-music controller (`AudioManager`).** Play, pause, toggle, clamped volume, mute and unmute. It also drives the intro narration.

**The intro narration (`IntroSequence`).** A time-keyed caption table looked up on every `timeupdate`, plus the flags and start timer that decide whether `play()` starts the narration or resumes it.

Three.js is replaced by module `Gpu`:
- A camera's layer mask is a `set<int>` with Three.js `Layers` semantics.
- Render targets, plane geometries and shader materials are objects compared by identity.
- The renderer keeps one append-only log of what it was asked to do:
  - bind a target, clear, draw the scene through a mask, draw a full-screen quad, toggle `autoClear`;
  - resize a target, dispose a resource.
- A quad draw records the uniforms it samples.

Pass order, the target bound at each draw, what each draw reads, and every disposal are therefore stated on that log. Each pass is a class with the source's fields. Its methods are proved to append exactly a trace given by a pure function (`FrameTrace`, `BloomTrace`, `PingPong`, `ResizeTrace`, `Disposals`), and the lemmas prove the source's promises about those functions.

The audio and caption classes are classes over an `AudioElement` stand-in (module `Media`). Each method is proved to move the class's `State()` by a pure transition function (`Intro.Played`, `Audio.Muted`, …). The lemmas are stated on those functions.

Some things reach the model as parameters or event methods:
- the browser's timers, media events and play promises;
- the viewport (`Sizes`);
- the projected glow-source position.

Module layout:

| file | module | models |
|---|---|---|
| `wrappers.dfy` | `Wrappers` | `Option` |
| `gpu.dfy` | `Gpu` | camera layers, GPU resources, renderer log |
| `layer_config.dfy` | `LayerConfig` | `LayerConfig.util.js` |
| `quad.dfy` | `Quad` | ortho bounds and the aspect-epsilon rule shared by the pipeline and the composite pass |
| `sizes.dfy` | `Viewport` | the viewport the passes read |
| `glow_pass.dfy` | `Glow` | `GlowPass.class.js` |
| `bloom_pass.dfy` | `Bloom` | `BloomPass.class.js` |
| `composite_pass.dfy` | `Composite` | `CompositePass.class.js` |
| `post_processing.dfy` | `PostProcess` | `PostProcessing.class.js` |
| `render_pipeline.dfy` | `Pipeline` | `RenderPipeline.class.js` |
| `media.dfy` | `Media` | the `HTMLAudioElement` stand-in |
| `intro_sequence.dfy` | `Intro` | `IntroSequence.class.js` |
| `audio_manager.dfy` | `Audio` | `AudioManager.class.js` |

## Model

| member | source | states |
|---|---|---|
| LayerConfig.AllLayers | src/Game/PostProcessing/LayerConfig.util.js:3-7 | the three layer ids are pairwise distinct and include `NO_FX`, `GLOW` and `BLOOM` |
| LayerConfig.PassLayers | src/Game/PostProcessing/LayerConfig.util.js:10-14 | every pass lists distinct layers, all values of `LAYERS`; the glow capture shows exactly `{GLOW}`; the main scene never shows `GLOW`; the bloom render and the main scene both show `BLOOM` |
| LayerConfig.LayerPartition | src/Game/PostProcessing/LayerConfig.util.js:10-14 | a glow object is visible in a pass iff it is the glow capture; a bloom object iff it is not; an untagged object iff it is the main scene |
| LayerConfig.BloomWithinMain | src/Game/PostProcessing/LayerConfig.util.js:12-13 | the bloom-render layers are a subset of the main-scene layers |
| Quad.OrthoBounds | src/Game/Core/RenderPipeline.class.js:124-128 | the bounds are symmetric, `aspect` wide and 1 high (`±aspect/2`, `±1/2`) |
| Quad.RegenerationSettles | src/Game/Core/RenderPipeline.class.js:133 | a plane rebuilt for a non-zero aspect is kept by another resize at the same aspect |
| Quad.PlaneTracksAspect | src/Game/Core/RenderPipeline.class.js:132-137 | whichever branch is taken, the plane's width ends within 0.01 of the new aspect |
| Gpu.Camera.EnableEach | src/Game/PostProcessing/PostProcessing.class.js:21-23 | enabling each listed layer adds exactly the listed layers and removes none |
| Glow.GlowDimension | src/Game/PostProcessing/Passes/GlowPass.class.js:13-14 | the size is at least 1; for `n >= 2` it is `floor(n/2)`; a viewport of 0 or 1 pixels gives 1 |
| Glow.GlowPass.constructor | src/Game/PostProcessing/Passes/GlowPass.class.js:5-26 | one fresh target of the clamped half size of the viewport |
| Glow.GlowPass.Resize | src/Game/PostProcessing/Passes/GlowPass.class.js:28-32 | the target takes the size the constructor formula gives for the current viewport (so resizes are idempotent and never drift); one resize event is logged; the bound target and `autoClear` are unchanged |
| Glow.GlowPass.Destroy | src/Game/PostProcessing/Passes/GlowPass.class.js:34-36 | the log gains exactly one disposal, of the target |
| Bloom.BloomDimension | src/Game/PostProcessing/Passes/BloomPass.class.js:37-38 | the size is `floor(n/2)` with no lower clamp, so 1 gives 0 |
| Bloom.PingPong | src/Game/PostProcessing/Passes/BloomPass.class.js:114-132 | `k` blur draws make `2k` events |
| Bloom.PingPongSnoc | src/Game/PostProcessing/Passes/BloomPass.class.js:114-132 | draw `k+1` reads the target holding draw `k`'s result, writes the other, and runs in the direction of `k`'s parity |
| Bloom.PingPongRound | src/Game/PostProcessing/Passes/BloomPass.class.js:116-131 | after every full iteration (two swaps) the read target is back where it started; the next iteration is a horizontal draw `rt2 -> rt1`, then a vertical draw `rt1 -> rt2` |
| Bloom.PingPongAt | src/Game/PostProcessing/Passes/BloomPass.class.js:116-128 | the `j`-th blur draw binds and writes one target, samples the other, in the direction of `j`'s parity |
| Bloom.PingPongDraws | src/Game/PostProcessing/Passes/BloomPass.class.js:114-132 | the blur loop issues exactly one draw per blur step |
| Bloom.BloomDraws | src/Game/PostProcessing/Passes/BloomPass.class.js:186 | `render()` issues exactly `1 + 2 * iterations` draws for every iteration count; the debug pane's readout matches this only for the default `iterations = 2` |
| Bloom.BloomStartsWithThreshold | src/Game/PostProcessing/Passes/BloomPass.class.js:99-105 | the first draw samples `renderTarget1` through the threshold uniforms and writes `renderTarget2` |
| Bloom.BloomNoFeedback | src/Game/PostProcessing/Passes/BloomPass.class.js:111-132 | with distinct targets, no draw of `render()` samples the target it writes |
| Bloom.BloomTargets | src/Game/PostProcessing/Passes/BloomPass.class.js:104-128 | `render()` only binds and draws into its own two targets |
| Bloom.BloomDirections | src/Game/PostProcessing/Passes/BloomPass.class.js:117-126 | in each iteration the first blur is horizontal, `(radius, 0)`, and the second vertical, `(0, radius)` |
| Bloom.BloomEndsInTarget2 | src/Game/PostProcessing/Passes/BloomPass.class.js:114-135 | for every `iterations`, 0 included, the last draw writes `renderTarget2`, which is the final read target |
| Bloom.BloomPass.constructor | src/Game/PostProcessing/Passes/BloomPass.class.js:8-94 | the default tunables; two fresh, distinct targets of the unclamped half size; `uResolution` equals their size; the result target starts as `renderTarget2`; a 2 x 2 quad |
| Bloom.BloomPass.Render | src/Game/PostProcessing/Passes/BloomPass.class.js:96-136 | the log gains exactly the threshold-then-ping-pong trace; the result target is `renderTarget2`; the threshold uniforms hold the current tunables; `autoClear` is unchanged |
| Bloom.BloomPass.PingPongBlur | src/Game/PostProcessing/Passes/BloomPass.class.js:107-132 | the loop issues `2 * iterations` alternating blur draws and returns `renderTarget2` as the final read target |
| Bloom.BloomPass.ThresholdInto | src/Game/PostProcessing/Passes/BloomPass.class.js:99-105 | binds the output and draws the threshold quad sampling `renderTarget1` with the current threshold and smoothing |
| Bloom.BloomPass.BlurInto | src/Game/PostProcessing/Passes/BloomPass.class.js:116-119 | binds `write` and draws the blur quad sampling `read` in the given direction |
| Bloom.BloomPass.Resize | src/Game/PostProcessing/Passes/BloomPass.class.js:138-145 | both targets take the unclamped half size of the current viewport and stay equal; `uResolution` follows; two resize events are logged |
| Bloom.BloomPass.Destroy | src/Game/PostProcessing/Passes/BloomPass.class.js:193-199 | both targets, both materials and the quad geometry are disposed, in that order |
| Composite.NdcUvBijection | src/Game/PostProcessing/Passes/CompositePass.class.js:104-107 | `(x+1)/2` maps the NDC square [-1,1]^2 exactly onto the UV square [0,1]^2, and `2u-1` inverts it both ways |
| Composite.CompositePass.constructor | src/Game/PostProcessing/Passes/CompositePass.class.js:8-88 | defaults `bloomEnabled`, `glowEnabled`, 24 samples mirrored in the uniforms; `uMeshCenter` (0.5, 0.5); bounds for the current aspect; an `aspect` x 1 plane; wired to the given bloom and glow passes |
| Composite.CompositePass.RenderCombined | src/Game/PostProcessing/Passes/CompositePass.class.js:90-114 | exactly one draw, to the screen, whatever the enable flags; it samples exactly the bloom pass's result target and the glow target; `uMeshCenter` becomes the source's UV iff glow is enabled and a source exists, and is otherwise kept |
| Composite.CompositePass.SetBloomEnabled | src/Game/PostProcessing/Passes/CompositePass.class.js:119-129 | the tunable and its uniform take the new value together |
| Composite.CompositePass.SetGlowEnabled | src/Game/PostProcessing/Passes/CompositePass.class.js:131-141 | the tunable and its uniform take the new value together |
| Composite.CompositePass.SetGlowSamples | src/Game/PostProcessing/Passes/CompositePass.class.js:143-156 | the tunable and its uniform take the new value together |
| Composite.CompositePass.Resize | src/Game/PostProcessing/Passes/CompositePass.class.js:173-189 | bounds follow the aspect; the plane is rebuilt iff no non-zero aspect was recorded or the aspect moved by more than 0.01, and then the old plane is disposed first; the width ends within 0.01 of the aspect, and for a non-zero aspect another resize at the same aspect rebuilds nothing |
| Composite.CompositePass.Destroy | src/Game/PostProcessing/Passes/CompositePass.class.js:191-194 | the current plane and the material are disposed, in that order |
| PostProcess.PostProcessing.constructor | src/Game/PostProcessing/PostProcessing.class.js:8-18 | the camera gains every `LAYERS` value and loses none; the composite is wired to the container's own glow and bloom instances; all passes are valid and share the viewport and renderer |
| PostProcess.PostProcessing.SetCameraLayers | src/Game/PostProcessing/PostProcessing.class.js:20-24 | the mask gains exactly the listed layers |
| PostProcess.PostProcessing.Resize | src/Game/PostProcessing/PostProcessing.class.js:26-30 | glow, bloom and composite are resized once each, in that order (the log is their three traces in turn); each pass's size and plane postconditions hold; the composite plane is rebuilt (fresh, aspect recorded) iff the epsilon rule says so, otherwise the plane and the recorded aspect are unchanged; for a non-zero aspect another resize at the same aspect rebuilds nothing |
| PostProcess.PostProcessing.Destroy | src/Game/PostProcessing/PostProcessing.class.js:32-36 | the log gains the glow, bloom and composite disposals, in that order |
| PostProcess.PostProcessing.DestroyReleasesEachOnce | src/Game/PostProcessing/PostProcessing.class.js:32-36 | a destroy disposes every owned resource exactly once and nothing else |
| Pipeline.SortedKey | src/Game/Core/RenderPipeline.class.js:76 | the key is sorted and has the same elements as the list |
| Pipeline.KeyOrderIndependent | src/Game/Core/RenderPipeline.class.js:76 | two lists have the same key iff they are permutations of each other |
| Pipeline.KeyDeterminesLayers | src/Game/Core/RenderPipeline.class.js:76-87 | lists with equal keys name the same layer set, so skipping the switch on an equal key is sound |
| Pipeline.FrameLayout | src/Game/Core/RenderPipeline.class.js:91-118 | the frame's fixed order: glow pass, bloom-input pass, bloom filter, main pass to the screen, overlay; each event at its index |
| Pipeline.FrameScenes | src/Game/Core/RenderPipeline.class.js:93-111 | the only scene draws of a frame are the three scene passes |
| Pipeline.FrameScenesCleared | src/Game/Core/RenderPipeline.class.js:93-111 | every scene draw comes immediately after a clear of its own target |
| Pipeline.FrameVisibility | src/Game/Core/RenderPipeline.class.js:93-111 | glow objects reach only the glow target; bloom objects reach the bloom input and the screen; untagged objects reach only the screen |
| Pipeline.FrameDraws | src/Game/Core/RenderPipeline.class.js:91-118 | a frame issues `5 + 2 * iterations` draws |
| Pipeline.FrameGlowDrawnOnce | src/Game/Core/RenderPipeline.class.js:93-96 | the glow target receives exactly one draw per frame |
| Pipeline.FrameOverlayReadsBloom | src/Game/Core/RenderPipeline.class.js:105-117 | the overlay samples `renderTarget2` after the same frame's bloom filter last wrote it; the overlay is drawn with `autoClear` off, and the frame ends with it on |
| Pipeline.FrameNoFeedback | src/Game/Core/RenderPipeline.class.js:91-118 | no quad draw of a frame samples the target it writes |
| Pipeline.RenderPipeline.constructor | src/Game/Core/RenderPipeline.class.js:7-66 | no cached key (so the first switch always happens); every layer enabled; overlay bounds and plane for the current aspect; nothing drawn |
| Pipeline.RenderPipeline.SetCameraToLayers | src/Game/Core/RenderPipeline.class.js:75-89 | the key is cached; an equal cached key leaves the camera untouched; otherwise the mask becomes exactly the listed layers; a coherent cache stays coherent and the mask equals the listed layers |
| Pipeline.RenderPipeline.ScenePassStep | src/Game/Core/RenderPipeline.class.js:93-96 | the camera shows exactly the pass's layers; the target is bound, cleared and drawn once |
| Pipeline.RenderPipeline.Render | src/Game/Core/RenderPipeline.class.js:91-118 | the log gains exactly `FrameTrace`; afterwards `autoClear` is on, the screen is bound, the camera shows the main-scene layers, and the overlay uniform holds the bloom result |
| Pipeline.RenderPipeline.OffscreenPasses | src/Game/Core/RenderPipeline.class.js:92-105 | the glow pass, the bloom-input pass and the bloom filter, in that order |
| Pipeline.RenderPipeline.ScreenPasses | src/Game/Core/RenderPipeline.class.js:107-117 | the main pass to the screen, then the overlay with `autoClear` off around it |
| Pipeline.RenderPipeline.Resize | src/Game/Core/RenderPipeline.class.js:120-138 | the passes are resized first, then the overlay bounds; the overlay plane is rebuilt (old one disposed first) iff the epsilon rule says so; its width ends within 0.01 of the aspect; the composite plane is rebuilt (fresh, aspect recorded) iff the epsilon rule says so, otherwise it and its recorded aspect are unchanged; for a non-zero aspect another resize at the same aspect rebuilds neither plane |
| Pipeline.RenderPipeline.ReframeOverlay | src/Game/Core/RenderPipeline.class.js:123-137 | bounds `±aspect/2`, `±1/2`; plane rebuilt iff the epsilon rule says so |
| Pipeline.RenderPipeline.Destroy | src/Game/Core/RenderPipeline.class.js:140-144 | the passes' disposals, then the overlay's geometry and material |
| Pipeline.RenderPipeline.DestroyReleasesEachOnce | src/Game/Core/RenderPipeline.class.js:140-144 | a destroy disposes every resource of the pipeline exactly once and nothing else |
| Intro.FindFrom | src/Game/World/Components/IntroSequence/IntroSequence.class.js:202-212 | the scan from `i` returns the first covering caption at or after `i`, or -1 iff none covers `t` |
| Intro.FindCaption | src/Game/World/Components/IntroSequence/IntroSequence.class.js:202-212 | the lookup returns the first caption with `start <= t < end`, or -1 iff there is none |
| Intro.CaptionSpansNonEmpty | src/Game/World/Components/IntroSequence/IntroSequence.class.js:10-30 | every caption of the narration has `start < end` |
| Intro.CaptionSpansChained | src/Game/World/Components/IntroSequence/IntroSequence.class.js:10-30 | every caption of the narration ends where the next starts |
| Intro.CaptionTableShape | src/Game/World/Components/IntroSequence/IntroSequence.class.js:10-30 | the 19 captions are non-empty, each ends where the next starts, from 0 to 71 |
| Intro.ContiguousCoverage | src/Game/World/Components/IntroSequence/IntroSequence.class.js:202-218 | over a contiguous table the lookup succeeds iff `t` is within the table's span, and the caption it returns is the only one covering `t` |
| Intro.CaptionAtEveryMoment | src/Game/World/Components/IntroSequence/IntroSequence.class.js:10-30 | every `t` in [0, 71) lies in exactly one caption, and no `t` outside it lies in any |
| Intro.Started | src/Game/World/Components/IntroSequence/IntroSequence.class.js:142-157 | after the corrected start, exactly one timer is armed besides those already orphaned, and it is the held one, so a later stop can clear it; the orphans are kept and nothing else in the state changes |
| Intro.PauseOnlyWhenPlaying | src/Game/World/Components/IntroSequence/IntroSequence.class.js:159-164 | `pause()` acts iff there is an element and it is playing; it never changes `isPlaying` itself |
| Intro.PlayStartsOrResumes | src/Game/World/Components/IntroSequence/IntroSequence.class.js:166-176 | `play()` acts only on a present, paused element; before the first playthrough it arms the start timer without touching the element; afterwards it resumes the element at once |
| Intro.StopResets | src/Game/World/Components/IntroSequence/IntroSequence.class.js:178-191 | the held timer is cleared; with an element, it is rewound to 0, both flags are cleared and the caption hidden; the caption index is not reset |
| Intro.DestroyQuiesces | src/Game/World/Components/IntroSequence/IntroSequence.class.js:255-264 | after destroy there is no element and the held timer is disarmed, so only orphaned timers stay armed; later pause and play requests change nothing; flags, caption index and captions are kept |
| Intro.EndThenPlayResumes | src/Game/World/Components/IntroSequence/IntroSequence.class.js:250-253 | after `ended`, `play()` resumes the element instead of arming the start timer |
| Intro.UpdateIdempotent | src/Game/World/Components/IntroSequence/IntroSequence.class.js:206-209 | a second update at the same time announces nothing |
| Intro.UpdateTracksNarration | src/Game/World/Components/IntroSequence/IntroSequence.class.js:198-219 | inside the table's span the index settles on the one covering caption, shown iff the index changed; outside the span the index becomes -1, hidden iff it was not already -1 |
| Intro.StopMissesOrphanedTimer | src/Game/World/Components/IntroSequence/IntroSequence.class.js:142-157 | as written, restart, the play promise's start, then a stop leave one armed timer without a handle; when it fires after the stop it asks the element to play |
| Intro.StartedAsWritten | src/Game/World/Components/IntroSequence/IntroSequence.class.js:142-157 | as written, every start leaves one armed, held timer and adds it to those already armed, cancelling none; nothing else in the state changes |
| Intro.StopCancelsPendingStart | src/Game/World/Components/IntroSequence/IntroSequence.class.js:178-182 | with the corrected start, repeated starts orphan nothing and a stop leaves no start timer armed |
| Intro.IntroSequence.constructor | src/Game/World/Components/IntroSequence/IntroSequence.class.js:2-34 | the full caption table; a fresh element at volume 0.7; not playing, not played, index -1, no timer, nothing shown |
| Intro.IntroSequence.Start | src/Game/World/Components/IntroSequence/IntroSequence.class.js:142-157 | the state moves by `Started`: one armed start timer, held |
| Intro.IntroSequence.Pause | src/Game/World/Components/IntroSequence/IntroSequence.class.js:159-164 | the state moves by `Paused` |
| Intro.IntroSequence.Play | src/Game/World/Components/IntroSequence/IntroSequence.class.js:166-176 | the state moves by `Played` |
| Intro.IntroSequence.Stop | src/Game/World/Components/IntroSequence/IntroSequence.class.js:178-191 | the state moves by `Stopped`; with the corrected start, no timer is left armed |
| Intro.IntroSequence.Restart | src/Game/World/Components/IntroSequence/IntroSequence.class.js:193-196 | the state moves by a stop, then a start |
| Intro.IntroSequence.UpdateCaption | src/Game/World/Components/IntroSequence/IntroSequence.class.js:198-219 | the loop's result is the first covering caption (`Updated` over the table); the index and overlay change as `UpdateTracksNarration` states |
| Intro.IntroSequence.End | src/Game/World/Components/IntroSequence/IntroSequence.class.js:250-253 | the caption is hidden and `hasPlayed` set |
| Intro.IntroSequence.OnPlay | src/Game/World/Components/IntroSequence/IntroSequence.class.js:133-135 | the element's `play` event sets `isPlaying`, nothing else |
| Intro.IntroSequence.OnPause | src/Game/World/Components/IntroSequence/IntroSequence.class.js:137-139 | the element's `pause` event clears `isPlaying`, nothing else |
| Intro.IntroSequence.OnStartTimer | src/Game/World/Components/IntroSequence/IntroSequence.class.js:144-145 | the start timer fires: it is disarmed and the element is asked to play |
| Intro.IntroSequence.OnStartResolved | src/Game/World/Components/IntroSequence/IntroSequence.class.js:149-151 | the start's play promise resolves: `hasPlayed` is set |
| Intro.IntroSequence.Destroy | src/Game/World/Components/IntroSequence/IntroSequence.class.js:255-264 | the held timer is cleared (its handle kept); the element is paused and dropped |
| Audio.Clamp | src/Game/Utils/AudioManager.class.js:70 | the result is in [0, 1], is `v` when `v` is, and the nearer bound otherwise |
| Audio.NoAudioNoOp | src/Game/Utils/AudioManager.class.js:25-107 | with no element, play, pause, setVolume, mute, unmute, toggleMute, stop and destroy change nothing |
| Audio.VolumeClamped | src/Game/Utils/AudioManager.class.js:67-72 | the clamped value goes to both the stored and the element's volume; the mute flag is kept, so a positive volume set while muted is audible although `isMuted` stays true |
| Audio.MuteKeepsVolume | src/Game/Utils/AudioManager.class.js:74-96 | mute silences the element but keeps the stored volume; unmute restores it |
| Audio.ToggleMuteTwice | src/Game/Utils/AudioManager.class.js:98-104 | two mute toggles restore the flag and the stored volume |
| Audio.OnlyResolutionPlays | src/Game/Utils/AudioManager.class.js:25-57 | only the play promise's resolution turns `isPlaying` on; no other operation does |
| Audio.TogglePausesOrPlays | src/Game/Utils/AudioManager.class.js:59-65 | `toggle()` pauses a playing controller and requests playback otherwise |
| Audio.RestartRewinds | src/Game/Utils/AudioManager.class.js:118-127 | the element is rewound, paused then asked to play; the intro is left with its start timer armed and, when it has an element, not yet played |
| Audio.RestartResolveStopDisarms | src/Game/Utils/AudioManager.class.js:118-127 | with the corrected start, a restart, the play promise's resolution and a stop leave no intro timer armed |
| Audio.DestroyDropsAudio | src/Game/Utils/AudioManager.class.js:129-134 | no element remains; a loaded controller is stopped first: not playing, its element asked to pause and rewound to 0 with volume and loop kept, the intro paused then stopped; the stored volume and mute flag are kept |
| Audio.AudioManager.constructor | src/Game/Utils/AudioManager.class.js:2-8 | no element, not playing, not muted, volume 0.5, no intro |
| Audio.AudioManager.SetIntroSequence | src/Game/Utils/AudioManager.class.js:10-12 | only the intro changes |
| Audio.AudioManager.Init | src/Game/Utils/AudioManager.class.js:14-23 | a fresh looping element at the stored volume |
| Audio.AudioManager.Play | src/Game/Utils/AudioManager.class.js:25-45 | the state moves by `Played`: one play request, `isPlaying` unchanged |
| Audio.AudioManager.OnPlayResolved | src/Game/Utils/AudioManager.class.js:32-38 | the state moves by `PlayResolved`: playing, and the intro's start timer armed |
| Audio.AudioManager.Pause | src/Game/Utils/AudioManager.class.js:47-57 | the state moves by `Paused`: a pause request, not playing, the intro paused |
| Audio.AudioManager.Toggle | src/Game/Utils/AudioManager.class.js:59-65 | the state moves by `Toggled` |
| Audio.AudioManager.SetVolume | src/Game/Utils/AudioManager.class.js:67-72 | the state moves by `VolumeSet` |
| Audio.AudioManager.Mute | src/Game/Utils/AudioManager.class.js:74-84 | the state moves by `Muted` |
| Audio.AudioManager.Unmute | src/Game/Utils/AudioManager.class.js:86-96 | the state moves by `Unmuted` |
| Audio.AudioManager.ToggleMute | src/Game/Utils/AudioManager.class.js:98-104 | the state moves by `MuteToggled` |
| Audio.AudioManager.Stop | src/Game/Utils/AudioManager.class.js:106-116 | the state moves by `Stopped`: paused, rewound, the intro stopped |
| Audio.AudioManager.Restart | src/Game/Utils/AudioManager.class.js:118-127 | the state moves by `Restarted` |
| Audio.AudioManager.Destroy | src/Game/Utils/AudioManager.class.js:129-134 | the state moves by `Destroyed`; the element it drops has been asked to pause and rewound to 0, and is left exactly as `Stopped` leaves it |

## Left out

- GLSL shader content (threshold, blur kernel, composite shader): the shaders are imported, not part of this model. Draws record their uniforms, not pixels.
- Three.js internals: render targets, `render`, `setSize`, `dispose`, plane geometry and camera matrices are abstract log events or objects. Only identity and size are modelled. The orthographic cameras' near/far planes and position are not.
- Floating point: aspect, UV, time, volume and tunables are `real`. NaN, infinities and rounding are not modelled.
- Layer numbers: Three.js `Layers` is a 32-bit mask, so layers outside 0..31 behave differently. The model's mask is an unbounded `set<int>`.
- Pipeline.SortedKey: the source sorts the layers as strings and joins them with commas. The model keeps the numerically sorted list. Both keys are equal iff the lists are permutations of each other, which is all the cache relies on; the key's text is not modelled.
- `RenderPipeline.cachedLayerMasks` (src/Game/Core/RenderPipeline.class.js:68-73) is filled but never read. It is not modelled.
- `RenderPipeline.currentLayerMask` (src/Game/Core/RenderPipeline.class.js:16) is set to null and never read. It is not modelled.
- The bloom debug pane's "Bloom Passes" readout (src/Game/PostProcessing/Passes/BloomPass.class.js:185-189) is computed once, when the pane is built, from the default `iterations = 2`. It stays at 5 after the Iterations slider changes `iterations`. The readout is not modelled; `Bloom.BloomDraws` gives the count `render()` actually draws.
- `CompositePass.renderCombined` is modelled as written. `RenderPipeline.render` never calls it and draws its own bloom-only overlay instead.
- The composite's glow colour (`colorParams`, `uColorMultiplier` and its debug binding) is left out: it is a colour constant with no logic.
- The bloom debug pane binds the tunables directly to `params`. The model keeps the tunables as fields with no setter, and `render()` reads them.
- Composite.CompositePass.RenderCombined: the projection of the glow source's world position is done outside the model. The method receives the projected NDC position, or none when the source is absent.
- `Sizes.class.js` is not part of this model. The viewport's width, height and aspect are the fields of a `Viewport.Sizes` object that the passes read.
- The `Game` singleton is replaced by constructor parameters (camera, viewport, renderer).
- Material flags (transparency, additive blending, depth flags) are not modelled. The `Scene` objects that hold the quads are not modelled either.
- PostProcess.PostProcessing.constructor: the camera layers are enabled after the passes are built, not before. The pass constructors touch neither the camera nor the renderer, so the resulting state is the same.
- Bloom.BloomPass.Render, PostProcess.PostProcessing.Resize, Pipeline.RenderPipeline.Render and the other pass methods require the pass invariant `Valid()`. It is established by the constructors and preserved by every method. Distinct resources are a fact about the source's `new` calls, not a demand on callers.
- Pipeline.RenderPipeline.Destroy and PostProcess.PostProcessing.Destroy require the passes to share the renderer. The source gets this from the `Game` singleton.
- Intro.IntroSequence.UpdateCaption: requires an element. The source reads `audio.currentTime` and would throw without one. It is only called from the element's own `timeupdate` event.
- Audio.AudioManager.SetIntroSequence: requires the intro to satisfy its invariant and to own a different element from the controller's. The intro always creates its own element in its constructor.
- Intro.IntroSequence.Start: modelled with the corrected timer handling described under Findings. The as-written start is `Intro.StartedAsWritten`.
- Intro.IntroSequence.Play: reaches `start()` through the corrected `Intro.Started`, so a start while a held timer is armed cancels it where the source orphans it (see Findings).
- Audio.AudioManager.OnPlayResolved: reaches the intro's `start()` through the corrected `Intro.Started`, so the start timer that `restart()` armed is cancelled where the source orphans it (see Findings).
- Audio.AudioManager.Unmute: reaches the intro's `play()`, and so `start()`, through the corrected `Intro.Started`; an armed start timer is cancelled where the source orphans it (see Findings).
- Audio.AudioManager.ToggleMute: unmuting goes through `Audio.AudioManager.Unmute` and the corrected `Intro.Started`; an armed start timer is cancelled where the source orphans it (see Findings).
- Browser side of the audio and caption classes:
  - DOM creation, styling, the CSS fades and the 400 ms caption swap are left out;
  - the caption overlay is reduced to the ordered show and hide requests;
  - `destroy()`'s removal of the caption elements from the page is left out.
- Timers, media events and promises are event methods (`OnStartTimer`, `OnPlay`, `OnPause`, `End`, `OnStartResolved`, `OnPlayResolved`) that the environment fires. The 3 s delay, the `catch` branches (`console.warn`) and the audio `error` listener only log, and are not modelled. The case where `play()` returns no promise is not modelled either.
- `AudioElement` records `play()`/`pause()` requests, and `currentTime` is set by the classes or by playback. Actual playback is not modelled.
- `Godrays.update` calls `compositePass.updateGlowUniforms`, which `CompositePass` does not define. The decorative scene components are not part of this model.

## Findings

| source | as written | input that shows it | evidently intended | confidence | as-written member | corrected member |
|---|---|---|---|---|---|---|
| src/Game/World/Components/IntroSequence/IntroSequence.class.js:142-157 | `start()` stores a new timeout in `startTimeout` without clearing the one it already holds, so an armed start timer can lose its handle. `stop()` and `destroy()` clear only the held handle. | `AudioManager.restart()`: the intro's `restart()` arms timer A. The music's play promise then resolves and calls the intro's `start()`, which arms timer B and overwrites A's handle. A `stop()` within 3 s clears only B. A still fires and plays the narration after the stop. (`unmute()` during the 3 s wait does the same through the intro's `play()`.) | a new start cancels any pending start, so `stop()` leaves no start timer armed | medium, not executed | Intro.StopMissesOrphanedTimer | Intro.StopCancelsPendingStart |
