# Particle generator: parameter, buffer and recording model

This project models the host-side state logic of a browser particle generator. It has two parts.

1. The `ParticleSystem` object (src/ParticleSystem.js):
   - the `params` record;
   - the four attribute buffers that `init` allocates and fills (`position`, `color`, `aScale`, `aRandomness`);
   - the three shader uniforms `uTime`, `uSize` and `uSpeed`;
   - the `Points` object it keeps in the scene;
   - the operations `init`, `update`, `regenerate` and `updateParams`.
2. The video-export state of src/main.js:
   - the `isRecording` flag and the `CCapture` capturer;
   - the `checkStop` closures that count frames;
   - `startExport` and `stopExport`;
   - the capture gate inside `tick`.

Modules, one concept each:

- `Wrappers`: `Option`.
- `Config`:
  - the parameter record and the `Defaults`;
  - a typed `Setting` for `updateParams(key, value)` and `Assign` for its store;
  - the partial record `Patch` and `Merge` for the spread `{ ...this.params, ...newParams }`.
- `Sampling`: what the fill loop of `init` writes, entry by entry, as functions of the random stream. The scale and randomness maps carry their ranges in their own contracts; lemmas give the ranges of the sampled radius and azimuth, the cosine of the polar angle, and place every sampled position inside the sphere.
- `Particles`: the class `ParticleSystem`.
  - Its buffers are filled in place, in `array`s, by the loop method `FillBuffers`.
  - Its methods are proved against `Valid()`: the buffers match the fill, the uniforms match the parameters, and the scene holds exactly the current `Points`.
- `Recording`: the recording state machine as values (`RecState`), with the run lemmas.
- `VideoExport`: the classes `Capturer` and `Recorder`. Each method's new state is the matching `Recording` function of the old one.

Foreign and environment inputs are parameters:

- The `Math.random()` calls of the fill loop are a stream `random: nat -> real` with a cursor `drawn`.
  - Each particle uses seven consecutive draws, in source order: radius, azimuth, polar angle, scale and three randomness components.
  - `UnitDraws(random)` states that the draws lie in [0, 1).
- `Math.cbrt`, `Math.sin`, `Math.cos`, `Math.acos` and `THREE.Color` are fields of a `Library` value.
  - `LibraryValid` states the facts the range lemmas need as hypotheses. It is the conjunction of `CbrtValid` (the cube root cubes back), `TrigValid` (sin² + cos² = 1) and `AcosValid` (cos(acos x) = x on [-1, 1]); each lemma requires only the ones it uses.
- `window.devicePixelRatio` is the constructor argument `dpr`.
- `requestAnimationFrame` callbacks are explicit `Frame()` events.
  - `tick` re-queues itself at the end of each frame. A `checkStop` closure is first queued by a click, between frames. So in every frame the capture gate of `tick` runs before the queued `checkStop` calls.
  - Closures queued during a frame wait for the next one.
- The scene is a ghost set of `Points` ids; the ids whose geometry and material were disposed are a second ghost set.

The model follows the code in these points:

- The default particle count is 5000 (src/ParticleSystem.js:4): `new ParticleSystem(dpr, lib, random)`, as src/main.js:44 calls it, builds 5000 particles.
- The source validates no parameter. The model's types let through every value of the right type, except that `count` is a natural number (see `Config.Params` under "## Left out").
- The old `Points` is removed and disposed before the new buffers are built.
- The `BufferGeometry` created by the constructor (line 7) is never disposed. The first `init` finds no `Points` and replaces that geometry without touching it.

A recording run started from idle works as follows:

- The first `checkStop` runs inside `startExport`.
- Frame `n` feeds the capturer its `n`-th frame. Then that frame's `checkStop` raises the counter to `n + 1`.
- The 301st call, in frame 300, stops and saves a capturer that holds exactly 300 frames (`Recording.RunEnds`).

`stopExport` is only called from `checkStop` in the source. It is modelled as an operation of its own so that its no-op-when-idle contract can be stated, and that exposes one more behaviour. If it were called from outside while a closure is still queued, a second `startExport` before the next frame would revive the old closure. The new run would then stop as soon as the old counter passed 300: after a stop with `f` frames fed, the restarted run ends after `300 - f` frames, holding `300 - f` frames (`Recording.StaleClosureStopsEarly`). The user interface never does this.

## Model

| member | source | states |
|---|---|---|
| `Config.Defaults` | src/ParticleSystem.js:11-18 | the record the constructor stores; `Particles.ParticleSystem.constructor` states it is the stored `params` |
| `Config.Assign` | src/ParticleSystem.js:130 | `params[key] = value` sets exactly the named key; every other key keeps its value |
| `Config.AssignIdempotent` | src/ParticleSystem.js:130 | storing the same setting twice is the same as storing it once |
| `Config.Merge` | src/ParticleSystem.js:125 | the spread merge: a key present in the patch takes the patch's value, every other key keeps the old one |
| `Config.MergeEmpty` | src/ParticleSystem.js:125 | merging an empty patch leaves the record unchanged |
| `Config.MergeFull` | src/ParticleSystem.js:125 | merging a patch that names every key yields that patch's record |
| `Config.MergeOneKey` | src/ParticleSystem.js:124-141 | `regenerate({key: value})` stores the same record as `updateParams(key, value)` |
| `Config.CheapSettingKeepsBaked` | src/ParticleSystem.js:137-140 | a key outside `count`, `radius`, `color` leaves count, radius and colour unchanged, so the buffers stay valid without a rebuild |
| `Sampling.SampledRadius` | src/ParticleSystem.js:42 | `radius * cbrt(u)`; `Sampling.SampledRadiusInRange` and `Sampling.SampledRadiusCubed` state its range and its distribution |
| `Sampling.SampledRadiusInRange` | src/ParticleSystem.js:42 | with a positive radius and a draw in [0, 1), the sampled distance lies in [0, radius) |
| `Sampling.Azimuth` | src/ParticleSystem.js:43 | `u * 2 * PI`; `Sampling.AzimuthInRange` states its range |
| `Sampling.AzimuthInRange` | src/ParticleSystem.js:43 | a draw in [0, 1) gives an azimuth in [0, 2π) |
| `Sampling.Polar` | src/ParticleSystem.js:44 | `acos(2u - 1)`; `Sampling.PolarCosine` states its cosine |
| `Sampling.PolarCosine` | src/ParticleSystem.js:44 | for a draw in [0, 1], the cosine of the polar angle is `2u - 1` |
| `Sampling.Cartesian` | src/ParticleSystem.js:46-48 | the spherical-to-Cartesian conversion; `Sampling.CartesianNorm` states that it keeps the distance |
| `Sampling.PositionOf` | src/ParticleSystem.js:42-48 | particle `i`'s position from draws 0-2 of its seven; `Sampling.PositionInsideSphere` states that it lies inside the sphere |
| `Sampling.ScaleOf` | src/ParticleSystem.js:54 | particle `i`'s scale is its fourth draw and lies in [0, 1) |
| `Sampling.JitterOf` | src/ParticleSystem.js:56-58 | particle `i`'s randomness vector from its last three draws; each component lies in [-1, 1) |
| `Sampling.Jitter` | src/ParticleSystem.js:56-58 | a draw in [0, 1) maps to a randomness component in [-1, 1) |
| `Sampling.PositionsLayout` | src/ParticleSystem.js:39-48 | triple `i` of the position buffer is particle `i`'s sampled position |
| `Sampling.ColorsLayout` | src/ParticleSystem.js:50-52 | triple `i` of the colour buffer is the parsed colour, for every `i` |
| `Sampling.JitterLayout` | src/ParticleSystem.js:56-58 | triple `i` of the randomness buffer is particle `i`'s three jitter draws |
| `Sampling.CbrtBelowOne` | src/ParticleSystem.js:42 | the cube root of a draw in [0, 1) lies in [0, 1) |
| `Sampling.SampledRadiusCubed` | src/ParticleSystem.js:42 | the cube of the sampled distance is the draw times radius³, which makes the distribution uniform by volume |
| `Sampling.CartesianNorm` | src/ParticleSystem.js:46-48 | the spherical-to-Cartesian conversion keeps the distance: x² + y² + z² = r² |
| `Sampling.PositionInsideSphere` | src/ParticleSystem.js:42-48 | every sampled position lies strictly inside the sphere of the configured radius |
| `Sampling.PolarHeightLinear` | src/ParticleSystem.js:44 | the `acos(2u - 1)` polar draw gives the height `z = r (2u - 1)` |
| `Sampling.JitterInRange` | src/ParticleSystem.js:56-58 | every randomness entry lies in [-1, 1) |
| `Particles.ParticleSystem.constructor` | src/ParticleSystem.js:4-21 | the default record (count from the argument, 5000 when it is left out, size 0.5, colour `#00ffff`, speed 1, radius 10, randomness 0.5), then `init`; `Valid()` holds and the scene holds one `Points` |
| `Particles.ParticleSystem.Init` | src/ParticleSystem.js:23-116 | `Valid()` afterwards; the buffer lengths are 3·count, 3·count, count, 3·count; the stream advances 7·count draws; `uTime` is 0, `uSize` is size·dpr, `uSpeed` is speed; the old `Points` is out of the scene and disposed; the new one is the only one in the scene; `params` is unchanged |
| `Particles.ParticleSystem.Retire` | src/ParticleSystem.js:24-28 | the current `Points`, if any, leaves the scene and joins the disposed set |
| `Particles.ParticleSystem.Refill` | src/ParticleSystem.js:30-64 | the four buffers are replaced by a fill from the current stream position |
| `Particles.ParticleSystem.ResetUniforms` | src/ParticleSystem.js:67-75 | `uTime = 0`, `uSize = params.size * dpr`, `uSpeed = params.speed` |
| `Particles.ParticleSystem.Show` | src/ParticleSystem.js:114-115 | a new `Points` with the next id becomes the only member of the scene |
| `Particles.ParticleSystem.Update` | src/ParticleSystem.js:118-122 | `uTime` becomes the elapsed time; nothing else may change |
| `Particles.ParticleSystem.Regenerate` | src/ParticleSystem.js:124-127 | `params` becomes the spread merge of the old record and the patch, followed by a full rebuild |
| `Particles.ParticleSystem.UpdateParams` | src/ParticleSystem.js:129-141 | the key is stored and the other keys keep their values; `size` sets `uSize = v * dpr` and `speed` sets `uSpeed = v`; `count`, `radius` and `color` rebuild; on every other path the buffers, `uTime`, the other uniform and the scene are unchanged |
| `Particles.WritePosition` | src/ParticleSystem.js:42-48 | writes triple `i` of the position buffer from three draws and leaves every other entry alone |
| `Particles.WriteColor` | src/ParticleSystem.js:50-52 | writes triple `i` of the colour buffer with the colour and leaves every other entry alone |
| `Particles.WriteScale` | src/ParticleSystem.js:54 | writes entry `i` of the scale buffer with particle `i`'s fourth draw and leaves every other entry alone |
| `Particles.WriteJitter` | src/ParticleSystem.js:56-58 | writes triple `i` of the randomness buffer from three draws and leaves every other entry alone |
| `Particles.FillBuffers` | src/ParticleSystem.js:31-59 | four fresh buffers of lengths 3n, 3n, n, 3n; every entry is what the loop writes for the stream from `k0`; the cursor ends 7n draws later |
| `Particles.ColorsUniform` | src/ParticleSystem.js:36-52 | every colour triple of a valid particle system is the parsed `params.color` |
| `Particles.ScalesBounded` | src/ParticleSystem.js:54 | every entry of `aScale` lies in [0, 1) |
| `Particles.JitterBounded` | src/ParticleSystem.js:56-58 | every entry of `aRandomness` lies in [-1, 1) |
| `Particles.PositionsInside` | src/ParticleSystem.js:42-48 | every position triple lies strictly inside the sphere of `params.radius` |
| `Particles.FillInside` | src/ParticleSystem.js:38-48 | buffers that match the fill place every position triple strictly inside the sphere of `params.radius`, whatever the uniforms and the scene |
| `Particles.SampledInside` | src/ParticleSystem.js:38-48 | a position buffer filled from the stream lies inside the sphere, triple by triple |
| `Recording.StopAndSave` | src/main.js:88-89 | the capturer is stopped and saved; the frames it holds are unchanged |
| `Recording.StopExport` | src/main.js:86-92 | a no-op when idle; otherwise the capturer is stopped and saved and `isRecording` becomes false |
| `Recording.CheckStop` | src/main.js:74-82 | a no-op when idle; otherwise the counter goes up; past 300 it calls `stopExport`, else it re-queues itself with the new count |
| `Recording.StartExport` | src/main.js:50-84 | a no-op while recording; from idle a fresh started capturer, `isRecording` true and the first `checkStop` already run (counter 1) |
| `Recording.Tick` | src/main.js:121-123 | the capturer is fed one frame if and only if `isRecording` holds and a capturer exists; otherwise nothing changes |
| `Recording.Idle` | src/main.js:47-48 | the page-load state (not recording, no capturer, nothing queued) is a reachable state |
| `Recording.Started` | src/main.js:54-67 | a constructed and started capturer: started, no frames, not stopped, not saved; `Recording.StartExport` and `Recording.RunInProgress` state what a run does with it |
| `Recording.Frame` | src/main.js:109-127 | one animation frame: the capture gate, then the closures queued during the previous frame; recording still implies a capturer; `Recording.FrameReachable` and `Recording.FrameStep` state its effect on reachable states |
| `Recording.StartExportReachable` | src/main.js:50-84 | `startExport` keeps the states reachable |
| `Recording.FrameReachable` | src/main.js:74-82 | an animation frame keeps the states reachable: while recording, one closure waits with a counter one above the frames fed |
| `Recording.FrameStep` | src/main.js:74-82 | from a recording state, one frame feeds one frame and then either re-queues the closure or stops and saves at 300 frames |
| `Recording.RunInProgress` | src/main.js:72-82 | after `n < 300` frames a run is still recording, with `n` frames fed and the counter at `n + 1` |
| `Recording.RunEnds` | src/main.js:77-79 | the run ends on the 301st `checkStop`, in frame 300, with exactly 300 frames fed, saved, and nothing queued |
| `Recording.IdleStaysIdle` | src/main.js:74-75 | once a run has ended, further frames change nothing |
| `Recording.StaleClosureStopsEarly` | src/main.js:72-92 | from any reachable recording state with `f` frames fed, an outside `stopExport` and then `startExport` leave the old closure queued before the new one; the old counter passes 300 first, so after `300 - f` frames the new run is stopped and saved with only `300 - f` frames, and nothing is queued |
| `VideoExport.Capturer.constructor` | src/main.js:54-65 | a new capturer: not started, no frames, not stopped, not saved |
| `VideoExport.Capturer.Start` | src/main.js:67 | `start()` marks the capturer started and changes nothing else |
| `VideoExport.Capturer.CaptureFrame` | src/main.js:122 | `capture(canvas)` adds one frame and changes nothing else |
| `VideoExport.Capturer.StopAndSave` | src/main.js:88-89 | `stop()` and `save()`, as `Recording.StopAndSave` |
| `VideoExport.Recorder.constructor` | src/main.js:47-48 | idle, no capturer, nothing queued |
| `VideoExport.Recorder.StopExport` | src/main.js:86-92 | the new state is `Recording.StopExport` of the old one |
| `VideoExport.Recorder.CheckStop` | src/main.js:74-82 | the new state is `Recording.CheckStop` of the old one and the closure's counter |
| `VideoExport.Recorder.StartExport` | src/main.js:50-84 | the new state is `Recording.StartExport` of the old one; a new run has a fresh capturer |
| `VideoExport.Recorder.Tick` | src/main.js:121-123 | the new state is `Recording.Tick` of the old one |
| `VideoExport.Recorder.Frame` | src/main.js:109-127 | the loop over the queued closures yields `Recording.Frame` of the old state |

## Left out

- Shaders: the vertex and fragment shader bodies (src/ParticleSystem.js:76-111) are GPU code with floating-point trigonometry and projection. The model keeps only the uniform values they read.
- Floating point: buffers are `real`. Float32 rounding of the stored values and the floating-point error of `Math.cbrt`, `sin`, `cos` and `acos` are not modelled. The sphere and range lemmas hold under the `LibraryValid` and `UnitDraws` hypotheses.
- `Sampling.SampledRadiusInRange`: requires a positive radius. With radius 0 every distance is 0, and the interval [0, 0) is empty.
- Foreign objects: hex colour parsing inside `THREE.Color` is the abstract `parseColor`. The `BufferGeometry`, `BufferAttribute`, `ShaderMaterial` and `Points` constructors are represented by the new buffers, the uniforms and a fresh id.
- Buffers after the fill: the class holds them as sequences. Nothing writes them after `init`, so no aliasing is lost. The fill itself works in place on arrays (`Particles.FillBuffers`).
- Material guards: the `this.material` checks of `update` and `updateParams` (src/ParticleSystem.js:119, 131, 134) are not separate branches. The constructor always runs `init`, so the material exists in every state the methods can see; they require `Valid()`.
- `Particles.ParticleSystem.UpdateParams`: takes a typed `Setting` for the six record keys, so two kinds of call are not modelled. A call with an unknown key adds a field of that name to `params` with no other effect. A call with a known key and a value of another type is not harmless: the dispatch at src/ParticleSystem.js:131-139 tests only the key, so the value is stored and then used. `updateParams('count', '2000')` runs `init`, where `new Float32Array('2000' * 3)` coerces the string, and `updateParams('size', '2')` writes `uSize = '2' * devicePixelRatio`.
- `Config.Params`: `count` is a `nat`, so a negative or fractional count, given to the constructor, `regenerate` or `updateParams`, is not modelled. In the source a negative count makes `new Float32Array` (src/ParticleSystem.js:31) throw a `RangeError` inside `init`, and a fractional one makes the buffer lengths differ from the number of loop iterations.
- `window.devicePixelRatio`: the source reads it again at each `init` (src/ParticleSystem.js:73) and each `updateParams('size', …)` (src/ParticleSystem.js:132). The model fixes `dpr` when the object is constructed, and `Valid()`'s `uSize == params.size * dpr` depends on that. A ratio that changes during the object's life, such as a window moved to another screen, is not modelled.
- The stale `this.count` field (src/ParticleSystem.js:6) is set once and never read, so it is not modelled.
- `Recording.Frame`: only the recording part of `tick`. The clock, `particleSystem.update` (modelled as `Particles.ParticleSystem.Update`), rendering and `Stats` are left out.
- Rendering and I/O plumbing in src/main.js: the renderer, `EffectComposer` and bloom pass, fog, camera, resize handler, `Stats` and `console.log`.
- CCapture encoding and the webm download are a foreign byte sink. The model keeps only the started, stopped and saved flags and the number of frames fed.
- CCapture's timing hooks: CCapture is not part of this model. Its `start()` replaces `window.requestAnimationFrame`, `setTimeout` and `Date.now` until `stop()`, and runs the queued callbacks from inside `capture()`. `Recording.Frame` and the frame order it fixes (the capture gate of `tick` before the queued `checkStop` calls) describe the browser's own `requestAnimationFrame`. `Recording.RunEnds`' "exactly 300 frames" holds for that scheduling; under the hooked scheduler, where `tick` re-queues itself (src/main.js:126) after `capture` (src/main.js:122), the order of callbacks, and whether the loop keeps running, are not modelled.
- The shared random stream: three.js is not part of this model. Its `BufferGeometry`, `ShaderMaterial` and `Points` constructors (src/ParticleSystem.js:7, 30, 67, 114) also call `Math.random` for their UUIDs. `random` is only the subsequence of draws the fill loop sees, so `base == old(drawn)` and the advance of 7·count draws in `Particles.ParticleSystem.Init` count only those draws.
- `Particles.ParticleSystem.Regenerate`: takes a typed `Config.Patch`, an optional value for each of the six record keys. The spread at src/ParticleSystem.js:125 also overwrites a key with an explicitly `undefined` value and adds keys outside the six; neither is expressible in the model.
- src/ui.js is DOM construction and event wiring. It calls `updateParams` with the keys `count`, `size`, `speed`, `radius` and `color`, and `startExport` from the export button. Its `parseFloat` and JSON config download are browser I/O.
- capture_screenshots.js is not part of this model: it is a Puppeteer script that drives the page through a browser.
