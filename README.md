# Liquid light show: a verified model of its control logic

The application is a browser visual: a GPU fluid solver is stirred by the
pointer, by touch, or by an idle "auto" animation, and its display reacts to
the microphone. Its numerical kernels are GLSL fragment shaders. Around them
the TypeScript keeps a set of small state machines, and this project models
those and proves what they promise:

- **`Simulation`** (src/simulation/FluidSimulation.ts) models the solver object.
  - It owns seven render targets. Six of them form three read/write ping-pong pairs (velocity, dye, pressure); the seventh is a divergence buffer.
  - One `step` runs a fixed sequence of full-screen passes, swapping a pair after each write into it. `render` draws to the screen.
  - It keeps clamped display settings (palette, speed), a time accumulator and `reset`.
  - Every kernel is a free constructor of a symbolic `Field` term. The GPU is the map from target to term plus the log of issued commands.
  - Each pass is proved against that log: which pair it swaps, what it leaves untouched, that it never samples the target it writes, and the order and count of passes.
  - A buffer-free reference dataflow pins down what one step computes.
- **`Input`** (src/input/InputManager.ts) models the input manager.
  - It holds the interaction flag, the current and previous pointer positions, and the force queue that drags append to (under a movement threshold) and each frame drains.
  - It holds the colour hue, the pressed-key set and the callback map keyed by lower-cased key names.
- **`Animation`** (src/animation/AutoAnimator.ts) models the auto animator.
  - It has an active flag, its own clock and three wanderers.
  - Each frame a wanderer drifts along a noise heading, wraps into the band [0.1, 0.9], and emits a force only when it moved noticeably.
- **`Audio`** (src/audio/AudioAnalyzer.ts) models the microphone analyser.
  - It is an inactive/active state machine.
  - Per frame it averages the byte spectrum over the bass, mids and highs bins and over the whole spectrum, then smooths each level exponentially.
- **`Application`** (src/App.ts) models the shell.
  - It builds the four components and binds the keyboard shortcuts.
  - Each frame it caps the time step, picks where the forces come from, steps the solver once and renders once with that frame's audio levels.

Outside inputs become parameters:
- the clock's delta;
- the microphone request's outcome;
- the analyser's spectrum;
- the `Math.random()` draws;
- the sine/cosine noise heading of the wanderers.

Numbers are mathematical reals; JavaScript's `% 1` is written out as `JsMath.Rem1`, which keeps the sign of the dividend.

Files:
- `options.dfy`: the option type.
- `jsmath.dfy`: `Math.abs`/`min`/`max`/`trunc` and `% 1`.
- `input.dfy`, `simulation.dfy`, `animation.dfy`, `audio.dfy`, `application.dfy`: one module per source file.

## Model

| member | source | states |
|---|---|---|
| JsMath.Rem1 | src/animation/AutoAnimator.ts:108 | `x % 1` lies in [0, 1) for nonnegative x and in (-1, 0] for negative x; it is x itself on [0, 1); x minus it is whole |
| Simulation.Merge | src/simulation/FluidSimulation.ts:86 | every configuration field is the override when one is given and the default otherwise; no overrides gives the default configuration |
| Simulation.TexelSize | src/simulation/FluidSimulation.ts:88-95 | the texel size is positive and is the reciprocal of the resolution |
| Simulation.ClampPalette | src/simulation/FluidSimulation.ts:367-369 | the palette lies in [0, 8]; an index inside is kept, one below is 0 and one above is 8 |
| Simulation.ClampSpeed | src/simulation/FluidSimulation.ts:371-373 | the speed lies in [0.1, 3]; a speed inside is kept, one below is 0.1 and one above is 3 |
| Simulation.ClampPaletteIdempotent | src/simulation/FluidSimulation.ts:367-369 | setting the palette to an already clamped index changes nothing |
| Simulation.ClampSpeedIdempotent | src/simulation/FluidSimulation.ts:371-373 | setting the speed to an already clamped value changes nothing |
| Simulation.SwapFacts | src/simulation/FluidSimulation.ts:249-265 | each swap exchanges the read and write handles of its own pair, keeps every pair two distinct targets of its role, and changes nothing else |
| Simulation.ScheduleLength | src/simulation/FluidSimulation.ts:272-342 | a step issues 2 passes per force plus the pressure iterations plus 9 |
| Simulation.ForcePassFacts | src/simulation/FluidSimulation.ts:272-291 | one force swaps the velocity and the dye pair once each; the new current buffers hold the velocity splat (strength, radius) and the dye splat (1.5 times the radius) of the old ones; pressure and divergence are untouched; it issues an unaliased force pass then an unaliased dye pass |
| Simulation.ApplyForcesFacts | src/simulation/FluidSimulation.ts:272-291 | after the forces loop each of the velocity and dye handles has flipped iff the number of forces is odd; the current buffers hold the forces folded in list order; pressure, divergence and the advection material are untouched |
| Simulation.ApplyForcesCommands | src/simulation/FluidSimulation.ts:272-291 | the forces loop issues exactly one force pass and one dye pass per force, in that order, none sampling its destination |
| Simulation.DiffusePassesFacts | src/simulation/FluidSimulation.ts:293-299 | n diffusion passes flip the velocity handles iff n is odd, compose n diffusions, and touch no dye, pressure or divergence target |
| Simulation.JacobiPassesFacts | src/simulation/FluidSimulation.ts:310-317 | n Jacobi iterations flip the pressure handles iff n is odd, compose n iterations against the divergence target, and touch no velocity, dye or divergence target |
| Simulation.ProjectionSetupFacts | src/simulation/FluidSimulation.ts:301-308 | the divergence target then holds the divergence of the current velocity, and the current pressure buffer, the one the first iteration reads, is zero; no handle changes |
| Simulation.ProjectionAndAdvectionFacts | src/simulation/FluidSimulation.ts:319-345 | the gradient subtraction reads the current pressure; velocity advection uses the step's dt and the velocity dissipation; dye advection uses the dye dissipation and the dye texel size along the new velocity; the velocity pair swaps twice and the dye pair once |
| Simulation.StepHandles | src/simulation/FluidSimulation.ts:267-346 | after a step the current velocity handle has flipped iff the number of forces is odd, the dye handle iff it is even, and the pressure handle iff the iteration count is odd; the pairs stay distinct |
| Simulation.StepCommands | src/simulation/FluidSimulation.ts:267-346 | a step appends exactly the schedule (force/dye per force, four diffusions, divergence, clear, the iterations, gradient, two advections) to the command log, and no pass samples the target it draws into |
| Simulation.StepDataflow | src/simulation/FluidSimulation.ts:267-346 | whatever the buffer assignment, the new velocity, dye, pressure and divergence are the reference compositions of kernels; the pressure consumed is the iterations from the cleared buffer, or that buffer itself with none; the advection texel size is back to the simulation's |
| Simulation.ClearAllFacts | src/simulation/FluidSimulation.ts:383-400 | clearing a list of targets zeroes exactly those targets, keeps every handle, and issues one clear per target |
| Simulation.ResetClears | src/simulation/FluidSimulation.ts:383-400 | reset zeroes all six ping-pong targets, whichever is current, keeps the divergence target and every handle, and issues six clears |
| Simulation.RenderFacts | src/simulation/FluidSimulation.ts:348-365 | rendering issues one display pass to the screen sampling the current velocity and dye, and changes no target contents or handle |
| Simulation.FluidSimulation.constructor | src/simulation/FluidSimulation.ts:84-95 | the merged configuration, the texel sizes, the initial handle assignment, blank targets, advection time step 0.016, palette 0, speed 1 and time 0 |
| Simulation.FluidSimulation.RunPass | src/simulation/FluidSimulation.ts:244-247 | the GPU state after a pass is `Blit` of the old one; time, speed, palette and display settings stay |
| Simulation.BlitFacts | src/simulation/FluidSimulation.ts:244-247 | after a pass only its destination holds something new, exactly one command writing there is appended, and handles and advection uniforms stay |
| Simulation.FluidSimulation.SwapVelocityBuffers | src/simulation/FluidSimulation.ts:249-253 | the velocity handles are exchanged and nothing else changes |
| Simulation.FluidSimulation.SwapDyeBuffers | src/simulation/FluidSimulation.ts:255-259 | the dye handles are exchanged and nothing else changes |
| Simulation.FluidSimulation.SwapPressureBuffers | src/simulation/FluidSimulation.ts:261-265 | the pressure handles are exchanged and nothing else changes |
| Simulation.FluidSimulation.Step | src/simulation/FluidSimulation.ts:267-346 | the new GPU state is one step for dt = deltaTime times speed; time grows by exactly that dt; speed, palette and display settings stay; the object stays consistent |
| Simulation.FluidSimulation.ApplyForcesLoop | src/simulation/FluidSimulation.ts:272-291 | the loop over the forces performs one force pass per force in list order |
| Simulation.FluidSimulation.DiffuseLoop | src/simulation/FluidSimulation.ts:293-299 | the diffusion loop performs four diffusion passes |
| Simulation.FluidSimulation.ProjectLoop | src/simulation/FluidSimulation.ts:301-317 | divergence, a clear of the current pressure buffer, then the configured number of Jacobi iterations |
| Simulation.FluidSimulation.AdvectBoth | src/simulation/FluidSimulation.ts:319-345 | gradient subtraction and both advections, then the advection texel size is reset to the simulation's |
| Simulation.FluidSimulation.Render | src/simulation/FluidSimulation.ts:348-365 | the display uniforms take the current velocity and dye, time, film thickness, intensity, palette and audio bands; one display pass is issued; targets, handles, time and settings stay |
| Simulation.FluidSimulation.SetPalette | src/simulation/FluidSimulation.ts:367-369 | the palette becomes the clamped index; nothing else changes |
| Simulation.FluidSimulation.SetSpeed | src/simulation/FluidSimulation.ts:371-373 | the speed becomes the clamped value; nothing else changes |
| Simulation.FluidSimulation.AdjustSpeed | src/simulation/FluidSimulation.ts:375-377 | the speed becomes the clamped sum of the old speed and the delta, as setting it to the current speed plus the delta would |
| Simulation.FluidSimulation.GetSpeed | src/simulation/FluidSimulation.ts:379-381 | returns the speed, which lies in [0.1, 3] |
| Simulation.FluidSimulation.Reset | src/simulation/FluidSimulation.ts:383-400 | the six ping-pong targets are cleared in order; time is 0; speed, palette, handles and display settings stay |
| Input.NextHue | src/input/InputManager.ts:65 | the colour hue stays in [0, 1) after a draw and differs from hue + 0.1 + 0.2·u by at most one turn |
| Input.RandomColor | src/input/InputManager.ts:63-68 | the colour has the new hue, a saturation in [0.8, 1) and a lightness in [0.5, 0.7) |
| Input.LowerChar | src/input/InputManager.ts:156-158 | ASCII capitals map to their lower case and every other character to itself; no capital remains |
| Input.Lower | src/input/InputManager.ts:156-158 | lower-casing keeps the length and lower-cases each character |
| Input.LowerIsLower | src/input/InputManager.ts:156-175 | a lower-cased key name is its own lower case, so the key set and the callback map hold only lower-case names |
| Input.LowerIgnoresCase | src/input/InputManager.ts:169-171 | names that differ only in letter case look up the same entry |
| Input.InputManager.constructor | src/input/InputManager.ts:11-19 | not interacting, both positions at the origin, no forces, hue 0, no keys and no callbacks |
| Input.InputManager.AddForce | src/input/InputManager.ts:140-154 | exactly one force is appended iff one axis of the displacement exceeds 0.0001: at the current position, ten times the displacement, in a fresh colour after a hue step; otherwise nothing changes |
| Input.InputManager.OnPointerDown | src/input/InputManager.ts:90-95 | interaction starts and both positions are the pointer, so the displacement is zero |
| Input.InputManager.OnPointerMove | src/input/InputManager.ts:97-105 | the old current position becomes the last one and the pointer the current one; a force may be pushed only while interacting |
| Input.InputManager.OnPointerUp | src/input/InputManager.ts:107-109 | interaction ends and nothing else changes |
| Input.InputManager.OnTouchStart | src/input/InputManager.ts:111-120 | like pointer down at the first touch; with no touches nothing changes |
| Input.InputManager.OnTouchMove | src/input/InputManager.ts:122-134 | like pointer move at the first touch; with no touches nothing changes |
| Input.InputManager.OnTouchEnd | src/input/InputManager.ts:136-138 | interaction ends and nothing else changes |
| Input.InputManager.OnKeyDown | src/input/InputManager.ts:156-163 | the lower-cased key is added to the pressed set; the callback registered under it is returned for one call, or none when there is none |
| Input.InputManager.OnKeyUp | src/input/InputManager.ts:165-167 | the lower-cased key is removed from the pressed set |
| Input.InputManager.IsKeyPressed | src/input/InputManager.ts:169-171 | true iff the lower-cased key is in the pressed set |
| Input.InputManager.OnKey | src/input/InputManager.ts:173-175 | the callback is stored under the lower-cased key, replacing an earlier one; nothing else changes |
| Input.InputManager.GetForces | src/input/InputManager.ts:177-181 | returns the queued forces in insertion order and leaves the queue empty, so a second call returns none |
| Animation.Wrap | src/animation/AutoAnimator.ts:92-96 | a coordinate below 0.1 goes to 0.9, one above 0.9 goes to 0.1, one inside stays; the result always lies in [0.1, 0.9] |
| Animation.Spawn | src/animation/AutoAnimator.ts:62-70 | a new wanderer starts where its previous position is, with the given hue, a speed in [0.3, 0.6) and a noise offset in [0, 1000) |
| Animation.Initial | src/animation/AutoAnimator.ts:21-26 | one wanderer per draw, the i-th with hue i/3, standing at its drawn position which is also its last one, with speed in [0.3, 0.6) and noise offset in [0, 1000) for draws in [0, 1) |
| Animation.InitialHues | src/animation/AutoAnimator.ts:21-26 | the initial hues lie in [0, 1) |
| Animation.Advance | src/animation/AutoAnimator.ts:72-117 | the pre-update position becomes the last one; the new position lies in [0.1, 0.9]; no force iff both components of five times the displacement are below 0.0001; the hue advances by dt·0.02 (mod 1) only when a force comes out, and stays in [0, 1) for dt ≥ 0; the force is at the new position with the velocity scaled by 1 + audio |
| Animation.AdvanceAll | src/animation/AutoAnimator.ts:34-39 | every wanderer is advanced once, in place and in order |
| Animation.AdvanceAllFacts | src/animation/AutoAnimator.ts:34-39 | after a frame every wanderer is inside the padded band, its last position is where it stood, and its speed and noise offset stay |
| Animation.EmittedSnoc | src/animation/AutoAnimator.ts:34-39 | one more wanderer appends its force, if it emits one, at the end |
| Animation.EmittedBounds | src/animation/AutoAnimator.ts:31-41 | at most one force per wanderer, each inside the padded band |
| Animation.EmittedAllMoving | src/animation/AutoAnimator.ts:34-39 | when every wanderer moves, the i-th force is the i-th wanderer's: exactly one per wanderer, in wanderer order |
| Animation.EmittedNoneStill | src/animation/AutoAnimator.ts:34-39 | when every wanderer is still, no force comes out |
| Animation.Wanderer.constructor | src/animation/AutoAnimator.ts:62-70 | the wanderer's fields are the spawned state for its hue offset and draws |
| Animation.Wanderer.Update | src/animation/AutoAnimator.ts:72-117 | the new fields and the returned force are one Advance step of the old fields |
| Animation.AutoAnimator.constructor | src/animation/AutoAnimator.ts:21-26 | active, time 0, and exactly three distinct fresh wanderers in the initial states |
| Animation.AutoAnimator.SpawnAll | src/animation/AutoAnimator.ts:23-25 | one fresh distinct wanderer per draw, each in its initial state |
| Animation.AutoAnimator.SetActive | src/animation/AutoAnimator.ts:13-15 | the flag takes the value; time and wanderers stay |
| Animation.AutoAnimator.Toggle | src/animation/AutoAnimator.ts:17-19 | the flag is negated, so toggling twice restores it; time and wanderers stay |
| Animation.AutoAnimator.GetForces | src/animation/AutoAnimator.ts:28-42 | inactive: no forces, no time passes, no wanderer moves; active: the clock grows by deltaTime and every wanderer advances at the new time, their forces collected in order |
| Animation.AutoAnimator.UpdateAll | src/animation/AutoAnimator.ts:34-39 | the wanderer loop advances each wanderer once and collects exactly their emitted forces in order |
| Animation.AutoAnimator.Reset | src/animation/AutoAnimator.ts:44-50 | time 0, three fresh wanderers in the initial states, the active flag unchanged |
| Audio.SumBounds | src/audio/AudioAnalyzer.ts:96-101 | a run of byte levels sums to between 0 and 255 per bin |
| Audio.RangeSum | src/audio/AudioAnalyzer.ts:98-100 | the inclusive index loop sums exactly the bins from the start to the end index |
| Audio.Level | src/audio/AudioAnalyzer.ts:96-102 | a band's sum over its inclusive range, divided by the bin count and by 255, lies in [0, 1], and is 0 for a silent range |
| Audio.LevelBounds | src/audio/AudioAnalyzer.ts:102 | a byte sum over n bins, divided by n and by 255, lies in [0, 1] |
| Audio.BinSize | src/audio/AudioAnalyzer.ts:91-92 | the bin width is positive for a positive sample rate |
| Audio.RateOf | src/audio/AudioAnalyzer.ts:90 | a missing context or a zero sample rate falls back to 44100 Hz; otherwise the context's rate is used |
| Audio.BandRanges | src/audio/AudioAnalyzer.ts:95-115 | the bass, mids and highs ranges start at nonnegative bins in increasing order and share their boundary bins; only the top of the highs is cut to the last bin, and the highs are nonempty when the mids fit |
| Audio.RawLevels | src/audio/AudioAnalyzer.ts:95-127 | all four raw levels lie in [0, 1]; the volume is the mean of every bin over 255 |
| Audio.Smooth | src/audio/AudioAnalyzer.ts:130-137 | the gap to the raw value shrinks to 0.8 of what it was, so the result lies between the old and the raw value |
| Audio.SmoothData | src/audio/AudioAnalyzer.ts:129-137 | smoothing levels in [0, 1] toward levels in [0, 1] stays in [0, 1]; a steady input is a fixed point |
| Audio.AudioAnalyzer.constructor | src/audio/AudioAnalyzer.ts:9-15 | inactive, no resources, smoothed levels zero |
| Audio.AudioAnalyzer.Start | src/audio/AudioAnalyzer.ts:21-53 | already active: answers yes and changes nothing; refused: answers no and changes nothing; granted: stream, context, a 2048-point analyser and a zeroed data array are set up and the analyser is active |
| Audio.AudioAnalyzer.Stop | src/audio/AudioAnalyzer.ts:55-70 | inactive, every resource released and the smoothed levels zero, whatever the state before, so stopping twice is stopping once |
| Audio.AudioAnalyzer.Toggle | src/audio/AudioAnalyzer.ts:72-79 | active: every handle is released, the levels fall to silence and the answer is no; inactive without a grant: nothing changes and the answer is no; inactive with a grant: stream, context at the device rate, analyser of size 2048 and zeroed 1024-bin buffer, smoothed levels kept, answer yes; in all cases the new state is `Toggled` of the old |
| Audio.Started | src/audio/AudioAnalyzer.ts:21-53 | the answer is whether the analyser ends active; an active analyser or a refused grant leaves the state as it was; the smoothed levels are never touched |
| Audio.Toggled | src/audio/AudioAnalyzer.ts:72-79 | the answer is whether the analyser ends active; an active analyser ends released; an inactive one ends active exactly when the microphone is granted |
| Audio.ToggleOnOff | src/audio/AudioAnalyzer.ts:72-79 | from the released state with a grant, toggling twice starts and then returns to the released state with the answer no |
| Audio.StartTwice | src/audio/AudioAnalyzer.ts:22 | starting an analyser that a grant already started changes nothing and answers yes |
| Audio.AudioAnalyzer.IsActive | src/audio/AudioAnalyzer.ts:17-19 | the analyser is active exactly when it holds a context, an analyser node, a buffer and a stream |
| Animation.AutoAnimator.IsActive | src/animation/AutoAnimator.ts:9-11 | the answer is the active flag |
| Audio.AudioAnalyzer.BandLevels | src/audio/AudioAnalyzer.ts:88-127 | the four summing loops compute exactly the raw band and volume levels |
| Audio.AudioAnalyzer.GetFrequencyData | src/audio/AudioAnalyzer.ts:81-140 | inactive: zeros and no change; active: the spectrum is read, the smoothed levels move toward this frame's raw levels, and a copy of them is returned |
| Application.CapDelta | src/App.ts:159 | the time step is at most 0.033 and at most the clock's delta, and equals the delta exactly when the delta is within the cap |
| Application.DigitBindingsSelect | src/App.ts:62-67 | after registering digits 1 to n, digit i is bound to palette selection i |
| Application.DigitBindingsKeys | src/App.ts:62-67 | the palette loop binds no name other than the digits 1 to n |
| Application.BoundKeys | src/App.ts:60-119 | only the digits 1 to 9, space, m, =, +, -, r, f, h and escape are bound |
| Application.DigitKeysSelectPalettes | src/App.ts:62-67 | every digit 1 to 9 ends up bound to its palette selection; no later shortcut overrides it |
| Application.SpeedKeys | src/App.ts:83-94 | `=` and `+` adjust the speed by +0.1 and `-` by -0.1 |
| Application.ToggleKeys | src/App.ts:70-80 | space toggles the auto animation and m the microphone |
| Application.SceneKeys | src/App.ts:97-106 | r resets the scene and f asks for fullscreen |
| Application.HelpKeys | src/App.ts:109-118 | h toggles help and escape closes it |
| Application.DigitKeyLower | src/App.ts:63 | a digit name is stored as it is written |
| Application.ShortcutNamesLower | src/App.ts:70-114 | the shortcut names are stored as written, except Escape, which is stored as escape |
| Application.App.constructor | src/App.ts:43-58 | fresh components with the default solver configuration, every shortcut registered, microphone off, animator on, not running, help shown; the observable scene is `Opening(draws)`, and the input manager is idle with an empty queue, no keys, hue 0 and both positions at the origin |
| Application.Opening | src/App.ts:43-58 | the first scene: blank targets and an empty command log on a consistent handle assignment, clocks at 0, the initial wanderers, the analyser released, the animator on, help shown, not running |
| Application.App.SetupKeyboardControls | src/App.ts:60-119 | the callback map ends up holding exactly the shortcut table; keys, forces and the interaction flag stay |
| Application.App.RegisterPalettes | src/App.ts:61-67 | the digit loop registers digits 1 to 9 in order |
| Application.App.RegisterShortcuts | src/App.ts:69-118 | the remaining registrations complete the shortcut table |
| Application.App.ToggleHelp | src/App.ts:128-131 | the help flag is negated; the running flag stays |
| Application.App.Start | src/App.ts:183-195 | afterwards the app is running; starting a running app changes nothing |
| Application.App.Stop | src/App.ts:197-200 | the running flag is cleared |
| Application.App.Perform | src/App.ts:61-118 | a digit sets the palette to the digit minus one; `=`/`+`/`-` adjust the speed; space toggles the animator; m toggles the microphone; r resets the solver and the animator; h toggles help; escape hides help only when shown; each leaves the rest as it was. The whole observable scene after the call is `AfterAction` of the scene before |
| Application.App.ChoosePalette | src/App.ts:62-67 | the scene after a digit key differs from the one before only in the clamped palette |
| Application.App.ToggleAnimator | src/App.ts:70-73 | the scene after space is `AfterAction` of toggling the animator |
| Application.App.ToggleMicrophone | src/App.ts:76-80 | the scene after m is `AfterAction` of toggling the analyser with the given grant |
| Application.App.ChangeSpeed | src/App.ts:83-94 | the scene after a speed key is `AfterAction` of adjusting the speed by its delta |
| Application.App.ResetAll | src/App.ts:97-101 | the scene after r is `AfterAction` of the reset: solver targets cleared, clocks at 0, wanderers respawned from the draws |
| Application.App.Dispatch | src/App.ts:61-118 | the observable scene after the shortcut is `AfterAction` of the scene before |
| Application.AfterAction | src/App.ts:61-118 | per action, the one part of the scene it changes: palette to the clamped digit index, speed by the clamped delta, solver, clocks and wanderers reset, analyser toggled, animator or help flag negated, help hidden on escape; every other part, and the running flag and display, stay |
| Application.HelpTwice | src/App.ts:108-111 | pressing h twice restores the scene |
| Application.EscapeEffect | src/App.ts:114-118 | escape with help shown hides it and changes nothing else; with help hidden it changes nothing |
| Application.DigitKeyEffect | src/App.ts:62-67 | digit key i is bound, and its action sets the palette to i - 1 and changes nothing else |
| Application.SpeedKeyEffects | src/App.ts:83-94 | `=` and `+` raise the speed by 0.1 and `-` lowers it by 0.1, clamped, changing nothing else |
| Application.App.HandleKeyDown | src/input/InputManager.ts:156-163 | the pressed key is recorded; the input manager's queue, interaction flag, positions and hue stay; the action bound to its lower-cased name is performed once, and an unbound key changes nothing else. The observable scene after the call is `AfterAction` of the performed action, or the old scene when no action is bound |
| Application.App.Update | src/App.ts:158-181 | the capped time step, this frame's audio levels, forces drained from input when interacting or the animator is off, else the animator's with the bass level; then exactly one step followed by one render with the same audio. The display uniforms hold the current velocity and dye, time, film thickness, intensity, palette and audio bands; the analyser keeps its flag and context, stores the spectrum when active, and its smoothed levels become this frame's; the animator's flag and the input manager's interaction flag, keys, positions and hue stay |
| Application.App.Sense | src/App.ts:159-174 | the first half of a frame: capped time step, audio levels and the frame's forces; the analyser's new state is the old one with the spectrum stored (when active) and the smoothed levels set to this frame's; the animator's flag and the input manager's interaction flag, keys, positions and hue stay |
| Application.App.StepAndRender | src/App.ts:177-180 | one step with the frame's forces, then one render with its audio bands; the display uniforms hold the current velocity and dye, time, film thickness, intensity, palette and those bands |
| Application.App.FrameForces | src/App.ts:164-174 | interacting: input is drained and the animator untouched; else an active animator's forces are used; else input is drained. The animator's flag and the input manager's interaction flag, keys, positions and hue stay |

## Left out

- The GLSL kernels (advection, diffusion, forces, divergence, pressure, gradient, dye, display) are not part of this model. Each is a free constructor of `Simulation.Field`, so only which kernel reads which buffer is modelled, not the numerics.
- three.js and WebGL objects are left out: the renderer, scene, camera, quad, the materials apart from the advection and display uniforms, target sizes and half-float formats, and `dispose`. A render target is one of seven names; a clear sets it to `Zero`.
- The forces material's uniform is the motion (dx, dy) times `forceStrength`. It is kept as the motion and the strength side by side in `Splat`, not as their product.
- `step`'s audio argument is unused in the source. `Simulation.FluidSimulation.Step` takes it and ignores it.
- The configuration is typed more tightly than the source's numbers: resolutions are positive integers and `pressureIterations` is a natural number. A fractional or negative iteration count is not modelled.
- Numbers are mathematical reals: no IEEE rounding, NaN or Infinity.
- `String.prototype.toLowerCase` is modelled for ASCII letters only.
- HSL-to-RGB conversion (`getRandomColor`'s and `hslToRgb`) is left out. Colours stay in their HSL form.
- The DOM and browser APIs are left out:
  - the canvas, the listener registration and `getNormalizedPosition`;
  - `destroy`'s listener removal;
  - the help overlay's class and its click listener, which only calls `toggleHelp`;
  - the microphone indicator, the status line and its `setTimeout`;
  - `toggleFullscreen`, which `Application.App.Perform` treats as having no model-visible effect;
  - the resize handler;
  - all of src/main.ts.
  Positions arrive already normalised to [0, 1].
- The animation loop is left out: `requestAnimationFrame` and `THREE.Clock`. `Application.App.Start` only sets the flag, and each frame's clock delta is a parameter of `Application.App.Update`.
- `Math.random()`, `Math.sin` and `Math.cos` are parameters: the `ColorDraw`/`WandererDraw` values and the `steer` heading function.
- `getUserMedia`, `AudioContext` and `AnalyserNode` are left out.
  - The outcome of the asynchronous microphone request is a parameter `Option<Microphone>`. When a failure happens partway through, the partly built resources the source leaves behind are not modelled.
  - The `m` shortcut's `await` is modelled as a synchronous call.
  - The analyser's byte spectrum is a parameter of `Audio.AudioAnalyzer.GetFrequencyData`.
- Audio.AudioAnalyzer.Start requires that a granted microphone's sample rate exceed about 4000 Hz (`BandsFit`). The source does not clamp the bass and mids ranges. At rates up to 4000 Hz the top of the mids (2000 Hz) runs past the 1024 bins, and at rates up to 500 Hz the top of the bass (250 Hz) does too. Between 500 and 4000 Hz only the mids overrun; the source then reads `undefined` and yields NaN levels, which reals cannot represent. `Audio.AudioAnalyzer.Toggle`, `Application.App.Perform` and `Application.App.HandleKeyDown` inherit the same precondition.
- Application.App.Update returns the frame's forces and audio levels as ghost values, for its contract. The source computes them as locals.
