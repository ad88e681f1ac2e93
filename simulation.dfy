/** The fluid solver's orchestration (src/simulation/FluidSimulation.ts):
    seven render targets, six of them in three read/write ping-pong
    pairs, a fixed sequence of full-screen passes per step, the display
    pass, clamped display settings and a time accumulator.

    The kernels themselves are fragment shaders that are not part of this
    model. A render target's contents are therefore kept as a symbolic
    `Field`: the term of kernel applications that produced it, with the
    kernels as free constructors. The GPU command stream is kept as the
    sequence of passes issued, each with the target it draws into and the
    targets it samples. */
module Simulation {
  import opened JsMath
  import opened Options
  import opened Input

  // ---------------------------------------------------------------------
  // Configuration

  /** A grid resolution in cells per side. */
  type Resolution = n: int | n > 0 witness 1

  datatype Config = Config(
    simResolution: Resolution,
    dyeResolution: Resolution,
    viscosity: real,
    velocityDissipation: real,
    dyeDissipation: real,
    pressureIterations: nat,
    forceRadius: real,
    forceStrength: real)

  const DefaultConfig: Config := Config(256, 512, 0.5, 0.98, 0.97, 20, 0.04, 1.0)

  /** The constructor's `Partial<SimulationConfig>` argument: a field that is
      given overrides the default. */
  datatype Overrides = Overrides(
    simResolution: Option<Resolution>,
    dyeResolution: Option<Resolution>,
    viscosity: Option<real>,
    velocityDissipation: Option<real>,
    dyeDissipation: Option<real>,
    pressureIterations: Option<nat>,
    forceRadius: Option<real>,
    forceStrength: Option<real>)

  const NoOverrides: Overrides := Overrides(None, None, None, None, None, None, None, None)

  function Pick<T>(o: Option<T>, fallback: T): T {
    if o.Some? then o.value else fallback
  }

  /** `v` is the overriding value when there is one, and the default otherwise. */
  predicate Takes<T(==)>(o: Option<T>, fallback: T, v: T) {
    (o.Some? ==> v == o.value) && (o.None? ==> v == fallback)
  }

  /** `{ ...defaultConfig, ...config }`: every field is taken from the
      overrides when given there and from the defaults otherwise. */
  function Merge(o: Overrides): (c: Config)
    ensures Takes(o.simResolution, DefaultConfig.simResolution, c.simResolution)
    ensures Takes(o.dyeResolution, DefaultConfig.dyeResolution, c.dyeResolution)
    ensures Takes(o.viscosity, DefaultConfig.viscosity, c.viscosity)
    ensures Takes(o.velocityDissipation, DefaultConfig.velocityDissipation, c.velocityDissipation)
    ensures Takes(o.dyeDissipation, DefaultConfig.dyeDissipation, c.dyeDissipation)
    ensures Takes(o.pressureIterations, DefaultConfig.pressureIterations, c.pressureIterations)
    ensures Takes(o.forceRadius, DefaultConfig.forceRadius, c.forceRadius)
    ensures Takes(o.forceStrength, DefaultConfig.forceStrength, c.forceStrength)
    ensures o == NoOverrides ==> c == DefaultConfig
  {
    Config(
      Pick(o.simResolution, DefaultConfig.simResolution),
      Pick(o.dyeResolution, DefaultConfig.dyeResolution),
      Pick(o.viscosity, DefaultConfig.viscosity),
      Pick(o.velocityDissipation, DefaultConfig.velocityDissipation),
      Pick(o.dyeDissipation, DefaultConfig.dyeDissipation),
      Pick(o.pressureIterations, DefaultConfig.pressureIterations),
      Pick(o.forceRadius, DefaultConfig.forceRadius),
      Pick(o.forceStrength, DefaultConfig.forceStrength))
  }

  /** The normalised distance between neighbouring cells of a grid. */
  function TexelSize(res: Resolution): (r: real)
    ensures r > 0.0 && r * res as real == 1.0
  {
    1.0 / res as real
  }

  function SimTexel(cfg: Config): real {
    TexelSize(cfg.simResolution)
  }

  function DyeTexel(cfg: Config): real {
    TexelSize(cfg.dyeResolution)
  }

  // ---------------------------------------------------------------------
  // Display settings

  const PaletteMax: real := 8.0
  const SpeedMin: real := 0.1
  const SpeedMax: real := 3.0

  /** `Math.max(0, Math.min(8, index))` */
  function ClampPalette(index: real): (r: real)
    ensures 0.0 <= r <= PaletteMax
    ensures 0.0 <= index <= PaletteMax ==> r == index
    ensures index < 0.0 ==> r == 0.0
    ensures index > PaletteMax ==> r == PaletteMax
  {
    Max(0.0, Min(PaletteMax, index))
  }

  /** The simulated time a frame advances: the frame's time step scaled by
      the speed multiplier. */
  function Scaled(deltaTime: real, speed: real): real {
    deltaTime * speed
  }

  /** `Math.max(0.1, Math.min(3, speed))` */
  function ClampSpeed(speed: real): (r: real)
    ensures SpeedMin <= r <= SpeedMax
    ensures SpeedMin <= speed <= SpeedMax ==> r == speed
    ensures speed < SpeedMin ==> r == SpeedMin
    ensures speed > SpeedMax ==> r == SpeedMax
  {
    Max(SpeedMin, Min(SpeedMax, speed))
  }

  lemma ClampPaletteIdempotent(index: real)
    ensures ClampPalette(ClampPalette(index)) == ClampPalette(index)
  {
  }

  lemma ClampSpeedIdempotent(speed: real)
    ensures ClampSpeed(ClampSpeed(speed)) == ClampSpeed(speed)
  {
  }

  // ---------------------------------------------------------------------
  // Render targets and their contents

  /** The seven render targets initRenderTargets allocates. */
  datatype Target = Velocity0 | Velocity1 | Dye0 | Dye1 | Divergence | Pressure0 | Pressure1

  datatype Role = VelocityPair | DyePair | PressurePair | Scratch

  function RoleOf(t: Target): Role {
    match t
    case Velocity0 | Velocity1 => VelocityPair
    case Dye0 | Dye1 => DyePair
    case Pressure0 | Pressure1 => PressurePair
    case Divergence => Scratch
  }

  /** The contents of a render target, as the kernel applications that
      produced it. `Zero` is a cleared (or freshly allocated) target. */
  datatype Field =
    | Zero
      /** forces.frag: a radial velocity impulse at (x, y); the impulse is
          the pointer motion (dx, dy) times `strength` */
    | Splat(velocity: Field, x: real, y: real, dx: real, dy: real, strength: real, radius: real)
      /** dye.frag: colour injected at (x, y) */
    | DyeSplat(dye: Field, x: real, y: real, color: Color, radius: real)
      /** diffusion.frag: one viscous smoothing pass */
    | Diffused(velocity: Field, viscosity: real)
      /** divergence.frag */
    | DivergenceOf(velocity: Field)
      /** pressure.frag: one Jacobi iteration */
    | JacobiStep(pressure: Field, divergence: Field)
      /** gradient.frag: pressure gradient subtracted from the velocity */
    | GradientSubtracted(pressure: Field, velocity: Field)
      /** advection.frag: semi-Lagrangian transport of `source` along `velocity` */
    | Advected(velocity: Field, source: Field, dt: real, dissipation: real, texel: real)

  /** The GPU contents of the render targets; a target without an entry
      holds zeros, as a freshly allocated or a cleared one does. */
  type Memory = map<Target, Field>

  function Contents(m: Memory, t: Target): Field {
    if t in m then m[t] else Zero
  }

  const Blank: Memory := map[]

  // ---------------------------------------------------------------------
  // The command stream

  /** The shader material a pass draws with, or a clear. */
  datatype Pass = AddForce | AddDye | Diffuse | ComputeDivergence | Clear | Jacobi | SubtractGradient | Advect | Display

  /** Where a pass draws: a render target, or the screen (`blit(null)`). */
  datatype Output = Screen | To(target: Target)

  datatype Command = Command(pass: Pass, dest: Output, sources: seq<Target>)

  /** A pass never samples the render target it draws into. */
  predicate Unaliased(c: Command) {
    c.dest.To? ==> c.dest.target !in c.sources
  }

  /** `after` is `before` followed by one unaliased command per entry of
      `passes`, of that pass. */
  ghost predicate Issues(before: seq<Command>, after: seq<Command>, passes: seq<Pass>) {
    && |after| == |before| + |passes|
    && after[..|before|] == before
    && forall i :: 0 <= i < |passes| ==> after[|before| + i].pass == passes[i] && Unaliased(after[|before| + i])
  }

  lemma IssuesNothing(cs: seq<Command>)
    ensures Issues(cs, cs, [])
  {
  }

  lemma IssuesChain(a: seq<Command>, b: seq<Command>, c: seq<Command>, p: seq<Pass>, q: seq<Pass>)
    requires Issues(a, b, p) && Issues(b, c, q)
    ensures Issues(a, c, p + q)
  {
    assert c[..|a|] == b[..|b|][..|a|];
    forall i | 0 <= i < |p + q|
      ensures c[|a| + i].pass == (p + q)[i] && Unaliased(c[|a| + i])
    {
      if i < |p| {
        assert c[|a| + i] == c[..|b|][|a| + i] == b[|a| + i];
      } else {
        assert c[|a| + i] == c[|b| + (i - |p|)];
      }
    }
  }

  function Repeat<T>(s: seq<T>, n: nat): (r: seq<T>)
    ensures |r| == |s| * n
  {
    if n == 0 then [] else Repeat(s, n - 1) + s
  }

  /** The passes one step issues, in order: a velocity and a dye splat per
      force, four diffusion passes, the divergence, the pressure clear, the
      Jacobi iterations, the gradient subtraction and the two advections. */
  function Schedule(forces: nat, iterations: nat): seq<Pass> {
    Repeat([AddForce, AddDye], forces) + Repeat([Diffuse], DiffusionPasses)
      + [ComputeDivergence, Clear] + Repeat([Jacobi], iterations)
      + [SubtractGradient, Advect, Advect]
  }

  lemma ScheduleLength(forces: nat, iterations: nat)
    ensures |Schedule(forces, iterations)| == 2 * forces + iterations + 9
  {
  }

  // ---------------------------------------------------------------------
  // Material uniforms that persist between passes

  /** The advection material's uniforms; the material is shared by the
      velocity and the dye advection. */
  datatype AdvectionUniforms = AdvectionUniforms(deltaTime: real, dissipation: real, texelSize: real)

  /** The audio bands the step and the display pass are handed. */
  datatype Bands = Bands(bass: real, mids: real, highs: real)

  const NoAudio: Bands := Bands(0.0, 0.0, 0.0)

  /** The display material's uniforms, set by render. */
  datatype DisplayUniforms = DisplayUniforms(
    velocity: Option<Target>,
    dye: Option<Target>,
    time: real,
    filmThickness: real,
    colorIntensity: real,
    palette: real,
    audio: Bands)

  const DiffusionPasses: nat := 4

  // ---------------------------------------------------------------------
  // The passes over an abstract GPU state

  /** The buffer assignment, the target contents, the issued commands and
      the advection uniforms. */
  datatype Gpu = Gpu(
    velocityRead: Target, velocityWrite: Target,
    dyeRead: Target, dyeWrite: Target,
    pressureRead: Target, pressureWrite: Target,
    memory: Memory,
    commands: seq<Command>,
    advection: AdvectionUniforms)

  /** Each pair holds the two distinct targets of its role. */
  predicate Paired(g: Gpu) {
    && RoleOf(g.velocityRead) == VelocityPair && RoleOf(g.velocityWrite) == VelocityPair
    && RoleOf(g.dyeRead) == DyePair && RoleOf(g.dyeWrite) == DyePair
    && RoleOf(g.pressureRead) == PressurePair && RoleOf(g.pressureWrite) == PressurePair
    && g.velocityRead != g.velocityWrite
    && g.dyeRead != g.dyeWrite
    && g.pressureRead != g.pressureWrite
  }

  function SwapVelocity(g: Gpu): Gpu {
    g.(velocityRead := g.velocityWrite, velocityWrite := g.velocityRead)
  }

  function SwapDye(g: Gpu): Gpu {
    g.(dyeRead := g.dyeWrite, dyeWrite := g.dyeRead)
  }

  function SwapPressure(g: Gpu): Gpu {
    g.(pressureRead := g.pressureWrite, pressureWrite := g.pressureRead)
  }

  /** Each swap exchanges the read and write handles of its own pair,
      keeps them distinct and within the pair, and changes nothing else. */
  lemma SwapFacts(g: Gpu)
    requires Paired(g)
    ensures var r := SwapVelocity(g);
      && Paired(r) && r.velocityRead == g.velocityWrite && r.velocityWrite == g.velocityRead
      && r == g.(velocityRead := r.velocityRead, velocityWrite := r.velocityWrite)
    ensures var r := SwapDye(g);
      && Paired(r) && r.dyeRead == g.dyeWrite && r.dyeWrite == g.dyeRead
      && r == g.(dyeRead := r.dyeRead, dyeWrite := r.dyeWrite)
    ensures var r := SwapPressure(g);
      && Paired(r) && r.pressureRead == g.pressureWrite && r.pressureWrite == g.pressureRead
      && r == g.(pressureRead := r.pressureRead, pressureWrite := r.pressureWrite)
  {
  }

  /** One full-screen pass: `dest` receives `value` and the command is issued. */
  function Blit(g: Gpu, pass: Pass, dest: Target, sources: seq<Target>, value: Field): Gpu {
    g.(memory := g.memory[dest := value], commands := g.commands + [Command(pass, To(dest), sources)])
  }

  /** After a pass only its destination holds something new, exactly one
      command is appended and the handles and advection uniforms stay. */
  lemma BlitFacts(g: Gpu, pass: Pass, dest: Target, sources: seq<Target>, value: Field)
    ensures var r := Blit(g, pass, dest, sources, value);
      && Contents(r.memory, dest) == value
      && (forall t :: t != dest ==> Contents(r.memory, t) == Contents(g.memory, t))
      && |r.commands| == |g.commands| + 1 && r.commands[..|g.commands|] == g.commands
      && r.commands[|g.commands|] == Command(pass, To(dest), sources)
      && r.(memory := g.memory, commands := g.commands) == g
  {
  }

  /** A velocity splat into the velocity write buffer, then a swap. */
  function VelocitySplatPass(g: Gpu, cfg: Config, f: Force): Gpu {
    var v := Splat(Contents(g.memory, g.velocityRead), f.x, f.y,
                   f.dx, f.dy, cfg.forceStrength, cfg.forceRadius);
    SwapVelocity(Blit(g, AddForce, g.velocityWrite, [g.velocityRead], v))
  }

  /** A dye splat with 1.5 times the force radius into the dye write
      buffer, then a swap. */
  function DyeSplatPass(g: Gpu, cfg: Config, f: Force): Gpu {
    var d := DyeSplat(Contents(g.memory, g.dyeRead), f.x, f.y, f.color, cfg.forceRadius * 1.5);
    SwapDye(Blit(g, AddDye, g.dyeWrite, [g.dyeRead], d))
  }

  /** One force: the velocity splat, then the dye splat. */
  function ForcePass(g: Gpu, cfg: Config, f: Force): Gpu {
    DyeSplatPass(VelocitySplatPass(g, cfg, f), cfg, f)
  }

  /** The forces loop, force by force in list order. */
  function ApplyForces(g: Gpu, cfg: Config, fs: seq<Force>): Gpu
    decreases |fs|
  {
    if fs == [] then g else ForcePass(ApplyForces(g, cfg, fs[..|fs| - 1]), cfg, fs[|fs| - 1])
  }

  function DiffusePass(g: Gpu, cfg: Config): Gpu {
    var v := Diffused(Contents(g.memory, g.velocityRead), cfg.viscosity);
    SwapVelocity(Blit(g, Diffuse, g.velocityWrite, [g.velocityRead], v))
  }

  function DiffusePasses(g: Gpu, cfg: Config, n: nat): Gpu {
    if n == 0 then g else DiffusePass(DiffusePasses(g, cfg, n - 1), cfg)
  }

  function DivergencePass(g: Gpu): Gpu {
    Blit(g, ComputeDivergence, Divergence, [g.velocityRead], DivergenceOf(Contents(g.memory, g.velocityRead)))
  }

  /** `setRenderTarget(t); clear()` */
  function ClearPass(g: Gpu, t: Target): Gpu {
    Blit(g, Clear, t, [], Zero)
  }

  function JacobiPass(g: Gpu): Gpu {
    var p := JacobiStep(Contents(g.memory, g.pressureRead), Contents(g.memory, Divergence));
    SwapPressure(Blit(g, Jacobi, g.pressureWrite, [g.pressureRead, Divergence], p))
  }

  function JacobiPasses(g: Gpu, n: nat): Gpu {
    if n == 0 then g else JacobiPass(JacobiPasses(g, n - 1))
  }

  function GradientPass(g: Gpu): Gpu {
    var v := GradientSubtracted(Contents(g.memory, g.pressureRead), Contents(g.memory, g.velocityRead));
    SwapVelocity(Blit(g, SubtractGradient, g.velocityWrite, [g.pressureRead, g.velocityRead], v))
  }

  /** Velocity self-advection: sets the time step and the velocity
      dissipation, and keeps the texel size the material already has. */
  function AdvectVelocityPass(g: Gpu, cfg: Config, dt: real): Gpu {
    var a := g.advection.(deltaTime := dt, dissipation := cfg.velocityDissipation);
    var v := Advected(Contents(g.memory, g.velocityRead), Contents(g.memory, g.velocityRead), a.deltaTime, a.dissipation, a.texelSize);
    SwapVelocity(Blit(g.(advection := a), Advect, g.velocityWrite, [g.velocityRead, g.velocityRead], v))
  }

  /** Dye advection along the new velocity: keeps the time step and sets
      the dye dissipation and the dye texel size. */
  function AdvectDyePass(g: Gpu, cfg: Config): Gpu {
    var a := g.advection.(dissipation := cfg.dyeDissipation, texelSize := DyeTexel(cfg));
    var d := Advected(Contents(g.memory, g.velocityRead), Contents(g.memory, g.dyeRead), a.deltaTime, a.dissipation, a.texelSize);
    SwapDye(Blit(g.(advection := a), Advect, g.dyeWrite, [g.velocityRead, g.dyeRead], d))
  }

  /** Everything one `step` does to the buffers, for the scaled time step `dt`. */
  function StepGpu(g: Gpu, cfg: Config, dt: real, fs: seq<Force>): Gpu {
    var g1 := ApplyForces(g, cfg, fs);
    var g2 := DiffusePasses(g1, cfg, DiffusionPasses);
    var g3 := DivergencePass(g2);
    var g4 := ClearPass(g3, g3.pressureRead);
    var g5 := JacobiPasses(g4, cfg.pressureIterations);
    var g6 := GradientPass(g5);
    var g7 := AdvectVelocityPass(g6, cfg, dt);
    var g8 := AdvectDyePass(g7, cfg);
    g8.(advection := g8.advection.(texelSize := SimTexel(cfg)))
  }

  /** Clears each of `ts`, in order. */
  function ClearAll(g: Gpu, ts: seq<Target>): Gpu
    decreases |ts|
  {
    if ts == [] then g else ClearPass(ClearAll(g, ts[..|ts| - 1]), ts[|ts| - 1])
  }

  /** `reset`: the six paired targets are cleared, in the order read/write
      of velocity, dye and pressure. */
  function ResetGpu(g: Gpu): Gpu {
    ClearAll(g, [g.velocityRead, g.velocityWrite, g.dyeRead, g.dyeWrite, g.pressureRead, g.pressureWrite])
  }

  /** `render`: one display pass to the screen, sampling the current
      velocity and dye buffers. */
  function Rendered(g: Gpu): Gpu {
    g.(commands := g.commands + [Command(Display, Screen, [g.velocityRead, g.dyeRead])])
  }

  // ---------------------------------------------------------------------
  // The reference dataflow: each field as a composition of kernels, with
  // no buffers at all

  function ForcedVelocity(v: Field, cfg: Config, fs: seq<Force>): Field
    decreases |fs|
  {
    if fs == [] then v
    else
      var f := fs[|fs| - 1];
      Splat(ForcedVelocity(v, cfg, fs[..|fs| - 1]), f.x, f.y,
            f.dx, f.dy, cfg.forceStrength, cfg.forceRadius)
  }

  function ForcedDye(d: Field, cfg: Config, fs: seq<Force>): Field
    decreases |fs|
  {
    if fs == [] then d
    else
      var f := fs[|fs| - 1];
      DyeSplat(ForcedDye(d, cfg, fs[..|fs| - 1]), f.x, f.y, f.color, cfg.forceRadius * 1.5)
  }

  function DiffusedN(v: Field, viscosity: real, n: nat): Field {
    if n == 0 then v else Diffused(DiffusedN(v, viscosity, n - 1), viscosity)
  }

  function JacobiN(p: Field, div: Field, n: nat): Field {
    if n == 0 then p else JacobiStep(JacobiN(p, div, n - 1), div)
  }

  /** The velocity after forces and diffusion, before projection. */
  function PreProjection(v: Field, cfg: Config, fs: seq<Force>): Field {
    DiffusedN(ForcedVelocity(v, cfg, fs), cfg.viscosity, DiffusionPasses)
  }

  /** The pressure the gradient subtraction consumes: the iterations run
      from a cleared buffer against the divergence of the diffused velocity. */
  function SolvedPressure(v: Field, cfg: Config, fs: seq<Force>): Field {
    JacobiN(Zero, DivergenceOf(PreProjection(v, cfg, fs)), cfg.pressureIterations)
  }

  function StepVelocity(v: Field, cfg: Config, dt: real, fs: seq<Force>): Field {
    var projected := GradientSubtracted(SolvedPressure(v, cfg, fs), PreProjection(v, cfg, fs));
    Advected(projected, projected, dt, cfg.velocityDissipation, SimTexel(cfg))
  }

  function StepDye(v: Field, d: Field, cfg: Config, dt: real, fs: seq<Force>): Field {
    Advected(StepVelocity(v, cfg, dt, fs), ForcedDye(d, cfg, fs), dt, cfg.dyeDissipation, DyeTexel(cfg))
  }

  // ---------------------------------------------------------------------
  // Lemmas about the passes

  /** Every target of `role` holds the same contents in `a` and in `b`. */
  predicate Keeps(a: Memory, b: Memory, role: Role) {
    match role
    case VelocityPair =>
      Contents(a, Velocity0) == Contents(b, Velocity0) && Contents(a, Velocity1) == Contents(b, Velocity1)
    case DyePair =>
      Contents(a, Dye0) == Contents(b, Dye0) && Contents(a, Dye1) == Contents(b, Dye1)
    case PressurePair =>
      Contents(a, Pressure0) == Contents(b, Pressure0) && Contents(a, Pressure1) == Contents(b, Pressure1)
    case Scratch =>
      Contents(a, Divergence) == Contents(b, Divergence)
  }

  lemma IssuesOne(cs: seq<Command>, c: Command)
    requires Unaliased(c)
    ensures Issues(cs, cs + [c], [c.pass])
  {
    assert (cs + [c])[..|cs|] == cs;
  }

  /** One force: both the velocity and the dye pair swap, each new read
      buffer holds its splat of the old read buffer, and nothing else
      changes. */
  lemma ForcePassFacts(h: Gpu, cfg: Config, f: Force)
    requires Paired(h)
    ensures var r := ForcePass(h, cfg, f);
      && Paired(r)
      && r.velocityRead == h.velocityWrite && r.velocityWrite == h.velocityRead
      && r.dyeRead == h.dyeWrite && r.dyeWrite == h.dyeRead
      && r.pressureRead == h.pressureRead && r.pressureWrite == h.pressureWrite
      && Contents(r.memory, r.velocityRead) == Splat(Contents(h.memory, h.velocityRead), f.x, f.y,
           f.dx, f.dy, cfg.forceStrength, cfg.forceRadius)
      && Contents(r.memory, r.dyeRead) == DyeSplat(Contents(h.memory, h.dyeRead), f.x, f.y, f.color, cfg.forceRadius * 1.5)
      && Keeps(h.memory, r.memory, PressurePair) && Keeps(h.memory, r.memory, Scratch)
      && r.advection == h.advection
      && Issues(h.commands, r.commands, [AddForce, AddDye])
  {
    var h1 := VelocitySplatPass(h, cfg, f);
    var r := ForcePass(h, cfg, f);
    var c1 := Command(AddForce, To(h.velocityWrite), [h.velocityRead]);
    var c2 := Command(AddDye, To(h1.dyeWrite), [h1.dyeRead]);
    IssuesOne(h.commands, c1);
    IssuesOne(h1.commands, c2);
    IssuesChain(h.commands, h1.commands, r.commands, [AddForce], [AddDye]);
  }

  /** The forces loop: `|fs|` swaps of each of the velocity and the dye
      pair, the read buffers hold the forces folded in list order, the
      pressure and divergence targets are untouched. */
  lemma {:induction false} ApplyForcesFacts(g: Gpu, cfg: Config, fs: seq<Force>)
    requires Paired(g)
    ensures var r := ApplyForces(g, cfg, fs);
      && Paired(r)
      && r.velocityRead == (if |fs| % 2 == 0 then g.velocityRead else g.velocityWrite)
      && r.velocityWrite == (if |fs| % 2 == 0 then g.velocityWrite else g.velocityRead)
      && r.dyeRead == (if |fs| % 2 == 0 then g.dyeRead else g.dyeWrite)
      && r.dyeWrite == (if |fs| % 2 == 0 then g.dyeWrite else g.dyeRead)
      && r.pressureRead == g.pressureRead && r.pressureWrite == g.pressureWrite
      && Contents(r.memory, r.velocityRead) == ForcedVelocity(Contents(g.memory, g.velocityRead), cfg, fs)
      && Contents(r.memory, r.dyeRead) == ForcedDye(Contents(g.memory, g.dyeRead), cfg, fs)
      && Keeps(g.memory, r.memory, PressurePair) && Keeps(g.memory, r.memory, Scratch)
      && r.advection == g.advection
  {
    if fs != [] {
      var init, f := fs[..|fs| - 1], fs[|fs| - 1];
      ApplyForcesFacts(g, cfg, init);
      var h := ApplyForces(g, cfg, init);
      assert |fs| % 2 == 0 <==> |init| % 2 == 1;
      ForcePassFacts(h, cfg, f);
      assert ApplyForces(g, cfg, fs) == ForcePass(h, cfg, f);
      assert ForcedVelocity(Contents(g.memory, g.velocityRead), cfg, fs)
          == Splat(ForcedVelocity(Contents(g.memory, g.velocityRead), cfg, init), f.x, f.y,
                   f.dx, f.dy, cfg.forceStrength, cfg.forceRadius);
      assert ForcedDye(Contents(g.memory, g.dyeRead), cfg, fs)
          == DyeSplat(ForcedDye(Contents(g.memory, g.dyeRead), cfg, init), f.x, f.y, f.color, cfg.forceRadius * 1.5);
    }
  }

  /** The forces loop issues one velocity and one dye splat per force. */
  lemma {:induction false} ApplyForcesCommands(g: Gpu, cfg: Config, fs: seq<Force>)
    requires Paired(g)
    ensures Issues(g.commands, ApplyForces(g, cfg, fs).commands, Repeat([AddForce, AddDye], |fs|))
  {
    if fs == [] {
      IssuesNothing(g.commands);
    } else {
      var init, f := fs[..|fs| - 1], fs[|fs| - 1];
      ApplyForcesFacts(g, cfg, init);
      ApplyForcesCommands(g, cfg, init);
      var h := ApplyForces(g, cfg, init);
      ForcePassFacts(h, cfg, f);
      IssuesChain(g.commands, h.commands, ForcePass(h, cfg, f).commands,
                  Repeat([AddForce, AddDye], |init|), [AddForce, AddDye]);
    }
  }

  lemma DiffusePassFacts(h: Gpu, cfg: Config)
    requires Paired(h)
    ensures var r := DiffusePass(h, cfg);
      && Paired(r)
      && r.velocityRead == h.velocityWrite && r.velocityWrite == h.velocityRead
      && r.dyeRead == h.dyeRead && r.dyeWrite == h.dyeWrite
      && r.pressureRead == h.pressureRead && r.pressureWrite == h.pressureWrite
      && Contents(r.memory, r.velocityRead) == Diffused(Contents(h.memory, h.velocityRead), cfg.viscosity)
      && Keeps(h.memory, r.memory, DyePair) && Keeps(h.memory, r.memory, PressurePair)
      && Keeps(h.memory, r.memory, Scratch)
      && r.advection == h.advection
      && Issues(h.commands, r.commands, [Diffuse])
  {
    IssuesOne(h.commands, Command(Diffuse, To(h.velocityWrite), [h.velocityRead]));
  }

  /** `n` diffusion passes: `n` velocity swaps, the velocity read buffer
      holds `n` diffusions, every dye, pressure and divergence target is
      untouched. */
  lemma {:induction false} DiffusePassesFacts(g: Gpu, cfg: Config, n: nat)
    requires Paired(g)
    ensures var r := DiffusePasses(g, cfg, n);
      && Paired(r)
      && r.velocityRead == (if n % 2 == 0 then g.velocityRead else g.velocityWrite)
      && r.velocityWrite == (if n % 2 == 0 then g.velocityWrite else g.velocityRead)
      && r.dyeRead == g.dyeRead && r.dyeWrite == g.dyeWrite
      && r.pressureRead == g.pressureRead && r.pressureWrite == g.pressureWrite
      && Contents(r.memory, r.velocityRead) == DiffusedN(Contents(g.memory, g.velocityRead), cfg.viscosity, n)
      && Keeps(g.memory, r.memory, DyePair) && Keeps(g.memory, r.memory, PressurePair)
      && Keeps(g.memory, r.memory, Scratch)
      && r.advection == g.advection
      && Issues(g.commands, r.commands, Repeat([Diffuse], n))
  {
    if n == 0 {
      IssuesNothing(g.commands);
    } else {
      DiffusePassesFacts(g, cfg, n - 1);
      var h := DiffusePasses(g, cfg, n - 1);
      assert n % 2 == 0 <==> (n - 1) % 2 == 1;
      DiffusePassFacts(h, cfg);
      IssuesChain(g.commands, h.commands, DiffusePass(h, cfg).commands, Repeat([Diffuse], n - 1), [Diffuse]);
    }
  }

  lemma JacobiPassFacts(h: Gpu)
    requires Paired(h)
    ensures var r := JacobiPass(h);
      && Paired(r)
      && r.pressureRead == h.pressureWrite && r.pressureWrite == h.pressureRead
      && r.velocityRead == h.velocityRead && r.velocityWrite == h.velocityWrite
      && r.dyeRead == h.dyeRead && r.dyeWrite == h.dyeWrite
      && Contents(r.memory, r.pressureRead) == JacobiStep(Contents(h.memory, h.pressureRead), Contents(h.memory, Divergence))
      && Keeps(h.memory, r.memory, VelocityPair) && Keeps(h.memory, r.memory, DyePair)
      && Keeps(h.memory, r.memory, Scratch)
      && r.advection == h.advection
      && Issues(h.commands, r.commands, [Jacobi])
  {
    IssuesOne(h.commands, Command(Jacobi, To(h.pressureWrite), [h.pressureRead, Divergence]));
  }

  /** `n` Jacobi iterations: `n` pressure swaps, the pressure read buffer
      holds `n` iterations from what it held, against the divergence
      target; every velocity, dye and divergence target is untouched. */
  lemma {:induction false} JacobiPassesFacts(g: Gpu, n: nat)
    requires Paired(g)
    ensures var r := JacobiPasses(g, n);
      && Paired(r)
      && r.pressureRead == (if n % 2 == 0 then g.pressureRead else g.pressureWrite)
      && r.pressureWrite == (if n % 2 == 0 then g.pressureWrite else g.pressureRead)
      && r.velocityRead == g.velocityRead && r.velocityWrite == g.velocityWrite
      && r.dyeRead == g.dyeRead && r.dyeWrite == g.dyeWrite
      && Contents(r.memory, r.pressureRead) == JacobiN(Contents(g.memory, g.pressureRead), Contents(g.memory, Divergence), n)
      && Keeps(g.memory, r.memory, VelocityPair) && Keeps(g.memory, r.memory, DyePair)
      && Keeps(g.memory, r.memory, Scratch)
      && r.advection == g.advection
      && Issues(g.commands, r.commands, Repeat([Jacobi], n))
  {
    if n == 0 {
      IssuesNothing(g.commands);
    } else {
      JacobiPassesFacts(g, n - 1);
      var h := JacobiPasses(g, n - 1);
      assert n % 2 == 0 <==> (n - 1) % 2 == 1;
      JacobiPassFacts(h);
      IssuesChain(g.commands, h.commands, JacobiPass(h).commands, Repeat([Jacobi], n - 1), [Jacobi]);
    }
  }

  /** The divergence pass and the pressure clear: the divergence target
      holds the divergence of the current velocity, the current pressure
      buffer is zero, and no buffer is swapped. */
  lemma ProjectionSetupFacts(h: Gpu)
    requires Paired(h)
    ensures var r := ClearPass(DivergencePass(h), h.pressureRead);
      && r.velocityRead == h.velocityRead && r.velocityWrite == h.velocityWrite
      && r.dyeRead == h.dyeRead && r.dyeWrite == h.dyeWrite
      && r.pressureRead == h.pressureRead && r.pressureWrite == h.pressureWrite
      && Contents(r.memory, Divergence) == DivergenceOf(Contents(h.memory, h.velocityRead))
      && Contents(r.memory, r.pressureRead) == Zero
      && Keeps(h.memory, r.memory, VelocityPair) && Keeps(h.memory, r.memory, DyePair)
      && r.advection == h.advection
      && Issues(h.commands, r.commands, [ComputeDivergence, Clear])
  {
    var h1 := DivergencePass(h);
    IssuesOne(h.commands, Command(ComputeDivergence, To(Divergence), [h.velocityRead]));
    IssuesOne(h1.commands, Command(Clear, To(h.pressureRead), []));
    IssuesChain(h.commands, h1.commands, ClearPass(h1, h.pressureRead).commands, [ComputeDivergence], [Clear]);
  }

  /** The gradient subtraction and the two advections: the velocity pair is
      swapped twice and the dye pair once; the new current velocity is the
      advected projection and the new current dye is the dye advected
      along it with the dye dissipation and texel size. */
  lemma ProjectionAndAdvectionFacts(h: Gpu, cfg: Config, dt: real)
    requires Paired(h)
    ensures var r := AdvectDyePass(AdvectVelocityPass(GradientPass(h), cfg, dt), cfg);
      var projected := GradientSubtracted(Contents(h.memory, h.pressureRead), Contents(h.memory, h.velocityRead));
      var velocity := Advected(projected, projected, dt, cfg.velocityDissipation, h.advection.texelSize);
      && Paired(r)
      && r.velocityRead == h.velocityRead && r.velocityWrite == h.velocityWrite
      && r.dyeRead == h.dyeWrite && r.dyeWrite == h.dyeRead
      && r.pressureRead == h.pressureRead && r.pressureWrite == h.pressureWrite
      && Contents(r.memory, r.velocityRead) == velocity
      && Contents(r.memory, r.dyeRead) == Advected(velocity, Contents(h.memory, h.dyeRead), dt, cfg.dyeDissipation, DyeTexel(cfg))
      && Keeps(h.memory, r.memory, PressurePair) && Keeps(h.memory, r.memory, Scratch)
      && r.advection == AdvectionUniforms(dt, cfg.dyeDissipation, DyeTexel(cfg))
      && Issues(h.commands, r.commands, [SubtractGradient, Advect, Advect])
  {
    var h1 := GradientPass(h);
    var h2 := AdvectVelocityPass(h1, cfg, dt);
    var r := AdvectDyePass(h2, cfg);
    IssuesOne(h.commands, Command(SubtractGradient, To(h.velocityWrite), [h.pressureRead, h.velocityRead]));
    IssuesOne(h1.commands, Command(Advect, To(h1.velocityWrite), [h1.velocityRead, h1.velocityRead]));
    IssuesOne(h2.commands, Command(Advect, To(h2.dyeWrite), [h2.velocityRead, h2.dyeRead]));
    IssuesChain(h.commands, h1.commands, h2.commands, [SubtractGradient], [Advect]);
    IssuesChain(h.commands, h2.commands, r.commands, [SubtractGradient, Advect], [Advect]);
  }

  /** Swap parity of one step: the velocity pair is swapped |fs| + 6 times,
      the dye pair |fs| + 1 times and the pressure pair once per Jacobi
      iteration, so the current velocity buffer flips iff |fs| is odd, the
      current dye buffer iff |fs| is even, and the pairs stay distinct. */
  lemma StepHandles(g: Gpu, cfg: Config, dt: real, fs: seq<Force>)
    requires Paired(g)
    ensures var r := StepGpu(g, cfg, dt, fs);
      && Paired(r)
      && r.velocityRead == (if |fs| % 2 == 0 then g.velocityRead else g.velocityWrite)
      && r.dyeRead == (if |fs| % 2 == 0 then g.dyeWrite else g.dyeRead)
      && r.pressureRead == (if cfg.pressureIterations % 2 == 0 then g.pressureRead else g.pressureWrite)
  {
    var g1 := ApplyForces(g, cfg, fs);
    ApplyForcesFacts(g, cfg, fs);
    var g2 := DiffusePasses(g1, cfg, DiffusionPasses);
    DiffusePassesFacts(g1, cfg, DiffusionPasses);
    assert g2.velocityRead == g1.velocityRead && g2.dyeRead == g1.dyeRead && g2.dyeWrite == g1.dyeWrite;
    var g4 := ClearPass(DivergencePass(g2), g2.pressureRead);
    ProjectionSetupFacts(g2);
    var g5 := JacobiPasses(g4, cfg.pressureIterations);
    JacobiPassesFacts(g4, cfg.pressureIterations);
    assert g5.velocityRead == g1.velocityRead && g5.dyeWrite == g1.dyeWrite && g5.dyeRead == g1.dyeRead;
    ProjectionAndAdvectionFacts(g5, cfg, dt);
  }

  /** The command stream of one step: exactly the schedule's passes, in
      order, appended to what was issued before, and no pass samples the
      target it draws into. */
  lemma StepCommands(g: Gpu, cfg: Config, dt: real, fs: seq<Force>)
    requires Paired(g)
    ensures Issues(g.commands, StepGpu(g, cfg, dt, fs).commands, Schedule(|fs|, cfg.pressureIterations))
    ensures |StepGpu(g, cfg, dt, fs).commands| == |g.commands| + 2 * |fs| + cfg.pressureIterations + 9
  {
    var g1 := ApplyForces(g, cfg, fs);
    ApplyForcesFacts(g, cfg, fs);
    ApplyForcesCommands(g, cfg, fs);
    var g2 := DiffusePasses(g1, cfg, DiffusionPasses);
    DiffusePassesFacts(g1, cfg, DiffusionPasses);
    var g4 := ClearPass(DivergencePass(g2), g2.pressureRead);
    ProjectionSetupFacts(g2);
    var g5 := JacobiPasses(g4, cfg.pressureIterations);
    JacobiPassesFacts(g4, cfg.pressureIterations);
    ProjectionAndAdvectionFacts(g5, cfg, dt);
    var r := StepGpu(g, cfg, dt, fs);
    var pf := Repeat([AddForce, AddDye], |fs|);
    var pd := Repeat([Diffuse], DiffusionPasses);
    var pj := Repeat([Jacobi], cfg.pressureIterations);
    IssuesChain(g.commands, g1.commands, g2.commands, pf, pd);
    IssuesChain(g.commands, g2.commands, g4.commands, pf + pd, [ComputeDivergence, Clear]);
    IssuesChain(g.commands, g4.commands, g5.commands, pf + pd + [ComputeDivergence, Clear], pj);
    IssuesChain(g.commands, g5.commands, r.commands, pf + pd + [ComputeDivergence, Clear] + pj,
                [SubtractGradient, Advect, Advect]);
    ScheduleLength(|fs|, cfg.pressureIterations);
  }

  /** What one step computes, independently of the buffer assignment: the
      new current velocity is the advected projection of the forced and
      diffused velocity; the pressure consumed is the Jacobi iterations
      started from the cleared buffer (the cleared buffer itself when there
      are none); the new current dye is the forced dye advected along the
      new velocity with the dye dissipation and the dye texel size; and when
      the step returns the advection texel size is the simulation's again. */
  lemma StepDataflow(g: Gpu, cfg: Config, dt: real, fs: seq<Force>)
    requires Paired(g) && g.advection.texelSize == SimTexel(cfg)
    ensures var r := StepGpu(g, cfg, dt, fs);
      var v := Contents(g.memory, g.velocityRead);
      && Contents(r.memory, r.velocityRead) == StepVelocity(v, cfg, dt, fs)
      && Contents(r.memory, r.dyeRead) == StepDye(v, Contents(g.memory, g.dyeRead), cfg, dt, fs)
      && Contents(r.memory, r.pressureRead) == SolvedPressure(v, cfg, fs)
      && Contents(r.memory, Divergence) == DivergenceOf(PreProjection(v, cfg, fs))
      && r.advection == AdvectionUniforms(dt, cfg.dyeDissipation, SimTexel(cfg))
  {
    var v := Contents(g.memory, g.velocityRead);
    var g1 := ApplyForces(g, cfg, fs);
    ApplyForcesFacts(g, cfg, fs);
    var g2 := DiffusePasses(g1, cfg, DiffusionPasses);
    DiffusePassesFacts(g1, cfg, DiffusionPasses);
    assert Contents(g2.memory, g2.dyeRead) == ForcedDye(Contents(g.memory, g.dyeRead), cfg, fs);
    var g4 := ClearPass(DivergencePass(g2), g2.pressureRead);
    ProjectionSetupFacts(g2);
    var g5 := JacobiPasses(g4, cfg.pressureIterations);
    JacobiPassesFacts(g4, cfg.pressureIterations);
    assert Contents(g5.memory, g5.dyeRead) == ForcedDye(Contents(g.memory, g.dyeRead), cfg, fs);
    ProjectionAndAdvectionFacts(g5, cfg, dt);
  }

  /** Clearing a list of targets zeroes exactly those targets, keeps
      every handle and the advection material, and issues one unaliased
      clear per target. */
  lemma {:induction false} ClearAllFacts(g: Gpu, ts: seq<Target>)
    ensures var r := ClearAll(g, ts);
      && (forall t :: Contents(r.memory, t) == if t in ts then Zero else Contents(g.memory, t))
      && r.velocityRead == g.velocityRead && r.velocityWrite == g.velocityWrite
      && r.dyeRead == g.dyeRead && r.dyeWrite == g.dyeWrite
      && r.pressureRead == g.pressureRead && r.pressureWrite == g.pressureWrite
      && r.advection == g.advection
      && Issues(g.commands, r.commands, Repeat([Clear], |ts|))
  {
    if ts == [] {
      IssuesNothing(g.commands);
    } else {
      var init, t := ts[..|ts| - 1], ts[|ts| - 1];
      ClearAllFacts(g, init);
      var h := ClearAll(g, init);
      assert ts == init + [t];
      IssuesOne(h.commands, Command(Clear, To(t), []));
      IssuesChain(g.commands, h.commands, ClearPass(h, t).commands, Repeat([Clear], |init|), [Clear]);
    }
  }

  /** Reset zeroes every velocity, dye and pressure target, whichever
      buffer of its pair is current, keeps the divergence target and every
      handle, and issues six unaliased clears. */
  lemma ResetClears(g: Gpu)
    requires Paired(g)
    ensures var r := ResetGpu(g);
      && Paired(r)
      && r.velocityRead == g.velocityRead && r.dyeRead == g.dyeRead && r.pressureRead == g.pressureRead
      && (forall t :: Contents(r.memory, t) == if RoleOf(t) == Scratch then Contents(g.memory, t) else Zero)
      && r.advection == g.advection
      && Issues(g.commands, r.commands, Repeat([Clear], 6))
  {
    var ts := [g.velocityRead, g.velocityWrite, g.dyeRead, g.dyeWrite, g.pressureRead, g.pressureWrite];
    ClearAllFacts(g, ts);
    forall t ensures (t in ts) == (RoleOf(t) != Scratch) {
      if RoleOf(t) == VelocityPair {
        assert t == g.velocityRead || t == g.velocityWrite;
      } else if RoleOf(t) == DyePair {
        assert t == g.dyeRead || t == g.dyeWrite;
      } else if RoleOf(t) == PressurePair {
        assert t == g.pressureRead || t == g.pressureWrite;
      }
    }
  }

  /** Rendering issues one display pass, which draws to the screen and so
      into no buffer it samples, and leaves every target's contents and
      every buffer assignment as they were. */
  lemma RenderFacts(g: Gpu)
    ensures var r := Rendered(g);
      && r.memory == g.memory
      && r.velocityRead == g.velocityRead && r.velocityWrite == g.velocityWrite
      && r.dyeRead == g.dyeRead && r.dyeWrite == g.dyeWrite
      && r.pressureRead == g.pressureRead && r.pressureWrite == g.pressureWrite
      && r.advection == g.advection
      && Issues(g.commands, r.commands, [Display])
      && r.commands[|g.commands|].sources == [g.velocityRead, g.dyeRead]
  {
    IssuesOne(g.commands, Command(Display, Screen, [g.velocityRead, g.dyeRead]));
  }

  // ---------------------------------------------------------------------
  // The solver object

  class FluidSimulation {
    const config: Config
    const simTexelSize: real
    const dyeTexelSize: real

    var velocityRead: Target
    var velocityWrite: Target
    var dyeRead: Target
    var dyeWrite: Target
    const divergence: Target
    var pressureRead: Target
    var pressureWrite: Target

    /** What the GPU holds in each render target. */
    var memory: Memory
    /** The passes and clears issued to the renderer so far. */
    var commands: seq<Command>
    var advection: AdvectionUniforms
    var display: DisplayUniforms

    var palette: real
    const filmThickness: real
    const colorIntensity: real
    var time: real
    var speed: real

    function State(): Gpu
      reads this
    {
      Gpu(velocityRead, velocityWrite, dyeRead, dyeWrite, pressureRead, pressureWrite,
          memory, commands, advection)
    }

    ghost predicate Valid()
      reads this
    {
      && Paired(State())
      && divergence == Divergence
      && simTexelSize == SimTexel(config)
      && dyeTexelSize == DyeTexel(config)
      && advection.texelSize == simTexelSize
      && SpeedMin <= speed <= SpeedMax
      && 0.0 <= palette <= PaletteMax
    }

    /** Merges the configuration, computes the texel sizes and allocates
        the seven targets (fresh targets hold zeros). */
    constructor (overrides: Overrides)
      ensures Valid()
      ensures config == Merge(overrides)
      ensures velocityRead == Velocity0 && velocityWrite == Velocity1
      ensures dyeRead == Dye0 && dyeWrite == Dye1
      ensures pressureRead == Pressure0 && pressureWrite == Pressure1
      ensures memory == Blank && commands == []
      ensures advection == AdvectionUniforms(0.016, config.velocityDissipation, SimTexel(config))
      ensures display == DisplayUniforms(None, None, 0.0, 1.5, 1.0, 0.0, NoAudio)
      ensures palette == 0.0 && filmThickness == 1.5 && colorIntensity == 1.0
      ensures time == 0.0 && speed == 1.0
    {
      var cfg := Merge(overrides);
      config := cfg;
      simTexelSize := TexelSize(cfg.simResolution);
      dyeTexelSize := TexelSize(cfg.dyeResolution);
      velocityRead, velocityWrite := Velocity0, Velocity1;
      dyeRead, dyeWrite := Dye0, Dye1;
      divergence := Divergence;
      pressureRead, pressureWrite := Pressure0, Pressure1;
      memory := Blank;
      commands := [];
      advection := AdvectionUniforms(0.016, cfg.velocityDissipation, TexelSize(cfg.simResolution));
      display := DisplayUniforms(None, None, 0.0, 1.5, 1.0, 0.0, NoAudio);
      palette := 0.0;
      filmThickness := 1.5;
      colorIntensity := 1.0;
      time := 0.0;
      speed := 1.0;
    }

    /** `blit(dest)` with the current material: `dest` receives the pass's
        result and the command is issued. */
    method RunPass(pass: Pass, dest: Target, sources: seq<Target>, value: Field)
      modifies this
      ensures State() == Blit(old(State()), pass, dest, sources, value)
      ensures time == old(time) && speed == old(speed) && palette == old(palette)
      ensures display == old(display)
    {
      memory := memory[dest := value];
      commands := commands + [Command(pass, To(dest), sources)];
    }

    method SwapVelocityBuffers()
      modifies this
      ensures State() == SwapVelocity(old(State()))
      ensures time == old(time) && speed == old(speed) && palette == old(palette)
      ensures display == old(display)
    {
      var temp := velocityRead;
      velocityRead := velocityWrite;
      velocityWrite := temp;
    }

    method SwapDyeBuffers()
      modifies this
      ensures State() == SwapDye(old(State()))
      ensures time == old(time) && speed == old(speed) && palette == old(palette)
      ensures display == old(display)
    {
      var temp := dyeRead;
      dyeRead := dyeWrite;
      dyeWrite := temp;
    }

    method SwapPressureBuffers()
      modifies this
      ensures State() == SwapPressure(old(State()))
      ensures time == old(time) && speed == old(speed) && palette == old(palette)
      ensures display == old(display)
    {
      var temp := pressureRead;
      pressureRead := pressureWrite;
      pressureWrite := temp;
    }

    /** Advances the simulation by `deltaTime` scaled by the speed setting. */
    method Step(deltaTime: real, forces: seq<Force>, audio: Bands)
      requires Valid()
      modifies this
      ensures Valid()
      ensures State() == StepGpu(old(State()), config, Scaled(deltaTime, old(speed)), forces)
      ensures time == old(time) + Scaled(deltaTime, old(speed))
      ensures speed == old(speed) && palette == old(palette) && display == old(display)
    {
      var dt := Scaled(deltaTime, speed);
      time := time + dt;
      ApplyForcesLoop(forces);
      DiffuseLoop();
      ProjectLoop();
      AdvectBoth(dt);
      StepHandles(old(State()), config, dt, forces);
    }

    /** The forces loop of `step`. */
    method ApplyForcesLoop(forces: seq<Force>)
      modifies this
      ensures State() == ApplyForces(old(State()), config, forces)
      ensures time == old(time) && speed == old(speed) && palette == old(palette)
      ensures display == old(display)
    {
      ghost var g0 := State();
      for i := 0 to |forces|
        invariant State() == ApplyForces(g0, config, forces[..i])
        invariant time == old(time) && speed == old(speed) && palette == old(palette)
        invariant display == old(display)
      {
        var force := forces[i];
        assert forces[..i + 1][..i] == forces[..i];
        ghost var before := State();
        RunPass(AddForce, velocityWrite, [velocityRead],
                Splat(Contents(memory, velocityRead), force.x, force.y,
                      force.dx, force.dy, config.forceStrength, config.forceRadius));
        SwapVelocityBuffers();
        ghost var middle := State();
        assert middle == VelocitySplatPass(before, config, force);
        RunPass(AddDye, dyeWrite, [dyeRead],
                DyeSplat(Contents(memory, dyeRead), force.x, force.y, force.color, config.forceRadius * 1.5));
        SwapDyeBuffers();
        assert State() == DyeSplatPass(middle, config, force);
        assert State() == ForcePass(before, config, force);
        assert ApplyForces(g0, config, forces[..i + 1]) == ForcePass(ApplyForces(g0, config, forces[..i]), config, force);
      }
      assert forces[..|forces|] == forces;
    }

    /** The diffusion loop of `step`. */
    method DiffuseLoop()
      modifies this
      ensures State() == DiffusePasses(old(State()), config, DiffusionPasses)
      ensures time == old(time) && speed == old(speed) && palette == old(palette)
      ensures display == old(display)
    {
      ghost var g0 := State();
      for i := 0 to DiffusionPasses
        invariant State() == DiffusePasses(g0, config, i)
        invariant time == old(time) && speed == old(speed) && palette == old(palette)
        invariant display == old(display)
      {
        RunPass(Diffuse, velocityWrite, [velocityRead], Diffused(Contents(memory, velocityRead), config.viscosity));
        SwapVelocityBuffers();
      }
    }

    /** The divergence pass, the pressure clear and the Jacobi loop of `step`. */
    method ProjectLoop()
      requires divergence == Divergence
      modifies this
      ensures State() == JacobiPasses(ClearPass(DivergencePass(old(State())), old(pressureRead)), config.pressureIterations)
      ensures time == old(time) && speed == old(speed) && palette == old(palette)
      ensures display == old(display)
    {
      RunPass(ComputeDivergence, divergence, [velocityRead], DivergenceOf(Contents(memory, velocityRead)));
      RunPass(Clear, pressureRead, [], Zero);
      ghost var g0 := State();
      for i := 0 to config.pressureIterations
        invariant State() == JacobiPasses(g0, i)
        invariant time == old(time) && speed == old(speed) && palette == old(palette)
        invariant display == old(display)
      {
        RunPass(Jacobi, pressureWrite, [pressureRead, divergence],
                JacobiStep(Contents(memory, pressureRead), Contents(memory, divergence)));
        SwapPressureBuffers();
      }
    }

    /** The gradient subtraction and the two advections of `step`; the
        advection material gets its simulation texel size back at the end. */
    method AdvectBoth(dt: real)
      requires dyeTexelSize == DyeTexel(config) && simTexelSize == SimTexel(config)
      modifies this
      ensures var g := AdvectDyePass(AdvectVelocityPass(GradientPass(old(State())), config, dt), config);
        State() == g.(advection := g.advection.(texelSize := SimTexel(config)))
      ensures time == old(time) && speed == old(speed) && palette == old(palette)
      ensures display == old(display)
    {
      RunPass(SubtractGradient, velocityWrite, [pressureRead, velocityRead],
              GradientSubtracted(Contents(memory, pressureRead), Contents(memory, velocityRead)));
      SwapVelocityBuffers();

      advection := advection.(deltaTime := dt, dissipation := config.velocityDissipation);
      RunPass(Advect, velocityWrite, [velocityRead, velocityRead],
              Advected(Contents(memory, velocityRead), Contents(memory, velocityRead),
                       advection.deltaTime, advection.dissipation, advection.texelSize));
      SwapVelocityBuffers();

      advection := advection.(dissipation := config.dyeDissipation, texelSize := dyeTexelSize);
      RunPass(Advect, dyeWrite, [velocityRead, dyeRead],
              Advected(Contents(memory, velocityRead), Contents(memory, dyeRead),
                       advection.deltaTime, advection.dissipation, advection.texelSize));
      SwapDyeBuffers();

      advection := advection.(texelSize := simTexelSize);
    }

    /** The display pass: samples the current velocity and dye buffers,
        draws to the screen, and changes no target, buffer assignment, time
        or setting. */
    method Render(audio: Bands)
      requires Valid()
      modifies this
      ensures Valid()
      ensures display == DisplayUniforms(Some(velocityRead), Some(dyeRead), time,
                                         filmThickness, colorIntensity, palette, audio)
      ensures State() == Rendered(old(State()))
      ensures time == old(time) && speed == old(speed) && palette == old(palette)
    {
      display := DisplayUniforms(Some(velocityRead), Some(dyeRead), time,
                                 filmThickness, colorIntensity, palette, audio);
      commands := commands + [Command(Display, Screen, [velocityRead, dyeRead])];
    }

    method SetPalette(index: real)
      requires Valid()
      modifies this
      ensures Valid()
      ensures palette == ClampPalette(index)
      ensures State() == old(State()) && display == old(display)
      ensures time == old(time) && speed == old(speed)
    {
      palette := Max(0.0, Min(8.0, index));
    }

    method SetSpeed(newSpeed: real)
      requires Valid()
      modifies this
      ensures Valid()
      ensures speed == ClampSpeed(newSpeed)
      ensures State() == old(State()) && display == old(display)
      ensures time == old(time) && palette == old(palette)
    {
      speed := Max(0.1, Min(3.0, newSpeed));
    }

    /** `setSpeed(getSpeed() + delta)` */
    method AdjustSpeed(delta: real)
      requires Valid()
      modifies this
      ensures Valid()
      ensures speed == ClampSpeed(old(speed) + delta)
      ensures State() == old(State()) && display == old(display)
      ensures time == old(time) && palette == old(palette)
    {
      SetSpeed(speed + delta);
    }

    method GetSpeed() returns (s: real)
      requires Valid()
      ensures s == speed
      ensures SpeedMin <= s <= SpeedMax
    {
      s := speed;
    }

    /** Clears the six ping-pong targets (the divergence target is left as
        it is) and restarts the time; the buffer assignment and the settings
        stay. */
    method Reset()
      requires Valid()
      modifies this
      ensures Valid()
      ensures State() == ResetGpu(old(State()))
      ensures time == 0.0 && speed == old(speed) && palette == old(palette)
      ensures display == old(display)
    {
      ghost var g0 := State();
      ghost var ts := [velocityRead, velocityWrite, dyeRead, dyeWrite, pressureRead, pressureWrite];
      assert ts[..0] == [];
      RunPass(Clear, velocityRead, [], Zero);
      assert ts[..1][..0] == ts[..0];
      assert State() == ClearAll(g0, ts[..1]);
      RunPass(Clear, velocityWrite, [], Zero);
      assert ts[..2][..1] == ts[..1];
      assert State() == ClearAll(g0, ts[..2]);
      RunPass(Clear, dyeRead, [], Zero);
      assert ts[..3][..2] == ts[..2];
      assert State() == ClearAll(g0, ts[..3]);
      RunPass(Clear, dyeWrite, [], Zero);
      assert ts[..4][..3] == ts[..3];
      assert State() == ClearAll(g0, ts[..4]);
      RunPass(Clear, pressureRead, [], Zero);
      assert ts[..5][..4] == ts[..4];
      assert State() == ClearAll(g0, ts[..5]);
      RunPass(Clear, pressureWrite, [], Zero);
      assert ts[..6][..5] == ts[..5];
      assert ts[..6] == ts;
      time := 0.0;
    }
  }
}
