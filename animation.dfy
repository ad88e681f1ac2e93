/** The idle animation (src/animation/AutoAnimator.ts): a few wanderers
    drift over the canvas along a noise-driven heading, wrap inside a
    padded band and push a force whenever they moved noticeably. The
    source's Math.random() draws and its sine/cosine noise are parameters:
    a `WandererDraw` per wanderer and a `steer` function from the noise
    parameter t to the cosine and sine of the heading. */
module Animation {
  import opened JsMath
  import opened Options
  import opened Input

  /** How many wanderers the animator keeps. */
  const NumWanderers: nat := 3

  /** The band a wanderer stays in is [Padding, 1 - Padding]. */
  const Padding: real := 0.1

  /** A wanderer emits no force while both velocity components stay below this. */
  const EmissionThreshold: real := 0.0001

  /** The cosine and sine of the heading the noise gives at some t. */
  datatype Heading = Heading(cos: real, sin: real)

  /** The four Math.random() values a new wanderer draws, in order. */
  datatype WandererDraw = WandererDraw(x: real, y: real, speed: real, noise: real)

  predicate IsWandererDraw(d: WandererDraw) {
    IsRandom(d.x) && IsRandom(d.y) && IsRandom(d.speed) && IsRandom(d.noise)
  }

  /** The fields of one wanderer. */
  datatype WandererState = WandererState(
    x: real, y: real, lastX: real, lastY: real, hue: real, speed: real, noiseOffset: real)

  /** The padded edge wrap: a coordinate below the band jumps to its top,
      one above it to its bottom, and one inside stays. */
  function Wrap(v: real): (r: real)
    ensures Padding <= r <= 1.0 - Padding
    ensures v < Padding ==> r == 1.0 - Padding
    ensures v > 1.0 - Padding ==> r == Padding
    ensures Padding <= v <= 1.0 - Padding ==> r == v
  {
    var a := if v < Padding then 1.0 - Padding else v;
    if a > 1.0 - Padding then Padding else a
  }

  predicate Still(dx: real, dy: real) {
    Abs(dx) < EmissionThreshold && Abs(dy) < EmissionThreshold
  }

  /** A new wanderer: at a random position that is also its previous one,
      with the given hue, a speed in [0.3, 0.6) and a noise offset in
      [0, 1000). */
  function Spawn(hueOffset: real, d: WandererDraw): (w: WandererState)
    ensures w.x == d.x && w.y == d.y && w.lastX == w.x && w.lastY == w.y
    ensures w.hue == hueOffset
    ensures IsWandererDraw(d) ==> 0.3 <= w.speed < 0.6 && 0.0 <= w.noiseOffset < 1000.0
  {
    WandererState(d.x, d.y, d.x, d.y, hueOffset, 0.3 + d.speed * 0.3, d.noise * 1000.0)
  }

  /** The wanderers the constructor and `reset` build: the i-th with hue
      i / NumWanderers. */
  function Initial(draws: seq<WandererDraw>): (ws: seq<WandererState>)
    ensures |ws| == |draws|
    ensures forall i :: 0 <= i < |ws| ==> ws[i] == Spawn(i as real / NumWanderers as real, draws[i])
    ensures forall i :: 0 <= i < |ws| ==> ws[i].hue == i as real / NumWanderers as real
    ensures forall i :: 0 <= i < |ws| ==>
      ws[i].x == draws[i].x && ws[i].y == draws[i].y && ws[i].lastX == ws[i].x && ws[i].lastY == ws[i].y
    ensures forall i :: 0 <= i < |ws| && IsWandererDraw(draws[i]) ==>
      0.3 <= ws[i].speed < 0.6 && 0.0 <= ws[i].noiseOffset < 1000.0
  {
    seq(|draws|, i requires 0 <= i < |draws| => Spawn(i as real / NumWanderers as real, draws[i]))
  }

  /** Hues of a freshly built animator lie in [0, 1). */
  lemma InitialHues(draws: seq<WandererDraw>)
    requires |draws| == NumWanderers
    ensures forall i :: 0 <= i < |draws| ==> 0.0 <= Initial(draws)[i].hue < 1.0
  {
    forall i | 0 <= i < |draws|
      ensures 0.0 <= Initial(draws)[i].hue < 1.0
    {
      assert Initial(draws)[i].hue == i as real / 3.0;
    }
  }

  /** The noise parameter of a wanderer at `time`. */
  function Phase(time: real, speed: real, noiseOffset: real): real {
    time * speed + noiseOffset
  }

  /** The displacement along one axis whose heading component is `c`: the
      base rate 0.2 per second, tripled at full audio level. */
  function Drift(c: real, dt: real, audio: real): real {
    c * dt * 0.2 * (1.0 + audio * 2.0)
  }

  /** A velocity component of an emitted force, boosted by the audio level. */
  function Boost(v: real, audio: real): real {
    v * (1.0 + audio)
  }

  /** One `update`: the previous position becomes the last one, the
      position moves along the heading at time * speed + noiseOffset by
      dt * 0.2, sped up by the audio level, and wraps into the band. No
      force comes out iff both components of five times the displacement
      are below the threshold; otherwise the hue advances by dt * 0.02
      (wrapping below 1) and the force sits at the new position with the
      velocity scaled by 1 + audio, in the new hue. */
  function Advance(w: WandererState, time: real, dt: real, audio: real, steer: real -> Heading)
    : (r: (WandererState, Option<Force>))
    ensures r.0.lastX == w.x && r.0.lastY == w.y
    ensures r.0.speed == w.speed && r.0.noiseOffset == w.noiseOffset
    ensures Padding <= r.0.x <= 1.0 - Padding && Padding <= r.0.y <= 1.0 - Padding
    ensures r.1.None? <==> Still((r.0.x - w.x) * 5.0, (r.0.y - w.y) * 5.0)
    ensures r.1.None? ==> r.0.hue == w.hue
    ensures r.1.Some? ==> r.0.hue == Rem1(w.hue + dt * 0.02)
    ensures r.1.Some? ==> r.1.value.x == r.0.x && r.1.value.y == r.0.y
    ensures r.1.Some? ==> r.1.value.color == Hsl(r.0.hue, 0.9, 0.5)
    ensures r.1.Some? ==> r.1.value.dx == Boost((r.0.x - w.x) * 5.0, audio)
    ensures r.1.Some? ==> r.1.value.dy == Boost((r.0.y - w.y) * 5.0, audio)
    ensures 0.0 <= w.hue < 1.0 && 0.0 <= dt ==> 0.0 <= r.0.hue < 1.0
  {
    var h := steer(Phase(time, w.speed, w.noiseOffset));
    var x := Wrap(w.x + Drift(h.cos, dt, audio));
    var y := Wrap(w.y + Drift(h.sin, dt, audio));
    var dx := (x - w.x) * 5.0;
    var dy := (y - w.y) * 5.0;
    if Still(dx, dy) then
      (WandererState(x, y, w.x, w.y, w.hue, w.speed, w.noiseOffset), None)
    else
      var hue := Rem1(w.hue + dt * 0.02);
      (WandererState(x, y, w.x, w.y, hue, w.speed, w.noiseOffset),
       Some(Force(x, y, Boost(dx, audio), Boost(dy, audio), Hsl(hue, 0.9, 0.5))))
  }

  /** Every wanderer after one frame. */
  function AdvanceAll(ws: seq<WandererState>, time: real, dt: real, audio: real, steer: real -> Heading)
    : (r: seq<WandererState>)
    ensures |r| == |ws|
    ensures forall i :: 0 <= i < |ws| ==> r[i] == Advance(ws[i], time, dt, audio, steer).0
  {
    seq(|ws|, i requires 0 <= i < |ws| => Advance(ws[i], time, dt, audio, steer).0)
  }

  /** After a frame every wanderer is inside the padded band, its last
      position is where it stood, and its speed and noise offset stay. */
  lemma AdvanceAllFacts(ws: seq<WandererState>, time: real, dt: real, audio: real, steer: real -> Heading)
    ensures var r := AdvanceAll(ws, time, dt, audio, steer);
      && (forall i :: 0 <= i < |ws| ==>
            Padding <= r[i].x <= 1.0 - Padding && Padding <= r[i].y <= 1.0 - Padding)
      && (forall i :: 0 <= i < |ws| ==>
            r[i].lastX == ws[i].x && r[i].lastY == ws[i].y &&
            r[i].speed == ws[i].speed && r[i].noiseOffset == ws[i].noiseOffset)
  {
  }

  /** The forces of one frame: those the wanderers emit, in wanderer order. */
  function Emitted(ws: seq<WandererState>, time: real, dt: real, audio: real, steer: real -> Heading)
    : (r: seq<Force>)
    decreases |ws|
  {
    if ws == [] then []
    else
      var e := Advance(ws[|ws| - 1], time, dt, audio, steer).1;
      Emitted(ws[..|ws| - 1], time, dt, audio, steer) + (if e.Some? then [e.value] else [])
  }

  /** Taking one more wanderer adds its force, if it emits one, at the end. */
  lemma EmittedSnoc(ws: seq<WandererState>, i: nat, time: real, dt: real, audio: real, steer: real -> Heading)
    requires i < |ws|
    ensures var e := Advance(ws[i], time, dt, audio, steer).1;
      Emitted(ws[..i + 1], time, dt, audio, steer)
        == Emitted(ws[..i], time, dt, audio, steer) + (if e.Some? then [e.value] else [])
  {
    assert ws[..i + 1][..i] == ws[..i];
  }

  /** At most one force per wanderer, each inside the padded band. */
  lemma {:induction false} EmittedBounds(ws: seq<WandererState>, time: real, dt: real, audio: real, steer: real -> Heading)
    ensures |Emitted(ws, time, dt, audio, steer)| <= |ws|
    ensures forall f :: f in Emitted(ws, time, dt, audio, steer) ==>
      Padding <= f.x <= 1.0 - Padding && Padding <= f.y <= 1.0 - Padding
    decreases |ws|
  {
    if ws != [] {
      EmittedBounds(ws[..|ws| - 1], time, dt, audio, steer);
    }
  }

  /** Exactly one force per wanderer when none of them is still. */
  lemma {:induction false} EmittedAllMoving(ws: seq<WandererState>, time: real, dt: real, audio: real, steer: real -> Heading)
    requires forall i :: 0 <= i < |ws| ==> Advance(ws[i], time, dt, audio, steer).1.Some?
    ensures |Emitted(ws, time, dt, audio, steer)| == |ws|
    ensures forall i :: 0 <= i < |ws| ==>
      Emitted(ws, time, dt, audio, steer)[i] == Advance(ws[i], time, dt, audio, steer).1.value
    decreases |ws|
  {
    if ws != [] {
      var init := ws[..|ws| - 1];
      assert forall i :: 0 <= i < |init| ==> init[i] == ws[i];
      EmittedAllMoving(init, time, dt, audio, steer);
    }
  }

  /** No force at all when every wanderer is still. */
  lemma {:induction false} EmittedNoneStill(ws: seq<WandererState>, time: real, dt: real, audio: real, steer: real -> Heading)
    requires forall i :: 0 <= i < |ws| ==> Advance(ws[i], time, dt, audio, steer).1.None?
    ensures Emitted(ws, time, dt, audio, steer) == []
    decreases |ws|
  {
    if ws != [] {
      var init := ws[..|ws| - 1];
      assert forall i :: 0 <= i < |init| ==> init[i] == ws[i];
      EmittedNoneStill(init, time, dt, audio, steer);
    }
  }

  class Wanderer {
    var x: real
    var y: real
    var lastX: real
    var lastY: real
    var hue: real
    const speed: real
    const noiseOffset: real

    function State(): WandererState
      reads this
    {
      WandererState(x, y, lastX, lastY, hue, speed, noiseOffset)
    }

    constructor (hueOffset: real, draw: WandererDraw)
      ensures State() == Spawn(hueOffset, draw)
    {
      x := draw.x;
      y := draw.y;
      lastX := draw.x;
      lastY := draw.y;
      hue := hueOffset;
      speed := 0.3 + draw.speed * 0.3;
      noiseOffset := draw.noise * 1000.0;
    }

    method Update(time: real, dt: real, audio: real, steer: real -> Heading) returns (force: Option<Force>)
      modifies this
      ensures State() == Advance(old(State()), time, dt, audio, steer).0
      ensures force == Advance(old(State()), time, dt, audio, steer).1
    {
      lastX := x;
      lastY := y;
      var heading := steer(Phase(time, speed, noiseOffset));
      x := x + Drift(heading.cos, dt, audio);
      y := y + Drift(heading.sin, dt, audio);
      if x < Padding { x := 1.0 - Padding; }
      if x > 1.0 - Padding { x := Padding; }
      if y < Padding { y := 1.0 - Padding; }
      if y > 1.0 - Padding { y := Padding; }
      var dx := (x - lastX) * 5.0;
      var dy := (y - lastY) * 5.0;
      if Abs(dx) < EmissionThreshold && Abs(dy) < EmissionThreshold {
        return None;
      }
      hue := Rem1(hue + dt * 0.02);
      force := Some(Force(x, y, Boost(dx, audio), Boost(dy, audio), Hsl(hue, 0.9, 0.5)));
    }
  }

  ghost function StatesOf(ws: seq<Wanderer>): (r: seq<WandererState>)
    reads ws
    ensures |r| == |ws|
    ensures forall i :: 0 <= i < |ws| ==> r[i] == ws[i].State()
  {
    seq(|ws|, i reads ws requires 0 <= i < |ws| => ws[i].State())
  }

  class AutoAnimator {
    var active: bool
    var time: real
    var wanderers: seq<Wanderer>

    /** The state of every wanderer, in order. */
    ghost function States(): seq<WandererState>
      reads this, wanderers
    {
      StatesOf(wanderers)
    }

    /** Exactly NumWanderers wanderers, no two of them the same object. */
    ghost predicate Valid()
      reads this
    {
      && |wanderers| == NumWanderers
      && forall i, j :: 0 <= i < j < |wanderers| ==> wanderers[i] != wanderers[j]
    }

    constructor (draws: seq<WandererDraw>)
      requires |draws| == NumWanderers
      ensures Valid() && fresh(wanderers)
      ensures active && time == 0.0
      ensures States() == Initial(draws)
    {
      active := true;
      time := 0.0;
      new;
      wanderers := SpawnAll(draws);
    }

    /** Builds one wanderer per draw, the i-th with hue i / NumWanderers. */
    static method SpawnAll(draws: seq<WandererDraw>) returns (ws: seq<Wanderer>)
      ensures |ws| == |draws| && fresh(ws)
      ensures forall i, j :: 0 <= i < j < |ws| ==> ws[i] != ws[j]
      ensures forall i :: 0 <= i < |ws| ==> ws[i].State() == Initial(draws)[i]
    {
      ws := [];
      for i := 0 to |draws|
        invariant |ws| == i && fresh(ws)
        invariant forall j, k :: 0 <= j < k < |ws| ==> ws[j] != ws[k]
        invariant forall j :: 0 <= j < i ==> ws[j].State() == Initial(draws)[j]
      {
        var w := new Wanderer(i as real / NumWanderers as real, draws[i]);
        ws := ws + [w];
      }
    }

    /** Whether the animator is running. */
    function IsActive(): (r: bool)
      reads this
      ensures r <==> active
    {
      active
    }

    method SetActive(value: bool)
      modifies this
      ensures active == value
      ensures time == old(time) && wanderers == old(wanderers)
    {
      active := value;
    }

    /** Toggling twice restores the flag, since each toggle negates it. */
    method Toggle()
      modifies this
      ensures active == !old(active)
      ensures time == old(time) && wanderers == old(wanderers)
    {
      active := !active;
    }

    /** The forces of one frame. Inactive: nothing, and no time passes.
        Active: the clock advances by `deltaTime` and every wanderer is
        updated at the new time, in order, their forces collected. */
    method GetForces(deltaTime: real, audio: real, steer: real -> Heading) returns (forces: seq<Force>)
      requires Valid()
      modifies this, wanderers
      ensures Valid() && wanderers == old(wanderers) && active == old(active)
      ensures !old(active) ==> forces == [] && time == old(time) && States() == old(States())
      ensures old(active) ==> time == old(time) + deltaTime
      ensures old(active) ==> forces == Emitted(old(States()), time, deltaTime, audio, steer)
      ensures old(active) ==> States() == AdvanceAll(old(States()), time, deltaTime, audio, steer)
    {
      if !active {
        return [];
      }
      time := time + deltaTime;
      forces := UpdateAll(wanderers, time, deltaTime, audio, steer);
    }

    /** The wanderer loop of `getForces`: each wanderer in turn is updated
        at `time` and its force, if any, collected. */
    static method UpdateAll(ws: seq<Wanderer>, time: real, deltaTime: real, audio: real, steer: real -> Heading)
      returns (forces: seq<Force>)
      requires forall i, j :: 0 <= i < j < |ws| ==> ws[i] != ws[j]
      modifies ws
      ensures forces == Emitted(old(StatesOf(ws)), time, deltaTime, audio, steer)
      ensures StatesOf(ws) == AdvanceAll(old(StatesOf(ws)), time, deltaTime, audio, steer)
    {
      ghost var before := StatesOf(ws);
      forces := [];
      for i := 0 to |ws|
        invariant forces == Emitted(before[..i], time, deltaTime, audio, steer)
        invariant forall j :: 0 <= j < i ==> ws[j].State() == Advance(before[j], time, deltaTime, audio, steer).0
        invariant forall j :: i <= j < |ws| ==> ws[j].State() == before[j]
      {
        var w := ws[i];
        assert forall j :: 0 <= j < |ws| && j != i ==> ws[j] != w;
        var force := w.Update(time, deltaTime, audio, steer);
        EmittedSnoc(before, i, time, deltaTime, audio, steer);
        if force.Some? {
          forces := forces + [force.value];
        }
      }
      assert before[..|ws|] == before;
    }

    /** Back to time zero with a fresh set of wanderers; the active flag
        stays as it is. */
    method Reset(draws: seq<WandererDraw>)
      requires |draws| == NumWanderers
      modifies this
      ensures Valid() && fresh(wanderers)
      ensures time == 0.0 && active == old(active)
      ensures States() == Initial(draws)
    {
      time := 0.0;
      wanderers := SpawnAll(draws);
    }
  }
}
