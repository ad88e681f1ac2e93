/** The application shell (src/App.ts): it owns the solver, the audio
    analyser, the input manager and the auto-animator, binds the keyboard
    shortcuts, and per frame caps the time step, picks where the frame's
    forces come from, steps the solver once and renders once. The clock,
    the microphone outcome, the wanderers' random draws and the noise
    heading arrive as parameters; the DOM (overlay, indicator, status
    line, fullscreen) is outside the model. */
module Application {
  import opened JsMath
  import opened Options
  import opened Input
  import opened Simulation
  import opened Animation
  import opened Audio

  /** The longest time step a frame may take, in seconds (about 30 fps). */
  const MaxDelta: real := 0.033

  /** `Math.min(clock.getDelta(), 0.033)` */
  function CapDelta(clockDelta: real): (r: real)
    ensures r <= MaxDelta && r <= clockDelta
    ensures clockDelta <= MaxDelta <==> r == clockDelta
    ensures clockDelta >= MaxDelta ==> r == MaxDelta
  {
    Min(clockDelta, MaxDelta)
  }

  /** What each keyboard shortcut does. */
  datatype KeyAction =
    | SelectPalette(digit: nat)
    | ToggleAuto
    | ToggleMic
    | AdjustSpeedBy(delta: real)
    | ResetScene
    | Fullscreen
    | ToggleHelpOverlay
    | CloseHelpOverlay

  /** `String(i)` for a single digit. */
  function DigitKey(i: nat): (k: string)
    requires 1 <= i <= 9
    ensures |k| == 1 && '1' <= k[0] <= '9' && k[0] as int - '0' as int == i
  {
    [('0' as int + i) as char]
  }

  /** The palette bindings for digits 1 to n, as the loop registers them. */
  function DigitBindings(n: nat): (m: map<string, KeyAction>)
    requires n <= 9
  {
    if n == 0 then map[] else DigitBindings(n - 1)[DigitKey(n) := SelectPalette(n)]
  }

  /** Every registration setupKeyboardControls makes, under the lower-cased
      names the input manager stores (`Escape` becomes `escape`). */
  function Bindings(): map<string, KeyAction> {
    DigitBindings(9)
      [" " := ToggleAuto]
      ["m" := ToggleMic]
      ["=" := AdjustSpeedBy(0.1)]
      ["+" := AdjustSpeedBy(0.1)]
      ["-" := AdjustSpeedBy(-0.1)]
      ["r" := ResetScene]
      ["f" := Fullscreen]
      ["h" := ToggleHelpOverlay]
      ["escape" := CloseHelpOverlay]
  }

  /** Digit i is bound to palette selection i among the first n digits. */
  lemma {:induction false} DigitBindingsSelect(n: nat, i: nat)
    requires 1 <= i <= n <= 9
    ensures DigitKey(i) in DigitBindings(n) && DigitBindings(n)[DigitKey(i)] == SelectPalette(i)
  {
    if i < n {
      DigitBindingsSelect(n - 1, i);
      assert DigitKey(i) != DigitKey(n) by {
        assert DigitKey(i)[0] != DigitKey(n)[0];
      }
    }
  }

  /** The first n digits are the only names the palette loop binds. */
  lemma {:induction false} DigitBindingsKeys(n: nat)
    requires n <= 9
    ensures forall k :: k in DigitBindings(n) ==> exists i :: 1 <= i <= n && k == DigitKey(i)
  {
    if n > 0 {
      DigitBindingsKeys(n - 1);
    }
  }

  /** The names of the shortcuts other than the palette digits. */
  const ShortcutNames: set<string> := {" ", "m", "=", "+", "-", "r", "f", "h", "escape"}

  /** No key other than the digits 1 to 9 and the shortcut names is
      bound, so every other key only marks itself pressed. */
  lemma BoundKeys()
    ensures forall k :: k in Bindings() ==> k in ShortcutNames || exists i :: 1 <= i <= 9 && k == DigitKey(i)
  {
    DigitBindingsKeys(9);
  }

  /** Digit keys 1 to 9 select palettes 1 to 9. */
  lemma DigitKeysSelectPalettes()
    ensures forall i :: 1 <= i <= 9 ==> DigitKey(i) in Bindings() && Bindings()[DigitKey(i)] == SelectPalette(i)
  {
    forall i | 1 <= i <= 9
      ensures DigitKey(i) in Bindings() && Bindings()[DigitKey(i)] == SelectPalette(i)
    {
      DigitBindingsSelect(9, i);
      var k := DigitKey(i);
      assert k != " " && k != "m" && k != "=" && k != "+" && k != "-" by {
        assert k[0] != ' ' && k[0] != 'm' && k[0] != '=' && k[0] != '+' && k[0] != '-';
      }
      assert k != "r" && k != "f" && k != "h" && k != "escape" by {
        assert k[0] != 'r' && k[0] != 'f' && k[0] != 'h';
      }
    }
  }

  /** `=` and `+` speed up by 0.1 and `-` slows down by 0.1. */
  lemma SpeedKeys()
    ensures Bindings()["="] == AdjustSpeedBy(0.1) && Bindings()["+"] == AdjustSpeedBy(0.1)
    ensures Bindings()["-"] == AdjustSpeedBy(-0.1)
  {
  }

  /** Space toggles the animator and `m` the microphone. */
  lemma ToggleKeys()
    ensures Bindings()[" "] == ToggleAuto && Bindings()["m"] == ToggleMic
  {
  }

  /** `r` resets the scene and `f` asks for fullscreen. */
  lemma SceneKeys()
    ensures Bindings()["r"] == ResetScene && Bindings()["f"] == Fullscreen
  {
  }

  /** `h` toggles the help overlay and Escape closes it. */
  lemma HelpKeys()
    ensures Bindings()["h"] == ToggleHelpOverlay && Bindings()["escape"] == CloseHelpOverlay
  {
  }

  /** A digit's name is its own lower case. */
  lemma DigitKeyLower(i: nat)
    requires 1 <= i <= 9
    ensures Lower(DigitKey(i)) == DigitKey(i)
  {
    assert Lower(DigitKey(i))[0] == DigitKey(i)[0];
  }

  /** The other shortcut names are their own lower case, except Escape,
      which is stored as `escape`. */
  lemma ShortcutNamesLower()
    ensures Lower(" ") == " " && Lower("m") == "m" && Lower("=") == "="
    ensures Lower("+") == "+" && Lower("-") == "-" && Lower("r") == "r"
    ensures Lower("f") == "f" && Lower("h") == "h" && Lower("Escape") == "escape"
  {
    assert Lower(" ")[0] == ' ';
    assert Lower("m")[0] == 'm';
    assert Lower("=")[0] == '=';
    assert Lower("+")[0] == '+';
    assert Lower("-")[0] == '-';
    assert Lower("r")[0] == 'r';
    assert Lower("f")[0] == 'f';
    assert Lower("h")[0] == 'h';
    var e := Lower("Escape");
    assert e[0] == 'e' && e[1] == 's' && e[2] == 'c' && e[3] == 'a' && e[4] == 'p' && e[5] == 'e';
  }

  // ---------------------------------------------------------------------
  // What a shortcut does

  /** Everything a shortcut can change: the solver's buffers, time and
      settings, the analyser, the animator, and the two flags. */
  datatype Scene = Scene(
    gpu: Gpu,
    time: real,
    speed: real,
    palette: real,
    display: DisplayUniforms,
    audio: AnalyzerState,
    autoActive: bool,
    autoTime: real,
    wanderers: seq<WandererState>,
    showHelp: bool,
    isRunning: bool)

  /** The scene after a shortcut's callback, given the microphone outcome a
      toggle would get and the random draws a reset would take. Each action
      changes only its own part of the scene. */
  function AfterAction(s: Scene, action: KeyAction, grant: Option<Microphone>, draws: seq<WandererDraw>)
    : (r: Scene)
    ensures r.isRunning == s.isRunning && r.display == s.display
    ensures action.SelectPalette? ==> r.palette == ClampPalette((action.digit - 1) as real)
    ensures !action.SelectPalette? ==> r.palette == s.palette
    ensures action.AdjustSpeedBy? ==> r.speed == ClampSpeed(s.speed + action.delta)
    ensures !action.AdjustSpeedBy? ==> r.speed == s.speed
    ensures action.ResetScene? ==>
      r.gpu == ResetGpu(s.gpu) && r.time == 0.0 && r.autoTime == 0.0 && r.wanderers == Initial(draws)
    ensures !action.ResetScene? ==>
      r.gpu == s.gpu && r.time == s.time && r.autoTime == s.autoTime && r.wanderers == s.wanderers
    ensures action.ToggleMic? ==> r.audio == Toggled(s.audio, grant).0
    ensures !action.ToggleMic? ==> r.audio == s.audio
    ensures action.ToggleAuto? ==> r.autoActive == !s.autoActive
    ensures !action.ToggleAuto? ==> r.autoActive == s.autoActive
    ensures action.ToggleHelpOverlay? ==> r.showHelp == !s.showHelp
    ensures action.CloseHelpOverlay? ==> !r.showHelp
    ensures !action.ToggleHelpOverlay? && !action.CloseHelpOverlay? ==> r.showHelp == s.showHelp
    ensures action.Fullscreen? ==> r == s
  {
    match action
    case SelectPalette(digit) => s.(palette := ClampPalette((digit - 1) as real))
    case ToggleAuto => s.(autoActive := !s.autoActive)
    case ToggleMic => s.(audio := Toggled(s.audio, grant).0)
    case AdjustSpeedBy(delta) => s.(speed := ClampSpeed(s.speed + delta))
    case ResetScene => s.(gpu := ResetGpu(s.gpu), time := 0.0, autoTime := 0.0, wanderers := Initial(draws))
    case Fullscreen => s
    case ToggleHelpOverlay => s.(showHelp := !s.showHelp)
    case CloseHelpOverlay => s.(showHelp := false)
  }

  /** Pressing h twice restores the scene. */
  lemma HelpTwice(s: Scene, grant: Option<Microphone>, draws: seq<WandererDraw>)
    ensures AfterAction(AfterAction(s, ToggleHelpOverlay, grant, draws), ToggleHelpOverlay, grant, draws) == s
  {
  }

  /** Escape hides the help when it is shown and otherwise changes nothing. */
  lemma EscapeEffect(s: Scene, grant: Option<Microphone>, draws: seq<WandererDraw>)
    ensures s.showHelp ==> AfterAction(s, CloseHelpOverlay, grant, draws) == s.(showHelp := false)
    ensures !s.showHelp ==> AfterAction(s, CloseHelpOverlay, grant, draws) == s
  {
  }

  /** Pressing digit i sets the palette to i - 1 and changes nothing else. */
  lemma DigitKeyEffect(s: Scene, i: nat, grant: Option<Microphone>, draws: seq<WandererDraw>)
    requires 1 <= i <= 9
    ensures DigitKey(i) in Bindings()
    ensures AfterAction(s, Bindings()[DigitKey(i)], grant, draws) == s.(palette := (i - 1) as real)
  {
    DigitKeysSelectPalettes();
  }

  /** `=` and `+` speed up by 0.1 and `-` slows down by 0.1, within the
      speed bounds, and nothing else changes. */
  lemma SpeedKeyEffects(s: Scene, grant: Option<Microphone>, draws: seq<WandererDraw>)
    ensures AfterAction(s, Bindings()["="], grant, draws) == s.(speed := ClampSpeed(s.speed + 0.1))
    ensures AfterAction(s, Bindings()["+"], grant, draws) == s.(speed := ClampSpeed(s.speed + 0.1))
    ensures AfterAction(s, Bindings()["-"], grant, draws) == s.(speed := ClampSpeed(s.speed - 0.1))
  {
    SpeedKeys();
  }

  /** Whether a frame takes its forces from the input manager: while the
      user interacts, or whenever the animator is off. */
  /** The scene a new app starts from: the solver's initial handle
      assignment with blank targets and no commands, time 0, speed 1,
      palette 0, no display textures yet, the analyser released, the
      animator on at time 0 with its initial wanderers, help shown and the
      app not running. */
  function Opening(draws: seq<WandererDraw>): (r: Scene)
    ensures r.gpu.memory == Blank && r.gpu.commands == [] && Paired(r.gpu)
    ensures r.time == 0.0 && r.autoTime == 0.0 && r.wanderers == Initial(draws)
    ensures r.audio == Released && r.autoActive && r.showHelp && !r.isRunning
  {
    Scene(Gpu(Velocity0, Velocity1, Dye0, Dye1, Pressure0, Pressure1, Blank, [],
              AdvectionUniforms(0.016, DefaultConfig.velocityDissipation, SimTexel(DefaultConfig))),
          0.0, 1.0, 0.0, DisplayUniforms(None, None, 0.0, 1.5, 1.0, 0.0, NoAudio),
          Released, true, 0.0, Initial(draws), true, false)
  }

  predicate FromInput(interacting: bool, autoActive: bool) {
    interacting || !autoActive
  }

  /** The audio bands the display pass reads. */
  function ToBands(d: AudioData): Bands {
    Bands(d.bass, d.mids, d.highs)
  }

  class App {
    const simulation: FluidSimulation
    const audio: AudioAnalyzer
    const input: InputManager<KeyAction>
    const autoAnimator: AutoAnimator
    var isRunning: bool
    var showHelp: bool
    /** The shortcut table registered at construction. */
    ghost const bindings: map<string, KeyAction>

    /** Everything a shortcut can change, as one value. */
    ghost function Observed(): Scene
      reads this, simulation, audio, autoAnimator, autoAnimator.wanderers
    {
      Scene(simulation.State(), simulation.time, simulation.speed, simulation.palette, simulation.display,
            audio.State(), autoAnimator.active, autoAnimator.time, autoAnimator.States(), showHelp, isRunning)
    }

    /** Every component is consistent and the shortcuts stay registered. */
    ghost predicate Valid()
      reads this, simulation, audio, input, autoAnimator
    {
      && simulation.Valid() && audio.Valid() && input.Valid() && autoAnimator.Valid()
      && input.keyCallbacks == bindings
    }

    /** Builds the components with the solver's default configuration and
        registers the shortcuts; not running, help shown. */
    constructor (draws: seq<WandererDraw>)
      requires |draws| == NumWanderers
      ensures Valid()
      ensures fresh(simulation) && fresh(audio) && fresh(input) && fresh(autoAnimator)
      ensures bindings == Bindings()
      ensures simulation.config == DefaultConfig
      ensures !audio.active && autoAnimator.active
      ensures !isRunning && showHelp
      ensures Observed() == Opening(draws)
      ensures !input.interacting && input.forces == [] && input.keys == {} && input.colorHue == 0.0
      ensures input.currentPos == Point(0.0, 0.0) && input.lastPos == Point(0.0, 0.0)
    {
      simulation := new FluidSimulation(NoOverrides);
      audio := new AudioAnalyzer();
      input := new InputManager<KeyAction>();
      autoAnimator := new AutoAnimator(draws);
      isRunning := false;
      showHelp := true;
      bindings := Bindings();
      new;
      SetupKeyboardControls();
    }

    /** Registers the palette digits 1 to 9 in order, then the other
        shortcuts. */
    method SetupKeyboardControls()
      requires input.Valid() && input.keyCallbacks == map[]
      modifies input
      ensures input.Valid()
      ensures input.keyCallbacks == Bindings()
      ensures input.keys == old(input.keys) && input.forces == old(input.forces)
      ensures input.interacting == old(input.interacting)
      ensures input.currentPos == old(input.currentPos) && input.lastPos == old(input.lastPos)
      ensures input.colorHue == old(input.colorHue)
    {
      RegisterPalettes();
      RegisterShortcuts();
    }

    /** Digit i selects palette i - 1, for i from 1 to 9. */
    method RegisterPalettes()
      requires input.Valid() && input.keyCallbacks == map[]
      modifies input
      ensures input.Valid()
      ensures input.keyCallbacks == DigitBindings(9)
      ensures input.keys == old(input.keys) && input.forces == old(input.forces)
      ensures input.interacting == old(input.interacting)
      ensures input.currentPos == old(input.currentPos) && input.lastPos == old(input.lastPos)
      ensures input.colorHue == old(input.colorHue)
    {
      for i := 1 to 10
        invariant input.Valid() && input.keyCallbacks == DigitBindings(i - 1)
        invariant input.keys == old(input.keys) && input.forces == old(input.forces)
        invariant input.interacting == old(input.interacting)
        invariant input.currentPos == old(input.currentPos) && input.lastPos == old(input.lastPos)
        invariant input.colorHue == old(input.colorHue)
      {
        DigitKeyLower(i);
        input.OnKey(DigitKey(i), SelectPalette(i));
      }
    }

    /** The shortcuts other than the palette digits. */
    method RegisterShortcuts()
      requires input.Valid() && input.keyCallbacks == DigitBindings(9)
      modifies input
      ensures input.Valid()
      ensures input.keyCallbacks == Bindings()
      ensures input.keys == old(input.keys) && input.forces == old(input.forces)
      ensures input.interacting == old(input.interacting)
      ensures input.currentPos == old(input.currentPos) && input.lastPos == old(input.lastPos)
      ensures input.colorHue == old(input.colorHue)
    {
      ShortcutNamesLower();
      input.OnKey(" ", ToggleAuto);
      input.OnKey("m", ToggleMic);
      input.OnKey("=", AdjustSpeedBy(0.1));
      input.OnKey("+", AdjustSpeedBy(0.1));
      input.OnKey("-", AdjustSpeedBy(-0.1));
      input.OnKey("r", ResetScene);
      input.OnKey("f", Fullscreen);
      input.OnKey("h", ToggleHelpOverlay);
      input.OnKey("Escape", CloseHelpOverlay);
    }

    method ToggleHelp()
      modifies this
      ensures showHelp == !old(showHelp) && isRunning == old(isRunning)
    {
      showHelp := !showHelp;
    }

    /** Starting a running app does nothing; otherwise it is marked running
        (the frame loop that then calls Update is outside the model). */
    method Start()
      modifies this
      ensures isRunning
      ensures showHelp == old(showHelp)
    {
      if isRunning {
        return;
      }
      isRunning := true;
    }

    method Stop()
      modifies this
      ensures !isRunning
      ensures showHelp == old(showHelp)
    {
      isRunning := false;
    }

    /** What a shortcut does, given the microphone outcome a toggle would
        get and the random draws a reset would take. */
    method Perform(action: KeyAction, grant: Option<Microphone>, draws: seq<WandererDraw>)
      requires Valid() && |draws| == NumWanderers
      requires grant.Some? ==> BandsFit(RateOf(Some(AudioContext(grant.value.sampleRate))), BinCount)
      modifies this, simulation, audio, autoAnimator
      ensures Valid()
      ensures isRunning == old(isRunning)
      ensures action.SelectPalette? ==>
        simulation.palette == ClampPalette((action.digit - 1) as real) && simulation.State() == old(simulation.State())
      ensures action.AdjustSpeedBy? ==>
        simulation.speed == ClampSpeed(old(simulation.speed) + action.delta) && simulation.State() == old(simulation.State())
      ensures action.ToggleAuto? ==> autoAnimator.active == !old(autoAnimator.active)
      ensures action.ToggleMic? && old(audio.active) ==> !audio.active
      ensures action.ToggleMic? && !old(audio.active) ==> audio.active == grant.Some?
      ensures action.ResetScene? ==>
        && simulation.State() == ResetGpu(old(simulation.State())) && simulation.time == 0.0
        && simulation.speed == old(simulation.speed) && simulation.palette == old(simulation.palette)
        && autoAnimator.time == 0.0 && autoAnimator.active == old(autoAnimator.active)
        && autoAnimator.States() == Initial(draws)
      ensures action.ToggleHelpOverlay? ==> showHelp == !old(showHelp)
      ensures action.CloseHelpOverlay? ==> !showHelp
      ensures !action.ToggleHelpOverlay? && !action.CloseHelpOverlay? ==> showHelp == old(showHelp)
      ensures action.Fullscreen? || action.CloseHelpOverlay? ==>
        && simulation.State() == old(simulation.State()) && simulation.speed == old(simulation.speed)
        && simulation.palette == old(simulation.palette)
        && audio.active == old(audio.active) && autoAnimator.active == old(autoAnimator.active)
      ensures Observed() == AfterAction(old(Observed()), action, grant, draws)
    {
      Dispatch(action, grant, draws);
    }

    /** The callback of a shortcut, run against the scene it changes. */
    method Dispatch(action: KeyAction, grant: Option<Microphone>, draws: seq<WandererDraw>)
      requires Valid() && |draws| == NumWanderers
      requires grant.Some? ==> BandsFit(RateOf(Some(AudioContext(grant.value.sampleRate))), BinCount)
      modifies this, simulation, audio, autoAnimator
      ensures Valid()
      ensures Observed() == AfterAction(old(Observed()), action, grant, draws)
    {
      match action
      case SelectPalette(i) =>
        ChoosePalette((i - 1) as real);
      case ToggleAuto =>
        ToggleAnimator();
      case ToggleMic =>
        ToggleMicrophone(grant);
      case AdjustSpeedBy(delta) =>
        ChangeSpeed(delta);
      case ResetScene =>
        ResetAll(draws);
      case Fullscreen =>
      case ToggleHelpOverlay =>
        ToggleHelp();
      case CloseHelpOverlay =>
        if showHelp {
          ToggleHelp();
        }
    }

    /** A digit shortcut: the palette takes the digit's index, clamped. */
    method ChoosePalette(index: real)
      requires Valid()
      modifies simulation
      ensures Valid()
      ensures Observed() == old(Observed()).(palette := ClampPalette(index))
    {
      simulation.SetPalette(index);
    }

    /** The space shortcut: the animator is switched on or off. */
    method ToggleAnimator()
      requires Valid()
      modifies autoAnimator
      ensures Valid()
      ensures Observed() == AfterAction(old(Observed()), ToggleAuto, None, [])
    {
      autoAnimator.Toggle();
    }

    /** The speed shortcuts: the speed moves by `delta`, clamped. */
    method ChangeSpeed(delta: real)
      requires Valid()
      modifies simulation
      ensures Valid()
      ensures Observed() == AfterAction(old(Observed()), AdjustSpeedBy(delta), None, [])
    {
      simulation.AdjustSpeed(delta);
    }

    /** The `m` shortcut: the analyser is toggled and nothing else changes. */
    method ToggleMicrophone(grant: Option<Microphone>)
      requires Valid()
      requires grant.Some? ==> BandsFit(RateOf(Some(AudioContext(grant.value.sampleRate))), BinCount)
      modifies audio
      ensures Valid()
      ensures Observed() == AfterAction(old(Observed()), ToggleMic, grant, [])
    {
      var _ := audio.Toggle(grant);
    }

    /** The `r` shortcut: the solver and the animator are reset. */
    method ResetAll(draws: seq<WandererDraw>)
      requires Valid() && |draws| == NumWanderers
      modifies simulation, autoAnimator
      ensures Valid()
      ensures Observed() == AfterAction(old(Observed()), ResetScene, None, draws)
    {
      simulation.Reset();
      autoAnimator.Reset(draws);
    }

    /** keydown: the input manager records the key and hands back the
        action bound to its lower-cased name, which is then performed. */
    method HandleKeyDown(key: string, grant: Option<Microphone>, draws: seq<WandererDraw>)
      returns (performed: Option<KeyAction>)
      requires Valid() && |draws| == NumWanderers
      requires grant.Some? ==> BandsFit(RateOf(Some(AudioContext(grant.value.sampleRate))), BinCount)
      modifies this, simulation, audio, input, autoAnimator
      ensures Valid()
      ensures input.keys == old(input.keys) + {Lower(key)}
      ensures input.forces == old(input.forces) && input.interacting == old(input.interacting)
      ensures input.currentPos == old(input.currentPos) && input.lastPos == old(input.lastPos)
      ensures input.colorHue == old(input.colorHue)
      ensures performed == if Lower(key) in bindings then Some(bindings[Lower(key)]) else None
      ensures performed.None? ==>
        && simulation.State() == old(simulation.State()) && simulation.speed == old(simulation.speed)
        && simulation.palette == old(simulation.palette) && audio.active == old(audio.active)
        && autoAnimator.active == old(autoAnimator.active) && showHelp == old(showHelp)
      ensures Observed()
        == if performed.Some? then AfterAction(old(Observed()), performed.value, grant, draws) else old(Observed())
    {
      performed := input.OnKeyDown(key);
      assert Observed() == old(Observed());
      if performed.Some? {
        Perform(performed.value, grant, draws);
      }
    }

    /** One animation frame: the time step is capped, the audio levels
        read, the forces gathered, then the solver steps once and renders
        once, both with this frame's audio. */
    method Update(clockDelta: real, spectrum: seq<int>, steer: real -> Heading)
      returns (ghost forces: seq<Force>, ghost audioData: AudioData)
      requires Valid()
      requires audio.active ==> |spectrum| == BinCount && IsSpectrum(spectrum)
      modifies simulation, audio, input, autoAnimator, autoAnimator.wanderers
      ensures Valid()
      ensures audioData == if old(audio.active)
        then SmoothData(old(audio.smoothed), RawLevels(spectrum, RateOf(audio.context)))
        else Silence
      ensures FromInput(old(input.interacting), old(autoAnimator.active)) ==>
        && forces == old(input.forces) && input.forces == []
        && autoAnimator.time == old(autoAnimator.time) && autoAnimator.States() == old(autoAnimator.States())
      ensures !FromInput(old(input.interacting), old(autoAnimator.active)) ==>
        && autoAnimator.time == old(autoAnimator.time) + CapDelta(clockDelta)
        && forces == Emitted(old(autoAnimator.States()), autoAnimator.time, CapDelta(clockDelta), audioData.bass, steer)
        && autoAnimator.States()
           == AdvanceAll(old(autoAnimator.States()), autoAnimator.time, CapDelta(clockDelta), audioData.bass, steer)
        && input.forces == old(input.forces)
      ensures simulation.State()
        == Rendered(StepGpu(old(simulation.State()), simulation.config, Scaled(CapDelta(clockDelta), old(simulation.speed)), forces))
      ensures simulation.time == old(simulation.time) + Scaled(CapDelta(clockDelta), old(simulation.speed))
      ensures simulation.display == DisplayUniforms(Some(simulation.velocityRead), Some(simulation.dyeRead),
        simulation.time, simulation.filmThickness, simulation.colorIntensity, simulation.palette, ToBands(audioData))
      ensures simulation.speed == old(simulation.speed) && simulation.palette == old(simulation.palette)
      ensures audio.State() == old(audio.State()).(
        dataArray := if old(audio.active) then Some(spectrum) else old(audio.dataArray), smoothed := audioData)
      ensures autoAnimator.active == old(autoAnimator.active)
      ensures input.interacting == old(input.interacting) && input.keys == old(input.keys)
      ensures input.currentPos == old(input.currentPos) && input.lastPos == old(input.lastPos)
      ensures input.colorHue == old(input.colorHue)
    {
      var deltaTime, data, fs := Sense(clockDelta, spectrum, steer);
      ghost var states, sound, queue, clock := autoAnimator.States(), audio.State(), input.forces, autoAnimator.time;
      StepAndRender(deltaTime, fs, ToBands(data));
      assert autoAnimator.States() == states && audio.State() == sound;
      assert input.forces == queue && autoAnimator.time == clock;
      forces, audioData := fs, data;
    }

    /** The first half of a frame: the capped time step, the audio levels
        and the frame's forces. */
    method Sense(clockDelta: real, spectrum: seq<int>, steer: real -> Heading)
      returns (deltaTime: real, data: AudioData, fs: seq<Force>)
      requires input.Valid() && audio.Valid() && autoAnimator.Valid()
      requires audio.active ==> |spectrum| == BinCount && IsSpectrum(spectrum)
      modifies audio, input, autoAnimator, autoAnimator.wanderers
      ensures input.Valid() && audio.Valid() && autoAnimator.Valid()
      ensures input.keyCallbacks == old(input.keyCallbacks)
      ensures deltaTime == CapDelta(clockDelta)
      ensures data == if old(audio.active)
        then SmoothData(old(audio.smoothed), RawLevels(spectrum, RateOf(audio.context)))
        else Silence
      ensures FromInput(old(input.interacting), old(autoAnimator.active)) ==>
        && fs == old(input.forces) && input.forces == []
        && autoAnimator.time == old(autoAnimator.time) && autoAnimator.States() == old(autoAnimator.States())
      ensures !FromInput(old(input.interacting), old(autoAnimator.active)) ==>
        && autoAnimator.time == old(autoAnimator.time) + deltaTime
        && fs == Emitted(old(autoAnimator.States()), autoAnimator.time, deltaTime, data.bass, steer)
        && autoAnimator.States() == AdvanceAll(old(autoAnimator.States()), autoAnimator.time, deltaTime, data.bass, steer)
        && input.forces == old(input.forces)
      ensures audio.State() == old(audio.State()).(
        dataArray := if old(audio.active) then Some(spectrum) else old(audio.dataArray), smoothed := data)
      ensures autoAnimator.active == old(autoAnimator.active)
      ensures input.interacting == old(input.interacting) && input.keys == old(input.keys)
      ensures input.currentPos == old(input.currentPos) && input.lastPos == old(input.lastPos)
      ensures input.colorHue == old(input.colorHue)
    {
      deltaTime := CapDelta(clockDelta);
      ghost var states := autoAnimator.States();
      data := audio.GetFrequencyData(spectrum);
      assert autoAnimator.States() == states;
      fs := FrameForces(deltaTime, data.bass, steer);
    }

    /** The solver's share of a frame: one step, then one render. */
    method StepAndRender(deltaTime: real, fs: seq<Force>, bands: Bands)
      requires simulation.Valid()
      modifies simulation
      ensures simulation.Valid()
      ensures simulation.State() == Rendered(StepGpu(old(simulation.State()), simulation.config, Scaled(deltaTime, old(simulation.speed)), fs))
      ensures simulation.time == old(simulation.time) + Scaled(deltaTime, old(simulation.speed))
      ensures simulation.display == DisplayUniforms(Some(simulation.velocityRead), Some(simulation.dyeRead),
        simulation.time, simulation.filmThickness, simulation.colorIntensity, simulation.palette, bands)
      ensures simulation.speed == old(simulation.speed) && simulation.palette == old(simulation.palette)
    {
      simulation.Step(deltaTime, fs, bands);
      simulation.Render(bands);
    }

    /** The forces of one frame: the input manager's while the user
        interacts, else the animator's when it is active, else the input
        manager's (then normally none). */
    method FrameForces(deltaTime: real, bass: real, steer: real -> Heading) returns (fs: seq<Force>)
      requires input.Valid() && autoAnimator.Valid()
      modifies input, autoAnimator, autoAnimator.wanderers
      ensures input.Valid() && autoAnimator.Valid()
      ensures input.keyCallbacks == old(input.keyCallbacks)
      ensures autoAnimator.wanderers == old(autoAnimator.wanderers)
      ensures FromInput(old(input.interacting), old(autoAnimator.active)) ==>
        && fs == old(input.forces) && input.forces == []
        && autoAnimator.time == old(autoAnimator.time) && autoAnimator.States() == old(autoAnimator.States())
      ensures !FromInput(old(input.interacting), old(autoAnimator.active)) ==>
        && autoAnimator.time == old(autoAnimator.time) + deltaTime
        && fs == Emitted(old(autoAnimator.States()), autoAnimator.time, deltaTime, bass, steer)
        && autoAnimator.States() == AdvanceAll(old(autoAnimator.States()), autoAnimator.time, deltaTime, bass, steer)
        && input.forces == old(input.forces)
      ensures autoAnimator.active == old(autoAnimator.active)
      ensures input.interacting == old(input.interacting) && input.keys == old(input.keys)
      ensures input.currentPos == old(input.currentPos) && input.lastPos == old(input.lastPos)
      ensures input.colorHue == old(input.colorHue)
    {
      if input.interacting {
        fs := input.GetForces();
      } else if autoAnimator.IsActive() {
        fs := autoAnimator.GetForces(deltaTime, bass, steer);
      } else {
        fs := input.GetForces();
      }
    }
  }
}
