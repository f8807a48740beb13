/** The front end: its configuration globals and the button handlers that
    change them, the per-frame resolution of a reading into the notch values
    handed to the active translator, the display clamp, and the rules that
    decide which buttons are shown. */
module App {
  import opened Const
  import opened Keyboard
  import opened Inputs
  import opened Base
  import Jrets
  import Bve
  import Pcsx2
  import Rpcs3

  /** The configuration globals: target, brake setting, notch limits and the
      four variant flags. */
  datatype Config = Config(
    gameMode: GameMode,
    brakeMode: BrakeMode,
    maxPower: int,
    maxBrake: int,
    midosuji: bool,
    ae100: bool,
    keihan: bool,
    mode787: bool)

  const InitialConfig: Config := Config(JRETS, Mode1, 5, 8, false, false, false, false)

  /** The order in which the target button cycles. */
  const Modes: seq<GameMode> := [JRETS, BVE, PCSX2, RPCS3]

  /** The position of a target in the cycle (`modes.index`). */
  function ModeIndex(g: GameMode): (i: nat)
    ensures i < |Modes| && Modes[i] == g
  {
    match g
    case JRETS => 0
    case BVE => 1
    case PCSX2 => 2
    case RPCS3 => 3
  }

  /** The target after one click: forward for mouse button 1, backward for
      any other button, wrapping around like Python's `%`. */
  function NextMode(g: GameMode, mouseBtn: int): GameMode
  {
    var i := ModeIndex(g);
    Modes[if mouseBtn == 1 then (i + 1) % |Modes| else (i - 1) % |Modes|]
  }

  // ---- the button handlers on the configuration ----

  /** `toggle_game_mode` on the globals: the next target, every variant off,
      limits 5 and 8, brake setting "1". */
  function CycleTarget(c: Config, mouseBtn: int): Config
  {
    Config(NextMode(c.gameMode, mouseBtn), Mode1, 5, 8, false, false, false, false)
  }

  function FlipBrakeMode(c: Config): Config
  {
    c.(brakeMode := if c.brakeMode == Mode1 then Mode2 else Mode1)
  }

  function SwitchMidosuji(c: Config): Config
  {
    if !c.midosuji then
      c.(midosuji := true, ae100 := false, keihan := false, mode787 := false,
         brakeMode := Mode2, maxPower := 4, maxBrake := 6)
    else
      c.(midosuji := false)
  }

  function SwitchAe100(c: Config): Config
  {
    if !c.ae100 then
      c.(ae100 := true, midosuji := false, keihan := false, mode787 := false,
         brakeMode := Mode1, maxPower := 5, maxBrake := 5)
    else
      c.(ae100 := false)
  }

  function SwitchKeihan(c: Config): Config
  {
    if !c.keihan then
      c.(keihan := true, midosuji := false, ae100 := false, mode787 := false,
         brakeMode := Mode1, maxPower := 5, maxBrake := 8)
    else
      c.(keihan := false)
  }

  function Switch787(c: Config): Config
  {
    if !c.mode787 then
      c.(mode787 := true, midosuji := false, ae100 := false, keihan := false,
         brakeMode := Mode2, maxPower := 5, maxBrake := 7)
    else
      c.(mode787 := false)
  }

  /** Some variant is active (`is_special`). */
  predicate IsSpecial(c: Config)
  {
    c.midosuji || c.ae100 || c.keihan || c.mode787
  }

  function RaisePower(c: Config): Config
  {
    if IsSpecial(c) then c else c.(maxPower := Min(5, c.maxPower + 1))
  }

  function LowerPower(c: Config): Config
  {
    if IsSpecial(c) then c else c.(maxPower := Max(1, c.maxPower - 1))
  }

  function RaiseBrake(c: Config): Config
  {
    if IsSpecial(c) then c else c.(maxBrake := Min(8, c.maxBrake + 1))
  }

  function LowerBrake(c: Config): Config
  {
    if IsSpecial(c) then c else c.(maxBrake := Max(1, c.maxBrake - 1))
  }

  /** A click on one of the configuration buttons. */
  datatype Command =
    | TargetButton(mouseBtn: int)
    | BrakeModeButton
    | MidosujiButton
    | Ae100Button
    | KeihanButton
    | Button787
    | PowerUpButton
    | PowerDownButton
    | BrakeUpButton
    | BrakeDownButton

  function Apply(c: Config, cmd: Command): Config
  {
    match cmd
    case TargetButton(b) => CycleTarget(c, b)
    case BrakeModeButton => FlipBrakeMode(c)
    case MidosujiButton => SwitchMidosuji(c)
    case Ae100Button => SwitchAe100(c)
    case KeihanButton => SwitchKeihan(c)
    case Button787 => Switch787(c)
    case PowerUpButton => RaisePower(c)
    case PowerDownButton => LowerPower(c)
    case BrakeUpButton => RaiseBrake(c)
    case BrakeDownButton => LowerBrake(c)
  }

  function Run(c: Config, cmds: seq<Command>): Config
    decreases |cmds|
  {
    if cmds == [] then c else Run(Apply(c, cmds[0]), cmds[1..])
  }

  // ---- the invariant the handlers keep ----

  predicate AtMostOneVariant(c: Config)
  {
    (c.midosuji ==> !c.ae100 && !c.keihan && !c.mode787) &&
    (c.ae100 ==> !c.keihan && !c.mode787) &&
    (c.keihan ==> !c.mode787)
  }

  /** An active variant still has the limits it forced: the adjustment
      handlers are inert while it is on. */
  predicate PresetsHeld(c: Config)
  {
    (c.midosuji ==> c.maxPower == 4 && c.maxBrake == 6) &&
    (c.ae100 ==> c.maxPower == 5 && c.maxBrake == 5) &&
    (c.keihan ==> c.maxPower == 5 && c.maxBrake == 8) &&
    (c.mode787 ==> c.maxPower == 5 && c.maxBrake == 7)
  }

  predicate WellFormed(c: Config)
  {
    AtMostOneVariant(c) && PresetsHeld(c) && 1 <= c.maxPower <= 5 && 1 <= c.maxBrake <= 8
  }

  /** Every handler keeps at most one variant on, the active variant's limits,
      and the limits in 1..5 and 1..8. */
  lemma ApplyKeepsWellFormed(c: Config, cmd: Command)
    requires WellFormed(c)
    ensures WellFormed(Apply(c, cmd))
  {
  }

  /** From the start-up configuration, any sequence of clicks leaves at most
      one variant on and the limits in range. */
  lemma {:induction false} RunKeepsWellFormed(c: Config, cmds: seq<Command>)
    requires WellFormed(c)
    ensures WellFormed(Run(c, cmds))
    ensures AtMostOneVariant(Run(c, cmds)) && 1 <= Run(c, cmds).maxPower <= 5 && 1 <= Run(c, cmds).maxBrake <= 8
    decreases |cmds|
  {
    if cmds != [] {
      ApplyKeepsWellFormed(c, cmds[0]);
      RunKeepsWellFormed(Apply(c, cmds[0]), cmds[1..]);
    }
  }

  lemma InitialIsWellFormed()
    ensures WellFormed(InitialConfig) && !IsSpecial(InitialConfig)
  {
  }

  // ---- properties of the individual handlers ----

  /** A forward click followed by a backward click (or the reverse) restores
      the target; four clicks the same way go all the way round. */
  lemma CycleRoundTrip(g: GameMode, back: int)
    requires back != 1
    ensures NextMode(NextMode(g, 1), back) == g
    ensures NextMode(NextMode(g, back), 1) == g
    ensures NextMode(NextMode(NextMode(NextMode(g, 1), 1), 1), 1) == g
    ensures NextMode(g, 1) != g && NextMode(g, back) != g
  {
    NextModeTable(back);
  }

  /** Forward and backward clicks from each target. */
  lemma NextModeTable(back: int)
    requires back != 1
    ensures NextMode(JRETS, 1) == BVE && NextMode(BVE, 1) == PCSX2
    ensures NextMode(PCSX2, 1) == RPCS3 && NextMode(RPCS3, 1) == JRETS
    ensures NextMode(JRETS, back) == RPCS3 && NextMode(BVE, back) == JRETS
    ensures NextMode(PCSX2, back) == BVE && NextMode(RPCS3, back) == PCSX2
  {
    NextModeSteps(JRETS, back);
    NextModeSteps(BVE, back);
    NextModeSteps(PCSX2, back);
    NextModeSteps(RPCS3, back);
  }

  /** One click moves one place forward or backward in the cycle. */
  lemma NextModeSteps(g: GameMode, back: int)
    requires back != 1
    ensures NextMode(g, 1) == Modes[(ModeIndex(g) + 1) % 4] && NextMode(g, back) == Modes[(ModeIndex(g) + 3) % 4]
  {
    var i: int := ModeIndex(g);
    assert (i - 1) % 4 == (i + 3) % 4;
  }

  /** Changing the target clears every variant, restores the default limits
      and brake setting, and a forward-then-backward pair restores the target
      whatever the configuration was. */
  lemma CycleTargetRestoresDefaults(c: Config, mouseBtn: int, back: int)
    requires back != 1
    ensures var r := CycleTarget(c, mouseBtn);
      !IsSpecial(r) && WellFormed(r) && r.maxPower == 5 && r.maxBrake == 8 && r.brakeMode == Mode1
    ensures CycleTarget(CycleTarget(c, 1), back).gameMode == c.gameMode
    ensures CycleTarget(CycleTarget(c, 1), back) == InitialConfig.(gameMode := c.gameMode)
  {
    CycleRoundTrip(c.gameMode, back);
  }

  /** The brake-setting button is an involution that always changes the
      setting and touches nothing else. */
  lemma FlipBrakeModeIsInvolution(c: Config)
    ensures FlipBrakeMode(FlipBrakeMode(c)) == c
    ensures FlipBrakeMode(c).brakeMode != c.brakeMode
    ensures FlipBrakeMode(c).(brakeMode := c.brakeMode) == c
  {
  }

  /** Enabling a variant turns the other three off and forces its brake
      setting and limits; disabling it clears its own flag and nothing else. */
  lemma VariantPresets(c: Config)
    ensures !c.midosuji ==> var r := SwitchMidosuji(c);
      r.midosuji && !r.ae100 && !r.keihan && !r.mode787 && r.gameMode == c.gameMode &&
      (r.brakeMode, r.maxPower, r.maxBrake) == (Mode2, 4, 6)
    ensures !c.ae100 ==> var r := SwitchAe100(c);
      r.ae100 && !r.midosuji && !r.keihan && !r.mode787 && r.gameMode == c.gameMode &&
      (r.brakeMode, r.maxPower, r.maxBrake) == (Mode1, 5, 5)
    ensures !c.keihan ==> var r := SwitchKeihan(c);
      r.keihan && !r.midosuji && !r.ae100 && !r.mode787 && r.gameMode == c.gameMode &&
      (r.brakeMode, r.maxPower, r.maxBrake) == (Mode1, 5, 8)
    ensures !c.mode787 ==> var r := Switch787(c);
      r.mode787 && !r.midosuji && !r.ae100 && !r.keihan && r.gameMode == c.gameMode &&
      (r.brakeMode, r.maxPower, r.maxBrake) == (Mode2, 5, 7)
    ensures c.midosuji ==> SwitchMidosuji(c) == c.(midosuji := false)
    ensures c.ae100 ==> SwitchAe100(c) == c.(ae100 := false)
    ensures c.keihan ==> SwitchKeihan(c) == c.(keihan := false)
    ensures c.mode787 ==> Switch787(c) == c.(mode787 := false)
  {
  }

  /** Each variant switched on and then off again leaves every variant off
      but keeps the limits and brake setting it forced. */
  lemma VariantOnOffKeepsPreset(c: Config)
    ensures !c.midosuji ==> var r := SwitchMidosuji(SwitchMidosuji(c));
      !IsSpecial(r) && r.gameMode == c.gameMode && (r.brakeMode, r.maxPower, r.maxBrake) == (Mode2, 4, 6)
    ensures !c.ae100 ==> var r := SwitchAe100(SwitchAe100(c));
      !IsSpecial(r) && r.gameMode == c.gameMode && (r.brakeMode, r.maxPower, r.maxBrake) == (Mode1, 5, 5)
    ensures !c.keihan ==> var r := SwitchKeihan(SwitchKeihan(c));
      !IsSpecial(r) && r.gameMode == c.gameMode && (r.brakeMode, r.maxPower, r.maxBrake) == (Mode1, 5, 8)
    ensures !c.mode787 ==> var r := Switch787(Switch787(c));
      !IsSpecial(r) && r.gameMode == c.gameMode && (r.brakeMode, r.maxPower, r.maxBrake) == (Mode2, 5, 7)
  {
  }

  /** The adjustment handlers keep the limits in 1..5 and 1..8, move them by
      at most one, are inert while a variant is on, and an increase undone by
      a decrease restores the configuration below the upper bound. */
  lemma AdjustmentBounds(c: Config)
    requires 1 <= c.maxPower <= 5 && 1 <= c.maxBrake <= 8
    ensures 1 <= RaisePower(c).maxPower <= 5 && 1 <= LowerPower(c).maxPower <= 5
    ensures 1 <= RaiseBrake(c).maxBrake <= 8 && 1 <= LowerBrake(c).maxBrake <= 8
    ensures IsSpecial(c) ==>
      RaisePower(c) == c && LowerPower(c) == c && RaiseBrake(c) == c && LowerBrake(c) == c
    ensures !IsSpecial(c) ==>
      RaisePower(c).maxPower == Min(5, c.maxPower + 1) && LowerPower(c).maxPower == Max(1, c.maxPower - 1) &&
      RaiseBrake(c).maxBrake == Min(8, c.maxBrake + 1) && LowerBrake(c).maxBrake == Max(1, c.maxBrake - 1)
    ensures !IsSpecial(c) && c.maxPower < 5 ==> LowerPower(RaisePower(c)) == c
    ensures !IsSpecial(c) && c.maxBrake < 8 ==> LowerBrake(RaiseBrake(c)) == c
    ensures !IsSpecial(c) && c.maxPower > 1 ==> RaisePower(LowerPower(c)) == c
    ensures !IsSpecial(c) && c.maxBrake > 1 ==> RaiseBrake(LowerBrake(c)) == c
  {
  }

  // ---- which buttons are shown ----

  predicate MidosujiVisible(c: Config) { c.gameMode == PCSX2 && (c.midosuji || c.maxBrake == 6) }
  predicate Ae100Visible(c: Config) { c.gameMode == PCSX2 && (c.ae100 || c.maxBrake == 5) }
  predicate Visible787(c: Config) { c.gameMode == PCSX2 && (c.mode787 || c.maxBrake == 7) }
  predicate KeihanVisible(c: Config) { c.gameMode == RPCS3 && (c.keihan || c.maxBrake == 8) }

  /** JRETS or BVE with the automatic-air brake. */
  predicate IsRealAutoAir(c: Config)
  {
    (c.gameMode == JRETS || c.gameMode == BVE) && c.brakeMode == Mode2
  }

  /** The two buttons that adjust `max_power`. */
  predicate PowerAdjustVisible(c: Config) { !IsSpecial(c) }

  /** The two buttons that adjust `max_brake`. */
  predicate BrakeAdjustVisible(c: Config) { !IsSpecial(c) && !IsRealAutoAir(c) }

  /** Clicking a shown variant button leaves it shown, so a variant can always
      be switched off where it was switched on. */
  lemma VariantButtonStaysVisible(c: Config)
    requires PresetsHeld(c)
    ensures MidosujiVisible(c) ==> MidosujiVisible(SwitchMidosuji(c))
    ensures Ae100Visible(c) ==> Ae100Visible(SwitchAe100(c))
    ensures Visible787(c) ==> Visible787(Switch787(c))
    ensures KeihanVisible(c) ==> KeihanVisible(SwitchKeihan(c))
  {
  }

  /** While the limits are those of the active variant (or there is none), at
      most one variant button is shown, and never one of another target. */
  lemma AtMostOneVariantButton(c: Config)
    requires WellFormed(c)
    ensures MidosujiVisible(c) ==> !Ae100Visible(c) && !Visible787(c) && !KeihanVisible(c)
    ensures Ae100Visible(c) ==> !Visible787(c) && !KeihanVisible(c)
    ensures Visible787(c) ==> !KeihanVisible(c)
    ensures c.gameMode == PCSX2 && c.midosuji ==> MidosujiVisible(c)
    ensures c.gameMode == PCSX2 && c.ae100 ==> Ae100Visible(c)
    ensures c.gameMode == PCSX2 && c.mode787 ==> Visible787(c)
    ensures c.gameMode == RPCS3 && c.keihan ==> KeihanVisible(c)
  {
  }

  /** A hidden power-limit button is inert, and a shown one changes the limit
      unless the limit already sits at that button's bound (a shown `+` at 5
      or `-` at 1 does nothing); the brake-limit buttons are hidden in
      automatic-air mode although their handlers still act there. */
  lemma AdjustButtonsShownWhenEffective(c: Config)
    requires 1 <= c.maxPower <= 5 && 1 <= c.maxBrake <= 8
    ensures !PowerAdjustVisible(c) ==> RaisePower(c) == c && LowerPower(c) == c
    ensures PowerAdjustVisible(c) && c.maxPower < 5 ==> RaisePower(c) != c
    ensures PowerAdjustVisible(c) && c.maxPower > 1 ==> LowerPower(c) != c
    ensures !IsSpecial(c) ==> (BrakeAdjustVisible(c) <==> !IsRealAutoAir(c))
    ensures IsRealAutoAir(c) && !IsSpecial(c) && c.maxBrake < 8 ==>
      !BrakeAdjustVisible(c) && RaiseBrake(c) != c
  {
  }

  // ---- resolving a reading and the display clamp ----

  /** The brake table lookup: the axis-unified targets always use the
      electric table; JRETS and BVE use the table of their brake setting. */
  function RawBrake(c: Config, bVal: int): int
  {
    if c.gameMode == PCSX2 || c.gameMode == RPCS3 then Get(ElectricBrakeMap, bVal, Undefined)
    else if c.brakeMode == Mode1 then Get(ElectricBrakeMap, bVal, Undefined)
    else Get(AutoBrakeMap, bVal, Undefined)
  }

  /** The resolved brake value is a notch 0..9 or undefined, and undefined
      exactly on the patterns its table leaves out. */
  lemma RawBrakeRange(c: Config, bVal: int)
    requires 0 <= bVal < 16
    ensures var r := RawBrake(c, bVal); r == Undefined || 0 <= r <= 9
    ensures IsRealAutoAir(c) ==> (RawBrake(c, bVal) == Undefined <==> bVal == 15)
    ensures !IsRealAutoAir(c) ==> (RawBrake(c, bVal) == Undefined <==> 1 <= bVal <= 5 || bVal == 15)
    ensures RawBrake(c, bVal) != 14
  {
    ElectricBrakeMapShape();
    AutoBrakeMapShape();
    if RawBrake(c, bVal) != Undefined {
      if IsRealAutoAir(c) {
        assert RawBrake(c, bVal) in AutoBrakeMap.Values;
      } else {
        assert RawBrake(c, bVal) in ElectricBrakeMap.Values;
      }
    }
  }

  /** The brake notch drawn on screen. */
  function DisplayBrake(c: Config, curB: int): int
  {
    if c.gameMode == PCSX2 || c.gameMode == RPCS3 then
      if curB == 9 then c.maxBrake + 1
      else if c.midosuji && curB > c.maxBrake then c.maxBrake
      else Min(curB, c.maxBrake)
    else if c.brakeMode == Mode1 then
      if curB == 9 then c.maxBrake + 1 else Min(curB, c.maxBrake)
    else
      curB
  }

  /** The power notch drawn on screen: none while any brake is shown. */
  function DisplayPower(displayB: int, curP: int): int
  {
    if displayB > 0 then 0 else curP
  }

  /** The display shows the emergency notch `max_brake + 1` for brake value 9
      except in automatic-air mode, where it shows the stage code itself;
      otherwise it caps at `max_brake`; the power notch is hidden whenever a
      brake notch is shown. */
  lemma DisplayRules(c: Config, curB: int, curP: int)
    requires 0 <= curB <= 9 && c.maxBrake >= 1
    ensures curB == 9 && !IsRealAutoAir(c) ==> DisplayBrake(c, curB) == c.maxBrake + 1
    ensures IsRealAutoAir(c) ==> DisplayBrake(c, curB) == curB
    ensures curB != 9 && !IsRealAutoAir(c) ==> DisplayBrake(c, curB) == Min(curB, c.maxBrake)
    ensures 0 <= DisplayBrake(c, curB) <= Max(c.maxBrake + 1, 9)
    ensures DisplayBrake(c, curB) == 0 <==> curB == 0
    ensures DisplayBrake(c, curB) > 0 ==> DisplayPower(DisplayBrake(c, curB), curP) == 0
    ensures DisplayBrake(c, curB) == 0 ==> DisplayPower(DisplayBrake(c, curB), curP) == curP
  {
  }

  /** On the axis-unified targets the midosuji branch of the display changes
      nothing: the display is RPCS3's brake clamp for every variant. */
  lemma AxisDisplayIsRpcs3Clamp(c: Config, curB: int)
    requires c.gameMode == PCSX2 || c.gameMode == RPCS3
    requires c.maxBrake >= 0
    ensures DisplayBrake(c, curB) == Rpcs3.ClampBrake(curB, c.maxBrake)
    ensures DisplayBrake(c, curB) == DisplayBrake(c.(midosuji := !c.midosuji), curB)
  {
  }

  /** The display and the electric translators disagree on the table's
      emergency value: the display shows `max_brake + 1`, while JRETS, BVE
      and PCSX2 cap it at `max_brake` as a service notch. */
  lemma DisplayEmergencyIsServiceForTranslator(c: Config)
    requires 1 <= c.maxBrake <= 8 && !IsRealAutoAir(c)
    ensures DisplayBrake(c, 9) == c.maxBrake + 1
    ensures BrakeValue(Mode1, 9, c.maxBrake) == c.maxBrake
    ensures Pcsx2.ClampBrake(9, c.maxBrake, c.midosuji) == c.maxBrake
  {
  }

  // ---- one frame of the pipeline ----

  /** Everything a frame reads and writes: the globals, the two immediate
      filters' confirmed values and the four translators' states. */
  datatype World = World(
    cfg: Config,
    masconC: int,
    brakeC: int,
    jrets: Jrets.State,
    bve: Bve.State,
    pcsx2: Pcsx2.State,
    rpcs3: Rpcs3.State)

  const InitialWorld: World :=
    World(InitialConfig, 0, 0, Jrets.Initial, Bve.Initial, Pcsx2.Initial, Rpcs3.Initial)

  /** The snapshot handed to the translator. */
  function ContextOf(c: Config): Context
  {
    Context(c.gameMode, c.brakeMode, c.maxPower, c.maxBrake, c.midosuji, c.ae100, c.keihan, c.mode787)
  }

  /** The active translator's `update` on `w`, every other part unchanged. */
  function Dispatch(w: World, curP: int, curB: int, btns: Buttons): Step<World>
  {
    var ctx := ContextOf(w.cfg);
    match w.cfg.gameMode
    case JRETS =>
      var t := Jrets.Transition(w.jrets, curP, curB, btns, ctx);
      Step(w.(jrets := t.next), t.acts)
    case BVE =>
      var t := Bve.Transition(w.bve, curP, curB, btns, ctx);
      Step(w.(bve := t.next), t.acts)
    case PCSX2 =>
      var t := Pcsx2.Transition(w.pcsx2, curP, curB, btns, ctx);
      Step(w.(pcsx2 := t.next), t.acts)
    case RPCS3 =>
      var t := Rpcs3.Transition(w.rpcs3, curP, curB, btns, ctx);
      Step(w.(rpcs3 := t.next), t.acts)
  }

  /** The active translator's `reset` on `w`. */
  function ResetActive(w: World): Step<World>
  {
    match w.cfg.gameMode
    case JRETS =>
      var t := Jrets.AfterReset(w.jrets);
      Step(w.(jrets := t.next), t.acts)
    case BVE =>
      var t := Bve.AfterReset(w.bve);
      Step(w.(bve := t.next), t.acts)
    case PCSX2 =>
      var t := Pcsx2.AfterReset(w.pcsx2);
      Step(w.(pcsx2 := t.next), t.acts)
    case RPCS3 =>
      var t := Rpcs3.AfterReset(w.rpcs3);
      Step(w.(rpcs3 := t.next), t.acts)
  }

  /** A power pattern reads as a notch 0..5 or as undefined. */
  lemma MasconLookupRange(pPat: PowerPattern)
    ensures var v := Get(MasconLevelMap, pPat, Undefined); v == Undefined || 0 <= v <= 5
  {
    MasconLevelMapIsBijection();
    if pPat in MasconLevelMap {
      assert MasconLevelMap[pPat] in MasconLevelMap.Values;
    }
  }

  /** Dispatching touches only the active translator's state. */
  lemma DispatchFrame(w: World, curP: int, curB: int, btns: Buttons)
    ensures var n := Dispatch(w, curP, curB, btns).next;
      n.cfg == w.cfg && n.masconC == w.masconC && n.brakeC == w.brakeC &&
      (w.cfg.gameMode != JRETS ==> n.jrets == w.jrets) &&
      (w.cfg.gameMode != BVE ==> n.bve == w.bve) &&
      (w.cfg.gameMode != PCSX2 ==> n.pcsx2 == w.pcsx2) &&
      (w.cfg.gameMode != RPCS3 ==> n.rpcs3 == w.rpcs3)
  {
  }

  /** The power value handed to the translator: filtered and capped. */
  function FramePower(w: World, r: Reading): int
  {
    Min(ImmediateNext(w.masconC, Get(MasconLevelMap, r.pPat, Undefined)), w.cfg.maxPower)
  }

  /** The brake value handed to the translator: filtered, not capped. */
  function FrameBrake(w: World, r: Reading): int
  {
    ImmediateNext(w.brakeC, RawBrake(w.cfg, r.bVal))
  }

  /** One pass of the main loop after the button handlers: resolve the
      reading, feed both filters, and update the active translator. */
  function FrameStep(w: World, r: Reading): Step<World>
  {
    var m := ImmediateNext(w.masconC, Get(MasconLevelMap, r.pPat, Undefined));
    var b := FrameBrake(w, r);
    Dispatch(w.(masconC := m, brakeC := b), FramePower(w, r), b, r.btns)
  }

  /** The filters hold a power notch 0..5 and a brake value 0..9. */
  predicate FiltersInRange(w: World)
  {
    0 <= w.masconC <= 5 && 0 <= w.brakeC <= 9
  }

  /** A frame keeps the filters in range, updates only the active translator,
      hands it a power value within `max_power` but a brake value that may
      exceed `max_brake`, and never the electric emergency value 14. */
  lemma FrameShape(w: World, r: Reading)
    requires FiltersInRange(w) && 0 <= r.bVal < 16 && w.cfg.maxPower >= 0
    ensures var n := FrameStep(w, r).next; FiltersInRange(n) && n.cfg == w.cfg
    ensures var n := FrameStep(w, r).next;
      (w.cfg.gameMode != JRETS ==> n.jrets == w.jrets) &&
      (w.cfg.gameMode != BVE ==> n.bve == w.bve) &&
      (w.cfg.gameMode != PCSX2 ==> n.pcsx2 == w.pcsx2) &&
      (w.cfg.gameMode != RPCS3 ==> n.rpcs3 == w.rpcs3)
    ensures 0 <= FramePower(w, r) <= w.cfg.maxPower
    ensures FramePower(w, r) == Min(FrameStep(w, r).next.masconC, w.cfg.maxPower)
    ensures FrameBrake(w, r) == FrameStep(w, r).next.brakeC && FrameBrake(w, r) != 14
    ensures w.cfg.maxBrake >= 0 ==> ClampElectric(FrameBrake(w, r), w.cfg.maxBrake) <= w.cfg.maxBrake
  {
    var m := ImmediateNext(w.masconC, Get(MasconLevelMap, r.pPat, Undefined));
    DispatchFrame(w.(masconC := m, brakeC := FrameBrake(w, r)), FramePower(w, r), FrameBrake(w, r), r.btns);
    MasconLookupRange(r.pPat);
    RawBrakeRange(w.cfg, r.bVal);
    if w.cfg.maxBrake >= 0 {
      ClampElectricRule(FrameBrake(w, r), w.cfg.maxBrake);
    }
  }

  /** The brake value reaches the translator uncapped: with `max_brake` 3, the
      electric pattern 8 hands it notch 6. */
  lemma BrakeIsNotCapped(w: World, r: Reading)
    requires w.cfg.gameMode == PCSX2 && w.cfg.maxBrake == 3 && r.bVal == 8
    ensures FrameBrake(w, r) == 6 > w.cfg.maxBrake
  {
    assert ElectricBrakeMap[8] == 6;
  }

  /** The frame after a reset emits nothing: the translator only adopts the
      filtered values. */
  lemma FirstFrameAfterResetIsSilent(w: World, r: Reading)
    ensures FrameStep(ResetActive(w).next, r).acts == []
    ensures ResetActive(w).next.cfg == w.cfg
  {
  }

  /** The active translator has synchronised since its last reset. */
  predicate ActiveSynced(w: World)
  {
    match w.cfg.gameMode
    case JRETS => !w.jrets.needsSync
    case BVE => !w.bve.needsSync
    case PCSX2 => !w.pcsx2.needsSync
    case RPCS3 => !w.rpcs3.needsSync
  }

  /** Holding the controller still: a second frame with the same reading
      emits nothing and changes nothing. */
  lemma FrameIsIdempotent(w: World, r: Reading)
    requires ActiveSynced(w)
    ensures var n := FrameStep(w, r).next; FrameStep(n, r) == Step(n, [])
  {
    var n := FrameStep(w, r).next;
    assert FramePower(n, r) == FramePower(w, r) && FrameBrake(n, r) == FrameBrake(w, r);
    var p, b := FramePower(w, r), FrameBrake(w, r);
    var ctx := ContextOf(w.cfg);
    match w.cfg.gameMode
    case JRETS => Jrets.TickIsIdempotent(w.jrets, p, b, r.btns, ctx);
    case BVE => Bve.TickIsIdempotent(w.bve, p, b, r.btns, ctx);
    case PCSX2 => Pcsx2.TickIsIdempotent(w.pcsx2, p, b, r.btns, ctx);
    case RPCS3 => Rpcs3.TickIsIdempotent(w.rpcs3, p, b, r.btns, ctx);
  }

  // ---- the module-level globals and translators ----

  class Frontend {
    var gameMode: GameMode
    var brakeMode: BrakeMode
    var maxPower: int
    var maxBrake: int
    var midosujiMode: bool
    var ae100Mode: bool
    var keihanMode: bool
    var mode787: bool
    const jrets: Jrets.JretsLogic
    const bve: Bve.BveLogic
    const pcsx2: Pcsx2.Pcsx2Logic
    const rpcs3: Rpcs3.Rpcs3Logic
    const masconFilter: StableNotchReader
    const brakeFilter: StableNotchReader

    predicate Valid()
      reads this
    {
      masconFilter != brakeFilter
    }

    function Settings(): Config
      reads this
    {
      Config(gameMode, brakeMode, maxPower, maxBrake, midosujiMode, ae100Mode, keihanMode, mode787)
    }

    function View(): World
      reads this, jrets, bve, pcsx2, rpcs3, masconFilter, brakeFilter
    {
      World(Settings(), masconFilter.confirmed, brakeFilter.confirmed,
            jrets.View(), bve.View(), pcsx2.View(), rpcs3.View())
    }

    constructor ()
      ensures Valid() && View() == InitialWorld
    {
      gameMode, brakeMode, maxPower, maxBrake := JRETS, Mode1, 5, 8;
      midosujiMode, ae100Mode, keihanMode, mode787 := false, false, false, false;
      jrets := new Jrets.JretsLogic();
      bve := new Bve.BveLogic();
      pcsx2 := new Pcsx2.Pcsx2Logic();
      rpcs3 := new Rpcs3.Rpcs3Logic();
      masconFilter := new StableNotchReader(0);
      brakeFilter := new StableNotchReader(0);
    }

    /** `force_reset_state`: reset the active target's translator. */
    method ForceResetState() returns (acts: seq<Action>)
      modifies jrets, bve, pcsx2, rpcs3
      ensures Step(View(), acts) == ResetActive(old(View()))
    {
      match gameMode
      case JRETS => acts := jrets.Reset();
      case BVE => acts := bve.Reset();
      case PCSX2 => acts := pcsx2.Reset();
      case RPCS3 => acts := rpcs3.Reset();
    }

    /** `toggle_game_mode`: move to the next target, restore the defaults and
        reset the new target's translator (the old one keeps its state). */
    method ToggleGameMode(mouseBtn: int) returns (acts: seq<Action>)
      modifies this, jrets, bve, pcsx2, rpcs3
      ensures Step(View(), acts) == ResetActive(old(View()).(cfg := CycleTarget(old(Settings()), mouseBtn)))
    {
      ghost var cfg := CycleTarget(Settings(), mouseBtn);
      var modes := Modes;
      var idx := ModeIndex(gameMode);
      var nextIdx := if mouseBtn == 1 then (idx + 1) % |modes| else (idx - 1) % |modes|;
      gameMode := modes[nextIdx];
      midosujiMode, ae100Mode, keihanMode, mode787 := false, false, false, false;
      maxPower, maxBrake := 5, 8;
      brakeMode := Mode1;
      assert Settings() == cfg;
      acts := ForceResetState();
    }

    method ToggleBrakeMode()
      modifies this
      ensures View() == old(View()).(cfg := FlipBrakeMode(old(Settings())))
    {
      brakeMode := if brakeMode == Mode1 then Mode2 else Mode1;
    }

    method ToggleMidosuji()
      modifies this
      ensures View() == old(View()).(cfg := SwitchMidosuji(old(Settings())))
    {
      if !midosujiMode {
        midosujiMode := true;
        ae100Mode, keihanMode, mode787 := false, false, false;
        brakeMode, maxPower, maxBrake := Mode2, 4, 6;
      } else {
        midosujiMode := false;
      }
    }

    method ToggleAe100()
      modifies this
      ensures View() == old(View()).(cfg := SwitchAe100(old(Settings())))
    {
      if !ae100Mode {
        ae100Mode := true;
        midosujiMode, keihanMode, mode787 := false, false, false;
        brakeMode, maxPower, maxBrake := Mode1, 5, 5;
      } else {
        ae100Mode := false;
      }
    }

    method ToggleKeihan()
      modifies this
      ensures View() == old(View()).(cfg := SwitchKeihan(old(Settings())))
    {
      if !keihanMode {
        keihanMode := true;
        midosujiMode, ae100Mode, mode787 := false, false, false;
        brakeMode, maxPower, maxBrake := Mode1, 5, 8;
      } else {
        keihanMode := false;
      }
    }

    method Toggle787()
      modifies this
      ensures View() == old(View()).(cfg := Switch787(old(Settings())))
    {
      if !mode787 {
        mode787 := true;
        midosujiMode, ae100Mode, keihanMode := false, false, false;
        brakeMode := Mode2;
        maxPower, maxBrake := 5, 7;
      } else {
        mode787 := false;
      }
    }

    method IncP()
      modifies this
      ensures View() == old(View()).(cfg := RaisePower(old(Settings())))
    {
      if midosujiMode || ae100Mode || keihanMode || mode787 {
        return;
      }
      maxPower := Min(5, maxPower + 1);
    }

    method DecP()
      modifies this
      ensures View() == old(View()).(cfg := LowerPower(old(Settings())))
    {
      if midosujiMode || ae100Mode || keihanMode || mode787 {
        return;
      }
      maxPower := Max(1, maxPower - 1);
    }

    method IncB()
      modifies this
      ensures View() == old(View()).(cfg := RaiseBrake(old(Settings())))
    {
      if midosujiMode || ae100Mode || keihanMode || mode787 {
        return;
      }
      maxBrake := Min(8, maxBrake + 1);
    }

    method DecB()
      modifies this
      ensures View() == old(View()).(cfg := LowerBrake(old(Settings())))
    {
      if midosujiMode || ae100Mode || keihanMode || mode787 {
        return;
      }
      maxBrake := Max(1, maxBrake - 1);
    }

    /** One pass of the main loop from the table lookup to the translator's
        `update`, returning the drawn notches and the emitted actions. */
    method Frame(r: Reading) returns (displayP: int, displayB: int, acts: seq<Action>)
      requires Valid()
      modifies masconFilter, brakeFilter, jrets, bve, pcsx2, rpcs3
      ensures Step(View(), acts) == FrameStep(old(View()), r)
      ensures displayB == DisplayBrake(Settings(), FrameBrake(old(View()), r))
      ensures displayP == DisplayPower(displayB, FramePower(old(View()), r))
    {
      var curP, curB := ReadFilters(r);
      displayB := ClampDisplay(curB);
      displayP := if displayB > 0 then 0 else curP;
      ghost var w := View();
      acts := UpdateActive(curP, curB, r.btns);
      assert FrameStep(old(View()), r) == Dispatch(w, curP, curB, r.btns);
    }

    /** The table lookups and both filters' `update`. */
    method ReadFilters(r: Reading) returns (curP: int, curB: int)
      requires Valid()
      modifies masconFilter, brakeFilter
      ensures View() == old(View()).(masconC := masconFilter.confirmed, brakeC := curB)
      ensures masconFilter.confirmed == ImmediateNext(old(masconFilter.confirmed), Get(MasconLevelMap, r.pPat, Undefined))
      ensures curP == FramePower(old(View()), r) && curB == FrameBrake(old(View()), r)
    {
      var rawB: int;
      if gameMode == PCSX2 || gameMode == RPCS3 {
        rawB := Get(ElectricBrakeMap, r.bVal, Undefined);
      } else {
        rawB := if brakeMode == Mode1 then Get(ElectricBrakeMap, r.bVal, Undefined)
                else Get(AutoBrakeMap, r.bVal, Undefined);
      }
      var rawP := Get(MasconLevelMap, r.pPat, Undefined);
      var filteredP := masconFilter.Update(rawP);
      curP := Min(filteredP, maxPower);
      curB := brakeFilter.Update(rawB);
    }

    /** The brake notch drawn on screen. */
    method ClampDisplay(curB: int) returns (displayB: int)
      ensures displayB == DisplayBrake(Settings(), curB)
    {
      if gameMode == PCSX2 || gameMode == RPCS3 {
        if curB == 9 {
          displayB := maxBrake + 1;
        } else if midosujiMode && curB > maxBrake {
          displayB := maxBrake;
        } else {
          displayB := Min(curB, maxBrake);
        }
      } else if brakeMode == Mode1 {
        displayB := if curB == 9 then maxBrake + 1 else Min(curB, maxBrake);
      } else {
        displayB := curB;
      }
    }

    /** `logics[game_mode].update(cur_p, cur_b, raw_btns, context)`. */
    method UpdateActive(curP: int, curB: int, btns: Buttons) returns (acts: seq<Action>)
      modifies jrets, bve, pcsx2, rpcs3
      ensures Step(View(), acts) == Dispatch(old(View()), curP, curB, btns)
    {
      var context := Context(gameMode, brakeMode, maxPower, maxBrake, midosujiMode, ae100Mode, keihanMode, mode787);
      assert context == ContextOf(Settings());
      ghost var w0 := View();
      match gameMode
      case JRETS =>
        acts := jrets.Update(curP, curB, btns, context);
        assert View() == w0.(jrets := jrets.View());
      case BVE =>
        acts := bve.Update(curP, curB, btns, context);
        assert View() == w0.(bve := bve.View());
      case PCSX2 =>
        acts := pcsx2.Update(curP, curB, btns, context);
        assert View() == w0.(pcsx2 := pcsx2.View());
      case RPCS3 =>
        acts := rpcs3.Update(curP, curB, btns, context);
        assert View() == w0.(rpcs3 := rpcs3.View());
    }
  }
}
