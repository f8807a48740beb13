# Train controller to keyboard bridge, modelled in Dafny

The system reads a two-handle train-simulator controller: a power handle with
notches N and P1–P5, and a brake handle that is either electric-command or
automatic-air. It turns each reading into ordered keyboard events for one of
four targets: JRETS, BVE, PCSX2 or RPCS3. This project models the per-tick
pipeline and proves properties about it:

- **Tables and bit packing** (`Const`, `Inputs`):
  - the electric brake table, the automatic-air brake table and the power table;
  - packing of the 4-bit brake pattern and the 3-bit power pattern from the button list;
  - the immediate notch filter, which ignores the undefined value −1 and adopts every other value at once.
- **Keyboard output as values** (`Keyboard`):
  - every `press`, `keyDown`, `keyUp` and `sleep` becomes one `Action` appended to the tick's output.
  - Two reference interpretations serve as independent partners of every translator:
    - `Drive` feeds the actions to an idealised game whose handle counter moves one notch per key;
    - `Held` tracks which keys are left held down.
- **The translators** (`Base`, `Jrets`, `Bve`, `Pcsx2`, `Rpcs3`):
  - Each translator is a class with the source's fields.
  - Its `Update` and `Reset` methods are proved equal to pure step functions `Transition` and `AfterReset` on a state datatype.
  - Lemmas about those functions state what the source promises:
    - the very first tick only synchronises;
    - the game's handle ends where the translator believes it is;
    - which key sequences each case emits;
    - button latches match the held keys;
    - a repeated reading emits nothing.
- **The legacy stand-alone converter** (`Converter`):
  - its chattering-guard filter, with time as an integer millisecond parameter `now`;
  - its loop body: brake-onset neutralisation, automatic-air stage keys, the held electric emergency key, the power cascade and the buttons.
- **The front end** (`App`):
  - the configuration globals and their button handlers: target cycle, brake setting, the four variant presets and the notch-limit adjustment;
  - the invariant those handlers keep;
  - button visibility;
  - per-frame table resolution, filtering, clamping and display;
  - dispatch to the active translator.
  - Input: a `Reading` (b_val, p_pat, buttons), as produced by `get_inputs`.

Time is in integer milliseconds:
- 0.02 s → 20;
- 0.04 s → 40;
- 0.05 s → 50;
- the converter's own 0.10 / 0.02 / 0.01 s → 100 / 20 / 10.

Key names are the source's strings. The Python button list's unused slot 0 is a `false` entry, so that indices 1..16 match.

## Behaviour kept as written

- **The emergency test never fires from the tables in three translators.**
  - JRETS, BVE and PCSX2 read raw brake value 14 as emergency.
  - The electric table only yields 0..9, and its emergency value is 9, which these translators cap at `max_brake` (`Base.ElectricTableNeverEmergency`, `Jrets.TableEmergencyIsServiceBrake`, `App.DisplayEmergencyIsServiceForTranslator`).
  - RPCS3 tests 9 (`Rpcs3.ClampBrakeRule`).
- **The translators' automatic-air stage codes do not match the table.**
  - JRETS compares against stage codes 2 and 3, and BVE against 3.
  - The front end feeds the automatic-air table's values {0, 6, 8, 9} (`Jrets.AutoTableStagesEngageNothing`, `Bve.AutoTableStagesAreStepCounts`).
- **The 787 variant never presses the PCSX2 emergency key.** It cascades to the emergency notch instead (`Pcsx2.Mode787EmergencyCascades`).
- **AE100 cruise entry from the braking side presses INC four times without a neutral press.** The game's handle therefore ends 5 notches above the old brake position, not at P5 (`Pcsx2.CruiseClimbFromBrakingSkipsNeutral`).
- **PCSX2 ignores the buttons** (`Pcsx2.IgnoresButtons`).
- **The front end caps power at `max_power` but passes the brake value uncapped** (`App.FrameShape`, `App.BrakeIsNotCapped`).
- **JRETS presses `MASCON_N` on braking only when `prev_p != 0`.** The legacy converter presses it on every brake onset.
- **In the legacy converter, a mode other than "1" and "2" reads the automatic-air table but runs the electric branch.** Its first reading may also start in a state with both power and brake non-zero (see `Converter.PowerTracksGame` below).
- **The `modes/*` translators receive `cur_p` and `cur_b` in their parameters named `raw_p` and `raw_b`.** The model keeps the source's names `rawP`/`rawB`.

## Model

| member | source | states |
|---|---|---|
| Const.MasconLevelMapIsBijection | const.py:80-87 | the power table is defined on exactly six 3-bit patterns, is injective onto 0..5, and leaves (0,0,0) and (1,1,1) undefined |
| Const.ElectricBrakeMapShape | const.py:73-73 | the electric table is defined exactly on {0, 6..14}, gives 14 − pattern on 6..14 and 9 on 0, and is injective with values 0..9 |
| Const.AutoBrakeMapShape | const.py:74-79 | the automatic-air table is defined exactly on 0..14; 7..14 ↦ 0, 6 ↦ 6, 1..5 ↦ 8, 0 ↦ 9, so its values are {0, 6, 8, 9} |
| Const.NeutralWaitsAtLeastAsLong | const.py:5-6 | the Neutral hold time is at least the ordinary confirmation time |
| Keyboard.RepeatTap | modes/jrets.py:64-66 | the press-then-sleep loop emits exactly n taps of its key |
| Keyboard.RepeatPressEmu | modes/pcsx2.py:80-80 | the emulated-press loop emits exactly n emulated presses of its key |
| Keyboard.HeldPressEmu | modes/pcsx2.py:17-21 | an emulated press leaves its key released and every other key as it was |
| Keyboard.DrivePressEmu | modes/pcsx2.py:17-21 | an emulated press acts on a receiver only through its key-down |
| Keyboard.HeldPressEmuCascade | modes/pcsx2.py:80-81 | a non-empty cascade of emulated presses releases its key; an empty one changes nothing |
| Keyboard.DriveTaps | modes/bve.py:61-67 | n taps of a key that moves the handle one notch by delta move it by n·delta |
| Keyboard.DriveEmuPresses | modes/pcsx2.py:102-109 | n emulated presses of a key that moves the handle by delta on key-down move it by n·delta |
| Inputs.BrakePattern | inputs.py:32-32 | the packed brake pattern always lies in 0..15 |
| Inputs.GetInputs | inputs.py:25-35 | with no joystick the result is (0, (0,0,0), all false); otherwise the buttons are shifted to 1-based indices, b_val is in 0..15 and p_pat is (b14, b16, b1) |
| Inputs.BrakeBitsRoundTrip | inputs.py:32-32 | extracting bits 3..0 from b_val recovers exactly [b6, b8, b5, b7] |
| Inputs.PowerPatternResolution | inputs.py:33-33 | the power pattern is undefined exactly when its three bits are equal, and otherwise resolves to a notch in 0..5 |
| Inputs.ImmediateRunSnoc | inputs.py:9-16 | one more update applies the one-step rule to the confirmed value so far |
| Inputs.ImmediateRunIsLastDefined | inputs.py:6-16 | after any input sequence the confirmed value is the last value other than −1, or the initial value if there was none |
| Inputs.StableNotchReader.constructor | inputs.py:6-7 | the confirmed value starts at the initial value |
| Inputs.StableNotchReader.Update | inputs.py:9-16 | −1 leaves the confirmed value unchanged and returns it; any other value becomes the confirmed value and is returned |
| Base.ClampElectricRule | modes/jrets.py:24-27 | the electric clamp yields max_brake + 1 exactly for raw 14, caps everything else at max_brake, and keeps positive values positive |
| Base.ElectricTableNeverEmergency | modes/jrets.py:25-25 | no value of the electric table reaches the emergency position; the table's emergency 9 becomes min(9, max_brake) |
| Base.LatchEdgeTracksButton | modes/jrets.py:94-100 | an edge-triggered latch emits nothing when the button is unchanged and otherwise leaves its key held exactly when the button is pressed |
| Base.BaseLogic.constructor | modes/base.py:3-9 | prev_p = prev_b = 0, both latches released, needs_sync set |
| Base.BaseLogic.Reset | modes/base.py:11-15 | prev_p = prev_b = 0 and needs_sync set, the latches left unchanged |
| Base.BaseLogic.Update | modes/base.py:17-18 | the base update emits nothing and changes nothing |
| Jrets.FirstTickAdoptsPositions | modes/jrets.py:32-41 | while needs_sync, the tick adopts the clamped power and brake (and the stage in mode "2"), clears needs_sync and emits nothing, not even button keys |
| Jrets.ResetReleasesBrakeKey | modes/jrets.py:12-15 | reset releases BRAKE_UP, keeps the latched button keys consistent and makes the next tick silent |
| Jrets.PowerKeysDrive | modes/jrets.py:58-67 | the power keys of a change move the game's power handle from prev_p to cur_p |
| Jrets.PowerPhaseDrivesMascon | modes/jrets.py:53-71 | the power half of a tick moves the game's power handle from prev_p to the new prev_p |
| Jrets.PowerTracksGame | modes/jrets.py:17-100 | after synchronisation, every tick's keys move the game's power handle from prev_p to the new prev_p |
| Jrets.ElectricBrakeKeysDrive | modes/jrets.py:81-92 | the electric brake keys of a change move the game's brake handle from prev_b to cur_b (EMG jumps to max_brake + 1, N to 0) |
| Jrets.ElectricBrakeTracksGame | modes/jrets.py:44-92 | in mode "1", every tick's keys move the game's brake handle from prev_b to the new prev_b |
| Jrets.LatchesMatchHeldKeys | modes/jrets.py:94-100 | START and SELECT are held after a tick exactly when the latches say so, and the latches follow buttons 9 and 10 |
| Jrets.ReleaseSendsOneBrakeNeutral | modes/jrets.py:53-57 | releasing the electric brake emits a single BRAKE_N press first and no other BRAKE_N, and prev_b becomes 0 |
| Jrets.BrakingNeutralisesPowerFirst | modes/jrets.py:68-71 | braking with prev_p ≠ 0 emits one MASCON_N press before any other key and sets prev_p to 0 |
| Jrets.PowerChangeCascades | modes/jrets.py:58-67 | with the brake released, power 0 is one MASCON_N press, and any other change is \|Δ\| UP or DOWN taps by sign |
| Jrets.EmergencyIsOneKey | modes/jrets.py:81-83 | raw brake 14 in mode "1" is exactly one EMG press, and prev_b becomes max_brake + 1 |
| Jrets.TableEmergencyIsServiceBrake | modes/jrets.py:24-27 | the electric table's emergency value cascades BRAKE_UP to min(9, max_brake) and never presses EMG |
| Jrets.AutoStageChange | modes/jrets.py:73-79 | a stage change first releases BRAKE_UP, then presses N for 0, holds BRAKE_UP for 2, presses EMG for 3, and sends nothing else otherwise |
| Jrets.AutoTableStagesEngageNothing | modes/jrets.py:73-79 | the automatic-air table's stages 6, 8 and 9 only release BRAKE_UP |
| Jrets.TickIsIdempotent | modes/jrets.py:17-100 | after synchronisation, repeating a reading emits nothing and changes nothing |
| Jrets.JretsLogic.constructor | modes/jrets.py:8-10 | the base fields' initial values and last_auto_s = 0 |
| Jrets.JretsLogic.Reset | modes/jrets.py:12-15 | the new state and the single BRAKE_UP release are those of AfterReset |
| Jrets.JretsLogic.Update | modes/jrets.py:17-100 | the new state and emitted actions are those of Transition |
| Jrets.JretsLogic.UpdatePower | modes/jrets.py:44-71 | the power half: new state and actions equal PowerPhase |
| Jrets.JretsLogic.UpdateBrake | modes/jrets.py:73-92 | the brake half: new state and actions equal BrakePhase |
| Jrets.JretsLogic.HandleButtons | modes/jrets.py:94-100 | the button latches: new state and actions equal ButtonPhase |
| Bve.CascadeDrives | modes/bve.py:58-68 | \|Δ\| taps of UP or DOWN by sign move a handle by exactly Δ |
| Bve.FirstTickAdoptsPositions | modes/bve.py:28-38 | while needs_sync, the tick adopts power and brake (auto_state in mode "2"), clears needs_sync and emits nothing |
| Bve.ResetReleasesNothing | modes/bve.py:12-14 | reset emits no key, keeps the latches, and makes the next tick silent |
| Bve.RunPhaseDrivesMascon | modes/bve.py:58-68 | the released-brake half moves the game's power handle from prev_p to the new prev_p |
| Bve.BrakingPhaseDrivesMascon | modes/bve.py:70-76 | braking lowers the game's power handle to 0 with prev_p DOWN taps |
| Bve.ButtonsMoveNoHandle | modes/bve.py:120-126 | button keys move neither the power handle nor either brake handle |
| Bve.PowerTracksGame | modes/bve.py:41-76 | after synchronisation, every tick's keys move the game's power handle from prev_p to the new prev_p |
| Bve.RunPhaseDrivesElectric | modes/bve.py:51-56 | releasing the electric brake moves the game's brake handle from prev_b to 0 |
| Bve.ElectricBrakePhaseDrives | modes/bve.py:101-118 | an electric brake change moves the game's brake handle from prev_b to cur_b, including entry into and exit from emergency |
| Bve.BrakingPhaseDrivesElectric | modes/bve.py:70-118 | the braking half in mode "1" moves the game's brake handle from prev_b to the new prev_b |
| Bve.ElectricBrakeTracksGame | modes/bve.py:41-118 | in mode "1", every tick's keys move the game's brake handle from prev_b to the new prev_b |
| Bve.RunPhaseDrivesAuto | modes/bve.py:42-49 | returning to run moves the game's automatic-air handle from auto_state to 0 |
| Bve.AutoBrakePhaseDrives | modes/bve.py:78-99 | a stage change moves the game's automatic-air handle from auto_state to the new auto_state |
| Bve.BrakingPhaseDrivesAuto | modes/bve.py:70-99 | the braking half in mode "2" moves the game's automatic-air handle from auto_state to the new auto_state |
| Bve.AutoBrakeTracksGame | modes/bve.py:41-99 | in mode "2", every tick's keys move the game's automatic-air handle from auto_state to the new auto_state |
| Bve.LatchesMatchHeldKeys | modes/bve.py:120-126 | START and SELECT are held exactly when the latches say so, and the latches follow buttons 9 and 10 |
| Bve.ElectricReleaseTaps | modes/bve.py:51-56 | electric release with prev_b > 0 is exactly prev_b BRAKE_DOWN taps (no neutral key), and prev_b becomes 0 |
| Bve.BrakingLowersPowerFirst | modes/bve.py:71-76 | braking with prev_p > 0 begins with exactly prev_p MASCON_DOWN taps, nothing after them moves the power handle, and prev_p becomes 0 |
| Bve.PowerChangeCascades | modes/bve.py:58-68 | with the brake released, a power change is \|Δ\| UP or DOWN taps by sign |
| Bve.EmergencyIsOneKey | modes/bve.py:103-104 | entering max_brake + 1 is exactly one EMG press with no cascade |
| Bve.EmergencyExit | modes/bve.py:105-111 | leaving emergency to a service notch is one DOWN press, then max_brake − cur_b DOWN taps |
| Bve.ElectricBrakeCascades | modes/bve.py:112-118 | any other electric change is \|Δ\| BRAKE_UP or BRAKE_DOWN taps by sign, and prev_b becomes cur_b |
| Bve.AutoReturnToRun | modes/bve.py:42-49 | returning to run emits \|auto_state\| BRAKE_DOWN taps and sets auto_state to 0 |
| Bve.AutoStageRules | modes/bve.py:78-99 | stage 3 is one EMG press, leaving 3 is one DOWN press from 2 followed by the cascade, and every other change is the \|Δ\| cascade |
| Bve.AutoTableStagesAreStepCounts | modes/bve.py:81-99 | from run, the table's stages 6, 8 and 9 are taken as 6, 8 and 9 BRAKE_UP taps and never press EMG |
| Bve.TickIsIdempotent | modes/bve.py:16-126 | after synchronisation, repeating a reading emits nothing and changes nothing |
| Bve.BveLogic.constructor | modes/bve.py:8-10 | the base fields' initial values and auto_state = 0 |
| Bve.BveLogic.Reset | modes/bve.py:12-14 | the new state (auto_state 0, needs_sync set) and no keys, as AfterReset |
| Bve.BveLogic.Update | modes/bve.py:16-126 | the new state and emitted actions are those of Transition |
| Bve.BveLogic.UpdateRun | modes/bve.py:41-68 | the released-brake half equals RunPhase |
| Bve.BveLogic.UpdateBraking | modes/bve.py:70-118 | the braking half equals BrakingPhase |
| Bve.BveLogic.UpdateAutoBrake | modes/bve.py:78-99 | the automatic-air stage logic equals AutoBrakePhase |
| Bve.BveLogic.UpdateElectricBrake | modes/bve.py:101-118 | the electric brake logic equals ElectricBrakePhase |
| Bve.BveLogic.HandleButtons | modes/bve.py:120-126 | the button latches equal ButtonPhase |
| Pcsx2.MirroredKeysProper | modes/pcsx2.py:53-54 | midosuji swaps B_INC and B_DEC; otherwise they are BRAKE_INC and BRAKE_DEC |
| Pcsx2.NeutralDrives | modes/pcsx2.py:94-96 | an emulated N press followed by the reset wait puts the game's axis at 0 |
| Pcsx2.AxisKeysDrive | modes/pcsx2.py:88-131 | the axis keys of a change move the game's unified axis from prev_axis to cur_axis, in every mode and for mirrored keys |
| Pcsx2.AxisTickDrives | modes/pcsx2.py:59-131 | the cruise handling plus the axis logic move the game's axis from prev_axis to the new prev_axis |
| Pcsx2.AxisTracksGame | modes/pcsx2.py:23-131 | after synchronisation, every tick's keys move the game's axis from prev_axis to the new prev_axis |
| Pcsx2.AxisKeysHoldNothing | modes/pcsx2.py:88-131 | the ordinary axis logic leaves no key held that was not held before |
| Pcsx2.CruiseEntryHoldsPowerKey | modes/pcsx2.py:76-83 | AE100 entry at axis 5 is 4 − max(0, prev_axis) emulated INC presses, then a held INC key-down, and prev_axis becomes 5 |
| Pcsx2.CruiseRepeatIsSilent | modes/pcsx2.py:76-83 | staying at axis 5 in AE100 emits nothing and changes nothing |
| Pcsx2.CruiseClimbFromBrakingSkipsNeutral | modes/pcsx2.py:76-80 | AE100 entry from the braking side presses INC four times with no N press, so the game's axis ends at prev_axis + 5 |
| Pcsx2.CruiseExitReleasesPowerKey | modes/pcsx2.py:61-73 | leaving axis 5 in AE100 releases INC and waits 50 ms; to brake it then takes the neutral path, otherwise it cascades from 4; INC is left released |
| Pcsx2.ReturnToNeutral | modes/pcsx2.py:94-96 | returning to 0 is exactly one emulated N press and the reset wait |
| Pcsx2.EmergencyPress | modes/pcsx2.py:90-91 | reaching −(max_brake + 1) is one emulated EMG press regardless of the previous sign, except under 787, where no EMG is pressed |
| Pcsx2.Mode787EmergencyCascades | modes/pcsx2.py:90-109 | under 787 the emergency axis is reached by max_brake + 1 emulated B_INC presses |
| Pcsx2.CrossingZero | modes/pcsx2.py:99-109 | crossing zero is an emulated N press, the reset wait, then \|cur_axis\| presses of POWER_INC, of POWER_DEC (mode "1") or of B_INC (mode "2") |
| Pcsx2.SameSideMotion | modes/pcsx2.py:112-129 | same-side motion is \|Δ\| emulated presses in the direction of the change, with brake keys used only in mode "2" on the brake side |
| Pcsx2.AxisTickMembers | modes/pcsx2.py:90-91 | a tick only uses axis keys and, under 787, never presses EMG |
| Pcsx2.ClampBrakeIsElectricClamp | modes/pcsx2.py:33-37 | the midosuji branch of the clamp gives the same result as the plain electric clamp |
| Pcsx2.AxisSign | modes/pcsx2.py:40-43 | the axis is −cur_b while braking and cur_p otherwise |
| Pcsx2.FirstTickAdoptsAxis | modes/pcsx2.py:46-51 | while needs_sync, the tick adopts the axis, power and brake and emits nothing |
| Pcsx2.ResetReleasesCruiseKey | modes/pcsx2.py:12-15 | reset releases POWER_INC, sets prev_axis to 0, and makes the next tick silent |
| Pcsx2.IgnoresButtons | modes/pcsx2.py:23-131 | the output and new state do not depend on the buttons, and the latches never change |
| Pcsx2.AxisTickIsIdempotent | modes/pcsx2.py:59-131 | repeating an axis value emits nothing |
| Pcsx2.TickIsIdempotent | modes/pcsx2.py:23-131 | after synchronisation, repeating a reading emits nothing and changes nothing |
| Pcsx2.Pcsx2Logic.constructor | modes/pcsx2.py:8-10 | the base fields' initial values and prev_axis = 0 |
| Pcsx2.Pcsx2Logic.Reset | modes/pcsx2.py:12-15 | the new state and the POWER_INC release are those of AfterReset |
| Pcsx2.Pcsx2Logic.Update | modes/pcsx2.py:23-131 | the new state and emitted actions are those of Transition |
| Pcsx2.Pcsx2Logic.UpdateTick | modes/pcsx2.py:53-131 | after synchronisation, the new prev_axis and the emitted actions are those of AxisTick, and nothing else changes |
| Pcsx2.Pcsx2Logic.UpdateCruise | modes/pcsx2.py:59-83 | the AE100 block: whether the tick returns early, and its actions and prev_axis as CruiseEntry or CruiseGuard |
| Pcsx2.Pcsx2Logic.UpdateAxis | modes/pcsx2.py:88-131 | the axis logic emits AxisKeys on a change and nothing otherwise, and prev_axis becomes cur_axis |
| Rpcs3.ClampBrakeRule | modes/rpcs3.py:31-33 | raw 9, not 14, is the emergency max_brake + 1; 14 is capped like a service notch; otherwise the electric clamp |
| Rpcs3.FirstTickAdoptsAxis | modes/rpcs3.py:42-47 | while needs_sync, the tick adopts the axis and emits nothing, not even button keys |
| Rpcs3.AxisTracksGame | modes/rpcs3.py:23-126 | after synchronisation, every tick's keys (horns included) move the game's axis from prev_axis to the new prev_axis |
| Rpcs3.LatchesMatchHeldKeys | modes/rpcs3.py:128-137 | HORN1 (and 'e' under keihan) follow select and HORN2 follows start, held exactly when latched |
| Rpcs3.NeverSendsEmergencyKey | modes/rpcs3.py:85-124 | no tick ever presses the EMG key |
| Rpcs3.EmergencyCascades | modes/rpcs3.py:92-102 | emergency from 0 is max_brake + 1 emulated presses of POWER_DEC (mode "1") or the unmirrored BRAKE_INC (mode "2") |
| Rpcs3.KeihanCruiseEntry | modes/rpcs3.py:71-80 | keihan entry at axis 5 is the INC presses up to 4, a held INC key-down, then the button handling before the return |
| Rpcs3.KeihanCruiseHoldsButtons | modes/rpcs3.py:71-80 | staying at axis 5 under keihan handles only the buttons |
| Rpcs3.KeihanHornsTogether | modes/rpcs3.py:128-137 | a select edge drives HORN1 and 'e' together under keihan, and HORN1 alone otherwise, before the start latch |
| Rpcs3.ResetReleasesCruiseKey | modes/rpcs3.py:12-15 | reset releases POWER_INC, sets prev_axis to 0, and makes the next tick silent |
| Rpcs3.TickIsIdempotent | modes/rpcs3.py:23-126 | after synchronisation, repeating a reading emits nothing and changes nothing |
| Rpcs3.Rpcs3Logic.constructor | modes/rpcs3.py:8-10 | the base fields' initial values and prev_axis = 0 |
| Rpcs3.Rpcs3Logic.Reset | modes/rpcs3.py:12-15 | the new state and the POWER_INC release are those of AfterReset |
| Rpcs3.Rpcs3Logic.Update | modes/rpcs3.py:23-126 | the new state and emitted actions are those of Transition |
| Rpcs3.Rpcs3Logic.UpdateTick | modes/rpcs3.py:49-124 | after synchronisation, the new prev_axis and the axis actions are those of AxisTick in the unmirrored, keihan-as-AE100 context, and nothing else changes |
| Rpcs3.Rpcs3Logic.UpdateCruise | modes/rpcs3.py:52-80 | the keihan block: whether the tick returns early, and its actions and prev_axis as CruiseEntry or CruiseGuard |
| Rpcs3.Rpcs3Logic.UpdateAxis | modes/rpcs3.py:85-124 | the axis logic with unmirrored brake keys and no EMG key, and prev_axis becomes cur_axis |
| Rpcs3.Rpcs3Logic.HandleButtons | modes/rpcs3.py:128-137 | the horn latches equal ButtonPhase |
| Converter.GuardIgnoresUndefined | converter.py:51-51 | −1 changes no field of the guard filter |
| Converter.GuardNewReadingRestartsTimer | converter.py:53-55 | a new reading sets last_raw and start_time := now and keeps the old confirmed value |
| Converter.GuardConfirmRule | converter.py:56-58 | the confirmed value changes only to the same raw value held strictly longer than its limit, and always does so then |
| Converter.NeutralWaitsLonger | converter.py:8-9 | the limit is 100 ms for raw 0 and 20 ms otherwise, so Neutral waits longer |
| Converter.StableReadingIsConfirmed | converter.py:53-57 | a new reading repeated after more than its limit is confirmed |
| Converter.GuardRunValues | converter.py:43-58 | after any samples, confirmed and last_raw are initial values or values that were fed |
| Converter.ConfirmedIsInitialOrFed | converter.py:43-58 | from construction, the confirmed value is always init_val or some fed value other than −1 |
| Converter.ChatteringNeverConfirms | converter.py:52-55 | a reading that changes on every sample is never confirmed |
| Converter.StableNotchReader.constructor | converter.py:44-47 | last_raw = confirmed = init_val and start_time = now |
| Converter.StableNotchReader.Update | converter.py:49-58 | the new fields are GuardNext of the old ones, and the returned value is the new confirmed value |
| Converter.OnsetNeutralisesPowerFirst | converter.py:107-110 | on brake onset, a MASCON_N press and its sleep come before every other key, there is no other MASCON_N, and prev_p becomes 0 |
| Converter.StageChangeReleasesFirst | converter.py:114-123 | a stage change releases N, UP and EMG before the new key, and the stage map is 9→3, 6→1, 8→2, otherwise 0 |
| Converter.StageKeysHeld | converter.py:117-122 | after the stage keys, N is held exactly at stage 0, UP at 2 and EMG at 3 |
| Converter.AutoPhaseHeld | converter.py:114-123 | the automatic-air half keeps the held keys matching the stage |
| Converter.AutoHeldKeysFollowStage | converter.py:105-161 | in mode "2", every tick keeps the held N, UP and EMG keys matching last_auto_s |
| Converter.ElectricPhaseHeld | converter.py:125-134 | the electric half leaves EMG held exactly at brake 9 |
| Converter.ElectricEmergencyHeld | converter.py:124-152 | outside mode "2", EMG is held after a tick exactly when prev_b is 9, and prev_b becomes cur_b |
| Converter.ElectricChangeReleasesEmergencyFirst | converter.py:125-128 | any electric change off emergency releases EMG before its other brake keys |
| Converter.TickKeepsPowerNWhileBraking | converter.py:138-152 | after every tick, braking implies prev_p is 0 |
| Converter.OnsetDrives | converter.py:107-110 | the onset press moves the game's power handle to prev_p |
| Converter.PowerPhaseDrives | converter.py:138-149 | the power half moves the game's power handle from prev_p to the new prev_p |
| Converter.PowerTracksGame | converter.py:105-152 | while braking implies power N, every tick's keys move the game's power handle from prev_p to the new prev_p |
| Converter.ElectricPhaseDrives | converter.py:125-134 | the electric brake keys move the game's brake handle from prev_b to cur_b |
| Converter.ElectricBrakeTracksGame | converter.py:105-152 | outside mode "2", every tick's keys move the game's brake handle from prev_b to the new prev_b |
| Converter.LatchesMatchHeldKeys | converter.py:155-161 | START and SELECT are held exactly when latched, and the latches follow buttons 9 and 10 |
| Converter.TickIsIdempotent | converter.py:105-161 | repeating the filtered values emits nothing and changes nothing |
| Converter.InitialLoopValues | converter.py:75-84 | the start-up state: power 0..5, brake 0..9 (0 unless mode "1"), filters seeded with those values, stage 0, latches released |
| Converter.LegacyConverter.constructor | converter.py:75-84 | the start-up state is InitialLoop of the first reading, with two distinct fresh filters |
| Converter.LegacyConverter.Pass | converter.py:88-161 | one loop pass: the new filters and tick state and the emitted actions are those of Loop |
| Converter.LegacyConverter.TickOnce | converter.py:105-161 | the loop body equals Tick |
| Converter.LegacyConverter.BrakeOutput | converter.py:112-135 | the brake output equals BrakePhase |
| Converter.LegacyConverter.PowerOutput | converter.py:137-149 | the power output equals PowerPhase |
| Converter.LegacyConverter.HandleButtons | converter.py:155-161 | the button latches equal ButtonPhase |
| App.ModeIndex | main.py:50-51 | the index of a target in the cycle list points back at that target |
| App.ApplyKeepsWellFormed | main.py:48-124 | every button handler keeps at most one variant on, the active variant's limits, and the limits in 1..5 and 1..8 |
| App.RunKeepsWellFormed | main.py:48-124 | after any sequence of clicks from a well-formed start, at most one variant is on and the limits stay in range |
| App.InitialIsWellFormed | main.py:26-35 | the start-up globals are well formed with no variant on |
| App.CycleRoundTrip | main.py:50-53 | forward then backward (or the reverse) restores the target, four forward clicks go round, and a click always changes the target |
| App.CycleTargetRestoresDefaults | main.py:48-61 | changing target clears every variant and sets 5, 8 and brake "1"; forward then back restores the target |
| App.FlipBrakeModeIsInvolution | main.py:64-66 | the brake-setting handler is an involution that always changes the setting and nothing else |
| App.VariantPresets | main.py:68-104 | enabling a variant clears the other three and forces midosuji ("2",4,6), ae100 ("1",5,5), keihan ("1",5,8), 787 ("2",5,7); disabling clears only its own flag |
| App.VariantOnOffKeepsPreset | main.py:68-104 | for each of midosuji ("2", 4, 6), AE100 ("1", 5, 5), keihan ("1", 5, 8) and 787 ("2", 5, 7), switching it on and off again from a start with it off leaves no variant on, keeps the target and keeps the brake setting and limits it forced |
| App.AdjustmentBounds | main.py:106-124 | the adjustment handlers keep the limits in 1..5 and 1..8, are inert while a variant is on, and undo each other away from the bounds |
| App.VariantButtonStaysVisible | main.py:198-201 | clicking a shown variant button leaves it shown |
| App.AtMostOneVariantButton | main.py:198-201 | in a well-formed configuration at most one variant button is shown, only for its target, and always when its variant is on there |
| App.AdjustButtonsShownWhenEffective | main.py:203-209 | a hidden power-limit button's handler is inert, and a shown one changes the limit when the limit is off that button's bound (a shown `+` at 5 or `−` at 1 does nothing); the brake-limit buttons are also hidden in automatic-air mode, where their handlers still act |
| App.RawBrakeRange | main.py:232-235 | the resolved brake is −1 or a notch 0..9, never 14, and is −1 exactly on the patterns its table leaves out |
| App.DisplayRules | main.py:242-251 | the display shows max_brake + 1 for 9 outside automatic-air, the raw stage in automatic-air, otherwise min(cur_b, max_brake); it shows power only when no brake is shown |
| App.AxisDisplayIsRpcs3Clamp | main.py:242-245 | for PCSX2 and RPCS3 the display is RPCS3's brake clamp, and the midosuji branch changes nothing |
| App.DisplayEmergencyIsServiceForTranslator | main.py:242-248 | the display shows the table's 9 as emergency while the JRETS, BVE and PCSX2 clamps cap it at max_brake |
| App.FrameShape | main.py:230-240 | a frame keeps the filters in range, updates only the active translator, hands it power within max_power and a brake value that is never 14 |
| App.BrakeIsNotCapped | main.py:239-240 | the brake value reaches the translator uncapped (pattern 8 gives notch 6 under max_brake 3) |
| App.FirstFrameAfterResetIsSilent | main.py:44-46 | the frame after a reset of the active translator emits nothing |
| App.FrameIsIdempotent | main.py:230-313 | once synchronised, a second frame with the same reading emits nothing and changes nothing |
| App.Frontend.constructor | main.py:26-42 | the start-up globals, four fresh translators and two filters seeded with 0 |
| App.Frontend.ForceResetState | main.py:44-46 | only the active target's translator is reset, as ResetActive |
| App.Frontend.ToggleGameMode | main.py:48-62 | the globals become CycleTarget's, and the new target's translator (and no other) is reset |
| App.Frontend.ToggleBrakeMode | main.py:64-66 | the globals become FlipBrakeMode's, and no translator or filter changes |
| App.Frontend.ToggleMidosuji | main.py:68-75 | the globals become SwitchMidosuji's, and nothing else changes |
| App.Frontend.ToggleAe100 | main.py:77-84 | the globals become SwitchAe100's, and nothing else changes |
| App.Frontend.ToggleKeihan | main.py:86-93 | the globals become SwitchKeihan's, and nothing else changes |
| App.Frontend.Toggle787 | main.py:96-104 | the globals become Switch787's, and nothing else changes |
| App.Frontend.IncP | main.py:106-109 | the globals become RaisePower's |
| App.Frontend.DecP | main.py:111-114 | the globals become LowerPower's |
| App.Frontend.IncB | main.py:116-119 | the globals become RaiseBrake's |
| App.Frontend.DecB | main.py:121-124 | the globals become LowerBrake's |
| App.Frontend.Frame | main.py:230-313 | one frame: filters and active translator change as FrameStep, and the drawn notches are DisplayBrake and DisplayPower of the values handed over |
| App.Frontend.ReadFilters | main.py:232-240 | the table lookups and both filter updates give FramePower and FrameBrake |
| App.Frontend.ClampDisplay | main.py:242-250 | the drawn brake notch is DisplayBrake |
| App.Frontend.UpdateActive | main.py:303-313 | the context snapshot is built and only the active translator is updated, as Dispatch |

## Left out

- Device and keyboard I/O are left out:
  - the joystick is a `Joystick` value handed to `GetInputs`, and the main loop takes its `Reading`;
  - `pydirectinput` calls and `time.sleep` are `Action` values;
  - nothing models how long a sleep takes.
- Wall-clock time: the chattering guard takes `now` as an integer millisecond parameter instead of `time.time()`.
  - One converter pass hands the same `now` to both filters, where the source reads the clock once per filter.
- All of `ui.py` and the drawing half of the main loop are left out: window and icon set-up, event pumping, text and colour choices, the redraw cache and the FPS clock. `App.Frontend.Frame` and its display results cover everything from the table lookup to the translator update.
- App.Run: accepts any sequence of handler clicks. The dispatcher in `ui.py` drops a click on a hidden button and forwards only mouse buttons 1 and 3, so `App.RunKeepsWellFormed` covers more click sequences than can occur; the extra sequences only make the invariant stronger.
- `test.py` is left out. It is a diagnostic console script whose bit packing duplicates `get_inputs`.
- The converter's module-level side effects are left out: pygame initialisation, `exit()` without a joystick, the `input()` mode prompt (the mode is a string parameter), screen clearing and HUD printing, the trailing 5 ms sleep, and `KeyboardInterrupt` handling.
- The colour and screen constants of `const.py` are left out.
- `context.get(..., default)` is not modelled: the front end always supplies every context key, and the model's `Context` has all eight fields.
- The front end's `brake_mode` strings are the two-valued `BrakeMode`, since the handlers only ever assign "1" or "2". The converter's mode stays a string, because any typed text reaches it.
- Pcsx2.AxisTracksGame: requires that AE100 is off, or that the tick does not start at axis 5 and is not a cruise entry from the braking side. The lemma `Pcsx2.CruiseClimbFromBrakingSkipsNeutral` shows the game does not follow in that case, and `Pcsx2.CruiseExitReleasesPowerKey` states the exit from 5 separately.
- Rpcs3.AxisTracksGame: carries the same restriction for the keihan variant, for the same reason.
- Pcsx2.CruiseEntryHoldsPowerKey: also `CruiseRepeatIsSilent`, `CruiseClimbFromBrakingSkipsNeutral` and `ReturnToNeutral`. Each assumes `max_brake >= 0`, because with a negative limit the brake-free axis is not the power notch. The front end keeps `max_brake` in 1..8.
- Converter.PowerTracksGame: assumes "braking implies power N" before the tick. The start-up state of the converter can break this when power and brake are both non-zero at launch, but every tick restores it (`Converter.TickKeepsPowerNWhileBraking`).
- Bve.PowerTracksGame: assumes `prev_p >= 0`, which every reachable state has because the power table only yields 0..5.
- Bve.AutoBrakeTracksGame: assumes `auto_state >= 0`. Every reachable state has it: `auto_state` is only ever 0, 2, 3 or a brake value the front end hands over, and those are 0..9 (the automatic-air table yields 0, 6, 8 and 9; see `App.RawBrakeRange` and `App.FrameShape`).
