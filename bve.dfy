/** The BVE translator: every handle motion, release included, is a
    cascade of single-step keys (there is no neutral key); the emergency
    key is the one exception. */
module Bve {
  import opened Const
  import opened Keyboard
  import opened Inputs
  import opened Base

  datatype State = State(prevP: int, prevB: int, pStart: bool, pSelect: bool, needsSync: bool, autoState: int)

  const Initial: State := State(0, 0, false, false, true, 0)

  /** `|diff|` taps of `up` when `diff` is positive, of `down` otherwise. */
  function Cascade(up: Key, down: Key, diff: int): seq<Action>
  {
    Repeat(Tap(if diff > 0 then up else down, KeyRepeatDelay), Abs(diff))
  }

  /** Automatic-air return to run: step the stage down to 0. */
  function AutoRelease(s: State, mode: BrakeMode): Step<State>
  {
    if mode == Mode2 && s.autoState != 0 then
      Step(s.(autoState := 0), Repeat(Tap(KeyBrakeDown, KeyRepeatDelay), Abs(0 - s.autoState)))
    else Step(s, [])
  }

  /** Electric release: one down-tap per notch applied. */
  function ElectricRelease(s: State, mode: BrakeMode): Step<State>
  {
    if mode == Mode1 && s.prevB > 0 then
      Step(s.(prevB := 0), Repeat(Tap(KeyBrakeDown, KeyRepeatDelay), s.prevB))
    else Step(s, [])
  }

  /** The running branch (`cur_b <= 0`): release the brake, then follow the power handle. */
  function RunPhase(s: State, curP: int, mode: BrakeMode): Step<State>
  {
    var r1 := AutoRelease(s, mode);
    var r2 := ElectricRelease(r1.next, mode);
    var u := r2.next;
    if curP != u.prevP then Step(u.(prevP := curP), r1.acts + r2.acts + Cascade(KeyMasconUp, KeyMasconDown, curP - u.prevP))
    else Step(u, r1.acts + r2.acts)
  }

  /** Braking takes the power handle back to N first, one down-tap per notch. */
  function PowerOff(s: State): Step<State>
  {
    if s.prevP != 0 then Step(s.(prevP := 0), Repeat(Tap(KeyMasconDown, KeyRepeatDelay), Abs(0 - s.prevP)))
    else Step(s, [])
  }

  /** Stage 3 is emergency: entered by its key, left by one down press to 2. */
  function AutoEmergency(s: State, target: int): Step<State>
  {
    if target == 3 && s.autoState != 3 then Step(s.(autoState := 3), [Press(KeyBrakeEmg)])
    else if target != 3 && s.autoState == 3 then Step(s.(autoState := 2), [Press(KeyBrakeDown)])
    else Step(s, [])
  }

  /** Automatic-air braking: the emergency rule, then a cascade to the target stage. */
  function AutoBrakePhase(s: State, target: int): Step<State>
  {
    var e := AutoEmergency(s, target);
    var u := e.next;
    if target != 3 && u.autoState != 3 && target != u.autoState then
      Step(u.(autoState := target), e.acts + Cascade(KeyBrakeUp, KeyBrakeDown, target - u.autoState))
    else e
  }

  /** Electric braking: emergency key, the way out of emergency, or a cascade. */
  function ElectricBrakePhase(s: State, curB: int, maxBrake: int): Step<State>
  {
    if curB == s.prevB then Step(s, [])
    else if curB == maxBrake + 1 then Step(s.(prevB := curB), [Press(KeyBrakeEmg)])
    else if s.prevB == maxBrake + 1 then
      Step(s.(prevB := curB), [Press(KeyBrakeDown)] + Repeat(Tap(KeyBrakeDown, KeyRepeatDelay), Abs(curB - maxBrake)))
    else Step(s.(prevB := curB), Cascade(KeyBrakeUp, KeyBrakeDown, curB - s.prevB))
  }

  /** The braking branch (`cur_b > 0`). */
  function BrakingPhase(s: State, curB: int, mode: BrakeMode, maxBrake: int): Step<State>
  {
    var p := PowerOff(s);
    var b := if mode == Mode2 then AutoBrakePhase(p.next, curB) else ElectricBrakePhase(p.next, curB, maxBrake);
    Step(b.next, p.acts + b.acts)
  }

  /** Start (button 9) and select (button 10), edge-triggered. */
  function ButtonPhase(s: State, btns: Buttons): Step<State>
  {
    Step(s.(pStart := btns[9], pSelect := btns[10]),
         LatchEdge(s.pStart, btns[9], KeyStart) + LatchEdge(s.pSelect, btns[10], KeySelect))
  }

  /** One call of `update`. */
  function Transition(s: State, rawP: int, rawB: int, btns: Buttons, ctx: Context): Step<State>
  {
    var curP := rawP;
    var curB := BrakeValue(ctx.brakeMode, rawB, ctx.maxBrake);
    if s.needsSync then
      Step(s.(prevP := curP, prevB := curB,
              autoState := if ctx.brakeMode == Mode2 then curB else s.autoState,
              needsSync := false), [])
    else
      var h := if curB <= 0 then RunPhase(s, curP, ctx.brakeMode) else BrakingPhase(s, curB, ctx.brakeMode, ctx.maxBrake);
      var k := ButtonPhase(h.next, btns);
      Step(k.next, h.acts + k.acts)
  }

  /** One call of `reset`: no key is released. */
  function AfterReset(s: State): Step<State>
  {
    Step(s.(prevP := 0, prevB := 0, needsSync := true, autoState := 0), [])
  }

  // ---- receiver model ----

  /** What the game's power handle does with a key. */
  function MasconEffect(a: Action): Effect
  {
    if a == Press(KeyMasconUp) then Move(1)
    else if a == Press(KeyMasconDown) then Move(-1)
    else NoEffect
  }

  /** What the game's electric brake handle does with a key. */
  function ElectricEffect(maxBrake: int, a: Action): Effect
  {
    if a == Press(KeyBrakeUp) then Move(1)
    else if a == Press(KeyBrakeDown) then Move(-1)
    else if a == Press(KeyBrakeEmg) then Jump(maxBrake + 1)
    else NoEffect
  }

  /** What the game's automatic-air handle does with a key; stage 3 is emergency. */
  function AutoEffect(a: Action): Effect
  {
    if a == Press(KeyBrakeUp) then Move(1)
    else if a == Press(KeyBrakeDown) then Move(-1)
    else if a == Press(KeyBrakeEmg) then Jump(3)
    else NoEffect
  }

  predicate PowerKeyAction(a: Action)
  {
    a == Press(KeyMasconUp) || a == Press(KeyMasconDown) || a == Sleep(KeyRepeatDelay)
  }

  predicate BrakeKeyAction(a: Action)
  {
    a == Press(KeyBrakeUp) || a == Press(KeyBrakeDown) || a == Press(KeyBrakeEmg) || a == Sleep(KeyRepeatDelay)
  }

  /** Power keys do not move a brake handle, brake keys do not move the
      power handle, and neither touches the start or select key. */
  lemma KeyGroupsAreSeparate(maxBrake: int, a: Action)
    ensures PowerKeyAction(a) ==> ElectricEffect(maxBrake, a) == NoEffect && AutoEffect(a) == NoEffect
    ensures PowerKeyAction(a) ==> !Touches(a, KeyStart) && !Touches(a, KeySelect)
    ensures BrakeKeyAction(a) ==> MasconEffect(a) == NoEffect && !Touches(a, KeyStart) && !Touches(a, KeySelect)
    ensures (a.KeyDown? || a.KeyUp?) ==> MasconEffect(a) == NoEffect && ElectricEffect(maxBrake, a) == NoEffect && AutoEffect(a) == NoEffect
  {
  }

  lemma CascadeMembers(up: Key, down: Key, diff: int)
    ensures forall a :: a in Cascade(up, down, diff) ==> a == Press(up) || a == Press(down) || a == Sleep(KeyRepeatDelay)
  {
    TapCascadeMembers(if diff > 0 then up else down, KeyRepeatDelay, Abs(diff));
  }

  /** A cascade drives a handle that steps with `up` and `down` by exactly `diff`. */
  lemma CascadeDrives(pos: int, up: Key, down: Key, diff: int, effect: Action -> Effect)
    requires effect(Press(up)) == Move(1) && effect(Press(down)) == Move(-1) && effect(Sleep(KeyRepeatDelay)) == NoEffect
    ensures Drive(pos, Cascade(up, down, diff), effect) == pos + diff
  {
    if diff > 0 {
      DriveTaps(pos, up, KeyRepeatDelay, diff, 1, effect);
    } else {
      DriveTaps(pos, down, KeyRepeatDelay, -diff, -1, effect);
    }
  }

  /** Each phase's output, by key group. */
  lemma PhaseMembers(s: State, curP: int, curB: int, mode: BrakeMode, maxBrake: int, btns: Buttons)
    ensures forall a :: a in AutoRelease(s, mode).acts ==> BrakeKeyAction(a)
    ensures forall a :: a in ElectricRelease(s, mode).acts ==> BrakeKeyAction(a)
    ensures forall a :: a in Cascade(KeyMasconUp, KeyMasconDown, curP - s.prevP) ==> PowerKeyAction(a)
    ensures forall a :: a in PowerOff(s).acts ==> PowerKeyAction(a)
    ensures forall a :: a in AutoBrakePhase(s, curB).acts ==> BrakeKeyAction(a)
    ensures forall a :: a in ElectricBrakePhase(s, curB, maxBrake).acts ==> BrakeKeyAction(a)
    ensures forall a :: a in ButtonPhase(s, btns).acts ==> (a.KeyDown? || a.KeyUp?) && (a.key == KeyStart || a.key == KeySelect)
  {
    TapCascadeMembers(KeyBrakeDown, KeyRepeatDelay, Abs(0 - s.autoState));
    if s.prevB > 0 {
      TapCascadeMembers(KeyBrakeDown, KeyRepeatDelay, s.prevB);
    }
    CascadeMembers(KeyMasconUp, KeyMasconDown, curP - s.prevP);
    TapCascadeMembers(KeyMasconDown, KeyRepeatDelay, Abs(0 - s.prevP));
    var e := AutoEmergency(s, curB);
    CascadeMembers(KeyBrakeUp, KeyBrakeDown, curB - e.next.autoState);
    TapCascadeMembers(KeyBrakeDown, KeyRepeatDelay, Abs(curB - maxBrake));
    CascadeMembers(KeyBrakeUp, KeyBrakeDown, curB - s.prevB);
  }

  // ---- properties of one tick ----

  /** The first tick after construction or `reset` adopts the handle
      positions (the stage too, in automatic-air mode) and emits nothing. */
  lemma FirstTickAdoptsPositions(s: State, rawP: int, rawB: int, btns: Buttons, ctx: Context)
    requires s.needsSync
    ensures var t := Transition(s, rawP, rawB, btns, ctx);
      t.acts == [] && !t.next.needsSync &&
      t.next.prevP == rawP && t.next.prevB == BrakeValue(ctx.brakeMode, rawB, ctx.maxBrake) &&
      (ctx.brakeMode == Mode2 ==> t.next.autoState == rawB) &&
      t.next.pStart == s.pStart && t.next.pSelect == s.pSelect
  {
  }

  /** `reset` releases no key, keeps the latches, and makes the next tick silent. */
  lemma ResetReleasesNothing(held: set<Key>, s: State, rawP: int, rawB: int, btns: Buttons, ctx: Context)
    ensures var r := AfterReset(s);
      Held(held, r.acts) == held && r.next.pStart == s.pStart && r.next.pSelect == s.pSelect &&
      Transition(r.next, rawP, rawB, btns, ctx).acts == []
  {
  }

  /** The two releases of a running half leave the power handle and `prevP` alone. */
  lemma ReleasesMoveNoPower(s: State, mode: BrakeMode, maxBrake: int, pos: int)
    ensures var r1 := AutoRelease(s, mode); var r2 := ElectricRelease(r1.next, mode);
      Drive(pos, r1.acts + r2.acts, MasconEffect) == pos && r2.next.prevP == s.prevP
  {
    var r1 := AutoRelease(s, mode);
    var r2 := ElectricRelease(r1.next, mode);
    var btns: Buttons := seq(17, i => false);
    PhaseMembers(s, 0, 0, mode, maxBrake, btns);
    PhaseMembers(r1.next, 0, 0, mode, maxBrake, btns);
    forall a | a in r1.acts + r2.acts ensures MasconEffect(a) == NoEffect {
      KeyGroupsAreSeparate(maxBrake, a);
    }
    DriveIgnored(pos, r1.acts + r2.acts, MasconEffect);
  }

  lemma RunPhaseDrivesMascon(s: State, curP: int, mode: BrakeMode, maxBrake: int)
    ensures var h := RunPhase(s, curP, mode); Drive(s.prevP, h.acts, MasconEffect) == h.next.prevP
  {
    var r1 := AutoRelease(s, mode);
    var r2 := ElectricRelease(r1.next, mode);
    ReleasesMoveNoPower(s, mode, maxBrake, s.prevP);
    if curP != s.prevP {
      var c := Cascade(KeyMasconUp, KeyMasconDown, curP - s.prevP);
      assert RunPhase(s, curP, mode) == Step(r2.next.(prevP := curP), r1.acts + r2.acts + c);
      CascadeDrives(s.prevP, KeyMasconUp, KeyMasconDown, curP - s.prevP, MasconEffect);
      DriveAppend(s.prevP, r1.acts + r2.acts, c, MasconEffect);
    } else {
      assert RunPhase(s, curP, mode) == Step(r2.next, r1.acts + r2.acts);
    }
  }

  lemma BrakingPhaseDrivesMascon(s: State, curB: int, mode: BrakeMode, maxBrake: int)
    requires s.prevP >= 0
    ensures var h := BrakingPhase(s, curB, mode, maxBrake); Drive(s.prevP, h.acts, MasconEffect) == h.next.prevP
  {
    var p := PowerOff(s);
    var b := if mode == Mode2 then AutoBrakePhase(p.next, curB) else ElectricBrakePhase(p.next, curB, maxBrake);
    assert BrakingPhase(s, curB, mode, maxBrake) == Step(b.next, p.acts + b.acts);
    assert b.next.prevP == 0 && p.next.prevP == 0;
    assert Drive(s.prevP, p.acts, MasconEffect) == 0 by {
      if s.prevP != 0 {
        DriveTaps(s.prevP, KeyMasconDown, KeyRepeatDelay, s.prevP, -1, MasconEffect);
      }
    }
    assert Drive(0, b.acts, MasconEffect) == 0 by {
      PhaseMembers(p.next, 0, curB, mode, maxBrake, seq(17, i => false));
      forall a | a in b.acts ensures MasconEffect(a) == NoEffect {
        KeyGroupsAreSeparate(maxBrake, a);
      }
      DriveIgnored(0, b.acts, MasconEffect);
    }
    DriveAppend(s.prevP, p.acts, b.acts, MasconEffect);
  }

  /** Button edges move no handle. */
  lemma ButtonsMoveNoHandle(s: State, btns: Buttons, maxBrake: int, pos: int)
    ensures var k := ButtonPhase(s, btns);
      Drive(pos, k.acts, MasconEffect) == pos &&
      Drive(pos, k.acts, a => ElectricEffect(maxBrake, a)) == pos &&
      Drive(pos, k.acts, AutoEffect) == pos
  {
    var k := ButtonPhase(s, btns);
    PhaseMembers(s, 0, 0, Mode1, maxBrake, btns);
    forall a | a in k.acts
      ensures MasconEffect(a) == NoEffect && ElectricEffect(maxBrake, a) == NoEffect && AutoEffect(a) == NoEffect
    {
      KeyGroupsAreSeparate(maxBrake, a);
    }
    DriveIgnored(pos, k.acts, MasconEffect);
    DriveIgnored(pos, k.acts, a => ElectricEffect(maxBrake, a));
    DriveIgnored(pos, k.acts, AutoEffect);
  }

  /** A game whose power handle started where the translator believed it
      was (at or above N) ends every tick where the translator now believes it is. */
  lemma PowerTracksGame(s: State, rawP: int, rawB: int, btns: Buttons, ctx: Context)
    requires !s.needsSync && s.prevP >= 0
    ensures var t := Transition(s, rawP, rawB, btns, ctx);
      Drive(s.prevP, t.acts, MasconEffect) == t.next.prevP
  {
    var mode, maxBrake := ctx.brakeMode, ctx.maxBrake;
    var curB := BrakeValue(mode, rawB, maxBrake);
    var h := if curB <= 0 then RunPhase(s, rawP, mode) else BrakingPhase(s, curB, mode, maxBrake);
    if curB <= 0 {
      RunPhaseDrivesMascon(s, rawP, mode, maxBrake);
    } else {
      BrakingPhaseDrivesMascon(s, curB, mode, maxBrake);
    }
    var k := ButtonPhase(h.next, btns);
    ButtonsMoveNoHandle(h.next, btns, maxBrake, h.next.prevP);
    DriveAppend(s.prevP, h.acts, k.acts, MasconEffect);
  }

  lemma RunPhaseDrivesElectric(s: State, curP: int, maxBrake: int)
    ensures var h := RunPhase(s, curP, Mode1);
      Drive(s.prevB, h.acts, a => ElectricEffect(maxBrake, a)) == h.next.prevB
  {
    var e := a => ElectricEffect(maxBrake, a);
    var r1 := AutoRelease(s, Mode1);
    assert r1 == Step(s, []);
    var r2 := ElectricRelease(s, Mode1);
    var u := r2.next;
    assert Drive(s.prevB, r2.acts, e) == u.prevB by {
      if s.prevB > 0 {
        DriveTaps(s.prevB, KeyBrakeDown, KeyRepeatDelay, s.prevB, -1, e);
      }
    }
    if curP != u.prevP {
      var c := Cascade(KeyMasconUp, KeyMasconDown, curP - u.prevP);
      assert r1.acts + r2.acts + c == r2.acts + c;
      assert RunPhase(s, curP, Mode1) == Step(u.(prevP := curP), r2.acts + c);
      PhaseMembers(u, curP, 0, Mode1, maxBrake, seq(17, i => false));
      forall a | a in c ensures e(a) == NoEffect {
        KeyGroupsAreSeparate(maxBrake, a);
      }
      DriveIgnored(u.prevB, c, e);
      DriveAppend(s.prevB, r2.acts, c, e);
    } else {
      assert r1.acts + r2.acts == r2.acts;
      assert RunPhase(s, curP, Mode1) == Step(u, r2.acts);
    }
  }

  lemma ElectricBrakePhaseDrives(s: State, curB: int, maxBrake: int)
    requires curB <= maxBrake + 1
    ensures var b := ElectricBrakePhase(s, curB, maxBrake);
      Drive(s.prevB, b.acts, a => ElectricEffect(maxBrake, a)) == b.next.prevB
  {
    var e := a => ElectricEffect(maxBrake, a);
    if curB != s.prevB {
      if curB == maxBrake + 1 {
        DriveOne(s.prevB, Press(KeyBrakeEmg), e);
      } else if s.prevB == maxBrake + 1 {
        DriveOne(s.prevB, Press(KeyBrakeDown), e);
        DriveTaps(maxBrake, KeyBrakeDown, KeyRepeatDelay, Abs(curB - maxBrake), -1, e);
        DriveAppend(s.prevB, [Press(KeyBrakeDown)], Repeat(Tap(KeyBrakeDown, KeyRepeatDelay), Abs(curB - maxBrake)), e);
      } else {
        CascadeDrives(s.prevB, KeyBrakeUp, KeyBrakeDown, curB - s.prevB, e);
      }
    }
  }
  lemma BrakingPhaseDrivesElectric(s: State, curB: int, maxBrake: int)
    requires curB <= maxBrake + 1
    ensures var h := BrakingPhase(s, curB, Mode1, maxBrake);
      Drive(s.prevB, h.acts, a => ElectricEffect(maxBrake, a)) == h.next.prevB
  {
    var e := a => ElectricEffect(maxBrake, a);
    var p := PowerOff(s);
    var b := ElectricBrakePhase(p.next, curB, maxBrake);
    PhaseMembers(s, 0, curB, Mode1, maxBrake, seq(17, i => false));
    forall a | a in p.acts ensures e(a) == NoEffect {
      KeyGroupsAreSeparate(maxBrake, a);
    }
    DriveIgnored(s.prevB, p.acts, e);
    ElectricBrakePhaseDrives(p.next, curB, maxBrake);
    DriveAppend(s.prevB, p.acts, b.acts, e);
  }

  /** In electric mode a game whose brake handle started where the
      translator believed it was ends every tick where the translator now
      believes it is, the way out of emergency included. */
  lemma ElectricBrakeTracksGame(s: State, rawP: int, rawB: int, btns: Buttons, ctx: Context)
    requires !s.needsSync && ctx.brakeMode == Mode1
    ensures var t := Transition(s, rawP, rawB, btns, ctx);
      Drive(s.prevB, t.acts, a => ElectricEffect(ctx.maxBrake, a)) == t.next.prevB
  {
    var maxBrake := ctx.maxBrake;
    var curB := BrakeValue(Mode1, rawB, maxBrake);
    var h := if curB <= 0 then RunPhase(s, rawP, Mode1) else BrakingPhase(s, curB, Mode1, maxBrake);
    if curB <= 0 {
      RunPhaseDrivesElectric(s, rawP, maxBrake);
    } else {
      BrakingPhaseDrivesElectric(s, curB, maxBrake);
    }
    var k := ButtonPhase(h.next, btns);
    ButtonsMoveNoHandle(h.next, btns, maxBrake, h.next.prevB);
    DriveAppend(s.prevB, h.acts, k.acts, a => ElectricEffect(maxBrake, a));
  }

  lemma RunPhaseDrivesAuto(s: State, curP: int)
    requires s.autoState >= 0
    ensures var h := RunPhase(s, curP, Mode2); Drive(s.autoState, h.acts, AutoEffect) == h.next.autoState
  {
    var r1 := AutoRelease(s, Mode2);
    var r2 := ElectricRelease(r1.next, Mode2);
    assert r2 == Step(r1.next, []);
    var u := r1.next;
    assert Drive(s.autoState, r1.acts, AutoEffect) == u.autoState by {
      if s.autoState != 0 {
        DriveTaps(s.autoState, KeyBrakeDown, KeyRepeatDelay, s.autoState, -1, AutoEffect);
      }
    }
    if curP != u.prevP {
      var c := Cascade(KeyMasconUp, KeyMasconDown, curP - u.prevP);
      assert r1.acts + r2.acts + c == r1.acts + c;
      assert RunPhase(s, curP, Mode2) == Step(u.(prevP := curP), r1.acts + c);
      PhaseMembers(u, curP, 0, Mode2, 0, seq(17, i => false));
      forall a | a in c ensures AutoEffect(a) == NoEffect {
        KeyGroupsAreSeparate(0, a);
      }
      DriveIgnored(u.autoState, c, AutoEffect);
      DriveAppend(s.autoState, r1.acts, c, AutoEffect);
    } else {
      assert r1.acts + r2.acts == r1.acts;
      assert RunPhase(s, curP, Mode2) == Step(u, r1.acts);
    }
  }

  lemma AutoBrakePhaseDrives(s: State, target: int)
    ensures var b := AutoBrakePhase(s, target); Drive(s.autoState, b.acts, AutoEffect) == b.next.autoState
  {
    var em := AutoEmergency(s, target);
    if target == 3 && s.autoState != 3 {
      DriveOne(s.autoState, Press(KeyBrakeEmg), AutoEffect);
    } else if target != 3 && s.autoState == 3 {
      DriveOne(s.autoState, Press(KeyBrakeDown), AutoEffect);
    }
    if target != 3 && em.next.autoState != 3 && target != em.next.autoState {
      CascadeDrives(em.next.autoState, KeyBrakeUp, KeyBrakeDown, target - em.next.autoState, AutoEffect);
      DriveAppend(s.autoState, em.acts, Cascade(KeyBrakeUp, KeyBrakeDown, target - em.next.autoState), AutoEffect);
    }
  }

  lemma BrakingPhaseDrivesAuto(s: State, curB: int, maxBrake: int)
    ensures var h := BrakingPhase(s, curB, Mode2, maxBrake);
      Drive(s.autoState, h.acts, AutoEffect) == h.next.autoState
  {
    var p := PowerOff(s);
    var b := AutoBrakePhase(p.next, curB);
    PhaseMembers(s, 0, curB, Mode2, maxBrake, seq(17, i => false));
    forall a | a in p.acts ensures AutoEffect(a) == NoEffect {
      KeyGroupsAreSeparate(maxBrake, a);
    }
    DriveIgnored(s.autoState, p.acts, AutoEffect);
    AutoBrakePhaseDrives(p.next, curB);
    DriveAppend(s.autoState, p.acts, b.acts, AutoEffect);
  }

  /** In automatic-air mode a game whose stage started where the translator
      believed it was (at or above run) ends every tick at the translator's
      new stage. */
  lemma AutoBrakeTracksGame(s: State, rawP: int, rawB: int, btns: Buttons, ctx: Context)
    requires !s.needsSync && ctx.brakeMode == Mode2 && s.autoState >= 0
    ensures var t := Transition(s, rawP, rawB, btns, ctx);
      Drive(s.autoState, t.acts, AutoEffect) == t.next.autoState
  {
    var maxBrake := ctx.maxBrake;
    var curB := rawB;
    var h := if curB <= 0 then RunPhase(s, rawP, Mode2) else BrakingPhase(s, curB, Mode2, maxBrake);
    if curB <= 0 {
      RunPhaseDrivesAuto(s, rawP);
    } else {
      BrakingPhaseDrivesAuto(s, curB, maxBrake);
    }
    var k := ButtonPhase(h.next, btns);
    ButtonsMoveNoHandle(h.next, btns, maxBrake, h.next.autoState);
    DriveAppend(s.autoState, h.acts, k.acts, AutoEffect);
  }

  /** The start and select keys are held exactly while their latches are
      set, and after a running tick the latches equal buttons 9 and 10. */
  lemma LatchesMatchHeldKeys(held: set<Key>, s: State, rawP: int, rawB: int, btns: Buttons, ctx: Context)
    requires (KeyStart in held) == s.pStart && (KeySelect in held) == s.pSelect
    ensures var t := Transition(s, rawP, rawB, btns, ctx);
      (KeyStart in Held(held, t.acts)) == t.next.pStart && (KeySelect in Held(held, t.acts)) == t.next.pSelect
    ensures !s.needsSync ==> Transition(s, rawP, rawB, btns, ctx).next.pStart == btns[9]
    ensures !s.needsSync ==> Transition(s, rawP, rawB, btns, ctx).next.pSelect == btns[10]
  {
    if !s.needsSync {
      var mode, maxBrake := ctx.brakeMode, ctx.maxBrake;
      var curB := BrakeValue(mode, rawB, maxBrake);
      var h := if curB <= 0 then RunPhase(s, rawP, mode) else BrakingPhase(s, curB, mode, maxBrake);
      HandleTouchesNoButton(s, rawP, curB, mode, maxBrake);
      LatchPairTracksButtons(held, h.acts, s.pStart, btns[9], KeyStart, s.pSelect, btns[10], KeySelect);
      var k := ButtonPhase(h.next, btns);
      assert Transition(s, rawP, rawB, btns, ctx) == Step(k.next, h.acts + k.acts);
    }
  }

  /** The handle half touches neither button key and keeps both latches. */
  lemma HandleTouchesNoButton(s: State, curP: int, curB: int, mode: BrakeMode, maxBrake: int)
    ensures var h := if curB <= 0 then RunPhase(s, curP, mode) else BrakingPhase(s, curB, mode, maxBrake);
      (forall a :: a in h.acts ==> !Touches(a, KeyStart) && !Touches(a, KeySelect)) &&
      h.next.pStart == s.pStart && h.next.pSelect == s.pSelect
  {
    var h := if curB <= 0 then RunPhase(s, curP, mode) else BrakingPhase(s, curB, mode, maxBrake);
    forall a | a in h.acts ensures !Touches(a, KeyStart) && !Touches(a, KeySelect) {
      HandleKeys(s, curP, curB, mode, maxBrake, a);
    }
  }

  /** Every action of a handle phase is a power key or a brake key. */
  lemma HandleKeys(s: State, curP: int, curB: int, mode: BrakeMode, maxBrake: int, a: Action)
    requires a in (if curB <= 0 then RunPhase(s, curP, mode) else BrakingPhase(s, curB, mode, maxBrake)).acts
    ensures PowerKeyAction(a) || BrakeKeyAction(a)
  {
    var r1 := AutoRelease(s, mode);
    var r2 := ElectricRelease(r1.next, mode);
    PhaseMembers(s, curP, curB, mode, maxBrake, [false] + seq(16, i => false));
    PhaseMembers(r1.next, curP, curB, mode, maxBrake, [false] + seq(16, i => false));
    PhaseMembers(r2.next, curP, curB, mode, maxBrake, [false] + seq(16, i => false));
    PhaseMembers(PowerOff(s).next, curP, curB, mode, maxBrake, [false] + seq(16, i => false));
  }

  /** Electric release with the power handle still emits exactly one
      down-tap per applied notch and forgets the brake position. */
  lemma ElectricReleaseTaps(s: State, btns: Buttons, ctx: Context)
    requires !s.needsSync && ctx.brakeMode == Mode1 && s.prevB > 0
    requires btns[9] == s.pStart && btns[10] == s.pSelect
    ensures var t := Transition(s, s.prevP, 0, btns, ctx);
      t.acts == Repeat(Tap(KeyBrakeDown, KeyRepeatDelay), s.prevB) && t.next.prevB == 0
  {
    var t := Transition(s, s.prevP, 0, btns, ctx);
    assert t.acts == [] + Repeat(Tap(KeyBrakeDown, KeyRepeatDelay), s.prevB) + [];
  }

  /** Applying the brake while powering first emits one power down-tap per
      notch, then only brake and button keys; the power position becomes 0. */
  lemma BrakingLowersPowerFirst(s: State, rawP: int, rawB: int, btns: Buttons, ctx: Context)
    requires !s.needsSync && BrakeValue(ctx.brakeMode, rawB, ctx.maxBrake) > 0 && s.prevP > 0
    ensures var t := Transition(s, rawP, rawB, btns, ctx);
      2 * s.prevP <= |t.acts| &&
      t.acts[..2 * s.prevP] == Repeat(Tap(KeyMasconDown, KeyRepeatDelay), s.prevP) &&
      (forall a :: a in t.acts[2 * s.prevP..] ==> MasconEffect(a) == NoEffect) &&
      t.next.prevP == 0
  {
    var curB := BrakeValue(ctx.brakeMode, rawB, ctx.maxBrake);
    var down := Repeat(Tap(KeyMasconDown, KeyRepeatDelay), s.prevP);
    RepeatLength(Tap(KeyMasconDown, KeyRepeatDelay), s.prevP);
    BrakingTickShape(s, rawP, rawB, btns, ctx);
    BrakingRestMovesNoPower(s, curB, btns, ctx);
    var w := Transition(s, rawP, rawB, btns, ctx).acts;
    var rest := BrakingRest(s, curB, btns, ctx);
    assert w[..|down|] == down && w[|down|..] == rest;
  }

  /** The brake and button keys of a braking tick, after the power-off taps. */
  function BrakingRest(s: State, curB: int, btns: Buttons, ctx: Context): seq<Action>
  {
    var p := PowerOff(s);
    var b := if ctx.brakeMode == Mode2 then AutoBrakePhase(p.next, curB) else ElectricBrakePhase(p.next, curB, ctx.maxBrake);
    b.acts + ButtonPhase(b.next, btns).acts
  }

  lemma BrakingTickShape(s: State, rawP: int, rawB: int, btns: Buttons, ctx: Context)
    requires !s.needsSync && BrakeValue(ctx.brakeMode, rawB, ctx.maxBrake) > 0 && s.prevP > 0
    ensures var t := Transition(s, rawP, rawB, btns, ctx);
      t.acts == Repeat(Tap(KeyMasconDown, KeyRepeatDelay), s.prevP) + BrakingRest(s, BrakeValue(ctx.brakeMode, rawB, ctx.maxBrake), btns, ctx) &&
      t.next.prevP == 0
  {
    var curB := BrakeValue(ctx.brakeMode, rawB, ctx.maxBrake);
    var p := PowerOff(s);
    assert p == Step(s.(prevP := 0), Repeat(Tap(KeyMasconDown, KeyRepeatDelay), s.prevP));
    var b := if ctx.brakeMode == Mode2 then AutoBrakePhase(p.next, curB) else ElectricBrakePhase(p.next, curB, ctx.maxBrake);
    assert b.next.prevP == 0;
    var k := ButtonPhase(b.next, btns);
    assert Transition(s, rawP, rawB, btns, ctx) == Step(k.next, p.acts + b.acts + k.acts);
  }

  lemma BrakingRestMovesNoPower(s: State, curB: int, btns: Buttons, ctx: Context)
    ensures forall a :: a in BrakingRest(s, curB, btns, ctx) ==> MasconEffect(a) == NoEffect
  {
    var p := PowerOff(s);
    var b := if ctx.brakeMode == Mode2 then AutoBrakePhase(p.next, curB) else ElectricBrakePhase(p.next, curB, ctx.maxBrake);
    PhaseMembers(p.next, 0, curB, ctx.brakeMode, ctx.maxBrake, btns);
    PhaseMembers(b.next, 0, curB, ctx.brakeMode, ctx.maxBrake, btns);
    forall a | a in BrakingRest(s, curB, btns, ctx) ensures MasconEffect(a) == NoEffect {
      KeyGroupsAreSeparate(ctx.maxBrake, a);
    }
  }

  /** While running with the brake released, moving the power handle is one
      tap per notch in the direction of the change. */
  lemma PowerChangeCascades(s: State, rawP: int, btns: Buttons, ctx: Context)
    requires !s.needsSync && rawP != s.prevP
    requires ctx.brakeMode == Mode1 ==> s.prevB <= 0
    requires ctx.brakeMode == Mode2 ==> s.autoState == 0
    requires btns[9] == s.pStart && btns[10] == s.pSelect
    ensures var t := Transition(s, rawP, 0, btns, ctx);
      t.next.prevP == rawP &&
      (rawP > s.prevP ==> t.acts == Repeat(Tap(KeyMasconUp, KeyRepeatDelay), rawP - s.prevP)) &&
      (rawP < s.prevP ==> t.acts == Repeat(Tap(KeyMasconDown, KeyRepeatDelay), s.prevP - rawP))
  {
    var t := Transition(s, rawP, 0, btns, ctx);
    assert t.acts == [] + [] + Cascade(KeyMasconUp, KeyMasconDown, rawP - s.prevP) + [];
  }

  /** Electric emergency (raw 14) from any other position, power at N and
      buttons unchanged, is the single emergency key. */
  lemma EmergencyIsOneKey(s: State, rawP: int, btns: Buttons, ctx: Context)
    requires !s.needsSync && ctx.brakeMode == Mode1 && ctx.maxBrake >= 0
    requires s.prevP == 0 && s.prevB != ctx.maxBrake + 1
    requires btns[9] == s.pStart && btns[10] == s.pSelect
    ensures var t := Transition(s, rawP, 14, btns, ctx);
      t.acts == [Press(KeyBrakeEmg)] && t.next.prevB == ctx.maxBrake + 1
  {
    var t := Transition(s, rawP, 14, btns, ctx);
    assert t.acts == [] + [Press(KeyBrakeEmg)] + [];
  }

  /** Leaving electric emergency to a service notch is one down press, then
      one down-tap per notch between `maxBrake` and the new notch. */
  lemma EmergencyExit(s: State, rawP: int, rawB: int, btns: Buttons, ctx: Context)
    requires !s.needsSync && ctx.brakeMode == Mode1 && ctx.maxBrake > 0
    requires rawB > 0 && rawB != 14
    requires s.prevP == 0 && s.prevB == ctx.maxBrake + 1
    requires btns[9] == s.pStart && btns[10] == s.pSelect
    ensures var t := Transition(s, rawP, rawB, btns, ctx);
      t.acts == [Press(KeyBrakeDown)] + Repeat(Tap(KeyBrakeDown, KeyRepeatDelay), ctx.maxBrake - Min(rawB, ctx.maxBrake)) &&
      t.next.prevB == Min(rawB, ctx.maxBrake)
  {
    var t := Transition(s, rawP, rawB, btns, ctx);
    var curB := Min(rawB, ctx.maxBrake);
    assert t.acts == [] + ([Press(KeyBrakeDown)] + Repeat(Tap(KeyBrakeDown, KeyRepeatDelay), Abs(curB - ctx.maxBrake))) + [];
  }

  /** Any other electric brake change is one tap per notch in the
      direction of the change. */
  lemma ElectricBrakeCascades(s: State, rawP: int, rawB: int, btns: Buttons, ctx: Context)
    requires !s.needsSync && ctx.brakeMode == Mode1 && ctx.maxBrake > 0
    requires rawB > 0 && rawB != 14 && s.prevB != ctx.maxBrake + 1 && s.prevB != Min(rawB, ctx.maxBrake)
    requires s.prevP == 0 && btns[9] == s.pStart && btns[10] == s.pSelect
    ensures var t := Transition(s, rawP, rawB, btns, ctx);
      t.acts == Cascade(KeyBrakeUp, KeyBrakeDown, Min(rawB, ctx.maxBrake) - s.prevB) &&
      t.next.prevB == Min(rawB, ctx.maxBrake)
  {
    var t := Transition(s, rawP, rawB, btns, ctx);
    assert t.acts == [] + Cascade(KeyBrakeUp, KeyBrakeDown, Min(rawB, ctx.maxBrake) - s.prevB) + [];
  }

  /** Automatic-air return to run steps the stage down to 0, one tap per stage. */
  lemma AutoReturnToRun(s: State, rawB: int, btns: Buttons, ctx: Context)
    requires !s.needsSync && ctx.brakeMode == Mode2 && rawB <= 0 && s.autoState != 0
    requires btns[9] == s.pStart && btns[10] == s.pSelect
    ensures var t := Transition(s, s.prevP, rawB, btns, ctx);
      t.acts == Repeat(Tap(KeyBrakeDown, KeyRepeatDelay), Abs(s.autoState)) && t.next.autoState == 0
  {
    var t := Transition(s, s.prevP, rawB, btns, ctx);
    assert t.acts == Repeat(Tap(KeyBrakeDown, KeyRepeatDelay), Abs(0 - s.autoState)) + [] + [];
  }

  /** Automatic-air braking to a non-emergency stage from a non-emergency
      stage cascades the difference with no clamp; stage 3 is entered by
      the emergency key and left by one down press to stage 2. */
  lemma AutoStageRules(s: State, rawB: int, btns: Buttons, ctx: Context)
    requires !s.needsSync && ctx.brakeMode == Mode2 && rawB > 0
    requires s.prevP == 0 && btns[9] == s.pStart && btns[10] == s.pSelect
    ensures var t := Transition(s, 0, rawB, btns, ctx);
      (rawB != 3 && s.autoState != 3 ==> t.acts == Cascade(KeyBrakeUp, KeyBrakeDown, rawB - s.autoState)) &&
      (rawB == 3 && s.autoState != 3 ==> t.acts == [Press(KeyBrakeEmg)]) &&
      (rawB != 3 && s.autoState == 3 ==> t.acts == [Press(KeyBrakeDown)] + Cascade(KeyBrakeUp, KeyBrakeDown, rawB - 2)) &&
      (rawB != 3 ==> t.next.autoState == rawB) && (rawB == 3 ==> t.next.autoState == 3)
  {
    var t := Transition(s, 0, rawB, btns, ctx);
    var b := AutoBrakePhase(s, rawB);
    assert t.acts == [] + b.acts + [];
    if rawB != 3 && s.autoState != 3 && rawB == s.autoState {
      assert Cascade(KeyBrakeUp, KeyBrakeDown, 0) == [];
    }
    if rawB == 2 && s.autoState == 3 {
      assert Cascade(KeyBrakeUp, KeyBrakeDown, 0) == [];
    }
  }

  /** The automatic-air table's stage codes 6, 8 and 9 are taken as step
      counts: from run they become 6, 8 or 9 up-taps and never the emergency key. */
  lemma AutoTableStagesAreStepCounts(s: State, rawB: int, btns: Buttons, ctx: Context)
    requires !s.needsSync && ctx.brakeMode == Mode2 && s.autoState == 0
    requires rawB in AutoBrakeMap.Values && rawB != 0
    requires s.prevP == 0 && btns[9] == s.pStart && btns[10] == s.pSelect
    ensures var t := Transition(s, 0, rawB, btns, ctx);
      t.acts == Repeat(Tap(KeyBrakeUp, KeyRepeatDelay), rawB) && Press(KeyBrakeEmg) !in t.acts
  {
    AutoTableServiceStages(rawB);
    StepCountClimb(s, rawB, btns, ctx);
  }

  /** The automatic-air table's non-zero values. */
  lemma AutoTableServiceStages(rawB: int)
    requires rawB in AutoBrakeMap.Values && rawB != 0
    ensures rawB == 6 || rawB == 8 || rawB == 9
  {
    AutoBrakeMapShape();
  }

  lemma StepCountClimb(s: State, rawB: int, btns: Buttons, ctx: Context)
    requires !s.needsSync && ctx.brakeMode == Mode2 && s.autoState == 0
    requires rawB == 6 || rawB == 8 || rawB == 9
    requires s.prevP == 0 && btns[9] == s.pStart && btns[10] == s.pSelect
    ensures var t := Transition(s, 0, rawB, btns, ctx);
      t.acts == Repeat(Tap(KeyBrakeUp, KeyRepeatDelay), rawB) && Press(KeyBrakeEmg) !in t.acts
  {
    AutoStageRules(s, rawB, btns, ctx);
    TapCascadeMembers(KeyBrakeUp, KeyRepeatDelay, rawB);
  }

  /** A running half settles: run again from any state that agrees on the
      handle positions, it sends nothing. */
  lemma RunPhaseSettles(s: State, curP: int, mode: BrakeMode, u: State)
    requires var h := RunPhase(s, curP, mode);
      u.prevP == h.next.prevP && u.prevB == h.next.prevB && u.autoState == h.next.autoState
    ensures RunPhase(u, curP, mode) == Step(u, [])
  {
    assert u.prevP == curP;
    assert mode == Mode1 ==> u.prevB <= 0;
    assert mode == Mode2 ==> u.autoState == 0;
  }

  /** A braking half settles in the same sense. */
  lemma BrakingPhaseSettles(s: State, curB: int, mode: BrakeMode, maxBrake: int, u: State)
    requires curB > 0
    requires var h := BrakingPhase(s, curB, mode, maxBrake);
      u.prevP == h.next.prevP && u.prevB == h.next.prevB && u.autoState == h.next.autoState
    ensures BrakingPhase(u, curB, mode, maxBrake) == Step(u, [])
  {
    assert u.prevP == 0;
    assert mode == Mode1 ==> u.prevB == curB;
    assert mode == Mode2 && curB != 3 ==> u.autoState == curB;
    assert mode == Mode2 && curB == 3 ==> u.autoState == 3;
  }

  /** A second tick with the same reading emits nothing and changes nothing. */
  lemma TickIsIdempotent(s: State, rawP: int, rawB: int, btns: Buttons, ctx: Context)
    requires !s.needsSync
    ensures var t := Transition(s, rawP, rawB, btns, ctx);
      Transition(t.next, rawP, rawB, btns, ctx) == Step(t.next, [])
  {
    var mode, maxBrake := ctx.brakeMode, ctx.maxBrake;
    var curB := BrakeValue(mode, rawB, maxBrake);
    var h := if curB <= 0 then RunPhase(s, rawP, mode) else BrakingPhase(s, curB, mode, maxBrake);
    var u := ButtonPhase(h.next, btns).next;
    assert Transition(s, rawP, rawB, btns, ctx).next == u;
    if curB <= 0 {
      RunPhaseSettles(s, rawP, mode, u);
    } else {
      BrakingPhaseSettles(s, curB, mode, maxBrake, u);
    }
    assert ButtonPhase(u, btns) == Step(u, []);
  }

  class BveLogic {
    var prevP: int
    var prevB: int
    var pStart: bool
    var pSelect: bool
    var needsSync: bool
    var autoState: int

    function View(): State
      reads this
    {
      State(prevP, prevB, pStart, pSelect, needsSync, autoState)
    }

    constructor ()
      ensures View() == Initial
    {
      prevP, prevB := 0, 0;
      pStart, pSelect := false, false;
      needsSync := true;
      autoState := 0;
    }

    method Reset() returns (acts: seq<Action>)
      modifies this
      ensures Step(View(), acts) == AfterReset(old(View()))
    {
      prevP, prevB := 0, 0;
      needsSync := true;
      autoState := 0;
      acts := [];
    }

    method Update(rawP: int, rawB: int, rawBtns: Buttons, context: Context) returns (acts: seq<Action>)
      modifies this
      ensures Step(View(), acts) == Transition(old(View()), rawP, rawB, rawBtns, context)
    {
      var brakeMode := context.brakeMode;
      var maxBrake := context.maxBrake;
      var curP := rawP;
      var curB: int;
      if brakeMode == Mode1 {
        if rawB == 14 {
          curB := maxBrake + 1;
        } else if rawB == 0 {
          curB := 0;
        } else {
          curB := Min(rawB, maxBrake);
        }
      } else {
        curB := rawB;
      }

      if needsSync {
        prevP := curP;
        prevB := curB;
        if brakeMode == Mode2 {
          autoState := curB;
        }
        needsSync := false;
        return [];
      }

      var handleActs: seq<Action>;
      if curB <= 0 {
        handleActs := UpdateRun(curP, brakeMode);
      } else {
        handleActs := UpdateBraking(curB, brakeMode, maxBrake);
      }
      var buttonActs := HandleButtons(rawBtns);
      acts := handleActs + buttonActs;
    }

    /** The running branch of `update`. */
    method UpdateRun(curP: int, brakeMode: BrakeMode) returns (acts: seq<Action>)
      modifies this
      ensures Step(View(), acts) == RunPhase(old(View()), curP, brakeMode)
    {
      acts := [];
      if brakeMode == Mode2 {
        var targetState := 0;
        if autoState != 0 {
          var diff := targetState - autoState;
          var taps := RepeatTap(KeyBrakeDown, Abs(diff), KeyRepeatDelay);
          acts := acts + taps;
          autoState := 0;
        }
      }
      if brakeMode == Mode1 && prevB > 0 {
        var stepsToRelease := prevB;
        var taps := RepeatTap(KeyBrakeDown, stepsToRelease, KeyRepeatDelay);
        acts := acts + taps;
        prevB := 0;
      }
      if curP != prevP {
        var diff := curP - prevP;
        if diff > 0 {
          var taps := RepeatTap(KeyMasconUp, diff, KeyRepeatDelay);
          acts := acts + taps;
        } else if diff < 0 {
          var taps := RepeatTap(KeyMasconDown, Abs(diff), KeyRepeatDelay);
          acts := acts + taps;
        }
        prevP := curP;
      }
    }

    /** The braking branch of `update`. */
    method UpdateBraking(curB: int, brakeMode: BrakeMode, maxBrake: int) returns (acts: seq<Action>)
      modifies this
      ensures Step(View(), acts) == BrakingPhase(old(View()), curB, brakeMode, maxBrake)
    {
      acts := [];
      if prevP != 0 {
        var diff := 0 - prevP;
        var taps := RepeatTap(KeyMasconDown, Abs(diff), KeyRepeatDelay);
        acts := acts + taps;
        prevP := 0;
      }
      var brakeActs: seq<Action>;
      if brakeMode == Mode2 {
        brakeActs := UpdateAutoBrake(curB);
      } else {
        brakeActs := UpdateElectricBrake(curB, maxBrake);
      }
      acts := acts + brakeActs;
    }

    method UpdateAutoBrake(targetState: int) returns (acts: seq<Action>)
      modifies this
      ensures Step(View(), acts) == AutoBrakePhase(old(View()), targetState)
    {
      acts := [];
      if targetState == 3 && autoState != 3 {
        acts := acts + [Press(KeyBrakeEmg)];
        autoState := 3;
      } else if targetState != 3 && autoState == 3 {
        acts := acts + [Press(KeyBrakeDown)];
        autoState := 2;
      }
      if targetState != 3 && autoState != 3 {
        if targetState != autoState {
          var diff := targetState - autoState;
          if diff > 0 {
            var taps := RepeatTap(KeyBrakeUp, diff, KeyRepeatDelay);
            acts := acts + taps;
          } else if diff < 0 {
            var taps := RepeatTap(KeyBrakeDown, Abs(diff), KeyRepeatDelay);
            acts := acts + taps;
          }
          autoState := targetState;
        }
      }
    }

    method UpdateElectricBrake(curB: int, maxBrake: int) returns (acts: seq<Action>)
      modifies this
      ensures Step(View(), acts) == ElectricBrakePhase(old(View()), curB, maxBrake)
    {
      acts := [];
      if curB != prevB {
        if curB == maxBrake + 1 {
          acts := acts + [Press(KeyBrakeEmg)];
        } else if prevB == maxBrake + 1 {
          acts := acts + [Press(KeyBrakeDown)];
          prevB := maxBrake;
          var diff := curB - prevB;
          var taps := RepeatTap(KeyBrakeDown, Abs(diff), KeyRepeatDelay);
          acts := acts + taps;
        } else {
          var diff := curB - prevB;
          var key := if diff > 0 then KeyBrakeUp else KeyBrakeDown;
          var taps := RepeatTap(key, Abs(diff), KeyRepeatDelay);
          acts := acts + taps;
        }
        prevB := curB;
      }
    }

    /** The start and select latches, start first. */
    method HandleButtons(rawBtns: Buttons) returns (acts: seq<Action>)
      modifies this
      ensures Step(View(), acts) == ButtonPhase(old(View()), rawBtns)
    {
      acts := [];
      var isSt, isSl := rawBtns[9], rawBtns[10];
      if isSt != pStart {
        acts := acts + (if isSt then [KeyDown(KeyStart)] else [KeyUp(KeyStart)]);
        pStart := isSt;
      }
      if isSl != pSelect {
        acts := acts + (if isSl then [KeyDown(KeySelect)] else [KeyUp(KeySelect)]);
        pSelect := isSl;
      }
    }
  }
}
