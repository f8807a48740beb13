/** The JRETS translator: two independent key axes (power keys and brake
    keys), cascaded presses with a fixed delay, distinct power-neutral and
    brake-neutral keys, and a dedicated emergency key. */
module Jrets {
  import opened Const
  import opened Keyboard
  import opened Inputs
  import opened Base

  datatype State = State(prevP: int, prevB: int, pStart: bool, pSelect: bool, needsSync: bool, lastAutoS: int)

  const Initial: State := State(0, 0, false, false, true, 0)

  /** Keys that move the power handle from `prevP` to `curP` (when they differ). */
  function PowerKeys(prevP: int, curP: int): seq<Action>
  {
    if curP == 0 then [Press(KeyMasconN)]
    else
      var diff := curP - prevP;
      Repeat(Tap(if diff > 0 then KeyMasconUp else KeyMasconDown, KeyRepeatDelay), Abs(diff))
  }

  /** The power part of a tick. In both brake modes the handle counts as
      running exactly when the brake value is 0. */
  function PowerPhase(s: State, curP: int, curB: int, mode: BrakeMode): Step<State>
  {
    if curB == 0 then
      var release := mode == Mode1 && s.prevB > 0;
      var s1 := if release then s.(prevB := 0) else s;
      var a1 := if release then [Press(KeyBrakeN)] else [];
      if curP != s1.prevP then Step(s1.(prevP := curP), a1 + PowerKeys(s1.prevP, curP))
      else Step(s1, a1)
    else if s.prevP != 0 then Step(s.(prevP := 0), [Press(KeyMasconN)])
    else Step(s, [])
  }

  /** Automatic-air stage keys, sent after releasing a held brake key. */
  function AutoStageKeys(target: int): seq<Action>
  {
    if target == 0 then [Press(KeyBrakeN)]
    else if target == 2 then [KeyDown(KeyBrakeUp)]
    else if target == 3 then [Press(KeyBrakeEmg)]
    else []
  }

  /** Electric brake keys that move the brake from `prevB` to `curB` (when they differ). */
  function ElectricBrakeKeys(prevB: int, curB: int, maxBrake: int): seq<Action>
  {
    if curB == maxBrake + 1 then [Press(KeyBrakeEmg)]
    else if curB == 0 then [Press(KeyBrakeN)]
    else
      var diff := curB - prevB;
      Repeat(Tap(if diff > 0 then KeyBrakeUp else KeyBrakeDown, KeyRepeatDelay), Abs(diff))
  }

  function BrakePhase(s: State, curB: int, mode: BrakeMode, maxBrake: int): Step<State>
  {
    if mode == Mode2 then
      if curB != s.lastAutoS then Step(s.(lastAutoS := curB), [KeyUp(KeyBrakeUp)] + AutoStageKeys(curB))
      else Step(s, [])
    else if curB != s.prevB then Step(s.(prevB := curB), ElectricBrakeKeys(s.prevB, curB, maxBrake))
    else Step(s, [])
  }

  /** Start (button 9) and select (button 10), edge-triggered. */
  function ButtonPhase(s: State, btns: Buttons): Step<State>
  {
    Step(s.(pStart := btns[9], pSelect := btns[10]),
         LatchEdge(s.pStart, btns[9], KeyStart) + LatchEdge(s.pSelect, btns[10], KeySelect))
  }

  /** One call of `update`. */
  function Transition(s: State, rawP: int, rawB: int, btns: Buttons, ctx: Context): Step<State>
  {
    var curP := rawP;
    var curB := BrakeValue(ctx.brakeMode, rawB, ctx.maxBrake);
    if s.needsSync then
      Step(s.(prevP := curP, prevB := curB,
              lastAutoS := if ctx.brakeMode == Mode2 then curB else s.lastAutoS,
              needsSync := false), [])
    else
      var p := PowerPhase(s, curP, curB, ctx.brakeMode);
      var b := BrakePhase(p.next, curB, ctx.brakeMode, ctx.maxBrake);
      var k := ButtonPhase(b.next, btns);
      Step(k.next, p.acts + b.acts + k.acts)
  }

  /** One call of `reset`. */
  function AfterReset(s: State): Step<State>
  {
    Step(s.(prevP := 0, prevB := 0, needsSync := true, lastAutoS := 0), [KeyUp(KeyBrakeUp)])
  }

  // ---- receiver model ----

  /** What the game's power handle does with a key: up, down, or back to N. */
  function MasconEffect(a: Action): Effect
  {
    if a == Press(KeyMasconUp) then Move(1)
    else if a == Press(KeyMasconDown) then Move(-1)
    else if a == Press(KeyMasconN) then Jump(0)
    else NoEffect
  }

  /** What the game's electric brake handle does with a key. */
  function BrakeEffect(maxBrake: int, a: Action): Effect
  {
    if a == Press(KeyBrakeUp) then Move(1)
    else if a == Press(KeyBrakeDown) then Move(-1)
    else if a == Press(KeyBrakeN) then Jump(0)
    else if a == Press(KeyBrakeEmg) then Jump(maxBrake + 1)
    else NoEffect
  }

  // ---- which keys each phase can touch ----

  lemma PowerKeysMembers(prevP: int, curP: int)
    ensures forall a :: a in PowerKeys(prevP, curP) ==>
      a == Press(KeyMasconN) || a == Press(KeyMasconUp) || a == Press(KeyMasconDown) || a == Sleep(KeyRepeatDelay)
  {
    if curP != 0 {
      TapCascadeMembers(if curP - prevP > 0 then KeyMasconUp else KeyMasconDown, KeyRepeatDelay, Abs(curP - prevP));
    }
  }

  lemma ElectricBrakeKeysMembers(prevB: int, curB: int, maxBrake: int)
    ensures forall a :: a in ElectricBrakeKeys(prevB, curB, maxBrake) ==>
      a == Press(KeyBrakeEmg) || a == Press(KeyBrakeN) || a == Press(KeyBrakeUp) || a == Press(KeyBrakeDown) || a == Sleep(KeyRepeatDelay)
  {
    if curB != maxBrake + 1 && curB != 0 {
      TapCascadeMembers(if curB - prevB > 0 then KeyBrakeUp else KeyBrakeDown, KeyRepeatDelay, Abs(curB - prevB));
    }
  }

  predicate PowerKeyAction(a: Action)
  {
    a == Press(KeyMasconN) || a == Press(KeyMasconUp) || a == Press(KeyMasconDown) || a == Sleep(KeyRepeatDelay)
  }

  predicate BrakeKeyAction(a: Action)
  {
    a == KeyUp(KeyBrakeUp) || a == KeyDown(KeyBrakeUp) || a == Press(KeyBrakeN) || a == Press(KeyBrakeUp) ||
    a == Press(KeyBrakeDown) || a == Press(KeyBrakeEmg) || a == Sleep(KeyRepeatDelay)
  }

  /** Power keys do not move the brake handle, brake keys do not move the
      power handle, and neither touches the start or select key. */
  lemma KeyGroupsAreSeparate(maxBrake: int, a: Action)
    ensures PowerKeyAction(a) ==> BrakeEffect(maxBrake, a) == NoEffect && !Touches(a, KeyStart) && !Touches(a, KeySelect)
    ensures BrakeKeyAction(a) ==> MasconEffect(a) == NoEffect && !Touches(a, KeyStart) && !Touches(a, KeySelect)
    ensures (a.KeyDown? || a.KeyUp?) ==> MasconEffect(a) == NoEffect && BrakeEffect(maxBrake, a) == NoEffect
  {
  }

  /** Power-phase output: power keys, plus the brake-neutral press of a release. */
  lemma PowerPhaseMembers(s: State, curP: int, curB: int, mode: BrakeMode)
    ensures forall a :: a in PowerPhase(s, curP, curB, mode).acts ==> PowerKeyAction(a) || a == Press(KeyBrakeN)
  {
    PowerKeysMembers(s.prevP, curP);
  }

  /** Brake-phase output: brake keys only. */
  lemma BrakePhaseMembers(s: State, curB: int, mode: BrakeMode, maxBrake: int)
    ensures forall a :: a in BrakePhase(s, curB, mode, maxBrake).acts ==> BrakeKeyAction(a)
  {
    ElectricBrakeKeysMembers(s.prevB, curB, maxBrake);
  }

  /** Button-phase output: downs and ups of start and select. */
  lemma ButtonPhaseMembers(s: State, btns: Buttons)
    ensures forall a :: a in ButtonPhase(s, btns).acts ==> (a.KeyDown? || a.KeyUp?) && (a.key == KeyStart || a.key == KeySelect)
  {
  }

  // ---- properties of one tick ----

  /** The first tick after construction or `reset` adopts the handle
      positions and emits nothing. */
  lemma FirstTickAdoptsPositions(s: State, rawP: int, rawB: int, btns: Buttons, ctx: Context)
    requires s.needsSync
    ensures var t := Transition(s, rawP, rawB, btns, ctx);
      t.acts == [] && !t.next.needsSync &&
      t.next.prevP == rawP && t.next.prevB == BrakeValue(ctx.brakeMode, rawB, ctx.maxBrake) &&
      (ctx.brakeMode == Mode2 ==> t.next.lastAutoS == rawB) &&
      t.next.pStart == s.pStart && t.next.pSelect == s.pSelect
  {
  }

  /** `reset` releases the held automatic-air key, keeps the button latches
      in step with the held keys, and makes the next tick silent. */
  lemma ResetReleasesBrakeKey(held: set<Key>, s: State, rawP: int, rawB: int, btns: Buttons, ctx: Context)
    requires (KeyStart in held) == s.pStart && (KeySelect in held) == s.pSelect
    ensures var r := AfterReset(s);
      KeyBrakeUp !in Held(held, r.acts) &&
      (KeyStart in Held(held, r.acts)) == r.next.pStart && (KeySelect in Held(held, r.acts)) == r.next.pSelect &&
      Transition(r.next, rawP, rawB, btns, ctx).acts == []
  {
    var r := AfterReset(s);
    assert Held(held, r.acts) == Held(held - {KeyBrakeUp}, []);
  }

  /** Drive the power handle through one power phase. */
  lemma PowerPhaseDrivesMascon(s: State, curP: int, curB: int, mode: BrakeMode)
    ensures var p := PowerPhase(s, curP, curB, mode);
      Drive(s.prevP, p.acts, MasconEffect) == p.next.prevP
  {
    var p := PowerPhase(s, curP, curB, mode);
    if curB == 0 {
      var release := mode == Mode1 && s.prevB > 0;
      var a1: seq<Action> := if release then [Press(KeyBrakeN)] else [];
      DriveIgnored(s.prevP, a1, MasconEffect);
      if curP != s.prevP {
        DriveAppend(s.prevP, a1, PowerKeys(s.prevP, curP), MasconEffect);
        PowerKeysDrive(s.prevP, curP);
      }
    } else if s.prevP != 0 {
      DriveOne(s.prevP, Press(KeyMasconN), MasconEffect);
    }
  }

  lemma PowerKeysDrive(prevP: int, curP: int)
    requires prevP != curP
    ensures Drive(prevP, PowerKeys(prevP, curP), MasconEffect) == curP
  {
    if curP == 0 {
      DriveOne(prevP, Press(KeyMasconN), MasconEffect);
    } else if curP > prevP {
      DriveTaps(prevP, KeyMasconUp, KeyRepeatDelay, curP - prevP, 1, MasconEffect);
    } else {
      DriveTaps(prevP, KeyMasconDown, KeyRepeatDelay, prevP - curP, -1, MasconEffect);
    }
  }

  /** A game whose power handle started where the translator believed it
      was ends every tick where the translator now believes it is. */
  lemma PowerTracksGame(s: State, rawP: int, rawB: int, btns: Buttons, ctx: Context)
    requires !s.needsSync
    ensures var t := Transition(s, rawP, rawB, btns, ctx);
      Drive(s.prevP, t.acts, MasconEffect) == t.next.prevP
  {
    var curB := BrakeValue(ctx.brakeMode, rawB, ctx.maxBrake);
    var p := PowerPhase(s, rawP, curB, ctx.brakeMode);
    var b := BrakePhase(p.next, curB, ctx.brakeMode, ctx.maxBrake);
    var k := ButtonPhase(b.next, btns);
    PowerPhaseDrivesMascon(s, rawP, curB, ctx.brakeMode);
    BrakePhaseMembers(p.next, curB, ctx.brakeMode, ctx.maxBrake);
    ButtonPhaseMembers(b.next, btns);
    forall a | a in b.acts + k.acts ensures MasconEffect(a) == NoEffect {
      KeyGroupsAreSeparate(ctx.maxBrake, a);
    }
    DriveIgnored(p.next.prevP, b.acts, MasconEffect);
    DriveIgnored(p.next.prevP, k.acts, MasconEffect);
    DriveAppend(s.prevP, p.acts, b.acts, MasconEffect);
    DriveAppend(s.prevP, p.acts + b.acts, k.acts, MasconEffect);
  }

  lemma ElectricBrakeKeysDrive(prevB: int, curB: int, maxBrake: int)
    requires prevB != curB
    ensures Drive(prevB, ElectricBrakeKeys(prevB, curB, maxBrake), a => BrakeEffect(maxBrake, a)) == curB
  {
    var e := a => BrakeEffect(maxBrake, a);
    if curB == maxBrake + 1 {
      DriveOne(prevB, Press(KeyBrakeEmg), e);
    } else if curB == 0 {
      DriveOne(prevB, Press(KeyBrakeN), e);
    } else if curB > prevB {
      DriveTaps(prevB, KeyBrakeUp, KeyRepeatDelay, curB - prevB, 1, e);
    } else {
      DriveTaps(prevB, KeyBrakeDown, KeyRepeatDelay, prevB - curB, -1, e);
    }
  }

  /** In electric mode a game whose brake handle started where the
      translator believed it was ends every tick where the translator now
      believes it is (the release press of the power phase included). */
  lemma ElectricBrakeTracksGame(s: State, rawP: int, rawB: int, btns: Buttons, ctx: Context)
    requires !s.needsSync && ctx.brakeMode == Mode1
    ensures var t := Transition(s, rawP, rawB, btns, ctx);
      Drive(s.prevB, t.acts, a => BrakeEffect(ctx.maxBrake, a)) == t.next.prevB
  {
    var e := a => BrakeEffect(ctx.maxBrake, a);
    var curB := BrakeValue(ctx.brakeMode, rawB, ctx.maxBrake);
    var p := PowerPhase(s, rawP, curB, ctx.brakeMode);
    var b := BrakePhase(p.next, curB, ctx.brakeMode, ctx.maxBrake);
    var k := ButtonPhase(b.next, btns);
    // the power phase moves the brake handle only by its release press
    if curB == 0 {
      var release := s.prevB > 0;
      var a1: seq<Action> := if release then [Press(KeyBrakeN)] else [];
      if release {
        DriveOne(s.prevB, Press(KeyBrakeN), e);
      } else {
        DriveIgnored(s.prevB, a1, e);
      }
      if rawP != s.prevP {
        PowerKeysMembers(s.prevP, rawP);
        forall a | a in PowerKeys(s.prevP, rawP) ensures e(a) == NoEffect {
          KeyGroupsAreSeparate(ctx.maxBrake, a);
        }
        DriveIgnored(p.next.prevB, PowerKeys(s.prevP, rawP), e);
        DriveAppend(s.prevB, a1, PowerKeys(s.prevP, rawP), e);
      }
    } else if s.prevP != 0 {
      DriveOne(s.prevB, Press(KeyMasconN), e);
    }
    assert Drive(s.prevB, p.acts, e) == p.next.prevB;
    if curB != p.next.prevB {
      ElectricBrakeKeysDrive(p.next.prevB, curB, ctx.maxBrake);
    }
    assert Drive(p.next.prevB, b.acts, e) == b.next.prevB;
    ButtonPhaseMembers(b.next, btns);
    forall a | a in k.acts ensures e(a) == NoEffect {
      KeyGroupsAreSeparate(ctx.maxBrake, a);
    }
    DriveIgnored(b.next.prevB, k.acts, e);
    DriveAppend(s.prevB, p.acts, b.acts, e);
    DriveAppend(s.prevB, p.acts + b.acts, k.acts, e);
  }

  /** The start and select keys are held exactly while their latches are
      set, and after a running tick the latches equal buttons 9 and 10. */
  lemma LatchesMatchHeldKeys(held: set<Key>, s: State, rawP: int, rawB: int, btns: Buttons, ctx: Context)
    requires (KeyStart in held) == s.pStart && (KeySelect in held) == s.pSelect
    ensures var t := Transition(s, rawP, rawB, btns, ctx);
      (KeyStart in Held(held, t.acts)) == t.next.pStart && (KeySelect in Held(held, t.acts)) == t.next.pSelect
    ensures !s.needsSync ==> Transition(s, rawP, rawB, btns, ctx).next.pStart == btns[9]
    ensures !s.needsSync ==> Transition(s, rawP, rawB, btns, ctx).next.pSelect == btns[10]
  {
    if !s.needsSync {
      var curB := BrakeValue(ctx.brakeMode, rawB, ctx.maxBrake);
      var p := PowerPhase(s, rawP, curB, ctx.brakeMode);
      var b := BrakePhase(p.next, curB, ctx.brakeMode, ctx.maxBrake);
      var e1 := LatchEdge(b.next.pStart, btns[9], KeyStart);
      var e2 := LatchEdge(b.next.pSelect, btns[10], KeySelect);
      PowerPhaseMembers(s, rawP, curB, ctx.brakeMode);
      BrakePhaseMembers(p.next, curB, ctx.brakeMode, ctx.maxBrake);
      forall a | a in p.acts + b.acts ensures !Touches(a, KeyStart) && !Touches(a, KeySelect) {
        KeyGroupsAreSeparate(ctx.maxBrake, a);
      }
      LatchPairTracksButtons(held, p.acts + b.acts, b.next.pStart, btns[9], KeyStart, b.next.pSelect, btns[10], KeySelect);
      assert p.acts + b.acts + (e1 + e2) == Transition(s, rawP, rawB, btns, ctx).acts;
    }
  }

  /** Releasing the brake in electric mode sends the brake-neutral key
      first and exactly once, and forgets the brake position. */
  lemma ReleaseSendsOneBrakeNeutral(s: State, rawP: int, btns: Buttons, ctx: Context)
    requires !s.needsSync && ctx.brakeMode == Mode1 && s.prevB > 0
    ensures var t := Transition(s, rawP, 0, btns, ctx);
      |t.acts| > 0 && t.acts[0] == Press(KeyBrakeN) &&
      multiset(t.acts)[Press(KeyBrakeN)] == 1 && t.next.prevB == 0
  {
    var p := PowerPhase(s, rawP, 0, Mode1);
    var b := BrakePhase(p.next, 0, Mode1, ctx.maxBrake);
    var k := ButtonPhase(b.next, btns);
    assert b == Step(p.next, []);
    PowerKeysMembers(s.prevP, rawP);
    ButtonPhaseMembers(b.next, btns);
    var power := if rawP != s.prevP then PowerKeys(s.prevP, rawP) else [];
    assert p.acts == [Press(KeyBrakeN)] + power;
    forall a | a in power + k.acts ensures a != Press(KeyBrakeN) {
      KeyGroupsAreSeparate(ctx.maxBrake, a);
    }
    assert Transition(s, rawP, 0, btns, ctx).acts == [Press(KeyBrakeN)] + (power + k.acts);
    OnceAtHead(Transition(s, rawP, 0, btns, ctx).acts, Press(KeyBrakeN), power + k.acts);
  }

  /** Applying the brake while powering sends the power-neutral key first
      and exactly once, and the power position becomes 0. */
  /** The brake and button keys after the power-neutral press of a braking tick. */
  function BrakingTail(s: State, curB: int, btns: Buttons, ctx: Context): seq<Action>
  {
    var b := BrakePhase(s.(prevP := 0), curB, ctx.brakeMode, ctx.maxBrake);
    b.acts + ButtonPhase(b.next, btns).acts
  }

  lemma BrakingTickShape(s: State, rawP: int, rawB: int, btns: Buttons, ctx: Context)
    requires !s.needsSync && BrakeValue(ctx.brakeMode, rawB, ctx.maxBrake) != 0 && s.prevP != 0
    ensures var t := Transition(s, rawP, rawB, btns, ctx);
      t.acts == [Press(KeyMasconN)] + BrakingTail(s, BrakeValue(ctx.brakeMode, rawB, ctx.maxBrake), btns, ctx) &&
      t.next.prevP == 0
  {
    var curB := BrakeValue(ctx.brakeMode, rawB, ctx.maxBrake);
    var p := PowerPhase(s, rawP, curB, ctx.brakeMode);
    assert p == Step(s.(prevP := 0), [Press(KeyMasconN)]);
    var b := BrakePhase(p.next, curB, ctx.brakeMode, ctx.maxBrake);
    assert b.next.prevP == 0;
  }

  lemma BrakingTailHasNoNeutral(s: State, curB: int, btns: Buttons, ctx: Context)
    ensures Press(KeyMasconN) !in BrakingTail(s, curB, btns, ctx)
  {
    var b := BrakePhase(s.(prevP := 0), curB, ctx.brakeMode, ctx.maxBrake);
    BrakePhaseMembers(s.(prevP := 0), curB, ctx.brakeMode, ctx.maxBrake);
    ButtonPhaseMembers(b.next, btns);
  }

  /** Applying the brake while powering sends the power-neutral key first
      and exactly once, and the power position becomes 0. */
  lemma BrakingNeutralisesPowerFirst(s: State, rawP: int, rawB: int, btns: Buttons, ctx: Context)
    requires !s.needsSync && BrakeValue(ctx.brakeMode, rawB, ctx.maxBrake) != 0 && s.prevP != 0
    ensures var t := Transition(s, rawP, rawB, btns, ctx);
      |t.acts| > 0 && t.acts[0] == Press(KeyMasconN) &&
      multiset(t.acts)[Press(KeyMasconN)] == 1 && t.next.prevP == 0
  {
    var curB := BrakeValue(ctx.brakeMode, rawB, ctx.maxBrake);
    BrakingTickShape(s, rawP, rawB, btns, ctx);
    BrakingTailHasNoNeutral(s, curB, btns, ctx);
    OnceAtHead(Transition(s, rawP, rawB, btns, ctx).acts, Press(KeyMasconN), BrakingTail(s, curB, btns, ctx));
  }

  /** While running with no brake change, moving the power handle sends
      MASCON_N for notch 0 and otherwise one tap per notch of difference in
      the direction of the change. */
  lemma PowerChangeCascades(s: State, rawP: int, btns: Buttons, ctx: Context)
    requires !s.needsSync && rawP != s.prevP
    requires ctx.brakeMode == Mode1 ==> s.prevB == 0
    requires ctx.brakeMode == Mode2 ==> s.lastAutoS == 0
    requires btns[9] == s.pStart && btns[10] == s.pSelect
    ensures var t := Transition(s, rawP, 0, btns, ctx);
      t.next.prevP == rawP &&
      (rawP == 0 ==> t.acts == [Press(KeyMasconN)]) &&
      (rawP != 0 && rawP > s.prevP ==> t.acts == Repeat(Tap(KeyMasconUp, KeyRepeatDelay), rawP - s.prevP)) &&
      (rawP != 0 && rawP < s.prevP ==> t.acts == Repeat(Tap(KeyMasconDown, KeyRepeatDelay), s.prevP - rawP))
  {
    var t := Transition(s, rawP, 0, btns, ctx);
    assert t.acts == PowerKeys(s.prevP, rawP) + [] + [];
  }

  /** Emergency (raw 14) from any other electric position, with the power
      handle at N and the buttons unchanged, is the single emergency key. */
  lemma EmergencyIsOneKey(s: State, rawP: int, btns: Buttons, ctx: Context)
    requires !s.needsSync && ctx.brakeMode == Mode1 && ctx.maxBrake >= 0
    requires s.prevP == 0 && s.prevB != ctx.maxBrake + 1
    requires btns[9] == s.pStart && btns[10] == s.pSelect
    ensures var t := Transition(s, rawP, 14, btns, ctx);
      t.acts == [Press(KeyBrakeEmg)] && t.next.prevB == ctx.maxBrake + 1
  {
    var t := Transition(s, rawP, 14, btns, ctx);
    assert t.acts == [] + [Press(KeyBrakeEmg)] + [];
  }

  /** The electric table's emergency notch (pattern 0, value 9) is capped at
      `maxBrake` and reached by service taps: the emergency key is never sent. */
  lemma TableEmergencyIsServiceBrake(s: State, rawP: int, btns: Buttons, ctx: Context)
    requires !s.needsSync && ctx.brakeMode == Mode1 && ctx.maxBrake > 0
    requires s.prevP == 0 && 0 <= s.prevB < Min(9, ctx.maxBrake)
    requires btns[9] == s.pStart && btns[10] == s.pSelect
    ensures var t := Transition(s, rawP, ElectricBrakeMap[0], btns, ctx);
      t.acts == Repeat(Tap(KeyBrakeUp, KeyRepeatDelay), Min(9, ctx.maxBrake) - s.prevB) &&
      Press(KeyBrakeEmg) !in t.acts && t.next.prevB == Min(9, ctx.maxBrake)
  {
    assert ElectricBrakeMap[0] == 9;
    ServiceCascadeTick(s, rawP, btns, ctx);
  }

  /** Brake value 9 in the electric setting, from rest below the cap: the
      tick is the BRAKE_UP cascade up to `Min(9, maxBrake)`. */
  lemma ServiceCascadeTick(s: State, rawP: int, btns: Buttons, ctx: Context)
    requires !s.needsSync && ctx.brakeMode == Mode1 && ctx.maxBrake > 0
    requires s.prevP == 0 && 0 <= s.prevB < Min(9, ctx.maxBrake)
    requires btns[9] == s.pStart && btns[10] == s.pSelect
    ensures var t := Transition(s, rawP, 9, btns, ctx);
      t.acts == Repeat(Tap(KeyBrakeUp, KeyRepeatDelay), Min(9, ctx.maxBrake) - s.prevB) &&
      Press(KeyBrakeEmg) !in t.acts && t.next.prevB == Min(9, ctx.maxBrake)
  {
    var target := Min(9, ctx.maxBrake);
    assert BrakeValue(Mode1, 9, ctx.maxBrake) == target;
    var p := PowerPhase(s, rawP, target, Mode1);
    assert p == Step(s, []);
    var cascade := Repeat(Tap(KeyBrakeUp, KeyRepeatDelay), target - s.prevB);
    assert ElectricBrakeKeys(s.prevB, target, ctx.maxBrake) == cascade;
    var b := BrakePhase(s, target, Mode1, ctx.maxBrake);
    assert b == Step(s.(prevB := target), cascade);
    var k := ButtonPhase(b.next, btns);
    assert k.acts == [];
    var t := Transition(s, rawP, 9, btns, ctx);
    assert t == Step(k.next, p.acts + b.acts + k.acts);
    assert t.acts == [] + cascade + [];
    TapCascadeMembers(KeyBrakeUp, KeyRepeatDelay, target - s.prevB);
  }

  /** An automatic-air stage change first releases the held brake key, then
      sends the stage's key: N for 0, hold BRAKE_UP for 2, EMG for 3. */
  lemma AutoStageChange(s: State, rawB: int, btns: Buttons, ctx: Context)
    requires !s.needsSync && ctx.brakeMode == Mode2 && rawB != s.lastAutoS
    requires s.prevP == 0 && btns[9] == s.pStart && btns[10] == s.pSelect
    ensures var t := Transition(s, 0, rawB, btns, ctx);
      t.next.lastAutoS == rawB &&
      t.acts == [KeyUp(KeyBrakeUp)] +
        (if rawB == 0 then [Press(KeyBrakeN)]
         else if rawB == 2 then [KeyDown(KeyBrakeUp)]
         else if rawB == 3 then [Press(KeyBrakeEmg)]
         else [])
  {
    var t := Transition(s, 0, rawB, btns, ctx);
    assert t.acts == [] + ([KeyUp(KeyBrakeUp)] + AutoStageKeys(rawB)) + [];
  }

  /** The automatic-air table yields the stage codes 6, 8 and 9, which the
      stage dispatch does not know: braking with the table only releases
      the brake key and engages no stage. */
  lemma AutoTableStagesEngageNothing(s: State, rawB: int, btns: Buttons, ctx: Context)
    requires !s.needsSync && ctx.brakeMode == Mode2
    requires rawB in AutoBrakeMap.Values && rawB != 0 && rawB != s.lastAutoS
    requires s.prevP == 0 && btns[9] == s.pStart && btns[10] == s.pSelect
    ensures var t := Transition(s, 0, rawB, btns, ctx);
      t.acts == [KeyUp(KeyBrakeUp)] && t.next.lastAutoS == rawB
  {
    AutoBrakeMapShape();
    AutoStageChange(s, rawB, btns, ctx);
  }

  /** A second tick with the same reading emits nothing and changes nothing
      (after the synchronising tick this need not hold: it sets no latch). */
  lemma TickIsIdempotent(s: State, rawP: int, rawB: int, btns: Buttons, ctx: Context)
    requires !s.needsSync
    ensures var t := Transition(s, rawP, rawB, btns, ctx);
      Transition(t.next, rawP, rawB, btns, ctx) == Step(t.next, [])
  {
    var t := Transition(s, rawP, rawB, btns, ctx);
    var curB := BrakeValue(ctx.brakeMode, rawB, ctx.maxBrake);
    var u := t.next;
    assert !u.needsSync;
    assert u.prevP == rawP || (curB != 0 && u.prevP == 0);
    assert curB == 0 && ctx.brakeMode == Mode1 ==> u.prevB == 0;
    assert ctx.brakeMode == Mode1 ==> u.prevB == curB;
    assert ctx.brakeMode == Mode2 ==> u.lastAutoS == curB;
    assert u.pStart == btns[9] && u.pSelect == btns[10];
    var p := PowerPhase(u, rawP, curB, ctx.brakeMode);
    assert p == Step(u, []);
    var b := BrakePhase(u, curB, ctx.brakeMode, ctx.maxBrake);
    assert b == Step(u, []);
    assert ButtonPhase(u, btns) == Step(u, []);
  }

  class JretsLogic {
    var prevP: int
    var prevB: int
    var pStart: bool
    var pSelect: bool
    var needsSync: bool
    var lastAutoS: int

    function View(): State
      reads this
    {
      State(prevP, prevB, pStart, pSelect, needsSync, lastAutoS)
    }

    constructor ()
      ensures View() == Initial
    {
      prevP, prevB := 0, 0;
      pStart, pSelect := false, false;
      needsSync := true;
      lastAutoS := 0;
    }

    method Reset() returns (acts: seq<Action>)
      modifies this
      ensures Step(View(), acts) == AfterReset(old(View()))
    {
      prevP, prevB := 0, 0;
      needsSync := true;
      lastAutoS := 0;
      acts := [KeyUp(KeyBrakeUp)];
    }

    method Update(rawP: int, rawB: int, rawBtns: Buttons, context: Context) returns (acts: seq<Action>)
      modifies this
      ensures Step(View(), acts) == Transition(old(View()), rawP, rawB, rawBtns, context)
    {
      var brakeMode := context.brakeMode;
      var maxBrake := context.maxBrake;
      var curP := rawP;
      var curB := 0;
      if brakeMode == Mode1 {
        if rawB == 14 {
          curB := maxBrake + 1;
        } else if rawB == 0 {
          curB := 0;
        } else {
          curB := Min(rawB, maxBrake);
        }
      } else {
        curB := rawB;
      }

      if needsSync {
        prevP := curP;
        prevB := curB;
        if brakeMode == Mode2 {
          lastAutoS := curB;
        }
        needsSync := false;
        return [];
      }

      var powerActs := UpdatePower(curP, curB, brakeMode);
      var brakeActs := UpdateBrake(curB, brakeMode, maxBrake);
      var buttonActs := HandleButtons(rawBtns);
      acts := powerActs + brakeActs + buttonActs;
    }

    /** The power half of `update`, after synchronisation. */
    method UpdatePower(curP: int, curB: int, brakeMode: BrakeMode) returns (acts: seq<Action>)
      modifies this
      ensures Step(View(), acts) == PowerPhase(old(View()), curP, curB, brakeMode)
    {
      acts := [];
      var isLogicalRun := curB == 0;
      if isLogicalRun {
        if brakeMode == Mode1 && prevB > 0 {
          acts := acts + [Press(KeyBrakeN)];
          prevB := 0;
        }
        if curP != prevP {
          if curP == 0 {
            acts := acts + [Press(KeyMasconN)];
          } else {
            var diff := curP - prevP;
            var key := if diff > 0 then KeyMasconUp else KeyMasconDown;
            var taps := RepeatTap(key, Abs(diff), KeyRepeatDelay);
            acts := acts + taps;
          }
          prevP := curP;
        }
      } else if prevP != 0 {
        acts := acts + [Press(KeyMasconN)];
        prevP := 0;
      }
    }

    /** The brake half of `update`, after synchronisation. */
    method UpdateBrake(curB: int, brakeMode: BrakeMode, maxBrake: int) returns (acts: seq<Action>)
      modifies this
      ensures Step(View(), acts) == BrakePhase(old(View()), curB, brakeMode, maxBrake)
    {
      acts := [];
      if brakeMode == Mode2 {
        var targetBrakeS := curB;
        if targetBrakeS != lastAutoS {
          acts := acts + [KeyUp(KeyBrakeUp)];
          if targetBrakeS == 0 {
            acts := acts + [Press(KeyBrakeN)];
          } else if targetBrakeS == 2 {
            acts := acts + [KeyDown(KeyBrakeUp)];
          } else if targetBrakeS == 3 {
            acts := acts + [Press(KeyBrakeEmg)];
          }
          lastAutoS := targetBrakeS;
        }
      } else if curB != prevB {
        if curB == maxBrake + 1 {
          acts := acts + [Press(KeyBrakeEmg)];
        } else if curB == 0 {
          acts := acts + [Press(KeyBrakeN)];
        } else {
          var diff := curB - prevB;
          var key := if diff > 0 then KeyBrakeUp else KeyBrakeDown;
          var taps := RepeatTap(key, Abs(diff), KeyRepeatDelay);
          acts := acts + taps;
        }
        prevB := curB;
      }
    }

    /** The start and select latches, start first. */
    method HandleButtons(rawBtns: Buttons) returns (acts: seq<Action>)
      modifies this
      ensures Step(View(), acts) == ButtonPhase(old(View()), rawBtns)
    {
      acts := [];
      var isSt, isSl := rawBtns[9], rawBtns[10];
      if isSt != pStart {
        acts := acts + (if isSt then [KeyDown(KeyStart)] else [KeyUp(KeyStart)]);
        pStart := isSt;
      }
      if isSl != pSelect {
        acts := acts + (if isSl then [KeyDown(KeySelect)] else [KeyUp(KeySelect)]);
        pSelect := isSl;
      }
    }
  }
}
