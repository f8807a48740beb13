/** The PCSX2 translator: power and brake are one signed axis (power
    positive, brake negative) driven by emulated key presses, with the
    midosuji (mirrored brake keys), AE100 (held cruise key) and 787 (no
    emergency key) variants. Buttons are not handled. */
module Pcsx2 {
  import opened Const
  import opened Keyboard
  import opened Inputs
  import opened Base

  datatype State = State(prevP: int, prevB: int, pStart: bool, pSelect: bool, needsSync: bool, prevAxis: int)

  const Initial: State := State(0, 0, false, false, true, 0)

  /** The release guard after letting go of the held cruise key (0.05 s). */
  const ReleaseGuardWait: nat := 50

  /** Brake clamp: raw 14 is emergency, 0 released, anything else capped (the
      midosuji branch caps the same way). */
  function ClampBrake(rawB: int, maxBrake: int, midosuji: bool): int
  {
    if rawB == 14 then maxBrake + 1
    else if rawB == 0 then 0
    else if midosuji && rawB > maxBrake then maxBrake
    else Min(rawB, maxBrake)
  }

  /** The signed axis: minus the brake value while braking, the power notch otherwise. */
  function AxisOf(curP: int, curB: int, maxBrake: int): int
  {
    if curB == maxBrake + 1 then -curB
    else if curB > 0 then -curB
    else curP
  }

  /** The key that applies the brake one step, mirrored for midosuji. */
  function BrakeIncKey(midosuji: bool): Key
  {
    if midosuji then KeyPcsx2BrakeDec else KeyPcsx2BrakeInc
  }

  /** The key that releases the brake one step, mirrored for midosuji. */
  function BrakeDecKey(midosuji: bool): Key
  {
    if midosuji then KeyPcsx2BrakeInc else KeyPcsx2BrakeDec
  }

  // ---- cruise control (AE100 here, keihan in the RPCS3 translator) ----

  /** Whether the tick engages or keeps cruise: the axis at 5 with the brake
      released. (Neither release pattern can apply then.) */
  predicate CruiseHolds(curAxis: int, curB: int)
  {
    curAxis == 5 && curB == 0
  }

  /** Cruise entry: fill up to notch 4 with emulated presses, then hold the
      power key down. At 5 already, nothing. */
  function CruiseEntry(prevAxis: int): Step<int>
  {
    if prevAxis < 5 then
      Step(5, Repeat(PressEmu(KeyPcsx2PowerInc), 4 - Max(0, prevAxis)) + [KeyDown(KeyPcsx2PowerInc)])
    else Step(prevAxis, [])
  }

  /** The two release patterns run before the ordinary axis logic:
      from power to braking, release the held key (from 5) and go to N;
      from 5 to below 5, release the held key and continue from 4. */
  function CruiseGuard(prevAxis: int, curAxis: int): Step<int>
  {
    if curAxis < 0 && prevAxis > 0 then
      Step(0, (if prevAxis == 5 then [KeyUp(KeyPcsx2PowerInc), Sleep(ReleaseGuardWait)] else []) +
              PressEmu(KeyPcsx2N) + [Sleep(Pcsx2ResetWait)])
    else if prevAxis == 5 && curAxis < 5 then
      Step(4, [KeyUp(KeyPcsx2PowerInc), Sleep(ReleaseGuardWait)])
    else Step(prevAxis, [])
  }

  // ---- ordinary axis logic ----

  /** The keys that move the axis from `prev` to `cur` (when they differ).
      `bInc`/`bDec` are the brake keys of the two-handle layout; `no787`
      enables the emergency key. */
  function AxisKeys(prev: int, cur: int, maxBrake: int, mode: BrakeMode, bInc: Key, bDec: Key, is787: bool): seq<Action>
  {
    if cur == -(maxBrake + 1) && !is787 then PressEmu(KeyPcsx2Emg)
    else if cur == 0 && prev != 0 then PressEmu(KeyPcsx2N) + [Sleep(Pcsx2ResetWait)]
    else if (cur > 0 && prev < 0) || (cur < 0 && prev > 0) then
      PressEmu(KeyPcsx2N) + [Sleep(Pcsx2ResetWait)] +
      Repeat(PressEmu(if cur > 0 then KeyPcsx2PowerInc else if mode == Mode1 then KeyPcsx2PowerDec else bInc), Abs(cur))
    else
      var diff := cur - prev;
      if diff > 0 then Repeat(PressEmu(if cur > 0 || mode == Mode1 then KeyPcsx2PowerInc else bDec), Abs(diff))
      else if diff < 0 then Repeat(PressEmu(if cur > 0 || mode == Mode1 then KeyPcsx2PowerDec else bInc), Abs(diff))
      else []
  }

  function AxisPhase(prevAxis: int, curAxis: int, ctx: Context): Step<int>
  {
    if curAxis != prevAxis then
      Step(curAxis, AxisKeys(prevAxis, curAxis, ctx.maxBrake, ctx.brakeMode,
                             BrakeIncKey(ctx.midosuji), BrakeDecKey(ctx.midosuji), ctx.mode787))
    else Step(prevAxis, [])
  }

  /** The axis part of a tick after synchronisation: cruise handling when
      AE100 is on, then (unless cruise holds) the ordinary axis logic. */
  function AxisTick(prevAxis: int, curAxis: int, curB: int, ctx: Context): Step<int>
  {
    if ctx.ae100 && CruiseHolds(curAxis, curB) then CruiseEntry(prevAxis)
    else
      var g := if ctx.ae100 then CruiseGuard(prevAxis, curAxis) else Step(prevAxis, []);
      var m := AxisPhase(g.next, curAxis, ctx);
      Step(m.next, g.acts + m.acts)
  }

  /** One call of `update`. */
  function Transition(s: State, rawP: int, rawB: int, btns: Buttons, ctx: Context): Step<State>
  {
    var curP := rawP;
    var curB := ClampBrake(rawB, ctx.maxBrake, ctx.midosuji);
    var curAxis := AxisOf(curP, curB, ctx.maxBrake);
    if s.needsSync then
      Step(s.(prevAxis := curAxis, prevP := curP, prevB := curB, needsSync := false), [])
    else
      var a := AxisTick(s.prevAxis, curAxis, curB, ctx);
      Step(s.(prevAxis := a.next), a.acts)
  }

  /** One call of `reset`: the held cruise key is released. */
  function AfterReset(s: State): Step<State>
  {
    Step(s.(prevP := 0, prevB := 0, needsSync := true, prevAxis := 0), [KeyUp(KeyPcsx2PowerInc)])
  }

  // ---- receiver model ----

  /** What the game's single handle does with a key-down: power keys step
      it, N and EMG jump it, and in the two-handle layout the brake keys
      step the negative side. */
  function AxisEffect(maxBrake: int, mode: BrakeMode, bInc: Key, bDec: Key, a: Action): Effect
  {
    if a == KeyDown(KeyPcsx2PowerInc) then Move(1)
    else if a == KeyDown(KeyPcsx2PowerDec) then Move(-1)
    else if a == KeyDown(KeyPcsx2N) then Jump(0)
    else if a == KeyDown(KeyPcsx2Emg) then Jump(-(maxBrake + 1))
    else if mode == Mode2 && a == KeyDown(bInc) then Move(-1)
    else if mode == Mode2 && a == KeyDown(bDec) then Move(1)
    else NoEffect
  }

  /** The receiver as a function of the action, for `Drive`. */
  function AxisReceiver(maxBrake: int, mode: BrakeMode, bInc: Key, bDec: Key): Action -> Effect
  {
    a => AxisEffect(maxBrake, mode, bInc, bDec, a)
  }

  /** The brake keys of either layout are distinct from the power, N and EMG keys. */
  predicate ProperBrakeKeys(bInc: Key, bDec: Key)
  {
    bInc in {KeyPcsx2BrakeInc, KeyPcsx2BrakeDec} && bDec in {KeyPcsx2BrakeInc, KeyPcsx2BrakeDec} && bInc != bDec
  }

  lemma MirroredKeysProper(midosuji: bool)
    ensures ProperBrakeKeys(BrakeIncKey(midosuji), BrakeDecKey(midosuji))
    ensures midosuji ==> BrakeIncKey(midosuji) == KeyPcsx2BrakeDec && BrakeDecKey(midosuji) == KeyPcsx2BrakeInc
    ensures !midosuji ==> BrakeIncKey(midosuji) == KeyPcsx2BrakeInc && BrakeDecKey(midosuji) == KeyPcsx2BrakeDec
  {
  }

  /** `n` emulated presses of a key whose key-down steps the handle by `delta`. */
  lemma EmuCascadeDrives(pos: int, key: Key, n: nat, delta: int, maxBrake: int, mode: BrakeMode, bInc: Key, bDec: Key)
    requires ProperBrakeKeys(bInc, bDec)
    requires AxisEffect(maxBrake, mode, bInc, bDec, KeyDown(key)) == Move(delta)
    ensures Drive(pos, Repeat(PressEmu(key), n), AxisReceiver(maxBrake, mode, bInc, bDec)) == pos + n * delta
  {
    DriveEmuPresses(pos, key, n, delta, AxisReceiver(maxBrake, mode, bInc, bDec));
  }

  /** The N press and its wait take the handle to 0. */
  lemma NeutralDrives(pos: int, maxBrake: int, mode: BrakeMode, bInc: Key, bDec: Key)
    requires ProperBrakeKeys(bInc, bDec)
    ensures Drive(pos, PressEmu(KeyPcsx2N) + [Sleep(Pcsx2ResetWait)], AxisReceiver(maxBrake, mode, bInc, bDec)) == 0
  {
    var e := AxisReceiver(maxBrake, mode, bInc, bDec);
    DrivePressEmu(pos, KeyPcsx2N, e);
    DriveOne(0, Sleep(Pcsx2ResetWait), e);
    DriveAppend(pos, PressEmu(KeyPcsx2N), [Sleep(Pcsx2ResetWait)], e);
  }

  /** Crossing zero: N, its wait, then `|cur|` presses away from 0. */
  lemma CrossingDrives(prev: int, cur: int, key: Key, maxBrake: int, mode: BrakeMode, bInc: Key, bDec: Key)
    requires ProperBrakeKeys(bInc, bDec)
    requires key == (if cur > 0 then KeyPcsx2PowerInc else if mode == Mode1 then KeyPcsx2PowerDec else bInc)
    ensures Drive(prev, PressEmu(KeyPcsx2N) + [Sleep(Pcsx2ResetWait)] + Repeat(PressEmu(key), Abs(cur)), AxisReceiver(maxBrake, mode, bInc, bDec)) == cur
  {
    var e := AxisReceiver(maxBrake, mode, bInc, bDec);
    var n := PressEmu(KeyPcsx2N) + [Sleep(Pcsx2ResetWait)];
    NeutralDrives(prev, maxBrake, mode, bInc, bDec);
    if cur > 0 {
      EmuCascadeDrives(0, key, Abs(cur), 1, maxBrake, mode, bInc, bDec);
    } else {
      EmuCascadeDrives(0, key, Abs(cur), -1, maxBrake, mode, bInc, bDec);
    }
    DriveAppend(prev, n, Repeat(PressEmu(key), Abs(cur)), e);
  }

  /** Staying on one side: `|cur - prev|` presses towards `cur`. */
  lemma SameSideDrives(prev: int, cur: int, key: Key, maxBrake: int, mode: BrakeMode, bInc: Key, bDec: Key)
    requires ProperBrakeKeys(bInc, bDec)
    requires key == (if cur - prev > 0 then (if cur > 0 || mode == Mode1 then KeyPcsx2PowerInc else bDec)
                     else (if cur > 0 || mode == Mode1 then KeyPcsx2PowerDec else bInc))
    requires !((cur > 0 && prev < 0) || (cur < 0 && prev > 0)) && !(cur == 0 && prev != 0)
    ensures Drive(prev, Repeat(PressEmu(key), Abs(cur - prev)), AxisReceiver(maxBrake, mode, bInc, bDec)) == cur
  {
    if cur - prev > 0 {
      EmuCascadeDrives(prev, key, Abs(cur - prev), 1, maxBrake, mode, bInc, bDec);
    } else if cur - prev < 0 {
      EmuCascadeDrives(prev, key, Abs(cur - prev), -1, maxBrake, mode, bInc, bDec);
    }
  }

  /** A game whose handle sits at `prev` ends at `cur` after the axis keys. */
  lemma AxisKeysDrive(prev: int, cur: int, maxBrake: int, mode: BrakeMode, bInc: Key, bDec: Key, is787: bool)
    requires prev != cur && ProperBrakeKeys(bInc, bDec)
    ensures Drive(prev, AxisKeys(prev, cur, maxBrake, mode, bInc, bDec, is787), AxisReceiver(maxBrake, mode, bInc, bDec)) == cur
  {
    var e := AxisReceiver(maxBrake, mode, bInc, bDec);
    var keys := AxisKeys(prev, cur, maxBrake, mode, bInc, bDec, is787);
    if cur == -(maxBrake + 1) && !is787 {
      DrivePressEmu(prev, KeyPcsx2Emg, e);
    } else if cur == 0 && prev != 0 {
      NeutralDrives(prev, maxBrake, mode, bInc, bDec);
    } else if (cur > 0 && prev < 0) || (cur < 0 && prev > 0) {
      var key := if cur > 0 then KeyPcsx2PowerInc else if mode == Mode1 then KeyPcsx2PowerDec else bInc;
      assert keys == PressEmu(KeyPcsx2N) + [Sleep(Pcsx2ResetWait)] + Repeat(PressEmu(key), Abs(cur));
      CrossingDrives(prev, cur, key, maxBrake, mode, bInc, bDec);
    } else {
      var key := if cur - prev > 0 then (if cur > 0 || mode == Mode1 then KeyPcsx2PowerInc else bDec)
                 else (if cur > 0 || mode == Mode1 then KeyPcsx2PowerDec else bInc);
      assert keys == Repeat(PressEmu(key), Abs(cur - prev));
      SameSideDrives(prev, cur, key, maxBrake, mode, bInc, bDec);
    }
  }

  /** With AE100 on, a game at the translator's belief stays in step through
      the release patterns (except when leaving the held cruise key: the
      game is then at 5 while the translator continues from 4) and through
      cruise entry from the power side. */
  lemma AxisTickDrives(prevAxis: int, curAxis: int, curB: int, ctx: Context)
    requires !ctx.ae100 || (prevAxis != 5 && (CruiseHolds(curAxis, curB) ==> prevAxis >= 0))
    ensures var bInc, bDec := BrakeIncKey(ctx.midosuji), BrakeDecKey(ctx.midosuji);
      var a := AxisTick(prevAxis, curAxis, curB, ctx);
      Drive(prevAxis, a.acts, AxisReceiver(ctx.maxBrake, ctx.brakeMode, bInc, bDec)) == a.next
  {
    MirroredKeysProper(ctx.midosuji);
    if ctx.ae100 && CruiseHolds(curAxis, curB) {
      CruiseEntryDrives(prevAxis, ctx.maxBrake, ctx.brakeMode, BrakeIncKey(ctx.midosuji), BrakeDecKey(ctx.midosuji));
    } else {
      GuardedAxisDrives(prevAxis, curAxis, ctx);
    }
  }

  /** Cruise entry from the power side ends at the cruise notch 5. */
  lemma CruiseEntryDrives(prevAxis: int, maxBrake: int, mode: BrakeMode, bInc: Key, bDec: Key)
    requires ProperBrakeKeys(bInc, bDec) && 0 <= prevAxis && prevAxis != 5
    ensures Drive(prevAxis, CruiseEntry(prevAxis).acts, AxisReceiver(maxBrake, mode, bInc, bDec)) == CruiseEntry(prevAxis).next
  {
    var e := AxisReceiver(maxBrake, mode, bInc, bDec);
    if prevAxis < 5 {
      var n := 4 - Max(0, prevAxis);
      EmuCascadeDrives(prevAxis, KeyPcsx2PowerInc, n, 1, maxBrake, mode, bInc, bDec);
      DriveOne(prevAxis + n, KeyDown(KeyPcsx2PowerInc), e);
      DriveAppend(prevAxis, Repeat(PressEmu(KeyPcsx2PowerInc), n), [KeyDown(KeyPcsx2PowerInc)], e);
    }
  }

  /** Outside cruise entry: the optional N of the guard, then the axis keys. */
  lemma GuardedAxisDrives(prevAxis: int, curAxis: int, ctx: Context)
    requires ctx.ae100 ==> prevAxis != 5
    ensures var bInc, bDec := BrakeIncKey(ctx.midosuji), BrakeDecKey(ctx.midosuji);
      var g := if ctx.ae100 then CruiseGuard(prevAxis, curAxis) else Step(prevAxis, []);
      var m := AxisPhase(g.next, curAxis, ctx);
      Drive(prevAxis, g.acts + m.acts, AxisReceiver(ctx.maxBrake, ctx.brakeMode, bInc, bDec)) == m.next
  {
    var bInc, bDec := BrakeIncKey(ctx.midosuji), BrakeDecKey(ctx.midosuji);
    MirroredKeysProper(ctx.midosuji);
    var e := AxisReceiver(ctx.maxBrake, ctx.brakeMode, bInc, bDec);
    var g := if ctx.ae100 then CruiseGuard(prevAxis, curAxis) else Step(prevAxis, []);
    GuardDrives(prevAxis, curAxis, ctx.ae100, ctx.maxBrake, ctx.brakeMode, bInc, bDec);
    var m := AxisPhase(g.next, curAxis, ctx);
    if curAxis != g.next {
      AxisKeysDrive(g.next, curAxis, ctx.maxBrake, ctx.brakeMode, bInc, bDec, ctx.mode787);
    }
    DriveAppend(prevAxis, g.acts, m.acts, e);
  }

  /** The cruise guard's optional N takes the handle to where the guard says. */
  lemma GuardDrives(prevAxis: int, curAxis: int, ae100: bool, maxBrake: int, mode: BrakeMode, bInc: Key, bDec: Key)
    requires ProperBrakeKeys(bInc, bDec) && (ae100 ==> prevAxis != 5)
    ensures var g := if ae100 then CruiseGuard(prevAxis, curAxis) else Step(prevAxis, []);
      Drive(prevAxis, g.acts, AxisReceiver(maxBrake, mode, bInc, bDec)) == g.next
  {
    var g := if ae100 then CruiseGuard(prevAxis, curAxis) else Step(prevAxis, []);
    if ae100 && curAxis < 0 && prevAxis > 0 {
      NeutralDrives(prevAxis, maxBrake, mode, bInc, bDec);
      assert g.acts == PressEmu(KeyPcsx2N) + [Sleep(Pcsx2ResetWait)];
    } else {
      assert g == Step(prevAxis, []);
    }
  }

  /** A game whose handle started where the translator believed it was ends
      every tick where the translator now believes it is, in both layouts
      and with mirrored keys; with AE100 on, outside the cruise exit and the
      climb from braking into cruise. */
  lemma AxisTracksGame(s: State, rawP: int, rawB: int, btns: Buttons, ctx: Context)
    requires !s.needsSync
    requires var curB := ClampBrake(rawB, ctx.maxBrake, ctx.midosuji);
      !ctx.ae100 || (s.prevAxis != 5 && (CruiseHolds(AxisOf(rawP, curB, ctx.maxBrake), curB) ==> s.prevAxis >= 0))
    ensures var t := Transition(s, rawP, rawB, btns, ctx);
      Drive(s.prevAxis, t.acts, AxisReceiver(ctx.maxBrake, ctx.brakeMode, BrakeIncKey(ctx.midosuji), BrakeDecKey(ctx.midosuji))) == t.next.prevAxis
  {
    var curB := ClampBrake(rawB, ctx.maxBrake, ctx.midosuji);
    AxisTickDrives(s.prevAxis, AxisOf(rawP, curB, ctx.maxBrake), curB, ctx);
  }

  // ---- held keys ----

  /** The ordinary axis logic only taps keys: it leaves nothing held that
      was not held before. */
  lemma AxisKeysHoldNothing(held: set<Key>, prev: int, cur: int, maxBrake: int, mode: BrakeMode, bInc: Key, bDec: Key, is787: bool)
    ensures Held(held, AxisKeys(prev, cur, maxBrake, mode, bInc, bDec, is787)) <= held
  {
    var n := PressEmu(KeyPcsx2N) + [Sleep(Pcsx2ResetWait)];
    HeldPressEmu(held, KeyPcsx2N);
    HeldSleep(held - {KeyPcsx2N}, Pcsx2ResetWait);
    HeldAppend(held, PressEmu(KeyPcsx2N), [Sleep(Pcsx2ResetWait)]);
    assert Held(held, n) <= held;
    if cur == -(maxBrake + 1) && !is787 {
      HeldPressEmu(held, KeyPcsx2Emg);
    } else if cur == 0 && prev != 0 {
    } else if (cur > 0 && prev < 0) || (cur < 0 && prev > 0) {
      var key := if cur > 0 then KeyPcsx2PowerInc else if mode == Mode1 then KeyPcsx2PowerDec else bInc;
      HeldPressEmuCascade(Held(held, n), key, Abs(cur));
      HeldAppend(held, n, Repeat(PressEmu(key), Abs(cur)));
    } else {
      var diff := cur - prev;
      if diff > 0 {
        HeldPressEmuCascade(held, if cur > 0 || mode == Mode1 then KeyPcsx2PowerInc else bDec, Abs(diff));
      } else if diff < 0 {
        HeldPressEmuCascade(held, if cur > 0 || mode == Mode1 then KeyPcsx2PowerDec else bInc, Abs(diff));
      }
    }
  }

  /** Cruise entry emits `4 - max(0, prev)` emulated presses and then a held
      power key with no release; the axis is then believed at 5. */
  lemma CruiseEntryHoldsPowerKey(held: set<Key>, s: State, rawB: int, btns: Buttons, ctx: Context)
    requires !s.needsSync && ctx.ae100 && ctx.maxBrake >= 0 && s.prevAxis < 5
    requires ClampBrake(rawB, ctx.maxBrake, ctx.midosuji) == 0
    ensures var t := Transition(s, 5, rawB, btns, ctx);
      t.acts == Repeat(PressEmu(KeyPcsx2PowerInc), 4 - Max(0, s.prevAxis)) + [KeyDown(KeyPcsx2PowerInc)] &&
      t.next.prevAxis == 5 && KeyPcsx2PowerInc in Held(held, t.acts)
  {
    var t := Transition(s, 5, rawB, btns, ctx);
    var c := Repeat(PressEmu(KeyPcsx2PowerInc), 4 - Max(0, s.prevAxis));
    HeldAppend(held, c, [KeyDown(KeyPcsx2PowerInc)]);
    assert [KeyDown(KeyPcsx2PowerInc)][1..] == [];
  }

  /** While cruise holds, further ticks at 5 emit nothing. */
  lemma CruiseRepeatIsSilent(s: State, rawB: int, btns: Buttons, ctx: Context)
    requires !s.needsSync && ctx.ae100 && ctx.maxBrake >= 0 && s.prevAxis == 5
    requires ClampBrake(rawB, ctx.maxBrake, ctx.midosuji) == 0
    ensures Transition(s, 5, rawB, btns, ctx) == Step(s, [])
  {
  }

  /** Climbing from braking straight into cruise sends four presses and the
      held key but no N press, so a game that followed the brake side ends
      short of 5. */
  lemma CruiseClimbFromBrakingSkipsNeutral(s: State, rawB: int, btns: Buttons, ctx: Context)
    requires !s.needsSync && ctx.ae100 && ctx.maxBrake >= 0 && s.prevAxis < 0
    requires ClampBrake(rawB, ctx.maxBrake, ctx.midosuji) == 0
    ensures var t := Transition(s, 5, rawB, btns, ctx);
      t.acts == Repeat(PressEmu(KeyPcsx2PowerInc), 4) + [KeyDown(KeyPcsx2PowerInc)] &&
      KeyDown(KeyPcsx2N) !in t.acts &&
      Drive(s.prevAxis, t.acts, AxisReceiver(ctx.maxBrake, ctx.brakeMode, BrakeIncKey(ctx.midosuji), BrakeDecKey(ctx.midosuji))) == s.prevAxis + 5
  {
    var t := Transition(s, 5, rawB, btns, ctx);
    var e := AxisReceiver(ctx.maxBrake, ctx.brakeMode, BrakeIncKey(ctx.midosuji), BrakeDecKey(ctx.midosuji));
    MirroredKeysProper(ctx.midosuji);
    PressEmuCascadeMembers(KeyPcsx2PowerInc, 4);
    EmuCascadeDrives(s.prevAxis, KeyPcsx2PowerInc, 4, 1, ctx.maxBrake, ctx.brakeMode, BrakeIncKey(ctx.midosuji), BrakeDecKey(ctx.midosuji));
    DriveOne(s.prevAxis + 4, KeyDown(KeyPcsx2PowerInc), e);
    DriveAppend(s.prevAxis, Repeat(PressEmu(KeyPcsx2PowerInc), 4), [KeyDown(KeyPcsx2PowerInc)], e);
  }

  /** Leaving cruise first releases the held key and waits the guard; to a
      brake position the N press follows, to 0..4 the ordinary logic
      continues from 4; either way the power key ends released. */
  lemma CruiseExitReleasesPowerKey(held: set<Key>, s: State, rawP: int, rawB: int, btns: Buttons, ctx: Context)
    requires !s.needsSync && ctx.ae100 && s.prevAxis == 5
    requires var curB := ClampBrake(rawB, ctx.maxBrake, ctx.midosuji); AxisOf(rawP, curB, ctx.maxBrake) < 5
    ensures var t := Transition(s, rawP, rawB, btns, ctx);
      var curAxis := AxisOf(rawP, ClampBrake(rawB, ctx.maxBrake, ctx.midosuji), ctx.maxBrake);
      var keys := AxisKeys(if curAxis < 0 then 0 else 4, curAxis, ctx.maxBrake, ctx.brakeMode,
                           BrakeIncKey(ctx.midosuji), BrakeDecKey(ctx.midosuji), ctx.mode787);
      (curAxis < 0 ==> t.acts == [KeyUp(KeyPcsx2PowerInc), Sleep(ReleaseGuardWait)] + PressEmu(KeyPcsx2N) + [Sleep(Pcsx2ResetWait)] + keys) &&
      (0 <= curAxis < 4 ==> t.acts == [KeyUp(KeyPcsx2PowerInc), Sleep(ReleaseGuardWait)] + keys) &&
      (curAxis == 4 ==> t.acts == [KeyUp(KeyPcsx2PowerInc), Sleep(ReleaseGuardWait)]) &&
      t.next.prevAxis == curAxis &&
      KeyPcsx2PowerInc !in Held(held, t.acts)
  {
    var curB := ClampBrake(rawB, ctx.maxBrake, ctx.midosuji);
    var curAxis := AxisOf(rawP, curB, ctx.maxBrake);
    var t := Transition(s, rawP, rawB, btns, ctx);
    var g := CruiseGuard(5, curAxis);
    var m := AxisPhase(g.next, curAxis, ctx);
    assert t.acts == g.acts + m.acts;
    var rel := [KeyUp(KeyPcsx2PowerInc), Sleep(ReleaseGuardWait)];
    var h1 := Held(held, rel);
    assert rel[1..] == [Sleep(ReleaseGuardWait)];
    HeldSleep(held - {KeyPcsx2PowerInc}, ReleaseGuardWait);
    assert h1 == Held(held - {KeyPcsx2PowerInc}, rel[1..]);
    var h2 := Held(held, g.acts);
    if curAxis < 0 {
      var n := PressEmu(KeyPcsx2N) + [Sleep(Pcsx2ResetWait)];
      assert g.acts == rel + n;
      HeldPressEmu(h1, KeyPcsx2N);
      HeldSleep(h1 - {KeyPcsx2N}, Pcsx2ResetWait);
      HeldAppend(h1, PressEmu(KeyPcsx2N), [Sleep(Pcsx2ResetWait)]);
      HeldAppend(held, rel, n);
    }
    assert KeyPcsx2PowerInc !in h2;
    if curAxis != g.next {
      AxisKeysHoldNothing(h2, g.next, curAxis, ctx.maxBrake, ctx.brakeMode, BrakeIncKey(ctx.midosuji), BrakeDecKey(ctx.midosuji), ctx.mode787);
    }
    HeldAppend(held, g.acts, m.acts);
  }

  // ---- the ordinary rules, one tick at a time ----

  /** Outside cruise handling: returning to 0 is one emulated N press and the reset wait. */
  lemma ReturnToNeutral(s: State, rawB: int, btns: Buttons, ctx: Context)
    requires !s.needsSync && !ctx.ae100 && ctx.maxBrake >= 0 && s.prevAxis != 0
    requires ClampBrake(rawB, ctx.maxBrake, ctx.midosuji) == 0
    ensures var t := Transition(s, 0, rawB, btns, ctx);
      t.acts == PressEmu(KeyPcsx2N) + [Sleep(Pcsx2ResetWait)] && t.next.prevAxis == 0
  {
    var t := Transition(s, 0, rawB, btns, ctx);
    assert t.acts == [] + (PressEmu(KeyPcsx2N) + [Sleep(Pcsx2ResetWait)]);
  }

  /** Outside cruise handling: reaching `-(maxBrake + 1)` is one emulated
      emergency press whatever the previous position, unless the 787
      variant is on, in which case it is cascaded like any brake notch. */
  lemma EmergencyPress(s: State, rawP: int, btns: Buttons, ctx: Context)
    requires !s.needsSync && !ctx.ae100 && ctx.maxBrake >= 0 && s.prevAxis != -(ctx.maxBrake + 1)
    ensures var t := Transition(s, rawP, 14, btns, ctx);
      t.next.prevAxis == -(ctx.maxBrake + 1) &&
      (!ctx.mode787 ==> t.acts == PressEmu(KeyPcsx2Emg)) &&
      (ctx.mode787 ==> KeyDown(KeyPcsx2Emg) !in t.acts)
  {
    var t := Transition(s, rawP, 14, btns, ctx);
    var cur := -(ctx.maxBrake + 1);
    assert t.acts == [] + AxisKeys(s.prevAxis, cur, ctx.maxBrake, ctx.brakeMode, BrakeIncKey(ctx.midosuji), BrakeDecKey(ctx.midosuji), ctx.mode787);
    if ctx.mode787 {
      var key := if ctx.brakeMode == Mode1 then KeyPcsx2PowerDec else BrakeIncKey(ctx.midosuji);
      PressEmuCascadeMembers(key, Abs(cur));
      PressEmuCascadeMembers(key, Abs(cur - s.prevAxis));
      PressEmuCascadeMembers(if ctx.brakeMode == Mode1 then KeyPcsx2PowerInc else BrakeDecKey(ctx.midosuji), Abs(cur - s.prevAxis));
      var n := PressEmu(KeyPcsx2N) + [Sleep(Pcsx2ResetWait)];
      assert KeyDown(KeyPcsx2Emg) !in n;
    }
  }

  /** The 787 variant from N: the emergency axis is `maxBrake + 1` brake-key presses. */
  lemma Mode787EmergencyCascades(s: State, rawP: int, btns: Buttons, ctx: Context)
    requires !s.needsSync && !ctx.ae100 && ctx.mode787 && ctx.brakeMode == Mode2 && ctx.maxBrake >= 0
    requires s.prevAxis == 0
    ensures var t := Transition(s, rawP, 14, btns, ctx);
      t.acts == Repeat(PressEmu(BrakeIncKey(ctx.midosuji)), ctx.maxBrake + 1) && t.next.prevAxis == -(ctx.maxBrake + 1)
  {
    var t := Transition(s, rawP, 14, btns, ctx);
    assert t.acts == [] + Repeat(PressEmu(BrakeIncKey(ctx.midosuji)), Abs(-(ctx.maxBrake + 1) - 0));
  }

  /** Outside cruise handling, crossing between power and brake is N, the
      reset wait, then one emulated press per notch of the new position:
      the power-up key going positive; going negative, the power-down key
      in the one-handle layout or the (possibly mirrored) brake key. */
  lemma CrossingZero(s: State, rawP: int, rawB: int, btns: Buttons, ctx: Context)
    requires !s.needsSync && !ctx.ae100
    requires var cur := AxisOf(rawP, ClampBrake(rawB, ctx.maxBrake, ctx.midosuji), ctx.maxBrake);
      ((cur > 0 && s.prevAxis < 0) || (cur < 0 && s.prevAxis > 0)) && (cur == -(ctx.maxBrake + 1) ==> ctx.mode787)
    ensures var t := Transition(s, rawP, rawB, btns, ctx);
      var cur := AxisOf(rawP, ClampBrake(rawB, ctx.maxBrake, ctx.midosuji), ctx.maxBrake);
      var key := if cur > 0 then KeyPcsx2PowerInc else if ctx.brakeMode == Mode1 then KeyPcsx2PowerDec else BrakeIncKey(ctx.midosuji);
      t.acts == PressEmu(KeyPcsx2N) + [Sleep(Pcsx2ResetWait)] + Repeat(PressEmu(key), Abs(cur)) &&
      t.next.prevAxis == cur
  {
    var t := Transition(s, rawP, rawB, btns, ctx);
    var cur := AxisOf(rawP, ClampBrake(rawB, ctx.maxBrake, ctx.midosuji), ctx.maxBrake);
    assert t.acts == [] + AxisKeys(s.prevAxis, cur, ctx.maxBrake, ctx.brakeMode, BrakeIncKey(ctx.midosuji), BrakeDecKey(ctx.midosuji), ctx.mode787);
  }

  /** Outside cruise handling, motion within one side (from N included) is
      one emulated press per notch of difference, in the direction of the motion. */
  lemma SameSideMotion(s: State, rawP: int, rawB: int, btns: Buttons, ctx: Context)
    requires !s.needsSync && !ctx.ae100
    requires var cur := AxisOf(rawP, ClampBrake(rawB, ctx.maxBrake, ctx.midosuji), ctx.maxBrake);
      cur != s.prevAxis && cur != 0 && !(cur > 0 && s.prevAxis < 0) && !(cur < 0 && s.prevAxis > 0) &&
      (cur == -(ctx.maxBrake + 1) ==> ctx.mode787)
    ensures var t := Transition(s, rawP, rawB, btns, ctx);
      var cur := AxisOf(rawP, ClampBrake(rawB, ctx.maxBrake, ctx.midosuji), ctx.maxBrake);
      var up := if cur > 0 || ctx.brakeMode == Mode1 then KeyPcsx2PowerInc else BrakeDecKey(ctx.midosuji);
      var down := if cur > 0 || ctx.brakeMode == Mode1 then KeyPcsx2PowerDec else BrakeIncKey(ctx.midosuji);
      (cur > s.prevAxis ==> t.acts == Repeat(PressEmu(up), cur - s.prevAxis)) &&
      (cur < s.prevAxis ==> t.acts == Repeat(PressEmu(down), s.prevAxis - cur)) &&
      t.next.prevAxis == cur
  {
    var t := Transition(s, rawP, rawB, btns, ctx);
    var cur := AxisOf(rawP, ClampBrake(rawB, ctx.maxBrake, ctx.midosuji), ctx.maxBrake);
    assert t.acts == [] + AxisKeys(s.prevAxis, cur, ctx.maxBrake, ctx.brakeMode, BrakeIncKey(ctx.midosuji), BrakeDecKey(ctx.midosuji), ctx.mode787);
  }

  // ---- which keys a tick touches ----

  /** An action of the axis logic: a sleep, or a key-down/up of an axis key. */
  predicate AxisKeyAction(a: Action, bInc: Key, bDec: Key)
  {
    a.Sleep? ||
    ((a.KeyDown? || a.KeyUp?) &&
     (a.key == KeyPcsx2PowerInc || a.key == KeyPcsx2PowerDec || a.key == KeyPcsx2N ||
      a.key == KeyPcsx2Emg || a.key == bInc || a.key == bDec))
  }

  /** The axis keys are all axis actions, and with the 787 variant (and brake
      keys other than the emergency key) the emergency key is never pressed. */
  lemma AxisKeysMembers(prev: int, cur: int, maxBrake: int, mode: BrakeMode, bInc: Key, bDec: Key, is787: bool)
    ensures forall a :: a in AxisKeys(prev, cur, maxBrake, mode, bInc, bDec, is787) ==>
      AxisKeyAction(a, bInc, bDec) && (is787 && bInc != KeyPcsx2Emg && bDec != KeyPcsx2Emg ==> a != KeyDown(KeyPcsx2Emg))
  {
    var keys := AxisKeys(prev, cur, maxBrake, mode, bInc, bDec, is787);
    if cur == -(maxBrake + 1) && !is787 {
      // one emulated press of EMG
    } else if cur == 0 && prev != 0 {
      // one emulated press of N and its wait
    } else if (cur > 0 && prev < 0) || (cur < 0 && prev > 0) {
      var key := if cur > 0 then KeyPcsx2PowerInc else if mode == Mode1 then KeyPcsx2PowerDec else bInc;
      var n := PressEmu(KeyPcsx2N) + [Sleep(Pcsx2ResetWait)];
      assert keys == n + Repeat(PressEmu(key), Abs(cur));
      PressEmuCascadeMembers(key, Abs(cur));
      assert forall a :: a in keys ==> a in n || a in Repeat(PressEmu(key), Abs(cur));
    } else {
      var key := if cur - prev > 0 then (if cur > 0 || mode == Mode1 then KeyPcsx2PowerInc else bDec)
                 else (if cur > 0 || mode == Mode1 then KeyPcsx2PowerDec else bInc);
      assert keys == (if cur == prev then [] else Repeat(PressEmu(key), Abs(cur - prev)));
      PressEmuCascadeMembers(key, Abs(cur - prev));
    }
  }

  /** Every action of a tick's axis part is an axis action; with the 787
      variant the emergency key is never pressed. */
  lemma AxisTickMembers(prevAxis: int, curAxis: int, curB: int, ctx: Context)
    ensures var bInc, bDec := BrakeIncKey(ctx.midosuji), BrakeDecKey(ctx.midosuji);
      forall a :: a in AxisTick(prevAxis, curAxis, curB, ctx).acts ==>
        AxisKeyAction(a, bInc, bDec) && (ctx.mode787 ==> a != KeyDown(KeyPcsx2Emg))
  {
    var bInc, bDec := BrakeIncKey(ctx.midosuji), BrakeDecKey(ctx.midosuji);
    MirroredKeysProper(ctx.midosuji);
    if ctx.ae100 && CruiseHolds(curAxis, curB) {
      if prevAxis < 5 {
        PressEmuCascadeMembers(KeyPcsx2PowerInc, 4 - Max(0, prevAxis));
      }
    } else {
      var g := if ctx.ae100 then CruiseGuard(prevAxis, curAxis) else Step(prevAxis, []);
      AxisKeysMembers(g.next, curAxis, ctx.maxBrake, ctx.brakeMode, bInc, bDec, ctx.mode787);
    }
  }

  // ---- clamp, sync, reset, buttons, idempotence ----

  /** The midosuji branch of the clamp agrees with the ordinary clamp, which
      is the electric clamp shared with JRETS and BVE. */
  lemma ClampBrakeIsElectricClamp(rawB: int, maxBrake: int, midosuji: bool)
    ensures ClampBrake(rawB, maxBrake, midosuji) == ClampBrake(rawB, maxBrake, false)
    ensures ClampBrake(rawB, maxBrake, midosuji) == ClampElectric(rawB, maxBrake)
  {
  }

  /** The axis is minus the brake value while braking and the power notch otherwise. */
  lemma AxisSign(curP: int, curB: int, maxBrake: int)
    requires maxBrake >= 0
    ensures curB > 0 ==> AxisOf(curP, curB, maxBrake) == -curB
    ensures curB <= 0 ==> AxisOf(curP, curB, maxBrake) == curP
  {
  }

  /** The first tick after construction or `reset` adopts the axis and emits nothing. */
  lemma FirstTickAdoptsAxis(s: State, rawP: int, rawB: int, btns: Buttons, ctx: Context)
    requires s.needsSync
    ensures var t := Transition(s, rawP, rawB, btns, ctx);
      var curB := ClampBrake(rawB, ctx.maxBrake, ctx.midosuji);
      t.acts == [] && !t.next.needsSync &&
      t.next.prevAxis == AxisOf(rawP, curB, ctx.maxBrake) && t.next.prevP == rawP && t.next.prevB == curB
  {
  }

  /** `reset` releases the cruise key and makes the next tick silent. */
  lemma ResetReleasesCruiseKey(held: set<Key>, s: State, rawP: int, rawB: int, btns: Buttons, ctx: Context)
    ensures var r := AfterReset(s);
      KeyPcsx2PowerInc !in Held(held, r.acts) && r.next.prevAxis == 0 &&
      Transition(r.next, rawP, rawB, btns, ctx).acts == []
  {
    var r := AfterReset(s);
    assert Held(held, r.acts) == Held(held - {KeyPcsx2PowerInc}, []);
  }

  /** The buttons have no influence on the translator. */
  lemma IgnoresButtons(s: State, rawP: int, rawB: int, btns1: Buttons, btns2: Buttons, ctx: Context)
    ensures Transition(s, rawP, rawB, btns1, ctx) == Transition(s, rawP, rawB, btns2, ctx)
    ensures Transition(s, rawP, rawB, btns1, ctx).next.pStart == s.pStart
    ensures Transition(s, rawP, rawB, btns1, ctx).next.pSelect == s.pSelect
  {
  }

  /** Repeating the axis part of a tick with the same axis emits nothing. */
  lemma AxisTickIsIdempotent(prevAxis: int, curAxis: int, curB: int, ctx: Context)
    ensures var a := AxisTick(prevAxis, curAxis, curB, ctx);
      AxisTick(a.next, curAxis, curB, ctx) == Step(a.next, [])
  {
    var a := AxisTick(prevAxis, curAxis, curB, ctx);
    if ctx.ae100 && CruiseHolds(curAxis, curB) {
      assert a.next == 5 || a.next == prevAxis;
    } else {
      assert a.next == curAxis;
    }
  }

  /** A second tick with the same reading emits nothing and changes nothing. */
  lemma TickIsIdempotent(s: State, rawP: int, rawB: int, btns: Buttons, ctx: Context)
    requires !s.needsSync
    ensures var t := Transition(s, rawP, rawB, btns, ctx);
      Transition(t.next, rawP, rawB, btns, ctx) == Step(t.next, [])
  {
    var curB := ClampBrake(rawB, ctx.maxBrake, ctx.midosuji);
    AxisTickIsIdempotent(s.prevAxis, AxisOf(rawP, curB, ctx.maxBrake), curB, ctx);
  }

  class Pcsx2Logic {
    var prevP: int
    var prevB: int
    var pStart: bool
    var pSelect: bool
    var needsSync: bool
    var prevAxis: int

    function View(): State
      reads this
    {
      State(prevP, prevB, pStart, pSelect, needsSync, prevAxis)
    }

    constructor ()
      ensures View() == Initial
    {
      prevP, prevB := 0, 0;
      pStart, pSelect := false, false;
      needsSync := true;
      prevAxis := 0;
    }

    method Reset() returns (acts: seq<Action>)
      modifies this
      ensures Step(View(), acts) == AfterReset(old(View()))
    {
      prevP, prevB := 0, 0;
      needsSync := true;
      prevAxis := 0;
      acts := [KeyUp(KeyPcsx2PowerInc)];
    }

    method Update(rawP: int, rawB: int, rawBtns: Buttons, context: Context) returns (acts: seq<Action>)
      modifies this
      ensures Step(View(), acts) == Transition(old(View()), rawP, rawB, rawBtns, context)
    {
      var isMidosuji := context.midosuji;
      var maxBrake := context.maxBrake;

      var curP := rawP;
      var curB := 0;
      if rawB == 14 {
        curB := maxBrake + 1;
      } else if rawB == 0 {
        curB := 0;
      } else {
        if isMidosuji && rawB > maxBrake {
          curB := maxBrake;
        } else {
          curB := Min(rawB, maxBrake);
        }
      }
      assert curB == ClampBrake(rawB, maxBrake, isMidosuji);

      var curAxis := 0;
      if curB == maxBrake + 1 {
        curAxis := -curB;
      } else if curB > 0 {
        curAxis := -curB;
      } else {
        curAxis := curP;
      }
      assert curAxis == AxisOf(curP, curB, maxBrake);

      if needsSync {
        prevAxis := curAxis;
        prevP := curP;
        prevB := curB;
        needsSync := false;
        return [];
      }

      ghost var s0 := View();
      acts := UpdateTick(curAxis, curB, context);
      assert Transition(s0, rawP, rawB, rawBtns, context) == Step(View(), acts);
    }

    /** The part of `update` after the first synchronisation. */
    method UpdateTick(curAxis: int, curB: int, context: Context) returns (acts: seq<Action>)
      modifies this
      ensures var tick := AxisTick(old(prevAxis), curAxis, curB, context);
        View() == old(View()).(prevAxis := tick.next) && acts == tick.acts
    {
      var isMidosuji := context.midosuji;
      var bInc := if isMidosuji then KeyPcsx2BrakeDec else KeyPcsx2BrakeInc;
      var bDec := if isMidosuji then KeyPcsx2BrakeInc else KeyPcsx2BrakeDec;
      assert bInc == BrakeIncKey(isMidosuji) && bDec == BrakeDecKey(isMidosuji);
      ghost var s0 := View();
      ghost var tick := AxisTick(s0.prevAxis, curAxis, curB, context);

      acts := [];
      if context.ae100 {
        var holds: bool;
        acts, holds := UpdateCruise(curAxis, curB);
        if holds {
          return;
        }
      }
      ghost var g := Step(prevAxis, acts);
      assert g == (if context.ae100 then CruiseGuard(s0.prevAxis, curAxis) else Step(s0.prevAxis, []));

      var axisActs := UpdateAxis(curAxis, context.maxBrake, context.brakeMode, bInc, bDec, context.mode787);
      assert Step(prevAxis, axisActs) == AxisPhase(g.next, curAxis, context);
      acts := acts + axisActs;
    }

    /** The three AE100 patterns; `holds` is pattern C, after which the tick ends. */
    method UpdateCruise(curAxis: int, curB: int) returns (acts: seq<Action>, holds: bool)
      modifies this
      ensures holds == CruiseHolds(curAxis, curB)
      ensures holds ==> Step(prevAxis, acts) == CruiseEntry(old(prevAxis))
      ensures !holds ==> Step(prevAxis, acts) == CruiseGuard(old(prevAxis), curAxis)
      ensures prevP == old(prevP) && prevB == old(prevB) && pStart == old(pStart) && pSelect == old(pSelect)
      ensures needsSync == old(needsSync)
    {
      acts := [];
      holds := false;
      if curAxis < 0 && prevAxis > 0 {
        if prevAxis == 5 {
          acts := acts + [KeyUp(KeyPcsx2PowerInc), Sleep(ReleaseGuardWait)];
        }
        acts := acts + PressEmu(KeyPcsx2N) + [Sleep(Pcsx2ResetWait)];
        prevAxis := 0;
      } else if prevAxis == 5 && curAxis < 5 {
        acts := acts + [KeyUp(KeyPcsx2PowerInc), Sleep(ReleaseGuardWait)];
        prevAxis := 4;
      } else if curAxis == 5 && curB == 0 {
        if prevAxis < 5 {
          var diff := 4 - Max(0, prevAxis);
          if diff > 0 {
            var presses := RepeatPressEmu(KeyPcsx2PowerInc, diff);
            acts := acts + presses;
          }
          acts := acts + [KeyDown(KeyPcsx2PowerInc)];
          prevAxis := 5;
        }
        holds := true;
      }
    }

    /** The ordinary axis logic. */
    method UpdateAxis(curAxis: int, maxBrake: int, brakeMode: BrakeMode, bInc: Key, bDec: Key, is787: bool) returns (acts: seq<Action>)
      modifies this
      ensures prevAxis == curAxis
      ensures acts == (if curAxis != old(prevAxis) then AxisKeys(old(prevAxis), curAxis, maxBrake, brakeMode, bInc, bDec, is787) else [])
      ensures prevP == old(prevP) && prevB == old(prevB) && pStart == old(pStart) && pSelect == old(pSelect)
      ensures needsSync == old(needsSync)
    {
      acts := [];
      if curAxis != prevAxis {
        if curAxis == -(maxBrake + 1) && !is787 {
          acts := PressEmu(KeyPcsx2Emg);
        } else if curAxis == 0 && prevAxis != 0 {
          acts := PressEmu(KeyPcsx2N) + [Sleep(Pcsx2ResetWait)];
        } else if (curAxis > 0 && prevAxis < 0) || (curAxis < 0 && prevAxis > 0) {
          acts := PressEmu(KeyPcsx2N) + [Sleep(Pcsx2ResetWait)];
          var steps := Abs(curAxis);
          var presses: seq<Action>;
          if curAxis > 0 {
            presses := RepeatPressEmu(KeyPcsx2PowerInc, steps);
          } else if brakeMode == Mode1 {
            presses := RepeatPressEmu(KeyPcsx2PowerDec, steps);
          } else {
            presses := RepeatPressEmu(bInc, steps);
          }
          acts := acts + presses;
        } else {
          var diff := curAxis - prevAxis;
          if diff > 0 {
            var key := if curAxis > 0 || brakeMode == Mode1 then KeyPcsx2PowerInc else bDec;
            acts := RepeatPressEmu(key, Abs(diff));
          } else if diff < 0 {
            var key := if curAxis > 0 || brakeMode == Mode1 then KeyPcsx2PowerDec else bInc;
            acts := RepeatPressEmu(key, Abs(diff));
          }
        }
        prevAxis := curAxis;
      }
    }
  }
}
