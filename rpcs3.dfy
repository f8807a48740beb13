/** The RPCS3 translator: the PCSX2 axis logic with the keihan variant (a
    held cruise key, like AE100), its own brake clamp (raw 9 is emergency),
    no emergency key, unmirrored brake keys, and the two horn buttons. */
module Rpcs3 {
  import opened Const
  import opened Keyboard
  import opened Inputs
  import opened Base
  import Pcsx2

  datatype State = State(prevP: int, prevB: int, pStart: bool, pSelect: bool, needsSync: bool, prevAxis: int)

  const Initial: State := State(0, 0, false, false, true, 0)

  /** The second horn key the keihan variant latches together with HORN1. */
  const KeyKeihanHorn: Key := "e"

  /** Brake clamp: raw 9 is emergency, 0 released, anything else capped. */
  function ClampBrake(rawB: int, maxBrake: int): int
  {
    if rawB == 9 then maxBrake + 1
    else if rawB == 0 then 0
    else Min(rawB, maxBrake)
  }

  /** The context under which the PCSX2 axis logic is RPCS3's: the keihan
      variant in the place of AE100, the unmirrored brake keys, and the
      emergency rule switched off as in the 787 variant. */
  function AxisContext(ctx: Context): Context
  {
    ctx.(ae100 := ctx.keihan, midosuji := false, mode787 := true)
  }

  /** `_handle_buttons`: SELECT latches HORN1 (and the keihan horn with the
      keihan variant), then START latches HORN2. */
  function ButtonPhase(s: State, btns: Buttons, keihan: bool): Step<State>
  {
    Step(s.(pSelect := btns[10], pStart := btns[9]),
         LatchEdge(s.pSelect, btns[10], KeyPcsx2Horn1) +
         (if keihan then LatchEdge(s.pSelect, btns[10], KeyKeihanHorn) else []) +
         LatchEdge(s.pStart, btns[9], KeyPcsx2Horn2))
  }

  /** One call of `update`: after synchronisation the buttons are handled on
      every path, the held-cruise one included. */
  function Transition(s: State, rawP: int, rawB: int, btns: Buttons, ctx: Context): Step<State>
  {
    var curP := rawP;
    var curB := ClampBrake(rawB, ctx.maxBrake);
    var curAxis := Pcsx2.AxisOf(curP, curB, ctx.maxBrake);
    if s.needsSync then
      Step(s.(prevAxis := curAxis, prevP := curP, prevB := curB, needsSync := false), [])
    else
      var a := Pcsx2.AxisTick(s.prevAxis, curAxis, curB, AxisContext(ctx));
      var k := ButtonPhase(s.(prevAxis := a.next), btns, ctx.keihan);
      Step(k.next, a.acts + k.acts)
  }

  /** One call of `reset`: the held cruise key is released. */
  function AfterReset(s: State): Step<State>
  {
    Step(s.(prevP := 0, prevB := 0, needsSync := true, prevAxis := 0), [KeyUp(KeyPcsx2PowerInc)])
  }

  /** The game's handle as the unmirrored PCSX2 receiver sees it. */
  function Receiver(ctx: Context): Action -> Effect
  {
    Pcsx2.AxisReceiver(ctx.maxBrake, ctx.brakeMode, KeyPcsx2BrakeInc, KeyPcsx2BrakeDec)
  }

  /** An action of the button phase: a key-down or key-up of a horn key. */
  predicate HornAction(a: Action)
  {
    (a.KeyDown? || a.KeyUp?) && (a.key == KeyPcsx2Horn1 || a.key == KeyKeihanHorn || a.key == KeyPcsx2Horn2)
  }

  lemma ButtonPhaseMembers(s: State, btns: Buttons, keihan: bool)
    ensures forall a :: a in ButtonPhase(s, btns, keihan).acts ==> HornAction(a)
  {
  }

  /** Horn actions and axis actions are told apart by their keys. */
  lemma HornsAreNotAxisKeys(a: Action, ctx: Context)
    ensures HornAction(a) ==> Pcsx2.AxisEffect(ctx.maxBrake, ctx.brakeMode, KeyPcsx2BrakeInc, KeyPcsx2BrakeDec, a) == NoEffect
    ensures HornAction(a) ==> a != KeyDown(KeyPcsx2Emg)
    ensures Pcsx2.AxisKeyAction(a, KeyPcsx2BrakeInc, KeyPcsx2BrakeDec) ==>
      !Touches(a, KeyPcsx2Horn1) && !Touches(a, KeyKeihanHorn) && !Touches(a, KeyPcsx2Horn2)
  {
  }

  // ---- properties ----

  /** Raw 9 is the emergency code here, where the other targets use 14;
      raw 14 is capped at `maxBrake` like a service notch. Otherwise the
      clamp is the electric clamp. */
  lemma ClampBrakeRule(rawB: int, maxBrake: int)
    requires maxBrake >= 0
    ensures ClampBrake(rawB, maxBrake) == maxBrake + 1 <==> rawB == 9
    ensures ClampBrake(14, maxBrake) == Min(14, maxBrake) <= maxBrake
    ensures rawB != 9 && rawB != 14 ==> ClampBrake(rawB, maxBrake) == ClampElectric(rawB, maxBrake)
  {
  }

  /** The first tick after construction or `reset` adopts the axis and emits nothing. */
  lemma FirstTickAdoptsAxis(s: State, rawP: int, rawB: int, btns: Buttons, ctx: Context)
    requires s.needsSync
    ensures var t := Transition(s, rawP, rawB, btns, ctx);
      var curB := ClampBrake(rawB, ctx.maxBrake);
      t.acts == [] && !t.next.needsSync && t.next.pStart == s.pStart && t.next.pSelect == s.pSelect &&
      t.next.prevAxis == Pcsx2.AxisOf(rawP, curB, ctx.maxBrake) && t.next.prevP == rawP && t.next.prevB == curB
  {
  }

  /** A game whose handle started where the translator believed it was ends
      every tick where the translator now believes it is; with the keihan
      variant, outside the cruise exit and the climb from braking into cruise. */
  lemma AxisTracksGame(s: State, rawP: int, rawB: int, btns: Buttons, ctx: Context)
    requires !s.needsSync
    requires var curB := ClampBrake(rawB, ctx.maxBrake);
      !ctx.keihan || (s.prevAxis != 5 && (Pcsx2.CruiseHolds(Pcsx2.AxisOf(rawP, curB, ctx.maxBrake), curB) ==> s.prevAxis >= 0))
    ensures var t := Transition(s, rawP, rawB, btns, ctx);
      Drive(s.prevAxis, t.acts, Receiver(ctx)) == t.next.prevAxis
  {
    var curB := ClampBrake(rawB, ctx.maxBrake);
    var curAxis := Pcsx2.AxisOf(rawP, curB, ctx.maxBrake);
    var a := Pcsx2.AxisTick(s.prevAxis, curAxis, curB, AxisContext(ctx));
    var k := ButtonPhase(s.(prevAxis := a.next), btns, ctx.keihan);
    Pcsx2.AxisTickDrives(s.prevAxis, curAxis, curB, AxisContext(ctx));
    ButtonPhaseMembers(s.(prevAxis := a.next), btns, ctx.keihan);
    forall x | x in k.acts ensures Receiver(ctx)(x) == NoEffect {
      HornsAreNotAxisKeys(x, ctx);
    }
    DriveIgnored(a.next, k.acts, Receiver(ctx));
    DriveAppend(s.prevAxis, a.acts, k.acts, Receiver(ctx));
  }

  /** The horn keys are held exactly while their latches are set (the
      keihan horn only matters with the keihan variant), and the latches
      follow SELECT and START after synchronisation. */
  lemma LatchesMatchHeldKeys(held: set<Key>, s: State, rawP: int, rawB: int, btns: Buttons, ctx: Context)
    requires (KeyPcsx2Horn1 in held) == s.pSelect && (KeyPcsx2Horn2 in held) == s.pStart
    requires ctx.keihan ==> (KeyKeihanHorn in held) == s.pSelect
    ensures var t := Transition(s, rawP, rawB, btns, ctx);
      var h := Held(held, t.acts);
      (KeyPcsx2Horn1 in h) == t.next.pSelect && (KeyPcsx2Horn2 in h) == t.next.pStart &&
      (ctx.keihan ==> (KeyKeihanHorn in h) == t.next.pSelect)
    ensures !s.needsSync ==> Transition(s, rawP, rawB, btns, ctx).next.pStart == btns[9]
    ensures !s.needsSync ==> Transition(s, rawP, rawB, btns, ctx).next.pSelect == btns[10]
  {
    if !s.needsSync {
      var curB := ClampBrake(rawB, ctx.maxBrake);
      var curAxis := Pcsx2.AxisOf(rawP, curB, ctx.maxBrake);
      var a := Pcsx2.AxisTick(s.prevAxis, curAxis, curB, AxisContext(ctx));
      Pcsx2.AxisTickMembers(s.prevAxis, curAxis, curB, AxisContext(ctx));
      forall x | x in a.acts ensures !Touches(x, KeyPcsx2Horn1) && !Touches(x, KeyKeihanHorn) && !Touches(x, KeyPcsx2Horn2) {
        HornsAreNotAxisKeys(x, ctx);
      }
      HeldUntouched(held, a.acts, KeyPcsx2Horn1);
      HeldUntouched(held, a.acts, KeyKeihanHorn);
      HeldUntouched(held, a.acts, KeyPcsx2Horn2);
      var h1 := Held(held, a.acts);
      var e1 := LatchEdge(s.pSelect, btns[10], KeyPcsx2Horn1);
      var e2 := if ctx.keihan then LatchEdge(s.pSelect, btns[10], KeyKeihanHorn) else [];
      var e3 := LatchEdge(s.pStart, btns[9], KeyPcsx2Horn2);
      LatchEdgeTracksButton(h1, s.pSelect, btns[10], KeyPcsx2Horn1);
      var h2 := Held(h1, e1);
      HeldUntouched(h1, e1, KeyKeihanHorn);
      HeldUntouched(h1, e1, KeyPcsx2Horn2);
      if ctx.keihan {
        LatchEdgeTracksButton(h2, s.pSelect, btns[10], KeyKeihanHorn);
      }
      var h3 := Held(h2, e2);
      HeldUntouched(h2, e2, KeyPcsx2Horn1);
      HeldUntouched(h2, e2, KeyPcsx2Horn2);
      LatchEdgeTracksButton(h3, s.pStart, btns[9], KeyPcsx2Horn2);
      HeldUntouched(h3, e3, KeyPcsx2Horn1);
      HeldUntouched(h3, e3, KeyKeihanHorn);
      HeldAppend(h1, e1, e2);
      HeldAppend(h1, e1 + e2, e3);
      HeldAppend(held, a.acts, e1 + e2 + e3);
    }
  }

  /** No tick ever presses the emergency key: emergency is reached by
      cascading brake presses. */
  lemma NeverSendsEmergencyKey(s: State, rawP: int, rawB: int, btns: Buttons, ctx: Context)
    ensures KeyDown(KeyPcsx2Emg) !in Transition(s, rawP, rawB, btns, ctx).acts
  {
    if !s.needsSync {
      var curB := ClampBrake(rawB, ctx.maxBrake);
      var curAxis := Pcsx2.AxisOf(rawP, curB, ctx.maxBrake);
      var a := Pcsx2.AxisTick(s.prevAxis, curAxis, curB, AxisContext(ctx));
      var k := ButtonPhase(s.(prevAxis := a.next), btns, ctx.keihan);
      Pcsx2.AxisTickMembers(s.prevAxis, curAxis, curB, AxisContext(ctx));
      ButtonPhaseMembers(s.(prevAxis := a.next), btns, ctx.keihan);
      forall x | x in k.acts ensures x != KeyDown(KeyPcsx2Emg) {
        HornsAreNotAxisKeys(x, ctx);
      }
    }
  }

  /** From N, the emergency code is `maxBrake + 1` emulated presses of the
      brake key (the power-down key in the one-handle layout); with the
      buttons unchanged nothing else is sent. */
  lemma EmergencyCascades(s: State, rawP: int, btns: Buttons, ctx: Context)
    requires !s.needsSync && ctx.maxBrake >= 0 && s.prevAxis == 0
    requires btns[9] == s.pStart && btns[10] == s.pSelect
    ensures var t := Transition(s, rawP, 9, btns, ctx);
      var key := if ctx.brakeMode == Mode1 then KeyPcsx2PowerDec else KeyPcsx2BrakeInc;
      t.acts == Repeat(PressEmu(key), ctx.maxBrake + 1) && t.next.prevAxis == -(ctx.maxBrake + 1)
  {
    var t := Transition(s, rawP, 9, btns, ctx);
    var key := if ctx.brakeMode == Mode1 then KeyPcsx2PowerDec else KeyPcsx2BrakeInc;
    var c := Repeat(PressEmu(key), Abs(-(ctx.maxBrake + 1) - 0));
    assert Pcsx2.AxisTick(0, -(ctx.maxBrake + 1), ctx.maxBrake + 1, AxisContext(ctx)).acts == [] + c;
    assert t.acts == [] + c + [] + [] + [];
  }

  /** With the keihan variant, climbing into cruise fills up to notch 4,
      then holds the power key; the buttons are still handled. */
  lemma KeihanCruiseEntry(held: set<Key>, s: State, rawB: int, btns: Buttons, ctx: Context)
    requires !s.needsSync && ctx.keihan && ctx.maxBrake >= 0 && s.prevAxis < 5
    requires ClampBrake(rawB, ctx.maxBrake) == 0
    ensures var t := Transition(s, 5, rawB, btns, ctx);
      t.acts == Repeat(PressEmu(KeyPcsx2PowerInc), 4 - Max(0, s.prevAxis)) + [KeyDown(KeyPcsx2PowerInc)] +
                ButtonPhase(s.(prevAxis := 5), btns, true).acts &&
      t.next.prevAxis == 5 && t.next.pStart == btns[9] && t.next.pSelect == btns[10] &&
      KeyPcsx2PowerInc in Held(held, t.acts)
  {
    var t := Transition(s, 5, rawB, btns, ctx);
    var c := Repeat(PressEmu(KeyPcsx2PowerInc), 4 - Max(0, s.prevAxis)) + [KeyDown(KeyPcsx2PowerInc)];
    var k := ButtonPhase(s.(prevAxis := 5), btns, true);
    assert t.acts == c + k.acts;
    HeldAppend(held, Repeat(PressEmu(KeyPcsx2PowerInc), 4 - Max(0, s.prevAxis)), [KeyDown(KeyPcsx2PowerInc)]);
    assert [KeyDown(KeyPcsx2PowerInc)][1..] == [];
    ButtonPhaseMembers(s.(prevAxis := 5), btns, true);
    forall x | x in k.acts ensures !Touches(x, KeyPcsx2PowerInc) {
    }
    HeldUntouched(Held(held, c), k.acts, KeyPcsx2PowerInc);
    HeldAppend(held, c, k.acts);
  }

  /** While cruise holds, a tick sends only the button edges. */
  lemma KeihanCruiseHoldsButtons(s: State, rawB: int, btns: Buttons, ctx: Context)
    requires !s.needsSync && ctx.keihan && ctx.maxBrake >= 0 && s.prevAxis == 5
    requires ClampBrake(rawB, ctx.maxBrake) == 0
    ensures Transition(s, 5, rawB, btns, ctx) == ButtonPhase(s, btns, true)
  {
    assert Transition(s, 5, rawB, btns, ctx).acts == [] + ButtonPhase(s, btns, true).acts;
  }

  /** With the keihan variant, a SELECT edge latches HORN1 and the keihan
      horn together, in that order, before any START edge. */
  lemma KeihanHornsTogether(s: State, btns: Buttons)
    requires btns[10] != s.pSelect
    ensures var k := ButtonPhase(s, btns, true);
      k.acts == (if btns[10] then [KeyDown(KeyPcsx2Horn1), KeyDown(KeyKeihanHorn)]
                 else [KeyUp(KeyPcsx2Horn1), KeyUp(KeyKeihanHorn)]) + LatchEdge(s.pStart, btns[9], KeyPcsx2Horn2)
    ensures ButtonPhase(s, btns, false).acts ==
      (if btns[10] then [KeyDown(KeyPcsx2Horn1)] else [KeyUp(KeyPcsx2Horn1)]) + LatchEdge(s.pStart, btns[9], KeyPcsx2Horn2)
  {
  }

  /** `reset` releases the cruise key and makes the next tick silent. */
  lemma ResetReleasesCruiseKey(held: set<Key>, s: State, rawP: int, rawB: int, btns: Buttons, ctx: Context)
    ensures var r := AfterReset(s);
      KeyPcsx2PowerInc !in Held(held, r.acts) && r.next.prevAxis == 0 &&
      Transition(r.next, rawP, rawB, btns, ctx).acts == []
  {
    var r := AfterReset(s);
    assert Held(held, r.acts) == Held(held - {KeyPcsx2PowerInc}, []);
  }

  /** A second tick with the same reading emits nothing and changes nothing. */
  lemma TickIsIdempotent(s: State, rawP: int, rawB: int, btns: Buttons, ctx: Context)
    requires !s.needsSync
    ensures var t := Transition(s, rawP, rawB, btns, ctx);
      Transition(t.next, rawP, rawB, btns, ctx) == Step(t.next, [])
  {
    var curB := ClampBrake(rawB, ctx.maxBrake);
    var curAxis := Pcsx2.AxisOf(rawP, curB, ctx.maxBrake);
    var t := Transition(s, rawP, rawB, btns, ctx);
    var a := Pcsx2.AxisTick(s.prevAxis, curAxis, curB, AxisContext(ctx));
    Pcsx2.AxisTickIsIdempotent(s.prevAxis, curAxis, curB, AxisContext(ctx));
    assert t.next.prevAxis == a.next;
    var k := ButtonPhase(t.next, btns, ctx.keihan);
    assert k == Step(t.next, []);
  }

  class Rpcs3Logic {
    var prevP: int
    var prevB: int
    var pStart: bool
    var pSelect: bool
    var needsSync: bool
    var prevAxis: int

    function View(): State
      reads this
    {
      State(prevP, prevB, pStart, pSelect, needsSync, prevAxis)
    }

    constructor ()
      ensures View() == Initial
    {
      prevP, prevB := 0, 0;
      pStart, pSelect := false, false;
      needsSync := true;
      prevAxis := 0;
    }

    method Reset() returns (acts: seq<Action>)
      modifies this
      ensures Step(View(), acts) == AfterReset(old(View()))
    {
      prevP, prevB := 0, 0;
      needsSync := true;
      prevAxis := 0;
      acts := [KeyUp(KeyPcsx2PowerInc)];
    }

    method Update(rawP: int, rawB: int, rawBtns: Buttons, context: Context) returns (acts: seq<Action>)
      modifies this
      ensures Step(View(), acts) == Transition(old(View()), rawP, rawB, rawBtns, context)
    {
      var isKeihan := context.keihan;
      var maxBrake := context.maxBrake;

      var curP := rawP;
      var curB := 0;
      if rawB == 9 {
        curB := maxBrake + 1;
      } else if rawB == 0 {
        curB := 0;
      } else {
        curB := Min(rawB, maxBrake);
      }

      var curAxis := 0;
      if curB == maxBrake + 1 {
        curAxis := -curB;
      } else if curB > 0 {
        curAxis := -curB;
      } else {
        curAxis := curP;
      }
      assert curAxis == Pcsx2.AxisOf(curP, curB, maxBrake);

      if needsSync {
        prevAxis := curAxis;
        prevP := curP;
        prevB := curB;
        needsSync := false;
        return [];
      }

      ghost var s0 := View();
      ghost var tick := Pcsx2.AxisTick(s0.prevAxis, curAxis, curB, AxisContext(context));
      acts := UpdateTick(curAxis, curB, context);
      ghost var s1 := View();
      assert s1 == s0.(prevAxis := tick.next) && acts == tick.acts;

      // pattern C of the keihan cruise also ends here, after the buttons
      var btnActs := HandleButtons(rawBtns, isKeihan);
      assert Step(View(), btnActs) == ButtonPhase(s1, rawBtns, isKeihan);
      acts := acts + btnActs;
    }

    /** The axis part of `update` after the first synchronisation. */
    method UpdateTick(curAxis: int, curB: int, context: Context) returns (acts: seq<Action>)
      modifies this
      ensures var tick := Pcsx2.AxisTick(old(prevAxis), curAxis, curB, AxisContext(context));
        View() == old(View()).(prevAxis := tick.next) && acts == tick.acts
    {
      ghost var s0 := View();
      acts := [];
      if context.keihan {
        var holds: bool;
        acts, holds := UpdateCruise(curAxis, curB);
        if holds {
          return;
        }
      }
      ghost var g := Step(prevAxis, acts);
      assert g == (if context.keihan then Pcsx2.CruiseGuard(s0.prevAxis, curAxis) else Step(s0.prevAxis, []));

      var axisActs := UpdateAxis(curAxis, context.maxBrake, context.brakeMode);
      assert Step(prevAxis, axisActs) == Pcsx2.AxisPhase(g.next, curAxis, AxisContext(context));
      acts := acts + axisActs;
    }

    /** The three keihan patterns; `holds` is pattern C, after which only the buttons are handled. */
    method UpdateCruise(curAxis: int, curB: int) returns (acts: seq<Action>, holds: bool)
      modifies this
      ensures holds == Pcsx2.CruiseHolds(curAxis, curB)
      ensures holds ==> Step(prevAxis, acts) == Pcsx2.CruiseEntry(old(prevAxis))
      ensures !holds ==> Step(prevAxis, acts) == Pcsx2.CruiseGuard(old(prevAxis), curAxis)
      ensures prevP == old(prevP) && prevB == old(prevB) && pStart == old(pStart) && pSelect == old(pSelect)
      ensures needsSync == old(needsSync)
    {
      acts := [];
      holds := false;
      if curAxis < 0 && prevAxis > 0 {
        if prevAxis == 5 {
          acts := acts + [KeyUp(KeyPcsx2PowerInc), Sleep(Pcsx2.ReleaseGuardWait)];
        }
        acts := acts + PressEmu(KeyPcsx2N) + [Sleep(Pcsx2ResetWait)];
        prevAxis := 0;
      } else if prevAxis == 5 && curAxis < 5 {
        acts := acts + [KeyUp(KeyPcsx2PowerInc), Sleep(Pcsx2.ReleaseGuardWait)];
        prevAxis := 4;
      } else if curAxis == 5 && curB == 0 {
        if prevAxis < 5 {
          var diff := 4 - Max(0, prevAxis);
          if diff > 0 {
            var presses := RepeatPressEmu(KeyPcsx2PowerInc, diff);
            acts := acts + presses;
          }
          acts := acts + [KeyDown(KeyPcsx2PowerInc)];
          prevAxis := 5;
        }
        holds := true;
      }
    }

    /** The ordinary axis logic: no emergency rule, unmirrored brake keys. */
    method UpdateAxis(curAxis: int, maxBrake: int, brakeMode: BrakeMode) returns (acts: seq<Action>)
      modifies this
      ensures prevAxis == curAxis
      ensures acts == (if curAxis != old(prevAxis)
                       then Pcsx2.AxisKeys(old(prevAxis), curAxis, maxBrake, brakeMode, KeyPcsx2BrakeInc, KeyPcsx2BrakeDec, true)
                       else [])
      ensures prevP == old(prevP) && prevB == old(prevB) && pStart == old(pStart) && pSelect == old(pSelect)
      ensures needsSync == old(needsSync)
    {
      acts := [];
      if curAxis != prevAxis {
        if curAxis == 0 && prevAxis != 0 {
          acts := PressEmu(KeyPcsx2N) + [Sleep(Pcsx2ResetWait)];
        } else if (curAxis > 0 && prevAxis < 0) || (curAxis < 0 && prevAxis > 0) {
          acts := PressEmu(KeyPcsx2N) + [Sleep(Pcsx2ResetWait)];
          var steps := Abs(curAxis);
          var presses: seq<Action>;
          if curAxis > 0 {
            presses := RepeatPressEmu(KeyPcsx2PowerInc, steps);
          } else if brakeMode == Mode1 {
            presses := RepeatPressEmu(KeyPcsx2PowerDec, steps);
          } else {
            presses := RepeatPressEmu(KeyPcsx2BrakeInc, steps);
          }
          acts := acts + presses;
        } else {
          var diff := curAxis - prevAxis;
          if diff > 0 {
            var key := if curAxis > 0 || brakeMode == Mode1 then KeyPcsx2PowerInc else KeyPcsx2BrakeDec;
            acts := RepeatPressEmu(key, Abs(diff));
          } else if diff < 0 {
            var key := if curAxis > 0 || brakeMode == Mode1 then KeyPcsx2PowerDec else KeyPcsx2BrakeInc;
            acts := RepeatPressEmu(key, Abs(diff));
          }
        }
        prevAxis := curAxis;
      }
    }

    /** `_handle_buttons`. */
    method HandleButtons(rawBtns: Buttons, isKeihan: bool) returns (acts: seq<Action>)
      modifies this
      ensures Step(View(), acts) == ButtonPhase(old(View()), rawBtns, isKeihan)
    {
      var isSt, isSl := rawBtns[9], rawBtns[10];
      acts := [];
      if isSl != pSelect {
        acts := acts + (if isSl then [KeyDown(KeyPcsx2Horn1)] else [KeyUp(KeyPcsx2Horn1)]);
        if isKeihan {
          acts := acts + (if isSl then [KeyDown(KeyKeihanHorn)] else [KeyUp(KeyKeihanHorn)]);
        }
        pSelect := isSl;
      }
      if isSt != pStart {
        acts := acts + (if isSt then [KeyDown(KeyPcsx2Horn2)] else [KeyUp(KeyPcsx2Horn2)]);
        pStart := isSt;
      }
    }
  }
}
