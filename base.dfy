/** What every target translator shares: the configuration snapshot it is
    handed each tick, the base translator's fields and `reset`, the
    electric-brake clamp, and edge-triggered button latches. */
module Base {
  import opened Const
  import opened Keyboard
  import opened Inputs

  datatype GameMode = JRETS | BVE | PCSX2 | RPCS3

  /** The brake setting "1" or "2". For JRETS and BVE, "1" is the
      electric-command brake and "2" the automatic-air brake; for PCSX2 and
      RPCS3, "1" is the one-handle layout (power keys also drive the brake
      range) and "2" the two-handle layout (separate brake keys). */
  datatype BrakeMode = Mode1 | Mode2

  /** The configuration snapshot handed to a translator on every tick. */
  datatype Context = Context(
    gameMode: GameMode,
    brakeMode: BrakeMode,
    maxPower: int,
    maxBrake: int,
    midosuji: bool,
    ae100: bool,
    keihan: bool,
    mode787: bool)

  /** The electric-brake clamp of JRETS, BVE and PCSX2: pattern 14 of the raw
      brake value means emergency (`maxBrake + 1`), 0 is released, anything
      else is capped at `maxBrake`. */
  function ClampElectric(rawB: int, maxBrake: int): int
  {
    if rawB == 14 then maxBrake + 1
    else if rawB == 0 then 0
    else Min(rawB, maxBrake)
  }

  /** The brake value JRETS and BVE act on: clamped in electric mode, passed
      through unchanged in automatic-air mode. */
  function BrakeValue(mode: BrakeMode, rawB: int, maxBrake: int): int
  {
    if mode == Mode1 then ClampElectric(rawB, maxBrake) else rawB
  }

  /** The clamp yields the emergency position exactly for raw value 14, and
      maps a non-negative raw value into `0 .. maxBrake + 1`. */
  lemma ClampElectricRule(rawB: int, maxBrake: int)
    requires maxBrake >= 0
    ensures ClampElectric(rawB, maxBrake) == maxBrake + 1 <==> rawB == 14
    ensures rawB != 14 ==> ClampElectric(rawB, maxBrake) <= maxBrake
    ensures rawB >= 0 ==> 0 <= ClampElectric(rawB, maxBrake) <= maxBrake + 1
    ensures rawB > 0 && maxBrake > 0 ==> ClampElectric(rawB, maxBrake) > 0
  {
  }

  /** No value of the electric brake table reaches the emergency position of
      the clamp: the table's emergency notch is 9, never 14, so it is capped
      at `maxBrake` like a service notch. */
  lemma ElectricTableNeverEmergency(maxBrake: int)
    requires maxBrake >= 0
    ensures forall p :: p in ElectricBrakeMap ==> ClampElectric(ElectricBrakeMap[p], maxBrake) <= maxBrake
    ensures ClampElectric(ElectricBrakeMap[0], maxBrake) == Min(9, maxBrake)
  {
    ElectricBrakeMapShape();
    forall p | p in ElectricBrakeMap ensures ClampElectric(ElectricBrakeMap[p], maxBrake) <= maxBrake {
      ClampElectricRule(ElectricBrakeMap[p], maxBrake);
    }
  }

  /** Edge-triggered button latch: key down on a rising edge, key up on a
      falling edge, nothing while the button keeps its state. */
  function LatchEdge(prev: bool, now: bool, key: Key): seq<Action>
  {
    if now == prev then [] else if now then [KeyDown(key)] else [KeyUp(key)]
  }

  /** A latched key stays held exactly while its button is pressed: if the
      key was held iff the latch was set, after the edge it is held iff the
      button now reads pressed; nothing is emitted without an edge. */
  lemma LatchEdgeTracksButton(held: set<Key>, prev: bool, now: bool, key: Key)
    requires (key in held) == prev
    ensures (key in Held(held, LatchEdge(prev, now, key))) == now
    ensures LatchEdge(prev, now, key) == [] <==> prev == now
    ensures forall a :: a in LatchEdge(prev, now, key) ==> Touches(a, key)
  {
    var e := LatchEdge(prev, now, key);
    if e != [] {
      assert e[1..] == [];
    }
  }

  /** Two latches after a prefix that touches neither key: each latched key
      ends held exactly when its button now reads pressed. */
  lemma LatchPairTracksButtons(held: set<Key>, front: seq<Action>, prev1: bool, now1: bool, key1: Key,
                               prev2: bool, now2: bool, key2: Key)
    requires key1 != key2
    requires (key1 in held) == prev1 && (key2 in held) == prev2
    requires forall a :: a in front ==> !Touches(a, key1) && !Touches(a, key2)
    ensures var after := Held(held, front + (LatchEdge(prev1, now1, key1) + LatchEdge(prev2, now2, key2)));
      (key1 in after) == now1 && (key2 in after) == now2
  {
    var e1 := LatchEdge(prev1, now1, key1);
    var e2 := LatchEdge(prev2, now2, key2);
    HeldUntouched(held, front, key1);
    HeldUntouched(held, front, key2);
    var h1 := Held(held, front);
    LatchEdgeTracksButton(h1, prev1, now1, key1);
    HeldUntouched(h1, e1, key2);
    var h2 := Held(h1, e1);
    LatchEdgeTracksButton(h2, prev2, now2, key2);
    HeldUntouched(h2, e2, key1);
    HeldAppend(h1, e1, e2);
    HeldAppend(held, front, e1 + e2);
  }

  /** The fields and default behaviour every translator starts from. */
  class BaseLogic {
    var prevP: int
    var prevB: int
    var pStart: bool
    var pSelect: bool
    var needsSync: bool

    constructor ()
      ensures prevP == 0 && prevB == 0
      ensures !pStart && !pSelect
      ensures needsSync
    {
      prevP := 0;
      prevB := 0;
      pStart := false;
      pSelect := false;
      needsSync := true;
    }

    /** Forget the handle positions and resynchronise on the next tick; the
        button latches are kept. */
    method Reset()
      modifies this
      ensures prevP == 0 && prevB == 0 && needsSync
      ensures pStart == old(pStart) && pSelect == old(pSelect)
    {
      prevP := 0;
      prevB := 0;
      needsSync := true;
    }

    /** The base translator emits nothing and changes nothing. */
    method Update(curP: int, curB: int, rawBtns: Buttons, context: Context) returns (acts: seq<Action>)
      ensures acts == []
    {
      acts := [];
    }
  }
}
