/** Fixed data of the converter: timing constants, key assignments and the
    three notch resolution tables of the controller. Times are integer
    milliseconds (the source writes seconds as floats). */
module Const {

  /** A keyboard key, named as the key-injection library names it. */
  type Key = string

  /** Marker the tables' lookups return for a pattern they do not define. */
  const Undefined: int := -1

  // ---- timing (milliseconds) ----
  const NWaitTime: nat := 20
  const ConfirmWaitTime: nat := 20
  const KeyRepeatDelay: nat := 20
  const Pcsx2PressDuration: nat := 40
  const Pcsx2ReleaseDuration: nat := 40
  const Pcsx2ResetWait: nat := 50

  // ---- keys of the one-handle/two-handle targets (JRETS, BVE) ----
  const KeyMasconUp: Key := "z"
  const KeyMasconDown: Key := "a"
  const KeyMasconN: Key := "s"
  const KeyBrakeN: Key := "m"
  const KeyBrakeUp: Key := "."
  const KeyBrakeDown: Key := ","
  const KeyBrakeEmg: Key := "/"
  const KeyStart: Key := "backspace"
  const KeySelect: Key := "enter"

  // ---- keys of the axis-unified targets (PCSX2, RPCS3) ----
  const KeyPcsx2PowerInc: Key := "z"
  const KeyPcsx2PowerDec: Key := "q"
  const KeyPcsx2BrakeInc: Key := "."
  const KeyPcsx2BrakeDec: Key := ","
  const KeyPcsx2N: Key := "s"
  const KeyPcsx2Emg: Key := "/"
  const KeyPcsx2Horn1: Key := "enter"
  const KeyPcsx2Horn2: Key := "backspace"

  /** The power handle's three contacts (buttons 14, 16 and 1), each 0 or 1. */
  type PowerPattern = (int, int, int)

  /** Electric-command brake: 4-bit contact pattern to notch; 9 is the
      emergency sentinel. Patterns 1..5 and 15 are not defined. */
  const ElectricBrakeMap: map<int, int> :=
    map[14 := 0, 13 := 1, 12 := 2, 11 := 3, 10 := 4, 9 := 5, 8 := 6, 7 := 7, 6 := 8, 0 := 9]

  /** Automatic-air brake: 4-bit contact pattern to stage code
      (0 run, 6 overlap, 8 service, 9 emergency). Pattern 15 is not defined. */
  const AutoBrakeMap: map<int, int> :=
    map[14 := 0, 13 := 0, 12 := 0, 11 := 0, 10 := 0, 9 := 0, 8 := 0, 7 := 0,
        6 := 6,
        5 := 8, 4 := 8, 3 := 8, 2 := 8, 1 := 8,
        0 := 9]

  /** Power handle: contact pattern to notch 0 (N) .. 5 (P5). */
  const MasconLevelMap: map<PowerPattern, int> :=
    map[(1, 1, 0) := 0, (1, 0, 1) := 1, (1, 0, 0) := 2, (0, 1, 1) := 3, (0, 1, 0) := 4, (0, 0, 1) := 5]

  /** Dictionary lookup with a default, as `dict.get(key, default)`. */
  function Get<K>(m: map<K, int>, key: K, default: int): int
  {
    if key in m then m[key] else default
  }

  function Min(a: int, b: int): int { if a <= b then a else b }
  function Max(a: int, b: int): int { if a >= b then a else b }
  function Abs(x: int): nat { if x >= 0 then x else -x }

  // ---- properties of the tables ----

  /** The power table is defined on exactly six patterns, is a bijection onto
      0..5, and leaves all-open and all-closed undefined. */
  lemma MasconLevelMapIsBijection()
    ensures MasconLevelMap.Keys == {(1, 1, 0), (1, 0, 1), (1, 0, 0), (0, 1, 1), (0, 1, 0), (0, 0, 1)}
    ensures MasconLevelMap.Values == {0, 1, 2, 3, 4, 5}
    ensures forall p, q :: p in MasconLevelMap && q in MasconLevelMap && p != q ==> MasconLevelMap[p] != MasconLevelMap[q]
    ensures (0, 0, 0) !in MasconLevelMap && (1, 1, 1) !in MasconLevelMap
  {
    assert MasconLevelMap[(1, 1, 0)] == 0 && MasconLevelMap[(1, 0, 1)] == 1 && MasconLevelMap[(1, 0, 0)] == 2;
    assert MasconLevelMap[(0, 1, 1)] == 3 && MasconLevelMap[(0, 1, 0)] == 4 && MasconLevelMap[(0, 0, 1)] == 5;
  }

  /** The electric table is defined on {0, 6, ..., 14}, gives 14 - pattern on
      6..14 and 9 on 0, is injective with values in 0..9, and leaves 1..5 and
      15 undefined. */
  lemma ElectricBrakeMapShape()
    ensures forall p :: p in ElectricBrakeMap <==> p == 0 || 6 <= p <= 14
    ensures forall p :: 6 <= p <= 14 ==> ElectricBrakeMap[p] == 14 - p
    ensures ElectricBrakeMap[0] == 9
    ensures ElectricBrakeMap.Values == {0, 1, 2, 3, 4, 5, 6, 7, 8, 9}
    ensures forall p, q :: p in ElectricBrakeMap && q in ElectricBrakeMap && p != q ==> ElectricBrakeMap[p] != ElectricBrakeMap[q]
  {
    forall p | 6 <= p <= 14 ensures p in ElectricBrakeMap && ElectricBrakeMap[p] == 14 - p {
      assert p == 6 || p == 7 || p == 8 || p == 9 || p == 10 || p == 11 || p == 12 || p == 13 || p == 14;
    }
    assert ElectricBrakeMap[14] == 0 && ElectricBrakeMap[13] == 1 && ElectricBrakeMap[12] == 2;
    assert ElectricBrakeMap[11] == 3 && ElectricBrakeMap[10] == 4 && ElectricBrakeMap[9] == 5;
    assert ElectricBrakeMap[8] == 6 && ElectricBrakeMap[7] == 7 && ElectricBrakeMap[6] == 8;
  }

  /** The automatic-air table is defined on 0..14; 7..14 give Run (0), 6 gives
      Overlap (6), 1..5 give Service (8) and 0 gives Emergency (9). */
  lemma AutoBrakeMapShape()
    ensures forall p :: p in AutoBrakeMap <==> 0 <= p <= 14
    ensures forall p :: 7 <= p <= 14 ==> AutoBrakeMap[p] == 0
    ensures AutoBrakeMap[6] == 6
    ensures forall p :: 1 <= p <= 5 ==> AutoBrakeMap[p] == 8
    ensures AutoBrakeMap[0] == 9
    ensures AutoBrakeMap.Values == {0, 6, 8, 9}
  {
    forall p | 7 <= p <= 14 ensures p in AutoBrakeMap && AutoBrakeMap[p] == 0 {
      assert p == 7 || p == 8 || p == 9 || p == 10 || p == 11 || p == 12 || p == 13 || p == 14;
    }
    forall p | 1 <= p <= 5 ensures p in AutoBrakeMap && AutoBrakeMap[p] == 8 {
      assert p == 1 || p == 2 || p == 3 || p == 4 || p == 5;
    }
    assert AutoBrakeMap[14] == 0 && AutoBrakeMap[6] == 6 && AutoBrakeMap[5] == 8 && AutoBrakeMap[0] == 9;
  }

  /** Returning to Neutral is confirmed no faster than any other notch. */
  lemma NeutralWaitsAtLeastAsLong()
    ensures NWaitTime >= ConfirmWaitTime
  {
  }
}
