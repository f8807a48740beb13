/** Reading the controller: packing the sixteen button states into the two
    raw channels, and the immediate stabilisation policy. The device poll
    itself is an input: the joystick is either absent or the sixteen states
    `get_button(0..15)` of one poll. */
module Inputs {
  import opened Const

  /** Buttons 1..16 of the controller, 1-indexed; index 0 is a placeholder. */
  type Buttons = b: seq<bool> | |b| == 17 witness seq(17, i => false)

  /** The joystick as one poll sees it. */
  datatype Joystick = NoJoystick | Joystick(buttons: seq<bool>)

  /** A poll's result: the 4-bit brake pattern, the power pattern and the buttons. */
  datatype Reading = Reading(bVal: int, pPat: PowerPattern, btns: Buttons)

  function Bit(b: bool): bv8 { if b then 1 else 0 }

  function BitValue(b: bool): int { if b then 1 else 0 }

  /** `(b6 << 3) | (b8 << 2) | (b5 << 1) | b7`. */
  function BrakePattern(btns: Buttons): (r: int)
    ensures 0 <= r < 16
  {
    ((Bit(btns[6]) << 3) | (Bit(btns[8]) << 2) | (Bit(btns[5]) << 1) | Bit(btns[7])) as int
  }

  /** `(b14, b16, b1)`. */
  function PowerPatternOf(btns: Buttons): PowerPattern
  {
    (BitValue(btns[14]), BitValue(btns[16]), BitValue(btns[1]))
  }

  function GetInputs(joy: Joystick): (r: Reading)
    requires joy.Joystick? ==> |joy.buttons| == 16
    ensures joy.NoJoystick? ==> r == Reading(0, (0, 0, 0), seq(17, i => false))
    ensures joy.Joystick? ==> forall i :: 1 <= i <= 16 ==> r.btns[i] == joy.buttons[i - 1]
    ensures 0 <= r.bVal < 16
    ensures joy.Joystick? ==> r.pPat == (BitValue(joy.buttons[13]), BitValue(joy.buttons[15]), BitValue(joy.buttons[0]))
  {
    match joy
    case NoJoystick => Reading(0, (0, 0, 0), seq(17, i => false))
    case Joystick(raw) =>
      var btns: Buttons := [false] + raw;
      Reading(BrakePattern(btns), PowerPatternOf(btns), btns)
  }

  /** The four brake contacts recovered from a packed pattern, most significant first. */
  function BrakeBits(bVal: int): seq<int>
    requires 0 <= bVal < 256
  {
    var v := bVal as bv8;
    [((v >> 3) & 1) as int, ((v >> 2) & 1) as int, ((v >> 1) & 1) as int, (v & 1) as int]
  }

  /** Unpacking a packed brake pattern gives back exactly the contacts b6, b8, b5, b7. */
  lemma BrakeBitsRoundTrip(btns: Buttons)
    ensures BrakeBits(BrakePattern(btns)) == [BitValue(btns[6]), BitValue(btns[8]), BitValue(btns[5]), BitValue(btns[7])]
  {
    var a, b, c, d := Bit(btns[6]), Bit(btns[8]), Bit(btns[5]), Bit(btns[7]);
    var v := (a << 3) | (b << 2) | (c << 1) | d;
    assert (v >> 3) & 1 == a && (v >> 2) & 1 == b && (v >> 1) & 1 == c && v & 1 == d by {
      assert a == 0 || a == 1;
      assert b == 0 || b == 1;
      assert c == 0 || c == 1;
      assert d == 0 || d == 1;
    }
  }

  /** Every power pattern of the buttons resolves to a notch 0..5, except
      all-open and all-closed, which are undefined. */
  lemma PowerPatternResolution(btns: Buttons)
    ensures var n := Get(MasconLevelMap, PowerPatternOf(btns), Undefined);
      (n == Undefined <==> btns[14] == btns[16] == btns[1]) && -1 <= n <= 5
  {
    MasconLevelMapIsBijection();
  }

  // ---- immediate stabilisation policy ----

  /** One `update` of the immediate policy: undefined keeps, anything else replaces. */
  function ImmediateNext(confirmed: int, raw: int): int
  {
    if raw == Undefined then confirmed else raw
  }

  /** The confirmed value after feeding `raws`, one `update` per reading. */
  function ImmediateRun(confirmed: int, raws: seq<int>): int
    decreases |raws|
  {
    if raws == [] then confirmed else ImmediateRun(ImmediateNext(confirmed, raws[0]), raws[1..])
  }

  /** The last defined reading of `raws`, or `init` when there is none. */
  function LastDefined(init: int, raws: seq<int>): int
    decreases |raws|
  {
    if raws == [] then init
    else if raws[|raws| - 1] != Undefined then raws[|raws| - 1]
    else LastDefined(init, raws[..|raws| - 1])
  }

  lemma {:induction false} ImmediateRunSnoc(c: int, raws: seq<int>, x: int)
    ensures ImmediateRun(c, raws + [x]) == ImmediateNext(ImmediateRun(c, raws), x)
    decreases |raws|
  {
    if raws == [] {
      assert [] + [x] == [x];
      assert [x][1..] == [];
    } else {
      assert (raws + [x])[0] == raws[0] && (raws + [x])[1..] == raws[1..] + [x];
      ImmediateRunSnoc(ImmediateNext(c, raws[0]), raws[1..], x);
    }
  }

  /** After any sequence of readings the confirmed value is the last defined
      one, or the initial value if every reading was undefined. */
  lemma {:induction false} ImmediateRunIsLastDefined(init: int, raws: seq<int>)
    ensures ImmediateRun(init, raws) == LastDefined(init, raws)
    decreases |raws|
  {
    if raws != [] {
      var front, x := raws[..|raws| - 1], raws[|raws| - 1];
      assert raws == front + [x];
      ImmediateRunSnoc(init, front, x);
      ImmediateRunIsLastDefined(init, front);
    }
  }

  /** The immediate `StableNotchReader`: the value it confirmed last. */
  class StableNotchReader {
    var confirmed: int

    constructor (initVal: int)
      ensures confirmed == initVal
    {
      confirmed := initVal;
    }

    method Update(rawVal: int) returns (r: int)
      modifies this
      ensures rawVal == Undefined ==> confirmed == old(confirmed)
      ensures rawVal != Undefined ==> confirmed == rawVal
      ensures confirmed == ImmediateNext(old(confirmed), rawVal)
      ensures r == confirmed
    {
      if rawVal == Undefined {
        return confirmed;
      }
      confirmed := rawVal;
      return rawVal;
    }
  }
}
