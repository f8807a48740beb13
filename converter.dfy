/** The stand-alone JRETS converter script: its chattering-guard
    `StableNotchReader` (a reading is confirmed only after it has been
    seen unchanged for longer than a hold time) and the body of its main
    loop, a translator with its own key order. Time is an integer number
    of milliseconds handed in as `now`. */
module Converter {
  import opened Const
  import opened Keyboard
  import opened Inputs
  import opened Base
  import Jrets

  /** The script's own timing, in milliseconds. */
  const GuardConfirmWait: nat := 20
  const GuardNWait: nat := 100
  const LegacyRepeatDelay: nat := 10

  // ---- chattering guard ----

  /** The guard filter's fields. */
  datatype Guard = Guard(lastRaw: int, startTime: int, confirmed: int)

  /** A fresh filter: the initial value is both seen and confirmed. */
  function NewGuard(initVal: int, now: int): Guard
  {
    Guard(initVal, now, initVal)
  }

  /** How long a reading must persist: longer for Neutral. */
  function GuardLimit(raw: int): nat
  {
    if raw == 0 then GuardNWait else GuardConfirmWait
  }

  /** One `update(raw_val)` at time `now`. */
  function GuardNext(g: Guard, raw: int, now: int): Guard
  {
    if raw == Undefined then g
    else if raw != g.lastRaw then g.(startTime := now, lastRaw := raw)
    else if now - g.startTime > GuardLimit(raw) then g.(confirmed := raw)
    else g
  }

  /** One reading handed to the filter, with the time it was taken. */
  datatype Sample = Sample(raw: int, now: int)

  function GuardRun(g: Guard, samples: seq<Sample>): Guard
    decreases |samples|
  {
    if samples == [] then g else GuardRun(GuardNext(g, samples[0].raw, samples[0].now), samples[1..])
  }

  /** The defined readings among `samples`. */
  function Fed(samples: seq<Sample>): set<int>
    decreases |samples|
  {
    if samples == [] then {}
    else (if samples[0].raw == Undefined then {} else {samples[0].raw}) + Fed(samples[1..])
  }

  /** An undefined reading changes no field. */
  lemma GuardIgnoresUndefined(g: Guard, now: int)
    ensures GuardNext(g, Undefined, now) == g
  {
  }

  /** A defined reading other than the last one restarts the hold timer and
      keeps the confirmed value. */
  lemma GuardNewReadingRestartsTimer(g: Guard, raw: int, now: int)
    requires raw != Undefined && raw != g.lastRaw
    ensures GuardNext(g, raw, now) == Guard(raw, now, g.confirmed)
  {
  }

  /** The confirmed value changes only to the reading, and only when that
      reading equals the last one and has persisted strictly longer than
      its hold time; conversely such a reading is always confirmed. */
  lemma GuardConfirmRule(g: Guard, raw: int, now: int)
    ensures var h := GuardNext(g, raw, now);
      (h.confirmed != g.confirmed ==>
         h.confirmed == raw && raw != Undefined && raw == g.lastRaw && now - g.startTime > GuardLimit(raw)) &&
      (raw != Undefined && raw == g.lastRaw && now - g.startTime > GuardLimit(raw) ==> h.confirmed == raw)
  {
  }

  /** Neutral waits 100 ms, every other notch 20 ms. */
  lemma NeutralWaitsLonger(raw: int)
    ensures GuardLimit(0) == 100 && (raw != 0 ==> GuardLimit(raw) == 20)
    ensures GuardLimit(0) >= GuardLimit(raw)
  {
  }

  /** A new defined reading seen again after more than its hold time is confirmed. */
  lemma StableReadingIsConfirmed(g: Guard, raw: int, t1: int, t2: int)
    requires raw != Undefined && raw != g.lastRaw && t2 - t1 > GuardLimit(raw)
    ensures GuardNext(GuardNext(g, raw, t1), raw, t2).confirmed == raw
  {
  }

  /** Whatever it is fed, the filter only ever confirms its initial seen or
      confirmed values or a reading it was fed. */
  lemma {:induction false} GuardRunValues(g: Guard, samples: seq<Sample>)
    ensures var h := GuardRun(g, samples);
      (h.confirmed == g.confirmed || h.confirmed == g.lastRaw || h.confirmed in Fed(samples)) &&
      (h.lastRaw == g.lastRaw || h.lastRaw in Fed(samples))
    decreases |samples|
  {
    if samples != [] {
      var g1 := GuardNext(g, samples[0].raw, samples[0].now);
      GuardRunValues(g1, samples[1..]);
    }
  }

  /** From construction, the confirmed value is always the initial value
      or one of the defined readings fed since. */
  lemma ConfirmedIsInitialOrFed(initVal: int, t0: int, samples: seq<Sample>)
    ensures var h := GuardRun(NewGuard(initVal, t0), samples);
      h.confirmed == initVal || h.confirmed in Fed(samples)
  {
    GuardRunValues(NewGuard(initVal, t0), samples);
  }

  /** A contact that chatters (every reading defined and different from the
      one before) never confirms anything. */
  lemma {:induction false} ChatteringNeverConfirms(g: Guard, samples: seq<Sample>)
    requires forall i :: 0 <= i < |samples| ==> samples[i].raw != Undefined
    requires |samples| > 0 ==> samples[0].raw != g.lastRaw
    requires forall i :: 0 < i < |samples| ==> samples[i].raw != samples[i - 1].raw
    ensures GuardRun(g, samples).confirmed == g.confirmed
    decreases |samples|
  {
    if samples != [] {
      var g1 := GuardNext(g, samples[0].raw, samples[0].now);
      assert g1.confirmed == g.confirmed && g1.lastRaw == samples[0].raw;
      var rest := samples[1..];
      assert forall i :: 0 < i < |rest| ==> rest[i].raw != rest[i - 1].raw by {
        forall i | 0 < i < |rest| ensures rest[i].raw != rest[i - 1].raw {
          assert rest[i] == samples[i + 1] && rest[i - 1] == samples[i];
        }
      }
      if rest != [] {
        assert rest[0] == samples[1];
      }
      ChatteringNeverConfirms(g1, rest);
    }
  }

  /** The chattering-guard `StableNotchReader`. */
  class StableNotchReader {
    var lastRaw: int
    var startTime: int
    var confirmed: int

    function View(): Guard
      reads this
    {
      Guard(lastRaw, startTime, confirmed)
    }

    constructor (initVal: int, now: int)
      ensures View() == NewGuard(initVal, now)
    {
      lastRaw := initVal;
      startTime := now;
      confirmed := initVal;
    }

    method Update(rawVal: int, now: int) returns (r: int)
      modifies this
      ensures View() == GuardNext(old(View()), rawVal, now)
      ensures r == confirmed
    {
      if rawVal == Undefined {
        return confirmed;
      }
      var limit := if rawVal == 0 then GuardNWait else GuardConfirmWait;
      if rawVal != lastRaw {
        startTime := now;
        lastRaw := rawVal;
        return confirmed;
      }
      if now - startTime > limit {
        confirmed := rawVal;
        return rawVal;
      }
      return confirmed;
    }
  }

  // ---- the loop body as a translator ----

  /** The loop's variables. */
  datatype LegacyState = LegacyState(prevP: int, prevB: int, lastAutoS: int, pStart: bool, pSelect: bool)

  /** The automatic-air stage of a brake value: 9 emergency (3), 6 overlap
      (1), 8 service (2), anything else run (0). */
  function StageOf(curB: int): int
  {
    if curB == 9 then 3 else if curB == 6 then 1 else if curB == 8 then 2 else 0
  }

  /** 1. On brake onset the power handle is sent to N first. */
  function OnsetPhase(s: LegacyState, curB: int): Step<LegacyState>
  {
    if s.prevB == 0 && curB > 0 then Step(s.(prevP := 0), Tap(KeyMasconN, LegacyRepeatDelay))
    else Step(s, [])
  }

  /** The keys of a stage change: release N, UP and EMG, then engage the new stage. */
  function StageKeys(newS: int, lastS: int): seq<Action>
  {
    [KeyUp(KeyBrakeN), KeyUp(KeyBrakeUp), KeyUp(KeyBrakeEmg)] +
    (if newS == 0 then [KeyDown(KeyBrakeN)]
     else if newS == 1 then (if lastS == 0 then [Press(KeyBrakeUp)] else [])
     else if newS == 2 then [KeyDown(KeyBrakeUp)]
     else if newS == 3 then [KeyDown(KeyBrakeEmg)]
     else [])
  }

  /** 2. Brake output in mode "2": stage changes only. */
  function AutoPhase(s: LegacyState, curB: int): Step<LegacyState>
  {
    var newS := StageOf(curB);
    if newS != s.lastAutoS then Step(s.(lastAutoS := newS), StageKeys(newS, s.lastAutoS))
    else Step(s, [])
  }

  /** 2. Brake output in any other mode: emergency held down, release
      pressed, otherwise a cascade; every non-emergency change first lets
      go of the emergency key. */
  function ElectricPhase(s: LegacyState, curB: int): Step<LegacyState>
  {
    if curB == s.prevB then Step(s, [])
    else if curB == 9 then Step(s, [KeyDown(KeyBrakeEmg)])
    else if curB == 0 then Step(s, [KeyUp(KeyBrakeEmg), Press(KeyBrakeN)])
    else
      var diff := curB - s.prevB;
      Step(s, [KeyUp(KeyBrakeEmg)] + Repeat(Tap(if diff > 0 then KeyBrakeUp else KeyBrakeDown, LegacyRepeatDelay), Abs(diff)))
  }

  /** 3. Power output, only with the brake released. */
  function PowerPhase(s: LegacyState, curP: int, curB: int): Step<LegacyState>
  {
    if curB > 0 then Step(s.(prevP := 0), [])
    else if curP == s.prevP then Step(s, [])
    else if curP == 0 then Step(s.(prevP := curP), [Press(KeyMasconN)])
    else
      var diff := curP - s.prevP;
      Step(s.(prevP := curP), Repeat(Tap(if diff > 0 then KeyMasconUp else KeyMasconDown, LegacyRepeatDelay), Abs(diff)))
  }

  /** The start latch, then the select latch. */
  function ButtonPhase(s: LegacyState, btns: Buttons): Step<LegacyState>
  {
    Step(s.(pStart := btns[9], pSelect := btns[10]),
         LatchEdge(s.pStart, btns[9], KeyStart) + LatchEdge(s.pSelect, btns[10], KeySelect))
  }

  /** The brake output of the script's mode: mode "2" automatic air, anything else electric. */
  function BrakePhase(s: LegacyState, mode: string, curB: int): Step<LegacyState>
  {
    if mode == "2" then AutoPhase(s, curB) else ElectricPhase(s, curB)
  }

  /** One pass of the loop after the filters. */
  function Tick(s: LegacyState, mode: string, curP: int, curB: int, btns: Buttons): Step<LegacyState>
  {
    var o := OnsetPhase(s, curB);
    var b := BrakePhase(o.next, mode, curB);
    var p := PowerPhase(b.next, curP, curB);
    var k := ButtonPhase(p.next.(prevB := curB), btns);
    Step(k.next, o.acts + b.acts + p.acts + k.acts)
  }

  /** The raw brake value: the electric table in mode "1", the
      automatic-air table in any other mode; -1 where undefined. */
  function RawBrake(mode: string, bVal: int): int
  {
    if mode == "1" then Get(ElectricBrakeMap, bVal, Undefined) else Get(AutoBrakeMap, bVal, Undefined)
  }

  /** Everything the loop keeps between passes. */
  datatype LoopState = LoopState(tick: LegacyState, brake: Guard, mascon: Guard)

  /** The state before the first pass: positions read once, defaulting to 0,
      the brake at 0 outside mode "1". */
  function InitialLoop(mode: string, first: Reading, now: int): LoopState
  {
    var p0 := Get(MasconLevelMap, first.pPat, 0);
    var initP := if p0 == Undefined then 0 else p0;
    var initB := if mode == "1" then Get(ElectricBrakeMap, first.bVal, 0) else 0;
    LoopState(LegacyState(initP, initB, 0, false, false), NewGuard(initB, now), NewGuard(initP, now))
  }

  /** One pass of the loop: look up, filter (brake first), translate. */
  function Loop(st: LoopState, mode: string, r: Reading, now: int): Step<LoopState>
  {
    var gB := GuardNext(st.brake, RawBrake(mode, r.bVal), now);
    var gP := GuardNext(st.mascon, Get(MasconLevelMap, r.pPat, Undefined), now);
    var t := Tick(st.tick, mode, gP.confirmed, gB.confirmed, r.btns);
    Step(LoopState(t.next, gB, gP), t.acts)
  }

  // ---- which keys each phase touches ----

  predicate PowerKeyAction(a: Action)
  {
    a == Press(KeyMasconN) || a == Press(KeyMasconUp) || a == Press(KeyMasconDown) || a == Sleep(LegacyRepeatDelay)
  }

  predicate BrakeKeyAction(a: Action)
  {
    a == KeyUp(KeyBrakeN) || a == KeyUp(KeyBrakeUp) || a == KeyUp(KeyBrakeEmg) ||
    a == KeyDown(KeyBrakeN) || a == KeyDown(KeyBrakeUp) || a == KeyDown(KeyBrakeEmg) ||
    a == Press(KeyBrakeN) || a == Press(KeyBrakeUp) || a == Press(KeyBrakeDown) || a == Sleep(LegacyRepeatDelay)
  }

  predicate ButtonAction(a: Action)
  {
    (a.KeyDown? || a.KeyUp?) && (a.key == KeyStart || a.key == KeySelect)
  }

  /** What the game's electric brake handle does: a step per press, N,
      and emergency while the emergency key goes down. */
  function BrakeEffect(a: Action): Effect
  {
    if a == Press(KeyBrakeUp) then Move(1)
    else if a == Press(KeyBrakeDown) then Move(-1)
    else if a == Press(KeyBrakeN) then Jump(0)
    else if a == KeyDown(KeyBrakeEmg) then Jump(9)
    else NoEffect
  }

  /** The three groups of keys are told apart by the two receivers and the held-key model. */
  lemma KeyGroupsAreSeparate(a: Action)
    ensures PowerKeyAction(a) ==>
      (BrakeEffect(a) == NoEffect && a != KeyUp(KeyBrakeEmg) &&
       !Touches(a, KeyStart) && !Touches(a, KeySelect) && !Touches(a, KeyBrakeEmg) &&
       !Touches(a, KeyBrakeUp) && !Touches(a, KeyBrakeN))
    ensures BrakeKeyAction(a) ==>
      (Jrets.MasconEffect(a) == NoEffect && a != Press(KeyMasconN) && !Touches(a, KeyStart) && !Touches(a, KeySelect))
    ensures ButtonAction(a) ==>
      (Jrets.MasconEffect(a) == NoEffect && BrakeEffect(a) == NoEffect && a != Press(KeyMasconN) &&
       !Touches(a, KeyBrakeEmg) && !Touches(a, KeyBrakeUp) && !Touches(a, KeyBrakeN))
  {
  }

  lemma PhaseMembers(s: LegacyState, mode: string, curP: int, curB: int, btns: Buttons)
    ensures forall a :: a in OnsetPhase(s, curB).acts ==> PowerKeyAction(a)
    ensures forall a :: a in BrakePhase(s, mode, curB).acts ==> BrakeKeyAction(a)
    ensures forall a :: a in PowerPhase(s, curP, curB).acts ==> PowerKeyAction(a)
    ensures forall a :: a in ButtonPhase(s, btns).acts ==> ButtonAction(a)
  {
    TapCascadeMembers(if curB - s.prevB > 0 then KeyBrakeUp else KeyBrakeDown, LegacyRepeatDelay, Abs(curB - s.prevB));
    TapCascadeMembers(if curP - s.prevP > 0 then KeyMasconUp else KeyMasconDown, LegacyRepeatDelay, Abs(curP - s.prevP));
  }

  // ---- properties of one pass ----

  /** The brake and button keys sent after an onset, as one sequence. */
  function OnsetTail(s: LegacyState, mode: string, curB: int, btns: Buttons): seq<Action>
  {
    var b := BrakePhase(s.(prevP := 0), mode, curB);
    b.acts + ButtonPhase(b.next.(prevP := 0, prevB := curB), btns).acts
  }

  lemma OnsetTickShape(s: LegacyState, mode: string, curP: int, curB: int, btns: Buttons)
    requires s.prevB == 0 && curB > 0
    ensures var t := Tick(s, mode, curP, curB, btns);
      t.acts == [Press(KeyMasconN), Sleep(LegacyRepeatDelay)] + OnsetTail(s, mode, curB, btns) && t.next.prevP == 0
  {
    var o := OnsetPhase(s, curB);
    assert o == Step(s.(prevP := 0), [Press(KeyMasconN), Sleep(LegacyRepeatDelay)]);
    var b := BrakePhase(o.next, mode, curB);
    var p := PowerPhase(b.next, curP, curB);
    assert p == Step(b.next.(prevP := 0), []);
  }

  lemma OnsetTailHasNoNeutral(s: LegacyState, mode: string, curB: int, btns: Buttons)
    ensures Press(KeyMasconN) !in OnsetTail(s, mode, curB, btns)
  {
    var b := BrakePhase(s.(prevP := 0), mode, curB);
    KeyGroupsAreSeparate(Press(KeyMasconN));
    PhaseMembers(s.(prevP := 0), mode, 0, curB, btns);
    PhaseMembers(b.next.(prevP := 0, prevB := curB), mode, 0, curB, btns);
  }

  /** On brake onset exactly one power-neutral press is sent, before
      everything else, and the power is reset to N. */
  lemma OnsetNeutralisesPowerFirst(s: LegacyState, mode: string, curP: int, curB: int, btns: Buttons)
    requires s.prevB == 0 && curB > 0
    ensures var t := Tick(s, mode, curP, curB, btns);
      |t.acts| >= 2 && t.acts[0] == Press(KeyMasconN) && t.acts[1] == Sleep(LegacyRepeatDelay) &&
      multiset(t.acts)[Press(KeyMasconN)] == 1 && t.next.prevP == 0
  {
    OnsetTickShape(s, mode, curP, curB, btns);
    OnsetTailHasNoNeutral(s, mode, curB, btns);
    OnceAtHeadOfTwo(Tick(s, mode, curP, curB, btns).acts, Press(KeyMasconN), Sleep(LegacyRepeatDelay), OnsetTail(s, mode, curB, btns));
  }

  /** Brake-output offset: the onset tap, when there is one, comes first. */
  function OnsetLength(s: LegacyState, curB: int): nat
  {
    if s.prevB == 0 && curB > 0 then 2 else 0
  }

  /** In mode "2" a stage change first releases N, UP and EMG (right after
      any onset tap), and the stage follows the mapping 9→3, 6→1, 8→2, else 0. */
  lemma StageChangeReleasesFirst(s: LegacyState, curP: int, curB: int, btns: Buttons)
    requires StageOf(curB) != s.lastAutoS
    ensures var t := Tick(s, "2", curP, curB, btns);
      var k := OnsetLength(s, curB);
      |t.acts| >= k + 3 && t.acts[k..k + 3] == [KeyUp(KeyBrakeN), KeyUp(KeyBrakeUp), KeyUp(KeyBrakeEmg)] &&
      t.next.lastAutoS == StageOf(curB)
    ensures StageOf(9) == 3 && StageOf(6) == 1 && StageOf(8) == 2 && StageOf(0) == 0
  {
    var o := OnsetPhase(s, curB);
    assert |o.acts| == OnsetLength(s, curB);
    var b := AutoPhase(o.next, curB);
    var releases := [KeyUp(KeyBrakeN), KeyUp(KeyBrakeUp), KeyUp(KeyBrakeEmg)];
    var newS := StageOf(curB);
    var engage := StageKeys(newS, o.next.lastAutoS)[3..];
    assert b.acts == releases + engage;
    var p := PowerPhase(b.next, curP, curB);
    var kk := ButtonPhase(p.next.(prevB := curB), btns);
    assert Tick(s, "2", curP, curB, btns).acts == o.acts + b.acts + p.acts + kk.acts;
    WindowAfterPrefix(Tick(s, "2", curP, curB, btns).acts, o.acts, releases, engage, p.acts, kk.acts);
  }

  /** Held-key invariant of mode "2": UP is held exactly in stage 2, EMG
      exactly in stage 3, and N only in stage 0. */
  predicate AutoHeldMatchesStage(held: set<Key>, lastAutoS: int)
  {
    (KeyBrakeUp in held) == (lastAutoS == 2) && (KeyBrakeEmg in held) == (lastAutoS == 3) &&
    (KeyBrakeN in held ==> lastAutoS == 0)
  }

  lemma StageKeysHeld(held: set<Key>, newS: int, lastS: int)
    requires 0 <= newS <= 3
    ensures AutoHeldMatchesStage(Held(held, StageKeys(newS, lastS)), newS)
  {
    var rel := [KeyUp(KeyBrakeN), KeyUp(KeyBrakeUp), KeyUp(KeyBrakeEmg)];
    var eng := StageKeys(newS, lastS)[3..];
    assert StageKeys(newS, lastS) == rel + eng;
    var h := held - {KeyBrakeN} - {KeyBrakeUp} - {KeyBrakeEmg};
    assert rel[1..] == [KeyUp(KeyBrakeUp), KeyUp(KeyBrakeEmg)] && rel[1..][1..] == [KeyUp(KeyBrakeEmg)] && rel[1..][1..][1..] == [];
    assert Held(held, rel) == Held(held - {KeyBrakeN}, rel[1..]);
    assert Held(held - {KeyBrakeN}, rel[1..]) == Held(held - {KeyBrakeN} - {KeyBrakeUp}, rel[1..][1..]);
    assert Held(held - {KeyBrakeN} - {KeyBrakeUp}, rel[1..][1..]) == Held(h, rel[1..][1..][1..]);
    assert Held(held, rel) == h;
    HeldAppend(held, rel, eng);
    if eng != [] {
      assert eng[1..] == [];
    }
  }

  lemma {:induction false} HeldUntouchedAll(held: set<Key>, acts: seq<Action>, k1: Key, k2: Key, k3: Key)
    requires forall a :: a in acts ==> !Touches(a, k1) && !Touches(a, k2) && !Touches(a, k3)
    ensures (k1 in Held(held, acts)) == (k1 in held)
    ensures (k2 in Held(held, acts)) == (k2 in held)
    ensures (k3 in Held(held, acts)) == (k3 in held)
  {
    HeldUntouched(held, acts, k1);
    HeldUntouched(held, acts, k2);
    HeldUntouched(held, acts, k3);
  }

  /** The automatic-air brake phase moves the held brake keys with the stage. */
  lemma AutoPhaseHeld(held: set<Key>, s: LegacyState, curB: int)
    requires AutoHeldMatchesStage(held, s.lastAutoS)
    ensures var b := AutoPhase(s, curB); AutoHeldMatchesStage(Held(held, b.acts), b.next.lastAutoS)
  {
    if StageOf(curB) != s.lastAutoS {
      StageKeysHeld(held, StageOf(curB), s.lastAutoS);
    }
  }

  /** Mode "2" keeps the held brake keys in line with the stage. */
  lemma AutoHeldKeysFollowStage(held: set<Key>, s: LegacyState, curP: int, curB: int, btns: Buttons)
    requires AutoHeldMatchesStage(held, s.lastAutoS)
    ensures var t := Tick(s, "2", curP, curB, btns);
      AutoHeldMatchesStage(Held(held, t.acts), t.next.lastAutoS)
  {
    var o := OnsetPhase(s, curB);
    var b := AutoPhase(o.next, curB);
    var p := PowerPhase(b.next, curP, curB);
    var k := ButtonPhase(p.next.(prevB := curB), btns);
    var rest := p.acts + k.acts;
    AutoTickFrameKeys(s, curP, curB, btns);
    AutoTickShape(s, curP, curB, btns);
    HeldUntouchedAll(held, o.acts, KeyBrakeN, KeyBrakeUp, KeyBrakeEmg);
    var h1 := Held(held, o.acts);
    assert o.next.lastAutoS == s.lastAutoS;
    AutoPhaseHeld(h1, o.next, curB);
    var h2 := Held(h1, b.acts);
    HeldUntouchedAll(h2, rest, KeyBrakeN, KeyBrakeUp, KeyBrakeEmg);
    HeldAppend3(held, o.acts, b.acts, rest);
  }

  /** A mode "2" pass: onset keys, stage keys, then power and button keys. */
  lemma AutoTickShape(s: LegacyState, curP: int, curB: int, btns: Buttons)
    ensures var o := OnsetPhase(s, curB);
      var b := AutoPhase(o.next, curB);
      var p := PowerPhase(b.next, curP, curB);
      var k := ButtonPhase(p.next.(prevB := curB), btns);
      var t := Tick(s, "2", curP, curB, btns);
      t.acts == o.acts + b.acts + (p.acts + k.acts) && t.next.lastAutoS == b.next.lastAutoS
  {
    var o := OnsetPhase(s, curB);
    var b := AutoPhase(o.next, curB);
    var p := PowerPhase(b.next, curP, curB);
    var k := ButtonPhase(p.next.(prevB := curB), btns);
    assert o.acts + b.acts + p.acts + k.acts == o.acts + b.acts + (p.acts + k.acts);
  }

  /** Around the stage keys of a mode "2" pass, nothing touches N, UP or EMG. */
  lemma AutoTickFrameKeys(s: LegacyState, curP: int, curB: int, btns: Buttons)
    ensures var o := OnsetPhase(s, curB);
      var b := AutoPhase(o.next, curB);
      var p := PowerPhase(b.next, curP, curB);
      var k := ButtonPhase(p.next.(prevB := curB), btns);
      (forall a :: a in o.acts ==> !Touches(a, KeyBrakeN) && !Touches(a, KeyBrakeUp) && !Touches(a, KeyBrakeEmg)) &&
      (forall a :: a in p.acts + k.acts ==> !Touches(a, KeyBrakeN) && !Touches(a, KeyBrakeUp) && !Touches(a, KeyBrakeEmg))
  {
    var o := OnsetPhase(s, curB);
    var b := AutoPhase(o.next, curB);
    var p := PowerPhase(b.next, curP, curB);
    var k := ButtonPhase(p.next.(prevB := curB), btns);
    PhaseMembers(s, "2", curP, curB, btns);
    PhaseMembers(b.next, "2", curP, curB, btns);
    PhaseMembers(p.next.(prevB := curB), "2", curP, curB, btns);
    forall a | a in o.acts ensures !Touches(a, KeyBrakeN) && !Touches(a, KeyBrakeUp) && !Touches(a, KeyBrakeEmg) {
      KeyGroupsAreSeparate(a);
    }
    forall a | a in p.acts + k.acts ensures !Touches(a, KeyBrakeN) && !Touches(a, KeyBrakeUp) && !Touches(a, KeyBrakeEmg) {
      KeyGroupsAreSeparate(a);
    }
  }


  /** The electric brake phase holds the emergency key exactly at 9. */
  lemma ElectricPhaseHeld(held: set<Key>, s: LegacyState, curB: int)
    requires (KeyBrakeEmg in held) == (s.prevB == 9)
    ensures (KeyBrakeEmg in Held(held, ElectricPhase(s, curB).acts)) == (curB == 9)
  {
    var b := ElectricPhase(s, curB);
    if curB == s.prevB {
    } else if curB == 9 {
      assert b.acts[1..] == [];
    } else {
      var c := b.acts[1..];
      assert b.acts == [KeyUp(KeyBrakeEmg)] + c;
      TapCascadeMembers(if curB - s.prevB > 0 then KeyBrakeUp else KeyBrakeDown, LegacyRepeatDelay, Abs(curB - s.prevB));
      assert forall a :: a in c ==> !Touches(a, KeyBrakeEmg);
      assert [KeyUp(KeyBrakeEmg)][1..] == [];
      assert Held(held, [KeyUp(KeyBrakeEmg)]) == held - {KeyBrakeEmg};
      HeldAppend(held, [KeyUp(KeyBrakeEmg)], c);
      HeldUntouched(held - {KeyBrakeEmg}, c, KeyBrakeEmg);
    }
  }

  /** Outside mode "2" the emergency key is held exactly while the brake is at 9. */
  lemma ElectricEmergencyHeld(held: set<Key>, s: LegacyState, mode: string, curP: int, curB: int, btns: Buttons)
    requires mode != "2"
    requires (KeyBrakeEmg in held) == (s.prevB == 9)
    ensures var t := Tick(s, mode, curP, curB, btns);
      (KeyBrakeEmg in Held(held, t.acts)) == (t.next.prevB == 9) && t.next.prevB == curB
  {
    var o := OnsetPhase(s, curB);
    var b := ElectricPhase(o.next, curB);
    var p := PowerPhase(b.next, curP, curB);
    var k := ButtonPhase(p.next.(prevB := curB), btns);
    var rest := p.acts + k.acts;
    PhaseMembers(s, mode, curP, curB, btns);
    PhaseMembers(b.next, mode, curP, curB, btns);
    PhaseMembers(p.next.(prevB := curB), mode, curP, curB, btns);
    forall a | a in o.acts ensures !Touches(a, KeyBrakeEmg) {
      KeyGroupsAreSeparate(a);
    }
    forall a | a in rest ensures !Touches(a, KeyBrakeEmg) {
      KeyGroupsAreSeparate(a);
    }
    HeldUntouched(held, o.acts, KeyBrakeEmg);
    var h1 := Held(held, o.acts);
    ElectricPhaseHeld(h1, o.next, curB);
    var h2 := Held(h1, b.acts);
    HeldUntouched(h2, rest, KeyBrakeEmg);
    HeldAppend(held, o.acts, b.acts);
    HeldAppend(held, o.acts + b.acts, rest);
    assert o.acts + b.acts + rest == Tick(s, mode, curP, curB, btns).acts;
  }

  /** Outside mode "2" a brake change other than emergency starts (after
      any onset tap) by releasing the emergency key. */
  lemma ElectricChangeReleasesEmergencyFirst(s: LegacyState, mode: string, curP: int, curB: int, btns: Buttons)
    requires mode != "2" && curB != s.prevB && curB != 9
    ensures var t := Tick(s, mode, curP, curB, btns);
      var k := OnsetLength(s, curB);
      |t.acts| > k && t.acts[k] == KeyUp(KeyBrakeEmg)
  {
    var o := OnsetPhase(s, curB);
    assert |o.acts| == OnsetLength(s, curB);
    var b := ElectricPhase(o.next, curB);
    assert b.acts == [KeyUp(KeyBrakeEmg)] + b.acts[1..];
    var p := PowerPhase(b.next, curP, curB);
    var kk := ButtonPhase(p.next.(prevB := curB), btns);
    assert Tick(s, mode, curP, curB, btns).acts == o.acts + b.acts + p.acts + kk.acts;
    WindowAfterPrefix(Tick(s, mode, curP, curB, btns).acts, o.acts, [KeyUp(KeyBrakeEmg)], b.acts[1..], p.acts, kk.acts);
  }

  /** While braking the power is believed at N: every pass establishes it
      (the start-up values need not satisfy it). */
  predicate BrakingAtPowerN(s: LegacyState)
  {
    s.prevB > 0 ==> s.prevP == 0
  }

  lemma TickKeepsPowerNWhileBraking(s: LegacyState, mode: string, curP: int, curB: int, btns: Buttons)
    ensures BrakingAtPowerN(Tick(s, mode, curP, curB, btns).next)
  {
  }

  lemma OnsetDrives(s: LegacyState, curB: int)
    ensures var o := OnsetPhase(s, curB); Drive(s.prevP, o.acts, Jrets.MasconEffect) == o.next.prevP
  {
    if s.prevB == 0 && curB > 0 {
      DriveOne(s.prevP, Press(KeyMasconN), Jrets.MasconEffect);
      DriveOne(0, Sleep(LegacyRepeatDelay), Jrets.MasconEffect);
      DriveAppend(s.prevP, [Press(KeyMasconN)], [Sleep(LegacyRepeatDelay)], Jrets.MasconEffect);
      assert OnsetPhase(s, curB).acts == [Press(KeyMasconN)] + [Sleep(LegacyRepeatDelay)];
    }
  }

  lemma PowerPhaseDrives(s: LegacyState, curP: int, curB: int)
    requires curB > 0 ==> s.prevP == 0
    ensures var p := PowerPhase(s, curP, curB); Drive(s.prevP, p.acts, Jrets.MasconEffect) == p.next.prevP
  {
    if curB <= 0 && curP != s.prevP {
      if curP == 0 {
        DriveOne(s.prevP, Press(KeyMasconN), Jrets.MasconEffect);
      } else if curP > s.prevP {
        DriveTaps(s.prevP, KeyMasconUp, LegacyRepeatDelay, curP - s.prevP, 1, Jrets.MasconEffect);
      } else {
        DriveTaps(s.prevP, KeyMasconDown, LegacyRepeatDelay, s.prevP - curP, -1, Jrets.MasconEffect);
      }
    }
  }

  /** A game whose power handle started at `prevP` ends at the new `prevP`,
      in either mode, once the power is believed at N while braking. */
  lemma PowerTracksGame(s: LegacyState, mode: string, curP: int, curB: int, btns: Buttons)
    requires BrakingAtPowerN(s) && s.prevB >= 0
    ensures var t := Tick(s, mode, curP, curB, btns);
      Drive(s.prevP, t.acts, Jrets.MasconEffect) == t.next.prevP
  {
    var o := OnsetPhase(s, curB);
    var b := BrakePhase(o.next, mode, curB);
    var p := PowerPhase(b.next, curP, curB);
    var k := ButtonPhase(p.next.(prevB := curB), btns);
    PhaseMembers(o.next, mode, curP, curB, btns);
    PhaseMembers(p.next.(prevB := curB), mode, curP, curB, btns);
    OnsetDrives(s, curB);
    forall a | a in b.acts ensures Jrets.MasconEffect(a) == NoEffect {
      KeyGroupsAreSeparate(a);
    }
    forall a | a in k.acts ensures Jrets.MasconEffect(a) == NoEffect {
      KeyGroupsAreSeparate(a);
    }
    DriveIgnored(o.next.prevP, b.acts, Jrets.MasconEffect);
    assert b.next.prevP == o.next.prevP;
    PowerPhaseDrives(b.next, curP, curB);
    DriveIgnored(p.next.prevP, k.acts, Jrets.MasconEffect);
    DriveAppend(s.prevP, o.acts, b.acts, Jrets.MasconEffect);
    DriveAppend(s.prevP, o.acts + b.acts, p.acts, Jrets.MasconEffect);
    DriveAppend(s.prevP, o.acts + b.acts + p.acts, k.acts, Jrets.MasconEffect);
  }

  lemma ElectricPhaseDrives(s: LegacyState, curB: int)
    ensures Drive(s.prevB, ElectricPhase(s, curB).acts, BrakeEffect) == curB
  {
    var b := ElectricPhase(s, curB);
    if curB == 9 && curB != s.prevB {
      DriveOne(s.prevB, KeyDown(KeyBrakeEmg), BrakeEffect);
    } else if curB != s.prevB {
      var c := b.acts[1..];
      assert b.acts == [KeyUp(KeyBrakeEmg)] + c;
      DriveOne(s.prevB, KeyUp(KeyBrakeEmg), BrakeEffect);
      DriveAppend(s.prevB, [KeyUp(KeyBrakeEmg)], c, BrakeEffect);
      if curB == 0 {
        DriveOne(s.prevB, Press(KeyBrakeN), BrakeEffect);
      } else if curB > s.prevB {
        DriveTaps(s.prevB, KeyBrakeUp, LegacyRepeatDelay, curB - s.prevB, 1, BrakeEffect);
      } else {
        DriveTaps(s.prevB, KeyBrakeDown, LegacyRepeatDelay, s.prevB - curB, -1, BrakeEffect);
      }
    }
  }

  /** Outside mode "2", a game whose brake handle started at `prevB` ends
      at the new `prevB`. */
  lemma ElectricBrakeTracksGame(s: LegacyState, mode: string, curP: int, curB: int, btns: Buttons)
    requires mode != "2"
    ensures var t := Tick(s, mode, curP, curB, btns);
      Drive(s.prevB, t.acts, BrakeEffect) == t.next.prevB
  {
    var o := OnsetPhase(s, curB);
    var b := ElectricPhase(o.next, curB);
    var p := PowerPhase(b.next, curP, curB);
    var k := ButtonPhase(p.next.(prevB := curB), btns);
    var rest := p.acts + k.acts;
    PhaseMembers(s, mode, curP, curB, btns);
    PhaseMembers(b.next, mode, curP, curB, btns);
    PhaseMembers(p.next.(prevB := curB), mode, curP, curB, btns);
    forall a | a in o.acts ensures BrakeEffect(a) == NoEffect {
      KeyGroupsAreSeparate(a);
    }
    forall a | a in rest ensures BrakeEffect(a) == NoEffect {
      KeyGroupsAreSeparate(a);
    }
    DriveIgnored(s.prevB, o.acts, BrakeEffect);
    ElectricPhaseDrives(o.next, curB);
    DriveIgnored(curB, rest, BrakeEffect);
    DriveAppend(s.prevB, o.acts, b.acts, BrakeEffect);
    DriveAppend(s.prevB, o.acts + b.acts, rest, BrakeEffect);
    assert o.acts + b.acts + rest == Tick(s, mode, curP, curB, btns).acts;
  }

  /** The keys of a pass before its button keys. */
  function HandleActs(s: LegacyState, mode: string, curP: int, curB: int): seq<Action>
  {
    var o := OnsetPhase(s, curB);
    var b := BrakePhase(o.next, mode, curB);
    o.acts + b.acts + PowerPhase(b.next, curP, curB).acts
  }

  lemma TickSplitsAtButtons(s: LegacyState, mode: string, curP: int, curB: int, btns: Buttons)
    ensures Tick(s, mode, curP, curB, btns).acts ==
      HandleActs(s, mode, curP, curB) + LatchEdge(s.pStart, btns[9], KeyStart) + LatchEdge(s.pSelect, btns[10], KeySelect)
    ensures Tick(s, mode, curP, curB, btns).next.pStart == btns[9] && Tick(s, mode, curP, curB, btns).next.pSelect == btns[10]
  {
    var o := OnsetPhase(s, curB);
    var b := BrakePhase(o.next, mode, curB);
    var p := PowerPhase(b.next, curP, curB);
    var q := p.next.(prevB := curB);
    assert q.pStart == s.pStart && q.pSelect == s.pSelect;
  }

  lemma HandleActsTouchNoButton(s: LegacyState, mode: string, curP: int, curB: int)
    ensures forall a :: a in HandleActs(s, mode, curP, curB) ==> !Touches(a, KeyStart) && !Touches(a, KeySelect)
  {
    var o := OnsetPhase(s, curB);
    var b := BrakePhase(o.next, mode, curB);
    var btns: Buttons := seq(17, i => false);
    PhaseMembers(s, mode, curP, curB, btns);
    PhaseMembers(o.next, mode, curP, curB, btns);
    PhaseMembers(b.next, mode, curP, curB, btns);
    forall a | a in HandleActs(s, mode, curP, curB) ensures !Touches(a, KeyStart) && !Touches(a, KeySelect) {
      KeyGroupsAreSeparate(a);
    }
  }

  /** Start and select are held exactly while their latches are set, and the
      latches follow buttons 9 and 10. */
  lemma LatchesMatchHeldKeys(held: set<Key>, s: LegacyState, mode: string, curP: int, curB: int, btns: Buttons)
    requires (KeyStart in held) == s.pStart && (KeySelect in held) == s.pSelect
    ensures var t := Tick(s, mode, curP, curB, btns);
      (KeyStart in Held(held, t.acts)) == t.next.pStart && (KeySelect in Held(held, t.acts)) == t.next.pSelect &&
      t.next.pStart == btns[9] && t.next.pSelect == btns[10]
  {
    var front := HandleActs(s, mode, curP, curB);
    var e1 := LatchEdge(s.pStart, btns[9], KeyStart);
    var e2 := LatchEdge(s.pSelect, btns[10], KeySelect);
    TickSplitsAtButtons(s, mode, curP, curB, btns);
    HandleActsTouchNoButton(s, mode, curP, curB);
    LatchPairTracksButtons(held, front, s.pStart, btns[9], KeyStart, s.pSelect, btns[10], KeySelect);
    assert front + e1 + e2 == front + (e1 + e2);
  }

  /** A second pass with the same values sends nothing and changes nothing. */
  lemma TickIsIdempotent(s: LegacyState, mode: string, curP: int, curB: int, btns: Buttons)
    ensures var t := Tick(s, mode, curP, curB, btns);
      Tick(t.next, mode, curP, curB, btns) == Step(t.next, [])
  {
    var t := Tick(s, mode, curP, curB, btns);
    assert t.next.prevB == curB;
    assert mode == "2" ==> t.next.lastAutoS == StageOf(curB);
    assert curB <= 0 ==> t.next.prevP == curP;
  }

  /** The start-up values: the power notch read once (0 when undefined) and,
      in mode "1", the electric notch (0 when undefined, 0 outside mode "1"). */
  lemma InitialLoopValues(mode: string, first: Reading, now: int)
    ensures var st := InitialLoop(mode, first, now);
      0 <= st.tick.prevP <= 5 && 0 <= st.tick.prevB <= 9 &&
      (mode != "1" ==> st.tick.prevB == 0) &&
      st.brake.confirmed == st.tick.prevB && st.mascon.confirmed == st.tick.prevP &&
      st.tick.lastAutoS == 0 && !st.tick.pStart && !st.tick.pSelect
  {
    MasconLevelMapIsBijection();
    ElectricBrakeMapShape();
    var p0 := Get(MasconLevelMap, first.pPat, 0);
    assert first.pPat in MasconLevelMap ==> MasconLevelMap[first.pPat] in MasconLevelMap.Values;
    assert first.bVal in ElectricBrakeMap ==> ElectricBrakeMap[first.bVal] in ElectricBrakeMap.Values;
  }

  /** The whole script: both filters and the loop variables. */
  class LegacyConverter {
    const mode: string
    const masconFilter: StableNotchReader
    const brakeFilter: StableNotchReader
    var prevP: int
    var prevB: int
    var lastAutoS: int
    var pStart: bool
    var pSelect: bool

    predicate Valid()
      reads this
    {
      masconFilter != brakeFilter
    }

    function View(): LoopState
      reads this, masconFilter, brakeFilter
    {
      LoopState(LegacyState(prevP, prevB, lastAutoS, pStart, pSelect), brakeFilter.View(), masconFilter.View())
    }

    /** Start-up: read once, seed both filters, zero the rest. */
    constructor (m: string, first: Reading, now: int)
      ensures Valid() && fresh(masconFilter) && fresh(brakeFilter)
      ensures mode == m && View() == InitialLoop(m, first, now)
    {
      var initP := Get(MasconLevelMap, first.pPat, 0);
      initP := if initP == Undefined then 0 else initP;
      var initB := if m == "1" then Get(ElectricBrakeMap, first.bVal, 0) else 0;
      mode := m;
      masconFilter := new StableNotchReader(initP, now);
      brakeFilter := new StableNotchReader(initB, now);
      prevP, prevB := initP, initB;
      lastAutoS := 0;
      pStart, pSelect := false, false;
    }

    /** One pass of the loop. */
    method Pass(r: Reading, now: int) returns (acts: seq<Action>)
      requires Valid()
      modifies this, masconFilter, brakeFilter
      ensures Valid()
      ensures Step(View(), acts) == Loop(old(View()), mode, r, now)
    {
      var rawB := if mode == "1" then Get(ElectricBrakeMap, r.bVal, Undefined) else Get(AutoBrakeMap, r.bVal, Undefined);
      var rawP := Get(MasconLevelMap, r.pPat, Undefined);
      var curB := brakeFilter.Update(rawB, now);
      var curP := masconFilter.Update(rawP, now);
      acts := TickOnce(curP, curB, r.btns);
    }

    /** One body of the main loop after the filters: the brake-onset neutral
        press, the brake output, the power output and the button latches. */
    method TickOnce(curP: int, curB: int, btns: Buttons) returns (acts: seq<Action>)
      modifies this
      ensures var t := Tick(old(View()).tick, mode, curP, curB, btns);
        View().tick == t.next && acts == t.acts
    {
      ghost var o := OnsetPhase(View().tick, curB);
      acts := [];
      if prevB == 0 && curB > 0 {
        acts := acts + [Press(KeyMasconN), Sleep(LegacyRepeatDelay)];
        prevP := 0;
      }
      assert View().tick == o.next && acts == o.acts;
      ghost var b := BrakePhase(o.next, mode, curB);
      var brakeActs := BrakeOutput(curB);
      assert View().tick == b.next && brakeActs == b.acts;
      ghost var p := PowerPhase(b.next, curP, curB);
      var powerActs := PowerOutput(curP, curB);
      assert View().tick == p.next && powerActs == p.acts;
      prevB := curB;
      assert View().tick == p.next.(prevB := curB);
      var buttonActs := HandleButtons(btns);
      acts := acts + brakeActs + powerActs + buttonActs;
    }

    method BrakeOutput(curB: int) returns (acts: seq<Action>)
      modifies this
      ensures var b := BrakePhase(old(View()).tick, mode, curB); View().tick == b.next && acts == b.acts
    {
      acts := [];
      if mode == "2" {
        var newS := if curB == 9 then 3 else (if curB == 6 then 1 else (if curB == 8 then 2 else 0));
        if newS != lastAutoS {
          acts := acts + [KeyUp(KeyBrakeN), KeyUp(KeyBrakeUp), KeyUp(KeyBrakeEmg)];
          if newS == 0 {
            acts := acts + [KeyDown(KeyBrakeN)];
          } else if newS == 1 {
            if lastAutoS == 0 {
              acts := acts + [Press(KeyBrakeUp)];
            }
          } else if newS == 2 {
            acts := acts + [KeyDown(KeyBrakeUp)];
          } else if newS == 3 {
            acts := acts + [KeyDown(KeyBrakeEmg)];
          }
          lastAutoS := newS;
        }
      } else {
        if curB != prevB {
          if curB == 9 {
            acts := acts + [KeyDown(KeyBrakeEmg)];
          } else {
            acts := acts + [KeyUp(KeyBrakeEmg)];
            if curB == 0 {
              acts := acts + [Press(KeyBrakeN)];
            } else {
              var diff := curB - prevB;
              var taps := RepeatTap(if diff > 0 then KeyBrakeUp else KeyBrakeDown, Abs(diff), LegacyRepeatDelay);
              acts := acts + taps;
            }
          }
        }
      }
    }

    method PowerOutput(curP: int, curB: int) returns (acts: seq<Action>)
      modifies this
      ensures var p := PowerPhase(old(View()).tick, curP, curB); View().tick == p.next && acts == p.acts
    {
      acts := [];
      if curB > 0 {
        prevP := 0;
      } else {
        if curP != prevP {
          if curP == 0 {
            acts := [Press(KeyMasconN)];
          } else {
            var diff := curP - prevP;
            acts := RepeatTap(if diff > 0 then KeyMasconUp else KeyMasconDown, Abs(diff), LegacyRepeatDelay);
          }
          prevP := curP;
        }
      }
    }

    method HandleButtons(btns: Buttons) returns (acts: seq<Action>)
      modifies this
      ensures var k := ButtonPhase(old(View()).tick, btns); View().tick == k.next && acts == k.acts
    {
      var isStart, isSelect := btns[9], btns[10];
      acts := [];
      if isStart != pStart {
        acts := acts + (if isStart then [KeyDown(KeyStart)] else [KeyUp(KeyStart)]);
        pStart := isStart;
      }
      if isSelect != pSelect {
        acts := acts + (if isSelect then [KeyDown(KeySelect)] else [KeyUp(KeySelect)]);
        pSelect := isSelect;
      }
    }
  }
}
