/** The keystroke-injection primitive and the blocking sleeps, as values.
    Every call a translator makes to keyDown, keyUp or press, and every
    sleep, becomes one Action appended to the tick's output. Two reference
    models interpret such an output: Drive (what an idealised receiving game
    does with the notch keys) and Held (which keys are left held down). */
module Keyboard {
  import opened Const

  datatype Action = KeyDown(key: Key) | KeyUp(key: Key) | Press(key: Key) | Sleep(ms: nat)

  /** The result of one translator call: its new state and what it emitted. */
  datatype Step<S> = Step(next: S, acts: seq<Action>)

  /** One cascaded press of the one-handle targets: press, then wait. */
  function Tap(key: Key, delay: nat): seq<Action>
  {
    [Press(key), Sleep(delay)]
  }

  /** The axis-unified targets' emulated press: hold, wait, release, wait. */
  function PressEmu(key: Key): seq<Action>
  {
    [KeyDown(key), Sleep(Pcsx2PressDuration), KeyUp(key), Sleep(Pcsx2ReleaseDuration)]
  }

  /** `n` copies of `block`, one after the other. */
  function Repeat(block: seq<Action>, n: nat): seq<Action>
  {
    if n == 0 then [] else Repeat(block, n - 1) + block
  }

  lemma {:induction false} RepeatLength(block: seq<Action>, n: nat)
    ensures |Repeat(block, n)| == n * |block|
  {
    if n > 0 {
      RepeatLength(block, n - 1);
    }
  }

  /** Every action of a repetition comes from the repeated block. */
  lemma {:induction false} RepeatMembers(block: seq<Action>, n: nat)
    ensures forall a :: a in Repeat(block, n) ==> a in block
  {
    if n > 0 {
      RepeatMembers(block, n - 1);
    }
  }

  /** A cascade of taps holds nothing but presses of its key and its sleeps. */
  lemma TapCascadeMembers(key: Key, delay: nat, n: nat)
    ensures forall a :: a in Repeat(Tap(key, delay), n) ==> a == Press(key) || a == Sleep(delay)
  {
    RepeatMembers(Tap(key, delay), n);
  }

  /** A cascade of emulated presses holds nothing but its key's down and up and the two sleeps. */
  lemma PressEmuCascadeMembers(key: Key, n: nat)
    ensures forall a :: a in Repeat(PressEmu(key), n) ==>
      a == KeyDown(key) || a == KeyUp(key) || a == Sleep(Pcsx2PressDuration) || a == Sleep(Pcsx2ReleaseDuration)
  {
    RepeatMembers(PressEmu(key), n);
  }

  /** Driving through a single action applies its effect. */
  lemma DriveOne(pos: int, a: Action, effect: Action -> Effect)
    ensures Drive(pos, [a], effect) == ApplyEffect(pos, effect(a))
  {
    assert [a][1..] == [];
  }

  /** A `for _ in range(n): press(key); sleep(delay)` loop. */
  method RepeatTap(key: Key, n: nat, delay: nat) returns (acts: seq<Action>)
    ensures acts == Repeat(Tap(key, delay), n)
  {
    acts := [];
    for i := 0 to n
      invariant acts == Repeat(Tap(key, delay), i)
    {
      acts := acts + [Press(key)];
      acts := acts + [Sleep(delay)];
    }
  }

  /** A `for _ in range(n): press_emu(key)` loop. */
  method RepeatPressEmu(key: Key, n: nat) returns (acts: seq<Action>)
    ensures acts == Repeat(PressEmu(key), n)
  {
    acts := [];
    for i := 0 to n
      invariant acts == Repeat(PressEmu(key), i)
    {
      acts := acts + [KeyDown(key), Sleep(Pcsx2PressDuration)];
      acts := acts + [KeyUp(key), Sleep(Pcsx2ReleaseDuration)];
    }
  }

  /** An action that heads a sequence and does not occur in the rest occurs exactly once. */
  lemma OnceAtHead(w: seq<Action>, x: Action, rest: seq<Action>)
    requires w == [x] + rest && x !in rest
    ensures |w| > 0 && w[0] == x && w[1..] == rest && multiset(w)[x] == 1
  {
    assert multiset(w) == multiset([x]) + multiset(rest);
  }

  /** The same for a sequence headed by two actions, the first not occurring again. */
  lemma OnceAtHeadOfTwo(w: seq<Action>, x: Action, y: Action, rest: seq<Action>)
    requires w == [x, y] + rest && x != y && x !in rest
    ensures |w| >= 2 && w[0] == x && w[1] == y && multiset(w)[x] == 1
  {
    assert w == [x] + ([y] + rest);
    OnceAtHead(w, x, [y] + rest);
  }

  /** In a sequence built as `pre + (mid + b) + c + d`, `mid` sits right after `pre`. */
  lemma WindowAfterPrefix(w: seq<Action>, pre: seq<Action>, mid: seq<Action>, b: seq<Action>, c: seq<Action>, d: seq<Action>)
    requires w == pre + (mid + b) + c + d
    ensures |w| >= |pre| + |mid| && w[|pre|..|pre| + |mid|] == mid
  {
    assert w == pre + (mid + (b + c + d));
  }

  // ---- receiver model: what the keys do to a game's notch counter ----

  datatype Effect = NoEffect | Move(delta: int) | Jump(to: int)

  function ApplyEffect(pos: int, e: Effect): int
  {
    match e
    case NoEffect => pos
    case Move(d) => pos + d
    case Jump(t) => t
  }

  /** The position of a game handle, starting at `pos`, after it receives `acts`. */
  function Drive(pos: int, acts: seq<Action>, effect: Action -> Effect): int
    decreases |acts|
  {
    if acts == [] then pos else Drive(ApplyEffect(pos, effect(acts[0])), acts[1..], effect)
  }

  lemma {:induction false} DriveAppend(pos: int, a: seq<Action>, b: seq<Action>, effect: Action -> Effect)
    ensures Drive(pos, a + b, effect) == Drive(Drive(pos, a, effect), b, effect)
    decreases |a|
  {
    if a == [] {
      assert a + b == b;
    } else {
      assert (a + b)[0] == a[0] && (a + b)[1..] == a[1..] + b;
      DriveAppend(ApplyEffect(pos, effect(a[0])), a[1..], b, effect);
    }
  }

  /** Actions the receiver ignores leave its handle where it was. */
  lemma {:induction false} DriveIgnored(pos: int, acts: seq<Action>, effect: Action -> Effect)
    requires forall a :: a in acts ==> effect(a) == NoEffect
    ensures Drive(pos, acts, effect) == pos
    decreases |acts|
  {
    if acts != [] {
      assert acts[0] in acts;
      assert forall a :: a in acts[1..] ==> a in acts;
      DriveIgnored(pos, acts[1..], effect);
    }
  }

  /** A block that moves the handle by `delta`, repeated `n` times, moves it by `n * delta`. */
  lemma {:induction false} DriveRepeat(pos: int, block: seq<Action>, n: nat, delta: int, effect: Action -> Effect)
    requires forall q :: Drive(q, block, effect) == q + delta
    ensures Drive(pos, Repeat(block, n), effect) == pos + n * delta
  {
    if n > 0 {
      DriveRepeat(pos, block, n - 1, delta, effect);
      DriveAppend(pos, Repeat(block, n - 1), block, effect);
      assert (n - 1) * delta + delta == n * delta;
    }
  }

  /** `n` taps of a key that moves the handle by `delta` move it by `n * delta`. */
  lemma DriveTaps(pos: int, key: Key, delay: nat, n: nat, delta: int, effect: Action -> Effect)
    requires effect(Press(key)) == Move(delta) && effect(Sleep(delay)) == NoEffect
    ensures Drive(pos, Repeat(Tap(key, delay), n), effect) == pos + n * delta
  {
    forall q ensures Drive(q, Tap(key, delay), effect) == q + delta {
      var t := Tap(key, delay);
      assert t[1..] == [Sleep(delay)] && t[1..][1..] == [];
      assert Drive(q, t, effect) == Drive(q + delta, t[1..], effect);
      assert Drive(q + delta, t[1..], effect) == Drive(q + delta, [], effect);
    }
    DriveRepeat(pos, Tap(key, delay), n, delta, effect);
  }

  /** An emulated press acts on the receiver through its key-down alone. */
  lemma DrivePressEmu(pos: int, key: Key, effect: Action -> Effect)
    requires effect(KeyUp(key)) == NoEffect
    requires effect(Sleep(Pcsx2PressDuration)) == NoEffect && effect(Sleep(Pcsx2ReleaseDuration)) == NoEffect
    ensures Drive(pos, PressEmu(key), effect) == ApplyEffect(pos, effect(KeyDown(key)))
  {
    var e := PressEmu(key);
    var q := ApplyEffect(pos, effect(KeyDown(key)));
    assert e[1..] == [Sleep(Pcsx2PressDuration), KeyUp(key), Sleep(Pcsx2ReleaseDuration)];
    assert e[1..][1..] == [KeyUp(key), Sleep(Pcsx2ReleaseDuration)];
    assert e[1..][1..][1..] == [Sleep(Pcsx2ReleaseDuration)];
    assert e[1..][1..][1..][1..] == [];
    assert Drive(pos, e, effect) == Drive(q, e[1..], effect);
    assert Drive(q, e[1..], effect) == Drive(q, e[1..][1..], effect);
    assert Drive(q, e[1..][1..], effect) == Drive(q, e[1..][1..][1..], effect);
    assert Drive(q, e[1..][1..][1..], effect) == Drive(q, e[1..][1..][1..][1..], effect);
  }

  /** `n` emulated presses of a key that moves the handle by `delta` on key-down move it by `n * delta`. */
  lemma DriveEmuPresses(pos: int, key: Key, n: nat, delta: int, effect: Action -> Effect)
    requires effect(KeyDown(key)) == Move(delta) && effect(KeyUp(key)) == NoEffect
    requires effect(Sleep(Pcsx2PressDuration)) == NoEffect && effect(Sleep(Pcsx2ReleaseDuration)) == NoEffect
    ensures Drive(pos, Repeat(PressEmu(key), n), effect) == pos + n * delta
  {
    forall q ensures Drive(q, PressEmu(key), effect) == q + delta {
      DrivePressEmu(q, key, effect);
    }
    DriveRepeat(pos, PressEmu(key), n, delta, effect);
  }

  // ---- held-key model: which keys are down after a sequence of actions ----

  /** Whether an action touches key `k` (sleeps touch nothing). */
  predicate Touches(a: Action, k: Key)
  {
    !a.Sleep? && a.key == k
  }

  /** The keys held down after one action; a press leaves its key released. */
  function HeldAfter(held: set<Key>, a: Action): set<Key>
  {
    match a
    case KeyDown(k) => held + {k}
    case KeyUp(k) => held - {k}
    case Press(k) => held - {k}
    case Sleep(_) => held
  }

  /** The keys held down after `acts`, starting from `held`. */
  function Held(held: set<Key>, acts: seq<Action>): set<Key>
    decreases |acts|
  {
    if acts == [] then held
    else
      Held(HeldAfter(held, acts[0]), acts[1..])
  }

  lemma {:induction false} HeldAppend(held: set<Key>, a: seq<Action>, b: seq<Action>)
    ensures Held(held, a + b) == Held(Held(held, a), b)
    decreases |a|
  {
    if a == [] {
      assert a + b == b;
    } else {
      assert (a + b)[0] == a[0] && (a + b)[1..] == a[1..] + b;
      HeldAppend(HeldAfter(held, a[0]), a[1..], b);
    }
  }

  lemma HeldAppend3(held: set<Key>, a: seq<Action>, b: seq<Action>, c: seq<Action>)
    ensures Held(held, a + b + c) == Held(Held(Held(held, a), b), c)
  {
    HeldAppend(held, a + b, c);
    HeldAppend(held, a, b);
  }

  /** An emulated press leaves its key released and every other key as it was. */
  lemma HeldPressEmu(held: set<Key>, key: Key)
    ensures Held(held, PressEmu(key)) == held - {key}
  {
    var e := PressEmu(key);
    assert e[1..][1..][1..][1..] == [];
    assert Held(held, e) == Held(held + {key}, e[1..]);
    assert Held(held + {key}, e[1..]) == Held(held + {key}, e[1..][1..]);
    assert Held(held + {key}, e[1..][1..]) == Held(held + {key} - {key}, e[1..][1..][1..]);
    assert held + {key} - {key} == held - {key};
  }

  /** A cascade of emulated presses releases its key (if there is at least one press). */
  lemma {:induction false} HeldPressEmuCascade(held: set<Key>, key: Key, n: nat)
    ensures Held(held, Repeat(PressEmu(key), n)) == if n == 0 then held else held - {key}
  {
    if n > 0 {
      HeldPressEmuCascade(held, key, n - 1);
      HeldAppend(held, Repeat(PressEmu(key), n - 1), PressEmu(key));
      HeldPressEmu(Held(held, Repeat(PressEmu(key), n - 1)), key);
    }
  }

  /** Sleeps hold and release nothing. */
  lemma HeldSleep(held: set<Key>, ms: nat)
    ensures Held(held, [Sleep(ms)]) == held
  {
    assert [Sleep(ms)][1..] == [];
  }

  /** A key that no action touches keeps its held state. */
  lemma {:induction false} HeldUntouched(held: set<Key>, acts: seq<Action>, k: Key)
    requires forall a :: a in acts ==> !Touches(a, k)
    ensures (k in Held(held, acts)) == (k in held)
    decreases |acts|
  {
    if acts != [] {
      assert acts[0] in acts;
      assert forall a :: a in acts[1..] ==> a in acts;
      HeldUntouched(HeldAfter(held, acts[0]), acts[1..], k);
    }
  }
}
