// The key-dispatch loop of the straight-key emulator, as a function on the
// session state: one iteration takes at most one key and either sounds an
// element, adjusts the speed, quits, or idles. The blocking waits of the
// program become duration events appended to a trace.

module ControlLoop {
  import opened Timing

  datatype Option<T> = None | Some(value: T)

  /** A timed request to the outside world: hold the tone, stay silent, or
      take the idle pause between polls, each for `ms` milliseconds. */
  datatype Event = Sound(ms: int) | Silence(ms: int) | Idle(ms: int)

  /** The key bindings. */
  const DotKey: char := 'z'
  const DashKey: char := 'x'
  const SpeedUpKey: char := '+'
  const SpeedDownKey: char := '-'
  const QuitKey: char := 'q'

  /** Everything the loop changes: the speed setting, whether the loop has
      been left, and the timed events requested so far. */
  datatype Session = Session(wpm: int, terminated: bool, trace: seq<Event>)

  /** The session at start-up: 12 wpm, inside the range, nothing requested. */
  function Initial(): (s: Session)
    ensures Valid(s) && !s.terminated && s.trace == []
    ensures s.wpm == InitialWpm
  {
    Session(InitialWpm, false, [])
  }

  /** The speed setting is inside the range the adjustments keep it in. */
  predicate Valid(s: Session)
  {
    MinWpm <= s.wpm <= MaxWpm
  }

  /** `+`: increment, then clamp at the top of the range, so the result is
      min(wpm + 1, 60). */
  function SpeedUp(wpm: int): (r: int)
    ensures r <= MaxWpm && (MinWpm <= wpm ==> MinWpm <= r)
    ensures wpm < MaxWpm ==> r == wpm + 1
    ensures wpm >= MaxWpm ==> r == MaxWpm
  {
    if wpm + 1 > MaxWpm then MaxWpm else wpm + 1
  }

  /** `-`: decrement, but only while above the bottom of the range, so the
      result is max(wpm - 1, 1) for a speed that is at least 1. */
  function SpeedDown(wpm: int): (r: int)
    ensures r <= wpm && (wpm <= MaxWpm ==> r <= MaxWpm)
    ensures wpm > MinWpm ==> r == wpm - 1
    ensures wpm <= MinWpm ==> r == wpm
  {
    if wpm > MinWpm then wpm - 1 else wpm
  }

  /** One iteration of the loop, for a session that has not quit. A dot or a
      dash is one sounded element followed by a one-unit gap, both at the speed
      read when the key is taken; a poll without a key is the idle pause. */
  function Dispatch(s: Session, input: Option<char>): (r: Session)
    requires !s.terminated
    ensures |s.trace| <= |r.trace| && r.trace[..|s.trace|] == s.trace
    ensures Valid(s) ==> Valid(r)
    ensures r.terminated <==> input == Some(QuitKey)
  {
    match input
    case None => s.(trace := s.trace + [Idle(IdlePollMs)])
    case Some(c) =>
      if c == DotKey then
        s.(trace := s.trace + [Sound(DotLength(s.wpm)), Silence(GapLength(s.wpm))])
      else if c == DashKey then
        s.(trace := s.trace + [Sound(DashLength(s.wpm)), Silence(GapLength(s.wpm))])
      else if c == SpeedUpKey then
        s.(wpm := SpeedUp(s.wpm))
      else if c == SpeedDownKey then
        s.(wpm := SpeedDown(s.wpm))
      else if c == QuitKey then
        s.(terminated := true)
      else
        s
  }

  /** The loop driven by a sequence of polls: it runs until the inputs are
      exhausted or a quit has been taken, after which nothing is read. */
  function Loop(s: Session, inputs: seq<Option<char>>): (r: Session)
    ensures |s.trace| <= |r.trace| && r.trace[..|s.trace|] == s.trace
    ensures Valid(s) ==> Valid(r)
    ensures s.terminated ==> r == s
    decreases |inputs|
  {
    if s.terminated || inputs == [] then s
    else Loop(Dispatch(s, inputs[0]), inputs[1..])
  }

  /** How many polls the loop takes from `inputs` before it stops. */
  function Consumed(s: Session, inputs: seq<Option<char>>): (n: nat)
    ensures n <= |inputs|
    ensures s.terminated ==> n == 0
    decreases |inputs|
  {
    if s.terminated || inputs == [] then 0
    else 1 + Consumed(Dispatch(s, inputs[0]), inputs[1..])
  }

  // ---------------------------------------------------------------------
  // What each key does

  /** `z` and `x` append one sounded element of one or three units and then a
      one-unit gap, all at the current speed, and leave the speed alone. */
  lemma ElementKeys(s: Session)
    requires !s.terminated
    ensures Dispatch(s, Some(DotKey)) ==
      Session(s.wpm, false, s.trace + [Sound(DotLength(s.wpm)), Silence(DotLength(s.wpm))])
    ensures Dispatch(s, Some(DashKey)) ==
      Session(s.wpm, false, s.trace + [Sound(3 * DotLength(s.wpm)), Silence(DotLength(s.wpm))])
  {
  }

  /** `+` gives min(wpm + 1, 60), `-` lowers the speed by one only above 1;
      neither requests any timed event. */
  lemma SpeedKeys(s: Session)
    requires !s.terminated && Valid(s)
    ensures Dispatch(s, Some(SpeedUpKey)).wpm == if s.wpm < MaxWpm then s.wpm + 1 else MaxWpm
    ensures Dispatch(s, Some(SpeedDownKey)).wpm == if s.wpm > MinWpm then s.wpm - 1 else MinWpm
    ensures Dispatch(s, Some(SpeedUpKey)).trace == s.trace
    ensures Dispatch(s, Some(SpeedDownKey)).trace == s.trace
  {
  }

  /** The clamps saturate: `+` at 60 stays at 60 and `-` at 1 stays at 1. */
  lemma ClampsSaturate(s: Session)
    requires !s.terminated
    ensures s.wpm == MaxWpm ==> Dispatch(s, Some(SpeedUpKey)) == s
    ensures s.wpm == MinWpm ==> Dispatch(s, Some(SpeedDownKey)) == s
  {
  }

  /** `q` only sets the terminated flag, and every later poll is ignored. */
  lemma QuitStops(s: Session, rest: seq<Option<char>>)
    requires !s.terminated
    ensures Loop(s, [Some(QuitKey)] + rest) == s.(terminated := true)
    ensures Consumed(s, [Some(QuitKey)] + rest) == 1
  {
    assert ([Some(QuitKey)] + rest)[1..] == rest;
  }

  /** Any key outside the five bindings changes nothing. */
  lemma OtherKeysIgnored(s: Session, c: char)
    requires !s.terminated
    requires c !in {DotKey, DashKey, SpeedUpKey, SpeedDownKey, QuitKey}
    ensures Dispatch(s, Some(c)) == s
  {
  }

  /** A poll with no key only requests the 10 ms idle pause. */
  lemma NoKeyIdles(s: Session)
    requires !s.terminated
    ensures Dispatch(s, None) == Session(s.wpm, false, s.trace + [Idle(IdlePollMs)])
  {
  }

  // ---------------------------------------------------------------------
  // Whole sessions

  /** Running `a` and then `b` is running `a + b`. */
  lemma {:induction false} LoopConcat(s: Session, a: seq<Option<char>>, b: seq<Option<char>>)
    ensures Loop(s, a + b) == Loop(Loop(s, a), b)
    ensures Consumed(s, a + b) == Consumed(s, a) + Consumed(Loop(s, a), b)
    decreases |a|
  {
    if s.terminated {
    } else if a == [] {
      assert a + b == b;
    } else {
      assert (a + b)[0] == a[0];
      assert (a + b)[1..] == a[1..] + b;
      LoopConcat(Dispatch(s, a[0]), a[1..], b);
    }
  }

  /** Until a quit arrives the loop takes every poll, like the `while (true)`
      that is left only through its `break`. */
  lemma {:induction false} NoQuitTakesAll(s: Session, a: seq<Option<char>>)
    requires !s.terminated && Some(QuitKey) !in a
    ensures Consumed(s, a) == |a| && !Loop(s, a).terminated
    decreases |a|
  {
    if a != [] {
      assert a[0] != Some(QuitKey);
      assert forall i :: 0 <= i < |a| - 1 ==> a[1..][i] == a[i + 1];
      assert Some(QuitKey) !in a[1..];
      NoQuitTakesAll(Dispatch(s, a[0]), a[1..]);
    }
  }

  /** The loop takes exactly the polls up to and including the first quit. */
  lemma FirstQuitConsumed(s: Session, a: seq<Option<char>>, rest: seq<Option<char>>)
    requires !s.terminated && Some(QuitKey) !in a
    ensures Consumed(s, a + [Some(QuitKey)] + rest) == |a| + 1
    ensures Loop(s, a + [Some(QuitKey)] + rest) == Loop(s, a).(terminated := true)
  {
    QuitIgnoresRest(s, a, rest);
    LoopConcat(s, a, [Some(QuitKey)]);
    NoQuitTakesAll(s, a);
    QuitStops(Loop(s, a), []);
    assert [Some(QuitKey)] + [] == [Some(QuitKey)];
  }

  /** Whatever follows a quit is never read. */
  lemma QuitIgnoresRest(s: Session, a: seq<Option<char>>, rest: seq<Option<char>>)
    ensures Loop(s, a + [Some(QuitKey)] + rest) == Loop(s, a + [Some(QuitKey)])
    ensures Consumed(s, a + [Some(QuitKey)] + rest) == Consumed(s, a + [Some(QuitKey)])
  {
    var q := a + [Some(QuitKey)];
    LoopConcat(s, q, rest);
    LoopConcat(s, a, [Some(QuitKey)]);
    assert Loop(s, q).terminated;
  }

  /** The whole-session invariant: starting from the initial 12 wpm the speed
      stays in [1, 60] whatever keys arrive. */
  lemma SpeedAlwaysInRange(inputs: seq<Option<char>>)
    ensures Valid(Loop(Initial(), inputs))
    ensures MinWpm <= Loop(Initial(), inputs).wpm <= MaxWpm
  {
  }

  function Repeat(c: char, n: nat): (r: seq<Option<char>>)
    ensures |r| == n && forall i :: 0 <= i < n ==> r[i] == Some(c)
  {
    if n == 0 then [] else [Some(c)] + Repeat(c, n - 1)
  }

  /** `n` presses of `+` give min(wpm + n, 60), and nothing is sounded. */
  lemma {:induction false} RepeatedSpeedUp(s: Session, n: nat)
    requires !s.terminated && s.wpm <= MaxWpm
    ensures Loop(s, Repeat(SpeedUpKey, n)) ==
      s.(wpm := if s.wpm + n < MaxWpm then s.wpm + n else MaxWpm)
    decreases n
  {
    if n > 0 {
      var r := Repeat(SpeedUpKey, n);
      assert r[0] == Some(SpeedUpKey) && r[1..] == Repeat(SpeedUpKey, n - 1);
      RepeatedSpeedUp(Dispatch(s, Some(SpeedUpKey)), n - 1);
    }
  }

  /** `n` presses of `-` give max(wpm - n, 1), and nothing is sounded. */
  lemma {:induction false} RepeatedSpeedDown(s: Session, n: nat)
    requires !s.terminated && MinWpm <= s.wpm
    ensures Loop(s, Repeat(SpeedDownKey, n)) ==
      s.(wpm := if s.wpm - n > MinWpm then s.wpm - n else MinWpm)
    decreases n
  {
    if n > 0 {
      var r := Repeat(SpeedDownKey, n);
      assert r[0] == Some(SpeedDownKey) && r[1..] == Repeat(SpeedDownKey, n - 1);
      RepeatedSpeedDown(Dispatch(s, Some(SpeedDownKey)), n - 1);
    }
  }

  /** Sixty presses of `+` from the initial speed reach 60, not 72. */
  lemma SixtySpeedUpsFromInitial()
    ensures Loop(Initial(), Repeat(SpeedUpKey, 60)).wpm == MaxWpm
  {
    RepeatedSpeedUp(Initial(), 60);
  }

  /** dot, dash, quit at the default speed: a 100 ms tone, 100 ms of silence,
      a 300 ms tone, 100 ms of silence, then the loop ends at 12 wpm. */
  lemma DotDashQuitScenario()
    ensures Loop(Initial(), [Some(DotKey), Some(DashKey), Some(QuitKey)]) ==
      Session(12, true, [Sound(100), Silence(100), Sound(300), Silence(100)])
  {
    var inputs := [Some(DotKey), Some(DashKey), Some(QuitKey)];
    assert DotLength(InitialWpm) == 100;
    var afterDot := Dispatch(Initial(), Some(DotKey));
    assert afterDot == Session(12, false, [Sound(100), Silence(100)]);
    var afterDash := Dispatch(afterDot, Some(DashKey));
    assert afterDash == Session(12, false, [Sound(100), Silence(100), Sound(300), Silence(100)]);
    assert inputs[1..] == [Some(DashKey), Some(QuitKey)];
    assert inputs[1..][1..] == [Some(QuitKey)];
    QuitStops(afterDash, []);
    assert [Some(QuitKey)] + [] == [Some(QuitKey)];
  }

  // ---------------------------------------------------------------------
  // Morse-correct timing of the trace

  /** `u` is the unit length at some speed the loop can be at. */
  ghost predicate IsUnit(u: int)
  {
    exists wpm :: MinWpm <= wpm <= MaxWpm && u == DotLength(wpm)
  }

  /** The trace is a run of blocks, each either one 10 ms idle pause or a tone
      of one or three units followed by a silent gap of exactly one unit; so
      it never ends in the middle of an element. */
  ghost predicate Morse(t: seq<Event>): (b: bool)
    ensures b && t != [] ==> !t[|t| - 1].Sound?
    ensures b ==> forall k :: 0 <= k < |t| && t[k].Sound? ==> k + 1 < |t| && t[k + 1].Silence?
    decreases |t|
  {
    if t == [] then true
    else if t[0].Idle? then t[0].ms == IdlePollMs && Morse(t[1..])
    else
      |t| >= 2 && t[0].Sound? && t[1].Silence? && IsUnit(t[1].ms) &&
      (t[0].ms == t[1].ms || t[0].ms == 3 * t[1].ms) && Morse(t[2..])
  }

  lemma {:induction false} MorseConcat(a: seq<Event>, b: seq<Event>)
    requires Morse(a) && Morse(b)
    ensures Morse(a + b)
    decreases |a|
  {
    if a == [] {
      assert a + b == b;
    } else if a[0].Idle? {
      assert (a + b)[1..] == a[1..] + b;
      MorseConcat(a[1..], b);
    } else {
      assert (a + b)[2..] == a[2..] + b;
      MorseConcat(a[2..], b);
    }
  }

  /** One iteration from a valid session appends a Morse-correct block. */
  lemma DispatchMorse(s: Session, input: Option<char>)
    requires !s.terminated && Valid(s) && Morse(s.trace)
    ensures Morse(Dispatch(s, input).trace)
  {
    var r := Dispatch(s, input);
    var u := DotLength(s.wpm);
    assert IsUnit(u);
    var block := r.trace[|s.trace|..];
    assert r.trace == s.trace + block;
    if input == None {
      assert block == [Idle(IdlePollMs)];
      assert Morse(block[1..]);
    } else if input.value == DotKey || input.value == DashKey {
      assert block[2..] == [];
    } else {
      assert block == [];
    }
    MorseConcat(s.trace, block);
  }

  /** Every trace the loop produces from a valid session is Morse-correct. */
  lemma {:induction false} LoopMorse(s: Session, inputs: seq<Option<char>>)
    requires Valid(s) && Morse(s.trace)
    ensures Morse(Loop(s, inputs).trace)
    decreases |inputs|
  {
    if !s.terminated && inputs != [] {
      DispatchMorse(s, inputs[0]);
      LoopMorse(Dispatch(s, inputs[0]), inputs[1..]);
    }
  }

  /** In a Morse-correct trace every tone and every gap lasts at least 20 ms,
      so strictly longer than the idle pause, which lasts exactly 10 ms. */
  lemma {:induction false} MorseDurations(t: seq<Event>, k: nat)
    requires Morse(t) && k < |t|
    ensures t[k].Idle? ==> t[k].ms == IdlePollMs
    ensures !t[k].Idle? ==> UnitAtOneWpm / MaxWpm <= t[k].ms && t[k].ms > IdlePollMs
    decreases |t|
  {
    if t[0].Idle? {
      if k > 0 {
        MorseDurations(t[1..], k - 1);
      }
    } else {
      var wpm :| MinWpm <= wpm <= MaxWpm && t[1].ms == DotLength(wpm);
      UnitInRange(wpm);
      if k >= 2 {
        MorseDurations(t[2..], k - 2);
      }
    }
  }

  /** Hence every session started at 12 wpm has Morse-correct timing. */
  lemma SessionMorse(inputs: seq<Option<char>>)
    ensures Morse(Loop(Initial(), inputs).trace)
  {
    LoopMorse(Initial(), inputs);
  }
}
