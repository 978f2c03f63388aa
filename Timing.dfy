// Morse element timing: the length of one unit at a given speed and the
// durations that the keyer derives from it.

module Timing {

  /** Milliseconds in one unit at one word per minute (the PARIS convention). */
  const UnitAtOneWpm: int := 1200

  /** The speed range the control loop keeps the setting in. */
  const MinWpm: int := 1
  const MaxWpm: int := 60

  /** The speed the session starts at. */
  const InitialWpm: int := 12

  /** The pause taken by the control loop when no key is waiting. */
  const IdlePollMs: int := 10

  /** Length of one unit (a dot) in milliseconds. Any integer is accepted:
      a speed of zero or below falls back to the one-wpm length, and a
      positive speed gives the truncated quotient 1200 / wpm, described
      here by the two inequalities that define it. */
  function DotLength(wpm: int): (r: int)
    ensures 0 <= r <= UnitAtOneWpm
    ensures wpm <= 0 ==> r == UnitAtOneWpm
    ensures wpm > 0 ==> r * wpm <= UnitAtOneWpm < (r + 1) * wpm
  {
    if wpm <= 0 then UnitAtOneWpm else UnitAtOneWpm / wpm
  }

  /** A dash is held for three units: for a positive speed its length is the
      truncated 3 * (1200 / wpm), within three milliseconds of 3600 / wpm. */
  function DashLength(wpm: int): (r: int)
    ensures 0 <= r <= 3 * UnitAtOneWpm && r % 3 == 0
    ensures wpm <= 0 ==> r == 3 * UnitAtOneWpm
    ensures wpm > 0 ==> r * wpm <= 3 * UnitAtOneWpm < (r + 3) * wpm
  {
    3 * DotLength(wpm)
  }

  /** The silent gap after each sounded element is one unit: the one-wpm
      length for a speed that is not positive, else the truncated 1200 / wpm. */
  function GapLength(wpm: int): (r: int)
    ensures 0 <= r <= UnitAtOneWpm
    ensures wpm <= 0 ==> r == UnitAtOneWpm
    ensures wpm > 0 ==> r * wpm <= UnitAtOneWpm < (r + 1) * wpm
  {
    DotLength(wpm)
  }

  /** Within the speed range a unit lasts at least 1200 / 60 = 20 ms and at
      most 1200 ms, so it is always longer than the idle poll pause. */
  lemma {:induction false} UnitInRange(wpm: int)
    requires MinWpm <= wpm <= MaxWpm
    ensures UnitAtOneWpm / MaxWpm <= DotLength(wpm) <= UnitAtOneWpm
    ensures DotLength(wpm) > IdlePollMs
  {
    var r := DotLength(wpm);
    assert (r + 1) * wpm <= (r + 1) * MaxWpm;
    assert UnitAtOneWpm < (r + 1) * MaxWpm;
  }

  /** A faster speed never gives a longer unit. */
  lemma {:induction false} DotLengthAntitone(slow: int, fast: int)
    requires 0 < slow <= fast
    ensures DotLength(fast) <= DotLength(slow)
  {
    var rs, rf := DotLength(slow), DotLength(fast);
    assert rf * slow <= rf * fast;
    assert rf * slow < (rs + 1) * slow;
  }

  /** The ratios that make the timing Morse-correct: dash = 3 dots and the
      gap = 1 dot, all at the same speed. */
  lemma ElementRatios(wpm: int)
    ensures DashLength(wpm) == 3 * DotLength(wpm)
    ensures GapLength(wpm) == DotLength(wpm)
    ensures MinWpm <= wpm <= MaxWpm ==> DashLength(wpm) >= 3 * (UnitAtOneWpm / MaxWpm)
  {
    if MinWpm <= wpm <= MaxWpm {
      UnitInRange(wpm);
    }
  }

  /** The fallback path for a speed that is not positive. */
  lemma FallbackExamples()
    ensures DotLength(0) == 1200 && DotLength(-5) == 1200
    ensures DotLength(12) == 100 && DotLength(60) == 20 && DotLength(7) == 171
  {
  }
}
