// The emulator's mutable state: the global speed setting, the flag the loop
// leaves on `q`, and the timed events requested so far. Each blocking wait of
// the program becomes an event appended to `trace`.

module Paddle {
  import opened Timing
  import opened ControlLoop

  class Keyer {
    var wpm: int
    var terminated: bool
    var trace: seq<Event>

    /** The speed setting never leaves the range the adjustments clamp to. */
    ghost predicate Valid()
      reads this
    {
      ControlLoop.Valid(State())
    }

    /** The abstract session this object holds. */
    function State(): Session
      reads this
    {
      Session(wpm, terminated, trace)
    }

    /** The session starts at 12 wpm with nothing requested yet. */
    constructor ()
      ensures Valid() && State() == Initial()
    {
      wpm := InitialWpm;
      terminated := false;
      trace := [];
    }

    /** Sound the tone for one unit at the current speed. */
    method PlayDot()
      modifies this`trace
      ensures trace == old(trace) + [Sound(DotLength(wpm))]
    {
      trace := trace + [Sound(DotLength(wpm))];
    }

    /** Sound the tone for three units at the current speed. */
    method PlayDash()
      modifies this`trace
      ensures trace == old(trace) + [Sound(DashLength(wpm))]
    {
      trace := trace + [Sound(DashLength(wpm))];
    }

    /** Stay silent for one unit at the current speed. */
    method InterElementSpace()
      modifies this`trace
      ensures trace == old(trace) + [Silence(GapLength(wpm))]
    {
      trace := trace + [Silence(GapLength(wpm))];
    }

    /** One iteration of the control loop with the poll's result. */
    method Step(input: Option<char>)
      requires Valid() && !terminated
      modifies this
      ensures Valid()
      ensures State() == Dispatch(old(State()), input)
    {
      if input.Some? {
        var c := input.value;
        if c == DotKey {
          PlayDot();
          InterElementSpace();
        } else if c == DashKey {
          PlayDash();
          InterElementSpace();
        } else if c == SpeedUpKey {
          wpm := wpm + 1;
          if wpm > MaxWpm {
            wpm := MaxWpm;
          }
        } else if c == SpeedDownKey {
          if wpm > MinWpm {
            wpm := wpm - 1;
          }
        } else if c == QuitKey {
          terminated := true;
        }
      } else {
        trace := trace + [Idle(IdlePollMs)];
      }
    }

    /** The control loop over a sequence of polls: it stops at the end of the
        inputs or right after a quit, and says how many polls it took. */
    method Run(inputs: seq<Option<char>>) returns (consumed: nat)
      requires Valid()
      modifies this
      ensures Valid()
      ensures State() == Loop(old(State()), inputs)
      ensures consumed == Consumed(old(State()), inputs)
      ensures consumed < |inputs| ==> terminated
    {
      consumed := 0;
      while consumed < |inputs| && !terminated
        invariant Valid()
        invariant consumed <= |inputs|
        invariant Loop(State(), inputs[consumed..]) == Loop(old(State()), inputs)
        invariant consumed + Consumed(State(), inputs[consumed..]) == Consumed(old(State()), inputs)
        decreases |inputs| - consumed
      {
        assert inputs[consumed..][1..] == inputs[consumed + 1..];
        Step(inputs[consumed]);
        consumed := consumed + 1;
      }
    }
  }

  /** A whole session from start-up: the speed stays in range and the
      requested timings are Morse-correct. */
  method RunSession(inputs: seq<Option<char>>) returns (k: Keyer, consumed: nat)
    ensures fresh(k) && k.Valid()
    ensures k.State() == Loop(Initial(), inputs)
    ensures consumed == Consumed(Initial(), inputs)
    ensures Morse(k.trace)
  {
    k := new Keyer();
    consumed := k.Run(inputs);
    SessionMorse(inputs);
  }
}
