# Straight-key Morse practice emulator, modelled in Dafny

The program is a console CW ("continuous wave" Morse) practice key. `z` sounds a
dot, `x` sounds a dash, `+` and `-` change the speed in words per minute, and
`q` quits. The speed starts at 12 wpm. One unit lasts `1200 / wpm` ms. A dot is
one unit, a dash is three, and every element is followed by a one-unit silent
gap. When no key is waiting, the loop pauses for 10 ms.

The model has three modules:

- `Timing` (`Timing.dfy`) holds the pure unit-length function
  `calculate_dot_length_ms` as `DotLength`, plus the dash and gap lengths built
  from it.
- `ControlLoop` (`ControlLoop.dfy`) is the body of `main`'s `while (true)` loop
  written as a function `Dispatch` on a `Session` value. A `Session` holds the
  speed, a terminated flag, and a trace of `Sound(ms)`, `Silence(ms)` and
  `Idle(ms)` events. `Loop` drives `Dispatch` over a sequence of polls and
  `Consumed` counts the polls taken. Its lemmas cover:
  - what each key does;
  - that the speed stays in [1, 60];
  - that the clamps saturate;
  - that nothing is read after `q`;
  - that every trace is Morse-correct. Each block is either a 10 ms idle pause,
    or a tone of one or three units followed by a gap of exactly one unit, with
    the unit at least 20 ms.
- `Paddle` (`Paddle.dfy`) is the imperative form. Class `Keyer` has the global
  `current_wpm` as field `wpm`, plus `terminated` and `trace`. Its
  `PlayDot`/`PlayDash`/`InterElementSpace` methods append events. `Step`
  mirrors the if-chain of the loop body, with `++` and clamp, and the guarded
  `--`. `Run` is a `while` loop over the polls that stops at `q`, mirroring
  `break`. `Step` is proved to give exactly `Dispatch` of the old state, and
  `Run` exactly `Loop` and `Consumed`. The element methods are specified
  directly by the `Timing` lengths, and the constructor by `Initial`.

The keyboard poll (`_kbhit`/`_getch`) becomes an `Option<char>` input: `None`
means no key was waiting. Each `sleep_for` becomes the duration it requests,
recorded in the trace.

C++ `1200 / wpm` truncates toward zero. The divisor is always positive there,
and for a positive divisor Dafny's `/` gives the same result. `DotLength`
states the truncation as `r * wpm <= 1200 < (r + 1) * wpm`. The speed stays in
[1, 60], so no 32-bit overflow can occur. `Keyer.Step` requires that range,
which keeps the `current_wpm++` overflow at `INT_MAX` out of reach.

## Model

| member | source | states |
|---|---|---|
| `Timing.DotLength` | main.cpp:12-17 | result is in [0, 1200]; exactly 1200 for wpm <= 0; for wpm > 0 it is the truncated quotient, `r * wpm <= 1200 < (r + 1) * wpm` |
| `Timing.DashLength` | main.cpp:33 | a dash is three truncated units: 3600 for wpm <= 0, else a multiple of 3 with `r * wpm <= 3600 < (r + 3) * wpm` |
| `Timing.GapLength` | main.cpp:40 | the gap is one unit: 1200 for wpm <= 0, else the truncated quotient, `r * wpm <= 1200 < (r + 1) * wpm` |
| `Timing.UnitInRange` | main.cpp:12-17 | for every wpm in [1, 60] the unit is between 20 ms and 1200 ms, so it is longer than the 10 ms idle pause |
| `Timing.DotLengthAntitone` | main.cpp:12-17 | a higher positive speed never gives a longer unit |
| `Timing.ElementRatios` | main.cpp:30-43 | a dash is 3 units and the gap is 1 unit at the same speed; in range a dash is at least 60 ms |
| `Timing.FallbackExamples` | main.cpp:12-16 | 0 and -5 wpm fall back to 1200 ms; 12 wpm gives 100 ms, 60 gives 20 ms, and 7 gives 171 ms (truncated) |
| `ControlLoop.Initial` | main.cpp:9 | the session starts at 12 wpm, inside [1, 60], not terminated, with an empty trace |
| `ControlLoop.SpeedUp` | main.cpp:77-78 | the result is min(wpm + 1, 60): at most 60, and at least 1 when wpm is |
| `ControlLoop.SpeedDown` | main.cpp:81-83 | the result is wpm - 1 when wpm > 1 and wpm otherwise: never above wpm, and so still at most 60 |
| `ControlLoop.Dispatch` | main.cpp:62-100 | one iteration only appends to the trace, keeps the speed in [1, 60], and terminates exactly on `q` |
| `ControlLoop.Loop` | main.cpp:62-100 | a run of iterations only appends to the trace, keeps the speed in range, and reads nothing once terminated |
| `ControlLoop.Consumed` | main.cpp:85-88 | the loop takes at most all polls, and none once terminated |
| `ControlLoop.NoQuitTakesAll` | main.cpp:62-100 | with no `q` among the polls the loop takes every one of them and does not terminate |
| `ControlLoop.FirstQuitConsumed` | main.cpp:85-88 | the loop takes exactly the polls up to and including the first `q`, and ends in the state reached before it, terminated |
| `ControlLoop.ElementKeys` | main.cpp:68-75 | `z` appends Sound(unit) then Silence(unit), and `x` appends Sound(3 units) then Silence(unit), at the current speed; the speed is unchanged |
| `ControlLoop.SpeedKeys` | main.cpp:76-84 | `+` gives min(wpm + 1, 60), `-` gives wpm - 1 only when wpm > 1; neither adds to the trace |
| `ControlLoop.ClampsSaturate` | main.cpp:77-83 | `+` at 60 and `-` at 1 leave the session unchanged |
| `ControlLoop.QuitStops` | main.cpp:85-88 | `q` sets only the terminated flag; the loop then takes exactly one poll whatever follows |
| `ControlLoop.OtherKeysIgnored` | main.cpp:68-88 | a key other than z, x, +, - and q changes neither the speed nor the trace |
| `ControlLoop.NoKeyIdles` | main.cpp:95-99 | a poll with no key appends only Idle(10) and keeps the speed |
| `ControlLoop.LoopConcat` | main.cpp:62-100 | running a + b is running a and then b, for the state and for the count of polls taken |
| `ControlLoop.QuitIgnoresRest` | main.cpp:85-88 | whatever follows a `q` in the input changes neither the final state nor the count taken |
| `ControlLoop.SpeedAlwaysInRange` | main.cpp:76-84 | from the initial 12 wpm the speed stays in [1, 60] for every input sequence |
| `ControlLoop.RepeatedSpeedUp` | main.cpp:76-79 | n presses of `+` give min(wpm + n, 60) and leave the trace and the flag alone |
| `ControlLoop.RepeatedSpeedDown` | main.cpp:80-84 | n presses of `-` give max(wpm - n, 1) and leave the trace and the flag alone |
| `ControlLoop.SixtySpeedUpsFromInitial` | main.cpp:76-79 | 60 presses of `+` from 12 wpm give 60, not 72 |
| `ControlLoop.DotDashQuitScenario` | main.cpp:62-88 | z, x, q from start-up requests tone 100, silence 100, tone 300, silence 100, then terminates at 12 wpm |
| `ControlLoop.Morse` | main.cpp:20-43 | a Morse-correct trace is a run of blocks, each `[Idle(10)]` or `[Sound(u or 3u), Silence(u)]` where u = DotLength(w) for some w in [1, 60]; so every tone is immediately followed by a gap and the trace never ends on a tone |
| `ControlLoop.DispatchMorse` | main.cpp:68-75 | one iteration from a valid session keeps the trace Morse-correct |
| `ControlLoop.LoopMorse` | main.cpp:62-100 | any run from a valid session with a Morse-correct trace leaves a Morse-correct trace |
| `ControlLoop.MorseDurations` | main.cpp:95-99 | in a Morse-correct trace every idle pause is 10 ms, and every tone and gap is at least 20 ms, so longer than the pause |
| `ControlLoop.SessionMorse` | main.cpp:62-100 | every session started at 12 wpm has Morse-correct timing |
| `Paddle.Keyer.constructor` | main.cpp:9 | the session starts at 12 wpm, not terminated, with an empty trace |
| `Paddle.Keyer.PlayDot` | main.cpp:20-27 | appends a tone of one unit at the current speed |
| `Paddle.Keyer.PlayDash` | main.cpp:30-35 | appends a tone of three units at the current speed |
| `Paddle.Keyer.InterElementSpace` | main.cpp:38-43 | appends a silence of one unit at the current speed |
| `Paddle.Keyer.Step` | main.cpp:62-100 | the if-chain with in-place `++` and clamp and guarded `--` gives exactly `Dispatch` of the old state, and keeps the speed in range |
| `Paddle.Keyer.Run` | main.cpp:62-100 | the polling loop with `break` on `q` gives exactly `Loop` of the old state and takes `Consumed` polls; taking fewer than all of them means it quit |
| `Paddle.RunSession` | main.cpp:53-103 | a whole run from start-up ends in range with a Morse-correct trace |

## Left out

- Console output is not modelled because it is display only. This covers the banner, the `DOT `/`DASH ` labels, the blanks that clear them, the status line of `display_wpm`, and the exit message.
- The ASCII BEL used as the sound is not modelled. A tone is an abstract `Sound(ms)` event.
- `_kbhit`/`_getch` from `conio.h` are platform keyboard I/O. Each poll is an `Option<char>` input instead.
- The wall-clock behaviour of `sleep_for` is not modelled. The model records the requested durations and says nothing about elapsed time.
- There is no tone buffer, sample rate or start/stop tone device in the program, which only emits BEL, so none is modelled.
- The two-byte special-key handling at main.cpp:89-94 is commented out, so it is not live code and is not modelled.
- The program's `while (true)` loop (main.cpp:62) runs until `q` with no bound on the number of polls. `Loop` and `Keyer.Run` take a finite sequence of polls, so the model covers every finite prefix of a run. `LoopConcat` shows that running prefixes one after another is the same as running them joined.
- A Dafny `char` is wider than the 8-bit `char` that `_getch` returns into (main.cpp:66). The model accepts a superset of the keys, and every key outside the five bindings is ignored either way.
- The process exit code (`return 0`) is not modelled. The model ends with the terminated flag.
