# VEX Push Back robot control core, in Dafny

This project models the control code of a VEX V5 competition robot written
against the PROS API. The model covers:

- the helpers that shape drive commands (dead band, millivolt clamp,
  truncating C++ division, the stick-to-millivolt map);
- the helpers that command the six-motor tank drive, the two-motor intake
  and the flicker;
- the proportional vision-alignment loop;
- the timed drive;
- the `initialize()` defaults;
- the fixed `autonomous()` routine;
- `opcontrol()` as a sequence of ticks, with its lift, descorer and
  hold-brake toggles;
- the alternative tele-operation routines `drive()` and `intake()` of
  `src/teleop.cpp`.

Modules:

- `Shaping`: pure integer maps.
- `Toggles`: the effect of one button press on each toggle.
- `Driver`: how the toggles evolve over many ticks.
- `Vision`: the per-sample decision and a recursive definition of the
  polling loop's outcome.
- `Control`: the class `Robot`. Its field `out` holds the last command sent
  to every actuator, `hold` is the program-lifetime hold latch, and `clock`
  is the time `millis()` reads. The ghost field `held` records every wait so
  far as a `Segment`: a duration and the outputs held during it. Its methods
  are the routines of `src/main.cpp`. Each is proved against the functions
  of the modules above and against trace functions (`DriveTimedTrace`,
  `FlickOnceTrace`, `AlignTrace`, `AutonTrace`, ...) that list the commands
  each routine holds while it waits.
- `Teleop`: the class `Devices`, with the outputs of `src/teleop.cpp`, and
  the priority tables its `intake()` amounts to.

Time is explicit. `Robot.Delay` is the only thing that advances `clock`, and
reading the vision sensor takes no time. Because outputs only matter while
the program sleeps, a routine is specified by its final outputs, its
duration, and the list of segments it appends to `held`. The sensor is a function from
elapsed milliseconds to the sample it reports. A driver-control run is a
finite sequence of per-tick controller inputs.

The stick map `(deadband(v) * 12000) / 127` uses C++ division, which
truncates toward zero. A stick at 100 therefore commands 9448 mV, not the
rounded 9449. The model follows the code (`Shaping.StickExample`).

The autonomous routine is modelled as straight-line code, as written, not
as a list of steps interpreted by a separate function. Its first nine steps
(`OpeningRoute`), steps 10 to 13 (`LoaderRoute`) and its closing loop of six
flicks (`FlickVolley`) are separate methods with their own contracts, so
that each proof stays small.
The driver-control tick is split the same way, into one method per block of
the loop body.

## Model

| member | source | states |
|---|---|---|
| Shaping.Deadband | src/main.cpp:101-103 | The result is 0 exactly when \|v\| < db (for positive db), and is v itself otherwise |
| Shaping.ClampMV | src/main.cpp:104-106 | The result lies in [-12000, 12000], equals the input when it is in range, and saturates at the nearer bound otherwise |
| Shaping.ClampMVIdempotent | src/main.cpp:104-106 | Clamping twice is clamping once |
| Shaping.Clamp | src/main.cpp:180 | `std::clamp` with lo <= hi: the result is within [lo, hi], is x when x is in range, and is the bound x passed otherwise |
| Shaping.TruncDivRemainder | src/main.cpp:333-334 | `TruncDiv` is C++ `/` for a positive divisor: the remainder is smaller than the divisor and has the dividend's sign, so the quotient truncates toward zero |
| Shaping.TruncDivOdd | src/main.cpp:333-334 | Truncating division commutes with negation |
| Shaping.TruncDivMonotone | src/main.cpp:333-334 | Truncating division by a positive divisor preserves order |
| Shaping.StickToMV | src/main.cpp:329-334 | The per-tick drive command of a stick reading is within the motor range |
| Shaping.StickScaleInRange | src/main.cpp:329-334 | For every reading in [-127, 127], the scaled value is already within ±12000, so the clamp never changes it |
| Shaping.StickDeadZone | src/main.cpp:329-334 | Readings with \|v\| < 5 command 0 mV |
| Shaping.StickOdd | src/main.cpp:329-334 | Opposite readings command opposite voltages |
| Shaping.StickSign | src/main.cpp:329-334 | Outside the dead zone, the command is non-zero and has the stick's sign |
| Shaping.StickMonotone | src/main.cpp:329-334 | A stick pushed further never commands less |
| Shaping.StickExample | src/main.cpp:333 | 100 maps to 9448, -100 to -9448, and 3 to 0 |
| Toggles.PressLift | src/main.cpp:367-379 | A Y press flips the lift state and leaves exactly one line high, the one naming the new position |
| Toggles.PressLiftTwice | src/main.cpp:367-379 | Two Y presses restore the state; they restore the line pair exactly when it already named the state |
| Toggles.PressDescorer | src/main.cpp:382-391 | An A press flips the descorer. When it becomes true, only the down line is high; when it becomes false, both lines are low; the lines are never both high |
| Toggles.PressDescorerTwice | src/main.cpp:382-391 | Two A presses restore the state, and restore the lines exactly when they already matched it |
| Toggles.PressHold | src/main.cpp:394-398 | An X press flips the hold latch and selects hold braking exactly when the latch is set, coasting otherwise, never plain braking |
| Driver.PressAllSnoc | src/main.cpp:327-401 | One more tick applies that tick's Y, A and X presses to the panel left by the earlier ticks, and adds its presses to the counts |
| Driver.PressAllEffect | src/main.cpp:366-398 | Over any run of ticks, each toggle is flipped once per press of its button. Lines of a toggle pressed at least once name its state. Exclusive lines stay exclusive. Once X has been pressed the drive braking is Hold when the latch is set and Coast when it is clear; until then it is untouched |
| Driver.PressAllNoPress | src/main.cpp:366-398 | A run with no new Y, A or X press leaves the toggles, lines, latch and braking unchanged |
| Driver.DoubleLiftPress | src/main.cpp:367-379 | Two ticks each pressing Y give back the lift toggle exactly when its lines already named its position |
| Vision.AlignDecision | src/main.cpp:165-182 | A pass scans exactly when the sample has signature 0 or width < 10. It stops exactly when the target is seen with \|x − 158\| <= 12. Otherwise it turns with a non-zero voltage of the error's sign: 35 mV per pixel when that is at most 3000, else ±3000 |
| Vision.AlignFrom | src/main.cpp:161-187 | The loop's outcome from elapsed time t: success only from a centred sample taken before the timeout, a time-out only once the timeout has been reached |
| Vision.AlignFromPolls | src/main.cpp:164-183 | The loop samples only every 20 ms from t, no sample before its exit is centred, and a time-out overshoots the timeout by less than one poll interval |
| Vision.CenteredFirstSample | src/main.cpp:175-177 | A target centred in the first sample ends the loop at once, with no sleep |
| Vision.NeverCenteredTimesOut | src/main.cpp:164-186 | When no sample is centred, the loop times out, at or after the timeout and less than one poll interval past it |
| Vision.CenteredIffSampleBeforeTimeout | src/main.cpp:161-187 | The loop reports success exactly when some sample taken before the timeout shows the target centred |
| Vision.DecisionExamples | src/main.cpp:165-182 | x = 170 is centred, x = 200 turns at 1470 mV, x = 300 turns at the 3000 mV cap, and signature 0 or width 9 scans |
| Control.Robot.Delay | src/main.cpp:192 | `pros::delay(ms)` advances the clock by ms, changes no output, and records one segment of ms with the current outputs held |
| Control.Robot.SetDriveBrake | src/main.cpp:108-111 | Sets the braking of all six drive motors; nothing else changes |
| Control.Robot.DriveTankMV | src/main.cpp:113-124 | All three left motors get clampMV(left), all three right motors get clampMV(right), and nothing else changes |
| Control.Robot.StopDrive | src/main.cpp:126 | All six drive motors get 0 and nothing else changes |
| Control.Robot.IntakeOn | src/main.cpp:128-131 | Both intake motors get mv |
| Control.Robot.IntakeReverse | src/main.cpp:132-135 | Both intake motors get -mv |
| Control.Robot.IntakeOff | src/main.cpp:136-139 | Both intake motors get 0 |
| Control.Robot.FlickUp | src/main.cpp:142-145 | The flicker is set to hold braking and sent to the flick angle at 425 rpm |
| Control.Robot.FlickDown | src/main.cpp:146-149 | The flicker is set to hold braking and sent home at 425 rpm |
| Control.Robot.FlickOnce | src/main.cpp:152-158 | One cycle holds the flicker at the flick angle for 250 ms and then home for 250 ms, both under hold braking and with every other output as it was. It ends home after 500 ms |
| Control.Robot.AlignPass | src/main.cpp:165-182 | One pass commands the drive that `AlignDecision` chooses: the sweep (1800, -1800), a stop, or the turn (t, -t). A centred pass returns at once; any other pass holds its command for one 20 ms poll |
| Control.Robot.VisionAlignGoal | src/main.cpp:161-187 | Every exit leaves all six drive motors at 0 and changes nothing else. The result and the time spent are those of `AlignFrom`. True means the last sample was centred before the timeout; false means the timeout was reached. The commands held meanwhile are one 20 ms segment per non-centred pass, as `AlignTrace` lists them |
| Control.Robot.DriveTimed | src/main.cpp:190-195 | Holds the clamped drive for ms, then the stopped drive for 50 ms, with every other output unchanged. It ends stopped after exactly ms + 50 |
| Control.Robot.Initialize | src/main.cpp:201-211 | Drive braking is set to brake and all four cylinder lines are low, so no cylinder has both lines high |
| Control.Robot.OpeningRoute | src/main.cpp:239-275 | Steps 1 to 9 hold the commands `OpeningTrace` lists, in order: each drive and turn with the intake on, then the flick cycle, pause, turn, drive and turn with the intake off. They take 10200 ms and end with the drive stopped, the intake off and the flicker home under hold braking. Braking and lines are untouched |
| Control.Robot.LoaderRoute | src/main.cpp:277-295 | Steps 10 to 13 hold the commands `LoaderTrace` lists: the lift raised, the slow drive into the loader and the loading with the intake on, the drive back, and the descorer raised. They take 4600 ms and end with the drive stopped, the intake on, the lift up line alone high and the descorer up line alone high |
| Control.Robot.FlickVolley | src/main.cpp:297-300 | Six flick cycles, each followed by a 120 ms pause with the flicker home, as `VolleyTrace` lists them. They take 3720 ms and change nothing but the flicker, which ends home under hold braking |
| Control.Robot.Autonomous | src/main.cpp:236-309 | The routine holds the commands `AutonTrace` lists, in order. Whatever the starting outputs, it ends with all drive and intake motors at 0, all four lines low, the flicker home under hold braking and drive braking on brake. It blocks for exactly 18520 ms and leaves the hold latch alone |
| Control.AlignTraceDuration | src/main.cpp:164-183 | The 20 ms passes the alignment loop holds add up to exactly the time `AlignFrom` says the loop takes |
| Control.AlignTraceTurns | src/main.cpp:167-182 | Every pass the alignment loop holds turns in place: the three left motors share one non-zero voltage, the right ones its negation, and no other output changes |
| Control.VolleyShape | src/main.cpp:297-300 | n volley cycles are 3n segments lasting 620n ms. The first of each three sends the flicker to the flick angle and the others home, under hold braking, and nothing else is commanded |
| Control.CollectShape | src/main.cpp:239-257 | Steps 1 to 5 take 5550 ms and leave safe cylinder lines safe |
| Control.ScoreShape | src/main.cpp:259-275 | Steps 6 to 9 take 4650 ms and leave safe cylinder lines safe |
| Control.OpeningShape | src/main.cpp:239-275 | Steps 1 to 9 take 10200 ms and never raise both lines of a cylinder that started safe |
| Control.LoaderShape | src/main.cpp:277-295 | Steps 10 to 13 take 4600 ms; raising the lift and then the descorer one line at a time never holds both lines of a cylinder high |
| Control.AutonShape | src/main.cpp:236-309 | The segments of the autonomous routine add up to 18520 ms, and from safe lines no held output ever has both lines of a cylinder high |
| Control.Robot.EnterOpcontrol | src/main.cpp:322-325 | Entry sets coast braking and clears both toggle states |
| Control.Robot.DriveSticks | src/main.cpp:329-343 | Each side's three motors get the stick map of that side's reading; nothing else changes |
| Control.Robot.IntakeButtons | src/main.cpp:346-352 | R1 runs the intake at 12000 mV, otherwise R2 reverses it, otherwise it is off; both motors agree |
| Control.Robot.FlickPulses | src/main.cpp:355-364 | A new L1 press holds +10000 mV on the flicker for 175 ms; a new L2 press then holds -10000 mV for 175 ms. Each pulse ends at 0 V. With no press the flicker is untouched. Nothing else changes |
| Control.Robot.LiftButton | src/main.cpp:367-379 | A new Y press applies `PressLift` to the lift state and lines; without one nothing changes |
| Control.Robot.DescorerButton | src/main.cpp:382-391 | A new A press applies `PressDescorer` to the descorer state and lines; without one nothing changes |
| Control.Robot.HoldButton | src/main.cpp:394-398 | A new X press applies `PressHold` to the latch and the drive braking; without one nothing changes |
| Control.Robot.ToggleButtons | src/main.cpp:366-398 | The Y, A and X blocks together act on the toggles, lines, latch and braking as `PressButtons` says, and change no other output |
| Control.Robot.DriverTick | src/main.cpp:328-400 | One tick sets both sides to the stick map and the intake by R1/R2 priority. With those already applied, it holds the forward pulse on a new L1 press and the backward pulse on a new L2 press. It applies `PressButtons` to the toggles, then holds the tick's outputs for 10 ms. It takes 10 ms plus 175 ms per pulse |
| Control.Robot.Opcontrol | src/main.cpp:321-402 | After any run of ticks the toggles are `PressAll` of the inputs, each flipped once per press. Exclusive lines stay exclusive. The lift lines name the lift's position once Y has been pressed. At least 10 ms pass per tick |
| Teleop.IntakeTableR2Wins | src/teleop.cpp:32-39 | When R2 was pressed or released, the intake command does not depend on the R1 flags |
| Teleop.Devices.constructor | src/globals.cpp:60-61 | Motors start at rest and both loader cylinders retracted |
| Teleop.Devices.Drive | src/teleop.cpp:5-20 | `mgL` gets exactly LEFT_Y and `mgR` exactly RIGHT_Y; both branches agree, and nothing else changes |
| Teleop.Devices.Intake | src/teleop.cpp:22-57 | R2 press gives -127 whatever R1 says; else R2 release gives 0; else R1 press 127; else R1 release 0. `mtIN1` and `mtIN2` agree whenever a flag moved them. L1 beats L2 on `mtIN3`, and A beats B on both cylinders together. The drive is untouched, and with no flag set nothing changes |

## Left out

- Device construction, port numbers, LCD text and the motor reversal flags
  (src/main.cpp:10-95, 202-203, 216-226) are wiring and display, not
  control logic.
- `flick.tare_position()` in `initialize()` (src/main.cpp:211): the model
  has no encoder position. The flicker's targets are abstract: home or the
  468-degree flick angle, a `double` kept abstract as the constructor
  `FlickDeg` of `FlickPos`.
- How `move_voltage`, `move_absolute` and `set_value` act on the hardware:
  each is the last command recorded in `Outputs`.
- Real time and scheduling: `millis()` is the field `clock`, and sampling and
  commands take no time.
- Control.Robot.constructor: the start-up outputs `STARTUP` (every motor at
  0 V and coasting, the flicker at 0 V, every line low) are the PROS
  power-on defaults; no line of the source sets them, so the constructor has
  no row above.
- Control.Robot.Opcontrol: its contract gives the toggles and a lower bound
  on the time, not the whole list of segments held over the run; each
  tick's segments are stated by `DriverTick`.
- Control.Robot.Delay: durations are natural numbers. A negative `int` passed
  to `pros::delay` or `driveTimed` would become a huge unsigned duration, and
  the model has no such call.
- Control.Robot.VisionAlignGoal: `millis() - start` is unsigned 32-bit
  arithmetic in the source. A negative timeout therefore compares as a huge
  unsigned value and the clock wraps after about 49 days. The model compares
  signed unbounded integers, so a negative timeout exits at once.
- 32-bit overflow: every product in the core stays far inside `int` for
  stick readings in [-127, 127] and sensor coordinates. The model uses
  unbounded integers.
- The endless `while (true)` of `opcontrol()` is a finite sequence of
  ticks; the state after any number of ticks is what the model states.
- The controller and the vision sensor are inputs: per-tick readings and
  new-press edges, and a function from elapsed time to sample.
- The button flags of `src/teleop.cpp` come from `src/globals.cpp:64-79`.
  There they are sampled once, at static initialisation, and
  `R2_RELEASED`/`L2_RELEASED` read the new-press edge, not the release edge.
  The model takes all flags as free inputs, so it covers every combination,
  including the real one where `R2_RELEASED == R2_PUSHED`.
- `src/drive.cpp`, `src/intake.cpp` and `src/healthcheck.cpp` are not part of
  this model: floating-point voltage wrappers, fixed-percent spin calls, and
  a telemetry print loop.
