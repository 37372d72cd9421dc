/** The robot of the driver and autonomous code: its actuator outputs as a
    record held by one object, the helpers that command them, the vision
    alignment loop, the timed drive, the initialisation and autonomous
    routines, and driver control tick by tick. Time is the field `clock`
    (what `millis()` reads), and only `Delay` advances it. */
module Control {
  import opened Shaping
  import opened Vision
  import opened Toggles
  import opened Driver

  /** Speed of the flicker's position moves, in rpm. */
  const FLICK_RPM: int := 425
  /** Voltage of a driver-commanded flick, in millivolts. */
  const FLICK_MV: int := 10000
  /** Duration of a driver-commanded flick, in milliseconds. */
  const FLICK_TIME_MS: nat := 175
  /** Wait after each half of an autonomous flick cycle. */
  const FLICK_SETTLE_MS: nat := 250
  /** Pause after every timed drive, letting the drivetrain come to rest. */
  const SETTLE_MS: nat := 50
  /** Sleep at the end of every driver-control tick. */
  const TICK_MS: nat := 10
  /** Pause after each of the six flick cycles at the end of autonomous. */
  const FLICK_GAP_MS: nat := 120
  /** Total time the autonomous routine blocks: six timed drives of
      1200 + 1200 + 1600 + 2400 + 800 + 1200 ms with their six settle gaps,
      turns of 600 + 800 + 1100 + 300 ms, the first flick cycle (500) and its
      pause (300), the lift, loader and descorer waits 300 + 2000 + 200, and
      six flick cycles of 500 ms each followed by a 120 ms pause. */
  const AUTON_MS: nat := 18520

  /** Where the flicker is told to go: home, or the fixed flick angle
      (468 degrees, kept abstract). */
  datatype FlickPos = Home | FlickDeg

  /** The last command sent to the flicker motor. */
  datatype FlickCommand = Voltage(mv: int) | Absolute(pos: FlickPos, rpm: int)

  /** The command last sent to every actuator the routines drive: the six
      drive motors, the two intake motors, the drive and flicker braking, the
      flicker, and the four cylinder lines. */
  datatype Outputs = Outputs(
    lTop: int, lRear: int, lFront: int,
    rTop: int, rRear: int, rFront: int,
    intakeL: int, intakeR: int,
    driveBrake: BrakeMode, flickBrake: BrakeMode, flick: FlickCommand,
    liftUp: bool, liftDown: bool, descorerUp: bool, descorerDown: bool)
  {
    /** Every motor of the left side carries `mv`. */
    predicate LeftIs(mv: int)
    {
      lTop == mv && lRear == mv && lFront == mv
    }

    /** Every motor of the right side carries `mv`. */
    predicate RightIs(mv: int)
    {
      rTop == mv && rRear == mv && rFront == mv
    }

    function LiftLines(): Lines
    {
      Lines(liftUp, liftDown)
    }

    function DescorerLines(): Lines
    {
      Lines(descorerUp, descorerDown)
    }

    /** No cylinder has both of its lines high. */
    predicate LinesSafe()
    {
      Exclusive(LiftLines()) && Exclusive(DescorerLines())
    }

    /** These outputs with the lines and the drive braking, which the Y, A and
        X buttons act on, replaced by fixed values: two outputs agree here
        when they differ at most in what those buttons set. */
    function Untoggled(): Outputs
    {
      this.(driveBrake := Coast, liftUp := false, liftDown := false, descorerUp := false, descorerDown := false)
    }

    /** These outputs with `left` on the three left motors and `right` on the
        three right ones. */
    function WithDrive(left: int, right: int): (o: Outputs)
      ensures o.LeftIs(left) && o.RightIs(right)
    {
      this.(lTop := left, lRear := left, lFront := left, rTop := right, rRear := right, rFront := right)
    }
  }

  /** The devices at start-up: every motor still and coasting, every line low. */
  const STARTUP: Outputs :=
    Outputs(0, 0, 0, 0, 0, 0, 0, 0, Coast, Coast, Voltage(0), false, false, false, false)

  /** Where the autonomous routine leaves every output, whatever it started from. */
  const AUTON_END: Outputs :=
    Outputs(0, 0, 0, 0, 0, 0, 0, 0, Brake, Hold, Absolute(Home, FLICK_RPM), false, false, false, false)

  /** What the Y, A and X buttons act on: the toggles remembered in `st`
      with the lines in `o`, the hold latch and the drive braking. */
  function PanelOf(o: Outputs, hold: bool, st: DriverState): Panel
  {
    Panel(Toggle(st.lift, o.LiftLines()), Toggle(st.descorer, o.DescorerLines()), hold, o.driveBrake)
  }

  /** One wait of a routine: the outputs held, unchanged, for `ms` milliseconds. */
  datatype Segment = Segment(ms: nat, out: Outputs)

  /** Total time of the waits in `tr`. */
  function Duration(tr: seq<Segment>): nat
  {
    if tr == [] then 0 else tr[0].ms + Duration(tr[1..])
  }

  /** No held output has both lines of a cylinder high. */
  predicate HeldSafe(tr: seq<Segment>)
  {
    forall k :: 0 <= k < |tr| ==> tr[k].out.LinesSafe()
  }

  /** The waits of `driveTimed` from outputs `o`: the clamped drive for `ms`,
      then the stopped drive for `SETTLE_MS`. */
  function DriveTimedTrace(o: Outputs, leftMv: int, rightMv: int, ms: nat): seq<Segment>
  {
    [Segment(ms, o.WithDrive(ClampMV(leftMv), ClampMV(rightMv))), Segment(SETTLE_MS, o.WithDrive(0, 0))]
  }

  /** A timed right turn in place from outputs `o`: 5000 mV forward on the
      left, backward on the right, for `ms`. */
  function TurnTrace(o: Outputs, ms: nat): seq<Segment>
  {
    [Segment(ms, o.WithDrive(5000, -5000))]
  }

  /** The waits of `flickOnce` from outputs `o`: the flicker at the flick
      angle, then home, each for `FLICK_SETTLE_MS` under hold braking. */
  function FlickOnceTrace(o: Outputs): seq<Segment>
  {
    [Segment(FLICK_SETTLE_MS, o.(flickBrake := Hold, flick := Absolute(FlickDeg, FLICK_RPM))),
     Segment(FLICK_SETTLE_MS, o.(flickBrake := Hold, flick := Absolute(Home, FLICK_RPM)))]
  }

  /** The waits of `n` cycles of the closing volley from outputs `o`: each a
      flick cycle and then a `FLICK_GAP_MS` pause with the flicker home. */
  function VolleyTrace(n: nat, o: Outputs): seq<Segment>
  {
    if n == 0 then []
    else VolleyTrace(n - 1, o) + FlickOnceTrace(o)
         + [Segment(FLICK_GAP_MS, o.(flickBrake := Hold, flick := Absolute(Home, FLICK_RPM)))]
  }

  /** The waits of the flicker block of a driver tick from outputs `o`: a
      forward pulse of `FLICK_MV` on a new L1 press, then a backward one on a
      new L2 press, each for `FLICK_TIME_MS`. */
  function PulseTrace(l1New: bool, l2New: bool, o: Outputs): seq<Segment>
  {
    (if l1New then [Segment(FLICK_TIME_MS, o.(flick := Voltage(FLICK_MV)))] else [])
    + (if l2New then [Segment(FLICK_TIME_MS, o.(flick := Voltage(-FLICK_MV)))] else [])
  }

  /** The left-side voltage one alignment pass commands; the right side gets
      its negation. */
  function AlignDrive(s: AlignStep): int
  {
    match s
    case Scan => SCAN_MV
    case Centered => 0
    case Turn(mv) => mv
  }

  /** The waits of the alignment loop begun at `t` from outputs `o`: one
      `POLL_MS` pass, under the command its sample decides, per sample until
      the first centred one or the timeout. */
  function AlignTrace(vision: nat -> VisionObject, timeoutMs: int, t: nat, o: Outputs): seq<Segment>
    decreases timeoutMs - t
  {
    if t >= timeoutMs then []
    else
      var s := AlignDecision(vision(t));
      if s.Centered? then []
      else [Segment(POLL_MS, o.WithDrive(AlignDrive(s), -AlignDrive(s)))]
           + AlignTrace(vision, timeoutMs, t + POLL_MS, o)
  }

  /** The waits of steps 1 to 5 of the autonomous routine from outputs
      `intaking`, whose intake is on: three drives and two turns. */
  function CollectTrace(intaking: Outputs): seq<Segment>
  {
    DriveTimedTrace(intaking, 9000, 9000, 1200) + TurnTrace(intaking, 600)
    + DriveTimedTrace(intaking, 9000, 9000, 1200) + TurnTrace(intaking, 800)
    + DriveTimedTrace(intaking, 9000, 9000, 1600)
  }

  /** The waits of steps 6 to 9 of the autonomous routine from outputs
      `stopped`, whose drive and intake are off: the first flick cycle and
      its pause, a turn around, a drive and a last turn. */
  function ScoreTrace(stopped: Outputs): seq<Segment>
  {
    var flicked := stopped.(flickBrake := Hold, flick := Absolute(Home, FLICK_RPM));
    FlickOnceTrace(stopped) + [Segment(300, flicked)]
    + TurnTrace(flicked, 1100) + DriveTimedTrace(flicked, 9000, 9000, 2400)
    + TurnTrace(flicked, 300)
  }

  /** The waits of steps 1 to 9 of the autonomous routine from outputs `o`:
      the collecting drives and turns with the intake on, then the scoring
      steps with the drive and intake off. */
  function OpeningTrace(o: Outputs): seq<Segment>
  {
    var intaking := o.(intakeL := INTAKE_MV, intakeR := INTAKE_MV);
    CollectTrace(intaking) + ScoreTrace(intaking.(intakeL := 0, intakeR := 0).WithDrive(0, 0))
  }

  /** The outputs steps 1 to 9 leave from outputs `o`. */
  function OpeningEnd(o: Outputs): Outputs
  {
    o.(intakeL := 0, intakeR := 0, flickBrake := Hold, flick := Absolute(Home, FLICK_RPM)).WithDrive(0, 0)
  }

  /** The waits of steps 10 to 13 of the autonomous routine from outputs
      `o`: the lift raised, the slow drive into the loader and the loading
      with the intake on, the drive back, and the descorer raised. */
  function LoaderTrace(o: Outputs): seq<Segment>
  {
    var lifted := o.(liftUp := true, liftDown := false);
    var loading := lifted.(intakeL := INTAKE_MV, intakeR := INTAKE_MV).WithDrive(0, 0);
    [Segment(300, lifted)]
    + DriveTimedTrace(loading, 6000, 6000, 800) + [Segment(2000, loading)]
    + DriveTimedTrace(loading, -9000, -9000, 1200)
    + [Segment(200, LoaderEnd(o))]
  }

  /** The outputs steps 10 to 13 leave from outputs `o`. */
  function LoaderEnd(o: Outputs): Outputs
  {
    o.(liftUp := true, liftDown := false, intakeL := INTAKE_MV, intakeR := INTAKE_MV,
       descorerUp := true, descorerDown := false).WithDrive(0, 0)
  }

  /** The waits of the whole autonomous routine from outputs `o`: the opening
      route under brake braking, the loader steps, and the six-cycle volley. */
  function AutonTrace(o: Outputs): seq<Segment>
  {
    var arrived := OpeningEnd(o.(driveBrake := Brake));
    OpeningTrace(o.(driveBrake := Brake)) + LoaderTrace(arrived) + VolleyTrace(6, LoaderEnd(arrived))
  }

  /** Appending a trace in two pieces is appending it whole. */
  lemma AppendAssoc(a: seq<Segment>, b: seq<Segment>, c: seq<Segment>)
    ensures a + (b + c) == (a + b) + c
  {
  }

  /** The time of two traces one after the other is the sum of their times. */
  lemma {:induction false} DurationAppend(a: seq<Segment>, b: seq<Segment>)
    ensures Duration(a + b) == Duration(a) + Duration(b)
  {
    if a == [] {
      assert a + b == b;
    } else {
      assert (a + b)[1..] == a[1..] + b;
      DurationAppend(a[1..], b);
    }
  }

  /** Two traces one after the other last as long as both together, and
      are safe exactly when both are. */
  lemma {:induction false} Join(a: seq<Segment>, b: seq<Segment>)
    ensures Duration(a + b) == Duration(a) + Duration(b)
    ensures HeldSafe(a + b) <==> HeldSafe(a) && HeldSafe(b)
  {
    DurationAppend(a, b);
    if HeldSafe(a) && HeldSafe(b) {
      forall k | 0 <= k < |a + b|
        ensures (a + b)[k].out.LinesSafe()
      {
        if k < |a| {
          assert (a + b)[k] == a[k];
        } else {
          assert (a + b)[k] == b[k - |a|];
        }
      }
    }
    if HeldSafe(a + b) {
      forall k | 0 <= k < |a|
        ensures a[k].out.LinesSafe()
      {
        assert (a + b)[k] == a[k];
      }
      forall k | 0 <= k < |b|
        ensures b[k].out.LinesSafe()
      {
        assert (a + b)[|a| + k] == b[k];
      }
    }
  }

  /** The time of one or two waits. */
  lemma DurationShort(x: Segment, y: Segment)
    ensures Duration([x]) == x.ms
    ensures Duration([x, y]) == x.ms + y.ms
  {
    assert [x][1..] == [] && [y][1..] == [];
    assert Duration([y]) == y.ms;
    assert [x, y][1..] == [y];
  }

  /** The alignment loop holds a command for exactly the time it runs: the
      passes it lists last as long as `AlignFrom` says the loop takes. */
  lemma {:induction false} AlignTraceDuration(vision: nat -> VisionObject, timeoutMs: int, t: nat, o: Outputs)
    ensures Duration(AlignTrace(vision, timeoutMs, t, o)) == AlignFrom(vision, timeoutMs, t).elapsed - t
    decreases timeoutMs - t
  {
    if t < timeoutMs && !AlignDecision(vision(t)).Centered? {
      var tr := AlignTrace(vision, timeoutMs, t, o);
      AlignTraceDuration(vision, timeoutMs, t + POLL_MS, o);
      assert tr[1..] == AlignTrace(vision, timeoutMs, t + POLL_MS, o);
    }
  }

  /** Every pass the alignment loop holds turns the robot in place: the left
      side forward or backward and the right side the opposite way, never
      at rest, with every other output as it was. */
  lemma {:induction false} AlignTraceTurns(vision: nat -> VisionObject, timeoutMs: int, t: nat, o: Outputs)
    ensures forall k :: 0 <= k < |AlignTrace(vision, timeoutMs, t, o)| ==>
      var held := AlignTrace(vision, timeoutMs, t, o)[k].out;
      held.WithDrive(0, 0) == o.WithDrive(0, 0) && held.LeftIs(held.lTop) && held.RightIs(-held.lTop) && held.lTop != 0
    decreases timeoutMs - t
  {
    if t < timeoutMs && !AlignDecision(vision(t)).Centered? {
      var tr := AlignTrace(vision, timeoutMs, t, o);
      var rest := AlignTrace(vision, timeoutMs, t + POLL_MS, o);
      AlignTraceTurns(vision, timeoutMs, t + POLL_MS, o);
      assert forall k :: 1 <= k < |tr| ==> tr[k] == rest[k - 1];
    }
  }

  /** `n` cycles of the volley last `n` times 620 ms, send the flicker to the
      flick angle at the start of every cycle and home for the rest of it,
      and command nothing but the flicker. */
  lemma {:induction false} VolleyShape(n: nat, o: Outputs)
    ensures |VolleyTrace(n, o)| == 3 * n
    ensures Duration(VolleyTrace(n, o)) == 620 * n
    ensures forall k :: 0 <= k < 3 * n ==>
      VolleyTrace(n, o)[k].out == o.(flickBrake := Hold,
                                     flick := Absolute(if k % 3 == 0 then FlickDeg else Home, FLICK_RPM))
  {
    if n > 0 {
      VolleyShape(n - 1, o);
      var up := Segment(FLICK_SETTLE_MS, o.(flickBrake := Hold, flick := Absolute(FlickDeg, FLICK_RPM)));
      var home := Segment(FLICK_SETTLE_MS, o.(flickBrake := Hold, flick := Absolute(Home, FLICK_RPM)));
      var gap := Segment(FLICK_GAP_MS, o.(flickBrake := Hold, flick := Absolute(Home, FLICK_RPM)));
      AppendAssoc(VolleyTrace(n - 1, o), [up, home], [gap]);
      assert [up, home] + [gap] == [up, home, gap];
      DurationShort(up, home);
      DurationShort(gap, gap);
      Join([up, home], [gap]);
      Join(VolleyTrace(n - 1, o), [up, home, gap]);
    }
  }

  /** The steps of the autonomous routine take `AUTON_MS` in all, and a routine
      begun with no cylinder's lines both high never holds such lines. */
  lemma {:induction false} AutonShape(o: Outputs)
    ensures Duration(AutonTrace(o)) == AUTON_MS
    ensures o.LinesSafe() ==> HeldSafe(AutonTrace(o))
  {
    var braked := o.(driveBrake := Brake);
    var arrived := OpeningEnd(braked);
    OpeningShape(braked);
    LoaderShape(arrived);
    VolleyShape(6, LoaderEnd(arrived));
    Join(OpeningTrace(braked), LoaderTrace(arrived));
    Join(OpeningTrace(braked) + LoaderTrace(arrived), VolleyTrace(6, LoaderEnd(arrived)));
  }

  /** Steps 1 to 5 take 5550 ms and touch no cylinder line. */
  lemma {:induction false} CollectShape(o: Outputs)
    ensures Duration(CollectTrace(o)) == 5550
    ensures o.LinesSafe() ==> HeldSafe(CollectTrace(o))
  {
    var p1, p2 := DriveTimedTrace(o, 9000, 9000, 1200), TurnTrace(o, 600);
    var p3, p4 := DriveTimedTrace(o, 9000, 9000, 1200), TurnTrace(o, 800);
    var p5 := DriveTimedTrace(o, 9000, 9000, 1600);
    DurationShort(p1[0], p1[1]);
    DurationShort(p2[0], p2[0]);
    DurationShort(p4[0], p4[0]);
    DurationShort(p5[0], p5[1]);
    Join(p1, p2);
    Join(p1 + p2, p3);
    Join(p1 + p2 + p3, p4);
    Join(p1 + p2 + p3 + p4, p5);
  }

  /** Steps 6 to 9 take 4650 ms and touch no cylinder line. */
  lemma {:induction false} ScoreShape(o: Outputs)
    ensures Duration(ScoreTrace(o)) == 4650
    ensures o.LinesSafe() ==> HeldSafe(ScoreTrace(o))
  {
    var flicked := o.(flickBrake := Hold, flick := Absolute(Home, FLICK_RPM));
    var p1, p2 := FlickOnceTrace(o), [Segment(300, flicked)];
    var p3, p4, p5 := TurnTrace(flicked, 1100), DriveTimedTrace(flicked, 9000, 9000, 2400), TurnTrace(flicked, 300);
    DurationShort(p1[0], p1[1]);
    DurationShort(p2[0], p2[0]);
    DurationShort(p3[0], p3[0]);
    DurationShort(p4[0], p4[1]);
    DurationShort(p5[0], p5[0]);
    Join(p1, p2);
    Join(p1 + p2, p3);
    Join(p1 + p2 + p3, p4);
    Join(p1 + p2 + p3 + p4, p5);
  }

  /** Steps 1 to 9 take 10200 ms and touch no cylinder line, so they hold
      safe lines when they start from safe ones. */
  lemma {:induction false} OpeningShape(o: Outputs)
    ensures Duration(OpeningTrace(o)) == 10200
    ensures o.LinesSafe() ==> HeldSafe(OpeningTrace(o))
  {
    var intaking := o.(intakeL := INTAKE_MV, intakeR := INTAKE_MV);
    var stopped := intaking.(intakeL := 0, intakeR := 0).WithDrive(0, 0);
    CollectShape(intaking);
    ScoreShape(stopped);
    Join(CollectTrace(intaking), ScoreTrace(stopped));
  }

  /** Steps 10 to 13 take 4600 ms and drive each cylinder's lines one at a
      time: the lift's up and not down, then the descorer's likewise. */
  lemma {:induction false} LoaderShape(o: Outputs)
    ensures Duration(LoaderTrace(o)) == 4600
    ensures Exclusive(o.DescorerLines()) ==> HeldSafe(LoaderTrace(o))
  {
    var lifted := o.(liftUp := true, liftDown := false);
    var loading := lifted.(intakeL := INTAKE_MV, intakeR := INTAKE_MV).WithDrive(0, 0);
    var p1, p2 := [Segment(300, lifted)], DriveTimedTrace(loading, 6000, 6000, 800);
    var p3, p4 := [Segment(2000, loading)], DriveTimedTrace(loading, -9000, -9000, 1200);
    var p5 := [Segment(200, LoaderEnd(o))];
    DurationShort(p1[0], p1[0]);
    DurationShort(p2[0], p2[1]);
    DurationShort(p3[0], p3[0]);
    DurationShort(p4[0], p4[1]);
    DurationShort(p5[0], p5[0]);
    Join(p1, p2);
    Join(p1 + p2, p3);
    Join(p1 + p2 + p3, p4);
    Join(p1 + p2 + p3 + p4, p5);
  }

  class Robot {
    /** The commands last sent to the actuators. */
    var out: Outputs
    /** The latch behind the X button; it lives as long as the program. */
    var hold: bool
    /** Milliseconds since start-up. */
    var clock: int
    /** Every wait so far, oldest first, with the outputs held during it:
        what the actuators were commanded to do, and for how long. */
    ghost var held: seq<Segment>

    constructor ()
      ensures out == STARTUP && !hold && clock == 0 && held == []
    {
      out := STARTUP;
      hold := false;
      clock := 0;
      held := [];
    }

    /** `pros::delay(ms)`: block for `ms` milliseconds, the outputs held. */
    method Delay(ms: nat)
      modifies this
      ensures out == old(out) && hold == old(hold)
      ensures clock == old(clock) + ms
      ensures held == old(held) + [Segment(ms, out)]
    {
      clock := clock + ms;
      held := held + [Segment(ms, out)];
    }

    /** `setDriveBrake(mode)`: the same braking policy on all six drive motors. */
    method SetDriveBrake(mode: BrakeMode)
      modifies this
      ensures hold == old(hold) && held == old(held) && clock == old(clock)
      ensures out == old(out).(driveBrake := mode)
    {
      out := out.(driveBrake := mode);
    }

    /** `driveTankMV(left, right)`: each side's request is clamped and sent to
        all three motors of that side; nothing else changes. */
    method DriveTankMV(leftMv: int, rightMv: int)
      modifies this
      ensures hold == old(hold) && held == old(held) && clock == old(clock)
      ensures out == old(out).WithDrive(ClampMV(leftMv), ClampMV(rightMv))
    {
      var l := ClampMV(leftMv);
      var r := ClampMV(rightMv);
      out := out.(lTop := l);
      out := out.(lRear := l);
      out := out.(lFront := l);
      out := out.(rTop := r);
      out := out.(rRear := r);
      out := out.(rFront := r);
    }

    /** `stopDrive()`: `driveTankMV(0, 0)`. */
    method StopDrive()
      modifies this
      ensures hold == old(hold) && held == old(held) && clock == old(clock)
      ensures out == old(out).WithDrive(0, 0)
    {
      DriveTankMV(0, 0);
    }

    /** `intakeOn(mv)`: both intake motors at `mv` (default `INTAKE_MV`). */
    method IntakeOn(mv: int)
      modifies this
      ensures hold == old(hold) && held == old(held) && clock == old(clock)
      ensures out == old(out).(intakeL := mv, intakeR := mv)
    {
      out := out.(intakeL := mv);
      out := out.(intakeR := mv);
    }

    /** `intakeReverse(mv)`: both intake motors at `-mv`. */
    method IntakeReverse(mv: int)
      modifies this
      ensures hold == old(hold) && held == old(held) && clock == old(clock)
      ensures out == old(out).(intakeL := -mv, intakeR := -mv)
    {
      out := out.(intakeL := -mv);
      out := out.(intakeR := -mv);
    }

    /** `intakeOff()`. */
    method IntakeOff()
      modifies this
      ensures hold == old(hold) && held == old(held) && clock == old(clock)
      ensures out == old(out).(intakeL := 0, intakeR := 0)
    {
      out := out.(intakeL := 0);
      out := out.(intakeR := 0);
    }

    /** `flickUp()`: hold braking, then move to the flick angle. */
    method FlickUp()
      modifies this
      ensures hold == old(hold) && held == old(held) && clock == old(clock)
      ensures out == old(out).(flickBrake := Hold, flick := Absolute(FlickDeg, FLICK_RPM))
    {
      out := out.(flickBrake := Hold);
      out := out.(flick := Absolute(FlickDeg, FLICK_RPM));
    }

    /** `flickDown()`: hold braking, then move home. */
    method FlickDown()
      modifies this
      ensures hold == old(hold) && held == old(held) && clock == old(clock)
      ensures out == old(out).(flickBrake := Hold, flick := Absolute(Home, FLICK_RPM))
    {
      out := out.(flickBrake := Hold);
      out := out.(flick := Absolute(Home, FLICK_RPM));
    }

    /** `flickOnce()`: out to the flick angle and back home, waiting 250 ms
        after each move. */
    method FlickOnce()
      modifies this
      ensures hold == old(hold)
      ensures out == old(out).(flickBrake := Hold, flick := Absolute(Home, FLICK_RPM))
      ensures clock == old(clock) + 2 * FLICK_SETTLE_MS
      ensures held == old(held) + FlickOnceTrace(old(out))
    {
      FlickUp();
      Delay(FLICK_SETTLE_MS);
      FlickDown();
      Delay(FLICK_SETTLE_MS);
    }

    /** One pass of `visionAlignGoal` for sample `o`: the search sweep, a
        stop, or the proportional turn as equal and opposite voltages, as
        `AlignDecision` chooses; every pass but the centred one then waits
        `POLL_MS` with that command held. */
    method AlignPass(o: VisionObject) returns (s: AlignStep)
      modifies this
      ensures hold == old(hold)
      ensures s == AlignDecision(o)
      ensures out == old(out).WithDrive(AlignDrive(s), -AlignDrive(s))
      ensures s.Centered? ==> held == old(held) && clock == old(clock)
      ensures !s.Centered? ==> held == old(held) + [Segment(POLL_MS, out)] && clock == old(clock) + POLL_MS
    {
      s := AlignDecision(o);
      if o.signature == 0 || o.width < MIN_WIDTH {
        DriveTankMV(SCAN_MV, -SCAN_MV);
        Delay(POLL_MS);
        return;
      }
      var err := o.xMiddle - VISION_CENTER_X;
      if Abs(err) <= VISION_TOL {
        StopDrive();
        return;
      }
      var turn := Clamp(err * TURN_GAIN, -TURN_CAP, TURN_CAP);
      DriveTankMV(turn, -turn);
      Delay(POLL_MS);
    }

    /** `visionAlignGoal(timeoutMs)`: poll the sensor every `POLL_MS` until
        the target is centred or `timeoutMs` has elapsed. `vision(u)` is the
        sample the sensor gives `u` ms after the call. Every exit leaves the
        drive stopped and nothing else changed; the result and the time spent
        are those of `AlignFrom(vision, timeoutMs, 0)`, and the commands held
        meanwhile are those `AlignTrace` lists. */
    method VisionAlignGoal(vision: nat -> VisionObject, timeoutMs: int) returns (found: bool)
      modifies this
      ensures hold == old(hold)
      ensures out == old(out).WithDrive(0, 0)
      ensures found == AlignFrom(vision, timeoutMs, 0).CenteredAt?
      ensures clock == old(clock) + AlignFrom(vision, timeoutMs, 0).elapsed
      ensures found ==> clock - old(clock) < timeoutMs && AlignDecision(vision(clock - old(clock))).Centered?
      ensures !found ==> clock - old(clock) >= timeoutMs
      ensures held == old(held) + AlignTrace(vision, timeoutMs, 0, old(out))
    {
      var start := clock;
      ghost var goal := old(held) + AlignTrace(vision, timeoutMs, 0, old(out));
      while clock - start < timeoutMs
        invariant start == old(clock) <= clock && hold == old(hold)
        invariant out.WithDrive(0, 0) == old(out).WithDrive(0, 0)
        invariant AlignFrom(vision, timeoutMs, clock - start) == AlignFrom(vision, timeoutMs, 0)
        invariant goal == held + AlignTrace(vision, timeoutMs, clock - start, old(out))
        decreases timeoutMs - (clock - start)
      {
        ghost var before := held;
        ghost var rest := AlignTrace(vision, timeoutMs, clock - start + POLL_MS, old(out));
        var s := AlignPass(vision(clock - start));
        if s.Centered? {
          assert held + [] == held;
          return true;
        }
        AppendAssoc(before, [held[|held| - 1]], rest);
      }
      assert held + [] == held;
      StopDrive();
      return false;
    }

    /** `driveTimed(left, right, ms)`: drive for `ms`, stop, and settle. */
    method DriveTimed(leftMv: int, rightMv: int, ms: nat)
      modifies this
      ensures hold == old(hold)
      ensures out == old(out).WithDrive(0, 0)
      ensures clock == old(clock) + ms + SETTLE_MS
      ensures held == old(held) + DriveTimedTrace(old(out), leftMv, rightMv, ms)
    {
      DriveTankMV(leftMv, rightMv);
      Delay(ms);
      StopDrive();
      Delay(SETTLE_MS);
    }

    /** `initialize()`: braking for autonomous and every cylinder line low. */
    method Initialize()
      modifies this
      ensures hold == old(hold) && held == old(held) && clock == old(clock)
      ensures out == old(out).(driveBrake := Brake, liftUp := false, liftDown := false,
                               descorerUp := false, descorerDown := false)
      ensures out.LinesSafe()
    {
      SetDriveBrake(Brake);
      out := out.(liftUp := false);
      out := out.(liftDown := false);
      out := out.(descorerUp := false);
      out := out.(descorerDown := false);
    }

    /** Steps 1 to 9 of `autonomous()`: the timed drives and turns that
        collect balls, flick into the medium goal and reach the loader. They
        leave the drive stopped, the intake off and the flicker home, and
        touch nothing else. */
    method OpeningRoute()
      modifies this
      ensures hold == old(hold)
      ensures out == OpeningEnd(old(out))
      ensures clock == old(clock) + 10200
      ensures held == old(held) + OpeningTrace(old(out))
    {
      // the waits so far, as a prefix of the route's trace
      ghost var h0, o := held, out;
      ghost var intaking := o.(intakeL := INTAKE_MV, intakeR := INTAKE_MV);
      ghost var done: seq<Segment>;

      // 1) forward while intaking
      IntakeOn(INTAKE_MV);
      DriveTimed(9000, 9000, 1200);
      done := DriveTimedTrace(intaking, 9000, 9000, 1200);

      // 2) right 90 degrees
      DriveTankMV(5000, -5000);
      Delay(600);
      StopDrive();
      AppendAssoc(h0, done, TurnTrace(intaking, 600));
      done := done + TurnTrace(intaking, 600);

      // 3) forward over more balls
      DriveTimed(9000, 9000, 1200);
      AppendAssoc(h0, done, DriveTimedTrace(intaking, 9000, 9000, 1200));
      done := done + DriveTimedTrace(intaking, 9000, 9000, 1200);

      // 4) right 135 degrees
      DriveTankMV(5000, -5000);
      Delay(800);
      StopDrive();
      AppendAssoc(h0, done, TurnTrace(intaking, 800));
      done := done + TurnTrace(intaking, 800);

      // 5) forward 4 feet
      DriveTimed(9000, 9000, 1600);
      AppendAssoc(h0, done, DriveTimedTrace(intaking, 9000, 9000, 1600));
      done := done + DriveTimedTrace(intaking, 9000, 9000, 1600);
      assert done == CollectTrace(intaking);

      // 6) flick into the medium goal
      IntakeOff();
      ghost var h1, stopped := held, out;
      ghost var flicked := stopped.(flickBrake := Hold, flick := Absolute(Home, FLICK_RPM));
      FlickOnce();
      done := FlickOnceTrace(stopped);
      Delay(300);
      AppendAssoc(h1, done, [Segment(300, flicked)]);
      done := done + [Segment(300, flicked)];

      // 7) turn around
      DriveTankMV(5000, -5000);
      Delay(1100);
      StopDrive();
      AppendAssoc(h1, done, TurnTrace(flicked, 1100));
      done := done + TurnTrace(flicked, 1100);

      // 8) forward 6 feet
      DriveTimed(9000, 9000, 2400);
      AppendAssoc(h1, done, DriveTimedTrace(flicked, 9000, 9000, 2400));
      done := done + DriveTimedTrace(flicked, 9000, 9000, 2400);

      // 9) right 45 degrees
      DriveTankMV(5000, -5000);
      Delay(300);
      StopDrive();
      AppendAssoc(h1, done, TurnTrace(flicked, 300));
      done := done + TurnTrace(flicked, 300);
      assert done == ScoreTrace(stopped);
      AppendAssoc(h0, CollectTrace(intaking), done);
    }

    /** The closing volley of `autonomous()`: six flick cycles, each followed
        by a 120 ms pause; only the flicker is commanded. */
    method FlickVolley()
      modifies this
      ensures hold == old(hold)
      ensures out == old(out).(flickBrake := Hold, flick := Absolute(Home, FLICK_RPM))
      ensures clock == old(clock) + 6 * (2 * FLICK_SETTLE_MS + FLICK_GAP_MS)
      ensures held == old(held) + VolleyTrace(6, old(out))
    {
      ghost var entry := out.(flickBrake := Hold, flick := Absolute(Home, FLICK_RPM));
      for i := 0 to 6
        invariant clock == old(clock) + 620 * i
        invariant out == if i == 0 then old(out) else entry
        invariant hold == old(hold)
        invariant held == old(held) + VolleyTrace(i, old(out))
      {
        assert FlickOnceTrace(out) == FlickOnceTrace(old(out));
        FlickOnce();
        Delay(FLICK_GAP_MS);
        AppendAssoc(old(held), VolleyTrace(i, old(out)), FlickOnceTrace(old(out)));
        AppendAssoc(old(held), VolleyTrace(i, old(out)) + FlickOnceTrace(old(out)), [Segment(FLICK_GAP_MS, entry)]);
      }
    }

    /** Steps 10 to 13 of `autonomous()`: lift up, into the loader and load
        with the intake on, back out, and the descorer up. */
    method LoaderRoute()
      modifies this
      ensures hold == old(hold)
      ensures out == LoaderEnd(old(out))
      ensures clock == old(clock) + 4600
      ensures held == old(held) + LoaderTrace(old(out))
    {
      ghost var h0, o := held, out;
      ghost var loading := o.(liftUp := true, liftDown := false, intakeL := INTAKE_MV, intakeR := INTAKE_MV).WithDrive(0, 0);
      ghost var done: seq<Segment>;

      // 10) lift up, slowly into the loader
      out := out.(liftUp := true);
      out := out.(liftDown := false);
      Delay(300);
      done := [Segment(300, o.(liftUp := true, liftDown := false))];
      IntakeOn(INTAKE_MV);
      DriveTimed(6000, 6000, 800);
      AppendAssoc(h0, done, DriveTimedTrace(loading, 6000, 6000, 800));
      done := done + DriveTimedTrace(loading, 6000, 6000, 800);

      // 11) load six balls
      IntakeOn(INTAKE_MV);
      Delay(2000);
      AppendAssoc(h0, done, [Segment(2000, loading)]);
      done := done + [Segment(2000, loading)];

      // 12) back 3 feet
      DriveTimed(-9000, -9000, 1200);
      AppendAssoc(h0, done, DriveTimedTrace(loading, -9000, -9000, 1200));
      done := done + DriveTimedTrace(loading, -9000, -9000, 1200);

      // 13) descorer up
      out := out.(descorerUp := true);
      out := out.(descorerDown := false);
      Delay(200);
      AppendAssoc(h0, done, [Segment(200, LoaderEnd(o))]);
      done := done + [Segment(200, LoaderEnd(o))];
      assert done == LoaderTrace(o);
    }

    /** `autonomous()`: the fixed open-loop routine. Whatever the outputs were,
        it ends with the drive and intake stopped, every cylinder line low, the
        flicker home under hold braking and the drive braking set for
        autonomous, after blocking for `AUTON_MS`; meanwhile it holds the
        commands `AutonTrace` lists. */
    method Autonomous()
      modifies this
      ensures hold == old(hold)
      ensures out == AUTON_END
      ensures clock == old(clock) + AUTON_MS
      ensures held == old(held) + AutonTrace(old(out))
    {
      ghost var h0, braked := held, old(out).(driveBrake := Brake);
      SetDriveBrake(Brake);

      OpeningRoute();
      ghost var arrived := out;
      assert held == h0 + OpeningTrace(braked);
      LoaderRoute();
      AppendAssoc(h0, OpeningTrace(braked), LoaderTrace(arrived));

      // then six flicks into the high goal
      ghost var loaded := out;
      FlickVolley();
      AppendAssoc(h0, OpeningTrace(braked) + LoaderTrace(arrived), VolleyTrace(6, loaded));
      assert held == h0 + AutonTrace(old(out));

      // cleanup
      IntakeOff();
      out := out.(descorerUp := false);
      out := out.(descorerDown := false);
      out := out.(liftUp := false);
      out := out.(liftDown := false);
      StopDrive();
    }

    /** Entry into `opcontrol()`: coast braking, both toggles cleared. */
    method EnterOpcontrol() returns (st: DriverState)
      modifies this
      ensures hold == old(hold) && held == old(held) && clock == old(clock)
      ensures out == old(out).(driveBrake := Coast)
      ensures st == DriverState(false, false)
    {
      SetDriveBrake(Coast);
      st := DriverState(false, false);
    }

    /** The stick half of an `opcontrol()` tick: each stick through the dead
        band and scaled to millivolts with truncating division, then clamped,
        on all three motors of its side; nothing else changes. */
    method DriveSticks(leftRaw: int, rightRaw: int)
      modifies this
      ensures hold == old(hold) && held == old(held) && clock == old(clock)
      ensures out == old(out).WithDrive(StickToMV(leftRaw), StickToMV(rightRaw))
    {
      var leftY := Deadband(leftRaw, DEADBAND);
      var rightY := Deadband(rightRaw, DEADBAND);
      var leftMv := ClampMV(TruncDiv(leftY * DRIVE_MAX_MV, STICK_RANGE));
      var rightMv := ClampMV(TruncDiv(rightY * DRIVE_MAX_MV, STICK_RANGE));
      out := out.(lTop := leftMv);
      out := out.(lRear := leftMv);
      out := out.(lFront := leftMv);
      out := out.(rTop := rightMv);
      out := out.(rRear := rightMv);
      out := out.(rFront := rightMv);
    }

    /** Intake on R1, reverse on R2, off otherwise; R1 wins when both are held. */
    method IntakeButtons(r1: bool, r2: bool)
      modifies this
      ensures hold == old(hold) && held == old(held) && clock == old(clock)
      ensures out == old(out).(intakeL := out.intakeL, intakeR := out.intakeL)
      ensures r1 ==> out.intakeL == INTAKE_MV
      ensures !r1 && r2 ==> out.intakeL == -INTAKE_MV
      ensures !r1 && !r2 ==> out.intakeL == 0
    {
      if r1 {
        IntakeOn(INTAKE_MV);
      } else if r2 {
        IntakeReverse(INTAKE_MV);
      } else {
        IntakeOff();
      }
    }

    /** A new L1 press pulses the flicker forward and a new L2 press backward,
        each at `FLICK_MV` for `FLICK_TIME_MS` and then back to zero volts. */
    method FlickPulses(l1New: bool, l2New: bool)
      modifies this
      ensures hold == old(hold)
      ensures out == old(out).(flick := if l1New || l2New then Voltage(0) else old(out.flick))
      ensures clock == old(clock) + (if l1New then FLICK_TIME_MS else 0)
                                   + (if l2New then FLICK_TIME_MS else 0)
      ensures held == old(held) + PulseTrace(l1New, l2New, old(out))
    {
      if l1New {
        out := out.(flick := Voltage(FLICK_MV));
        Delay(FLICK_TIME_MS);
        out := out.(flick := Voltage(0));
      }
      if l2New {
        out := out.(flick := Voltage(-FLICK_MV));
        Delay(FLICK_TIME_MS);
        out := out.(flick := Voltage(0));
      }
    }

    /** A new Y press drives the lift to the other position; `lift` is the
        remembered state. */
    method LiftButton(yNew: bool, lift: bool) returns (lift': bool)
      modifies this
      ensures hold == old(hold) && held == old(held) && clock == old(clock)
      ensures var t := if yNew then PressLift(Toggle(lift, old(out).LiftLines())) else Toggle(lift, old(out).LiftLines());
        lift' == t.state && out == old(out).(liftUp := t.lines.up, liftDown := t.lines.down)
    {
      lift' := lift;
      if yNew {
        if lift' {
          out := out.(liftUp := false);
          out := out.(liftDown := true);
          lift' := false;
        } else {
          out := out.(liftUp := true);
          out := out.(liftDown := false);
          lift' := true;
        }
      }
    }

    /** A new A press flips the descorer: extended drives only its down line,
        retracted leaves both lines low. */
    method DescorerButton(aNew: bool, descorer: bool) returns (descorer': bool)
      modifies this
      ensures hold == old(hold) && held == old(held) && clock == old(clock)
      ensures var t := if aNew then PressDescorer(Toggle(descorer, old(out).DescorerLines())) else Toggle(descorer, old(out).DescorerLines());
        descorer' == t.state && out == old(out).(descorerUp := t.lines.up, descorerDown := t.lines.down)
    {
      descorer' := descorer;
      if aNew {
        descorer' := !descorer';
        if descorer' {
          out := out.(descorerDown := true);
          out := out.(descorerUp := false);
        } else {
          out := out.(descorerDown := false);
          out := out.(descorerUp := false);
        }
      }
    }

    /** A new X press flips the hold latch and sets the drive braking to hold
        or coast to match. */
    method HoldButton(xNew: bool)
      modifies this
      ensures held == old(held) && clock == old(clock)
      ensures var h := if xNew then PressHold(old(hold)) else (old(hold), old(out.driveBrake));
        hold == h.0 && out == old(out).(driveBrake := h.1)
    {
      if xNew {
        hold := !hold;
        SetDriveBrake(if hold then Hold else Coast);
      }
    }

    /** The toggle blocks of one tick: Y, then A, then X. Together they act on
        the toggles as `PressButtons` says and touch no other output. */
    method ToggleButtons(inp: TickInput, st: DriverState) returns (st': DriverState)
      modifies this
      ensures held == old(held) && clock == old(clock)
      ensures out.Untoggled() == old(out).Untoggled()
      ensures PanelOf(out, hold, st') == PressButtons(inp, PanelOf(old(out), old(hold), st))
    {
      var lift := LiftButton(inp.yNew, st.lift);
      var descorer := DescorerButton(inp.aNew, st.descorer);
      HoldButton(inp.xNew);
      st' := DriverState(lift, descorer);
    }

    /** One pass of the `opcontrol()` loop: sticks, intake, flicker, the three
        toggles, then the tick's sleep. */
    method DriverTick(inp: TickInput, st: DriverState) returns (st': DriverState)
      modifies this
      // sticks: one voltage per side, shared by its three motors
      ensures out.LeftIs(StickToMV(inp.leftY)) && out.RightIs(StickToMV(inp.rightY))
      // intake: R1 wins over R2, and neither means off
      ensures out.intakeL == out.intakeR
      ensures inp.r1 ==> out.intakeL == INTAKE_MV
      ensures !inp.r1 && inp.r2 ==> out.intakeL == -INTAKE_MV
      ensures !inp.r1 && !inp.r2 ==> out.intakeL == 0
      // flicker: a timed voltage pulse per new L1 or L2 press, ending at rest
      ensures inp.l1New || inp.l2New ==> out.flick == Voltage(0)
      ensures !inp.l1New && !inp.l2New ==> out.flick == old(out.flick)
      ensures out.flickBrake == old(out.flickBrake)
      ensures var sticks := old(out).WithDrive(StickToMV(inp.leftY), StickToMV(inp.rightY))
                                    .(intakeL := out.intakeL, intakeR := out.intakeR);
        held == old(held) + PulseTrace(inp.l1New, inp.l2New, sticks) + [Segment(TICK_MS, out)]
      // toggles: lift on Y, descorer on A, hold braking on X
      ensures PanelOf(out, hold, st') == PressButtons(inp, PanelOf(old(out), old(hold), st))
      ensures clock == old(clock) + TICK_MS
                       + (if inp.l1New then FLICK_TIME_MS else 0)
                       + (if inp.l2New then FLICK_TIME_MS else 0)
    {
      DriveSticks(inp.leftY, inp.rightY);
      IntakeButtons(inp.r1, inp.r2);
      FlickPulses(inp.l1New, inp.l2New);
      st' := ToggleButtons(inp, st);
      Delay(TICK_MS);
    }

    /** `opcontrol()` run for the ticks `ins`: coast braking on entry, then one
        `DriverTick` per input. The toggles evolve as `PressAll` says, so each
        ends flipped once per press of its button, no cylinder that starts
        with exclusive lines ever gets both high, and the lift lines name the
        lift's position once Y has been pressed. */
    method Opcontrol(ins: seq<TickInput>) returns (st: DriverState)
      modifies this
      ensures PanelOf(out, hold, st) == PressAll(ins, Panel(Toggle(false, old(out.LiftLines())),
                                                 Toggle(false, old(out.DescorerLines())),
                                                 old(hold), Coast))
      ensures old(out.LinesSafe()) ==> out.LinesSafe()
      ensures st.lift == Flipped(false, LiftPresses(ins))
      ensures st.descorer == Flipped(false, DescorerPresses(ins))
      ensures hold == Flipped(old(hold), HoldPresses(ins))
      ensures LiftPresses(ins) > 0 ==> LiftSettled(Toggle(st.lift, out.LiftLines()))
      ensures clock >= old(clock) + TICK_MS * |ins|
    {
      st := EnterOpcontrol();
      ghost var p0 := PanelOf(out, hold, st);
      var i := 0;
      while i < |ins|
        invariant 0 <= i <= |ins|
        invariant PanelOf(out, hold, st) == PressAll(ins[..i], p0)
        invariant clock >= old(clock) + TICK_MS * i
      {
        assert ins[..i + 1] == ins[..i] + [ins[i]];
        PressAllSnoc(ins[..i], ins[i], p0);
        st := DriverTick(ins[i], st);
        i := i + 1;
      }
      assert ins[..i] == ins;
      PressAllEffect(ins, p0);
    }
  }
}
