/** The button state of driver control across ticks: what the controller
    reports in one tick, the toggles a tick carries over to the next, and
    their evolution over a run of ticks. */
module Driver {
  import opened Toggles

  /** What the controller reports in one driver-control tick: the two stick
      axes, whether R1 and R2 are held, and which buttons were newly pressed. */
  datatype TickInput = TickInput(leftY: int, rightY: int, r1: bool, r2: bool,
                                 l1New: bool, l2New: bool, yNew: bool, aNew: bool, xNew: bool)

  /** The toggle states driver control keeps from one tick to the next. */
  datatype DriverState = DriverState(lift: bool, descorer: bool)

  /** Everything the Y, A and X buttons act on: the lift and descorer toggles
      with their lines, the hold latch and the drive braking. */
  datatype Panel = Panel(lift: Toggle, descorer: Toggle, hold: bool, brake: BrakeMode)

  /** The effect of one tick's new presses of Y, A and X. */
  function PressButtons(inp: TickInput, p: Panel): Panel
  {
    var h := if inp.xNew then PressHold(p.hold) else (p.hold, p.brake);
    Panel(if inp.yNew then PressLift(p.lift) else p.lift,
          if inp.aNew then PressDescorer(p.descorer) else p.descorer,
          h.0, h.1)
  }

  /** The panel after the ticks `ins`, in order. */
  function PressAll(ins: seq<TickInput>, p: Panel): Panel
  {
    if ins == [] then p else PressButtons(ins[|ins| - 1], PressAll(ins[..|ins| - 1], p))
  }

  /** Number of ticks in `ins` with a new Y press. */
  function LiftPresses(ins: seq<TickInput>): nat
  {
    if ins == [] then 0
    else LiftPresses(ins[..|ins| - 1]) + (if ins[|ins| - 1].yNew then 1 else 0)
  }

  /** Number of ticks in `ins` with a new A press. */
  function DescorerPresses(ins: seq<TickInput>): nat
  {
    if ins == [] then 0
    else DescorerPresses(ins[..|ins| - 1]) + (if ins[|ins| - 1].aNew then 1 else 0)
  }

  /** Number of ticks in `ins` with a new X press. */
  function HoldPresses(ins: seq<TickInput>): nat
  {
    if ins == [] then 0
    else HoldPresses(ins[..|ins| - 1]) + (if ins[|ins| - 1].xNew then 1 else 0)
  }

  /** `b` flipped `n` times. */
  function Flipped(b: bool, n: nat): bool
  {
    if n % 2 == 0 then b else !b
  }

  /** Both cylinders' line pairs are exclusive. */
  predicate PanelSafe(p: Panel)
  {
    Exclusive(p.lift.lines) && Exclusive(p.descorer.lines)
  }

  /** Appending one tick to a run extends the run by that tick. */
  lemma PressAllSnoc(ins: seq<TickInput>, inp: TickInput, p: Panel)
    ensures PressAll(ins + [inp], p) == PressButtons(inp, PressAll(ins, p))
    ensures LiftPresses(ins + [inp]) == LiftPresses(ins) + (if inp.yNew then 1 else 0)
    ensures DescorerPresses(ins + [inp]) == DescorerPresses(ins) + (if inp.aNew then 1 else 0)
    ensures HoldPresses(ins + [inp]) == HoldPresses(ins) + (if inp.xNew then 1 else 0)
  {
    assert (ins + [inp])[..|ins|] == ins;
  }

  /** Each toggle is flipped once per press of its button, whatever else is
      pressed; the lines of a pressed toggle name its state; lines that start
      exclusive stay exclusive; and the braking is hold or coast as the hold
      latch says once X has been pressed, and is left alone until then. */
  lemma {:induction false} PressAllEffect(ins: seq<TickInput>, p: Panel)
    ensures PressAll(ins, p).lift.state == Flipped(p.lift.state, LiftPresses(ins))
    ensures PressAll(ins, p).descorer.state == Flipped(p.descorer.state, DescorerPresses(ins))
    ensures PressAll(ins, p).hold == Flipped(p.hold, HoldPresses(ins))
    ensures LiftPresses(ins) > 0 ==> LiftSettled(PressAll(ins, p).lift)
    ensures DescorerPresses(ins) > 0 ==> DescorerSettled(PressAll(ins, p).descorer)
    ensures HoldPresses(ins) > 0 ==> PressAll(ins, p).brake == (if PressAll(ins, p).hold then Hold else Coast)
    ensures HoldPresses(ins) == 0 ==> PressAll(ins, p).brake == p.brake
    ensures PanelSafe(p) ==> PanelSafe(PressAll(ins, p))
  {
    if ins != [] {
      PressAllEffect(ins[..|ins| - 1], p);
    }
  }

  /** A run that presses none of Y, A and X leaves the panel as it was. */
  lemma {:induction false} PressAllNoPress(ins: seq<TickInput>, p: Panel)
    requires forall i :: 0 <= i < |ins| ==> !ins[i].yNew && !ins[i].aNew && !ins[i].xNew
    ensures PressAll(ins, p) == p
  {
    if ins != [] {
      PressAllNoPress(ins[..|ins| - 1], p);
    }
  }

  /** Two presses of Y in a row give back the lift toggle exactly when its
      lines already named its state. */
  lemma DoubleLiftPress(p: Panel)
    ensures var y := TickInput(0, 0, false, false, false, false, true, false, false);
      PressAll([y, y], p).lift == p.lift <==> LiftSettled(p.lift)
  {
    var y := TickInput(0, 0, false, false, false, false, true, false, false);
    assert [y, y][..1] == [y];
    assert [y][..0] == [];
    assert PressAll([y], p) == PressButtons(y, p);
    assert PressAll([y, y], p) == PressButtons(y, PressButtons(y, p));
    PressLiftTwice(p.lift);
  }
}
