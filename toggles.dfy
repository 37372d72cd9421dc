/** The edge-triggered toggles of driver control: the lift (a double-acting
    cylinder on two lines), the descorer (an asymmetric pair of lines) and
    the drive brake "hold" latch. Each function is the effect of one new
    button press. */
module Toggles {

  /** Braking policy applied to the drive motors. */
  datatype BrakeMode = Coast | Brake | Hold

  /** A pair of digital output lines driving one cylinder. */
  datatype Lines = Lines(up: bool, down: bool)

  /** A toggle's remembered state together with the lines it drives. */
  datatype Toggle = Toggle(state: bool, lines: Lines)

  /** The two lines of a pair are never driven high together. */
  predicate Exclusive(l: Lines)
  {
    !(l.up && l.down)
  }

  /** A Y press: a raised lift is lowered and a lowered one raised; exactly
      one line is high afterwards, the one naming the new position. */
  function PressLift(t: Toggle): (r: Toggle)
    ensures r.state == !t.state
    ensures r.lines.up == r.state && r.lines.down == !r.state
    ensures Exclusive(r.lines)
  {
    if t.state then Toggle(false, Lines(false, true))
    else Toggle(true, Lines(true, false))
  }

  /** The lift lines agree with the remembered position. */
  predicate LiftSettled(t: Toggle)
  {
    t.lines.up == t.state && t.lines.down == !t.state
  }

  /** Two Y presses restore the position, and restore the lines too once they
      agree with the position (which every press makes them do). */
  lemma {:induction false} PressLiftTwice(t: Toggle)
    ensures PressLift(PressLift(t)).state == t.state
    ensures LiftSettled(PressLift(t))
    ensures LiftSettled(t) <==> PressLift(PressLift(t)) == t
  {
  }

  /** An A press flips the descorer: when it becomes true the down line is
      raised and the up line lowered; when it becomes false both are lowered. */
  function PressDescorer(t: Toggle): (r: Toggle)
    ensures r.state == !t.state
    ensures r.lines.down == r.state
    ensures !r.lines.up
    ensures Exclusive(r.lines)
  {
    var s := !t.state;
    if s then Toggle(s, Lines(false, true)) else Toggle(s, Lines(false, false))
  }

  /** The descorer lines agree with the remembered state. */
  predicate DescorerSettled(t: Toggle)
  {
    t.lines == Lines(false, t.state)
  }

  lemma {:induction false} PressDescorerTwice(t: Toggle)
    ensures PressDescorer(PressDescorer(t)).state == t.state
    ensures DescorerSettled(PressDescorer(t))
    ensures DescorerSettled(t) <==> PressDescorer(PressDescorer(t)) == t
  {
  }

  /** An X press flips the hold latch and selects hold braking when it is set,
      coasting when it is clear. */
  function PressHold(hold: bool): (r: (bool, BrakeMode))
    ensures r.0 == !hold
    ensures r.1 != Brake
    ensures r.1 == Hold <==> r.0
  {
    var h := !hold;
    (h, if h then Hold else Coast)
  }
}
