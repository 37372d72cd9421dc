/** The alternative driver-control routines: a straight pass-through of the
    stick axes to the two drive motor groups, and the intake, launcher and
    loader commands chosen from the controller's button flags. */
module Teleop {

  /** Full forward on the `move` scale. */
  const MOVE_MAX: int := 127

  /** The button edges one call sees: new presses, and new releases of R1 and
      R2. They are inputs here, whatever produced them. */
  datatype Flags = Flags(r1Pushed: bool, r1Released: bool,
                         r2Pushed: bool, r2Released: bool,
                         l1Pushed: bool, l2Pushed: bool,
                         aPushed: bool, bPushed: bool)
  {
    /** No flag is set. */
    predicate None()
    {
      !r1Pushed && !r1Released && !r2Pushed && !r2Released
      && !l1Pushed && !l2Pushed && !aPushed && !bPushed
    }

    /** Some flag decides the intake command. */
    predicate MovesIntake()
    {
      r1Pushed || r1Released || r2Pushed || r2Released
    }
  }

  /** The command each intake motor ends with, written as the priority table
      the blocks of `intake()` amount to: an R2 press, then an R2 release,
      then an R1 press, then an R1 release; `prev` when none is set. */
  function IntakeTable(f: Flags, prev: int): int
  {
    if f.r2Pushed then -MOVE_MAX
    else if f.r2Released then 0
    else if f.r1Pushed then MOVE_MAX
    else if f.r1Released then 0
    else prev
  }

  /** The launcher command: an L1 press beats an L2 press. */
  function LaunchTable(f: Flags, prev: int): int
  {
    if f.l1Pushed then MOVE_MAX
    else if f.l2Pushed then -MOVE_MAX
    else prev
  }

  /** Whether a loader cylinder is extended afterwards: an A press beats a
      B press. */
  function LoaderTable(f: Flags, extended: bool): bool
  {
    if f.aPushed then true
    else if f.bPushed then false
    else extended
  }

  /** The intake table depends on the R1 flags only when R2 is untouched. */
  lemma {:induction false} IntakeTableR2Wins(f: Flags, g: Flags, prev: int)
    requires f.r2Pushed == g.r2Pushed && f.r2Released == g.r2Released
    requires f.r2Pushed || f.r2Released
    ensures IntakeTable(f, prev) == IntakeTable(g, prev)
  {
  }

  /** The commands the controller routines last sent: the two drive motor
      groups, the two intake motors, the launcher, and the two loader
      cylinders (true when extended). */
  class Devices {
    var mgL: int
    var mgR: int
    var mtIN1: int
    var mtIN2: int
    var mtIN3: int
    var pn0: bool
    var pn1: bool

    /** Motors at rest and both cylinders retracted, as they are built. */
    constructor ()
      ensures mgL == 0 && mgR == 0 && mtIN1 == 0 && mtIN2 == 0 && mtIN3 == 0
      ensures !pn0 && !pn1
    {
      mgL := 0;
      mgR := 0;
      mtIN1 := 0;
      mtIN2 := 0;
      mtIN3 := 0;
      pn0 := false;
      pn1 := false;
    }

    /** `drive()`: each axis goes to its motor group unchanged; the zero and
        non-zero branches send the same value. */
    method Drive(leftY: int, rightY: int)
      modifies this
      ensures mgL == leftY && mgR == rightY
      ensures mtIN1 == old(mtIN1) && mtIN2 == old(mtIN2) && mtIN3 == old(mtIN3)
      ensures pn0 == old(pn0) && pn1 == old(pn1)
    {
      if leftY != 0 {
        mgL := leftY;
      } else if leftY == 0 {
        mgL := 0;
      }

      if rightY != 0 {
        mgR := rightY;
      } else if rightY == 0 {
        mgR := 0;
      }
    }

    /** `intake()`: the R1 block, then the R2 block, which overrides it, then
        the launcher and the loader blocks. Each intake motor ends as the
        priority table says, so both carry the same command whenever a flag
        moved them or they already agreed; the launcher and the loader
        cylinders follow their own tables, the two cylinders always together;
        the drive is untouched, and with no flag set nothing changes. */
    method Intake(f: Flags)
      modifies this
      ensures mtIN1 == IntakeTable(f, old(mtIN1)) && mtIN2 == IntakeTable(f, old(mtIN2))
      ensures f.r2Pushed ==> mtIN1 == -MOVE_MAX
      ensures !f.r2Pushed && f.r2Released ==> mtIN1 == 0
      ensures !f.r2Pushed && !f.r2Released && f.r1Pushed ==> mtIN1 == MOVE_MAX
      ensures !f.r2Pushed && !f.r2Released && !f.r1Pushed && f.r1Released ==> mtIN1 == 0
      ensures f.MovesIntake() || old(mtIN1) == old(mtIN2) ==> mtIN1 == mtIN2
      ensures mtIN3 == LaunchTable(f, old(mtIN3))
      ensures pn0 == LoaderTable(f, old(pn0)) && pn1 == LoaderTable(f, old(pn1))
      ensures f.aPushed || f.bPushed ==> pn0 == pn1
      ensures mgL == old(mgL) && mgR == old(mgR)
      ensures f.None() ==> mtIN1 == old(mtIN1) && mtIN2 == old(mtIN2) && mtIN3 == old(mtIN3)
                           && pn0 == old(pn0) && pn1 == old(pn1)
    {
      // push blocks in
      if f.r1Pushed {
        mtIN1 := MOVE_MAX;
        mtIN2 := MOVE_MAX;
      } else if f.r1Released {
        mtIN1 := 0;
        mtIN2 := 0;
      }

      // push blocks out
      if f.r2Pushed {
        mtIN1 := -MOVE_MAX;
        mtIN2 := -MOVE_MAX;
      } else if f.r2Released {
        mtIN1 := 0;
        mtIN2 := 0;
      }

      // launch
      if f.l1Pushed {
        mtIN3 := MOVE_MAX;
      } else if f.l2Pushed {
        mtIN3 := -MOVE_MAX;
      }

      // raise or retract the loader
      if f.aPushed {
        pn0 := true;
        pn1 := true;
      } else if f.bPushed {
        pn0 := false;
        pn1 := false;
      }
    }
  }
}
