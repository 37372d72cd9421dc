/** The vision-alignment controller of the autonomous routine: the decision
    each polling pass takes from one sensor sample, and the outcome of the
    whole polling loop as a function of the samples and the timeout. */
module Vision {
  import opened Shaping

  /** Signature the routine asks the sensor for. */
  const VISION_SIG_GOAL: int := 1
  /** Horizontal centre of the 316-pixel camera image. */
  const VISION_CENTER_X: int := 158
  /** Largest offset, in pixels, that counts as centred. */
  const VISION_TOL: int := 12
  /** Narrower objects than this are treated as not seen. */
  const MIN_WIDTH: int := 10
  /** Left-side voltage of the search sweep; the right side gets its negation. */
  const SCAN_MV: int := 1800
  /** Proportional gain, millivolts per pixel of offset. */
  const TURN_GAIN: int := 35
  /** Largest turn voltage the proportional step may command. */
  const TURN_CAP: int := 3000
  /** Sleep of every non-terminal pass, in milliseconds. */
  const POLL_MS: nat := 20

  /** What `get_by_sig` reports about the largest matching object. */
  datatype VisionObject = VisionObject(signature: int, xMiddle: int, width: int)

  /** The action one pass of the loop takes. */
  datatype AlignStep = Scan | Centered | Turn(mv: int)

  /** The sample shows a usable target. */
  predicate Seen(o: VisionObject)
  {
    o.signature != 0 && o.width >= MIN_WIDTH
  }

  /** Horizontal offset of the target from the image centre. */
  function CenterError(o: VisionObject): int
  {
    o.xMiddle - VISION_CENTER_X
  }

  /** The decision of one polling pass: sweep when nothing usable is seen,
      stop when the target is within tolerance, otherwise a clamped
      proportional turn toward the target. */
  function AlignDecision(o: VisionObject): (s: AlignStep)
    ensures s.Scan? <==> !Seen(o)
    ensures s.Centered? <==> Seen(o) && Abs(CenterError(o)) <= VISION_TOL
    ensures s.Turn? ==> -TURN_CAP <= s.mv <= TURN_CAP && s.mv != 0
    ensures s.Turn? ==> (s.mv > 0 <==> CenterError(o) > 0)
    ensures s.Turn? && Abs(CenterError(o)) * TURN_GAIN <= TURN_CAP ==> s.mv == CenterError(o) * TURN_GAIN
    ensures s.Turn? && Abs(CenterError(o)) * TURN_GAIN > TURN_CAP ==> Abs(s.mv) == TURN_CAP
  {
    if o.signature == 0 || o.width < MIN_WIDTH then Scan
    else
      var err := o.xMiddle - VISION_CENTER_X;
      if Abs(err) <= VISION_TOL then Centered
      else Turn(Clamp(err * TURN_GAIN, -TURN_CAP, TURN_CAP))
  }

  /** How the loop ends, with the elapsed time (since the loop started) at its exit. */
  datatype Outcome = CenteredAt(elapsed: nat) | TimedOut(elapsed: nat)

  /** `u` is one of the instants, `POLL_MS` apart, at which a loop begun at `t` samples. */
  predicate PollInstant(t: nat, u: nat)
  {
    t <= u && (u - t) % POLL_MS == 0
  }

  /** The outcome of the polling loop when it reaches elapsed time `t`;
      `vision(u)` is the sample the sensor gives at elapsed time `u`.
      The loop is entered at `t = 0`. It reports a centred target only from
      a sample taken before the timeout, and times out only once the
      timeout has been reached. */
  function AlignFrom(vision: nat -> VisionObject, timeoutMs: int, t: nat): (r: Outcome)
    ensures t <= r.elapsed
    ensures r.CenteredAt? ==> r.elapsed < timeoutMs && AlignDecision(vision(r.elapsed)).Centered?
    ensures r.TimedOut? ==> timeoutMs <= r.elapsed
    decreases timeoutMs - t
  {
    if t >= timeoutMs then TimedOut(t)
    else if AlignDecision(vision(t)).Centered? then CenteredAt(t)
    else AlignFrom(vision, timeoutMs, t + POLL_MS)
  }

  /** The loop samples only every `POLL_MS` from `t`, stops at the first
      centred sample, and overshoots the timeout by less than one poll
      interval (unless it starts past it). */
  lemma {:induction false} AlignFromPolls(vision: nat -> VisionObject, timeoutMs: int, t: nat)
    ensures PollInstant(t, AlignFrom(vision, timeoutMs, t).elapsed)
    ensures forall u: nat :: PollInstant(t, u) && u < AlignFrom(vision, timeoutMs, t).elapsed ==>
      !AlignDecision(vision(u)).Centered?
    ensures AlignFrom(vision, timeoutMs, t).TimedOut? ==>
      AlignFrom(vision, timeoutMs, t).elapsed == t || AlignFrom(vision, timeoutMs, t).elapsed < timeoutMs + POLL_MS
    decreases timeoutMs - t
  {
    if t < timeoutMs && !AlignDecision(vision(t)).Centered? {
      AlignFromPolls(vision, timeoutMs, t + POLL_MS);
      assert forall u: nat :: PollInstant(t, u) && u != t ==> PollInstant(t + POLL_MS, u);
    }
  }

  /** A target centred in the first sample ends the loop at once, before any sleep. */
  lemma CenteredFirstSample(vision: nat -> VisionObject, timeoutMs: int)
    requires timeoutMs > 0
    requires AlignDecision(vision(0)).Centered?
    ensures AlignFrom(vision, timeoutMs, 0) == CenteredAt(0)
  {
  }

  /** When the target is never centred, the loop times out at the first poll
      instant at or after the timeout, i.e. within one poll interval of it. */
  lemma {:induction false} NeverCenteredTimesOut(vision: nat -> VisionObject, timeoutMs: int)
    requires forall u: nat :: !AlignDecision(vision(u)).Centered?
    ensures AlignFrom(vision, timeoutMs, 0).TimedOut?
    ensures timeoutMs <= AlignFrom(vision, timeoutMs, 0).elapsed
    ensures timeoutMs > 0 ==> AlignFrom(vision, timeoutMs, 0).elapsed < timeoutMs + POLL_MS
  {
    AlignFromPolls(vision, timeoutMs, 0);
    var r := AlignFrom(vision, timeoutMs, 0);
    assert !AlignDecision(vision(r.elapsed)).Centered?;
  }

  /** Success is reported exactly when some sample taken before the timeout
      shows the target centred. */
  lemma {:induction false} CenteredIffSampleBeforeTimeout(vision: nat -> VisionObject, timeoutMs: int)
    ensures AlignFrom(vision, timeoutMs, 0).CenteredAt? <==>
      exists u: nat :: PollInstant(0, u) && u < timeoutMs && AlignDecision(vision(u)).Centered?
  {
    AlignFromPolls(vision, timeoutMs, 0);
    var r := AlignFrom(vision, timeoutMs, 0);
    if r.CenteredAt? {
      assert PollInstant(0, r.elapsed) && r.elapsed < timeoutMs && AlignDecision(vision(r.elapsed)).Centered?;
    }
  }

  /** The worked examples: offset 12 is within tolerance, offset 42 turns at 1470 mV. */
  lemma DecisionExamples()
    ensures AlignDecision(VisionObject(VISION_SIG_GOAL, 170, 40)) == Centered
    ensures AlignDecision(VisionObject(VISION_SIG_GOAL, 200, 40)) == Turn(1470)
    ensures AlignDecision(VisionObject(VISION_SIG_GOAL, 300, 40)) == Turn(TURN_CAP)
    ensures AlignDecision(VisionObject(0, 158, 40)) == Scan
    ensures AlignDecision(VisionObject(VISION_SIG_GOAL, 158, 9)) == Scan
  {
  }
}
