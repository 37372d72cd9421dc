/** Pure integer helpers of the driver code: the stick deadband, the
    millivolt clamp, `std::clamp`, C++ integer division, and the
    stick-to-millivolt scaling that driver control applies every tick. */
module Shaping {

  /** Largest drive voltage the helpers ever command, in millivolts. */
  const DRIVE_MAX_MV: int := 12000
  /** Default intake voltage, in millivolts. */
  const INTAKE_MV: int := 12000
  /** Default deadband threshold of `deadband`. */
  const DEADBAND: int := 5
  /** Full-scale joystick axis reading. */
  const STICK_RANGE: int := 127

  function Abs(x: int): (r: nat)
    ensures r == x || r == -x
  {
    if x < 0 then -x else x
  }

  /** `deadband(v, db)`: zero inside the dead zone, the reading itself outside. */
  function Deadband(v: int, db: int): (r: int)
    ensures r == 0 || r == v
    ensures db > 0 ==> (r == 0 <==> Abs(v) < db)
    ensures Abs(v) >= db ==> r == v
  {
    if Abs(v) < db then 0 else v
  }

  function Min(a: int, b: int): int { if a <= b then a else b }
  function Max(a: int, b: int): int { if a >= b then a else b }

  /** `clampMV(mv)`: saturate a drive command to the motor's range. */
  function ClampMV(mv: int): (r: int)
    ensures -DRIVE_MAX_MV <= r <= DRIVE_MAX_MV
    ensures -DRIVE_MAX_MV <= mv <= DRIVE_MAX_MV ==> r == mv
    ensures mv > DRIVE_MAX_MV ==> r == DRIVE_MAX_MV
    ensures mv < -DRIVE_MAX_MV ==> r == -DRIVE_MAX_MV
  {
    Max(-DRIVE_MAX_MV, Min(DRIVE_MAX_MV, mv))
  }

  lemma ClampMVIdempotent(mv: int)
    ensures ClampMV(ClampMV(mv)) == ClampMV(mv)
  {
  }

  /** `std::clamp(x, lo, hi)`, which is only defined for lo <= hi. */
  function Clamp(x: int, lo: int, hi: int): (r: int)
    requires lo <= hi
    ensures lo <= r <= hi
    ensures lo <= x <= hi ==> r == x
    ensures x < lo ==> r == lo
    ensures hi < x ==> r == hi
  {
    if x < lo then lo else if hi < x then hi else x
  }

  /** C++ `a / b` for a positive divisor, which truncates toward zero.
      Dafny's own `/` floors, which differs for negative `a`. */
  function TruncDiv(a: int, b: int): int
    requires b > 0
  {
    if a < 0 then -((-a) / b) else a / b
  }

  /** Euclidean division of a natural number: quotient and remainder. */
  lemma {:induction false} DivFacts(n: nat, b: int)
    requires b > 0
    ensures n == (n / b) * b + n % b && 0 <= n % b < b && n / b >= 0
  {
  }

  /** What makes `TruncDiv` C++ division: the remainder `a - q * b` is
      smaller than the divisor and takes the sign of the dividend, so the
      quotient has the dividend's sign too. */
  lemma {:induction false} TruncDivRemainder(a: int, b: int)
    requires b > 0
    ensures Abs(a - TruncDiv(a, b) * b) < b
    ensures a >= 0 ==> 0 <= a - TruncDiv(a, b) * b
    ensures a <= 0 ==> a - TruncDiv(a, b) * b <= 0
    ensures a >= 0 ==> TruncDiv(a, b) >= 0
    ensures a <= 0 ==> TruncDiv(a, b) <= 0
  {
    if a < 0 {
      DivFacts(-a, b);
      var m := (-a) / b;
      assert TruncDiv(a, b) == -m;
      assert (-m) * b == -(m * b);
      assert a - TruncDiv(a, b) * b == -((-a) % b);
    } else {
      DivFacts(a, b);
      assert a - TruncDiv(a, b) * b == a % b;
    }
  }

  /** Truncating division commutes with negation, unlike flooring division. */
  lemma {:induction false} TruncDivOdd(a: int, b: int)
    requires b > 0
    ensures TruncDiv(-a, b) == -TruncDiv(a, b)
  {
    if a == 0 {
      assert -a == a;
      TruncDivRemainder(a, b);
    }
  }

  /** Multiplying by a positive number keeps the sign. */
  lemma MulSign(x: int, b: int)
    requires b > 0
    ensures x > 0 ==> x * b > 0
    ensures x < 0 ==> x * b < 0
  {
  }

  /** Quotients of truncating division are bounded by the dividend's bound. */
  lemma {:induction false} TruncDivBound(a: int, b: int, m: nat)
    requires b > 0
    requires Abs(a) <= m * b
    ensures Abs(TruncDiv(a, b)) <= m
  {
    TruncDivRemainder(a, b);
    var q := TruncDiv(a, b);
    if a >= 0 {
      MulSign(q - m, b);
      assert (q - m) * b == q * b - m * b;
    } else {
      MulSign(q + m, b);
      assert (q + m) * b == q * b + m * b;
    }
  }

  /** Unclamped millivolt value of one stick reading: `(deadband(v) * DRIVE_MAX_MV) / 127`
      evaluated with C++ division. */
  function StickScale(v: int): int
  {
    TruncDiv(Deadband(v, DEADBAND) * DRIVE_MAX_MV, STICK_RANGE)
  }

  /** The drive command one driver-control tick derives from a stick reading. */
  function StickToMV(v: int): (mv: int)
    ensures -DRIVE_MAX_MV <= mv <= DRIVE_MAX_MV
  {
    ClampMV(StickScale(v))
  }

  /** For every reading the controller can report, the scaled value is already
      within the motor range, so the clamp never changes it. */
  lemma {:induction false} StickScaleInRange(v: int)
    requires -STICK_RANGE <= v <= STICK_RANGE
    ensures -DRIVE_MAX_MV <= StickScale(v) <= DRIVE_MAX_MV
    ensures StickToMV(v) == StickScale(v)
  {
    var d := Deadband(v, DEADBAND);
    assert Abs(d) <= STICK_RANGE;
    assert Abs(d * DRIVE_MAX_MV) == Abs(d) * DRIVE_MAX_MV;
    assert Abs(d * DRIVE_MAX_MV) <= DRIVE_MAX_MV * STICK_RANGE;
    TruncDivBound(d * DRIVE_MAX_MV, STICK_RANGE, DRIVE_MAX_MV);
  }

  /** Readings inside the dead zone command no voltage. */
  lemma StickDeadZone(v: int)
    requires Abs(v) < DEADBAND
    ensures StickToMV(v) == 0
  {
  }

  /** Pushing a stick the other way commands the opposite voltage. */
  lemma {:induction false} StickOdd(v: int)
    ensures StickToMV(-v) == -StickToMV(v)
  {
    assert Deadband(-v, DEADBAND) == -Deadband(v, DEADBAND);
    var a := Deadband(v, DEADBAND) * DRIVE_MAX_MV;
    assert Deadband(-v, DEADBAND) * DRIVE_MAX_MV == -a;
    TruncDivOdd(a, STICK_RANGE);
  }

  /** Outside the dead zone the command is non-zero and points the stick's way. */
  lemma {:induction false} StickSign(v: int)
    requires DEADBAND <= Abs(v) <= STICK_RANGE
    ensures StickToMV(v) != 0
    ensures StickToMV(v) > 0 <==> v > 0
  {
    StickScaleInRange(v);
    var a := v * DRIVE_MAX_MV;
    assert Abs(a) == Abs(v) * DRIVE_MAX_MV;
    assert Abs(a) >= DEADBAND * DRIVE_MAX_MV;
    assert StickScale(v) == TruncDiv(a, STICK_RANGE);
    TruncDivRemainder(a, STICK_RANGE);
  }

  /** Scaling is order preserving: a stick pushed further never commands less. */
  lemma {:induction false} StickMonotone(v: int, w: int)
    requires v <= w
    ensures StickToMV(v) <= StickToMV(w)
  {
    var dv, dw := Deadband(v, DEADBAND), Deadband(w, DEADBAND);
    assert dv <= dw;
    var a, b := dv * DRIVE_MAX_MV, dw * DRIVE_MAX_MV;
    assert a <= b;
    TruncDivMonotone(a, b, STICK_RANGE);
  }

  lemma {:induction false} TruncDivMonotone(a: int, b: int, d: int)
    requires d > 0 && a <= b
    ensures TruncDiv(a, d) <= TruncDiv(b, d)
  {
    TruncDivRemainder(a, d);
    TruncDivRemainder(b, d);
    var qa, qb := TruncDiv(a, d), TruncDiv(b, d);
    if qa > qb {
      MulStep(qa, qb, d);
    }
  }

  /** A larger factor gives a product at least one multiple larger. */
  lemma {:induction false} MulStep(x: int, y: int, d: int)
    requires d > 0 && x > y
    ensures x * d >= y * d + d
  {
    MulSign(x - y - 1, d);
    assert (x - y - 1) * d == x * d - y * d - d;
  }

  /** A stick at 100 commands 1200000 / 127 truncated, that is 9448 mV. */
  lemma StickExample()
    ensures StickToMV(100) == 9448
    ensures StickToMV(-100) == -9448
    ensures StickToMV(3) == 0
  {
  }
}
