/** The per-frame rotation of the green cube about its vertical axis. */
module Animation {

  /** Angle added per frame while the cube is below the limit. */
  const RotationSpeed: real := 0.05

  /** One call of the rotation step: below the limit the angle grows by the
      speed; at or above it the angle is set to exactly the limit. */
  function RotateStep(angle: real, speed: real, maxRotation: real): (next: real)
    requires speed > 0.0
    ensures next < maxRotation + speed
    ensures angle <= maxRotation ==> angle <= next
    ensures next == maxRotation || next > angle
  {
    if angle < maxRotation then angle + speed else maxRotation
  }

  /** The angle after the given number of frames: after at least one frame
      it stays below the limit plus one step, and it never drops below the
      starting angle or the limit, whichever is smaller. */
  function Rotated(angle: real, speed: real, maxRotation: real, frames: nat): (r: real)
    requires speed > 0.0
    ensures frames > 0 ==> r < maxRotation + speed
    ensures r >= angle || r >= maxRotation
    decreases frames
  {
    if frames == 0 then angle
    else Rotated(RotateStep(angle, speed, maxRotation), speed, maxRotation, frames - 1)
  }

  /** One more frame is one more rotation step applied to the angle reached. */
  lemma {:induction false} RotatedExtendedByOne(angle: real, speed: real, maxRotation: real, frames: nat)
    requires speed > 0.0
    ensures Rotated(angle, speed, maxRotation, frames + 1)
         == RotateStep(Rotated(angle, speed, maxRotation, frames), speed, maxRotation)
    decreases frames
  {
    if frames > 0 {
      RotatedExtendedByOne(RotateStep(angle, speed, maxRotation), speed, maxRotation, frames - 1);
    }
  }

  /** Once the angle equals the limit it never moves again. */
  lemma {:induction false} LimitIsFixedPoint(speed: real, maxRotation: real, frames: nat)
    requires speed > 0.0
    ensures RotateStep(maxRotation, speed, maxRotation) == maxRotation
    ensures Rotated(maxRotation, speed, maxRotation, frames) == maxRotation
    decreases frames
  {
    if frames > 0 {
      LimitIsFixedPoint(speed, maxRotation, frames - 1);
    }
  }

  /** Starting at or below the limit, the angle never exceeds the limit plus
      one step, however many frames pass. */
  lemma {:induction false} RotationIsBounded(angle: real, speed: real, maxRotation: real, frames: nat)
    requires speed > 0.0
    requires angle <= maxRotation + speed
    ensures Rotated(angle, speed, maxRotation, frames) <= maxRotation + speed
    decreases frames
  {
    if frames > 0 {
      RotationIsBounded(RotateStep(angle, speed, maxRotation), speed, maxRotation, frames - 1);
    }
  }

  /** Closed form of the rotation: if frame k is the first whose angle reaches
      the limit, the angle grows linearly up to frame k and is pinned to the
      limit from frame k + 1 on. */
  lemma RotationClosedForm(angle: real, speed: real, maxRotation: real, k: nat, frames: nat)
    requires speed > 0.0
    requires angle + k as real * speed >= maxRotation
    requires k > 0 ==> angle + (k - 1) as real * speed < maxRotation
    ensures frames <= k ==> Rotated(angle, speed, maxRotation, frames) == angle + frames as real * speed
    ensures frames > k ==> Rotated(angle, speed, maxRotation, frames) == maxRotation
  {
    if frames <= k {
      RotationBeforeLimit(angle, speed, maxRotation, k, frames);
    } else {
      RotationAfterLimit(angle, speed, maxRotation, k, frames);
    }
  }

  /** Up to the first frame at the limit, each frame adds exactly one step. */
  lemma {:induction false} RotationBeforeLimit(angle: real, speed: real, maxRotation: real, k: nat, frames: nat)
    requires speed > 0.0 && frames <= k
    requires angle + k as real * speed >= maxRotation
    requires k > 0 ==> angle + (k - 1) as real * speed < maxRotation
    ensures Rotated(angle, speed, maxRotation, frames) == angle + frames as real * speed
    decreases frames
  {
    if frames == 0 {
      assert 0 as real * speed == 0.0;
    } else {
      ClosedFormStep(angle, speed, maxRotation, k, frames);
      RotationBeforeLimit(angle + speed, speed, maxRotation, k - 1, frames - 1);
    }
  }

  /** After the first frame at the limit, the angle is the limit. */
  lemma {:induction false} RotationAfterLimit(angle: real, speed: real, maxRotation: real, k: nat, frames: nat)
    requires speed > 0.0 && frames > k
    requires angle + k as real * speed >= maxRotation
    requires k > 0 ==> angle + (k - 1) as real * speed < maxRotation
    ensures Rotated(angle, speed, maxRotation, frames) == maxRotation
    decreases frames
  {
    if k == 0 {
      LimitIsFixedPoint(speed, maxRotation, frames - 1);
    } else {
      ClosedFormStep(angle, speed, maxRotation, k, frames);
      RotationAfterLimit(angle + speed, speed, maxRotation, k - 1, frames - 1);
    }
  }

  /** The arithmetic of one step of the closed form: below the limit, and the
      first frame at the limit comes one frame earlier from the next angle. */
  lemma ClosedFormStep(angle: real, speed: real, maxRotation: real, k: nat, frames: nat)
    requires speed > 0.0 && k > 0 && frames > 0
    requires angle + k as real * speed >= maxRotation
    requires angle + (k - 1) as real * speed < maxRotation
    ensures angle < maxRotation
    ensures angle + speed + (k - 1) as real * speed >= maxRotation
    ensures k > 1 ==> angle + speed + (k - 2) as real * speed < maxRotation
    ensures angle + speed + (frames - 1) as real * speed == angle + frames as real * speed
  {
    ScaleIsMonotone(0.0, (k - 1) as real, speed);
    OneMoreStep(angle, speed, k - 1);
    OneMoreStep(angle, speed, frames - 1);
    if k > 1 {
      OneMoreStep(angle, speed, k - 2);
    }
  }

  /** The first frame whose angle reaches the limit when rotating from
      `angle`: the least k with angle + k * speed >= maxRotation. */
  function FirstFrameAtLimit(angle: real, speed: real, maxRotation: real): (k: nat)
    requires speed > 0.0
    ensures angle + k as real * speed >= maxRotation
    ensures k > 0 ==> angle + (k - 1) as real * speed < maxRotation
  {
    if angle >= maxRotation then 0
    else
      var q := (maxRotation - angle) / speed;
      var f := q.Floor;
      assert q * speed == maxRotation - angle;
      assert f as real <= q < f as real + 1.0;
      assert q > 0.0;
      var k: nat := if f as real == q then f else f + 1;
      assert k > 0;
      assert k as real >= q && (k - 1) as real < q;
      FrameBoundsFromQuotient(angle, speed, maxRotation, q, k);
      k
  }

  lemma FrameBoundsFromQuotient(angle: real, speed: real, maxRotation: real, q: real, k: nat)
    requires speed > 0.0 && q * speed == maxRotation - angle
    requires k as real >= q && k > 0 && (k - 1) as real < q
    ensures angle + k as real * speed >= maxRotation
    ensures angle + (k - 1) as real * speed < maxRotation
  {
    var above, below := k as real, (k - 1) as real;
    ScaleIsMonotone(q, above, speed);
    ScaleIsStrictlyMonotone(below, q, speed);
    assert above * speed >= maxRotation - angle;
    assert below * speed < maxRotation - angle;
  }

  lemma OneMoreStep(angle: real, speed: real, m: nat)
    ensures angle + speed + m as real * speed == angle + (m + 1) as real * speed
  {
  }

  lemma ScaleIsMonotone(a: real, b: real, speed: real)
    requires a <= b && speed > 0.0
    ensures a * speed <= b * speed
  {
    assert b * speed - a * speed == (b - a) * speed;
  }

  lemma ScaleIsStrictlyMonotone(a: real, b: real, speed: real)
    requires a < b && speed > 0.0
    ensures a * speed < b * speed
  {
    assert b * speed - a * speed == (b - a) * speed;
  }

  /** The closed form from any starting angle: the angle grows by exactly one
      step per frame up to the first frame that reaches the limit, and is
      exactly the limit from the frame after on. */
  lemma RotationFromAnyStart(angle: real, speed: real, maxRotation: real, frames: nat)
    requires speed > 0.0
    ensures var k := FirstFrameAtLimit(angle, speed, maxRotation);
      Rotated(angle, speed, maxRotation, frames)
        == if frames <= k then angle + frames as real * speed else maxRotation
  {
    RotationClosedForm(angle, speed, maxRotation, FirstFrameAtLimit(angle, speed, maxRotation), frames);
  }

  /** With the configured speed and a limit of 2 pi (between 6.2831 and
      6.2832), frame 126 overshoots the limit at 6.3 and frame 127 moves the
      cube back to the limit, where it then stays. */
  lemma ConfiguredRotationStops(maxRotation: real, frames: nat)
    requires 6.2831 < maxRotation < 6.2832
    ensures Rotated(0.0, RotationSpeed, maxRotation, 125) < maxRotation
    ensures Rotated(0.0, RotationSpeed, maxRotation, 126) == 6.3
    ensures frames > 126 ==> Rotated(0.0, RotationSpeed, maxRotation, frames) == maxRotation
  {
    RotationClosedForm(0.0, RotationSpeed, maxRotation, 126, 125);
    RotationClosedForm(0.0, RotationSpeed, maxRotation, 126, 126);
    RotationClosedForm(0.0, RotationSpeed, maxRotation, 126, frames);
  }
}
