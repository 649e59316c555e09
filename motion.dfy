/**
 * The per-frame state advance shared by both variants of the animation: the
 * pulse and float phases that wrap at 2*pi, the scroll offset that wraps at
 * the canvas height, and the ping-pong of a signal along its edge.
 */
module Motion {
  import opened Geometry

  /**
   * `phase += step; if (phase >= Math.PI * 2) phase -= Math.PI * 2;`
   * A single subtraction: the phase is only brought back once per frame.
   */
  function AdvancePhase(phase: real, step: real): real {
    var p := phase + step;
    if p >= TwoPi then p - TwoPi else p
  }

  /** A phase in [0, 2*pi) stays there when the step is at most one full turn. */
  lemma AdvancePhaseInRange(phase: real, step: real)
    requires 0.0 <= phase < TwoPi && 0.0 <= step <= TwoPi
    ensures 0.0 <= AdvancePhase(phase, step) < TwoPi
    ensures phase + step < TwoPi ==> AdvancePhase(phase, step) == phase + step
  {
  }

  /** A step larger than a full turn can leave the phase out of range after one frame. */
  lemma AdvancePhaseLargeStep()
    ensures AdvancePhase(0.0, 2.0 * TwoPi) >= TwoPi
  {
  }

  /**
   * `offset += step; if (offset > height) offset = offset - height;` with a
   * single subtraction against the height the caller passes.
   */
  function AdvanceScroll(offset: real, height: real, step: real): real {
    var o := offset + step;
    if o > height then o - height else o
  }

  /** An offset in [0, height] stays in [0, height] for a step no larger than the height; the height itself is reachable. */
  lemma AdvanceScrollInRange(offset: real, height: real, step: real)
    requires 0.0 <= offset <= height && 0.0 <= step <= height
    ensures 0.0 <= AdvanceScroll(offset, height, step) <= height
    ensures offset + step <= height ==> AdvanceScroll(offset, height, step) == offset + step
    ensures offset + step > height ==> AdvanceScroll(offset, height, step) == offset + step - height
  {
  }

  /**
   * The 2D canvas height changes on resize while the offset is not clamped:
   * after a shrink, one frame does not bring the offset back under the new height.
   */
  lemma AdvanceScrollAfterShrink()
    ensures AdvanceScroll(900.0, 300.0, 0.1) > 300.0
  {
  }

  /** From any offset, a frame with a step below the height moves the offset closer to [0, height]. */
  lemma AdvanceScrollApproaches(offset: real, height: real, step: real)
    requires height > 0.0 && 0.0 <= step < height && offset > height
    ensures 0.0 < AdvanceScroll(offset, height, step) < offset
  {
  }

  /**
   * The direction of a signal. The source stores 1 or -1 and multiplies the
   * speed by it; no other value is ever stored.
   */
  datatype Direction = Forward | Backward

  /** `speed * direction` */
  function Velocity(speed: real, d: Direction): real {
    if d == Forward then speed else -speed
  }

  datatype Travel = Travel(progress: real, direction: Direction)

  /**
   * `Signal.update`: advance by the velocity, then clamp to 1 and turn back
   * on reaching the far end, or clamp to 0 and turn forward on reaching the near end.
   */
  function PingPong(t: Travel, speed: real): (r: Travel)
    ensures 0.0 <= r.progress <= 1.0
    ensures t.progress + Velocity(speed, t.direction) >= 1.0 <==> r == Travel(1.0, Backward)
    ensures t.progress + Velocity(speed, t.direction) <= 0.0 ==> r == Travel(0.0, Forward)
    ensures 0.0 < t.progress + Velocity(speed, t.direction) < 1.0 ==>
      r == Travel(t.progress + Velocity(speed, t.direction), t.direction)
  {
    var p := t.progress + Velocity(speed, t.direction);
    if p >= 1.0 then Travel(1.0, Backward)
    else if p <= 0.0 then Travel(0.0, Forward)
    else Travel(p, t.direction)
  }

  /** A signal moving forward with a positive speed below 1 moves forward or turns at the end. */
  lemma PingPongForward(t: Travel, speed: real)
    requires 0.0 <= t.progress < 1.0 && t.direction == Forward && 0.0 < speed < 1.0
    ensures var r := PingPong(t, speed);
      r.progress > t.progress && (r.direction == Backward <==> r.progress == 1.0)
  {
  }

  /** A signal moving backward with a positive speed below 1 moves back or turns at the start. */
  lemma PingPongBackward(t: Travel, speed: real)
    requires 0.0 < t.progress <= 1.0 && t.direction == Backward && 0.0 < speed < 1.0
    ensures var r := PingPong(t, speed);
      r.progress < t.progress && (r.direction == Forward <==> r.progress == 0.0)
  {
  }

  /** n frames of ping-pong. */
  function PingPongN(t: Travel, speed: real, n: nat): Travel
    decreases n
  {
    if n == 0 then t else PingPongN(PingPong(t, speed), speed, n - 1)
  }

  /** A progress that starts in [0, 1] stays there however many frames pass. */
  lemma {:induction false} PingPongNInRange(t: Travel, speed: real, n: nat)
    requires 0.0 <= t.progress <= 1.0
    ensures 0.0 <= PingPongN(t, speed, n).progress <= 1.0
    decreases n
  {
    if n > 0 {
      PingPongNInRange(PingPong(t, speed), speed, n - 1);
    }
  }
}
