/**
 * The per-axis conditioning of the game-controller bridge: the deadzone on
 * stick values, the scaling of sticks and triggers from [-1, 1] to a byte,
 * and the byte order of the stick and trigger/button payloads.
 */
module Controller {
  import opened Numeric

  /** Minimum absolute stick value that counts as movement. */
  const StickDeadzone: real := 0.05

  /** A stick value below the threshold in magnitude becomes exactly 0.0. */
  function ApplyDeadzone(v: real, deadzone: real): (r: real)
    ensures r == 0.0 || r == v
    ensures Abs(v) < deadzone ==> r == 0.0
    ensures deadzone <= Abs(v) ==> r == v
    ensures r != 0.0 ==> deadzone <= Abs(r)
  {
    if Abs(v) < deadzone then 0.0 else v
  }

  /** Suppression is idempotent: a value that passed the deadzone passes again. */
  lemma DeadzoneIdempotent(v: real, deadzone: real)
    ensures ApplyDeadzone(ApplyDeadzone(v, deadzone), deadzone) == ApplyDeadzone(v, deadzone)
  {
  }

  /** The stick deadzone at 0.03 suppresses and at 0.06 passes. */
  lemma DeadzoneExamples()
    ensures ApplyDeadzone(0.03, StickDeadzone) == 0.0
    ensures ApplyDeadzone(0.06, StickDeadzone) == 0.06
    ensures ApplyDeadzone(-0.06, StickDeadzone) == -0.06
  {
  }

  /** A stick value in [-1, 1] as a byte: int((v + 1) * 127.5), truncated. */
  function ScaleAxis(v: real): (r: int)
    ensures -1.0 <= v <= 1.0 ==> 0 <= r <= 255
    ensures -1.0 <= v ==> r as real <= (v + 1.0) * 127.5 < r as real + 1.0
    ensures v == -1.0 ==> r == 0
    ensures v == 1.0 ==> r == 255
  {
    TruncToInt((v + 1.0) * 127.5)
  }

  /** Scaling never reverses the order of two stick values. */
  lemma ScaleAxisMonotone(v: real, w: real)
    requires v <= w
    ensures ScaleAxis(v) <= ScaleAxis(w)
  {
    TruncMonotone((v + 1.0) * 127.5, (w + 1.0) * 127.5);
  }

  /** The centre of the stick truncates to 127, not to the rounded 128. */
  lemma ScaleAxisCentre()
    ensures ScaleAxis(0.0) == 127
  {
  }

  /** A trigger value (-1 released, 1 fully pressed) as a byte. */
  function ScaleTrigger(v: real): (r: int)
    ensures -1.0 <= v <= 1.0 ==> 0 <= r <= 255
    ensures -1.0 <= v ==> r as real <= (v + 1.0) * 127.5 < r as real + 1.0
  {
    TruncToInt((v + 1.0) * 127.5)
  }

  /** Triggers and sticks share one scaling. */
  lemma ScaleTriggerIsScaleAxis(v: real)
    ensures ScaleTrigger(v) == ScaleAxis(v)
  {
  }

  predicate InUnitRange(v: real)
  {
    -1.0 <= v <= 1.0
  }

  /** The stick payload: left x, left y, right x, right y, each scaled. */
  function StickPayload(leftX: real, leftY: real, rightX: real, rightY: real): (p: seq<int>)
    ensures |p| == 4
    ensures InUnitRange(leftX) && InUnitRange(leftY) && InUnitRange(rightX) && InUnitRange(rightY)
            ==> AllBytes(p)
  {
    [ScaleAxis(leftX), ScaleAxis(leftY), ScaleAxis(rightX), ScaleAxis(rightY)]
  }

  function Bit(b: bool): int
  {
    if b then 1 else 0
  }

  /** The trigger/button payload: left trigger, right trigger, then buttons A, B, X, Y. */
  function TriggerButtonPayload(leftTrigger: real, rightTrigger: real, a: bool, b: bool, x: bool, y: bool): (p: seq<int>)
    ensures |p| == 6
    ensures InUnitRange(leftTrigger) && InUnitRange(rightTrigger) ==> AllBytes(p)
    ensures forall k :: 2 <= k < 6 ==> p[k] == 0 || p[k] == 1
  {
    [ScaleTrigger(leftTrigger), ScaleTrigger(rightTrigger), Bit(a), Bit(b), Bit(x), Bit(y)]
  }
}
