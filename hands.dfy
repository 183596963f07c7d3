/**
 * The chef's hands (class ChefHand of sprites.py): which picture the left hand shows, whether the
 * knife pose is shown, and the clamps on the hands' rotation angles. Drawing is not modelled.
 */
module Hands {
  import opened Geometry

  /** The three pictures of the left hand. */
  datatype HandState = Normal | Damaged | BadlyDamaged

  /** The picture for a damage stage: 0 is unhurt, 1 is damaged, anything else is badly damaged. */
  function StageState(stage: int): (s: HandState)
    ensures s == Normal <==> stage == 0
    ensures s == Damaged <==> stage == 1
  {
    if stage == 0 then Normal
    else if stage == 1 then Damaged
    else BadlyDamaged
  }

  /** The right hand only turns clockwise: its angle is clamped into [-30, 0] degrees. */
  function RightHandAngle(raw: real): (angle: real)
    ensures -30.0 <= angle <= 0.0
    ensures -30.0 <= raw <= 0.0 ==> angle == raw
    ensures forall w :: -30.0 <= w <= 0.0 ==> Gap(angle, raw) <= Gap(w, raw)
  {
    Clamp(-30.0, 0.0, raw)
  }

  /** The left hand only turns counter-clockwise: its angle is clamped into [0, 30] degrees. */
  function LeftHandAngle(raw: real): (angle: real)
    ensures 0.0 <= angle <= 30.0
    ensures 0.0 <= raw <= 30.0 ==> angle == raw
    ensures forall w :: 0.0 <= w <= 30.0 ==> Gap(angle, raw) <= Gap(w, raw)
  {
    Clamp(0.0, 30.0, raw)
  }

  class ChefHand {
    var leftHandState: HandState
    var isAttacking: bool

    constructor ()
      ensures leftHandState == Normal && !isAttacking
    {
      leftHandState := Normal;
      isAttacking := false;
    }

    /** Show the left-hand picture for `stage`; unlike SetAttack, the hand is redrawn every time. */
    method SetHandStage(stage: int) returns (redrawn: bool)
      modifies this
      ensures leftHandState == StageState(stage)
      ensures isAttacking == old(isAttacking)
      ensures redrawn
    {
      redrawn := true;
      if stage == 0 {
        leftHandState := Normal;
      } else if stage == 1 {
        leftHandState := Damaged;
      } else {
        leftHandState := BadlyDamaged;
      }
    }

    /** Switch the knife pose; the pose is changed and redrawn only when the value differs. */
    method SetAttack(attacking: bool) returns (redrawn: bool)
      modifies this
      ensures isAttacking == attacking
      ensures redrawn <==> old(isAttacking) != attacking
      ensures leftHandState == old(leftHandState)
    {
      redrawn := false;
      if isAttacking != attacking {
        isAttacking := attacking;
        redrawn := true;
      }
    }

    /**
     * The angles ChefHand.update hands to the drawing code, given the raw angles it derives from the
     * pointer position (an arc tangent, not modelled). Nothing of the hand's state changes.
     */
    method Update(rawRight: real, rawLeft: real) returns (angleRight: real, angleLeft: real)
      ensures angleRight == RightHandAngle(rawRight) && angleLeft == LeftHandAngle(rawLeft)
    {
      angleRight := RightHandAngle(rawRight);
      angleLeft := LeftHandAngle(rawLeft);
    }
  }
}
