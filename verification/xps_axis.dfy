/**
 * The XPSAxis driver (XPSAxis.cpp): the moving/done decision of poll and
 * the conversions between motor-record units and XPS units.
 */
module XpsAxis {
  import opened CSemantics
  import opened XpsStatus

  /** What poll decides about motion. */
  datatype Motion = Motion(
    moving: bool,        // the axis's moving_ member after the poll
    done: Option<bool>)  // the done parameter; None when the poll bails out first

  /**
   * The moving_/done part of XPSAxis::poll. Outside the moving group
   * states moving_ is false. In moving-mode the axis is still moving until
   * the move socket answers (socketRead > 0); a socket error (< 0) leaves
   * the poll before the done parameter is written. A pending deferred
   * move always reports "not done".
   */
  function PollMotion(status: int, enableMovingMode: bool, wasMoving: bool,
                      deferredMove: bool, socketRead: int): (r: Motion)
    ensures !GroupMoving(status) ==> !r.moving
    ensures !enableMovingMode ==> (r.moving <==> GroupMoving(status))
    ensures r.done.None? <==>
              enableMovingMode && GroupMoving(status) && wasMoving && socketRead < 0
    ensures r.done.Some? ==> (r.done.value <==> !r.moving && !deferredMove)
    ensures deferredMove ==> r.done != Some(true)
  {
    var m := if !GroupMoving(status) then false
             else if !enableMovingMode then true
             else wasMoving;
    if enableMovingMode && m then
      if socketRead < 0 then Motion(m, None)
      else if socketRead > 0 then Motion(false, Some(!deferredMove))
      else Motion(m, Some(false))
    else
      Motion(m, Some(!m && !deferredMove))
  }

  /** In moving-mode, a reply on the move socket ends the motion of a moving axis. */
  lemma SocketReplyEndsMotion(status: int, wasMoving: bool, deferredMove: bool, n: int)
    requires GroupMoving(status) && wasMoving && n > 0
    ensures !PollMotion(status, true, wasMoving, deferredMove, n).moving
    ensures PollMotion(status, true, wasMoving, deferredMove, n).done == Some(!deferredMove)
  {
  }

  /** The motor-record fields a conversion reads, and the axis's step size. */
  datatype Units = Units(resolution: real, offset: real, direction: int, stepSize: real)

  /** A nonzero DIR negates the resolution. */
  function SignedResolution(u: Units): (r: real)
    ensures u.direction == 0 ==> r == u.resolution
    ensures u.direction != 0 ==> r == -u.resolution
    ensures r == 0.0 <==> u.resolution == 0.0
  {
    if u.direction != 0 then -u.resolution else u.resolution
  }

  /** motorRecPositionToXPSPosition; a zero resolution is replaced by 1. */
  function ToXpsPosition(p: real, u: Units): (x: real)
    ensures u.resolution != 0.0 ==> x * SignedResolution(u) == (p - u.offset) * u.stepSize
    ensures u.resolution == 0.0 ==> x == (p - u.offset) * u.stepSize
  {
    var res := if SignedResolution(u) == 0.0 then 1.0 else SignedResolution(u);
    (p - u.offset) / res * u.stepSize
  }

  /**
   * XPSPositionToMotorRecPosition; a zero step size is replaced by 1, and
   * that replacement is stored in the axis (the second component).
   */
  function FromXpsPosition(x: real, u: Units): (r: (real, real))
    ensures r.1 == (if u.stepSize == 0.0 then 1.0 else u.stepSize)
    ensures (r.0 - u.offset) * r.1 == x * SignedResolution(u)
  {
    var step := if u.stepSize == 0.0 then 1.0 else u.stepSize;
    (x * SignedResolution(u) / step + u.offset, step)
  }

  /** motorRecStepToXPSStep: the position conversion without the offset. */
  function ToXpsStep(s: real, u: Units): (x: real)
    ensures x == ToXpsPosition(s, u.(offset := 0.0))
  {
    var res := if SignedResolution(u) == 0.0 then 1.0 else SignedResolution(u);
    s / res * u.stepSize
  }

  /** XPSStepToMotorRecStep: the position conversion without the offset. */
  function FromXpsStep(x: real, u: Units): (r: (real, real))
    ensures r.0 == FromXpsPosition(x, u.(offset := 0.0)).0
    ensures r.1 == FromXpsPosition(x, u.(offset := 0.0)).1
  {
    var step := if u.stepSize == 0.0 then 1.0 else u.stepSize;
    assert SignedResolution(u.(offset := 0.0)) == SignedResolution(u);
    (x * SignedResolution(u) / step, step)
  }

  /**
   * With a nonzero resolution and step size the two position conversions
   * are mutual inverses, and neither changes the step size.
   */
  lemma PositionRoundTrip(p: real, x: real, u: Units)
    requires u.resolution != 0.0 && u.stepSize != 0.0
    ensures FromXpsPosition(ToXpsPosition(p, u), u).0 == p
    ensures ToXpsPosition(FromXpsPosition(x, u).0, u) == x
    ensures FromXpsPosition(x, u).1 == u.stepSize
  {
    var r := SignedResolution(u);
    var s := u.stepSize;
    var y := ToXpsPosition(p, u);
    assert y * r == (p - u.offset) * s;
    var q := FromXpsPosition(y, u).0;
    assert (q - u.offset) * s == y * r;
    assert (q - u.offset) * s == (p - u.offset) * s;
    MulCancel(q - u.offset, p - u.offset, s);
    var q2 := FromXpsPosition(x, u).0;
    var y2 := ToXpsPosition(q2, u);
    assert y2 * r == (q2 - u.offset) * s;
    assert (q2 - u.offset) * s == x * r;
    MulCancel(y2, x, r);
  }

  lemma MulCancel(a: real, b: real, c: real)
    requires c != 0.0 && a * c == b * c
    ensures a == b
  {
    assert (a - b) * c == 0.0;
  }

  /** The step conversions are mutual inverses under the same conditions. */
  lemma StepRoundTrip(s: real, x: real, u: Units)
    requires u.resolution != 0.0 && u.stepSize != 0.0
    ensures FromXpsStep(ToXpsStep(s, u), u).0 == s
    ensures ToXpsStep(FromXpsStep(x, u).0, u) == x
  {
    PositionRoundTrip(s, x, u.(offset := 0.0));
  }

  /** Flipping DIR flips the sign of every converted distance. */
  lemma DirectionNegatesSteps(s: real, u: Units)
    requires u.resolution != 0.0
    ensures ToXpsStep(s, u.(direction := 1)) == -ToXpsStep(s, u.(direction := 0))
  {
    var r := u.resolution;
    var a := ToXpsStep(s, u.(direction := 1));
    var b := ToXpsStep(s, u.(direction := 0));
    assert a * -r == s * u.stepSize;
    assert b * r == s * u.stepSize;
    MulCancel(a, -b, -r);
  }

  /**
   * The guards are not symmetric: a zero resolution is replaced by 1 on
   * the way to the controller but not on the way back, so with MRES = 0
   * every position read back equals the offset.
   */
  lemma ZeroResolutionReadsOffset(p: real, u: Units)
    requires u.resolution == 0.0 && u.stepSize != 0.0
    ensures FromXpsPosition(ToXpsPosition(p, u), u).0 == u.offset
  {
  }
}
