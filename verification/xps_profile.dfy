/**
 * The arithmetic of XPS trajectory profiles (XPSController.cpp): the PVT
 * elements buildProfile writes, the acceleration ramps around them, the
 * messages of the verification codes, the pulse window and period of
 * runProfile, and the samples readbackProfile stores.
 */
module XpsProfile {
  import opened CSemantics
  import Decimal

  /** Element i of a profile, for one axis: its distance D0 and end velocity. */
  datatype Element = Element(distance: real, velocity: real)

  /**
   * The PVT element i of one axis of the group. The end velocity
   * averages the two elements either side of point i+1,
   * (D0 + D1) / (T0 + T1); the last element has no successor and uses its
   * own distance and time twice. An axis not in use moves by 0 at speed 0,
   * whatever the times; for an axis in use, element times that sum to 0
   * (an IEEE infinity or NaN in the source) are outside the model.
   */
  function ProfileElement(pos: seq<real>, times: seq<real>, numPoints: nat, i: nat, use: bool)
    : (r: Element)
    requires 2 <= numPoints <= |pos| && numPoints - 1 <= |times|
    requires i < numPoints - 1
    requires use && i < numPoints - 2 ==> times[i] + times[i + 1] != 0.0
    requires use && i == numPoints - 2 ==> times[i] != 0.0
    ensures !use ==> r == Element(0.0, 0.0)
    ensures use ==> r.distance == pos[i + 1] - pos[i]
    ensures use && i < numPoints - 2 ==> r.velocity * (times[i] + times[i + 1]) == pos[i + 2] - pos[i]
    ensures use && i == numPoints - 2 ==> r.velocity * times[i] == pos[i + 1] - pos[i]
  {
    var t0 := times[i];
    var t1 := if i < numPoints - 2 then times[i + 1] else t0;
    var d0 := pos[i + 1] - pos[i];
    var d1 := if i < numPoints - 2 then pos[i + 2] - pos[i + 1] else d0;
    if !use then Element(0.0, 0.0)
    else
      assert (d0 + d1) / (t0 + t1) * (t0 + t1) == d0 + d1;
      Element(d0, (d0 + d1) / (t0 + t1))
  }

  lemma MulCancel(a: real, b: real, c: real)
    requires c != 0.0 && a * c == b * c
    ensures a == b
  {
    assert (a - b) * c == 0.0;
  }

  /** A profile that moves at one constant velocity keeps it in every element. */
  lemma ConstantVelocityKept(pos: seq<real>, times: seq<real>, numPoints: nat, i: nat, v: real)
    requires 2 <= numPoints <= |pos| && numPoints - 1 <= |times|
    requires i < numPoints - 1
    requires forall k :: 0 <= k < numPoints - 1 ==> times[k] > 0.0
    requires forall k :: 0 <= k < numPoints - 1 ==> pos[k + 1] - pos[k] == v * times[k]
    ensures ProfileElement(pos, times, numPoints, i, true).velocity == v
  {
    var e := ProfileElement(pos, times, numPoints, i, true);
    if i < numPoints - 2 {
      assert pos[i + 2] - pos[i] == (pos[i + 2] - pos[i + 1]) + (pos[i + 1] - pos[i]);
      assert pos[i + 2] - pos[i] == v * (times[i] + times[i + 1]);
      MulCancel(e.velocity, v, times[i] + times[i + 1]);
    } else {
      MulCancel(e.velocity, v, times[i]);
    }
  }

  /**
   * With positive element times, the averaged end velocity lies between
   * the average velocities of the two elements it joins.
   */
  lemma VelocityBetweenNeighbours(pos: seq<real>, times: seq<real>, numPoints: nat, i: nat)
    requires 2 <= numPoints <= |pos| && numPoints - 1 <= |times|
    requires i < numPoints - 2
    requires times[i] > 0.0 && times[i + 1] > 0.0
    ensures var v := ProfileElement(pos, times, numPoints, i, true).velocity;
            var r0 := (pos[i + 1] - pos[i]) / times[i];
            var r1 := (pos[i + 2] - pos[i + 1]) / times[i + 1];
            Min(r0, r1) <= v <= Max(r0, r1)
  {
    var t0, t1 := times[i], times[i + 1];
    var r0 := (pos[i + 1] - pos[i]) / t0;
    var r1 := (pos[i + 2] - pos[i + 1]) / t1;
    var v := ProfileElement(pos, times, numPoints, i, true).velocity;
    assert r0 * t0 == pos[i + 1] - pos[i];
    assert r1 * t1 == pos[i + 2] - pos[i + 1];
    assert v * (t0 + t1) == r0 * t0 + r1 * t1;
    Mediant(v, r0, r1, t0, t1);
  }

  lemma Mediant(v: real, r0: real, r1: real, t0: real, t1: real)
    requires t0 > 0.0 && t1 > 0.0
    requires v * (t0 + t1) == r0 * t0 + r1 * t1
    ensures Min(r0, r1) <= v <= Max(r0, r1)
  {
    var lo, hi := Min(r0, r1), Max(r0, r1);
    assert lo * t0 <= r0 * t0 && r0 * t0 <= hi * t0;
    assert lo * t1 <= r1 * t1 && r1 * t1 <= hi * t1;
    assert lo * (t0 + t1) <= v * (t0 + t1);
    assert v * (t0 + t1) <= hi * (t0 + t1);
  }

  /** The velocity the profile starts with: the first element's average velocity. */
  function PreVelocity(pos: seq<real>, times: seq<real>): (v: real)
    requires |pos| >= 2 && |times| >= 1 && times[0] != 0.0
    ensures v * times[0] == pos[1] - pos[0]
  {
    (pos[1] - pos[0]) / times[0]
  }

  /**
   * The velocity the deceleration ramp starts from, as the source computes
   * it: the last element's distance divided by times[numPoints-1], which
   * is one past the last element's time.
   */
  function PostVelocityAsWritten(pos: seq<real>, times: seq<real>, numPoints: nat): (v: real)
    requires 2 <= numPoints <= |pos| && numPoints <= |times| && times[numPoints - 1] != 0.0
    ensures v * times[numPoints - 1] == pos[numPoints - 1] - pos[numPoints - 2]
  {
    (pos[numPoints - 1] - pos[numPoints - 2]) / times[numPoints - 1]
  }

  /** The deceleration ramp's start velocity, divided by the last element's own time. */
  function PostVelocity(pos: seq<real>, times: seq<real>, numPoints: nat): (v: real)
    requires 2 <= numPoints <= |pos| && numPoints - 1 <= |times| && times[numPoints - 2] != 0.0
    ensures v * times[numPoints - 2] == pos[numPoints - 1] - pos[numPoints - 2]
  {
    (pos[numPoints - 1] - pos[numPoints - 2]) / times[numPoints - 2]
  }

  /** The corrected ramp starts at the end velocity of the last element. */
  lemma PostVelocityContinuous(pos: seq<real>, times: seq<real>, numPoints: nat)
    requires 2 <= numPoints <= |pos| && numPoints - 1 <= |times| && times[numPoints - 2] != 0.0
    ensures PostVelocity(pos, times, numPoints)
            == ProfileElement(pos, times, numPoints, numPoints - 2, true).velocity
  {
    var v := PostVelocity(pos, times, numPoints);
    var e := ProfileElement(pos, times, numPoints, numPoints - 2, true);
    MulCancel(v, e.velocity, times[numPoints - 2]);
  }

  /**
   * As written, a profile whose last element covers 2 in 2 s ends at
   * speed 1 but is followed by a ramp that starts from speed 0.5.
   */
  lemma PostVelocityMismatch()
    ensures var pos := [0.0, 1.0, 3.0];
            var times := [1.0, 2.0, 4.0];
            ProfileElement(pos, times, 3, 1, true).velocity == 1.0
            && PostVelocityAsWritten(pos, times, 3) == 0.5
  {
    var pos := [0.0, 1.0, 3.0];
    var times := [1.0, 2.0, 4.0];
    var e := ProfileElement(pos, times, 3, 1, true);
    MulCancel(e.velocity, 1.0, 2.0);
  }

  /** The boundary velocity of one axis of the group and its acceleration limit. */
  datatype RampAxis = RampAxis(velocity: real, maxAcceleration: real)

  /** The time one axis needs to reach its velocity at 90% of its maximum acceleration. */
  function AxisRampTime(a: RampAxis): (t: real)
    requires a.maxAcceleration > 0.0
    ensures t >= 0.0
    ensures t * (0.9 * a.maxAcceleration) == Abs(a.velocity)
  {
    Abs(a.velocity) / (0.9 * a.maxAcceleration)
  }

  /** Some axis needs exactly time t. */
  predicate AttainedBy(axes: seq<RampAxis>, t: real)
    requires forall j :: 0 <= j < |axes| ==> axes[j].maxAcceleration > 0.0
  {
    exists j :: 0 <= j < |axes| && t == AxisRampTime(axes[j])
  }

  /** The longest ramp time over the axes, starting from 0. */
  function LongestRampTime(axes: seq<RampAxis>): (t: real)
    requires forall j :: 0 <= j < |axes| ==> axes[j].maxAcceleration > 0.0
    ensures t >= 0.0
    ensures forall j :: 0 <= j < |axes| ==> AxisRampTime(axes[j]) <= t
  {
    if |axes| == 0 then 0.0
    else
      var rest := LongestRampTime(axes[..|axes| - 1]);
      assert forall j :: 0 <= j < |axes| - 1 ==> axes[..|axes| - 1][j] == axes[j];
      Max(rest, AxisRampTime(axes[|axes| - 1]))
  }

  /** The longest ramp time is 0 or the time of one of the axes: it is the least upper bound. */
  lemma {:induction false} LongestRampTimeAttained(axes: seq<RampAxis>)
    requires forall j :: 0 <= j < |axes| ==> axes[j].maxAcceleration > 0.0
    ensures LongestRampTime(axes) == 0.0 || AttainedBy(axes, LongestRampTime(axes))
  {
    if |axes| > 0 {
      var init := axes[..|axes| - 1];
      LongestRampTimeAttained(init);
      var t := LongestRampTime(axes);
      if t != AxisRampTime(axes[|axes| - 1]) && t != 0.0 {
        var j :| 0 <= j < |init| && LongestRampTime(init) == AxisRampTime(init[j]);
        assert init[j] == axes[j];
      }
    }
  }

  /** One acceleration ramp: its duration and the distance each axis covers. */
  datatype Ramp = Ramp(time: real, distances: seq<real>)

  /** At the ramp's constant acceleration, the axis stays within 90% of its maximum. */
  predicate AccelerationRespected(a: RampAxis, t: real)
  {
    Abs(a.velocity) <= 0.9 * a.maxAcceleration * t
  }

  /**
   * The distance one axis covers in a ramp of time t: that of a constant
   * acceleration from rest (or to rest), half its velocity times t. When
   * the acceleration is within the limit, so is the distance.
   */
  function RampDistance(a: RampAxis, t: real): (d: real)
    ensures 2.0 * d == a.velocity * t
    ensures t >= 0.0 && AccelerationRespected(a, t) ==>
              2.0 * Abs(d) <= 0.9 * a.maxAcceleration * t * t
  {
    var d := 0.5 * a.velocity * t;
    if t >= 0.0 && AccelerationRespected(a, t) then
      HalfDistanceBound(a.velocity, d, t, a.maxAcceleration);
      d
    else d
  }

  /**
   * The pre- (or post-) acceleration element of buildProfile: one time
   * for all axes, the longest any axis needs and at least minTime, and
   * each axis's ramp distance for that time.
   */
  function BuildRamp(axes: seq<RampAxis>, minTime: real): (r: Ramp)
    requires forall j :: 0 <= j < |axes| ==> axes[j].maxAcceleration > 0.0
    ensures r.time >= minTime && r.time >= 0.0
    ensures forall j :: 0 <= j < |axes| ==> AccelerationRespected(axes[j], r.time)
    ensures |r.distances| == |axes|
    ensures forall j :: 0 <= j < |axes| ==> r.distances[j] == RampDistance(axes[j], r.time)
  {
    var t := RampDuration(axes, minTime);
    Ramp(t, seq(|axes|, j requires 0 <= j < |axes| => RampDistance(axes[j], t)))
  }

  /** The ramp time: the longest any axis needs, and at least minTime. */
  function RampDuration(axes: seq<RampAxis>, minTime: real): (t: real)
    requires forall j :: 0 <= j < |axes| ==> axes[j].maxAcceleration > 0.0
    ensures t >= minTime && t >= 0.0
    ensures forall j :: 0 <= j < |axes| ==> AccelerationRespected(axes[j], t)
  {
    var t := Max(LongestRampTime(axes), minTime);
    RampTimeBounds(axes, t);
    t
  }

  lemma RampTimeBounds(axes: seq<RampAxis>, t: real)
    requires forall j :: 0 <= j < |axes| ==> axes[j].maxAcceleration > 0.0
    requires forall j :: 0 <= j < |axes| ==> AxisRampTime(axes[j]) <= t
    ensures forall j :: 0 <= j < |axes| ==> AccelerationRespected(axes[j], t)
  {
    forall j | 0 <= j < |axes|
      ensures AccelerationRespected(axes[j], t)
    {
      RampTimeBound(axes[j], t);
    }
  }

  lemma RampTimeBound(a: RampAxis, t: real)
    requires a.maxAcceleration > 0.0 && AxisRampTime(a) <= t
    ensures AccelerationRespected(a, t)
  {
    var k := 0.9 * a.maxAcceleration;
    MulMonotone(AxisRampTime(a), t, k);
  }

  lemma MulMonotone(a: real, b: real, c: real)
    requires a <= b && c >= 0.0
    ensures a * c <= b * c
  {
    assert (b - a) * c >= 0.0;
  }

  lemma HalfDistanceBound(v: real, d: real, t: real, acc: real)
    requires 2.0 * d == v * t && t >= 0.0
    requires Abs(v) <= 0.9 * acc * t
    ensures 2.0 * Abs(d) <= 0.9 * acc * t * t
  {
    assert 2.0 * Abs(d) == Abs(v) * t by {
      if v >= 0.0 { MulMonotone(0.0, v, t); } else { MulMonotone(v, 0.0, t); }
    }
    MulMonotone(Abs(v), 0.9 * acc * t, t);
  }

  /** The message buildProfile stores for a MultipleAxesPVTVerification status. */
  function VerifyMessage(status: int): (m: string)
  {
    match -status
    case 0 => " "
    case 69 => "Acceleration Too High"
    case 68 => "Velocity Too High"
    case 70 => "Final Velocity Non Zero"
    case 75 => "Negative or Null Delta Time"
    case _ => "Unknown trajectory verify error=" + Decimal.IntString(status)
  }

  const UnknownPrefix: string := "Unknown trajectory verify error="

  /** The status a verification message reports, read back from the message alone. */
  function StatusOfMessage(m: string): Option<int>
  {
    if m == " " then Some(0)
    else if m == "Acceleration Too High" then Some(-69)
    else if m == "Velocity Too High" then Some(-68)
    else if m == "Final Velocity Non Zero" then Some(-70)
    else if m == "Negative or Null Delta Time" then Some(-75)
    else if |m| > |UnknownPrefix| && m[..|UnknownPrefix|] == UnknownPrefix then
      Decimal.ParseInt(m[|UnknownPrefix|..])
    else None
  }

  /** Every status has its own message: the message determines the status. */
  lemma VerifyMessageDeterminesStatus(status: int)
    ensures StatusOfMessage(VerifyMessage(status)) == Some(status)
  {
    var m := VerifyMessage(status);
    if -status !in {0, 68, 69, 70, 75} {
      var d := Decimal.IntString(status);
      assert m == UnknownPrefix + d;
      assert m[..|UnknownPrefix|] == UnknownPrefix;
      assert m[|UnknownPrefix|..] == d;
      assert m[0] == 'U';
      Decimal.IntStringRoundTrip(status);
    }
  }

  /** The pulse window check of runProfile: 1 <= start <= end <= numElements + 1. */
  function PulseWindowOk(startPulses: int, endPulses: int, numElements: int): (ok: bool)
    ensures ok <==> 1 <= startPulses <= endPulses <= numElements + 1
  {
    !(startPulses < 1 || startPulses > numElements + 1
      || endPulses < startPulses || endPulses > numElements + 1)
  }

  /** The total time of elements first..last, numbered from 1. */
  function ElementTime(times: seq<real>, first: int, last: int): real
    requires 1 <= first && last <= |times|
    decreases last - first
  {
    if last < first then 0.0 else ElementTime(times, first, last - 1) + times[last - 1]
  }

  /** Element times are additive over adjacent windows. */
  lemma {:induction false} ElementTimeSplit(times: seq<real>, first: int, mid: int, last: int)
    requires 1 <= first <= mid + 1 && mid <= last && last <= |times|
    ensures ElementTime(times, first, last)
            == ElementTime(times, first, mid) + ElementTime(times, mid + 1, last)
    decreases last - mid
  {
    if last > mid {
      ElementTimeSplit(times, first, mid, last - 1);
    }
  }

  /** Non-negative element times give a non-negative window time. */
  lemma {:induction false} ElementTimeNonNegative(times: seq<real>, first: int, last: int)
    requires 1 <= first && last <= |times|
    requires forall k :: 0 <= k < |times| ==> times[k] >= 0.0
    ensures ElementTime(times, first, last) >= 0.0
    decreases last - first
  {
    if last >= first {
      ElementTimeNonNegative(times, first, last - 1);
    }
  }

  /**
   * The pulse period of runProfile: the time from the start of element
   * startPulses to the end of element min(endPulses, numElements),
   * divided by numPulses (0 when numPulses is 0). None when the window
   * is rejected.
   */
  method PulsePeriod(times: seq<real>, numPoints: int, startPulses: int, endPulses: int,
                     numPulses: int)
    returns (period: Option<real>)
    requires numPoints - 1 <= |times|
    ensures period.Some? <==> PulseWindowOk(startPulses, endPulses, numPoints - 1)
    ensures period.Some? && numPulses == 0 ==> period.value == 0.0
    ensures period.Some? && numPulses != 0 ==>
              period.value * numPulses as real
              == ElementTime(times, startPulses, if endPulses > numPoints - 1 then numPoints - 1 else endPulses)
  {
    var numElements := numPoints - 1;
    if startPulses < 1 || startPulses > numElements + 1
       || endPulses < startPulses || endPulses > numElements + 1 {
      return None;
    }
    var time := 0.0;
    var lastTime := endPulses;
    if endPulses > numElements {
      lastTime := numElements;
    }
    var i := startPulses;
    while i <= lastTime
      invariant startPulses <= i <= lastTime + 1
      invariant time == ElementTime(times, startPulses, i - 1)
    {
      time := time + times[i - 1];
      i := i + 1;
    }
    if numPulses != 0 {
      period := Some(time / numPulses as real);
    } else {
      period := Some(0.0);
    }
  }

  /** The setpoint and actual position of one gathered sample of one axis. */
  datatype Sample = Sample(setpoint: real, actual: real)

  /** The readback and following-error arrays of one axis. */
  datatype Readback = Readback(readbacks: seq<real>, followingErrors: seq<real>, enoughSamples: bool)

  /**
   * The arrays readbackProfile fills from the gathered samples: at most
   * maxProfilePoints samples, each storing the actual position and
   * actual - setpoint. Fewer samples than pulses is reported but the
   * samples are still stored.
   */
  function ReadbackProfile(samples: seq<Sample>, currentSamples: int, numPulses: int,
                           maxProfilePoints: nat): (r: Readback)
    requires |samples| >= (if currentSamples < maxProfilePoints then currentSamples else maxProfilePoints)
    ensures r.enoughSamples <==> currentSamples >= numPulses
    ensures |r.readbacks| == |r.followingErrors| <= maxProfilePoints
    ensures |r.readbacks| == (if currentSamples <= 0 then 0
                              else if currentSamples < maxProfilePoints then currentSamples
                              else maxProfilePoints)
    ensures forall k :: 0 <= k < |r.readbacks| ==>
              r.readbacks[k] == samples[k].actual
              && r.readbacks[k] - r.followingErrors[k] == samples[k].setpoint
  {
    var n := if currentSamples <= 0 then 0
             else if currentSamples < maxProfilePoints then currentSamples
             else maxProfilePoints;
    Readback(seq(n, k requires 0 <= k < n => samples[k].actual),
             seq(n, k requires 0 <= k < n => samples[k].actual - samples[k].setpoint),
             currentSamples >= numPulses)
  }

  /** The block size of the gathering read: remaining, halved until the controller accepts it. */
  function AcceptedBlock(remaining: nat, accepts: nat -> bool): (n: nat)
    ensures n <= remaining
    ensures n > 0 ==> accepts(n)
    ensures n == 0 ==> forall k: nat :: 0 < Halve(remaining, k) ==> !accepts(Halve(remaining, k))
    decreases remaining
  {
    if remaining == 0 then
      assert forall k: nat :: Halve(0, k) == 0 by {
        forall k: nat { HalveZero(k); }
      }
      0
    else if accepts(remaining) then remaining
    else
      var n := AcceptedBlock(remaining / 2, accepts);
      assert forall k: nat :: Halve(remaining, k + 1) == Halve(remaining / 2, k);
      assert forall k: nat :: k > 0 ==> Halve(remaining, k) == Halve(remaining / 2, k - 1);
      n
  }

  /** remaining halved k times. */
  function Halve(n: nat, k: nat): nat
  {
    if k == 0 then n else Halve(n / 2, k - 1)
  }

  lemma {:induction false} HalveZero(k: nat)
    ensures Halve(0, k) == 0
  {
    if k > 0 {
      HalveZero(k - 1);
    }
  }

  /**
   * The inner read loop of readbackProfile: try to read all remaining
   * lines, halving the block after each refusal; 0 means every block
   * size was refused.
   */
  method ReadBlock(remaining: nat, accepts: nat -> bool) returns (n: nat)
    ensures n == AcceptedBlock(remaining, accepts)
  {
    n := remaining;
    var failed := true;
    while failed && n > 0
      invariant n <= remaining
      invariant AcceptedBlock(remaining, accepts)
                == (if failed then AcceptedBlock(n, accepts) else n)
      invariant !failed ==> n > 0 && accepts(n)
      decreases n, failed
    {
      if accepts(n) {
        failed := false;
      } else {
        n := n / 2;
      }
    }
  }
}
