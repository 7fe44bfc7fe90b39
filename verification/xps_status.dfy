/**
 * Newport XPS group states and positioner error word, as both XPS axis
 * drivers (XPSAxis.cpp and the older XPSMotorDriver.cpp) classify them
 * when they poll an axis, and the corrector-gain update they share.
 */
module XpsStatus {
  import opened CSemantics

  /** XPSC8_END_OF_RUN_MINUS / _PLUS of the positioner error word. */
  const END_OF_RUN_MINUS: bv32 := 0x8000_0100
  const END_OF_RUN_PLUS: bv32 := 0x8000_0200

  /** XPS_VELOCITY_DEADBAND: the speed below which an axis counts as still. */
  const VELOCITY_DEADBAND: real := 0.0000001

  /** Group states 43..48: moving, homing, jogging, analog tracking. */
  predicate GroupMoving(status: int)
  {
    43 <= status <= 48
  }

  /** The group states that report a following error, listed one by one. */
  const FollowingErrorStates: set<int> := {21, 22, 24, 25, 26, 28, 35}

  /** The group states that report a homed axis, listed one by one. */
  const HomedStates: set<int> :=
    {10, 11, 12, 13, 14, 15, 16, 17, 18, 19, 20, 21, 44, 45, 47}

  /** The following-error test of poll, written with the source's ranges. */
  function FollowingError(status: int): (r: bool)
    ensures r <==> status in FollowingErrorStates
  {
    status == 21 || status == 22 || (24 <= status <= 26) || status == 28 || status == 35
  }

  /** HOMED of XPSAxis::poll: a referenced state, in referencing mode 0. */
  function Homed(status: int, referencingMode: int): (r: bool)
    ensures r <==> status in HomedStates && referencingMode == 0
  {
    ((10 <= status <= 21) || status == 44 || status == 45 || status == 47)
      && referencingMode == 0
  }

  /** ATHM of XPSAxis::poll: state 11 (ready from homing), in mode 0. */
  function AtHome(status: int, referencingMode: int): (r: bool)
    ensures r <==> status == 11 && referencingMode == 0
    ensures r <==> status == 11 && Homed(status, referencingMode)
  {
    status == 11 && referencingMode == 0
  }

  /**
   * The problem bit of XPSAxis::poll: not initialised, disabled or
   * not referenced; state 20 (disabled) is excused when the controller's
   * noDisableError option is positive.
   */
  function Problem(status: int, noDisableError: int): (r: bool)
    ensures status == 20 ==> (r <==> noDisableError <= 0)
    ensures status != 20 ==>
              (r <==> status < 10 || (21 <= status <= 42) || status == 50 || status == 64)
  {
    if status < 10 || (20 <= status <= 42) || status == 50 || status == 64 then
      !(noDisableError > 0 && status == 20)
    else
      false
  }

  /** A following error is always a problem state, and never a moving one. */
  lemma FollowingErrorIsProblem(status: int, noDisableError: int)
    requires FollowingError(status)
    ensures Problem(status, noDisableError)
    ensures !GroupMoving(status)
  {
  }

  /** No problem state is a moving state. */
  lemma ProblemNeverMoving(status: int, noDisableError: int)
    requires Problem(status, noDisableError)
    ensures !GroupMoving(status)
  {
  }

  /** The high hard limit: END_OF_RUN_PLUS, bits 31 and 9. */
  function HighLimit(positionerError: bv32): (r: bool)
    ensures r <==> Bit(positionerError, 31) || Bit(positionerError, 9)
  {
    positionerError & END_OF_RUN_PLUS != 0
  }

  /** The low hard limit: END_OF_RUN_MINUS, bits 31 and 8. */
  function LowLimit(positionerError: bv32): (r: bool)
    ensures r <==> Bit(positionerError, 31) || Bit(positionerError, 8)
  {
    positionerError & END_OF_RUN_MINUS != 0
  }

  /**
   * Both masks share bit 31, so a general positioner error raises both
   * limits at once; without it, the two limits are the separate bits 9 and 8.
   */
  lemma LimitsShareBit31(positionerError: bv32)
    ensures Bit(positionerError, 31) ==> HighLimit(positionerError) && LowLimit(positionerError)
    ensures !Bit(positionerError, 31) ==>
              (HighLimit(positionerError) <==> Bit(positionerError, 9))
              && (LowLimit(positionerError) <==> Bit(positionerError, 8))
  {
  }

  /** Direction and moving flags derived from the current velocity. */
  datatype VelocityFlags = VelocityFlags(direction: bool, moving: bool)

  function FlagsOfVelocity(velocity: real): (r: VelocityFlags)
    ensures r.direction <==> velocity > VELOCITY_DEADBAND
    ensures r.moving <==> velocity > VELOCITY_DEADBAND || velocity < -VELOCITY_DEADBAND
    ensures r.direction ==> r.moving
  {
    VelocityFlags(velocity > VELOCITY_DEADBAND, Abs(velocity) > VELOCITY_DEADBAND)
  }

  /** The KP, KI, KD fields of the axis's corrector information. */
  datatype Gains = Gains(kp: real, ki: real, kd: real)

  /** Gain number k: 0 for KP, 1 for KI, 2 for KD. */
  function Gain(g: Gains, k: int): real
    requires 0 <= k <= 2
  {
    if k == 0 then g.kp else if k == 1 then g.ki else g.kd
  }

  /**
   * setPIDValue: option 0, 1 or 2 replaces exactly that gain; any other
   * option is an error and the gains are unchanged.
   */
  function SetPidValue(g: Gains, value: real, option: int): (r: (AsynStatus, Gains))
    ensures r.0 == AsynSuccess <==> 0 <= option <= 2
    ensures r.0 != AsynSuccess ==> r.0 == AsynError && r.1 == g
    ensures 0 <= option <= 2 ==>
              forall k :: 0 <= k <= 2 ==>
                Gain(r.1, k) == (if k == option then value else Gain(g, k))
  {
    if option < 0 || option > 2 then (AsynError, g)
    else if option == 0 then (AsynSuccess, g.(kp := value))
    else if option == 1 then (AsynSuccess, g.(ki := value))
    else (AsynSuccess, g.(kd := value))
  }

  /** Setting a gain and reading it back gives the value; setting it twice keeps the last. */
  lemma SetPidValueReadBack(g: Gains, v: real, w: real, option: int)
    requires 0 <= option <= 2
    ensures Gain(SetPidValue(g, v, option).1, option) == v
    ensures SetPidValue(SetPidValue(g, v, option).1, w, option).1 == SetPidValue(g, w, option).1
  {
  }
}
