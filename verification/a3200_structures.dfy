/**
 * The status, fault and mode words of the A3200 controller, as the
 * A3200CommonStructures.h header lays them out: each bit-layout enumeration
 * is a list of masks (1u << k) with a *BITS twin giving every k. The
 * tables below pair each mask with its twin in declaration order; the
 * lemmas state the layout the header promises and that a word built from
 * any choice of flags reads back flag by flag.
 */
module A3200Structures {
  import opened AerotechFlags

  // TASKSTATE (lines 11-35).
  const TASKSTATE_Unavailable: int := 0
  const TASKSTATE_Inactive: int := 1
  const TASKSTATE_Idle: int := 2
  const TASKSTATE_ProgramReady: int := 3
  const TASKSTATE_ProgramRunning: int := 4
  const TASKSTATE_ProgramFeedheld: int := 5
  const TASKSTATE_ProgramPaused: int := 6
  const TASKSTATE_ProgramComplete: int := 7
  const TASKSTATE_Error: int := 8
  const TASKSTATE_Queue: int := 9
  const TASKSTATE_PLCReserved: int := 10

  /** TASKSTATE values in declaration order. */
  const TaskStates: seq<int> := [TASKSTATE_Unavailable, TASKSTATE_Inactive, TASKSTATE_Idle, TASKSTATE_ProgramReady, TASKSTATE_ProgramRunning, TASKSTATE_ProgramFeedheld, TASKSTATE_ProgramPaused, TASKSTATE_ProgramComplete, TASKSTATE_Error, TASKSTATE_Queue, TASKSTATE_PLCReserved]

  /** TASKSTATE values are exactly 0 to 10, in order. */
  lemma TaskStatesContiguous()
    ensures |TaskStates| == 11
    ensures forall k :: 0 <= k < |TaskStates| ==> TaskStates[k] == k
  {
  }

  // AXISSTATUS (lines 38-92): the masks, each (1u << k).
  const AXISSTATUS_Homed: nat := Pow2(0)
  const AXISSTATUS_Profiling: nat := Pow2(1)
  const AXISSTATUS_WaitDone: nat := Pow2(2)
  const AXISSTATUS_CommandValid: nat := Pow2(3)
  const AXISSTATUS_Homing: nat := Pow2(4)
  const AXISSTATUS_Enabling: nat := Pow2(5)
  const AXISSTATUS_JogGenerating: nat := Pow2(7)
  const AXISSTATUS_Jogging: nat := Pow2(8)
  const AXISSTATUS_DrivePending: nat := Pow2(9)
  const AXISSTATUS_DriveAbortPending: nat := Pow2(10)
  const AXISSTATUS_TrajectoryFiltering: nat := Pow2(11)
  const AXISSTATUS_IFVEnabled: nat := Pow2(12)
  const AXISSTATUS_NotVirtual: nat := Pow2(13)
  const AXISSTATUS_CalibrationEnabled1D: nat := Pow2(14)
  const AXISSTATUS_CalibrationEnabled2D: nat := Pow2(15)
  const AXISSTATUS_MasterSlaveControl: nat := Pow2(16)
  const AXISSTATUS_JoystickControl: nat := Pow2(17)
  const AXISSTATUS_BacklashActive: nat := Pow2(18)
  const AXISSTATUS_GainMappingEnabled: nat := Pow2(19)
  const AXISSTATUS_Stability0: nat := Pow2(20)
  const AXISSTATUS_MotionBlocked: nat := Pow2(21)
  const AXISSTATUS_MoveDone: nat := Pow2(22)
  const AXISSTATUS_MotionClamped: nat := Pow2(23)
  const AXISSTATUS_GantryAligned: nat := Pow2(24)
  const AXISSTATUS_GantryRealigning: nat := Pow2(25)
  const AXISSTATUS_Stability1: nat := Pow2(26)
  // AXISSTATUSBITS (lines 93-147): the bit index of each mask.
  const AXISSTATUSBITS_HomedBit: int := 0
  const AXISSTATUSBITS_ProfilingBit: int := 1
  const AXISSTATUSBITS_WaitDoneBit: int := 2
  const AXISSTATUSBITS_CommandValidBit: int := 3
  const AXISSTATUSBITS_HomingBit: int := 4
  const AXISSTATUSBITS_EnablingBit: int := 5
  const AXISSTATUSBITS_JogGeneratingBit: int := 7
  const AXISSTATUSBITS_JoggingBit: int := 8
  const AXISSTATUSBITS_DrivePendingBit: int := 9
  const AXISSTATUSBITS_DriveAbortPendingBit: int := 10
  const AXISSTATUSBITS_TrajectoryFilteringBit: int := 11
  const AXISSTATUSBITS_IFVEnabledBit: int := 12
  const AXISSTATUSBITS_NotVirtualBit: int := 13
  const AXISSTATUSBITS_CalibrationEnabled1DBit: int := 14
  const AXISSTATUSBITS_CalibrationEnabled2DBit: int := 15
  const AXISSTATUSBITS_MasterSlaveControlBit: int := 16
  const AXISSTATUSBITS_JoystickControlBit: int := 17
  const AXISSTATUSBITS_BacklashActiveBit: int := 18
  const AXISSTATUSBITS_GainMappingEnabledBit: int := 19
  const AXISSTATUSBITS_Stability0Bit: int := 20
  const AXISSTATUSBITS_MotionBlockedBit: int := 21
  const AXISSTATUSBITS_MoveDoneBit: int := 22
  const AXISSTATUSBITS_MotionClampedBit: int := 23
  const AXISSTATUSBITS_GantryAlignedBit: int := 24
  const AXISSTATUSBITS_GantryRealigningBit: int := 25
  const AXISSTATUSBITS_Stability1Bit: int := 26

  /** AXISSTATUS beside AXISSTATUSBITS, member by member in declaration order. */
  const AxisStatus: seq<Flag> := [
    Flag(AXISSTATUS_Homed, AXISSTATUSBITS_HomedBit),
    Flag(AXISSTATUS_Profiling, AXISSTATUSBITS_ProfilingBit),
    Flag(AXISSTATUS_WaitDone, AXISSTATUSBITS_WaitDoneBit),
    Flag(AXISSTATUS_CommandValid, AXISSTATUSBITS_CommandValidBit),
    Flag(AXISSTATUS_Homing, AXISSTATUSBITS_HomingBit),
    Flag(AXISSTATUS_Enabling, AXISSTATUSBITS_EnablingBit),
    Flag(AXISSTATUS_JogGenerating, AXISSTATUSBITS_JogGeneratingBit),
    Flag(AXISSTATUS_Jogging, AXISSTATUSBITS_JoggingBit),
    Flag(AXISSTATUS_DrivePending, AXISSTATUSBITS_DrivePendingBit),
    Flag(AXISSTATUS_DriveAbortPending, AXISSTATUSBITS_DriveAbortPendingBit),
    Flag(AXISSTATUS_TrajectoryFiltering, AXISSTATUSBITS_TrajectoryFilteringBit),
    Flag(AXISSTATUS_IFVEnabled, AXISSTATUSBITS_IFVEnabledBit),
    Flag(AXISSTATUS_NotVirtual, AXISSTATUSBITS_NotVirtualBit),
    Flag(AXISSTATUS_CalibrationEnabled1D, AXISSTATUSBITS_CalibrationEnabled1DBit),
    Flag(AXISSTATUS_CalibrationEnabled2D, AXISSTATUSBITS_CalibrationEnabled2DBit),
    Flag(AXISSTATUS_MasterSlaveControl, AXISSTATUSBITS_MasterSlaveControlBit),
    Flag(AXISSTATUS_JoystickControl, AXISSTATUSBITS_JoystickControlBit),
    Flag(AXISSTATUS_BacklashActive, AXISSTATUSBITS_BacklashActiveBit),
    Flag(AXISSTATUS_GainMappingEnabled, AXISSTATUSBITS_GainMappingEnabledBit),
    Flag(AXISSTATUS_Stability0, AXISSTATUSBITS_Stability0Bit),
    Flag(AXISSTATUS_MotionBlocked, AXISSTATUSBITS_MotionBlockedBit),
    Flag(AXISSTATUS_MoveDone, AXISSTATUSBITS_MoveDoneBit),
    Flag(AXISSTATUS_MotionClamped, AXISSTATUSBITS_MotionClampedBit),
    Flag(AXISSTATUS_GantryAligned, AXISSTATUSBITS_GantryAlignedBit),
    Flag(AXISSTATUS_GantryRealigning, AXISSTATUSBITS_GantryRealigningBit),
    Flag(AXISSTATUS_Stability1, AXISSTATUSBITS_Stability1Bit)
  ]

  // AXISFAULT (lines 150-200): the masks, each (1u << k).
  const AXISFAULT_PositionErrorFault: nat := Pow2(0)
  const AXISFAULT_OverCurrentFault: nat := Pow2(1)
  const AXISFAULT_CwEndOfTravelLimitFault: nat := Pow2(2)
  const AXISFAULT_CcwEndOfTravelLimitFault: nat := Pow2(3)
  const AXISFAULT_CwSoftwareLimitFault: nat := Pow2(4)
  const AXISFAULT_CcwSoftwareLimitFault: nat := Pow2(5)
  const AXISFAULT_AmplifierFault: nat := Pow2(6)
  const AXISFAULT_PositionFeedbackFault: nat := Pow2(7)
  const AXISFAULT_VelocityFeedbackFault: nat := Pow2(8)
  const AXISFAULT_HallSensorFault: nat := Pow2(9)
  const AXISFAULT_MaxVelocityCommandFault: nat := Pow2(10)
  const AXISFAULT_EmergencyStopFault: nat := Pow2(11)
  const AXISFAULT_VelocityErrorFault: nat := Pow2(12)
  const AXISFAULT_ProbeInputFault: nat := Pow2(14)
  const AXISFAULT_ExternalFault: nat := Pow2(15)
  const AXISFAULT_MotorTemperatureFault: nat := Pow2(17)
  const AXISFAULT_AmplifierTemperatureFault: nat := Pow2(18)
  const AXISFAULT_EncoderFault: nat := Pow2(19)
  const AXISFAULT_CommunicationLostFault: nat := Pow2(20)
  const AXISFAULT_GantryMisalignFault: nat := Pow2(22)
  const AXISFAULT_FeedbackScalingFault: nat := Pow2(23)
  const AXISFAULT_MarkerSearchFault: nat := Pow2(24)
  const AXISFAULT_SafeZoneFault: nat := Pow2(25)
  const AXISFAULT_InPositionTimeoutFault: nat := Pow2(26)
  // AXISFAULTBITS (lines 201-251): the bit index of each mask.
  const AXISFAULTBITS_PositionErrorFaultBit: int := 0
  const AXISFAULTBITS_OverCurrentFaultBit: int := 1
  const AXISFAULTBITS_CwEndOfTravelLimitFaultBit: int := 2
  const AXISFAULTBITS_CcwEndOfTravelLimitFaultBit: int := 3
  const AXISFAULTBITS_CwSoftwareLimitFaultBit: int := 4
  const AXISFAULTBITS_CcwSoftwareLimitFaultBit: int := 5
  const AXISFAULTBITS_AmplifierFaultBit: int := 6
  const AXISFAULTBITS_PositionFeedbackFaultBit: int := 7
  const AXISFAULTBITS_VelocityFeedbackFaultBit: int := 8
  const AXISFAULTBITS_HallSensorFaultBit: int := 9
  const AXISFAULTBITS_MaxVelocityCommandFaultBit: int := 10
  const AXISFAULTBITS_EmergencyStopFaultBit: int := 11
  const AXISFAULTBITS_VelocityErrorFaultBit: int := 12
  const AXISFAULTBITS_ProbeInputFaultBit: int := 14
  const AXISFAULTBITS_ExternalFaultBit: int := 15
  const AXISFAULTBITS_MotorTemperatureFaultBit: int := 17
  const AXISFAULTBITS_AmplifierTemperatureFaultBit: int := 18
  const AXISFAULTBITS_EncoderFaultBit: int := 19
  const AXISFAULTBITS_CommunicationLostFaultBit: int := 20
  const AXISFAULTBITS_GantryMisalignFaultBit: int := 22
  const AXISFAULTBITS_FeedbackScalingFaultBit: int := 23
  const AXISFAULTBITS_MarkerSearchFaultBit: int := 24
  const AXISFAULTBITS_SafeZoneFaultBit: int := 25
  const AXISFAULTBITS_InPositionTimeoutFaultBit: int := 26

  /** AXISFAULT beside AXISFAULTBITS, member by member in declaration order. */
  const AxisFault: seq<Flag> := [
    Flag(AXISFAULT_PositionErrorFault, AXISFAULTBITS_PositionErrorFaultBit),
    Flag(AXISFAULT_OverCurrentFault, AXISFAULTBITS_OverCurrentFaultBit),
    Flag(AXISFAULT_CwEndOfTravelLimitFault, AXISFAULTBITS_CwEndOfTravelLimitFaultBit),
    Flag(AXISFAULT_CcwEndOfTravelLimitFault, AXISFAULTBITS_CcwEndOfTravelLimitFaultBit),
    Flag(AXISFAULT_CwSoftwareLimitFault, AXISFAULTBITS_CwSoftwareLimitFaultBit),
    Flag(AXISFAULT_CcwSoftwareLimitFault, AXISFAULTBITS_CcwSoftwareLimitFaultBit),
    Flag(AXISFAULT_AmplifierFault, AXISFAULTBITS_AmplifierFaultBit),
    Flag(AXISFAULT_PositionFeedbackFault, AXISFAULTBITS_PositionFeedbackFaultBit),
    Flag(AXISFAULT_VelocityFeedbackFault, AXISFAULTBITS_VelocityFeedbackFaultBit),
    Flag(AXISFAULT_HallSensorFault, AXISFAULTBITS_HallSensorFaultBit),
    Flag(AXISFAULT_MaxVelocityCommandFault, AXISFAULTBITS_MaxVelocityCommandFaultBit),
    Flag(AXISFAULT_EmergencyStopFault, AXISFAULTBITS_EmergencyStopFaultBit),
    Flag(AXISFAULT_VelocityErrorFault, AXISFAULTBITS_VelocityErrorFaultBit),
    Flag(AXISFAULT_ProbeInputFault, AXISFAULTBITS_ProbeInputFaultBit),
    Flag(AXISFAULT_ExternalFault, AXISFAULTBITS_ExternalFaultBit),
    Flag(AXISFAULT_MotorTemperatureFault, AXISFAULTBITS_MotorTemperatureFaultBit),
    Flag(AXISFAULT_AmplifierTemperatureFault, AXISFAULTBITS_AmplifierTemperatureFaultBit),
    Flag(AXISFAULT_EncoderFault, AXISFAULTBITS_EncoderFaultBit),
    Flag(AXISFAULT_CommunicationLostFault, AXISFAULTBITS_CommunicationLostFaultBit),
    Flag(AXISFAULT_GantryMisalignFault, AXISFAULTBITS_GantryMisalignFaultBit),
    Flag(AXISFAULT_FeedbackScalingFault, AXISFAULTBITS_FeedbackScalingFaultBit),
    Flag(AXISFAULT_MarkerSearchFault, AXISFAULTBITS_MarkerSearchFaultBit),
    Flag(AXISFAULT_SafeZoneFault, AXISFAULTBITS_SafeZoneFaultBit),
    Flag(AXISFAULT_InPositionTimeoutFault, AXISFAULTBITS_InPositionTimeoutFaultBit)
  ]

  // DRIVESTATUS (lines 277-343): the masks, each (1u << k).
  const DRIVESTATUS_Enabled: nat := Pow2(0)
  const DRIVESTATUS_CwEndOfTravelLimitInput: nat := Pow2(1)
  const DRIVESTATUS_CcwEndOfTravelLimitInput: nat := Pow2(2)
  const DRIVESTATUS_HomeLimitInput: nat := Pow2(3)
  const DRIVESTATUS_MarkerInput: nat := Pow2(4)
  const DRIVESTATUS_HallAInput: nat := Pow2(5)
  const DRIVESTATUS_HallBInput: nat := Pow2(6)
  const DRIVESTATUS_HallCInput: nat := Pow2(7)
  const DRIVESTATUS_SineEncoderError: nat := Pow2(8)
  const DRIVESTATUS_CosineEncoderError: nat := Pow2(9)
  const DRIVESTATUS_EmergencyStopInput: nat := Pow2(10)
  const DRIVESTATUS_BrakeOutput: nat := Pow2(11)
  const DRIVESTATUS_GalvoFifoFull: nat := Pow2(12)
  const DRIVESTATUS_GalvoSubMsecMode: nat := Pow2(13)
  const DRIVESTATUS_NoMotorSupply: nat := Pow2(14)
  const DRIVESTATUS_CurrentClamp: nat := Pow2(15)
  const DRIVESTATUS_MarkerLatch: nat := Pow2(16)
  const DRIVESTATUS_PowerLimiting: nat := Pow2(17)
  const DRIVESTATUS_PSOHaltLatch: nat := Pow2(18)
  const DRIVESTATUS_HighResolutionMode: nat := Pow2(19)
  const DRIVESTATUS_GalvoCalibrationEnabled: nat := Pow2(20)
  const DRIVESTATUS_AutofocusActive: nat := Pow2(21)
  const DRIVESTATUS_ProgrammingFlash: nat := Pow2(22)
  const DRIVESTATUS_ProgrammingMXH: nat := Pow2(23)
  const DRIVESTATUS_ServoControl: nat := Pow2(24)
  const DRIVESTATUS_InPosition: nat := Pow2(25)
  const DRIVESTATUS_MoveActive: nat := Pow2(26)
  const DRIVESTATUS_AccelerationPhase: nat := Pow2(27)
  const DRIVESTATUS_DecelerationPhase: nat := Pow2(28)
  const DRIVESTATUS_EncoderClipping: nat := Pow2(29)
  const DRIVESTATUS_DualLoopActive: nat := Pow2(30)
  const DRIVESTATUS_InPosition2: nat := Pow2(31)
  // DRIVESTATUSBITS (lines 344-410): the bit index of each mask.
  const DRIVESTATUSBITS_EnabledBit: int := 0
  const DRIVESTATUSBITS_CwEndOfTravelLimitInputBit: int := 1
  const DRIVESTATUSBITS_CcwEndOfTravelLimitInputBit: int := 2
  const DRIVESTATUSBITS_HomeLimitInputBit: int := 3
  const DRIVESTATUSBITS_MarkerInputBit: int := 4
  const DRIVESTATUSBITS_HallAInputBit: int := 5
  const DRIVESTATUSBITS_HallBInputBit: int := 6
  const DRIVESTATUSBITS_HallCInputBit: int := 7
  const DRIVESTATUSBITS_SineEncoderErrorBit: int := 8
  const DRIVESTATUSBITS_CosineEncoderErrorBit: int := 9
  const DRIVESTATUSBITS_EmergencyStopInputBit: int := 10
  const DRIVESTATUSBITS_BrakeOutputBit: int := 11
  const DRIVESTATUSBITS_GalvoFifoFullBit: int := 12
  const DRIVESTATUSBITS_GalvoSubMsecModeBit: int := 13
  const DRIVESTATUSBITS_NoMotorSupplyBit: int := 14
  const DRIVESTATUSBITS_CurrentClampBit: int := 15
  const DRIVESTATUSBITS_MarkerLatchBit: int := 16
  const DRIVESTATUSBITS_PowerLimitingBit: int := 17
  const DRIVESTATUSBITS_PSOHaltLatchBit: int := 18
  const DRIVESTATUSBITS_HighResolutionModeBit: int := 19
  const DRIVESTATUSBITS_GalvoCalibrationEnabledBit: int := 20
  const DRIVESTATUSBITS_AutofocusActiveBit: int := 21
  const DRIVESTATUSBITS_ProgrammingFlashBit: int := 22
  const DRIVESTATUSBITS_ProgrammingMXHBit: int := 23
  const DRIVESTATUSBITS_ServoControlBit: int := 24
  const DRIVESTATUSBITS_InPositionBit: int := 25
  const DRIVESTATUSBITS_MoveActiveBit: int := 26
  const DRIVESTATUSBITS_AccelerationPhaseBit: int := 27
  const DRIVESTATUSBITS_DecelerationPhaseBit: int := 28
  const DRIVESTATUSBITS_EncoderClippingBit: int := 29
  const DRIVESTATUSBITS_DualLoopActiveBit: int := 30
  const DRIVESTATUSBITS_InPosition2Bit: int := 31

  /** DRIVESTATUS beside DRIVESTATUSBITS, member by member in declaration order. */
  const DriveStatus: seq<Flag> := [
    Flag(DRIVESTATUS_Enabled, DRIVESTATUSBITS_EnabledBit),
    Flag(DRIVESTATUS_CwEndOfTravelLimitInput, DRIVESTATUSBITS_CwEndOfTravelLimitInputBit),
    Flag(DRIVESTATUS_CcwEndOfTravelLimitInput, DRIVESTATUSBITS_CcwEndOfTravelLimitInputBit),
    Flag(DRIVESTATUS_HomeLimitInput, DRIVESTATUSBITS_HomeLimitInputBit),
    Flag(DRIVESTATUS_MarkerInput, DRIVESTATUSBITS_MarkerInputBit),
    Flag(DRIVESTATUS_HallAInput, DRIVESTATUSBITS_HallAInputBit),
    Flag(DRIVESTATUS_HallBInput, DRIVESTATUSBITS_HallBInputBit),
    Flag(DRIVESTATUS_HallCInput, DRIVESTATUSBITS_HallCInputBit),
    Flag(DRIVESTATUS_SineEncoderError, DRIVESTATUSBITS_SineEncoderErrorBit),
    Flag(DRIVESTATUS_CosineEncoderError, DRIVESTATUSBITS_CosineEncoderErrorBit),
    Flag(DRIVESTATUS_EmergencyStopInput, DRIVESTATUSBITS_EmergencyStopInputBit),
    Flag(DRIVESTATUS_BrakeOutput, DRIVESTATUSBITS_BrakeOutputBit),
    Flag(DRIVESTATUS_GalvoFifoFull, DRIVESTATUSBITS_GalvoFifoFullBit),
    Flag(DRIVESTATUS_GalvoSubMsecMode, DRIVESTATUSBITS_GalvoSubMsecModeBit),
    Flag(DRIVESTATUS_NoMotorSupply, DRIVESTATUSBITS_NoMotorSupplyBit),
    Flag(DRIVESTATUS_CurrentClamp, DRIVESTATUSBITS_CurrentClampBit),
    Flag(DRIVESTATUS_MarkerLatch, DRIVESTATUSBITS_MarkerLatchBit),
    Flag(DRIVESTATUS_PowerLimiting, DRIVESTATUSBITS_PowerLimitingBit),
    Flag(DRIVESTATUS_PSOHaltLatch, DRIVESTATUSBITS_PSOHaltLatchBit),
    Flag(DRIVESTATUS_HighResolutionMode, DRIVESTATUSBITS_HighResolutionModeBit),
    Flag(DRIVESTATUS_GalvoCalibrationEnabled, DRIVESTATUSBITS_GalvoCalibrationEnabledBit),
    Flag(DRIVESTATUS_AutofocusActive, DRIVESTATUSBITS_AutofocusActiveBit),
    Flag(DRIVESTATUS_ProgrammingFlash, DRIVESTATUSBITS_ProgrammingFlashBit),
    Flag(DRIVESTATUS_ProgrammingMXH, DRIVESTATUSBITS_ProgrammingMXHBit),
    Flag(DRIVESTATUS_ServoControl, DRIVESTATUSBITS_ServoControlBit),
    Flag(DRIVESTATUS_InPosition, DRIVESTATUSBITS_InPositionBit),
    Flag(DRIVESTATUS_MoveActive, DRIVESTATUSBITS_MoveActiveBit),
    Flag(DRIVESTATUS_AccelerationPhase, DRIVESTATUSBITS_AccelerationPhaseBit),
    Flag(DRIVESTATUS_DecelerationPhase, DRIVESTATUSBITS_DecelerationPhaseBit),
    Flag(DRIVESTATUS_EncoderClipping, DRIVESTATUSBITS_EncoderClippingBit),
    Flag(DRIVESTATUS_DualLoopActive, DRIVESTATUSBITS_DualLoopActiveBit),
    Flag(DRIVESTATUS_InPosition2, DRIVESTATUSBITS_InPosition2Bit)
  ]

  // TASKSTATUS0 (lines 450-510): the masks, each (1u << k).
  const TASKSTATUS0_ProgramAssociated: nat := Pow2(0)
  const TASKSTATUS0_ImmediateConcurrent: nat := Pow2(2)
  const TASKSTATUS0_ImmediateExecuting: nat := Pow2(3)
  const TASKSTATUS0_ReturnMotionExecuting: nat := Pow2(4)
  const TASKSTATUS0_ProgramStopped: nat := Pow2(5)
  const TASKSTATUS0_SingleStepInto: nat := Pow2(6)
  const TASKSTATUS0_SingleStepOver: nat := Pow2(7)
  const TASKSTATUS0_ProgramReset: nat := Pow2(8)
  const TASKSTATUS0_PendingAxesStop: nat := Pow2(9)
  const TASKSTATUS0_SoftwareESTOPActive: nat := Pow2(10)
  const TASKSTATUS0_FeedHoldActive: nat := Pow2(11)
  const TASKSTATUS0_CallbackHoldActive: nat := Pow2(12)
  const TASKSTATUS0_CallbackResponding: nat := Pow2(13)
  const TASKSTATUS0_SpindleActive0: nat := Pow2(14)
  const TASKSTATUS0_SpindleActive1: nat := Pow2(15)
  const TASKSTATUS0_SpindleActive2: nat := Pow2(16)
  const TASKSTATUS0_SpindleActive3: nat := Pow2(17)
  const TASKSTATUS0_ProbeCycle: nat := Pow2(18)
  const TASKSTATUS0_Retrace: nat := Pow2(19)
  const TASKSTATUS0_SoftHomeActive: nat := Pow2(20)
  const TASKSTATUS0_InterruptMotionActive: nat := Pow2(21)
  const TASKSTATUS0_JoystickActive: nat := Pow2(22)
  const TASKSTATUS0_CornerRounding: nat := Pow2(23)
  const TASKSTATUS0_PLCReserved: nat := Pow2(24)
  const TASKSTATUS0_JoystickLowSpeedActive: nat := Pow2(25)
  const TASKSTATUS0_CannedFunctionActive: nat := Pow2(26)
  const TASKSTATUS0_CannedFunctionExecuting: nat := Pow2(27)
  const TASKSTATUS0_GalvoMode: nat := Pow2(28)
  const TASKSTATUS0_ProgramControlRestricted: nat := Pow2(29)
  // TASKSTATUS0BITS (lines 511-571): the bit index of each mask.
  const TASKSTATUS0BITS_ProgramAssociatedBit: int := 0
  const TASKSTATUS0BITS_ImmediateConcurrentBit: int := 2
  const TASKSTATUS0BITS_ImmediateExecutingBit: int := 3
  const TASKSTATUS0BITS_ReturnMotionExecutingBit: int := 4
  const TASKSTATUS0BITS_ProgramStoppedBit: int := 5
  const TASKSTATUS0BITS_SingleStepIntoBit: int := 6
  const TASKSTATUS0BITS_SingleStepOverBit: int := 7
  const TASKSTATUS0BITS_ProgramResetBit: int := 8
  const TASKSTATUS0BITS_PendingAxesStopBit: int := 9
  const TASKSTATUS0BITS_SoftwareESTOPActiveBit: int := 10
  const TASKSTATUS0BITS_FeedHoldActiveBit: int := 11
  const TASKSTATUS0BITS_CallbackHoldActiveBit: int := 12
  const TASKSTATUS0BITS_CallbackRespondingBit: int := 13
  const TASKSTATUS0BITS_SpindleActive0Bit: int := 14
  const TASKSTATUS0BITS_SpindleActive1Bit: int := 15
  const TASKSTATUS0BITS_SpindleActive2Bit: int := 16
  const TASKSTATUS0BITS_SpindleActive3Bit: int := 17
  const TASKSTATUS0BITS_ProbeCycleBit: int := 18
  const TASKSTATUS0BITS_RetraceBit: int := 19
  const TASKSTATUS0BITS_SoftHomeActiveBit: int := 20
  const TASKSTATUS0BITS_InterruptMotionActiveBit: int := 21
  const TASKSTATUS0BITS_JoystickActiveBit: int := 22
  const TASKSTATUS0BITS_CornerRoundingBit: int := 23
  const TASKSTATUS0BITS_PLCReservedBit: int := 24
  const TASKSTATUS0BITS_JoystickLowSpeedActiveBit: int := 25
  const TASKSTATUS0BITS_CannedFunctionActiveBit: int := 26
  const TASKSTATUS0BITS_CannedFunctionExecutingBit: int := 27
  const TASKSTATUS0BITS_GalvoModeBit: int := 28
  const TASKSTATUS0BITS_ProgramControlRestrictedBit: int := 29

  /** TASKSTATUS0 beside TASKSTATUS0BITS, member by member in declaration order. */
  const TaskStatus0: seq<Flag> := [
    Flag(TASKSTATUS0_ProgramAssociated, TASKSTATUS0BITS_ProgramAssociatedBit),
    Flag(TASKSTATUS0_ImmediateConcurrent, TASKSTATUS0BITS_ImmediateConcurrentBit),
    Flag(TASKSTATUS0_ImmediateExecuting, TASKSTATUS0BITS_ImmediateExecutingBit),
    Flag(TASKSTATUS0_ReturnMotionExecuting, TASKSTATUS0BITS_ReturnMotionExecutingBit),
    Flag(TASKSTATUS0_ProgramStopped, TASKSTATUS0BITS_ProgramStoppedBit),
    Flag(TASKSTATUS0_SingleStepInto, TASKSTATUS0BITS_SingleStepIntoBit),
    Flag(TASKSTATUS0_SingleStepOver, TASKSTATUS0BITS_SingleStepOverBit),
    Flag(TASKSTATUS0_ProgramReset, TASKSTATUS0BITS_ProgramResetBit),
    Flag(TASKSTATUS0_PendingAxesStop, TASKSTATUS0BITS_PendingAxesStopBit),
    Flag(TASKSTATUS0_SoftwareESTOPActive, TASKSTATUS0BITS_SoftwareESTOPActiveBit),
    Flag(TASKSTATUS0_FeedHoldActive, TASKSTATUS0BITS_FeedHoldActiveBit),
    Flag(TASKSTATUS0_CallbackHoldActive, TASKSTATUS0BITS_CallbackHoldActiveBit),
    Flag(TASKSTATUS0_CallbackResponding, TASKSTATUS0BITS_CallbackRespondingBit),
    Flag(TASKSTATUS0_SpindleActive0, TASKSTATUS0BITS_SpindleActive0Bit),
    Flag(TASKSTATUS0_SpindleActive1, TASKSTATUS0BITS_SpindleActive1Bit),
    Flag(TASKSTATUS0_SpindleActive2, TASKSTATUS0BITS_SpindleActive2Bit),
    Flag(TASKSTATUS0_SpindleActive3, TASKSTATUS0BITS_SpindleActive3Bit),
    Flag(TASKSTATUS0_ProbeCycle, TASKSTATUS0BITS_ProbeCycleBit),
    Flag(TASKSTATUS0_Retrace, TASKSTATUS0BITS_RetraceBit),
    Flag(TASKSTATUS0_SoftHomeActive, TASKSTATUS0BITS_SoftHomeActiveBit),
    Flag(TASKSTATUS0_InterruptMotionActive, TASKSTATUS0BITS_InterruptMotionActiveBit),
    Flag(TASKSTATUS0_JoystickActive, TASKSTATUS0BITS_JoystickActiveBit),
    Flag(TASKSTATUS0_CornerRounding, TASKSTATUS0BITS_CornerRoundingBit),
    Flag(TASKSTATUS0_PLCReserved, TASKSTATUS0BITS_PLCReservedBit),
    Flag(TASKSTATUS0_JoystickLowSpeedActive, TASKSTATUS0BITS_JoystickLowSpeedActiveBit),
    Flag(TASKSTATUS0_CannedFunctionActive, TASKSTATUS0BITS_CannedFunctionActiveBit),
    Flag(TASKSTATUS0_CannedFunctionExecuting, TASKSTATUS0BITS_CannedFunctionExecutingBit),
    Flag(TASKSTATUS0_GalvoMode, TASKSTATUS0BITS_GalvoModeBit),
    Flag(TASKSTATUS0_ProgramControlRestricted, TASKSTATUS0BITS_ProgramControlRestrictedBit)
  ]

  // TASKSTATUS1 (lines 574-622): the masks, each (1u << k).
  const TASKSTATUS1_MotionModeAbsOffsets: nat := Pow2(0)
  const TASKSTATUS1_AsyncSMCMotionAbortPending: nat := Pow2(1)
  const TASKSTATUS1_RetraceReversalPending: nat := Pow2(2)
  const TASKSTATUS1_RetraceRequested: nat := Pow2(3)
  const TASKSTATUS1_MSOChange: nat := Pow2(4)
  const TASKSTATUS1_SpindleFeedHeld: nat := Pow2(5)
  const TASKSTATUS1_FeedHeldAxesStopped: nat := Pow2(6)
  const TASKSTATUS1_CutterRadiusEnabling: nat := Pow2(7)
  const TASKSTATUS1_CutterRadiusDisabling: nat := Pow2(8)
  const TASKSTATUS1_CutterOffsetsEnablingPositive: nat := Pow2(9)
  const TASKSTATUS1_CutterOffsetsEnablingNegative: nat := Pow2(10)
  const TASKSTATUS1_CutterOffsetsDisabling: nat := Pow2(11)
  const TASKSTATUS1_MFOChange: nat := Pow2(12)
  const TASKSTATUS1_InterruptFaultPending: nat := Pow2(13)
  const TASKSTATUS1_OnGosubPending: nat := Pow2(15)
  const TASKSTATUS1_ProgramStopPending: nat := Pow2(16)
  const TASKSTATUS1_CannedFunctionPending: nat := Pow2(17)
  const TASKSTATUS1_NoMFOFloor: nat := Pow2(18)
  const TASKSTATUS1_Interrupted: nat := Pow2(19)
  const TASKSTATUS1_GalvoSwitchingIn: nat := Pow2(21)
  const TASKSTATUS1_GalvoSwitchingOut: nat := Pow2(22)
  const TASKSTATUS1_ProgramSuppressed: nat := Pow2(23)
  const TASKSTATUS1_GalvoIFVDeactivationPending: nat := Pow2(24)
  // TASKSTATUS1BITS (lines 623-671): the bit index of each mask.
  const TASKSTATUS1BITS_MotionModeAbsOffsetsBit: int := 0
  const TASKSTATUS1BITS_AsyncSMCMotionAbortPendingBit: int := 1
  const TASKSTATUS1BITS_RetraceReversalPendingBit: int := 2
  const TASKSTATUS1BITS_RetraceRequestedBit: int := 3
  const TASKSTATUS1BITS_MSOChangeBit: int := 4
  const TASKSTATUS1BITS_SpindleFeedHeldBit: int := 5
  const TASKSTATUS1BITS_FeedHeldAxesStoppedBit: int := 6
  const TASKSTATUS1BITS_CutterRadiusEnablingBit: int := 7
  const TASKSTATUS1BITS_CutterRadiusDisablingBit: int := 8
  const TASKSTATUS1BITS_CutterOffsetsEnablingPositiveBit: int := 9
  const TASKSTATUS1BITS_CutterOffsetsEnablingNegativeBit: int := 10
  const TASKSTATUS1BITS_CutterOffsetsDisablingBit: int := 11
  const TASKSTATUS1BITS_MFOChangeBit: int := 12
  const TASKSTATUS1BITS_InterruptFaultPendingBit: int := 13
  const TASKSTATUS1BITS_OnGosubPendingBit: int := 15
  const TASKSTATUS1BITS_ProgramStopPendingBit: int := 16
  const TASKSTATUS1BITS_CannedFunctionPendingBit: int := 17
  const TASKSTATUS1BITS_NoMFOFloorBit: int := 18
  const TASKSTATUS1BITS_InterruptedBit: int := 19
  const TASKSTATUS1BITS_GalvoSwitchingInBit: int := 21
  const TASKSTATUS1BITS_GalvoSwitchingOutBit: int := 22
  const TASKSTATUS1BITS_ProgramSuppressedBit: int := 23
  const TASKSTATUS1BITS_GalvoIFVDeactivationPendingBit: int := 24

  /** TASKSTATUS1 beside TASKSTATUS1BITS, member by member in declaration order. */
  const TaskStatus1: seq<Flag> := [
    Flag(TASKSTATUS1_MotionModeAbsOffsets, TASKSTATUS1BITS_MotionModeAbsOffsetsBit),
    Flag(TASKSTATUS1_AsyncSMCMotionAbortPending, TASKSTATUS1BITS_AsyncSMCMotionAbortPendingBit),
    Flag(TASKSTATUS1_RetraceReversalPending, TASKSTATUS1BITS_RetraceReversalPendingBit),
    Flag(TASKSTATUS1_RetraceRequested, TASKSTATUS1BITS_RetraceRequestedBit),
    Flag(TASKSTATUS1_MSOChange, TASKSTATUS1BITS_MSOChangeBit),
    Flag(TASKSTATUS1_SpindleFeedHeld, TASKSTATUS1BITS_SpindleFeedHeldBit),
    Flag(TASKSTATUS1_FeedHeldAxesStopped, TASKSTATUS1BITS_FeedHeldAxesStoppedBit),
    Flag(TASKSTATUS1_CutterRadiusEnabling, TASKSTATUS1BITS_CutterRadiusEnablingBit),
    Flag(TASKSTATUS1_CutterRadiusDisabling, TASKSTATUS1BITS_CutterRadiusDisablingBit),
    Flag(TASKSTATUS1_CutterOffsetsEnablingPositive, TASKSTATUS1BITS_CutterOffsetsEnablingPositiveBit),
    Flag(TASKSTATUS1_CutterOffsetsEnablingNegative, TASKSTATUS1BITS_CutterOffsetsEnablingNegativeBit),
    Flag(TASKSTATUS1_CutterOffsetsDisabling, TASKSTATUS1BITS_CutterOffsetsDisablingBit),
    Flag(TASKSTATUS1_MFOChange, TASKSTATUS1BITS_MFOChangeBit),
    Flag(TASKSTATUS1_InterruptFaultPending, TASKSTATUS1BITS_InterruptFaultPendingBit),
    Flag(TASKSTATUS1_OnGosubPending, TASKSTATUS1BITS_OnGosubPendingBit),
    Flag(TASKSTATUS1_ProgramStopPending, TASKSTATUS1BITS_ProgramStopPendingBit),
    Flag(TASKSTATUS1_CannedFunctionPending, TASKSTATUS1BITS_CannedFunctionPendingBit),
    Flag(TASKSTATUS1_NoMFOFloor, TASKSTATUS1BITS_NoMFOFloorBit),
    Flag(TASKSTATUS1_Interrupted, TASKSTATUS1BITS_InterruptedBit),
    Flag(TASKSTATUS1_GalvoSwitchingIn, TASKSTATUS1BITS_GalvoSwitchingInBit),
    Flag(TASKSTATUS1_GalvoSwitchingOut, TASKSTATUS1BITS_GalvoSwitchingOutBit),
    Flag(TASKSTATUS1_ProgramSuppressed, TASKSTATUS1BITS_ProgramSuppressedBit),
    Flag(TASKSTATUS1_GalvoIFVDeactivationPending, TASKSTATUS1BITS_GalvoIFVDeactivationPendingBit)
  ]

  // TASKSTATUS2 (lines 674-736): the masks, each (1u << k).
  const TASKSTATUS2_RotationActive: nat := Pow2(0)
  const TASKSTATUS2_RThetaPolarActive: nat := Pow2(1)
  const TASKSTATUS2_RThetaCylindricalActive: nat := Pow2(2)
  const TASKSTATUS2_ScalingActive: nat := Pow2(3)
  const TASKSTATUS2_OffsetFixtureActive: nat := Pow2(4)
  const TASKSTATUS2_ProfileActive: nat := Pow2(5)
  const TASKSTATUS2_MotionModeRapid: nat := Pow2(6)
  const TASKSTATUS2_MotionModeCoordinated: nat := Pow2(7)
  const TASKSTATUS2_MotionPVT: nat := Pow2(8)
  const TASKSTATUS2_MotionContinuousActive: nat := Pow2(9)
  const TASKSTATUS2_MotionNoAccel: nat := Pow2(10)
  const TASKSTATUS2_MotionFiber: nat := Pow2(11)
  const TASKSTATUS2_CutterOffsetsActivePos: nat := Pow2(12)
  const TASKSTATUS2_CutterRadiusActiveLeft: nat := Pow2(13)
  const TASKSTATUS2_CutterRadiusActiveRight: nat := Pow2(14)
  const TASKSTATUS2_CutterOffsetsActiveNeg: nat := Pow2(15)
  const TASKSTATUS2_NormalcyActiveLeft: nat := Pow2(16)
  const TASKSTATUS2_NormalcyActiveRight: nat := Pow2(17)
  const TASKSTATUS2_NormalcyAlignment: nat := Pow2(18)
  const TASKSTATUS2_MotionModeCW: nat := Pow2(19)
  const TASKSTATUS2_MotionModeCCW: nat := Pow2(20)
  const TASKSTATUS2_LimitFeedRateActive: nat := Pow2(21)
  const TASKSTATUS2_LimitMFOActive: nat := Pow2(22)
  const TASKSTATUS2_Coord1Plane1: nat := Pow2(23)
  const TASKSTATUS2_Coord1Plane2: nat := Pow2(24)
  const TASKSTATUS2_Coord1Plane3: nat := Pow2(25)
  const TASKSTATUS2_Coord2Plane1: nat := Pow2(26)
  const TASKSTATUS2_Coord2Plane2: nat := Pow2(27)
  const TASKSTATUS2_Coord2Plane3: nat := Pow2(28)
  const TASKSTATUS2_MirrorActive: nat := Pow2(30)
  // TASKSTATUS2BITS (lines 737-799): the bit index of each mask.
  const TASKSTATUS2BITS_RotationActiveBit: int := 0
  const TASKSTATUS2BITS_RThetaPolarActiveBit: int := 1
  const TASKSTATUS2BITS_RThetaCylindricalActiveBit: int := 2
  const TASKSTATUS2BITS_ScalingActiveBit: int := 3
  const TASKSTATUS2BITS_OffsetFixtureActiveBit: int := 4
  const TASKSTATUS2BITS_ProfileActiveBit: int := 5
  const TASKSTATUS2BITS_MotionModeRapidBit: int := 6
  const TASKSTATUS2BITS_MotionModeCoordinatedBit: int := 7
  const TASKSTATUS2BITS_MotionPVTBit: int := 8
  const TASKSTATUS2BITS_MotionContinuousActiveBit: int := 9
  const TASKSTATUS2BITS_MotionNoAccelBit: int := 10
  const TASKSTATUS2BITS_MotionFiberBit: int := 11
  const TASKSTATUS2BITS_CutterOffsetsActivePosBit: int := 12
  const TASKSTATUS2BITS_CutterRadiusActiveLeftBit: int := 13
  const TASKSTATUS2BITS_CutterRadiusActiveRightBit: int := 14
  const TASKSTATUS2BITS_CutterOffsetsActiveNegBit: int := 15
  const TASKSTATUS2BITS_NormalcyActiveLeftBit: int := 16
  const TASKSTATUS2BITS_NormalcyActiveRightBit: int := 17
  const TASKSTATUS2BITS_NormalcyAlignmentBit: int := 18
  const TASKSTATUS2BITS_MotionModeCWBit: int := 19
  const TASKSTATUS2BITS_MotionModeCCWBit: int := 20
  const TASKSTATUS2BITS_LimitFeedRateActiveBit: int := 21
  const TASKSTATUS2BITS_LimitMFOActiveBit: int := 22
  const TASKSTATUS2BITS_Coord1Plane1Bit: int := 23
  const TASKSTATUS2BITS_Coord1Plane2Bit: int := 24
  const TASKSTATUS2BITS_Coord1Plane3Bit: int := 25
  const TASKSTATUS2BITS_Coord2Plane1Bit: int := 26
  const TASKSTATUS2BITS_Coord2Plane2Bit: int := 27
  const TASKSTATUS2BITS_Coord2Plane3Bit: int := 28
  const TASKSTATUS2BITS_MirrorActiveBit: int := 30

  /** TASKSTATUS2 beside TASKSTATUS2BITS, member by member in declaration order. */
  const TaskStatus2: seq<Flag> := [
    Flag(TASKSTATUS2_RotationActive, TASKSTATUS2BITS_RotationActiveBit),
    Flag(TASKSTATUS2_RThetaPolarActive, TASKSTATUS2BITS_RThetaPolarActiveBit),
    Flag(TASKSTATUS2_RThetaCylindricalActive, TASKSTATUS2BITS_RThetaCylindricalActiveBit),
    Flag(TASKSTATUS2_ScalingActive, TASKSTATUS2BITS_ScalingActiveBit),
    Flag(TASKSTATUS2_OffsetFixtureActive, TASKSTATUS2BITS_OffsetFixtureActiveBit),
    Flag(TASKSTATUS2_ProfileActive, TASKSTATUS2BITS_ProfileActiveBit),
    Flag(TASKSTATUS2_MotionModeRapid, TASKSTATUS2BITS_MotionModeRapidBit),
    Flag(TASKSTATUS2_MotionModeCoordinated, TASKSTATUS2BITS_MotionModeCoordinatedBit),
    Flag(TASKSTATUS2_MotionPVT, TASKSTATUS2BITS_MotionPVTBit),
    Flag(TASKSTATUS2_MotionContinuousActive, TASKSTATUS2BITS_MotionContinuousActiveBit),
    Flag(TASKSTATUS2_MotionNoAccel, TASKSTATUS2BITS_MotionNoAccelBit),
    Flag(TASKSTATUS2_MotionFiber, TASKSTATUS2BITS_MotionFiberBit),
    Flag(TASKSTATUS2_CutterOffsetsActivePos, TASKSTATUS2BITS_CutterOffsetsActivePosBit),
    Flag(TASKSTATUS2_CutterRadiusActiveLeft, TASKSTATUS2BITS_CutterRadiusActiveLeftBit),
    Flag(TASKSTATUS2_CutterRadiusActiveRight, TASKSTATUS2BITS_CutterRadiusActiveRightBit),
    Flag(TASKSTATUS2_CutterOffsetsActiveNeg, TASKSTATUS2BITS_CutterOffsetsActiveNegBit),
    Flag(TASKSTATUS2_NormalcyActiveLeft, TASKSTATUS2BITS_NormalcyActiveLeftBit),
    Flag(TASKSTATUS2_NormalcyActiveRight, TASKSTATUS2BITS_NormalcyActiveRightBit),
    Flag(TASKSTATUS2_NormalcyAlignment, TASKSTATUS2BITS_NormalcyAlignmentBit),
    Flag(TASKSTATUS2_MotionModeCW, TASKSTATUS2BITS_MotionModeCWBit),
    Flag(TASKSTATUS2_MotionModeCCW, TASKSTATUS2BITS_MotionModeCCWBit),
    Flag(TASKSTATUS2_LimitFeedRateActive, TASKSTATUS2BITS_LimitFeedRateActiveBit),
    Flag(TASKSTATUS2_LimitMFOActive, TASKSTATUS2BITS_LimitMFOActiveBit),
    Flag(TASKSTATUS2_Coord1Plane1, TASKSTATUS2BITS_Coord1Plane1Bit),
    Flag(TASKSTATUS2_Coord1Plane2, TASKSTATUS2BITS_Coord1Plane2Bit),
    Flag(TASKSTATUS2_Coord1Plane3, TASKSTATUS2BITS_Coord1Plane3Bit),
    Flag(TASKSTATUS2_Coord2Plane1, TASKSTATUS2BITS_Coord2Plane1Bit),
    Flag(TASKSTATUS2_Coord2Plane2, TASKSTATUS2BITS_Coord2Plane2Bit),
    Flag(TASKSTATUS2_Coord2Plane3, TASKSTATUS2BITS_Coord2Plane3Bit),
    Flag(TASKSTATUS2_MirrorActive, TASKSTATUS2BITS_MirrorActiveBit)
  ]

  // TASKMODE (lines 802-856): the masks, each (1u << k).
  const TASKMODE_Secondary: nat := Pow2(0)
  const TASKMODE_Absolute: nat := Pow2(1)
  const TASKMODE_AccelTypeLinear: nat := Pow2(2)
  const TASKMODE_AccelModeRate: nat := Pow2(3)
  const TASKMODE_InverseDominance: nat := Pow2(4)
  const TASKMODE_MotionContinuous: nat := Pow2(5)
  const TASKMODE_InverseCircular: nat := Pow2(6)
  const TASKMODE_SpindleStopOnProgramHalt: nat := Pow2(7)
  const TASKMODE_BlockDelete: nat := Pow2(8)
  const TASKMODE_OptionalPause: nat := Pow2(9)
  const TASKMODE_AccelTypeScurve: nat := Pow2(10)
  const TASKMODE_MFOLock: nat := Pow2(11)
  const TASKMODE_MSOLock: nat := Pow2(12)
  const TASKMODE_DecelTypeLinear: nat := Pow2(13)
  const TASKMODE_DecelTypeScurve: nat := Pow2(14)
  const TASKMODE_AutoMode: nat := Pow2(15)
  const TASKMODE_ProgramFeedRateMPU: nat := Pow2(16)
  const TASKMODE_ProgramFeedRateUPR: nat := Pow2(17)
  const TASKMODE_BlockDelete2: nat := Pow2(22)
  const TASKMODE_OverMode: nat := Pow2(23)
  const TASKMODE_DecelModeRate: nat := Pow2(24)
  const TASKMODE_HighSpeedLookAhead: nat := Pow2(25)
  const TASKMODE_MFOActiveOnJog: nat := Pow2(26)
  const TASKMODE_WaitForInPos: nat := Pow2(27)
  const TASKMODE_Minutes: nat := Pow2(28)
  const TASKMODE_WaitAuto: nat := Pow2(30)
  // TASKMODEBITS (lines 857-911): the bit index of each mask.
  const TASKMODEBITS_SecondaryBit: int := 0
  const TASKMODEBITS_AbsoluteBit: int := 1
  const TASKMODEBITS_AccelTypeLinearBit: int := 2
  const TASKMODEBITS_AccelModeRateBit: int := 3
  const TASKMODEBITS_InverseDominanceBit: int := 4
  const TASKMODEBITS_MotionContinuousBit: int := 5
  const TASKMODEBITS_InverseCircularBit: int := 6
  const TASKMODEBITS_SpindleStopOnProgramHaltBit: int := 7
  const TASKMODEBITS_BlockDeleteBit: int := 8
  const TASKMODEBITS_OptionalPauseBit: int := 9
  const TASKMODEBITS_AccelTypeScurveBit: int := 10
  const TASKMODEBITS_MFOLockBit: int := 11
  const TASKMODEBITS_MSOLockBit: int := 12
  const TASKMODEBITS_DecelTypeLinearBit: int := 13
  const TASKMODEBITS_DecelTypeScurveBit: int := 14
  const TASKMODEBITS_AutoModeBit: int := 15
  const TASKMODEBITS_ProgramFeedRateMPUBit: int := 16
  const TASKMODEBITS_ProgramFeedRateUPRBit: int := 17
  const TASKMODEBITS_BlockDelete2Bit: int := 22
  const TASKMODEBITS_OverModeBit: int := 23
  const TASKMODEBITS_DecelModeRateBit: int := 24
  const TASKMODEBITS_HighSpeedLookAheadBit: int := 25
  const TASKMODEBITS_MFOActiveOnJogBit: int := 26
  const TASKMODEBITS_WaitForInPosBit: int := 27
  const TASKMODEBITS_MinutesBit: int := 28
  const TASKMODEBITS_WaitAutoBit: int := 30

  /** TASKMODE beside TASKMODEBITS, member by member in declaration order. */
  const TaskMode: seq<Flag> := [
    Flag(TASKMODE_Secondary, TASKMODEBITS_SecondaryBit),
    Flag(TASKMODE_Absolute, TASKMODEBITS_AbsoluteBit),
    Flag(TASKMODE_AccelTypeLinear, TASKMODEBITS_AccelTypeLinearBit),
    Flag(TASKMODE_AccelModeRate, TASKMODEBITS_AccelModeRateBit),
    Flag(TASKMODE_InverseDominance, TASKMODEBITS_InverseDominanceBit),
    Flag(TASKMODE_MotionContinuous, TASKMODEBITS_MotionContinuousBit),
    Flag(TASKMODE_InverseCircular, TASKMODEBITS_InverseCircularBit),
    Flag(TASKMODE_SpindleStopOnProgramHalt, TASKMODEBITS_SpindleStopOnProgramHaltBit),
    Flag(TASKMODE_BlockDelete, TASKMODEBITS_BlockDeleteBit),
    Flag(TASKMODE_OptionalPause, TASKMODEBITS_OptionalPauseBit),
    Flag(TASKMODE_AccelTypeScurve, TASKMODEBITS_AccelTypeScurveBit),
    Flag(TASKMODE_MFOLock, TASKMODEBITS_MFOLockBit),
    Flag(TASKMODE_MSOLock, TASKMODEBITS_MSOLockBit),
    Flag(TASKMODE_DecelTypeLinear, TASKMODEBITS_DecelTypeLinearBit),
    Flag(TASKMODE_DecelTypeScurve, TASKMODEBITS_DecelTypeScurveBit),
    Flag(TASKMODE_AutoMode, TASKMODEBITS_AutoModeBit),
    Flag(TASKMODE_ProgramFeedRateMPU, TASKMODEBITS_ProgramFeedRateMPUBit),
    Flag(TASKMODE_ProgramFeedRateUPR, TASKMODEBITS_ProgramFeedRateUPRBit),
    Flag(TASKMODE_BlockDelete2, TASKMODEBITS_BlockDelete2Bit),
    Flag(TASKMODE_OverMode, TASKMODEBITS_OverModeBit),
    Flag(TASKMODE_DecelModeRate, TASKMODEBITS_DecelModeRateBit),
    Flag(TASKMODE_HighSpeedLookAhead, TASKMODEBITS_HighSpeedLookAheadBit),
    Flag(TASKMODE_MFOActiveOnJog, TASKMODEBITS_MFOActiveOnJogBit),
    Flag(TASKMODE_WaitForInPos, TASKMODEBITS_WaitForInPosBit),
    Flag(TASKMODE_Minutes, TASKMODEBITS_MinutesBit),
    Flag(TASKMODE_WaitAuto, TASKMODEBITS_WaitAutoBit)
  ]

  // QUEUESTATUS (lines 914-928): the masks, each (1u << k).
  const QUEUESTATUS_QueueModeActive: nat := Pow2(0)
  const QUEUESTATUS_QueueBufferEmpty: nat := Pow2(1)
  const QUEUESTATUS_QueueBufferFull: nat := Pow2(2)
  const QUEUESTATUS_QueueBufferStarted: nat := Pow2(3)
  const QUEUESTATUS_QueueBufferPaused: nat := Pow2(4)
  const QUEUESTATUS_QueueLargeProgramExecuting: nat := Pow2(5)
  // QUEUESTATUSBITS (lines 929-943): the bit index of each mask.
  const QUEUESTATUSBITS_QueueModeActiveBit: int := 0
  const QUEUESTATUSBITS_QueueBufferEmptyBit: int := 1
  const QUEUESTATUSBITS_QueueBufferFullBit: int := 2
  const QUEUESTATUSBITS_QueueBufferStartedBit: int := 3
  const QUEUESTATUSBITS_QueueBufferPausedBit: int := 4
  const QUEUESTATUSBITS_QueueLargeProgramExecutingBit: int := 5

  /** QUEUESTATUS beside QUEUESTATUSBITS, member by member in declaration order. */
  const QueueStatus: seq<Flag> := [
    Flag(QUEUESTATUS_QueueModeActive, QUEUESTATUSBITS_QueueModeActiveBit),
    Flag(QUEUESTATUS_QueueBufferEmpty, QUEUESTATUSBITS_QueueBufferEmptyBit),
    Flag(QUEUESTATUS_QueueBufferFull, QUEUESTATUSBITS_QueueBufferFullBit),
    Flag(QUEUESTATUS_QueueBufferStarted, QUEUESTATUSBITS_QueueBufferStartedBit),
    Flag(QUEUESTATUS_QueueBufferPaused, QUEUESTATUSBITS_QueueBufferPausedBit),
    Flag(QUEUESTATUS_QueueLargeProgramExecuting, QUEUESTATUSBITS_QueueLargeProgramExecutingBit)
  ]

  // DATACOLLECTIONFLAGS (lines 955-969): the masks, each (1u << k).
  const DATACOLLECTIONFLAGS_Triggered: nat := Pow2(2)
  const DATACOLLECTIONFLAGS_Done: nat := Pow2(3)
  const DATACOLLECTIONFLAGS_Overflow: nat := Pow2(4)
  const DATACOLLECTIONFLAGS_ContinuousMode: nat := Pow2(9)
  const DATACOLLECTIONFLAGS_IsScopeTrigInitiated: nat := Pow2(11)
  const DATACOLLECTIONFLAGS_UploadingDriveBuffers: nat := Pow2(16)
  // DATACOLLECTIONFLAGSBITS (lines 970-984): the bit index of each mask.
  const DATACOLLECTIONFLAGSBITS_TriggeredBit: int := 2
  const DATACOLLECTIONFLAGSBITS_DoneBit: int := 3
  const DATACOLLECTIONFLAGSBITS_OverflowBit: int := 4
  const DATACOLLECTIONFLAGSBITS_ContinuousModeBit: int := 9
  const DATACOLLECTIONFLAGSBITS_IsScopeTrigInitiatedBit: int := 11
  const DATACOLLECTIONFLAGSBITS_UploadingDriveBuffersBit: int := 16

  /** DATACOLLECTIONFLAGS beside DATACOLLECTIONFLAGSBITS, member by member in declaration order. */
  const DataCollectionFlags: seq<Flag> := [
    Flag(DATACOLLECTIONFLAGS_Triggered, DATACOLLECTIONFLAGSBITS_TriggeredBit),
    Flag(DATACOLLECTIONFLAGS_Done, DATACOLLECTIONFLAGSBITS_DoneBit),
    Flag(DATACOLLECTIONFLAGS_Overflow, DATACOLLECTIONFLAGSBITS_OverflowBit),
    Flag(DATACOLLECTIONFLAGS_ContinuousMode, DATACOLLECTIONFLAGSBITS_ContinuousModeBit),
    Flag(DATACOLLECTIONFLAGS_IsScopeTrigInitiated, DATACOLLECTIONFLAGSBITS_IsScopeTrigInitiatedBit),
    Flag(DATACOLLECTIONFLAGS_UploadingDriveBuffers, DATACOLLECTIONFLAGSBITS_UploadingDriveBuffersBit)
  ]

  // DATARECORDINGFLAGS (lines 1227-1233): the masks, each (1u << k).
  const DATARECORDINGFLAGS_Recording: nat := Pow2(0)
  const DATARECORDINGFLAGS_Overflowed: nat := Pow2(1)
  // DATARECORDINGFLAGSBITS (lines 1234-1240): the bit index of each mask.
  const DATARECORDINGFLAGSBITS_RecordingBit: int := 0
  const DATARECORDINGFLAGSBITS_OverflowedBit: int := 1

  /** DATARECORDINGFLAGS beside DATARECORDINGFLAGSBITS, member by member in declaration order. */
  const DataRecordingFlags: seq<Flag> := [
    Flag(DATARECORDINGFLAGS_Recording, DATARECORDINGFLAGSBITS_RecordingBit),
    Flag(DATARECORDINGFLAGS_Overflowed, DATARECORDINGFLAGSBITS_OverflowedBit)
  ]

  // DATAPLAYBACKFLAGS (lines 1243-1249): the masks, each (1u << k).
  const DATAPLAYBACKFLAGS_Playing: nat := Pow2(0)
  const DATAPLAYBACKFLAGS_Underflowed: nat := Pow2(1)
  // DATAPLAYBACKFLAGSBITS (lines 1250-1256): the bit index of each mask.
  const DATAPLAYBACKFLAGSBITS_PlayingBit: int := 0
  const DATAPLAYBACKFLAGSBITS_UnderflowedBit: int := 1

  /** DATAPLAYBACKFLAGS beside DATAPLAYBACKFLAGSBITS, member by member in declaration order. */
  const DataPlaybackFlags: seq<Flag> := [
    Flag(DATAPLAYBACKFLAGS_Playing, DATAPLAYBACKFLAGSBITS_PlayingBit),
    Flag(DATAPLAYBACKFLAGS_Underflowed, DATAPLAYBACKFLAGSBITS_UnderflowedBit)
  ]

  // RAMPMODE (lines 1139-1145).
  const RAMPMODE_Rate: int := 0
  const RAMPMODE_Time: int := 1

  lemma AxisStatusTwinned()
    ensures Twinned(AxisStatus)
  {
  }

  lemma AxisStatusRising()
    ensures Rising(AxisStatus)
  {
  }

  /** Every AXISSTATUS mask is 1 shifted by its twin's index; the indices rise from 0 to 26, leaving bit 6 unused. */
  lemma AxisStatusLayout()
    ensures |AxisStatus| == 26 && Twinned(AxisStatus) && Rising(AxisStatus)
    ensures AxisStatus[0].bit == 0 && AxisStatus[25].bit == 26
    ensures Unused(AxisStatus, 6)
  {
    AxisStatusTwinned();
    AxisStatusRising();
    Gap(AxisStatus, 5, 6);
  }

  lemma AxisFaultTwinned()
    ensures Twinned(AxisFault)
  {
  }

  lemma AxisFaultRising()
    ensures Rising(AxisFault)
  {
  }

  /** Every AXISFAULT mask is 1 shifted by its twin's index; the indices rise from 0 to 26, leaving bits 13, 16, 21 unused. */
  lemma AxisFaultLayout()
    ensures |AxisFault| == 24 && Twinned(AxisFault) && Rising(AxisFault)
    ensures AxisFault[0].bit == 0 && AxisFault[23].bit == 26
    ensures Unused(AxisFault, 13)
    ensures Unused(AxisFault, 16)
    ensures Unused(AxisFault, 21)
  {
    AxisFaultTwinned();
    AxisFaultRising();
    Gap(AxisFault, 12, 13);
    Gap(AxisFault, 14, 16);
    Gap(AxisFault, 18, 21);
  }

  lemma DriveStatusTwinned()
    ensures Twinned(DriveStatus)
  {
  }

  lemma DriveStatusRising()
    ensures Rising(DriveStatus)
  {
  }

  /** Every DRIVESTATUS mask is 1 shifted by its twin's index; the indices rise from 0 to 31. */
  lemma DriveStatusLayout()
    ensures |DriveStatus| == 32 && Twinned(DriveStatus) && Rising(DriveStatus)
    ensures DriveStatus[0].bit == 0 && DriveStatus[31].bit == 31
  {
    DriveStatusTwinned();
    DriveStatusRising();
  }

  lemma TaskStatus0Twinned()
    ensures Twinned(TaskStatus0)
  {
  }

  lemma TaskStatus0Rising()
    ensures Rising(TaskStatus0)
  {
  }

  /** Every TASKSTATUS0 mask is 1 shifted by its twin's index; the indices rise from 0 to 29, leaving bit 1 unused. */
  lemma TaskStatus0Layout()
    ensures |TaskStatus0| == 29 && Twinned(TaskStatus0) && Rising(TaskStatus0)
    ensures TaskStatus0[0].bit == 0 && TaskStatus0[28].bit == 29
    ensures Unused(TaskStatus0, 1)
  {
    TaskStatus0Twinned();
    TaskStatus0Rising();
    Gap(TaskStatus0, 0, 1);
  }

  lemma TaskStatus1Twinned()
    ensures Twinned(TaskStatus1)
  {
  }

  lemma TaskStatus1Rising()
    ensures Rising(TaskStatus1)
  {
  }

  /** Every TASKSTATUS1 mask is 1 shifted by its twin's index; the indices rise from 0 to 24, leaving bits 14, 20 unused. */
  lemma TaskStatus1Layout()
    ensures |TaskStatus1| == 23 && Twinned(TaskStatus1) && Rising(TaskStatus1)
    ensures TaskStatus1[0].bit == 0 && TaskStatus1[22].bit == 24
    ensures Unused(TaskStatus1, 14)
    ensures Unused(TaskStatus1, 20)
  {
    TaskStatus1Twinned();
    TaskStatus1Rising();
    Gap(TaskStatus1, 13, 14);
    Gap(TaskStatus1, 18, 20);
  }

  lemma TaskStatus2Twinned()
    ensures Twinned(TaskStatus2)
  {
  }

  lemma TaskStatus2Rising()
    ensures Rising(TaskStatus2)
  {
  }

  /** Every TASKSTATUS2 mask is 1 shifted by its twin's index; the indices rise from 0 to 30, leaving bit 29 unused. */
  lemma TaskStatus2Layout()
    ensures |TaskStatus2| == 30 && Twinned(TaskStatus2) && Rising(TaskStatus2)
    ensures TaskStatus2[0].bit == 0 && TaskStatus2[29].bit == 30
    ensures Unused(TaskStatus2, 29)
  {
    TaskStatus2Twinned();
    TaskStatus2Rising();
    Gap(TaskStatus2, 28, 29);
  }

  lemma TaskModeTwinned()
    ensures Twinned(TaskMode)
  {
  }

  lemma TaskModeRising()
    ensures Rising(TaskMode)
  {
  }

  /** Every TASKMODE mask is 1 shifted by its twin's index; the indices rise from 0 to 30, leaving bits 18, 19, 20, 21, 29 unused. */
  lemma TaskModeLayout()
    ensures |TaskMode| == 26 && Twinned(TaskMode) && Rising(TaskMode)
    ensures TaskMode[0].bit == 0 && TaskMode[25].bit == 30
    ensures Unused(TaskMode, 18)
    ensures Unused(TaskMode, 19)
    ensures Unused(TaskMode, 20)
    ensures Unused(TaskMode, 21)
    ensures Unused(TaskMode, 29)
  {
    TaskModeTwinned();
    TaskModeRising();
    Gap(TaskMode, 17, 18);
    Gap(TaskMode, 17, 19);
    Gap(TaskMode, 17, 20);
    Gap(TaskMode, 17, 21);
    Gap(TaskMode, 24, 29);
  }

  lemma QueueStatusTwinned()
    ensures Twinned(QueueStatus)
  {
  }

  lemma QueueStatusRising()
    ensures Rising(QueueStatus)
  {
  }

  /** Every QUEUESTATUS mask is 1 shifted by its twin's index; the indices rise from 0 to 5. */
  lemma QueueStatusLayout()
    ensures |QueueStatus| == 6 && Twinned(QueueStatus) && Rising(QueueStatus)
    ensures QueueStatus[0].bit == 0 && QueueStatus[5].bit == 5
  {
    QueueStatusTwinned();
    QueueStatusRising();
  }

  lemma DataCollectionFlagsTwinned()
    ensures Twinned(DataCollectionFlags)
  {
  }

  lemma DataCollectionFlagsRising()
    ensures Rising(DataCollectionFlags)
  {
  }

  /** Every DATACOLLECTIONFLAGS mask is 1 shifted by its twin's index; the indices rise from 2 to 16, leaving bits 0, 1, 5, 6, 7, 8, 10, 12, 13, 14, 15 unused. */
  lemma DataCollectionFlagsLayout()
    ensures |DataCollectionFlags| == 6 && Twinned(DataCollectionFlags) && Rising(DataCollectionFlags)
    ensures DataCollectionFlags[0].bit == 2 && DataCollectionFlags[5].bit == 16
    ensures Unused(DataCollectionFlags, 0)
    ensures Unused(DataCollectionFlags, 1)
    ensures Unused(DataCollectionFlags, 5)
    ensures Unused(DataCollectionFlags, 6)
    ensures Unused(DataCollectionFlags, 7)
    ensures Unused(DataCollectionFlags, 8)
    ensures Unused(DataCollectionFlags, 10)
    ensures Unused(DataCollectionFlags, 12)
    ensures Unused(DataCollectionFlags, 13)
    ensures Unused(DataCollectionFlags, 14)
    ensures Unused(DataCollectionFlags, 15)
  {
    DataCollectionFlagsTwinned();
    DataCollectionFlagsRising();
    BelowFirst(DataCollectionFlags, 0);
    BelowFirst(DataCollectionFlags, 1);
    Gap(DataCollectionFlags, 2, 5);
    Gap(DataCollectionFlags, 2, 6);
    Gap(DataCollectionFlags, 2, 7);
    Gap(DataCollectionFlags, 2, 8);
    Gap(DataCollectionFlags, 3, 10);
    Gap(DataCollectionFlags, 4, 12);
    Gap(DataCollectionFlags, 4, 13);
    Gap(DataCollectionFlags, 4, 14);
    Gap(DataCollectionFlags, 4, 15);
  }

  lemma DataRecordingFlagsTwinned()
    ensures Twinned(DataRecordingFlags)
  {
  }

  lemma DataRecordingFlagsRising()
    ensures Rising(DataRecordingFlags)
  {
  }

  /** Every DATARECORDINGFLAGS mask is 1 shifted by its twin's index; the indices rise from 0 to 1. */
  lemma DataRecordingFlagsLayout()
    ensures |DataRecordingFlags| == 2 && Twinned(DataRecordingFlags) && Rising(DataRecordingFlags)
    ensures DataRecordingFlags[0].bit == 0 && DataRecordingFlags[1].bit == 1
  {
    DataRecordingFlagsTwinned();
    DataRecordingFlagsRising();
  }

  lemma DataPlaybackFlagsTwinned()
    ensures Twinned(DataPlaybackFlags)
  {
  }

  lemma DataPlaybackFlagsRising()
    ensures Rising(DataPlaybackFlags)
  {
  }

  /** Every DATAPLAYBACKFLAGS mask is 1 shifted by its twin's index; the indices rise from 0 to 1. */
  lemma DataPlaybackFlagsLayout()
    ensures |DataPlaybackFlags| == 2 && Twinned(DataPlaybackFlags) && Rising(DataPlaybackFlags)
    ensures DataPlaybackFlags[0].bit == 0 && DataPlaybackFlags[1].bit == 1
  {
    DataPlaybackFlagsTwinned();
    DataPlaybackFlagsRising();
  }

  /** DRIVESTATUS fills the word: member k is bit k, for all 32 bits. */
  lemma DriveStatusFull()
    ensures |DriveStatus| == 32
    ensures forall k :: 0 <= k < 32 ==> DriveStatus[k].bit == k
  {
    DriveStatusLayout();
    FullWord(DriveStatus);
  }

  /**
   * The AXISSTATUS masks are distinct powers of two, so a word built from
   * any choice of axis-status flags reports exactly that choice.
   */
  lemma AxisStatusIndependent(on: seq<bool>)
    requires |on| == |AxisStatus|
    ensures Twinned(AxisStatus) && Rising(AxisStatus)
    ensures forall i, j :: 0 <= i < j < |AxisStatus| ==> AxisStatus[i].mask < AxisStatus[j].mask
    ensures Decode(Encode(on, AxisStatus), AxisStatus) == on
  {
    AxisStatusLayout();
    DistinctMasks(AxisStatus);
    DecodeEncode(on, AxisStatus);
  }

  /** Likewise for the axis-fault word. */
  lemma AxisFaultIndependent(on: seq<bool>)
    requires |on| == |AxisFault|
    ensures Twinned(AxisFault) && Rising(AxisFault)
    ensures Decode(Encode(on, AxisFault), AxisFault) == on
  {
    AxisFaultLayout();
    DecodeEncode(on, AxisFault);
  }
}
