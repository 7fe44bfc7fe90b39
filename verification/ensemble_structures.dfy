/**
 * The status, fault and flag words of the Ensemble controller, as the
 * EnsembleCommonStructures.h header lays them out, in the same mask-and-twin
 * form as the A3200 header, together with the few plain enumerations whose
 * values the header fixes and where the two controllers disagree.
 */
module EnsembleStructures {
  import opened AerotechFlags
  import opened CodeTables
  import A3200Structures

  // SERVORATEPARAMETER (lines 11-25).
  const SERVORATEPARAMETER_OnekHz: int := 0
  const SERVORATEPARAMETER_TwokHz: int := 1
  const SERVORATEPARAMETER_FourkHz: int := 2
  const SERVORATEPARAMETER_FivekHz: int := 3
  const SERVORATEPARAMETER_TenkHz: int := 4
  const SERVORATEPARAMETER_TwentykHz: int := 5

  /** The servo rates in declaration order. */
  const ServoRates: seq<int> := [SERVORATEPARAMETER_OnekHz, SERVORATEPARAMETER_TwokHz, SERVORATEPARAMETER_FourkHz, SERVORATEPARAMETER_FivekHz, SERVORATEPARAMETER_TenkHz, SERVORATEPARAMETER_TwentykHz]

  /** The servo-rate settings are exactly 0 to 5, in order. */
  lemma ServoRatesContiguous()
    ensures |ServoRates| == 6
    ensures forall k :: 0 <= k < |ServoRates| ==> ServoRates[k] == k
  {
  }

  // COMPONENTTYPE (lines 671-699).
  const COMPONENTTYPE_CP: int := 32773
  const COMPONENTTYPE_MP: int := 32774
  const COMPONENTTYPE_Control: int := 32775
  const COMPONENTTYPE_CL: int := 32776
  const COMPONENTTYPE_HPE: int := 32777
  const COMPONENTTYPE_HLE: int := 32778
  const COMPONENTTYPE_ML: int := 32779
  const COMPONENTTYPE_PMT: int := 32780
  const COMPONENTTYPE_Lab: int := 32781
  const COMPONENTTYPE_QLab: int := 32782
  const COMPONENTTYPE_QDe: int := 32784
  const COMPONENTTYPE_QL: int := 32785
  const COMPONENTTYPE_QLe: int := 32786

  /** The component codes in declaration order. */
  const ComponentTypes: seq<int> := [COMPONENTTYPE_CP, COMPONENTTYPE_MP, COMPONENTTYPE_Control, COMPONENTTYPE_CL, COMPONENTTYPE_HPE, COMPONENTTYPE_HLE, COMPONENTTYPE_ML, COMPONENTTYPE_PMT, COMPONENTTYPE_Lab, COMPONENTTYPE_QLab, COMPONENTTYPE_QDe, COMPONENTTYPE_QL, COMPONENTTYPE_QLe]

  // PLANESTATUS (lines 49-63): the masks, each (1u << k).
  const PLANESTATUS_MotionActive: nat := Pow2(0)
  const PLANESTATUS_VelocityProfilingActive: nat := Pow2(1)
  const PLANESTATUS_AccelerationPhaseActive: nat := Pow2(2)
  const PLANESTATUS_DecelerationPhaseActive: nat := Pow2(3)
  const PLANESTATUS_MotionAborting: nat := Pow2(4)
  const PLANESTATUS_HoldModeActive: nat := Pow2(5)
  // PLANESTATUSBITS (lines 64-78): the bit index of each mask.
  const PLANESTATUSBITS_MotionActiveBit: int := 0
  const PLANESTATUSBITS_VelocityProfilingActiveBit: int := 1
  const PLANESTATUSBITS_AccelerationPhaseActiveBit: int := 2
  const PLANESTATUSBITS_DecelerationPhaseActiveBit: int := 3
  const PLANESTATUSBITS_MotionAbortingBit: int := 4
  const PLANESTATUSBITS_HoldModeActiveBit: int := 5

  /** PLANESTATUS beside PLANESTATUSBITS, member by member in declaration order. */
  const PlaneStatus: seq<Flag> := [
    Flag(PLANESTATUS_MotionActive, PLANESTATUSBITS_MotionActiveBit),
    Flag(PLANESTATUS_VelocityProfilingActive, PLANESTATUSBITS_VelocityProfilingActiveBit),
    Flag(PLANESTATUS_AccelerationPhaseActive, PLANESTATUSBITS_AccelerationPhaseActiveBit),
    Flag(PLANESTATUS_DecelerationPhaseActive, PLANESTATUSBITS_DecelerationPhaseActiveBit),
    Flag(PLANESTATUS_MotionAborting, PLANESTATUSBITS_MotionAbortingBit),
    Flag(PLANESTATUS_HoldModeActive, PLANESTATUSBITS_HoldModeActiveBit)
  ]

  // DEBUGFLAGS (lines 81-91): the masks, each (1u << k).
  const DEBUGFLAGS_PrintStringCallbackPending: nat := Pow2(0)
  const DEBUGFLAGS_CollectionTriggered: nat := Pow2(1)
  const DEBUGFLAGS_CollectionDone: nat := Pow2(2)
  const DEBUGFLAGS_InputBoxCallbackPending: nat := Pow2(3)
  // DEBUGFLAGSBITS (lines 92-102): the bit index of each mask.
  const DEBUGFLAGSBITS_PrintStringCallbackPendingBit: int := 0
  const DEBUGFLAGSBITS_CollectionTriggeredBit: int := 1
  const DEBUGFLAGSBITS_CollectionDoneBit: int := 2
  const DEBUGFLAGSBITS_InputBoxCallbackPendingBit: int := 3

  /** DEBUGFLAGS beside DEBUGFLAGSBITS, member by member in declaration order. */
  const DebugFlags: seq<Flag> := [
    Flag(DEBUGFLAGS_PrintStringCallbackPending, DEBUGFLAGSBITS_PrintStringCallbackPendingBit),
    Flag(DEBUGFLAGS_CollectionTriggered, DEBUGFLAGSBITS_CollectionTriggeredBit),
    Flag(DEBUGFLAGS_CollectionDone, DEBUGFLAGSBITS_CollectionDoneBit),
    Flag(DEBUGFLAGS_InputBoxCallbackPending, DEBUGFLAGSBITS_InputBoxCallbackPendingBit)
  ]

  // AXISSTATUS (lines 105-171): the masks, each (1u << k).
  const AXISSTATUS_Enabled: nat := Pow2(0)
  const AXISSTATUS_Homed: nat := Pow2(1)
  const AXISSTATUS_InPosition: nat := Pow2(2)
  const AXISSTATUS_MoveActive: nat := Pow2(3)
  const AXISSTATUS_AccelerationPhase: nat := Pow2(4)
  const AXISSTATUS_DecelerationPhase: nat := Pow2(5)
  const AXISSTATUS_PositionCaptureActive: nat := Pow2(6)
  const AXISSTATUS_CurrentClamp: nat := Pow2(7)
  const AXISSTATUS_BrakeOutput: nat := Pow2(8)
  const AXISSTATUS_MotionIsCw: nat := Pow2(9)
  const AXISSTATUS_MasterSlaveControl: nat := Pow2(10)
  const AXISSTATUS_CalibrationActive: nat := Pow2(11)
  const AXISSTATUS_CalibrationEnabled: nat := Pow2(12)
  const AXISSTATUS_JoystickControl: nat := Pow2(13)
  const AXISSTATUS_Homing: nat := Pow2(14)
  const AXISSTATUS_MasterMotionSuppressed: nat := Pow2(15)
  const AXISSTATUS_GantryModeActive: nat := Pow2(16)
  const AXISSTATUS_GantryMasterActive: nat := Pow2(17)
  const AXISSTATUS_AutofocusActive: nat := Pow2(18)
  const AXISSTATUS_CommandShapingFilterDone: nat := Pow2(19)
  const AXISSTATUS_InPosition2: nat := Pow2(20)
  const AXISSTATUS_ServoControl: nat := Pow2(21)
  const AXISSTATUS_CwEndOfTravelLimitInput: nat := Pow2(22)
  const AXISSTATUS_CcwEndOfTravelLimitInput: nat := Pow2(23)
  const AXISSTATUS_HomeLimitInput: nat := Pow2(24)
  const AXISSTATUS_MarkerInput: nat := Pow2(25)
  const AXISSTATUS_HallAInput: nat := Pow2(26)
  const AXISSTATUS_HallBInput: nat := Pow2(27)
  const AXISSTATUS_HallCInput: nat := Pow2(28)
  const AXISSTATUS_SineEncoderError: nat := Pow2(29)
  const AXISSTATUS_CosineEncoderError: nat := Pow2(30)
  const AXISSTATUS_EmergencyStopInput: nat := Pow2(31)
  // AXISSTATUSBITS (lines 172-238): the bit index of each mask.
  const AXISSTATUSBITS_EnabledBit: int := 0
  const AXISSTATUSBITS_HomedBit: int := 1
  const AXISSTATUSBITS_InPositionBit: int := 2
  const AXISSTATUSBITS_MoveActiveBit: int := 3
  const AXISSTATUSBITS_AccelerationPhaseBit: int := 4
  const AXISSTATUSBITS_DecelerationPhaseBit: int := 5
  const AXISSTATUSBITS_PositionCaptureActiveBit: int := 6
  const AXISSTATUSBITS_CurrentClampBit: int := 7
  const AXISSTATUSBITS_BrakeOutputBit: int := 8
  const AXISSTATUSBITS_MotionIsCwBit: int := 9
  const AXISSTATUSBITS_MasterSlaveControlBit: int := 10
  const AXISSTATUSBITS_CalibrationActiveBit: int := 11
  const AXISSTATUSBITS_CalibrationEnabledBit: int := 12
  const AXISSTATUSBITS_JoystickControlBit: int := 13
  const AXISSTATUSBITS_HomingBit: int := 14
  const AXISSTATUSBITS_MasterMotionSuppressedBit: int := 15
  const AXISSTATUSBITS_GantryModeActiveBit: int := 16
  const AXISSTATUSBITS_GantryMasterActiveBit: int := 17
  const AXISSTATUSBITS_AutofocusActiveBit: int := 18
  const AXISSTATUSBITS_CommandShapingFilterDoneBit: int := 19
  const AXISSTATUSBITS_InPosition2Bit: int := 20
  const AXISSTATUSBITS_ServoControlBit: int := 21
  const AXISSTATUSBITS_CwEndOfTravelLimitInputBit: int := 22
  const AXISSTATUSBITS_CcwEndOfTravelLimitInputBit: int := 23
  const AXISSTATUSBITS_HomeLimitInputBit: int := 24
  const AXISSTATUSBITS_MarkerInputBit: int := 25
  const AXISSTATUSBITS_HallAInputBit: int := 26
  const AXISSTATUSBITS_HallBInputBit: int := 27
  const AXISSTATUSBITS_HallCInputBit: int := 28
  const AXISSTATUSBITS_SineEncoderErrorBit: int := 29
  const AXISSTATUSBITS_CosineEncoderErrorBit: int := 30
  const AXISSTATUSBITS_EmergencyStopInputBit: int := 31

  /** AXISSTATUS beside AXISSTATUSBITS, member by member in declaration order. */
  const AxisStatus: seq<Flag> := [
    Flag(AXISSTATUS_Enabled, AXISSTATUSBITS_EnabledBit),
    Flag(AXISSTATUS_Homed, AXISSTATUSBITS_HomedBit),
    Flag(AXISSTATUS_InPosition, AXISSTATUSBITS_InPositionBit),
    Flag(AXISSTATUS_MoveActive, AXISSTATUSBITS_MoveActiveBit),
    Flag(AXISSTATUS_AccelerationPhase, AXISSTATUSBITS_AccelerationPhaseBit),
    Flag(AXISSTATUS_DecelerationPhase, AXISSTATUSBITS_DecelerationPhaseBit),
    Flag(AXISSTATUS_PositionCaptureActive, AXISSTATUSBITS_PositionCaptureActiveBit),
    Flag(AXISSTATUS_CurrentClamp, AXISSTATUSBITS_CurrentClampBit),
    Flag(AXISSTATUS_BrakeOutput, AXISSTATUSBITS_BrakeOutputBit),
    Flag(AXISSTATUS_MotionIsCw, AXISSTATUSBITS_MotionIsCwBit),
    Flag(AXISSTATUS_MasterSlaveControl, AXISSTATUSBITS_MasterSlaveControlBit),
    Flag(AXISSTATUS_CalibrationActive, AXISSTATUSBITS_CalibrationActiveBit),
    Flag(AXISSTATUS_CalibrationEnabled, AXISSTATUSBITS_CalibrationEnabledBit),
    Flag(AXISSTATUS_JoystickControl, AXISSTATUSBITS_JoystickControlBit),
    Flag(AXISSTATUS_Homing, AXISSTATUSBITS_HomingBit),
    Flag(AXISSTATUS_MasterMotionSuppressed, AXISSTATUSBITS_MasterMotionSuppressedBit),
    Flag(AXISSTATUS_GantryModeActive, AXISSTATUSBITS_GantryModeActiveBit),
    Flag(AXISSTATUS_GantryMasterActive, AXISSTATUSBITS_GantryMasterActiveBit),
    Flag(AXISSTATUS_AutofocusActive, AXISSTATUSBITS_AutofocusActiveBit),
    Flag(AXISSTATUS_CommandShapingFilterDone, AXISSTATUSBITS_CommandShapingFilterDoneBit),
    Flag(AXISSTATUS_InPosition2, AXISSTATUSBITS_InPosition2Bit),
    Flag(AXISSTATUS_ServoControl, AXISSTATUSBITS_ServoControlBit),
    Flag(AXISSTATUS_CwEndOfTravelLimitInput, AXISSTATUSBITS_CwEndOfTravelLimitInputBit),
    Flag(AXISSTATUS_CcwEndOfTravelLimitInput, AXISSTATUSBITS_CcwEndOfTravelLimitInputBit),
    Flag(AXISSTATUS_HomeLimitInput, AXISSTATUSBITS_HomeLimitInputBit),
    Flag(AXISSTATUS_MarkerInput, AXISSTATUSBITS_MarkerInputBit),
    Flag(AXISSTATUS_HallAInput, AXISSTATUSBITS_HallAInputBit),
    Flag(AXISSTATUS_HallBInput, AXISSTATUSBITS_HallBInputBit),
    Flag(AXISSTATUS_HallCInput, AXISSTATUSBITS_HallCInputBit),
    Flag(AXISSTATUS_SineEncoderError, AXISSTATUSBITS_SineEncoderErrorBit),
    Flag(AXISSTATUS_CosineEncoderError, AXISSTATUSBITS_CosineEncoderErrorBit),
    Flag(AXISSTATUS_EmergencyStopInput, AXISSTATUSBITS_EmergencyStopInputBit)
  ]

  // DATACOLLECTIONFLAGS (lines 315-325): the masks, each (1u << k).
  const DATACOLLECTIONFLAGS_Triggered: nat := Pow2(2)
  const DATACOLLECTIONFLAGS_Done: nat := Pow2(3)
  const DATACOLLECTIONFLAGS_Overflow: nat := Pow2(5)
  const DATACOLLECTIONFLAGS_IsScopeTrigInitiated: nat := Pow2(6)
  // DATACOLLECTIONFLAGSBITS (lines 326-336): the bit index of each mask.
  const DATACOLLECTIONFLAGSBITS_TriggeredBit: int := 2
  const DATACOLLECTIONFLAGSBITS_DoneBit: int := 3
  const DATACOLLECTIONFLAGSBITS_OverflowBit: int := 5
  const DATACOLLECTIONFLAGSBITS_IsScopeTrigInitiatedBit: int := 6

  /** DATACOLLECTIONFLAGS beside DATACOLLECTIONFLAGSBITS, member by member in declaration order. */
  const DataCollectionFlags: seq<Flag> := [
    Flag(DATACOLLECTIONFLAGS_Triggered, DATACOLLECTIONFLAGSBITS_TriggeredBit),
    Flag(DATACOLLECTIONFLAGS_Done, DATACOLLECTIONFLAGSBITS_DoneBit),
    Flag(DATACOLLECTIONFLAGS_Overflow, DATACOLLECTIONFLAGSBITS_OverflowBit),
    Flag(DATACOLLECTIONFLAGS_IsScopeTrigInitiated, DATACOLLECTIONFLAGSBITS_IsScopeTrigInitiatedBit)
  ]

  // ETHERNETSTATUS (lines 511-517): the masks, each (1u << k).
  const ETHERNETSTATUS_DataInTransmitter: nat := Pow2(0)
  const ETHERNETSTATUS_DataInReceiver: nat := Pow2(1)
  // ETHERNETSTATUSBITS (lines 518-524): the bit index of each mask.
  const ETHERNETSTATUSBITS_DataInTransmitterBit: int := 0
  const ETHERNETSTATUSBITS_DataInReceiverBit: int := 1

  /** ETHERNETSTATUS beside ETHERNETSTATUSBITS, member by member in declaration order. */
  const EthernetStatus: seq<Flag> := [
    Flag(ETHERNETSTATUS_DataInTransmitter, ETHERNETSTATUSBITS_DataInTransmitterBit),
    Flag(ETHERNETSTATUS_DataInReceiver, ETHERNETSTATUSBITS_DataInReceiverBit)
  ]

  // FLASHCONFIGSTATUS (lines 720-728): the masks, each (1u << k).
  const FLASHCONFIGSTATUS_Supported: nat := Pow2(0)
  const FLASHCONFIGSTATUS_DataValid: nat := Pow2(1)
  const FLASHCONFIGSTATUS_SerialMismatch: nat := Pow2(2)
  // FLASHCONFIGSTATUSBITS (lines 729-737): the bit index of each mask.
  const FLASHCONFIGSTATUSBITS_SupportedBit: int := 0
  const FLASHCONFIGSTATUSBITS_DataValidBit: int := 1
  const FLASHCONFIGSTATUSBITS_SerialMismatchBit: int := 2

  /** FLASHCONFIGSTATUS beside FLASHCONFIGSTATUSBITS, member by member in declaration order. */
  const FlashConfigStatus: seq<Flag> := [
    Flag(FLASHCONFIGSTATUS_Supported, FLASHCONFIGSTATUSBITS_SupportedBit),
    Flag(FLASHCONFIGSTATUS_DataValid, FLASHCONFIGSTATUSBITS_DataValidBit),
    Flag(FLASHCONFIGSTATUS_SerialMismatch, FLASHCONFIGSTATUSBITS_SerialMismatchBit)
  ]

  // AXISFAULT (lines 740-788): the masks, each (1u << k).
  const AXISFAULT_PositionErrorFault: nat := Pow2(0)
  const AXISFAULT_OverCurrentFault: nat := Pow2(1)
  const AXISFAULT_CwEndOfTravelLimitFault: nat := Pow2(2)
  const AXISFAULT_CcwEndOfTravelLimitFault: nat := Pow2(3)
  const AXISFAULT_CwSoftwareLimitFault: nat := Pow2(4)
  const AXISFAULT_CcwSoftwareLimitFault: nat := Pow2(5)
  const AXISFAULT_AmplifierFault: nat := Pow2(6)
  const AXISFAULT_PositionFeedbackFault: nat := Pow2(7)
  const AXISFAULT_VelocityFeedbackFault: nat := Pow2(8)
  const AXISFAULT_HallSensorFault: nat := Pow2(9)
  const AXISFAULT_MaxVelocityCommandFault: nat := Pow2(10)
  const AXISFAULT_EmergencyStopFault: nat := Pow2(11)
  const AXISFAULT_VelocityErrorFault: nat := Pow2(12)
  const AXISFAULT_ExternalFault: nat := Pow2(15)
  const AXISFAULT_MotorTemperatureFault: nat := Pow2(17)
  const AXISFAULT_AmplifierTemperatureFault: nat := Pow2(18)
  const AXISFAULT_EncoderFault: nat := Pow2(19)
  const AXISFAULT_CommunicationLostFault: nat := Pow2(20)
  const AXISFAULT_FeedbackScalingFault: nat := Pow2(23)
  const AXISFAULT_MarkerSearchFault: nat := Pow2(24)
  const AXISFAULT_VoltageClampFault: nat := Pow2(27)
  const AXISFAULT_PowerSupplyFault: nat := Pow2(28)
  const AXISFAULT_InternalFault: nat := Pow2(30)
  // AXISFAULTBITS (lines 789-837): the bit index of each mask.
  const AXISFAULTBITS_PositionErrorFaultBit: int := 0
  const AXISFAULTBITS_OverCurrentFaultBit: int := 1
  const AXISFAULTBITS_CwEndOfTravelLimitFaultBit: int := 2
  const AXISFAULTBITS_CcwEndOfTravelLimitFaultBit: int := 3
  const AXISFAULTBITS_CwSoftwareLimitFaultBit: int := 4
  const AXISFAULTBITS_CcwSoftwareLimitFaultBit: int := 5
  const AXISFAULTBITS_AmplifierFaultBit: int := 6
  const AXISFAULTBITS_PositionFeedbackFaultBit: int := 7
  const AXISFAULTBITS_VelocityFeedbackFaultBit: int := 8
  const AXISFAULTBITS_HallSensorFaultBit: int := 9
  const AXISFAULTBITS_MaxVelocityCommandFaultBit: int := 10
  const AXISFAULTBITS_EmergencyStopFaultBit: int := 11
  const AXISFAULTBITS_VelocityErrorFaultBit: int := 12
  const AXISFAULTBITS_ExternalFaultBit: int := 15
  const AXISFAULTBITS_MotorTemperatureFaultBit: int := 17
  const AXISFAULTBITS_AmplifierTemperatureFaultBit: int := 18
  const AXISFAULTBITS_EncoderFaultBit: int := 19
  const AXISFAULTBITS_CommunicationLostFaultBit: int := 20
  const AXISFAULTBITS_FeedbackScalingFaultBit: int := 23
  const AXISFAULTBITS_MarkerSearchFaultBit: int := 24
  const AXISFAULTBITS_VoltageClampFaultBit: int := 27
  const AXISFAULTBITS_PowerSupplyFaultBit: int := 28
  const AXISFAULTBITS_InternalFaultBit: int := 30

  /** AXISFAULT beside AXISFAULTBITS, member by member in declaration order. */
  const AxisFault: seq<Flag> := [
    Flag(AXISFAULT_PositionErrorFault, AXISFAULTBITS_PositionErrorFaultBit),
    Flag(AXISFAULT_OverCurrentFault, AXISFAULTBITS_OverCurrentFaultBit),
    Flag(AXISFAULT_CwEndOfTravelLimitFault, AXISFAULTBITS_CwEndOfTravelLimitFaultBit),
    Flag(AXISFAULT_CcwEndOfTravelLimitFault, AXISFAULTBITS_CcwEndOfTravelLimitFaultBit),
    Flag(AXISFAULT_CwSoftwareLimitFault, AXISFAULTBITS_CwSoftwareLimitFaultBit),
    Flag(AXISFAULT_CcwSoftwareLimitFault, AXISFAULTBITS_CcwSoftwareLimitFaultBit),
    Flag(AXISFAULT_AmplifierFault, AXISFAULTBITS_AmplifierFaultBit),
    Flag(AXISFAULT_PositionFeedbackFault, AXISFAULTBITS_PositionFeedbackFaultBit),
    Flag(AXISFAULT_VelocityFeedbackFault, AXISFAULTBITS_VelocityFeedbackFaultBit),
    Flag(AXISFAULT_HallSensorFault, AXISFAULTBITS_HallSensorFaultBit),
    Flag(AXISFAULT_MaxVelocityCommandFault, AXISFAULTBITS_MaxVelocityCommandFaultBit),
    Flag(AXISFAULT_EmergencyStopFault, AXISFAULTBITS_EmergencyStopFaultBit),
    Flag(AXISFAULT_VelocityErrorFault, AXISFAULTBITS_VelocityErrorFaultBit),
    Flag(AXISFAULT_ExternalFault, AXISFAULTBITS_ExternalFaultBit),
    Flag(AXISFAULT_MotorTemperatureFault, AXISFAULTBITS_MotorTemperatureFaultBit),
    Flag(AXISFAULT_AmplifierTemperatureFault, AXISFAULTBITS_AmplifierTemperatureFaultBit),
    Flag(AXISFAULT_EncoderFault, AXISFAULTBITS_EncoderFaultBit),
    Flag(AXISFAULT_CommunicationLostFault, AXISFAULTBITS_CommunicationLostFaultBit),
    Flag(AXISFAULT_FeedbackScalingFault, AXISFAULTBITS_FeedbackScalingFaultBit),
    Flag(AXISFAULT_MarkerSearchFault, AXISFAULTBITS_MarkerSearchFaultBit),
    Flag(AXISFAULT_VoltageClampFault, AXISFAULTBITS_VoltageClampFaultBit),
    Flag(AXISFAULT_PowerSupplyFault, AXISFAULTBITS_PowerSupplyFaultBit),
    Flag(AXISFAULT_InternalFault, AXISFAULTBITS_InternalFaultBit)
  ]

  // RAMPMODE (lines 851-859).
  const RAMPMODE_Dist: int := 0
  const RAMPMODE_Rate: int := 1
  const RAMPMODE_Time: int := 2

  lemma PlaneStatusTwinned()
    ensures Twinned(PlaneStatus)
  {
  }

  lemma PlaneStatusRising()
    ensures Rising(PlaneStatus)
  {
  }

  /** Every PLANESTATUS mask is 1 shifted by its twin's index; the indices rise from 0 to 5. */
  lemma PlaneStatusLayout()
    ensures |PlaneStatus| == 6 && Twinned(PlaneStatus) && Rising(PlaneStatus)
    ensures PlaneStatus[0].bit == 0 && PlaneStatus[5].bit == 5
  {
    PlaneStatusTwinned();
    PlaneStatusRising();
  }

  lemma DebugFlagsTwinned()
    ensures Twinned(DebugFlags)
  {
  }

  lemma DebugFlagsRising()
    ensures Rising(DebugFlags)
  {
  }

  /** Every DEBUGFLAGS mask is 1 shifted by its twin's index; the indices rise from 0 to 3. */
  lemma DebugFlagsLayout()
    ensures |DebugFlags| == 4 && Twinned(DebugFlags) && Rising(DebugFlags)
    ensures DebugFlags[0].bit == 0 && DebugFlags[3].bit == 3
  {
    DebugFlagsTwinned();
    DebugFlagsRising();
  }

  lemma AxisStatusTwinned()
    ensures Twinned(AxisStatus)
  {
  }

  lemma AxisStatusRising()
    ensures Rising(AxisStatus)
  {
  }

  /** Every AXISSTATUS mask is 1 shifted by its twin's index; the indices rise from 0 to 31. */
  lemma AxisStatusLayout()
    ensures |AxisStatus| == 32 && Twinned(AxisStatus) && Rising(AxisStatus)
    ensures AxisStatus[0].bit == 0 && AxisStatus[31].bit == 31
  {
    AxisStatusTwinned();
    AxisStatusRising();
  }

  lemma DataCollectionFlagsTwinned()
    ensures Twinned(DataCollectionFlags)
  {
  }

  lemma DataCollectionFlagsRising()
    ensures Rising(DataCollectionFlags)
  {
  }

  /** Every DATACOLLECTIONFLAGS mask is 1 shifted by its twin's index; the indices rise from 2 to 6, leaving bits 0, 1, 4 unused. */
  lemma DataCollectionFlagsLayout()
    ensures |DataCollectionFlags| == 4 && Twinned(DataCollectionFlags) && Rising(DataCollectionFlags)
    ensures DataCollectionFlags[0].bit == 2 && DataCollectionFlags[3].bit == 6
    ensures Unused(DataCollectionFlags, 0)
    ensures Unused(DataCollectionFlags, 1)
    ensures Unused(DataCollectionFlags, 4)
  {
    DataCollectionFlagsTwinned();
    DataCollectionFlagsRising();
    BelowFirst(DataCollectionFlags, 0);
    BelowFirst(DataCollectionFlags, 1);
    Gap(DataCollectionFlags, 1, 4);
  }

  lemma EthernetStatusTwinned()
    ensures Twinned(EthernetStatus)
  {
  }

  lemma EthernetStatusRising()
    ensures Rising(EthernetStatus)
  {
  }

  /** Every ETHERNETSTATUS mask is 1 shifted by its twin's index; the indices rise from 0 to 1. */
  lemma EthernetStatusLayout()
    ensures |EthernetStatus| == 2 && Twinned(EthernetStatus) && Rising(EthernetStatus)
    ensures EthernetStatus[0].bit == 0 && EthernetStatus[1].bit == 1
  {
    EthernetStatusTwinned();
    EthernetStatusRising();
  }

  lemma FlashConfigStatusTwinned()
    ensures Twinned(FlashConfigStatus)
  {
  }

  lemma FlashConfigStatusRising()
    ensures Rising(FlashConfigStatus)
  {
  }

  /** Every FLASHCONFIGSTATUS mask is 1 shifted by its twin's index; the indices rise from 0 to 2. */
  lemma FlashConfigStatusLayout()
    ensures |FlashConfigStatus| == 3 && Twinned(FlashConfigStatus) && Rising(FlashConfigStatus)
    ensures FlashConfigStatus[0].bit == 0 && FlashConfigStatus[2].bit == 2
  {
    FlashConfigStatusTwinned();
    FlashConfigStatusRising();
  }

  lemma AxisFaultTwinned()
    ensures Twinned(AxisFault)
  {
  }

  lemma AxisFaultRising()
    ensures Rising(AxisFault)
  {
  }

  /** Every AXISFAULT mask is 1 shifted by its twin's index; the indices rise from 0 to 30, leaving bits 13, 14, 16, 21, 22, 25, 26, 29, 31 unused. */
  lemma AxisFaultLayout()
    ensures |AxisFault| == 23 && Twinned(AxisFault) && Rising(AxisFault)
    ensures AxisFault[0].bit == 0 && AxisFault[22].bit == 30
    ensures Unused(AxisFault, 13)
    ensures Unused(AxisFault, 14)
    ensures Unused(AxisFault, 16)
    ensures Unused(AxisFault, 21)
    ensures Unused(AxisFault, 22)
    ensures Unused(AxisFault, 25)
    ensures Unused(AxisFault, 26)
    ensures Unused(AxisFault, 29)
    ensures Unused(AxisFault, 31)
  {
    AxisFaultTwinned();
    AxisFaultRising();
    Gap(AxisFault, 12, 13);
    Gap(AxisFault, 12, 14);
    Gap(AxisFault, 13, 16);
    Gap(AxisFault, 17, 21);
    Gap(AxisFault, 17, 22);
    Gap(AxisFault, 19, 25);
    Gap(AxisFault, 19, 26);
    Gap(AxisFault, 21, 29);
    AboveLast(AxisFault, 31);
  }

  lemma ComponentTypesAscend()
    ensures Ascending(ComponentTypes)
  {
  }

  /**
   * The component codes run strictly up from 32773 to 32786, so no two
   * components share a code, and 32783 is not a component code.
   */
  lemma ComponentTypesLayout()
    ensures |ComponentTypes| == 13 && Ascending(ComponentTypes) && Distinct(ComponentTypes)
    ensures forall k :: 0 <= k < |ComponentTypes| ==> 32773 <= ComponentTypes[k] <= 32786
    ensures 32783 !in ComponentTypes
  {
    ComponentTypesAscend();
    MonotoneDistinct(ComponentTypes);
    AscendingBounds(ComponentTypes);
    assert ComponentTypes[9] == 32782 && ComponentTypes[10] == 32784;
    forall k | 0 <= k < |ComponentTypes|
      ensures ComponentTypes[k] != 32783
    {
      if k < 9 {
        AscendingOrdered(ComponentTypes, k, 9);
      } else if k > 10 {
        AscendingOrdered(ComponentTypes, 10, k);
      }
    }
  }

  /** AXISSTATUS fills the word: member k is bit k, for all 32 bits. */
  lemma AxisStatusFull()
    ensures |AxisStatus| == 32
    ensures forall k :: 0 <= k < 32 ==> AxisStatus[k].bit == k
  {
    AxisStatusLayout();
    FullWord(AxisStatus);
  }

  /**
   * The two controllers number the axis-status bits differently: the
   * Ensemble puts Enabled at bit 0 and Homed at bit 1, the A3200 puts Homed
   * at bit 0. Testing an Ensemble axis-status word with the A3200 Homed
   * mask therefore reports whether the axis is enabled.
   */
  lemma HomedBitsDiffer(on: seq<bool>)
    requires |on| == |AxisStatus|
    ensures Twinned(AxisStatus) && Rising(AxisStatus)
    ensures AXISSTATUSBITS_EnabledBit == 0 && AXISSTATUSBITS_HomedBit == 1
    ensures A3200Structures.AXISSTATUSBITS_HomedBit == 0
    ensures A3200Structures.AXISSTATUS_Homed == AXISSTATUS_Enabled
    ensures Test(Encode(on, AxisStatus), A3200Structures.AXISSTATUSBITS_HomedBit) == on[0]
    ensures Test(Encode(on, AxisStatus), AXISSTATUSBITS_HomedBit) == on[1]
  {
    AxisStatusLayout();
    FlagOf(on, AxisStatus, 0);
    FlagOf(on, AxisStatus, 1);
  }

  /**
   * The ramp modes are numbered differently: the Ensemble has Dist = 0,
   * Rate = 1, Time = 2, while the A3200 has Rate = 0, Time = 1.
   */
  lemma RampModesDiffer()
    ensures RAMPMODE_Dist == 0 && RAMPMODE_Rate == 1 && RAMPMODE_Time == 2
    ensures A3200Structures.RAMPMODE_Rate == 0 && A3200Structures.RAMPMODE_Time == 1
  {
  }

  /** A word built from any choice of axis-fault flags reports exactly that choice. */
  lemma AxisFaultIndependent(on: seq<bool>)
    requires |on| == |AxisFault|
    ensures Twinned(AxisFault) && Rising(AxisFault)
    ensures Decode(Encode(on, AxisFault), AxisFault) == on
  {
    AxisFaultLayout();
    DecodeEncode(on, AxisFault);
  }
}
