/**
 * The parameter identifiers of the A3200 controller, as A3200ParameterId.h
 * lists them: every identifier is (category << 24) | index, with the
 * category-2 entries first, then category 1, then category 0. Each
 * category is proved in runs of at most forty entries and the runs joined.
 */
module A3200ParameterIds {
  import opened CodeTables
  import opened ParameterPacking

  // Category 2 (lines 16-98).
  const PARAMETERID_DataCollectionPoints: nat := Pack(2, 0)
  const PARAMETERID_DataCollectionItems: nat := Pack(2, 1)
  const PARAMETERID_GlobalDoubles: nat := Pack(2, 21)
  const PARAMETERID_CommandPort: nat := Pack(2, 24)
  const PARAMETERID_UserDouble0: nat := Pack(2, 35)
  const PARAMETERID_UserDouble1: nat := Pack(2, 36)
  const PARAMETERID_UserString0: nat := Pack(2, 37)
  const PARAMETERID_UserString1: nat := Pack(2, 38)
  const PARAMETERID_CommandSetup: nat := Pack(2, 39)
  const PARAMETERID_RequiredAxes: nat := Pack(2, 45)
  const PARAMETERID_CommandTerminatingCharacter: nat := Pack(2, 51)
  const PARAMETERID_CommandSuccessCharacter: nat := Pack(2, 52)
  const PARAMETERID_CommandInvalidCharacter: nat := Pack(2, 53)
  const PARAMETERID_CommandFaultCharacter: nat := Pack(2, 54)
  const PARAMETERID_GlobalStrings: nat := Pack(2, 65)
  const PARAMETERID_SystemCompatibility: nat := Pack(2, 66)
  const PARAMETERID_DependentSpeedScaleFactor: nat := Pack(2, 67)
  const PARAMETERID_GlobalAxisPoints: nat := Pack(2, 68)
  const PARAMETERID_CallbackTimeout: nat := Pack(2, 69)
  const PARAMETERID_CannedFunctions: nat := Pack(2, 70)
  const PARAMETERID_DisplayAxes: nat := Pack(2, 71)
  const PARAMETERID_SecondaryUnitsScaleFactor: nat := Pack(2, 75)
  const PARAMETERID_PrimaryUnitsMapping: nat := Pack(2, 76)
  const PARAMETERID_SecondaryUnitsName: nat := Pack(2, 77)
  const PARAMETERID_EnabledTasks: nat := Pack(2, 236)
  const PARAMETERID_FaultAckMoveOutOfLimit: nat := Pack(2, 237)
  const PARAMETERID_UserDouble2: nat := Pack(2, 238)
  const PARAMETERID_UserDouble3: nat := Pack(2, 239)
  const PARAMETERID_UserString2: nat := Pack(2, 240)
  const PARAMETERID_UserString3: nat := Pack(2, 241)
  const PARAMETERID_PLCReservedTasks: nat := Pack(2, 243)
  const PARAMETERID_SoftwareExternalFaultInput: nat := Pack(2, 244)
  const PARAMETERID_SignalLogSetup: nat := Pack(2, 245)
  const PARAMETERID_SignalLogAxes: nat := Pack(2, 246)
  const PARAMETERID_SignalLogTasks: nat := Pack(2, 247)
  const PARAMETERID_SignalLogFaultMaskTrigger: nat := Pack(2, 248)
  const PARAMETERID_SignalLogSamplePeriod: nat := Pack(2, 249)
  const PARAMETERID_SignalLogPointsBeforeTrigger: nat := Pack(2, 250)
  const PARAMETERID_SignalLogPointsAfterTrigger: nat := Pack(2, 251)
  const PARAMETERID_MasterClockCorrectionFactor: nat := Pack(2, 252)
  const PARAMETERID_WebServerSetup: nat := Pack(2, 261)
  const PARAMETERID_WebServerPort: nat := Pack(2, 262)

  const Category2Run1: seq<int> := [
    PARAMETERID_DataCollectionPoints,
    PARAMETERID_DataCollectionItems,
    PARAMETERID_GlobalDoubles,
    PARAMETERID_CommandPort,
    PARAMETERID_UserDouble0,
    PARAMETERID_UserDouble1,
    PARAMETERID_UserString0,
    PARAMETERID_UserString1,
    PARAMETERID_CommandSetup,
    PARAMETERID_RequiredAxes,
    PARAMETERID_CommandTerminatingCharacter,
    PARAMETERID_CommandSuccessCharacter,
    PARAMETERID_CommandInvalidCharacter,
    PARAMETERID_CommandFaultCharacter,
    PARAMETERID_GlobalStrings,
    PARAMETERID_SystemCompatibility,
    PARAMETERID_DependentSpeedScaleFactor,
    PARAMETERID_GlobalAxisPoints,
    PARAMETERID_CallbackTimeout,
    PARAMETERID_CannedFunctions,
    PARAMETERID_DisplayAxes
  ]
  const Category2Run2: seq<int> := [
    PARAMETERID_SecondaryUnitsScaleFactor,
    PARAMETERID_PrimaryUnitsMapping,
    PARAMETERID_SecondaryUnitsName,
    PARAMETERID_EnabledTasks,
    PARAMETERID_FaultAckMoveOutOfLimit,
    PARAMETERID_UserDouble2,
    PARAMETERID_UserDouble3,
    PARAMETERID_UserString2,
    PARAMETERID_UserString3,
    PARAMETERID_PLCReservedTasks,
    PARAMETERID_SoftwareExternalFaultInput,
    PARAMETERID_SignalLogSetup,
    PARAMETERID_SignalLogAxes,
    PARAMETERID_SignalLogTasks,
    PARAMETERID_SignalLogFaultMaskTrigger,
    PARAMETERID_SignalLogSamplePeriod,
    PARAMETERID_SignalLogPointsBeforeTrigger,
    PARAMETERID_SignalLogPointsAfterTrigger,
    PARAMETERID_MasterClockCorrectionFactor,
    PARAMETERID_WebServerSetup,
    PARAMETERID_WebServerPort
  ]

  /** The category 2 identifiers in header order. */
  const Category2Ids: seq<int> := Category2Run1 + Category2Run2

  // Category 1 (lines 100-416).
  const PARAMETERID_DefaultWaitMode: nat := Pack(1, 0)
  const PARAMETERID_DefaultSCurve: nat := Pack(1, 1)
  const PARAMETERID_TaskErrorAbortAxes: nat := Pack(1, 7)
  const PARAMETERID_JoystickInput1MinVoltage: nat := Pack(1, 8)
  const PARAMETERID_JoystickInput1MaxVoltage: nat := Pack(1, 9)
  const PARAMETERID_JoystickInput1Deadband: nat := Pack(1, 10)
  const PARAMETERID_JoystickInput0MinVoltage: nat := Pack(1, 11)
  const PARAMETERID_JoystickInput0MaxVoltage: nat := Pack(1, 12)
  const PARAMETERID_JoystickInput0Deadband: nat := Pack(1, 13)
  const PARAMETERID_TaskTerminationAxes: nat := Pack(1, 14)
  const PARAMETERID_TaskStopAbortAxes: nat := Pack(1, 15)
  const PARAMETERID_DefaultCoordinatedSpeed: nat := Pack(1, 16)
  const PARAMETERID_DefaultCoordinatedRampRate: nat := Pack(1, 17)
  const PARAMETERID_DefaultDependentCoordinatedRampRate: nat := Pack(1, 18)
  const PARAMETERID_DefaultCoordinatedRampMode: nat := Pack(1, 19)
  const PARAMETERID_DefaultCoordinatedRampTime: nat := Pack(1, 20)
  const PARAMETERID_HCScanIncrement: nat := Pack(1, 22)
  const PARAMETERID_HCMaxDisplacement: nat := Pack(1, 23)
  const PARAMETERID_HCThreshold: nat := Pack(1, 24)
  const PARAMETERID_HCAxis: nat := Pack(1, 25)
  const PARAMETERID_HCInputMode: nat := Pack(1, 26)
  const PARAMETERID_HCInputChannelNum: nat := Pack(1, 27)
  const PARAMETERID_HCInvertSearch: nat := Pack(1, 28)
  const PARAMETERID_HCWholeWindow: nat := Pack(1, 29)
  const PARAMETERID_HCDelayTime: nat := Pack(1, 31)
  const PARAMETERID_SRMaxRadius: nat := Pack(1, 32)
  const PARAMETERID_SRNumSpirals: nat := Pack(1, 33)
  const PARAMETERID_SRSegmentLength: nat := Pack(1, 34)
  const PARAMETERID_SRThreshold: nat := Pack(1, 35)
  const PARAMETERID_SRAxis1: nat := Pack(1, 36)
  const PARAMETERID_SRAxis2: nat := Pack(1, 37)
  const PARAMETERID_SRInputMode: nat := Pack(1, 38)
  const PARAMETERID_SRInputChannelNum: nat := Pack(1, 39)
  const PARAMETERID_SRInvertSearch: nat := Pack(1, 40)
  const PARAMETERID_SRMotionType: nat := Pack(1, 41)
  const PARAMETERID_SRDelayTime: nat := Pack(1, 43)
  const PARAMETERID_SFEndRadius: nat := Pack(1, 44)
  const PARAMETERID_SFNumSpirals: nat := Pack(1, 45)
  const PARAMETERID_SFSegmentLength: nat := Pack(1, 46)
  const PARAMETERID_SFAxis1: nat := Pack(1, 47)
  const PARAMETERID_SFAxis2: nat := Pack(1, 48)
  const PARAMETERID_SFInputMode: nat := Pack(1, 49)
  const PARAMETERID_SFInputChannelNum: nat := Pack(1, 50)
  const PARAMETERID_SFInvertSearch: nat := Pack(1, 51)
  const PARAMETERID_SFMotionType: nat := Pack(1, 52)
  const PARAMETERID_SFDelayTime: nat := Pack(1, 54)
  const PARAMETERID_FASelectAxis1: nat := Pack(1, 55)
  const PARAMETERID_FASelectAxis2: nat := Pack(1, 56)
  const PARAMETERID_FASelectAxis3: nat := Pack(1, 57)
  const PARAMETERID_FASelectAxis4: nat := Pack(1, 58)
  const PARAMETERID_FASelectAxis5: nat := Pack(1, 59)
  const PARAMETERID_FASelectAxis6: nat := Pack(1, 60)
  const PARAMETERID_FAOffsetAxis1: nat := Pack(1, 61)
  const PARAMETERID_FAOffsetAxis2: nat := Pack(1, 62)
  const PARAMETERID_FAOffsetAxis3: nat := Pack(1, 63)
  const PARAMETERID_FAOffsetAxis4: nat := Pack(1, 64)
  const PARAMETERID_FAOffsetAxis5: nat := Pack(1, 65)
  const PARAMETERID_FAOffsetAxis6: nat := Pack(1, 66)
  const PARAMETERID_FAPosLimitAxis1: nat := Pack(1, 67)
  const PARAMETERID_FAPosLimitAxis2: nat := Pack(1, 68)
  const PARAMETERID_FAPosLimitAxis3: nat := Pack(1, 69)
  const PARAMETERID_FAPosLimitAxis4: nat := Pack(1, 70)
  const PARAMETERID_FAPosLimitAxis5: nat := Pack(1, 71)
  const PARAMETERID_FAPosLimitAxis6: nat := Pack(1, 72)
  const PARAMETERID_FANegLimitAxis1: nat := Pack(1, 73)
  const PARAMETERID_FANegLimitAxis2: nat := Pack(1, 74)
  const PARAMETERID_FANegLimitAxis3: nat := Pack(1, 75)
  const PARAMETERID_FANegLimitAxis4: nat := Pack(1, 76)
  const PARAMETERID_FANegLimitAxis5: nat := Pack(1, 77)
  const PARAMETERID_FANegLimitAxis6: nat := Pack(1, 78)
  const PARAMETERID_FATermTolerance: nat := Pack(1, 79)
  const PARAMETERID_FAMaxNumIterations: nat := Pack(1, 80)
  const PARAMETERID_FASaturationValue: nat := Pack(1, 81)
  const PARAMETERID_FAReturnToStart: nat := Pack(1, 82)
  const PARAMETERID_FAInputMode: nat := Pack(1, 83)
  const PARAMETERID_FAInputChannelNum: nat := Pack(1, 84)
  const PARAMETERID_FAInvertSearch: nat := Pack(1, 85)
  const PARAMETERID_FADelayTime: nat := Pack(1, 86)
  const PARAMETERID_GCScanSize: nat := Pack(1, 87)
  const PARAMETERID_GCScanIncrement: nat := Pack(1, 88)
  const PARAMETERID_GCScanLines: nat := Pack(1, 89)
  const PARAMETERID_GCEdgeValue: nat := Pack(1, 90)
  const PARAMETERID_GCAxis1: nat := Pack(1, 91)
  const PARAMETERID_GCAxis2: nat := Pack(1, 92)
  const PARAMETERID_GCInputMode: nat := Pack(1, 93)
  const PARAMETERID_GCInputChannelNum: nat := Pack(1, 94)
  const PARAMETERID_GCInvertSearch: nat := Pack(1, 95)
  const PARAMETERID_GCSingleRasterMode: nat := Pack(1, 96)
  const PARAMETERID_GCMotionType: nat := Pack(1, 97)
  const PARAMETERID_GCDelayTime: nat := Pack(1, 99)
  const PARAMETERID_CMaxDisplacement1: nat := Pack(1, 100)
  const PARAMETERID_CMaxDisplacement2: nat := Pack(1, 101)
  const PARAMETERID_CMaxDisplacement3: nat := Pack(1, 102)
  const PARAMETERID_CScanIncrement: nat := Pack(1, 103)
  const PARAMETERID_CEdgeValue: nat := Pack(1, 104)
  const PARAMETERID_CAxis1: nat := Pack(1, 105)
  const PARAMETERID_CAxis2: nat := Pack(1, 106)
  const PARAMETERID_CAxis3: nat := Pack(1, 107)
  const PARAMETERID_CInputMode: nat := Pack(1, 108)
  const PARAMETERID_CInputChannelNum: nat := Pack(1, 109)
  const PARAMETERID_CInvertSearch: nat := Pack(1, 110)
  const PARAMETERID_CReturnToCenter: nat := Pack(1, 111)
  const PARAMETERID_CDelayTime: nat := Pack(1, 113)
  const PARAMETERID_HCPercentDrop: nat := Pack(1, 114)
  const PARAMETERID_DefaultDependentCoordinatedSpeed: nat := Pack(1, 115)
  const PARAMETERID_CoordinatedAccelLimit: nat := Pack(1, 116)
  const PARAMETERID_DependentCoordinatedAccelLimit: nat := Pack(1, 117)
  const PARAMETERID_CoordinatedCircularAccelLimit: nat := Pack(1, 118)
  const PARAMETERID_CoordinatedAccelLimitSetup: nat := Pack(1, 119)
  const PARAMETERID_MaxLookaheadMoves: nat := Pack(1, 120)
  const PARAMETERID_RadiusCorrectionThreshold: nat := Pack(1, 121)
  const PARAMETERID_RadiusErrorThreshold: nat := Pack(1, 122)
  const PARAMETERID_CutterTolerance: nat := Pack(1, 123)
  const PARAMETERID_SoftwareESTOPInput: nat := Pack(1, 124)
  const PARAMETERID_FeedholdInput: nat := Pack(1, 125)
  const PARAMETERID_FeedholdSetup: nat := Pack(1, 126)
  const PARAMETERID_AnalogMFOInput: nat := Pack(1, 127)
  const PARAMETERID_Spindle0MSOInput: nat := Pack(1, 128)
  const PARAMETERID_Spindle1MSOInput: nat := Pack(1, 129)
  const PARAMETERID_Spindle2MSOInput: nat := Pack(1, 130)
  const PARAMETERID_Spindle3MSOInput: nat := Pack(1, 131)
  const PARAMETERID_Spindle0Axis: nat := Pack(1, 132)
  const PARAMETERID_Spindle1Axis: nat := Pack(1, 133)
  const PARAMETERID_Spindle2Axis: nat := Pack(1, 134)
  const PARAMETERID_Spindle3Axis: nat := Pack(1, 135)
  const PARAMETERID_CallStackSize: nat := Pack(1, 136)
  const PARAMETERID_ModeStackSize: nat := Pack(1, 137)
  const PARAMETERID_TaskDoubles: nat := Pack(1, 138)
  const PARAMETERID_TaskStrings: nat := Pack(1, 139)
  const PARAMETERID_TaskAxisPoints: nat := Pack(1, 140)
  const PARAMETERID_MonitorStatements: nat := Pack(1, 141)
  const PARAMETERID_MotionUpdateRate: nat := Pack(1, 142)
  const PARAMETERID_MotionBufferSize: nat := Pack(1, 143)
  const PARAMETERID_ExecuteNumLines: nat := Pack(1, 144)
  const PARAMETERID_CoordinatedMoveDurationMinimum: nat := Pack(1, 145)
  const PARAMETERID_DefaultMotionMode: nat := Pack(1, 146)
  const PARAMETERID_JoystickInput0: nat := Pack(1, 147)
  const PARAMETERID_JoystickInput1: nat := Pack(1, 148)
  const PARAMETERID_JoystickAxesSelect: nat := Pack(1, 149)
  const PARAMETERID_JoystickSpeedSelect: nat := Pack(1, 150)
  const PARAMETERID_JoystickInterlock: nat := Pack(1, 151)
  const PARAMETERID_JoystickInput2: nat := Pack(1, 152)
  const PARAMETERID_AnalogMFOMinVoltage: nat := Pack(1, 153)
  const PARAMETERID_AnalogMFOMaxVoltage: nat := Pack(1, 154)
  const PARAMETERID_MaximumMFO: nat := Pack(1, 155)
  const PARAMETERID_JoystickInput2MinVoltage: nat := Pack(1, 156)
  const PARAMETERID_JoystickInput2MaxVoltage: nat := Pack(1, 157)
  const PARAMETERID_JoystickInput2Deadband: nat := Pack(1, 158)
  const PARAMETERID_MinimumMFO: nat := Pack(1, 159)
  const PARAMETERID_AnalogMFOStep: nat := Pack(1, 160)
  const PARAMETERID_DefaultProgrammingMode: nat := Pack(1, 161)
  const PARAMETERID_DefaultCoordinatedRampType: nat := Pack(1, 162)
  const PARAMETERID_DefaultSpindle0Speed: nat := Pack(1, 163)
  const PARAMETERID_DefaultSpindle1Speed: nat := Pack(1, 164)
  const PARAMETERID_DefaultSpindle2Speed: nat := Pack(1, 165)
  const PARAMETERID_DefaultSpindle3Speed: nat := Pack(1, 166)
  const PARAMETERID_MotionInterpolationMode: nat := Pack(1, 167)
  const PARAMETERID_DefaultTimeMode: nat := Pack(1, 168)
  const PARAMETERID_QueueBufferSize: nat := Pack(1, 169)

  const Category1Run1: seq<int> := [
    PARAMETERID_DefaultWaitMode,
    PARAMETERID_DefaultSCurve,
    PARAMETERID_TaskErrorAbortAxes,
    PARAMETERID_JoystickInput1MinVoltage,
    PARAMETERID_JoystickInput1MaxVoltage,
    PARAMETERID_JoystickInput1Deadband,
    PARAMETERID_JoystickInput0MinVoltage,
    PARAMETERID_JoystickInput0MaxVoltage,
    PARAMETERID_JoystickInput0Deadband,
    PARAMETERID_TaskTerminationAxes,
    PARAMETERID_TaskStopAbortAxes,
    PARAMETERID_DefaultCoordinatedSpeed,
    PARAMETERID_DefaultCoordinatedRampRate,
    PARAMETERID_DefaultDependentCoordinatedRampRate,
    PARAMETERID_DefaultCoordinatedRampMode,
    PARAMETERID_DefaultCoordinatedRampTime,
    PARAMETERID_HCScanIncrement,
    PARAMETERID_HCMaxDisplacement,
    PARAMETERID_HCThreshold,
    PARAMETERID_HCAxis,
    PARAMETERID_HCInputMode,
    PARAMETERID_HCInputChannelNum,
    PARAMETERID_HCInvertSearch,
    PARAMETERID_HCWholeWindow,
    PARAMETERID_HCDelayTime,
    PARAMETERID_SRMaxRadius,
    PARAMETERID_SRNumSpirals,
    PARAMETERID_SRSegmentLength,
    PARAMETERID_SRThreshold,
    PARAMETERID_SRAxis1,
    PARAMETERID_SRAxis2,
    PARAMETERID_SRInputMode,
    PARAMETERID_SRInputChannelNum,
    PARAMETERID_SRInvertSearch,
    PARAMETERID_SRMotionType,
    PARAMETERID_SRDelayTime,
    PARAMETERID_SFEndRadius,
    PARAMETERID_SFNumSpirals,
    PARAMETERID_SFSegmentLength,
    PARAMETERID_SFAxis1
  ]
  const Category1Run2: seq<int> := [
    PARAMETERID_SFAxis2,
    PARAMETERID_SFInputMode,
    PARAMETERID_SFInputChannelNum,
    PARAMETERID_SFInvertSearch,
    PARAMETERID_SFMotionType,
    PARAMETERID_SFDelayTime,
    PARAMETERID_FASelectAxis1,
    PARAMETERID_FASelectAxis2,
    PARAMETERID_FASelectAxis3,
    PARAMETERID_FASelectAxis4,
    PARAMETERID_FASelectAxis5,
    PARAMETERID_FASelectAxis6,
    PARAMETERID_FAOffsetAxis1,
    PARAMETERID_FAOffsetAxis2,
    PARAMETERID_FAOffsetAxis3,
    PARAMETERID_FAOffsetAxis4,
    PARAMETERID_FAOffsetAxis5,
    PARAMETERID_FAOffsetAxis6,
    PARAMETERID_FAPosLimitAxis1,
    PARAMETERID_FAPosLimitAxis2,
    PARAMETERID_FAPosLimitAxis3,
    PARAMETERID_FAPosLimitAxis4,
    PARAMETERID_FAPosLimitAxis5,
    PARAMETERID_FAPosLimitAxis6,
    PARAMETERID_FANegLimitAxis1,
    PARAMETERID_FANegLimitAxis2,
    PARAMETERID_FANegLimitAxis3,
    PARAMETERID_FANegLimitAxis4,
    PARAMETERID_FANegLimitAxis5,
    PARAMETERID_FANegLimitAxis6,
    PARAMETERID_FATermTolerance,
    PARAMETERID_FAMaxNumIterations,
    PARAMETERID_FASaturationValue,
    PARAMETERID_FAReturnToStart,
    PARAMETERID_FAInputMode,
    PARAMETERID_FAInputChannelNum,
    PARAMETERID_FAInvertSearch,
    PARAMETERID_FADelayTime,
    PARAMETERID_GCScanSize,
    PARAMETERID_GCScanIncrement
  ]
  const Category1Run3: seq<int> := [
    PARAMETERID_GCScanLines,
    PARAMETERID_GCEdgeValue,
    PARAMETERID_GCAxis1,
    PARAMETERID_GCAxis2,
    PARAMETERID_GCInputMode,
    PARAMETERID_GCInputChannelNum,
    PARAMETERID_GCInvertSearch,
    PARAMETERID_GCSingleRasterMode,
    PARAMETERID_GCMotionType,
    PARAMETERID_GCDelayTime,
    PARAMETERID_CMaxDisplacement1,
    PARAMETERID_CMaxDisplacement2,
    PARAMETERID_CMaxDisplacement3,
    PARAMETERID_CScanIncrement,
    PARAMETERID_CEdgeValue,
    PARAMETERID_CAxis1,
    PARAMETERID_CAxis2,
    PARAMETERID_CAxis3,
    PARAMETERID_CInputMode,
    PARAMETERID_CInputChannelNum,
    PARAMETERID_CInvertSearch,
    PARAMETERID_CReturnToCenter,
    PARAMETERID_CDelayTime,
    PARAMETERID_HCPercentDrop,
    PARAMETERID_DefaultDependentCoordinatedSpeed,
    PARAMETERID_CoordinatedAccelLimit,
    PARAMETERID_DependentCoordinatedAccelLimit,
    PARAMETERID_CoordinatedCircularAccelLimit,
    PARAMETERID_CoordinatedAccelLimitSetup,
    PARAMETERID_MaxLookaheadMoves,
    PARAMETERID_RadiusCorrectionThreshold,
    PARAMETERID_RadiusErrorThreshold,
    PARAMETERID_CutterTolerance,
    PARAMETERID_SoftwareESTOPInput,
    PARAMETERID_FeedholdInput,
    PARAMETERID_FeedholdSetup,
    PARAMETERID_AnalogMFOInput,
    PARAMETERID_Spindle0MSOInput,
    PARAMETERID_Spindle1MSOInput,
    PARAMETERID_Spindle2MSOInput
  ]
  const Category1Run4: seq<int> := [
    PARAMETERID_Spindle3MSOInput,
    PARAMETERID_Spindle0Axis,
    PARAMETERID_Spindle1Axis,
    PARAMETERID_Spindle2Axis,
    PARAMETERID_Spindle3Axis,
    PARAMETERID_CallStackSize,
    PARAMETERID_ModeStackSize,
    PARAMETERID_TaskDoubles,
    PARAMETERID_TaskStrings,
    PARAMETERID_TaskAxisPoints,
    PARAMETERID_MonitorStatements,
    PARAMETERID_MotionUpdateRate,
    PARAMETERID_MotionBufferSize,
    PARAMETERID_ExecuteNumLines,
    PARAMETERID_CoordinatedMoveDurationMinimum,
    PARAMETERID_DefaultMotionMode,
    PARAMETERID_JoystickInput0,
    PARAMETERID_JoystickInput1,
    PARAMETERID_JoystickAxesSelect,
    PARAMETERID_JoystickSpeedSelect,
    PARAMETERID_JoystickInterlock,
    PARAMETERID_JoystickInput2,
    PARAMETERID_AnalogMFOMinVoltage,
    PARAMETERID_AnalogMFOMaxVoltage,
    PARAMETERID_MaximumMFO,
    PARAMETERID_JoystickInput2MinVoltage,
    PARAMETERID_JoystickInput2MaxVoltage,
    PARAMETERID_JoystickInput2Deadband,
    PARAMETERID_MinimumMFO,
    PARAMETERID_AnalogMFOStep,
    PARAMETERID_DefaultProgrammingMode,
    PARAMETERID_DefaultCoordinatedRampType,
    PARAMETERID_DefaultSpindle0Speed,
    PARAMETERID_DefaultSpindle1Speed,
    PARAMETERID_DefaultSpindle2Speed,
    PARAMETERID_DefaultSpindle3Speed,
    PARAMETERID_MotionInterpolationMode,
    PARAMETERID_DefaultTimeMode,
    PARAMETERID_QueueBufferSize
  ]

  /** The category 1 identifiers in header order. */
  const Category1Ids: seq<int> := Category1Run1 + Category1Run2 + Category1Run3 + Category1Run4

  // Category 0 (lines 418-1114).
  const PARAMETERID_AxisType: nat := Pack(0, 0)
  const PARAMETERID_ReverseMotionDirection: nat := Pack(0, 1)
  const PARAMETERID_CountsPerUnit: nat := Pack(0, 2)
  const PARAMETERID_ServoSetup: nat := Pack(0, 4)
  const PARAMETERID_GainKpos: nat := Pack(0, 5)
  const PARAMETERID_GainKi: nat := Pack(0, 6)
  const PARAMETERID_GainKp: nat := Pack(0, 7)
  const PARAMETERID_GainVff: nat := Pack(0, 8)
  const PARAMETERID_GainAff: nat := Pack(0, 9)
  const PARAMETERID_GainKv: nat := Pack(0, 10)
  const PARAMETERID_GainKpi: nat := Pack(0, 11)
  const PARAMETERID_ServoFilter0CoeffN0: nat := Pack(0, 12)
  const PARAMETERID_ServoFilter0CoeffN1: nat := Pack(0, 13)
  const PARAMETERID_ServoFilter0CoeffN2: nat := Pack(0, 14)
  const PARAMETERID_ServoFilter0CoeffD1: nat := Pack(0, 15)
  const PARAMETERID_ServoFilter0CoeffD2: nat := Pack(0, 16)
  const PARAMETERID_ServoFilter1CoeffN0: nat := Pack(0, 17)
  const PARAMETERID_ServoFilter1CoeffN1: nat := Pack(0, 18)
  const PARAMETERID_ServoFilter1CoeffN2: nat := Pack(0, 19)
  const PARAMETERID_ServoFilter1CoeffD1: nat := Pack(0, 20)
  const PARAMETERID_ServoFilter1CoeffD2: nat := Pack(0, 21)
  const PARAMETERID_AmplifierDeadtime: nat := Pack(0, 22)
  const PARAMETERID_RolloverCounts: nat := Pack(0, 23)
  const PARAMETERID_CurrentGainKi: nat := Pack(0, 24)
  const PARAMETERID_CurrentGainKp: nat := Pack(0, 25)
  const PARAMETERID_FaultMask: nat := Pack(0, 26)
  const PARAMETERID_FaultMaskDisable: nat := Pack(0, 27)
  const PARAMETERID_FaultMaskDecel: nat := Pack(0, 28)
  const PARAMETERID_EnableBrakeControl: nat := Pack(0, 29)
  const PARAMETERID_FaultMaskOutput: nat := Pack(0, 30)
  const PARAMETERID_ESTOPFaultInput: nat := Pack(0, 31)
  const PARAMETERID_PositionErrorThreshold: nat := Pack(0, 32)
  const PARAMETERID_AverageCurrentThreshold: nat := Pack(0, 33)
  const PARAMETERID_AverageCurrentTime: nat := Pack(0, 34)
  const PARAMETERID_VelocityCommandThreshold: nat := Pack(0, 35)
  const PARAMETERID_VelocityErrorThreshold: nat := Pack(0, 36)
  const PARAMETERID_SoftwareLimitLow: nat := Pack(0, 37)
  const PARAMETERID_SoftwareLimitHigh: nat := Pack(0, 38)
  const PARAMETERID_MaxCurrentClamp: nat := Pack(0, 39)
  const PARAMETERID_InPositionDistance: nat := Pack(0, 40)
  const PARAMETERID_MotorType: nat := Pack(0, 41)
  const PARAMETERID_CyclesPerRev: nat := Pack(0, 42)
  const PARAMETERID_CountsPerRev: nat := Pack(0, 43)
  const PARAMETERID_CommutationOffset: nat := Pack(0, 44)
  const PARAMETERID_AutoMsetTime: nat := Pack(0, 45)
  const PARAMETERID_AutoMsetCurrent: nat := Pack(0, 46)
  const PARAMETERID_PositionFeedbackType: nat := Pack(0, 47)
  const PARAMETERID_PositionFeedbackChannel: nat := Pack(0, 48)
  const PARAMETERID_VelocityFeedbackType: nat := Pack(0, 49)
  const PARAMETERID_VelocityFeedbackChannel: nat := Pack(0, 50)
  const PARAMETERID_EncoderMultiplicationFactor: nat := Pack(0, 51)
  const PARAMETERID_EncoderSineGain: nat := Pack(0, 52)
  const PARAMETERID_EncoderSineOffset: nat := Pack(0, 53)
  const PARAMETERID_EncoderCosineGain: nat := Pack(0, 54)
  const PARAMETERID_EncoderCosineOffset: nat := Pack(0, 55)
  const PARAMETERID_EncoderPhase: nat := Pack(0, 56)
  const PARAMETERID_GantryMasterAxis: nat := Pack(0, 57)
  const PARAMETERID_LimitDecelDistance: nat := Pack(0, 59)
  const PARAMETERID_LimitDebounceTime: nat := Pack(0, 60)
  const PARAMETERID_EndOfTravelLimitSetup: nat := Pack(0, 61)
  const PARAMETERID_BacklashDistance: nat := Pack(0, 62)
  const PARAMETERID_FaultOutputSetup: nat := Pack(0, 63)
  const PARAMETERID_FaultOutputState: nat := Pack(0, 64)
  const PARAMETERID_IOSetup: nat := Pack(0, 65)
  const PARAMETERID_BrakeOutput: nat := Pack(0, 66)
  const PARAMETERID_EncoderDivider: nat := Pack(0, 67)
  const PARAMETERID_ExternalFaultDigitalInput: nat := Pack(0, 68)
  const PARAMETERID_BrakeDisableDelay: nat := Pack(0, 69)
  const PARAMETERID_MaxJogDistance: nat := Pack(0, 70)
  const PARAMETERID_DefaultSpeed: nat := Pack(0, 71)
  const PARAMETERID_DefaultRampRate: nat := Pack(0, 72)
  const PARAMETERID_AbortDecelRate: nat := Pack(0, 73)
  const PARAMETERID_HomeType: nat := Pack(0, 74)
  const PARAMETERID_HomeSetup: nat := Pack(0, 75)
  const PARAMETERID_HomeSpeed: nat := Pack(0, 76)
  const PARAMETERID_HomeOffset: nat := Pack(0, 77)
  const PARAMETERID_HomeRampRate: nat := Pack(0, 78)
  const PARAMETERID_StepperResolution: nat := Pack(0, 79)
  const PARAMETERID_StepperRunningCurrent: nat := Pack(0, 80)
  const PARAMETERID_StepperHoldingCurrent: nat := Pack(0, 81)
  const PARAMETERID_StepperVerificationSpeed: nat := Pack(0, 82)
  const PARAMETERID_LimitDebounceDistance: nat := Pack(0, 83)
  const PARAMETERID_ServoFilter2CoeffN0: nat := Pack(0, 84)
  const PARAMETERID_ServoFilter2CoeffN1: nat := Pack(0, 85)
  const PARAMETERID_ServoFilter2CoeffN2: nat := Pack(0, 86)
  const PARAMETERID_ServoFilter2CoeffD1: nat := Pack(0, 87)
  const PARAMETERID_ServoFilter2CoeffD2: nat := Pack(0, 88)
  const PARAMETERID_ServoFilter3CoeffN0: nat := Pack(0, 89)
  const PARAMETERID_ServoFilter3CoeffN1: nat := Pack(0, 90)
  const PARAMETERID_ServoFilter3CoeffN2: nat := Pack(0, 91)
  const PARAMETERID_ServoFilter3CoeffD1: nat := Pack(0, 92)
  const PARAMETERID_ServoFilter3CoeffD2: nat := Pack(0, 93)
  const PARAMETERID_MaxJogSpeed: nat := Pack(0, 96)
  const PARAMETERID_DecimalPlaces: nat := Pack(0, 97)
  const PARAMETERID_UnitsName: nat := Pack(0, 98)
  const PARAMETERID_AxisName: nat := Pack(0, 99)
  const PARAMETERID_EnDatEncoderSetup: nat := Pack(0, 100)
  const PARAMETERID_EnDatEncoderResolution: nat := Pack(0, 101)
  const PARAMETERID_EnDatEncoderTurns: nat := Pack(0, 102)
  const PARAMETERID_JoystickLowSpeed: nat := Pack(0, 103)
  const PARAMETERID_JoystickHighSpeed: nat := Pack(0, 104)
  const PARAMETERID_HomePositionSet: nat := Pack(0, 105)
  const PARAMETERID_FaultMaskDisableDelay: nat := Pack(0, 106)
  const PARAMETERID_FaultAbortAxes: nat := Pack(0, 107)
  const PARAMETERID_HarmonicCancellation0Type: nat := Pack(0, 108)
  const PARAMETERID_HarmonicCancellation0Period: nat := Pack(0, 109)
  const PARAMETERID_HarmonicCancellation0Channel: nat := Pack(0, 110)
  const PARAMETERID_HarmonicCancellation0Gain: nat := Pack(0, 111)
  const PARAMETERID_HarmonicCancellation0Phase: nat := Pack(0, 112)
  const PARAMETERID_HarmonicCancellation1Type: nat := Pack(0, 113)
  const PARAMETERID_HarmonicCancellation1Period: nat := Pack(0, 114)
  const PARAMETERID_HarmonicCancellation1Channel: nat := Pack(0, 115)
  const PARAMETERID_HarmonicCancellation1Gain: nat := Pack(0, 116)
  const PARAMETERID_HarmonicCancellation1Phase: nat := Pack(0, 117)
  const PARAMETERID_HarmonicCancellation2Type: nat := Pack(0, 118)
  const PARAMETERID_HarmonicCancellation2Period: nat := Pack(0, 119)
  const PARAMETERID_HarmonicCancellation2Channel: nat := Pack(0, 120)
  const PARAMETERID_HarmonicCancellation2Gain: nat := Pack(0, 121)
  const PARAMETERID_HarmonicCancellation2Phase: nat := Pack(0, 122)
  const PARAMETERID_ResolverReferenceGain: nat := Pack(0, 123)
  const PARAMETERID_ResolverSetup: nat := Pack(0, 124)
  const PARAMETERID_ResolverReferencePhase: nat := Pack(0, 125)
  const PARAMETERID_SoftwareLimitSetup: nat := Pack(0, 126)
  const PARAMETERID_SSINet1Setup: nat := Pack(0, 127)
  const PARAMETERID_SSINet2Setup: nat := Pack(0, 128)
  const PARAMETERID_EmulatedQuadratureDivider: nat := Pack(0, 129)
  const PARAMETERID_HarmonicCancellation3Type: nat := Pack(0, 130)
  const PARAMETERID_HarmonicCancellation3Period: nat := Pack(0, 131)
  const PARAMETERID_HarmonicCancellation3Channel: nat := Pack(0, 132)
  const PARAMETERID_HarmonicCancellation3Gain: nat := Pack(0, 133)
  const PARAMETERID_HarmonicCancellation3Phase: nat := Pack(0, 134)
  const PARAMETERID_HarmonicCancellation4Type: nat := Pack(0, 135)
  const PARAMETERID_HarmonicCancellation4Period: nat := Pack(0, 136)
  const PARAMETERID_HarmonicCancellation4Channel: nat := Pack(0, 137)
  const PARAMETERID_HarmonicCancellation4Gain: nat := Pack(0, 138)
  const PARAMETERID_HarmonicCancellation4Phase: nat := Pack(0, 139)
  const PARAMETERID_EnhancedThroughputChannel: nat := Pack(0, 140)
  const PARAMETERID_EnhancedThroughputGain: nat := Pack(0, 141)
  const PARAMETERID_HarmonicCancellationSetup: nat := Pack(0, 142)
  const PARAMETERID_EnhancedThroughputCurrentClamp: nat := Pack(0, 143)
  const PARAMETERID_Analog0Filter0CoeffN0: nat := Pack(0, 144)
  const PARAMETERID_Analog0Filter0CoeffN1: nat := Pack(0, 145)
  const PARAMETERID_Analog0Filter0CoeffN2: nat := Pack(0, 146)
  const PARAMETERID_Analog0Filter0CoeffD1: nat := Pack(0, 147)
  const PARAMETERID_Analog0Filter0CoeffD2: nat := Pack(0, 148)
  const PARAMETERID_Analog0Filter1CoeffN0: nat := Pack(0, 149)
  const PARAMETERID_Analog0Filter1CoeffN1: nat := Pack(0, 150)
  const PARAMETERID_Analog0Filter1CoeffN2: nat := Pack(0, 151)
  const PARAMETERID_Analog0Filter1CoeffD1: nat := Pack(0, 152)
  const PARAMETERID_Analog0Filter1CoeffD2: nat := Pack(0, 153)
  const PARAMETERID_Analog1Filter0CoeffN0: nat := Pack(0, 154)
  const PARAMETERID_Analog1Filter0CoeffN1: nat := Pack(0, 155)
  const PARAMETERID_Analog1Filter0CoeffN2: nat := Pack(0, 156)
  const PARAMETERID_Analog1Filter0CoeffD1: nat := Pack(0, 157)
  const PARAMETERID_Analog1Filter0CoeffD2: nat := Pack(0, 158)
  const PARAMETERID_Analog1Filter1CoeffN0: nat := Pack(0, 159)
  const PARAMETERID_Analog1Filter1CoeffN1: nat := Pack(0, 160)
  const PARAMETERID_Analog1Filter1CoeffN2: nat := Pack(0, 161)
  const PARAMETERID_Analog1Filter1CoeffD1: nat := Pack(0, 162)
  const PARAMETERID_Analog1Filter1CoeffD2: nat := Pack(0, 163)
  const PARAMETERID_DefaultRampMode: nat := Pack(0, 164)
  const PARAMETERID_DefaultRampTime: nat := Pack(0, 165)
  const PARAMETERID_ServoFilterSetup: nat := Pack(0, 167)
  const PARAMETERID_FeedbackSetup: nat := Pack(0, 168)
  const PARAMETERID_EncoderMultiplierSetup: nat := Pack(0, 169)
  const PARAMETERID_FaultSetup: nat := Pack(0, 170)
  const PARAMETERID_ThresholdScheduleSetup: nat := Pack(0, 171)
  const PARAMETERID_ThresholdRegion2High: nat := Pack(0, 172)
  const PARAMETERID_ThresholdRegion2Low: nat := Pack(0, 173)
  const PARAMETERID_ThresholdRegion3GainKpos: nat := Pack(0, 174)
  const PARAMETERID_ThresholdRegion3GainKp: nat := Pack(0, 175)
  const PARAMETERID_ThresholdRegion3GainKi: nat := Pack(0, 176)
  const PARAMETERID_ThresholdRegion3GainKpi: nat := Pack(0, 177)
  const PARAMETERID_ThresholdRegion4High: nat := Pack(0, 178)
  const PARAMETERID_ThresholdRegion4Low: nat := Pack(0, 179)
  const PARAMETERID_ThresholdRegion5GainKpos: nat := Pack(0, 180)
  const PARAMETERID_ThresholdRegion5GainKp: nat := Pack(0, 181)
  const PARAMETERID_ThresholdRegion5GainKi: nat := Pack(0, 182)
  const PARAMETERID_ThresholdRegion5GainKpi: nat := Pack(0, 183)
  const PARAMETERID_DynamicScheduleSetup: nat := Pack(0, 184)
  const PARAMETERID_DynamicGainKposScale: nat := Pack(0, 185)
  const PARAMETERID_DynamicGainKpScale: nat := Pack(0, 186)
  const PARAMETERID_DynamicGainKiScale: nat := Pack(0, 187)
  const PARAMETERID_ServoFilter4CoeffN0: nat := Pack(0, 188)
  const PARAMETERID_ServoFilter4CoeffN1: nat := Pack(0, 189)
  const PARAMETERID_ServoFilter4CoeffN2: nat := Pack(0, 190)
  const PARAMETERID_ServoFilter4CoeffD1: nat := Pack(0, 191)
  const PARAMETERID_ServoFilter4CoeffD2: nat := Pack(0, 192)
  const PARAMETERID_ServoFilter5CoeffN0: nat := Pack(0, 193)
  const PARAMETERID_ServoFilter5CoeffN1: nat := Pack(0, 194)
  const PARAMETERID_ServoFilter5CoeffN2: nat := Pack(0, 195)
  const PARAMETERID_ServoFilter5CoeffD1: nat := Pack(0, 196)
  const PARAMETERID_ServoFilter5CoeffD2: nat := Pack(0, 197)
  const PARAMETERID_ServoFilter6CoeffN0: nat := Pack(0, 198)
  const PARAMETERID_ServoFilter6CoeffN1: nat := Pack(0, 199)
  const PARAMETERID_ServoFilter6CoeffN2: nat := Pack(0, 200)
  const PARAMETERID_ServoFilter6CoeffD1: nat := Pack(0, 201)
  const PARAMETERID_ServoFilter6CoeffD2: nat := Pack(0, 202)
  const PARAMETERID_ServoFilter7CoeffN0: nat := Pack(0, 203)
  const PARAMETERID_ServoFilter7CoeffN1: nat := Pack(0, 204)
  const PARAMETERID_ServoFilter7CoeffN2: nat := Pack(0, 205)
  const PARAMETERID_ServoFilter7CoeffD1: nat := Pack(0, 206)
  const PARAMETERID_ServoFilter7CoeffD2: nat := Pack(0, 207)
  const PARAMETERID_LinearAmpMaxPower: nat := Pack(0, 208)
  const PARAMETERID_LinearAmpDeratingFactor: nat := Pack(0, 209)
  const PARAMETERID_LinearAmpBusVoltage: nat := Pack(0, 210)
  const PARAMETERID_MotorResistance: nat := Pack(0, 211)
  const PARAMETERID_MotorBackEMFConstant: nat := Pack(0, 212)
  const PARAMETERID_GantrySetup: nat := Pack(0, 213)
  const PARAMETERID_RolloverMode: nat := Pack(0, 214)
  const PARAMETERID_GantrySeparationThreshold: nat := Pack(0, 215)
  const PARAMETERID_EmulatedQuadratureChannel: nat := Pack(0, 216)
  const PARAMETERID_ResolverCoarseChannel: nat := Pack(0, 217)
  const PARAMETERID_ResolverFeedbackRatio: nat := Pack(0, 218)
  const PARAMETERID_ResolverFeedbackOffset: nat := Pack(0, 219)
  const PARAMETERID_BrakeEnableDelay: nat := Pack(0, 220)
  const PARAMETERID_MaxSpeedClamp: nat := Pack(0, 221)
  const PARAMETERID_AutotuneAmplitude: nat := Pack(0, 222)
  const PARAMETERID_AutotuneFrequency: nat := Pack(0, 223)
  const PARAMETERID_AutotuneBandwidth: nat := Pack(0, 224)
  const PARAMETERID_AutotunePhaseMargin: nat := Pack(0, 225)
  const PARAMETERID_TrajectoryFIRFilter: nat := Pack(0, 226)
  const PARAMETERID_TrajectoryIIRFilter: nat := Pack(0, 227)
  const PARAMETERID_CalibrationIIRFilter: nat := Pack(0, 228)
  const PARAMETERID_BacklashIIRFilter: nat := Pack(0, 229)
  const PARAMETERID_InPositionTime: nat := Pack(0, 230)
  const PARAMETERID_InPositionDisableTimeout: nat := Pack(0, 231)
  const PARAMETERID_Stability0Threshold: nat := Pack(0, 232)
  const PARAMETERID_Stability0Time: nat := Pack(0, 233)
  const PARAMETERID_GainDff: nat := Pack(0, 234)
  const PARAMETERID_StaticFrictionCompensation: nat := Pack(0, 235)
  const PARAMETERID_ServoOutputScaling: nat := Pack(0, 236)
  const PARAMETERID_ExternalFaultAnalogInput: nat := Pack(0, 238)
  const PARAMETERID_ExternalFaultThreshold: nat := Pack(0, 239)
  const PARAMETERID_Stability1Threshold: nat := Pack(0, 241)
  const PARAMETERID_Stability1Time: nat := Pack(0, 242)
  const PARAMETERID_AnalogFilterSetup: nat := Pack(0, 243)
  const PARAMETERID_DefaultRampType: nat := Pack(0, 244)
  const PARAMETERID_ServoOutputOffsetA: nat := Pack(0, 245)
  const PARAMETERID_ServoOutputOffsetB: nat := Pack(0, 246)
  const PARAMETERID_AutoDisableTimeout: nat := Pack(0, 247)
  const PARAMETERID_DriveIPAddress: nat := Pack(0, 256)
  const PARAMETERID_DriveSubnetMask: nat := Pack(0, 257)
  const PARAMETERID_DriveDefaultGateway: nat := Pack(0, 258)
  const PARAMETERID_CurrentOffsetA: nat := Pack(0, 259)
  const PARAMETERID_CurrentOffsetB: nat := Pack(0, 260)
  const PARAMETERID_CommandShaperSetup: nat := Pack(0, 261)
  const PARAMETERID_CommandShaperTime00: nat := Pack(0, 262)
  const PARAMETERID_CommandShaperTime01: nat := Pack(0, 263)
  const PARAMETERID_CommandShaperTime02: nat := Pack(0, 264)
  const PARAMETERID_CommandShaperTime03: nat := Pack(0, 265)
  const PARAMETERID_CommandShaperTime04: nat := Pack(0, 266)
  const PARAMETERID_CommandShaperTime05: nat := Pack(0, 267)
  const PARAMETERID_CommandShaperTime06: nat := Pack(0, 268)
  const PARAMETERID_CommandShaperTime07: nat := Pack(0, 269)
  const PARAMETERID_CommandShaperTime08: nat := Pack(0, 270)
  const PARAMETERID_CommandShaperTime09: nat := Pack(0, 271)
  const PARAMETERID_CommandShaperTime10: nat := Pack(0, 272)
  const PARAMETERID_CommandShaperTime11: nat := Pack(0, 273)
  const PARAMETERID_CommandShaperTime12: nat := Pack(0, 274)
  const PARAMETERID_CommandShaperTime13: nat := Pack(0, 275)
  const PARAMETERID_CommandShaperTime14: nat := Pack(0, 276)
  const PARAMETERID_CommandShaperTime15: nat := Pack(0, 277)
  const PARAMETERID_CommandShaperCoeff00: nat := Pack(0, 278)
  const PARAMETERID_CommandShaperCoeff01: nat := Pack(0, 279)
  const PARAMETERID_CommandShaperCoeff02: nat := Pack(0, 280)
  const PARAMETERID_CommandShaperCoeff03: nat := Pack(0, 281)
  const PARAMETERID_CommandShaperCoeff04: nat := Pack(0, 282)
  const PARAMETERID_CommandShaperCoeff05: nat := Pack(0, 283)
  const PARAMETERID_CommandShaperCoeff06: nat := Pack(0, 284)
  const PARAMETERID_CommandShaperCoeff07: nat := Pack(0, 285)
  const PARAMETERID_CommandShaperCoeff08: nat := Pack(0, 286)
  const PARAMETERID_CommandShaperCoeff09: nat := Pack(0, 287)
  const PARAMETERID_CommandShaperCoeff10: nat := Pack(0, 288)
  const PARAMETERID_CommandShaperCoeff11: nat := Pack(0, 289)
  const PARAMETERID_CommandShaperCoeff12: nat := Pack(0, 290)
  const PARAMETERID_CommandShaperCoeff13: nat := Pack(0, 291)
  const PARAMETERID_CommandShaperCoeff14: nat := Pack(0, 292)
  const PARAMETERID_CommandShaperCoeff15: nat := Pack(0, 293)
  const PARAMETERID_CommandShaper0Type: nat := Pack(0, 294)
  const PARAMETERID_CommandShaper0Frequency: nat := Pack(0, 295)
  const PARAMETERID_CommandShaper0Damping: nat := Pack(0, 296)
  const PARAMETERID_CommandShaper1Type: nat := Pack(0, 297)
  const PARAMETERID_CommandShaper1Frequency: nat := Pack(0, 298)
  const PARAMETERID_CommandShaper1Damping: nat := Pack(0, 299)
  const PARAMETERID_ResoluteEncoderSetup: nat := Pack(0, 306)
  const PARAMETERID_ResoluteEncoderResolution: nat := Pack(0, 307)
  const PARAMETERID_ResoluteEncoderUserResolution: nat := Pack(0, 308)
  const PARAMETERID_AutofocusInput: nat := Pack(0, 312)
  const PARAMETERID_AutofocusTarget: nat := Pack(0, 313)
  const PARAMETERID_AutofocusDeadband: nat := Pack(0, 314)
  const PARAMETERID_AutofocusGainKi: nat := Pack(0, 315)
  const PARAMETERID_AutofocusGainKp: nat := Pack(0, 316)
  const PARAMETERID_AutofocusLimitLow: nat := Pack(0, 317)
  const PARAMETERID_AutofocusLimitHigh: nat := Pack(0, 318)
  const PARAMETERID_AutofocusSpeedClamp: nat := Pack(0, 319)
  const PARAMETERID_AutofocusHoldInput: nat := Pack(0, 320)
  const PARAMETERID_AutofocusSetup: nat := Pack(0, 321)
  const PARAMETERID_TrajectoryDelayFilter: nat := Pack(0, 322)
  const PARAMETERID_EncoderTrackingSensitivity: nat := Pack(0, 323)
  const PARAMETERID_MotorOutputConstant: nat := Pack(0, 334)
  const PARAMETERID_MotorOutputUnitsName: nat := Pack(0, 335)
  const PARAMETERID_TrajectoryDecimationTime: nat := Pack(0, 336)
  const PARAMETERID_CrossAxisFeedforward00Axis: nat := Pack(0, 337)
  const PARAMETERID_CrossAxisFeedforward01Axis: nat := Pack(0, 338)
  const PARAMETERID_CrossAxisFeedforward02Axis: nat := Pack(0, 339)
  const PARAMETERID_CrossAxisFeedforward03Axis: nat := Pack(0, 340)
  const PARAMETERID_CrossAxisFeedforward04Axis: nat := Pack(0, 341)
  const PARAMETERID_CrossAxisFeedforward05Axis: nat := Pack(0, 342)
  const PARAMETERID_CrossAxisFeedforward00Gain: nat := Pack(0, 343)
  const PARAMETERID_CrossAxisFeedforward01Gain: nat := Pack(0, 344)
  const PARAMETERID_CrossAxisFeedforward02Gain: nat := Pack(0, 345)
  const PARAMETERID_CrossAxisFeedforward03Gain: nat := Pack(0, 346)
  const PARAMETERID_CrossAxisFeedforward04Gain: nat := Pack(0, 347)
  const PARAMETERID_CrossAxisFeedforward05Gain: nat := Pack(0, 348)
  const PARAMETERID_GainPff: nat := Pack(0, 350)
  const PARAMETERID_AutofocusInitialRampTime: nat := Pack(0, 351)
  const PARAMETERID_PositionAveragingChannel: nat := Pack(0, 352)
  const PARAMETERID_EndOfTravelCurrentThresholdLow: nat := Pack(0, 353)
  const PARAMETERID_EndOfTravelCurrentThresholdHigh: nat := Pack(0, 354)
  const PARAMETERID_AutofocusGainKi2: nat := Pack(0, 355)
  const PARAMETERID_EnDatEncoderIncrementalResolution: nat := Pack(0, 356)
  const PARAMETERID_MarkerSearchThreshold: nat := Pack(0, 357)
  const PARAMETERID_GainKd1: nat := Pack(0, 358)
  const PARAMETERID_GainKp1: nat := Pack(0, 359)
  const PARAMETERID_VelocityCommandThresholdBeforeHome: nat := Pack(0, 360)
  const PARAMETERID_SecondaryEncoderSineGain: nat := Pack(0, 361)
  const PARAMETERID_SecondaryEncoderSineOffset: nat := Pack(0, 362)
  const PARAMETERID_SecondaryEncoderCosineGain: nat := Pack(0, 363)
  const PARAMETERID_SecondaryEncoderCosineOffset: nat := Pack(0, 364)
  const PARAMETERID_SecondaryEncoderPhase: nat := Pack(0, 365)
  const PARAMETERID_DriveOutputCommandDelay: nat := Pack(0, 366)
  const PARAMETERID_InPosition2Distance: nat := Pack(0, 367)
  const PARAMETERID_InPosition2Time: nat := Pack(0, 368)
  const PARAMETERID_StepperRunningCurrentDelay: nat := Pack(0, 369)
  const PARAMETERID_AbsoluteFeedbackOffset: nat := Pack(0, 371)
  const PARAMETERID_CapSensorFilterLength: nat := Pack(0, 373)
  const PARAMETERID_EnhancedTrackingScale: nat := Pack(0, 374)
  const PARAMETERID_EnhancedTrackingBandwidth: nat := Pack(0, 375)
  const PARAMETERID_Analog0InputOffset: nat := Pack(0, 376)
  const PARAMETERID_Analog1InputOffset: nat := Pack(0, 377)
  const PARAMETERID_Analog2InputOffset: nat := Pack(0, 378)
  const PARAMETERID_Analog3InputOffset: nat := Pack(0, 379)
  const PARAMETERID_EnhancedTrackingSetup: nat := Pack(0, 380)
  const PARAMETERID_EncoderMarkerAlignment: nat := Pack(0, 381)
  const PARAMETERID_EncoderRadiusThresholdLow: nat := Pack(0, 382)
  const PARAMETERID_EncoderRadiusThresholdHigh: nat := Pack(0, 383)
  const PARAMETERID_GainKsi1: nat := Pack(0, 384)
  const PARAMETERID_GainKsi2: nat := Pack(0, 385)

  const Category0Run1: seq<int> := [
    PARAMETERID_AxisType,
    PARAMETERID_ReverseMotionDirection,
    PARAMETERID_CountsPerUnit,
    PARAMETERID_ServoSetup,
    PARAMETERID_GainKpos,
    PARAMETERID_GainKi,
    PARAMETERID_GainKp,
    PARAMETERID_GainVff,
    PARAMETERID_GainAff,
    PARAMETERID_GainKv,
    PARAMETERID_GainKpi,
    PARAMETERID_ServoFilter0CoeffN0,
    PARAMETERID_ServoFilter0CoeffN1,
    PARAMETERID_ServoFilter0CoeffN2,
    PARAMETERID_ServoFilter0CoeffD1,
    PARAMETERID_ServoFilter0CoeffD2,
    PARAMETERID_ServoFilter1CoeffN0,
    PARAMETERID_ServoFilter1CoeffN1,
    PARAMETERID_ServoFilter1CoeffN2,
    PARAMETERID_ServoFilter1CoeffD1,
    PARAMETERID_ServoFilter1CoeffD2,
    PARAMETERID_AmplifierDeadtime,
    PARAMETERID_RolloverCounts,
    PARAMETERID_CurrentGainKi,
    PARAMETERID_CurrentGainKp,
    PARAMETERID_FaultMask,
    PARAMETERID_FaultMaskDisable,
    PARAMETERID_FaultMaskDecel,
    PARAMETERID_EnableBrakeControl,
    PARAMETERID_FaultMaskOutput,
    PARAMETERID_ESTOPFaultInput,
    PARAMETERID_PositionErrorThreshold,
    PARAMETERID_AverageCurrentThreshold,
    PARAMETERID_AverageCurrentTime,
    PARAMETERID_VelocityCommandThreshold,
    PARAMETERID_VelocityErrorThreshold,
    PARAMETERID_SoftwareLimitLow,
    PARAMETERID_SoftwareLimitHigh,
    PARAMETERID_MaxCurrentClamp
  ]
  const Category0Run2: seq<int> := [
    PARAMETERID_InPositionDistance,
    PARAMETERID_MotorType,
    PARAMETERID_CyclesPerRev,
    PARAMETERID_CountsPerRev,
    PARAMETERID_CommutationOffset,
    PARAMETERID_AutoMsetTime,
    PARAMETERID_AutoMsetCurrent,
    PARAMETERID_PositionFeedbackType,
    PARAMETERID_PositionFeedbackChannel,
    PARAMETERID_VelocityFeedbackType,
    PARAMETERID_VelocityFeedbackChannel,
    PARAMETERID_EncoderMultiplicationFactor,
    PARAMETERID_EncoderSineGain,
    PARAMETERID_EncoderSineOffset,
    PARAMETERID_EncoderCosineGain,
    PARAMETERID_EncoderCosineOffset,
    PARAMETERID_EncoderPhase,
    PARAMETERID_GantryMasterAxis,
    PARAMETERID_LimitDecelDistance,
    PARAMETERID_LimitDebounceTime,
    PARAMETERID_EndOfTravelLimitSetup,
    PARAMETERID_BacklashDistance,
    PARAMETERID_FaultOutputSetup,
    PARAMETERID_FaultOutputState,
    PARAMETERID_IOSetup,
    PARAMETERID_BrakeOutput,
    PARAMETERID_EncoderDivider,
    PARAMETERID_ExternalFaultDigitalInput,
    PARAMETERID_BrakeDisableDelay,
    PARAMETERID_MaxJogDistance,
    PARAMETERID_DefaultSpeed,
    PARAMETERID_DefaultRampRate,
    PARAMETERID_AbortDecelRate,
    PARAMETERID_HomeType,
    PARAMETERID_HomeSetup,
    PARAMETERID_HomeSpeed,
    PARAMETERID_HomeOffset,
    PARAMETERID_HomeRampRate,
    PARAMETERID_StepperResolution
  ]
  const Category0Run3: seq<int> := [
    PARAMETERID_StepperRunningCurrent,
    PARAMETERID_StepperHoldingCurrent,
    PARAMETERID_StepperVerificationSpeed,
    PARAMETERID_LimitDebounceDistance,
    PARAMETERID_ServoFilter2CoeffN0,
    PARAMETERID_ServoFilter2CoeffN1,
    PARAMETERID_ServoFilter2CoeffN2,
    PARAMETERID_ServoFilter2CoeffD1,
    PARAMETERID_ServoFilter2CoeffD2,
    PARAMETERID_ServoFilter3CoeffN0,
    PARAMETERID_ServoFilter3CoeffN1,
    PARAMETERID_ServoFilter3CoeffN2,
    PARAMETERID_ServoFilter3CoeffD1,
    PARAMETERID_ServoFilter3CoeffD2,
    PARAMETERID_MaxJogSpeed,
    PARAMETERID_DecimalPlaces,
    PARAMETERID_UnitsName,
    PARAMETERID_AxisName,
    PARAMETERID_EnDatEncoderSetup,
    PARAMETERID_EnDatEncoderResolution,
    PARAMETERID_EnDatEncoderTurns,
    PARAMETERID_JoystickLowSpeed,
    PARAMETERID_JoystickHighSpeed,
    PARAMETERID_HomePositionSet,
    PARAMETERID_FaultMaskDisableDelay,
    PARAMETERID_FaultAbortAxes,
    PARAMETERID_HarmonicCancellation0Type,
    PARAMETERID_HarmonicCancellation0Period,
    PARAMETERID_HarmonicCancellation0Channel,
    PARAMETERID_HarmonicCancellation0Gain,
    PARAMETERID_HarmonicCancellation0Phase,
    PARAMETERID_HarmonicCancellation1Type,
    PARAMETERID_HarmonicCancellation1Period,
    PARAMETERID_HarmonicCancellation1Channel,
    PARAMETERID_HarmonicCancellation1Gain,
    PARAMETERID_HarmonicCancellation1Phase,
    PARAMETERID_HarmonicCancellation2Type,
    PARAMETERID_HarmonicCancellation2Period,
    PARAMETERID_HarmonicCancellation2Channel
  ]
  const Category0Run4: seq<int> := [
    PARAMETERID_HarmonicCancellation2Gain,
    PARAMETERID_HarmonicCancellation2Phase,
    PARAMETERID_ResolverReferenceGain,
    PARAMETERID_ResolverSetup,
    PARAMETERID_ResolverReferencePhase,
    PARAMETERID_SoftwareLimitSetup,
    PARAMETERID_SSINet1Setup,
    PARAMETERID_SSINet2Setup,
    PARAMETERID_EmulatedQuadratureDivider,
    PARAMETERID_HarmonicCancellation3Type,
    PARAMETERID_HarmonicCancellation3Period,
    PARAMETERID_HarmonicCancellation3Channel,
    PARAMETERID_HarmonicCancellation3Gain,
    PARAMETERID_HarmonicCancellation3Phase,
    PARAMETERID_HarmonicCancellation4Type,
    PARAMETERID_HarmonicCancellation4Period,
    PARAMETERID_HarmonicCancellation4Channel,
    PARAMETERID_HarmonicCancellation4Gain,
    PARAMETERID_HarmonicCancellation4Phase,
    PARAMETERID_EnhancedThroughputChannel,
    PARAMETERID_EnhancedThroughputGain,
    PARAMETERID_HarmonicCancellationSetup,
    PARAMETERID_EnhancedThroughputCurrentClamp,
    PARAMETERID_Analog0Filter0CoeffN0,
    PARAMETERID_Analog0Filter0CoeffN1,
    PARAMETERID_Analog0Filter0CoeffN2,
    PARAMETERID_Analog0Filter0CoeffD1,
    PARAMETERID_Analog0Filter0CoeffD2,
    PARAMETERID_Analog0Filter1CoeffN0,
    PARAMETERID_Analog0Filter1CoeffN1,
    PARAMETERID_Analog0Filter1CoeffN2,
    PARAMETERID_Analog0Filter1CoeffD1,
    PARAMETERID_Analog0Filter1CoeffD2,
    PARAMETERID_Analog1Filter0CoeffN0,
    PARAMETERID_Analog1Filter0CoeffN1,
    PARAMETERID_Analog1Filter0CoeffN2,
    PARAMETERID_Analog1Filter0CoeffD1,
    PARAMETERID_Analog1Filter0CoeffD2,
    PARAMETERID_Analog1Filter1CoeffN0
  ]
  const Category0Run5: seq<int> := [
    PARAMETERID_Analog1Filter1CoeffN1,
    PARAMETERID_Analog1Filter1CoeffN2,
    PARAMETERID_Analog1Filter1CoeffD1,
    PARAMETERID_Analog1Filter1CoeffD2,
    PARAMETERID_DefaultRampMode,
    PARAMETERID_DefaultRampTime,
    PARAMETERID_ServoFilterSetup,
    PARAMETERID_FeedbackSetup,
    PARAMETERID_EncoderMultiplierSetup,
    PARAMETERID_FaultSetup,
    PARAMETERID_ThresholdScheduleSetup,
    PARAMETERID_ThresholdRegion2High,
    PARAMETERID_ThresholdRegion2Low,
    PARAMETERID_ThresholdRegion3GainKpos,
    PARAMETERID_ThresholdRegion3GainKp,
    PARAMETERID_ThresholdRegion3GainKi,
    PARAMETERID_ThresholdRegion3GainKpi,
    PARAMETERID_ThresholdRegion4High,
    PARAMETERID_ThresholdRegion4Low,
    PARAMETERID_ThresholdRegion5GainKpos,
    PARAMETERID_ThresholdRegion5GainKp,
    PARAMETERID_ThresholdRegion5GainKi,
    PARAMETERID_ThresholdRegion5GainKpi,
    PARAMETERID_DynamicScheduleSetup,
    PARAMETERID_DynamicGainKposScale,
    PARAMETERID_DynamicGainKpScale,
    PARAMETERID_DynamicGainKiScale,
    PARAMETERID_ServoFilter4CoeffN0,
    PARAMETERID_ServoFilter4CoeffN1,
    PARAMETERID_ServoFilter4CoeffN2,
    PARAMETERID_ServoFilter4CoeffD1,
    PARAMETERID_ServoFilter4CoeffD2,
    PARAMETERID_ServoFilter5CoeffN0,
    PARAMETERID_ServoFilter5CoeffN1,
    PARAMETERID_ServoFilter5CoeffN2,
    PARAMETERID_ServoFilter5CoeffD1,
    PARAMETERID_ServoFilter5CoeffD2,
    PARAMETERID_ServoFilter6CoeffN0,
    PARAMETERID_ServoFilter6CoeffN1
  ]
  const Category0Run6: seq<int> := [
    PARAMETERID_ServoFilter6CoeffN2,
    PARAMETERID_ServoFilter6CoeffD1,
    PARAMETERID_ServoFilter6CoeffD2,
    PARAMETERID_ServoFilter7CoeffN0,
    PARAMETERID_ServoFilter7CoeffN1,
    PARAMETERID_ServoFilter7CoeffN2,
    PARAMETERID_ServoFilter7CoeffD1,
    PARAMETERID_ServoFilter7CoeffD2,
    PARAMETERID_LinearAmpMaxPower,
    PARAMETERID_LinearAmpDeratingFactor,
    PARAMETERID_LinearAmpBusVoltage,
    PARAMETERID_MotorResistance,
    PARAMETERID_MotorBackEMFConstant,
    PARAMETERID_GantrySetup,
    PARAMETERID_RolloverMode,
    PARAMETERID_GantrySeparationThreshold,
    PARAMETERID_EmulatedQuadratureChannel,
    PARAMETERID_ResolverCoarseChannel,
    PARAMETERID_ResolverFeedbackRatio,
    PARAMETERID_ResolverFeedbackOffset,
    PARAMETERID_BrakeEnableDelay,
    PARAMETERID_MaxSpeedClamp,
    PARAMETERID_AutotuneAmplitude,
    PARAMETERID_AutotuneFrequency,
    PARAMETERID_AutotuneBandwidth,
    PARAMETERID_AutotunePhaseMargin,
    PARAMETERID_TrajectoryFIRFilter,
    PARAMETERID_TrajectoryIIRFilter,
    PARAMETERID_CalibrationIIRFilter,
    PARAMETERID_BacklashIIRFilter,
    PARAMETERID_InPositionTime,
    PARAMETERID_InPositionDisableTimeout,
    PARAMETERID_Stability0Threshold,
    PARAMETERID_Stability0Time,
    PARAMETERID_GainDff,
    PARAMETERID_StaticFrictionCompensation,
    PARAMETERID_ServoOutputScaling,
    PARAMETERID_ExternalFaultAnalogInput,
    PARAMETERID_ExternalFaultThreshold
  ]
  const Category0Run7: seq<int> := [
    PARAMETERID_Stability1Threshold,
    PARAMETERID_Stability1Time,
    PARAMETERID_AnalogFilterSetup,
    PARAMETERID_DefaultRampType,
    PARAMETERID_ServoOutputOffsetA,
    PARAMETERID_ServoOutputOffsetB,
    PARAMETERID_AutoDisableTimeout,
    PARAMETERID_DriveIPAddress,
    PARAMETERID_DriveSubnetMask,
    PARAMETERID_DriveDefaultGateway,
    PARAMETERID_CurrentOffsetA,
    PARAMETERID_CurrentOffsetB,
    PARAMETERID_CommandShaperSetup,
    PARAMETERID_CommandShaperTime00,
    PARAMETERID_CommandShaperTime01,
    PARAMETERID_CommandShaperTime02,
    PARAMETERID_CommandShaperTime03,
    PARAMETERID_CommandShaperTime04,
    PARAMETERID_CommandShaperTime05,
    PARAMETERID_CommandShaperTime06,
    PARAMETERID_CommandShaperTime07,
    PARAMETERID_CommandShaperTime08,
    PARAMETERID_CommandShaperTime09,
    PARAMETERID_CommandShaperTime10,
    PARAMETERID_CommandShaperTime11,
    PARAMETERID_CommandShaperTime12,
    PARAMETERID_CommandShaperTime13,
    PARAMETERID_CommandShaperTime14,
    PARAMETERID_CommandShaperTime15,
    PARAMETERID_CommandShaperCoeff00,
    PARAMETERID_CommandShaperCoeff01,
    PARAMETERID_CommandShaperCoeff02,
    PARAMETERID_CommandShaperCoeff03,
    PARAMETERID_CommandShaperCoeff04,
    PARAMETERID_CommandShaperCoeff05,
    PARAMETERID_CommandShaperCoeff06,
    PARAMETERID_CommandShaperCoeff07,
    PARAMETERID_CommandShaperCoeff08,
    PARAMETERID_CommandShaperCoeff09
  ]
  const Category0Run8: seq<int> := [
    PARAMETERID_CommandShaperCoeff10,
    PARAMETERID_CommandShaperCoeff11,
    PARAMETERID_CommandShaperCoeff12,
    PARAMETERID_CommandShaperCoeff13,
    PARAMETERID_CommandShaperCoeff14,
    PARAMETERID_CommandShaperCoeff15,
    PARAMETERID_CommandShaper0Type,
    PARAMETERID_CommandShaper0Frequency,
    PARAMETERID_CommandShaper0Damping,
    PARAMETERID_CommandShaper1Type,
    PARAMETERID_CommandShaper1Frequency,
    PARAMETERID_CommandShaper1Damping,
    PARAMETERID_ResoluteEncoderSetup,
    PARAMETERID_ResoluteEncoderResolution,
    PARAMETERID_ResoluteEncoderUserResolution,
    PARAMETERID_AutofocusInput,
    PARAMETERID_AutofocusTarget,
    PARAMETERID_AutofocusDeadband,
    PARAMETERID_AutofocusGainKi,
    PARAMETERID_AutofocusGainKp,
    PARAMETERID_AutofocusLimitLow,
    PARAMETERID_AutofocusLimitHigh,
    PARAMETERID_AutofocusSpeedClamp,
    PARAMETERID_AutofocusHoldInput,
    PARAMETERID_AutofocusSetup,
    PARAMETERID_TrajectoryDelayFilter,
    PARAMETERID_EncoderTrackingSensitivity,
    PARAMETERID_MotorOutputConstant,
    PARAMETERID_MotorOutputUnitsName,
    PARAMETERID_TrajectoryDecimationTime,
    PARAMETERID_CrossAxisFeedforward00Axis,
    PARAMETERID_CrossAxisFeedforward01Axis,
    PARAMETERID_CrossAxisFeedforward02Axis,
    PARAMETERID_CrossAxisFeedforward03Axis,
    PARAMETERID_CrossAxisFeedforward04Axis,
    PARAMETERID_CrossAxisFeedforward05Axis,
    PARAMETERID_CrossAxisFeedforward00Gain,
    PARAMETERID_CrossAxisFeedforward01Gain,
    PARAMETERID_CrossAxisFeedforward02Gain
  ]
  const Category0Run9: seq<int> := [
    PARAMETERID_CrossAxisFeedforward03Gain,
    PARAMETERID_CrossAxisFeedforward04Gain,
    PARAMETERID_CrossAxisFeedforward05Gain,
    PARAMETERID_GainPff,
    PARAMETERID_AutofocusInitialRampTime,
    PARAMETERID_PositionAveragingChannel,
    PARAMETERID_EndOfTravelCurrentThresholdLow,
    PARAMETERID_EndOfTravelCurrentThresholdHigh,
    PARAMETERID_AutofocusGainKi2,
    PARAMETERID_EnDatEncoderIncrementalResolution,
    PARAMETERID_MarkerSearchThreshold,
    PARAMETERID_GainKd1,
    PARAMETERID_GainKp1,
    PARAMETERID_VelocityCommandThresholdBeforeHome,
    PARAMETERID_SecondaryEncoderSineGain,
    PARAMETERID_SecondaryEncoderSineOffset,
    PARAMETERID_SecondaryEncoderCosineGain,
    PARAMETERID_SecondaryEncoderCosineOffset,
    PARAMETERID_SecondaryEncoderPhase,
    PARAMETERID_DriveOutputCommandDelay,
    PARAMETERID_InPosition2Distance,
    PARAMETERID_InPosition2Time,
    PARAMETERID_StepperRunningCurrentDelay,
    PARAMETERID_AbsoluteFeedbackOffset,
    PARAMETERID_CapSensorFilterLength,
    PARAMETERID_EnhancedTrackingScale,
    PARAMETERID_EnhancedTrackingBandwidth,
    PARAMETERID_Analog0InputOffset,
    PARAMETERID_Analog1InputOffset,
    PARAMETERID_Analog2InputOffset,
    PARAMETERID_Analog3InputOffset,
    PARAMETERID_EnhancedTrackingSetup,
    PARAMETERID_EncoderMarkerAlignment,
    PARAMETERID_EncoderRadiusThresholdLow,
    PARAMETERID_EncoderRadiusThresholdHigh,
    PARAMETERID_GainKsi1,
    PARAMETERID_GainKsi2
  ]

  /** The category 0 identifiers in header order. */
  const Category0Ids: seq<int> := Category0Run1 + Category0Run2 + Category0Run3 + Category0Run4 + Category0Run5 + Category0Run6 + Category0Run7 + Category0Run8 + Category0Run9

  /** All identifiers in header order. */
  const ParameterIds: seq<int> := Category2Ids + Category1Ids + Category0Ids

  lemma Category2Run1Ascends()
    ensures Ascending(Category2Run1)
  {
  }

  lemma Category2Run2Ascends()
    ensures Ascending(Category2Run2)
  {
  }

  /** The runs of category 2 join into one strictly rising table. */
  lemma Category2Ascends()
    ensures |Category2Ids| == 42 && Ascending(Category2Ids)
    ensures Category2Ids[0] == Pack(2, 0) && Category2Ids[41] == Pack(2, 262)
  {
    Category2Run1Ascends();
    Category2Run2Ascends();
    AscendingJoin(Category2Run1, Category2Run2);
  }

  /**
   * The category 2 identifiers rise strictly from Pack(2, 0) to
   * Pack(2, 262), so no two share a value, and each decodes to category 2.
   */
  lemma Category2Layout()
    ensures |Category2Ids| == 42 && Ascending(Category2Ids) && Distinct(Category2Ids)
    ensures forall k :: 0 <= k < |Category2Ids| ==> Pack(2, 0) <= Category2Ids[k] <= Pack(2, 262)
    ensures forall k :: 0 <= k < |Category2Ids| ==> Category(Category2Ids[k]) == 2 && 0 <= Index(Category2Ids[k]) <= 262
  {
    Category2Ascends();
    MonotoneDistinct(Category2Ids);
    InCategory(Category2Ids, 2, 0, 262);
  }

  lemma Category1Run1Ascends()
    ensures Ascending(Category1Run1)
  {
  }

  lemma Category1Run2Ascends()
    ensures Ascending(Category1Run2)
  {
  }

  lemma Category1Run3Ascends()
    ensures Ascending(Category1Run3)
  {
  }

  lemma Category1Run4Ascends()
    ensures Ascending(Category1Run4)
  {
  }

  /** The runs of category 1 join into one strictly rising table. */
  lemma Category1Ascends()
    ensures |Category1Ids| == 159 && Ascending(Category1Ids)
    ensures Category1Ids[0] == Pack(1, 0) && Category1Ids[158] == Pack(1, 169)
  {
    Category1Run1Ascends();
    Category1Run2Ascends();
    Category1Run3Ascends();
    Category1Run4Ascends();
    AscendingJoin(Category1Run1, Category1Run2);
    var t1 := Category1Run1 + Category1Run2;
    AscendingJoin(t1, Category1Run3);
    var t2 := t1 + Category1Run3;
    AscendingJoin(t2, Category1Run4);
  }

  /**
   * The category 1 identifiers rise strictly from Pack(1, 0) to
   * Pack(1, 169), so no two share a value, and each decodes to category 1.
   */
  lemma Category1Layout()
    ensures |Category1Ids| == 159 && Ascending(Category1Ids) && Distinct(Category1Ids)
    ensures forall k :: 0 <= k < |Category1Ids| ==> Pack(1, 0) <= Category1Ids[k] <= Pack(1, 169)
    ensures forall k :: 0 <= k < |Category1Ids| ==> Category(Category1Ids[k]) == 1 && 0 <= Index(Category1Ids[k]) <= 169
  {
    Category1Ascends();
    MonotoneDistinct(Category1Ids);
    InCategory(Category1Ids, 1, 0, 169);
  }

  lemma Category0Run1Ascends()
    ensures Ascending(Category0Run1)
  {
  }

  lemma Category0Run2Ascends()
    ensures Ascending(Category0Run2)
  {
  }

  lemma Category0Run3Ascends()
    ensures Ascending(Category0Run3)
  {
  }

  lemma Category0Run4Ascends()
    ensures Ascending(Category0Run4)
  {
  }

  lemma Category0Run5Ascends()
    ensures Ascending(Category0Run5)
  {
  }

  lemma Category0Run6Ascends()
    ensures Ascending(Category0Run6)
  {
  }

  lemma Category0Run7Ascends()
    ensures Ascending(Category0Run7)
  {
  }

  lemma Category0Run8Ascends()
    ensures Ascending(Category0Run8)
  {
  }

  lemma Category0Run9Ascends()
    ensures Ascending(Category0Run9)
  {
  }

  /** The runs of category 0 join into one strictly rising table. */
  lemma Category0Ascends()
    ensures |Category0Ids| == 349 && Ascending(Category0Ids)
    ensures Category0Ids[0] == Pack(0, 0) && Category0Ids[348] == Pack(0, 385)
  {
    Category0Run1Ascends();
    Category0Run2Ascends();
    Category0Run3Ascends();
    Category0Run4Ascends();
    Category0Run5Ascends();
    Category0Run6Ascends();
    Category0Run7Ascends();
    Category0Run8Ascends();
    Category0Run9Ascends();
    AscendingJoin(Category0Run1, Category0Run2);
    var t1 := Category0Run1 + Category0Run2;
    AscendingJoin(t1, Category0Run3);
    var t2 := t1 + Category0Run3;
    AscendingJoin(t2, Category0Run4);
    var t3 := t2 + Category0Run4;
    AscendingJoin(t3, Category0Run5);
    var t4 := t3 + Category0Run5;
    AscendingJoin(t4, Category0Run6);
    var t5 := t4 + Category0Run6;
    AscendingJoin(t5, Category0Run7);
    var t6 := t5 + Category0Run7;
    AscendingJoin(t6, Category0Run8);
    var t7 := t6 + Category0Run8;
    AscendingJoin(t7, Category0Run9);
  }

  /**
   * The category 0 identifiers rise strictly from Pack(0, 0) to
   * Pack(0, 385), so no two share a value, and each decodes to category 0.
   */
  lemma Category0Layout()
    ensures |Category0Ids| == 349 && Ascending(Category0Ids) && Distinct(Category0Ids)
    ensures forall k :: 0 <= k < |Category0Ids| ==> Pack(0, 0) <= Category0Ids[k] <= Pack(0, 385)
    ensures forall k :: 0 <= k < |Category0Ids| ==> Category(Category0Ids[k]) == 0 && 0 <= Index(Category0Ids[k]) <= 385
  {
    Category0Ascends();
    MonotoneDistinct(Category0Ids);
    InCategory(Category0Ids, 0, 0, 385);
  }

  /** An identifier of category 0, 1 or 2 whose index is at most 385. */
  predicate Fits(id: int)
  {
    0 <= id && Category(id) <= 2 && Index(id) <= 385
  }

  /** The category-2 and category-1 identifiers together: distinct, fitting, and at least Pack(1, 0). */
  lemma UpperLayout()
    ensures Distinct(Category2Ids + Category1Ids)
    ensures forall k :: 0 <= k < |Category2Ids + Category1Ids| ==> Fits((Category2Ids + Category1Ids)[k])
    ensures forall k :: 0 <= k < |Category2Ids + Category1Ids| ==> Pack(1, 0) <= (Category2Ids + Category1Ids)[k]
  {
    Category2Layout();
    Category1Layout();
    SeparatedJoin(Category2Ids, Category1Ids, Pack(2, 0));
    EveryJoin(Category2Ids, Category1Ids, Fits);
    EveryJoin(Category2Ids, Category1Ids, id => Pack(1, 0) <= id);
  }

  /**
   * No two A3200 parameters share an identifier, every identifier has a
   * category of 0, 1 or 2, and every index fits easily in the 24-bit field
   * (the largest is 385), so the fields are recovered by the shift and the
   * mask.
   */
  lemma ParameterIdsLayout()
    ensures |ParameterIds| == 550 && Distinct(ParameterIds)
    ensures forall k :: 0 <= k < |ParameterIds| ==> 0 <= ParameterIds[k] && Category(ParameterIds[k]) <= 2 && Index(ParameterIds[k]) <= 385
  {
    UpperLayout();
    Category0Layout();
    SeparatedJoin(Category2Ids + Category1Ids, Category0Ids, Pack(1, 0));
    EveryJoin(Category2Ids + Category1Ids, Category0Ids, Fits);
  }
}
