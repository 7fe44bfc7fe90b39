/**
 * The parameter identifiers of the Ensemble controller, as ParameterId.h
 * lists them: the same (category << 24) | index packing as the A3200, but
 * every entry is in category 0, so each identifier is its own index. The
 * two headers are separate tables: the same parameter name packs to
 * different identifiers in each.
 */
module EnsembleParameterIds {
  import opened CodeTables
  import opened ParameterPacking
  import A3200ParameterIds

  // The identifiers (lines 13-765).
  const PARAMETERID_AxisType: nat := Pack(0, 0)
  const PARAMETERID_ReverseMotionDirection: nat := Pack(0, 1)
  const PARAMETERID_CountsPerUnit: nat := Pack(0, 2)
  const PARAMETERID_ServoRate: nat := Pack(0, 3)
  const PARAMETERID_ServoSetup: nat := Pack(0, 4)
  const PARAMETERID_GainKpos: nat := Pack(0, 5)
  const PARAMETERID_GainKi: nat := Pack(0, 6)
  const PARAMETERID_GainKp: nat := Pack(0, 7)
  const PARAMETERID_GainVff: nat := Pack(0, 8)
  const PARAMETERID_GainAff: nat := Pack(0, 9)
  const PARAMETERID_GainKv: nat := Pack(0, 10)
  const PARAMETERID_GainKpi: nat := Pack(0, 11)
  const PARAMETERID_ServoFilter0CoeffN0: nat := Pack(0, 12)
  const PARAMETERID_ServoFilter0CoeffN1: nat := Pack(0, 13)
  const PARAMETERID_ServoFilter0CoeffN2: nat := Pack(0, 14)
  const PARAMETERID_ServoFilter0CoeffD1: nat := Pack(0, 15)
  const PARAMETERID_ServoFilter0CoeffD2: nat := Pack(0, 16)
  const PARAMETERID_ServoFilter1CoeffN0: nat := Pack(0, 17)
  const PARAMETERID_ServoFilter1CoeffN1: nat := Pack(0, 18)
  const PARAMETERID_ServoFilter1CoeffN2: nat := Pack(0, 19)
  const PARAMETERID_ServoFilter1CoeffD1: nat := Pack(0, 20)
  const PARAMETERID_ServoFilter1CoeffD2: nat := Pack(0, 21)
  const PARAMETERID_AmplifierDeadtime: nat := Pack(0, 22)
  const PARAMETERID_RolloverCounts: nat := Pack(0, 23)
  const PARAMETERID_CurrentGainKi: nat := Pack(0, 24)
  const PARAMETERID_CurrentGainKp: nat := Pack(0, 25)
  const PARAMETERID_FaultMask: nat := Pack(0, 26)
  const PARAMETERID_FaultMaskDisable: nat := Pack(0, 27)
  const PARAMETERID_FaultMaskDecel: nat := Pack(0, 28)
  const PARAMETERID_EnableBrakeControl: nat := Pack(0, 29)
  const PARAMETERID_FaultMaskOutput: nat := Pack(0, 30)
  const PARAMETERID_ESTOPFaultInput: nat := Pack(0, 31)
  const PARAMETERID_PositionErrorThreshold: nat := Pack(0, 32)
  const PARAMETERID_AverageCurrentThreshold: nat := Pack(0, 33)
  const PARAMETERID_AverageCurrentTime: nat := Pack(0, 34)
  const PARAMETERID_VelocityCommandThreshold: nat := Pack(0, 35)
  const PARAMETERID_VelocityErrorThreshold: nat := Pack(0, 36)
  const PARAMETERID_SoftwareLimitLow: nat := Pack(0, 37)
  const PARAMETERID_SoftwareLimitHigh: nat := Pack(0, 38)
  const PARAMETERID_MaxCurrentClamp: nat := Pack(0, 39)
  const PARAMETERID_InPositionDistance: nat := Pack(0, 40)
  const PARAMETERID_MotorType: nat := Pack(0, 41)
  const PARAMETERID_CyclesPerRev: nat := Pack(0, 42)
  const PARAMETERID_CountsPerRev: nat := Pack(0, 43)
  const PARAMETERID_CommutationOffset: nat := Pack(0, 44)
  const PARAMETERID_AutoMsetTime: nat := Pack(0, 45)
  const PARAMETERID_AutoMsetCurrent: nat := Pack(0, 46)
  const PARAMETERID_PositionFeedbackType: nat := Pack(0, 47)
  const PARAMETERID_PositionFeedbackChannel: nat := Pack(0, 48)
  const PARAMETERID_VelocityFeedbackType: nat := Pack(0, 49)
  const PARAMETERID_VelocityFeedbackChannel: nat := Pack(0, 50)
  const PARAMETERID_EncoderMultiplicationFactor: nat := Pack(0, 51)
  const PARAMETERID_EncoderSineGain: nat := Pack(0, 52)
  const PARAMETERID_EncoderSineOffset: nat := Pack(0, 53)
  const PARAMETERID_EncoderCosineGain: nat := Pack(0, 54)
  const PARAMETERID_EncoderCosineOffset: nat := Pack(0, 55)
  const PARAMETERID_EncoderPhase: nat := Pack(0, 56)
  const PARAMETERID_GantryMasterAxis: nat := Pack(0, 57)
  const PARAMETERID_LimitDecelDistance: nat := Pack(0, 59)
  const PARAMETERID_LimitDebounceTime: nat := Pack(0, 60)
  const PARAMETERID_EndOfTravelLimitSetup: nat := Pack(0, 61)
  const PARAMETERID_BacklashDistance: nat := Pack(0, 62)
  const PARAMETERID_FaultOutputSetup: nat := Pack(0, 63)
  const PARAMETERID_FaultOutputState: nat := Pack(0, 64)
  const PARAMETERID_IOSetup: nat := Pack(0, 65)
  const PARAMETERID_BrakeOutput: nat := Pack(0, 66)
  const PARAMETERID_EncoderDivider: nat := Pack(0, 67)
  const PARAMETERID_ExternalFaultDigitalInput: nat := Pack(0, 68)
  const PARAMETERID_BrakeDisableDelay: nat := Pack(0, 69)
  const PARAMETERID_MaxJogDistance: nat := Pack(0, 70)
  const PARAMETERID_DefaultSpeed: nat := Pack(0, 71)
  const PARAMETERID_DefaultRampRate: nat := Pack(0, 72)
  const PARAMETERID_AbortDecelRate: nat := Pack(0, 73)
  const PARAMETERID_HomeType: nat := Pack(0, 74)
  const PARAMETERID_HomeSetup: nat := Pack(0, 75)
  const PARAMETERID_HomeSpeed: nat := Pack(0, 76)
  const PARAMETERID_HomeOffset: nat := Pack(0, 77)
  const PARAMETERID_HomeRampRate: nat := Pack(0, 78)
  const PARAMETERID_DefaultWaitMode: nat := Pack(0, 79)
  const PARAMETERID_DefaultSCurve: nat := Pack(0, 80)
  const PARAMETERID_DataCollectionPoints: nat := Pack(0, 81)
  const PARAMETERID_StepperResolution: nat := Pack(0, 83)
  const PARAMETERID_StepperRunningCurrent: nat := Pack(0, 84)
  const PARAMETERID_StepperHoldingCurrent: nat := Pack(0, 85)
  const PARAMETERID_StepperVerificationSpeed: nat := Pack(0, 86)
  const PARAMETERID_LimitDebounceDistance: nat := Pack(0, 87)
  const PARAMETERID_ServoFilter2CoeffN0: nat := Pack(0, 88)
  const PARAMETERID_ServoFilter2CoeffN1: nat := Pack(0, 89)
  const PARAMETERID_ServoFilter2CoeffN2: nat := Pack(0, 90)
  const PARAMETERID_ServoFilter2CoeffD1: nat := Pack(0, 91)
  const PARAMETERID_ServoFilter2CoeffD2: nat := Pack(0, 92)
  const PARAMETERID_ServoFilter3CoeffN0: nat := Pack(0, 93)
  const PARAMETERID_ServoFilter3CoeffN1: nat := Pack(0, 94)
  const PARAMETERID_ServoFilter3CoeffN2: nat := Pack(0, 95)
  const PARAMETERID_ServoFilter3CoeffD1: nat := Pack(0, 96)
  const PARAMETERID_ServoFilter3CoeffD2: nat := Pack(0, 97)
  const PARAMETERID_GearCamSource: nat := Pack(0, 98)
  const PARAMETERID_GearCamIndex: nat := Pack(0, 99)
  const PARAMETERID_GearCamScaleFactor: nat := Pack(0, 100)
  const PARAMETERID_GearCamAnalogDeadband: nat := Pack(0, 105)
  const PARAMETERID_PrintBufferSize: nat := Pack(0, 106)
  const PARAMETERID_SerialPort0XonCharacter: nat := Pack(0, 109)
  const PARAMETERID_SerialPort0XoffCharacter: nat := Pack(0, 110)
  const PARAMETERID_SerialPort0BaudRate: nat := Pack(0, 111)
  const PARAMETERID_SerialPort0Setup: nat := Pack(0, 112)
  const PARAMETERID_TaskExecutionSetup: nat := Pack(0, 113)
  const PARAMETERID_CodeSize: nat := Pack(0, 114)
  const PARAMETERID_DataSize: nat := Pack(0, 115)
  const PARAMETERID_StackSize: nat := Pack(0, 116)
  const PARAMETERID_AutoRunProgram: nat := Pack(0, 118)
  const PARAMETERID_MaxJogSpeed: nat := Pack(0, 123)
  const PARAMETERID_GlobalIntegers: nat := Pack(0, 124)
  const PARAMETERID_GlobalDoubles: nat := Pack(0, 125)
  const PARAMETERID_DecimalPlaces: nat := Pack(0, 126)
  const PARAMETERID_TaskErrorAbortAxes: nat := Pack(0, 127)
  const PARAMETERID_CalibrationFile1D: nat := Pack(0, 128)
  const PARAMETERID_UnitsName: nat := Pack(0, 129)
  const PARAMETERID_Socket2RemoteIPAddress: nat := Pack(0, 130)
  const PARAMETERID_Socket2Port: nat := Pack(0, 131)
  const PARAMETERID_Socket2Setup: nat := Pack(0, 132)
  const PARAMETERID_Socket2TransmissionSize: nat := Pack(0, 133)
  const PARAMETERID_Socket3RemoteIPAddress: nat := Pack(0, 134)
  const PARAMETERID_Socket3Port: nat := Pack(0, 135)
  const PARAMETERID_Socket3Setup: nat := Pack(0, 136)
  const PARAMETERID_Socket3TransmissionSize: nat := Pack(0, 137)
  const PARAMETERID_Socket2Timeout: nat := Pack(0, 138)
  const PARAMETERID_Socket3Timeout: nat := Pack(0, 139)
  const PARAMETERID_AxisName: nat := Pack(0, 140)
  const PARAMETERID_UserInteger0: nat := Pack(0, 141)
  const PARAMETERID_UserInteger1: nat := Pack(0, 142)
  const PARAMETERID_UserDouble0: nat := Pack(0, 143)
  const PARAMETERID_UserDouble1: nat := Pack(0, 144)
  const PARAMETERID_UserString0: nat := Pack(0, 145)
  const PARAMETERID_UserString1: nat := Pack(0, 146)
  const PARAMETERID_EnDatEncoderSetup: nat := Pack(0, 147)
  const PARAMETERID_EnDatEncoderResolution: nat := Pack(0, 148)
  const PARAMETERID_EnDatEncoderTurns: nat := Pack(0, 149)
  const PARAMETERID_CommandSetup: nat := Pack(0, 150)
  const PARAMETERID_SerialPort1XonCharacter: nat := Pack(0, 152)
  const PARAMETERID_SerialPort1XoffCharacter: nat := Pack(0, 153)
  const PARAMETERID_SerialPort1BaudRate: nat := Pack(0, 154)
  const PARAMETERID_SerialPort1Setup: nat := Pack(0, 155)
  const PARAMETERID_RequiredAxes: nat := Pack(0, 156)
  const PARAMETERID_JoystickInput1MinVoltage: nat := Pack(0, 157)
  const PARAMETERID_JoystickInput1MaxVoltage: nat := Pack(0, 158)
  const PARAMETERID_JoystickInput1Deadband: nat := Pack(0, 159)
  const PARAMETERID_JoystickInput0MinVoltage: nat := Pack(0, 160)
  const PARAMETERID_JoystickInput0MaxVoltage: nat := Pack(0, 161)
  const PARAMETERID_JoystickInput0Deadband: nat := Pack(0, 162)
  const PARAMETERID_JoystickLowSpeed: nat := Pack(0, 163)
  const PARAMETERID_JoystickHighSpeed: nat := Pack(0, 164)
  const PARAMETERID_JoystickSetup: nat := Pack(0, 165)
  const PARAMETERID_HomePositionSet: nat := Pack(0, 166)
  const PARAMETERID_TaskTerminationAxes: nat := Pack(0, 167)
  const PARAMETERID_TaskStopAbortAxes: nat := Pack(0, 168)
  const PARAMETERID_CalibrationFile2D: nat := Pack(0, 169)
  const PARAMETERID_FaultMaskDisableDelay: nat := Pack(0, 170)
  const PARAMETERID_DefaultCoordinatedSpeed: nat := Pack(0, 171)
  const PARAMETERID_DefaultCoordinatedRampRate: nat := Pack(0, 172)
  const PARAMETERID_DefaultDependentCoordinatedRampRate: nat := Pack(0, 173)
  const PARAMETERID_GpibTerminatingCharacter: nat := Pack(0, 174)
  const PARAMETERID_GpibPrimaryAddress: nat := Pack(0, 175)
  const PARAMETERID_GpibParallelResponse: nat := Pack(0, 176)
  const PARAMETERID_CommandTerminatingCharacter: nat := Pack(0, 177)
  const PARAMETERID_CommandSuccessCharacter: nat := Pack(0, 178)
  const PARAMETERID_CommandInvalidCharacter: nat := Pack(0, 179)
  const PARAMETERID_CommandFaultCharacter: nat := Pack(0, 180)
  const PARAMETERID_FaultAbortAxes: nat := Pack(0, 182)
  const PARAMETERID_HarmonicCancellation0Type: nat := Pack(0, 185)
  const PARAMETERID_HarmonicCancellation0Period: nat := Pack(0, 186)
  const PARAMETERID_HarmonicCancellation0Gain: nat := Pack(0, 188)
  const PARAMETERID_HarmonicCancellation0Phase: nat := Pack(0, 189)
  const PARAMETERID_HarmonicCancellation1Type: nat := Pack(0, 190)
  const PARAMETERID_HarmonicCancellation1Period: nat := Pack(0, 191)
  const PARAMETERID_HarmonicCancellation1Gain: nat := Pack(0, 193)
  const PARAMETERID_HarmonicCancellation1Phase: nat := Pack(0, 194)
  const PARAMETERID_HarmonicCancellation2Type: nat := Pack(0, 195)
  const PARAMETERID_HarmonicCancellation2Period: nat := Pack(0, 196)
  const PARAMETERID_HarmonicCancellation2Gain: nat := Pack(0, 198)
  const PARAMETERID_HarmonicCancellation2Phase: nat := Pack(0, 199)
  const PARAMETERID_CommandTimeout: nat := Pack(0, 202)
  const PARAMETERID_CommandTimeoutCharacter: nat := Pack(0, 203)
  const PARAMETERID_ResolverReferenceGain: nat := Pack(0, 204)
  const PARAMETERID_ResolverSetup: nat := Pack(0, 205)
  const PARAMETERID_ResolverReferencePhase: nat := Pack(0, 206)
  const PARAMETERID_SoftwareLimitSetup: nat := Pack(0, 210)
  const PARAMETERID_SSINet1Setup: nat := Pack(0, 211)
  const PARAMETERID_SSINet2Setup: nat := Pack(0, 212)
  const PARAMETERID_EmulatedQuadratureDivider: nat := Pack(0, 213)
  const PARAMETERID_HarmonicCancellation3Type: nat := Pack(0, 214)
  const PARAMETERID_HarmonicCancellation3Period: nat := Pack(0, 215)
  const PARAMETERID_HarmonicCancellation3Gain: nat := Pack(0, 217)
  const PARAMETERID_HarmonicCancellation3Phase: nat := Pack(0, 218)
  const PARAMETERID_HarmonicCancellation4Type: nat := Pack(0, 219)
  const PARAMETERID_HarmonicCancellation4Period: nat := Pack(0, 220)
  const PARAMETERID_HarmonicCancellation4Gain: nat := Pack(0, 222)
  const PARAMETERID_HarmonicCancellation4Phase: nat := Pack(0, 223)
  const PARAMETERID_EnhancedThroughputChannel: nat := Pack(0, 224)
  const PARAMETERID_EnhancedThroughputGain: nat := Pack(0, 225)
  const PARAMETERID_HarmonicCancellationSetup: nat := Pack(0, 226)
  const PARAMETERID_EnhancedThroughputCurrentClamp: nat := Pack(0, 227)
  const PARAMETERID_Analog0Filter0CoeffN0: nat := Pack(0, 228)
  const PARAMETERID_Analog0Filter0CoeffN1: nat := Pack(0, 229)
  const PARAMETERID_Analog0Filter0CoeffN2: nat := Pack(0, 230)
  const PARAMETERID_Analog0Filter0CoeffD1: nat := Pack(0, 231)
  const PARAMETERID_Analog0Filter0CoeffD2: nat := Pack(0, 232)
  const PARAMETERID_Analog0Filter1CoeffN0: nat := Pack(0, 233)
  const PARAMETERID_Analog0Filter1CoeffN1: nat := Pack(0, 234)
  const PARAMETERID_Analog0Filter1CoeffN2: nat := Pack(0, 235)
  const PARAMETERID_Analog0Filter1CoeffD1: nat := Pack(0, 236)
  const PARAMETERID_Analog0Filter1CoeffD2: nat := Pack(0, 237)
  const PARAMETERID_Analog1Filter0CoeffN0: nat := Pack(0, 238)
  const PARAMETERID_Analog1Filter0CoeffN1: nat := Pack(0, 239)
  const PARAMETERID_Analog1Filter0CoeffN2: nat := Pack(0, 240)
  const PARAMETERID_Analog1Filter0CoeffD1: nat := Pack(0, 241)
  const PARAMETERID_Analog1Filter0CoeffD2: nat := Pack(0, 242)
  const PARAMETERID_Analog1Filter1CoeffN0: nat := Pack(0, 243)
  const PARAMETERID_Analog1Filter1CoeffN1: nat := Pack(0, 244)
  const PARAMETERID_Analog1Filter1CoeffN2: nat := Pack(0, 245)
  const PARAMETERID_Analog1Filter1CoeffD1: nat := Pack(0, 246)
  const PARAMETERID_Analog1Filter1CoeffD2: nat := Pack(0, 247)
  const PARAMETERID_GlobalStrings: nat := Pack(0, 248)
  const PARAMETERID_DefaultCoordinatedRampMode: nat := Pack(0, 249)
  const PARAMETERID_DefaultCoordinatedRampTime: nat := Pack(0, 250)
  const PARAMETERID_DefaultCoordinatedRampDistance: nat := Pack(0, 251)
  const PARAMETERID_DefaultRampMode: nat := Pack(0, 252)
  const PARAMETERID_DefaultRampTime: nat := Pack(0, 253)
  const PARAMETERID_DefaultRampDistance: nat := Pack(0, 254)
  const PARAMETERID_ServoFilterSetup: nat := Pack(0, 255)
  const PARAMETERID_FeedbackSetup: nat := Pack(0, 256)
  const PARAMETERID_EncoderMultiplierSetup: nat := Pack(0, 257)
  const PARAMETERID_FaultSetup: nat := Pack(0, 258)
  const PARAMETERID_ThresholdScheduleSetup: nat := Pack(0, 259)
  const PARAMETERID_ThresholdRegion2High: nat := Pack(0, 260)
  const PARAMETERID_ThresholdRegion2Low: nat := Pack(0, 261)
  const PARAMETERID_ThresholdRegion3GainKpos: nat := Pack(0, 262)
  const PARAMETERID_ThresholdRegion3GainKp: nat := Pack(0, 263)
  const PARAMETERID_ThresholdRegion3GainKi: nat := Pack(0, 264)
  const PARAMETERID_ThresholdRegion3GainKpi: nat := Pack(0, 265)
  const PARAMETERID_ThresholdRegion4High: nat := Pack(0, 266)
  const PARAMETERID_ThresholdRegion4Low: nat := Pack(0, 267)
  const PARAMETERID_ThresholdRegion5GainKpos: nat := Pack(0, 268)
  const PARAMETERID_ThresholdRegion5GainKp: nat := Pack(0, 269)
  const PARAMETERID_ThresholdRegion5GainKi: nat := Pack(0, 270)
  const PARAMETERID_ThresholdRegion5GainKpi: nat := Pack(0, 271)
  const PARAMETERID_DynamicScheduleSetup: nat := Pack(0, 272)
  const PARAMETERID_DynamicGainKposScale: nat := Pack(0, 273)
  const PARAMETERID_DynamicGainKpScale: nat := Pack(0, 274)
  const PARAMETERID_DynamicGainKiScale: nat := Pack(0, 275)
  const PARAMETERID_ServoFilter4CoeffN0: nat := Pack(0, 276)
  const PARAMETERID_ServoFilter4CoeffN1: nat := Pack(0, 277)
  const PARAMETERID_ServoFilter4CoeffN2: nat := Pack(0, 278)
  const PARAMETERID_ServoFilter4CoeffD1: nat := Pack(0, 279)
  const PARAMETERID_ServoFilter4CoeffD2: nat := Pack(0, 280)
  const PARAMETERID_ServoFilter5CoeffN0: nat := Pack(0, 281)
  const PARAMETERID_ServoFilter5CoeffN1: nat := Pack(0, 282)
  const PARAMETERID_ServoFilter5CoeffN2: nat := Pack(0, 283)
  const PARAMETERID_ServoFilter5CoeffD1: nat := Pack(0, 284)
  const PARAMETERID_ServoFilter5CoeffD2: nat := Pack(0, 285)
  const PARAMETERID_ServoFilter6CoeffN0: nat := Pack(0, 286)
  const PARAMETERID_ServoFilter6CoeffN1: nat := Pack(0, 287)
  const PARAMETERID_ServoFilter6CoeffN2: nat := Pack(0, 288)
  const PARAMETERID_ServoFilter6CoeffD1: nat := Pack(0, 289)
  const PARAMETERID_ServoFilter6CoeffD2: nat := Pack(0, 290)
  const PARAMETERID_ServoFilter7CoeffN0: nat := Pack(0, 291)
  const PARAMETERID_ServoFilter7CoeffN1: nat := Pack(0, 292)
  const PARAMETERID_ServoFilter7CoeffN2: nat := Pack(0, 293)
  const PARAMETERID_ServoFilter7CoeffD1: nat := Pack(0, 294)
  const PARAMETERID_ServoFilter7CoeffD2: nat := Pack(0, 295)
  const PARAMETERID_LinearAmpMaxPower: nat := Pack(0, 296)
  const PARAMETERID_LinearAmpDeratingFactor: nat := Pack(0, 297)
  const PARAMETERID_LinearAmpBusVoltage: nat := Pack(0, 298)
  const PARAMETERID_MotorResistance: nat := Pack(0, 299)
  const PARAMETERID_MotorBackEMFConstant: nat := Pack(0, 300)
  const PARAMETERID_GantrySetup: nat := Pack(0, 302)
  const PARAMETERID_RolloverMode: nat := Pack(0, 303)
  const PARAMETERID_ResolverCoarseChannel: nat := Pack(0, 306)
  const PARAMETERID_ResolverFeedbackRatio: nat := Pack(0, 307)
  const PARAMETERID_ResolverFeedbackOffset: nat := Pack(0, 308)
  const PARAMETERID_InPositionTime: nat := Pack(0, 319)
  const PARAMETERID_ExternalFaultAnalogInput: nat := Pack(0, 424)
  const PARAMETERID_ExternalFaultThreshold: nat := Pack(0, 425)
  const PARAMETERID_DisplayAxes: nat := Pack(0, 426)
  const PARAMETERID_DefaultDependentCoordinatedSpeed: nat := Pack(0, 427)
  const PARAMETERID_AnalogFilterSetup: nat := Pack(0, 482)
  const PARAMETERID_ModbusMasterSlaveIPAddress: nat := Pack(0, 489)
  const PARAMETERID_ModbusMasterSlavePort: nat := Pack(0, 490)
  const PARAMETERID_ModbusMasterSlaveID: nat := Pack(0, 491)
  const PARAMETERID_ModbusMasterInputWords: nat := Pack(0, 492)
  const PARAMETERID_ModbusMasterOutputWords: nat := Pack(0, 493)
  const PARAMETERID_ModbusMasterInputBits: nat := Pack(0, 494)
  const PARAMETERID_ModbusMasterOutputBits: nat := Pack(0, 495)
  const PARAMETERID_ModbusMasterSetup: nat := Pack(0, 496)
  const PARAMETERID_ModbusMasterVirtualInputs: nat := Pack(0, 499)
  const PARAMETERID_ModbusMasterVirtualOutputs: nat := Pack(0, 500)
  const PARAMETERID_ModbusMasterOutputWordsSections: nat := Pack(0, 501)
  const PARAMETERID_ModbusMasterOutputBitsSections: nat := Pack(0, 502)
  const PARAMETERID_ModbusMasterRWReadOffset: nat := Pack(0, 503)
  const PARAMETERID_ModbusMasterInputWordsOffset: nat := Pack(0, 504)
  const PARAMETERID_ModbusMasterOutputWordsOffset: nat := Pack(0, 505)
  const PARAMETERID_ModbusMasterInputBitsOffset: nat := Pack(0, 506)
  const PARAMETERID_ModbusMasterOutputBitsOffset: nat := Pack(0, 507)
  const PARAMETERID_ModbusMasterStatusWordsOffset: nat := Pack(0, 508)
  const PARAMETERID_ModbusMasterStatusBitsOffset: nat := Pack(0, 509)
  const PARAMETERID_ModbusMasterVirtualInputsOffset: nat := Pack(0, 510)
  const PARAMETERID_ModbusMasterVirtualOutputsOffset: nat := Pack(0, 511)
  const PARAMETERID_ModbusMasterRWWriteOffset: nat := Pack(0, 512)
  const PARAMETERID_ModbusMasterFunctions: nat := Pack(0, 513)
  const PARAMETERID_ModbusMasterSlaveType: nat := Pack(0, 514)
  const PARAMETERID_ModbusSlaveUnitID: nat := Pack(0, 516)
  const PARAMETERID_ModbusSlaveInputWords: nat := Pack(0, 517)
  const PARAMETERID_ModbusSlaveOutputWords: nat := Pack(0, 518)
  const PARAMETERID_ModbusSlaveInputBits: nat := Pack(0, 519)
  const PARAMETERID_ModbusSlaveOutputBits: nat := Pack(0, 520)
  const PARAMETERID_ModbusSlaveInputWordsOffset: nat := Pack(0, 521)
  const PARAMETERID_ModbusSlaveOutputWordsOffset: nat := Pack(0, 522)
  const PARAMETERID_ModbusSlaveInputBitsOffset: nat := Pack(0, 523)
  const PARAMETERID_ModbusSlaveOutputBitsOffset: nat := Pack(0, 524)
  const PARAMETERID_ModbusSlaveRWReadOffset: nat := Pack(0, 525)
  const PARAMETERID_ModbusSlaveRWWriteOffset: nat := Pack(0, 526)
  const PARAMETERID_CurrentOffsetA: nat := Pack(0, 662)
  const PARAMETERID_CurrentOffsetB: nat := Pack(0, 663)
  const PARAMETERID_CommandShaperSetup: nat := Pack(0, 666)
  const PARAMETERID_CommandShaperTime00: nat := Pack(0, 667)
  const PARAMETERID_CommandShaperTime01: nat := Pack(0, 668)
  const PARAMETERID_CommandShaperTime02: nat := Pack(0, 669)
  const PARAMETERID_CommandShaperTime03: nat := Pack(0, 670)
  const PARAMETERID_CommandShaperTime04: nat := Pack(0, 671)
  const PARAMETERID_CommandShaperTime05: nat := Pack(0, 672)
  const PARAMETERID_CommandShaperTime06: nat := Pack(0, 673)
  const PARAMETERID_CommandShaperTime07: nat := Pack(0, 674)
  const PARAMETERID_CommandShaperTime08: nat := Pack(0, 675)
  const PARAMETERID_CommandShaperTime09: nat := Pack(0, 676)
  const PARAMETERID_CommandShaperTime10: nat := Pack(0, 677)
  const PARAMETERID_CommandShaperTime11: nat := Pack(0, 678)
  const PARAMETERID_CommandShaperTime12: nat := Pack(0, 679)
  const PARAMETERID_CommandShaperTime13: nat := Pack(0, 680)
  const PARAMETERID_CommandShaperTime14: nat := Pack(0, 681)
  const PARAMETERID_CommandShaperTime15: nat := Pack(0, 682)
  const PARAMETERID_CommandShaperCoeff00: nat := Pack(0, 683)
  const PARAMETERID_CommandShaperCoeff01: nat := Pack(0, 684)
  const PARAMETERID_CommandShaperCoeff02: nat := Pack(0, 685)
  const PARAMETERID_CommandShaperCoeff03: nat := Pack(0, 686)
  const PARAMETERID_CommandShaperCoeff04: nat := Pack(0, 687)
  const PARAMETERID_CommandShaperCoeff05: nat := Pack(0, 688)
  const PARAMETERID_CommandShaperCoeff06: nat := Pack(0, 689)
  const PARAMETERID_CommandShaperCoeff07: nat := Pack(0, 690)
  const PARAMETERID_CommandShaperCoeff08: nat := Pack(0, 691)
  const PARAMETERID_CommandShaperCoeff09: nat := Pack(0, 692)
  const PARAMETERID_CommandShaperCoeff10: nat := Pack(0, 693)
  const PARAMETERID_CommandShaperCoeff11: nat := Pack(0, 694)
  const PARAMETERID_CommandShaperCoeff12: nat := Pack(0, 695)
  const PARAMETERID_CommandShaperCoeff13: nat := Pack(0, 696)
  const PARAMETERID_CommandShaperCoeff14: nat := Pack(0, 697)
  const PARAMETERID_CommandShaperCoeff15: nat := Pack(0, 698)
  const PARAMETERID_CommandShaper0Type: nat := Pack(0, 703)
  const PARAMETERID_CommandShaper0Frequency: nat := Pack(0, 704)
  const PARAMETERID_CommandShaper0Damping: nat := Pack(0, 705)
  const PARAMETERID_CommandShaper1Type: nat := Pack(0, 706)
  const PARAMETERID_CommandShaper1Frequency: nat := Pack(0, 707)
  const PARAMETERID_CommandShaper1Damping: nat := Pack(0, 708)
  const PARAMETERID_ResoluteEncoderSetup: nat := Pack(0, 715)
  const PARAMETERID_ResoluteEncoderResolution: nat := Pack(0, 716)
  const PARAMETERID_ResoluteEncoderUserResolution: nat := Pack(0, 717)
  const PARAMETERID_AutofocusInput: nat := Pack(0, 721)
  const PARAMETERID_AutofocusTarget: nat := Pack(0, 722)
  const PARAMETERID_AutofocusDeadband: nat := Pack(0, 723)
  const PARAMETERID_AutofocusGainKi: nat := Pack(0, 724)
  const PARAMETERID_AutofocusGainKp: nat := Pack(0, 725)
  const PARAMETERID_AutofocusLimitLow: nat := Pack(0, 726)
  const PARAMETERID_AutofocusLimitHigh: nat := Pack(0, 727)
  const PARAMETERID_AutofocusSpeedClamp: nat := Pack(0, 728)
  const PARAMETERID_AutofocusHoldInput: nat := Pack(0, 729)
  const PARAMETERID_AutofocusSetup: nat := Pack(0, 730)
  const PARAMETERID_ExternalSyncFrequency: nat := Pack(0, 731)
  const PARAMETERID_GainPff: nat := Pack(0, 762)
  const PARAMETERID_AutofocusInitialRampTime: nat := Pack(0, 763)

  const ParameterRun1: seq<int> := [
    PARAMETERID_AxisType,
    PARAMETERID_ReverseMotionDirection,
    PARAMETERID_CountsPerUnit,
    PARAMETERID_ServoRate,
    PARAMETERID_ServoSetup,
    PARAMETERID_GainKpos,
    PARAMETERID_GainKi,
    PARAMETERID_GainKp,
    PARAMETERID_GainVff,
    PARAMETERID_GainAff,
    PARAMETERID_GainKv,
    PARAMETERID_GainKpi,
    PARAMETERID_ServoFilter0CoeffN0,
    PARAMETERID_ServoFilter0CoeffN1,
    PARAMETERID_ServoFilter0CoeffN2,
    PARAMETERID_ServoFilter0CoeffD1,
    PARAMETERID_ServoFilter0CoeffD2,
    PARAMETERID_ServoFilter1CoeffN0,
    PARAMETERID_ServoFilter1CoeffN1,
    PARAMETERID_ServoFilter1CoeffN2,
    PARAMETERID_ServoFilter1CoeffD1,
    PARAMETERID_ServoFilter1CoeffD2,
    PARAMETERID_AmplifierDeadtime,
    PARAMETERID_RolloverCounts,
    PARAMETERID_CurrentGainKi,
    PARAMETERID_CurrentGainKp,
    PARAMETERID_FaultMask,
    PARAMETERID_FaultMaskDisable,
    PARAMETERID_FaultMaskDecel,
    PARAMETERID_EnableBrakeControl,
    PARAMETERID_FaultMaskOutput,
    PARAMETERID_ESTOPFaultInput,
    PARAMETERID_PositionErrorThreshold,
    PARAMETERID_AverageCurrentThreshold,
    PARAMETERID_AverageCurrentTime,
    PARAMETERID_VelocityCommandThreshold,
    PARAMETERID_VelocityErrorThreshold,
    PARAMETERID_SoftwareLimitLow
  ]
  const ParameterRun2: seq<int> := [
    PARAMETERID_SoftwareLimitHigh,
    PARAMETERID_MaxCurrentClamp,
    PARAMETERID_InPositionDistance,
    PARAMETERID_MotorType,
    PARAMETERID_CyclesPerRev,
    PARAMETERID_CountsPerRev,
    PARAMETERID_CommutationOffset,
    PARAMETERID_AutoMsetTime,
    PARAMETERID_AutoMsetCurrent,
    PARAMETERID_PositionFeedbackType,
    PARAMETERID_PositionFeedbackChannel,
    PARAMETERID_VelocityFeedbackType,
    PARAMETERID_VelocityFeedbackChannel,
    PARAMETERID_EncoderMultiplicationFactor,
    PARAMETERID_EncoderSineGain,
    PARAMETERID_EncoderSineOffset,
    PARAMETERID_EncoderCosineGain,
    PARAMETERID_EncoderCosineOffset,
    PARAMETERID_EncoderPhase,
    PARAMETERID_GantryMasterAxis,
    PARAMETERID_LimitDecelDistance,
    PARAMETERID_LimitDebounceTime,
    PARAMETERID_EndOfTravelLimitSetup,
    PARAMETERID_BacklashDistance,
    PARAMETERID_FaultOutputSetup,
    PARAMETERID_FaultOutputState,
    PARAMETERID_IOSetup,
    PARAMETERID_BrakeOutput,
    PARAMETERID_EncoderDivider,
    PARAMETERID_ExternalFaultDigitalInput,
    PARAMETERID_BrakeDisableDelay,
    PARAMETERID_MaxJogDistance,
    PARAMETERID_DefaultSpeed,
    PARAMETERID_DefaultRampRate,
    PARAMETERID_AbortDecelRate,
    PARAMETERID_HomeType,
    PARAMETERID_HomeSetup,
    PARAMETERID_HomeSpeed
  ]
  const ParameterRun3: seq<int> := [
    PARAMETERID_HomeOffset,
    PARAMETERID_HomeRampRate,
    PARAMETERID_DefaultWaitMode,
    PARAMETERID_DefaultSCurve,
    PARAMETERID_DataCollectionPoints,
    PARAMETERID_StepperResolution,
    PARAMETERID_StepperRunningCurrent,
    PARAMETERID_StepperHoldingCurrent,
    PARAMETERID_StepperVerificationSpeed,
    PARAMETERID_LimitDebounceDistance,
    PARAMETERID_ServoFilter2CoeffN0,
    PARAMETERID_ServoFilter2CoeffN1,
    PARAMETERID_ServoFilter2CoeffN2,
    PARAMETERID_ServoFilter2CoeffD1,
    PARAMETERID_ServoFilter2CoeffD2,
    PARAMETERID_ServoFilter3CoeffN0,
    PARAMETERID_ServoFilter3CoeffN1,
    PARAMETERID_ServoFilter3CoeffN2,
    PARAMETERID_ServoFilter3CoeffD1,
    PARAMETERID_ServoFilter3CoeffD2,
    PARAMETERID_GearCamSource,
    PARAMETERID_GearCamIndex,
    PARAMETERID_GearCamScaleFactor,
    PARAMETERID_GearCamAnalogDeadband,
    PARAMETERID_PrintBufferSize,
    PARAMETERID_SerialPort0XonCharacter,
    PARAMETERID_SerialPort0XoffCharacter,
    PARAMETERID_SerialPort0BaudRate,
    PARAMETERID_SerialPort0Setup,
    PARAMETERID_TaskExecutionSetup,
    PARAMETERID_CodeSize,
    PARAMETERID_DataSize,
    PARAMETERID_StackSize,
    PARAMETERID_AutoRunProgram,
    PARAMETERID_MaxJogSpeed,
    PARAMETERID_GlobalIntegers,
    PARAMETERID_GlobalDoubles,
    PARAMETERID_DecimalPlaces
  ]
  const ParameterRun4: seq<int> := [
    PARAMETERID_TaskErrorAbortAxes,
    PARAMETERID_CalibrationFile1D,
    PARAMETERID_UnitsName,
    PARAMETERID_Socket2RemoteIPAddress,
    PARAMETERID_Socket2Port,
    PARAMETERID_Socket2Setup,
    PARAMETERID_Socket2TransmissionSize,
    PARAMETERID_Socket3RemoteIPAddress,
    PARAMETERID_Socket3Port,
    PARAMETERID_Socket3Setup,
    PARAMETERID_Socket3TransmissionSize,
    PARAMETERID_Socket2Timeout,
    PARAMETERID_Socket3Timeout,
    PARAMETERID_AxisName,
    PARAMETERID_UserInteger0,
    PARAMETERID_UserInteger1,
    PARAMETERID_UserDouble0,
    PARAMETERID_UserDouble1,
    PARAMETERID_UserString0,
    PARAMETERID_UserString1,
    PARAMETERID_EnDatEncoderSetup,
    PARAMETERID_EnDatEncoderResolution,
    PARAMETERID_EnDatEncoderTurns,
    PARAMETERID_CommandSetup,
    PARAMETERID_SerialPort1XonCharacter,
    PARAMETERID_SerialPort1XoffCharacter,
    PARAMETERID_SerialPort1BaudRate,
    PARAMETERID_SerialPort1Setup,
    PARAMETERID_RequiredAxes,
    PARAMETERID_JoystickInput1MinVoltage,
    PARAMETERID_JoystickInput1MaxVoltage,
    PARAMETERID_JoystickInput1Deadband,
    PARAMETERID_JoystickInput0MinVoltage,
    PARAMETERID_JoystickInput0MaxVoltage,
    PARAMETERID_JoystickInput0Deadband,
    PARAMETERID_JoystickLowSpeed,
    PARAMETERID_JoystickHighSpeed,
    PARAMETERID_JoystickSetup
  ]
  const ParameterRun5: seq<int> := [
    PARAMETERID_HomePositionSet,
    PARAMETERID_TaskTerminationAxes,
    PARAMETERID_TaskStopAbortAxes,
    PARAMETERID_CalibrationFile2D,
    PARAMETERID_FaultMaskDisableDelay,
    PARAMETERID_DefaultCoordinatedSpeed,
    PARAMETERID_DefaultCoordinatedRampRate,
    PARAMETERID_DefaultDependentCoordinatedRampRate,
    PARAMETERID_GpibTerminatingCharacter,
    PARAMETERID_GpibPrimaryAddress,
    PARAMETERID_GpibParallelResponse,
    PARAMETERID_CommandTerminatingCharacter,
    PARAMETERID_CommandSuccessCharacter,
    PARAMETERID_CommandInvalidCharacter,
    PARAMETERID_CommandFaultCharacter,
    PARAMETERID_FaultAbortAxes,
    PARAMETERID_HarmonicCancellation0Type,
    PARAMETERID_HarmonicCancellation0Period,
    PARAMETERID_HarmonicCancellation0Gain,
    PARAMETERID_HarmonicCancellation0Phase,
    PARAMETERID_HarmonicCancellation1Type,
    PARAMETERID_HarmonicCancellation1Period,
    PARAMETERID_HarmonicCancellation1Gain,
    PARAMETERID_HarmonicCancellation1Phase,
    PARAMETERID_HarmonicCancellation2Type,
    PARAMETERID_HarmonicCancellation2Period,
    PARAMETERID_HarmonicCancellation2Gain,
    PARAMETERID_HarmonicCancellation2Phase,
    PARAMETERID_CommandTimeout,
    PARAMETERID_CommandTimeoutCharacter,
    PARAMETERID_ResolverReferenceGain,
    PARAMETERID_ResolverSetup,
    PARAMETERID_ResolverReferencePhase,
    PARAMETERID_SoftwareLimitSetup,
    PARAMETERID_SSINet1Setup,
    PARAMETERID_SSINet2Setup,
    PARAMETERID_EmulatedQuadratureDivider,
    PARAMETERID_HarmonicCancellation3Type
  ]
  const ParameterRun6: seq<int> := [
    PARAMETERID_HarmonicCancellation3Period,
    PARAMETERID_HarmonicCancellation3Gain,
    PARAMETERID_HarmonicCancellation3Phase,
    PARAMETERID_HarmonicCancellation4Type,
    PARAMETERID_HarmonicCancellation4Period,
    PARAMETERID_HarmonicCancellation4Gain,
    PARAMETERID_HarmonicCancellation4Phase,
    PARAMETERID_EnhancedThroughputChannel,
    PARAMETERID_EnhancedThroughputGain,
    PARAMETERID_HarmonicCancellationSetup,
    PARAMETERID_EnhancedThroughputCurrentClamp,
    PARAMETERID_Analog0Filter0CoeffN0,
    PARAMETERID_Analog0Filter0CoeffN1,
    PARAMETERID_Analog0Filter0CoeffN2,
    PARAMETERID_Analog0Filter0CoeffD1,
    PARAMETERID_Analog0Filter0CoeffD2,
    PARAMETERID_Analog0Filter1CoeffN0,
    PARAMETERID_Analog0Filter1CoeffN1,
    PARAMETERID_Analog0Filter1CoeffN2,
    PARAMETERID_Analog0Filter1CoeffD1,
    PARAMETERID_Analog0Filter1CoeffD2,
    PARAMETERID_Analog1Filter0CoeffN0,
    PARAMETERID_Analog1Filter0CoeffN1,
    PARAMETERID_Analog1Filter0CoeffN2,
    PARAMETERID_Analog1Filter0CoeffD1,
    PARAMETERID_Analog1Filter0CoeffD2,
    PARAMETERID_Analog1Filter1CoeffN0,
    PARAMETERID_Analog1Filter1CoeffN1,
    PARAMETERID_Analog1Filter1CoeffN2,
    PARAMETERID_Analog1Filter1CoeffD1,
    PARAMETERID_Analog1Filter1CoeffD2,
    PARAMETERID_GlobalStrings,
    PARAMETERID_DefaultCoordinatedRampMode,
    PARAMETERID_DefaultCoordinatedRampTime,
    PARAMETERID_DefaultCoordinatedRampDistance,
    PARAMETERID_DefaultRampMode,
    PARAMETERID_DefaultRampTime,
    PARAMETERID_DefaultRampDistance
  ]
  const ParameterRun7: seq<int> := [
    PARAMETERID_ServoFilterSetup,
    PARAMETERID_FeedbackSetup,
    PARAMETERID_EncoderMultiplierSetup,
    PARAMETERID_FaultSetup,
    PARAMETERID_ThresholdScheduleSetup,
    PARAMETERID_ThresholdRegion2High,
    PARAMETERID_ThresholdRegion2Low,
    PARAMETERID_ThresholdRegion3GainKpos,
    PARAMETERID_ThresholdRegion3GainKp,
    PARAMETERID_ThresholdRegion3GainKi,
    PARAMETERID_ThresholdRegion3GainKpi,
    PARAMETERID_ThresholdRegion4High,
    PARAMETERID_ThresholdRegion4Low,
    PARAMETERID_ThresholdRegion5GainKpos,
    PARAMETERID_ThresholdRegion5GainKp,
    PARAMETERID_ThresholdRegion5GainKi,
    PARAMETERID_ThresholdRegion5GainKpi,
    PARAMETERID_DynamicScheduleSetup,
    PARAMETERID_DynamicGainKposScale,
    PARAMETERID_DynamicGainKpScale,
    PARAMETERID_DynamicGainKiScale,
    PARAMETERID_ServoFilter4CoeffN0,
    PARAMETERID_ServoFilter4CoeffN1,
    PARAMETERID_ServoFilter4CoeffN2,
    PARAMETERID_ServoFilter4CoeffD1,
    PARAMETERID_ServoFilter4CoeffD2,
    PARAMETERID_ServoFilter5CoeffN0,
    PARAMETERID_ServoFilter5CoeffN1,
    PARAMETERID_ServoFilter5CoeffN2,
    PARAMETERID_ServoFilter5CoeffD1,
    PARAMETERID_ServoFilter5CoeffD2,
    PARAMETERID_ServoFilter6CoeffN0,
    PARAMETERID_ServoFilter6CoeffN1,
    PARAMETERID_ServoFilter6CoeffN2,
    PARAMETERID_ServoFilter6CoeffD1,
    PARAMETERID_ServoFilter6CoeffD2,
    PARAMETERID_ServoFilter7CoeffN0,
    PARAMETERID_ServoFilter7CoeffN1
  ]
  const ParameterRun8: seq<int> := [
    PARAMETERID_ServoFilter7CoeffN2,
    PARAMETERID_ServoFilter7CoeffD1,
    PARAMETERID_ServoFilter7CoeffD2,
    PARAMETERID_LinearAmpMaxPower,
    PARAMETERID_LinearAmpDeratingFactor,
    PARAMETERID_LinearAmpBusVoltage,
    PARAMETERID_MotorResistance,
    PARAMETERID_MotorBackEMFConstant,
    PARAMETERID_GantrySetup,
    PARAMETERID_RolloverMode,
    PARAMETERID_ResolverCoarseChannel,
    PARAMETERID_ResolverFeedbackRatio,
    PARAMETERID_ResolverFeedbackOffset,
    PARAMETERID_InPositionTime,
    PARAMETERID_ExternalFaultAnalogInput,
    PARAMETERID_ExternalFaultThreshold,
    PARAMETERID_DisplayAxes,
    PARAMETERID_DefaultDependentCoordinatedSpeed,
    PARAMETERID_AnalogFilterSetup,
    PARAMETERID_ModbusMasterSlaveIPAddress,
    PARAMETERID_ModbusMasterSlavePort,
    PARAMETERID_ModbusMasterSlaveID,
    PARAMETERID_ModbusMasterInputWords,
    PARAMETERID_ModbusMasterOutputWords,
    PARAMETERID_ModbusMasterInputBits,
    PARAMETERID_ModbusMasterOutputBits,
    PARAMETERID_ModbusMasterSetup,
    PARAMETERID_ModbusMasterVirtualInputs,
    PARAMETERID_ModbusMasterVirtualOutputs,
    PARAMETERID_ModbusMasterOutputWordsSections,
    PARAMETERID_ModbusMasterOutputBitsSections,
    PARAMETERID_ModbusMasterRWReadOffset,
    PARAMETERID_ModbusMasterInputWordsOffset,
    PARAMETERID_ModbusMasterOutputWordsOffset,
    PARAMETERID_ModbusMasterInputBitsOffset,
    PARAMETERID_ModbusMasterOutputBitsOffset,
    PARAMETERID_ModbusMasterStatusWordsOffset,
    PARAMETERID_ModbusMasterStatusBitsOffset
  ]
  const ParameterRun9: seq<int> := [
    PARAMETERID_ModbusMasterVirtualInputsOffset,
    PARAMETERID_ModbusMasterVirtualOutputsOffset,
    PARAMETERID_ModbusMasterRWWriteOffset,
    PARAMETERID_ModbusMasterFunctions,
    PARAMETERID_ModbusMasterSlaveType,
    PARAMETERID_ModbusSlaveUnitID,
    PARAMETERID_ModbusSlaveInputWords,
    PARAMETERID_ModbusSlaveOutputWords,
    PARAMETERID_ModbusSlaveInputBits,
    PARAMETERID_ModbusSlaveOutputBits,
    PARAMETERID_ModbusSlaveInputWordsOffset,
    PARAMETERID_ModbusSlaveOutputWordsOffset,
    PARAMETERID_ModbusSlaveInputBitsOffset,
    PARAMETERID_ModbusSlaveOutputBitsOffset,
    PARAMETERID_ModbusSlaveRWReadOffset,
    PARAMETERID_ModbusSlaveRWWriteOffset,
    PARAMETERID_CurrentOffsetA,
    PARAMETERID_CurrentOffsetB,
    PARAMETERID_CommandShaperSetup,
    PARAMETERID_CommandShaperTime00,
    PARAMETERID_CommandShaperTime01,
    PARAMETERID_CommandShaperTime02,
    PARAMETERID_CommandShaperTime03,
    PARAMETERID_CommandShaperTime04,
    PARAMETERID_CommandShaperTime05,
    PARAMETERID_CommandShaperTime06,
    PARAMETERID_CommandShaperTime07,
    PARAMETERID_CommandShaperTime08,
    PARAMETERID_CommandShaperTime09,
    PARAMETERID_CommandShaperTime10,
    PARAMETERID_CommandShaperTime11,
    PARAMETERID_CommandShaperTime12,
    PARAMETERID_CommandShaperTime13,
    PARAMETERID_CommandShaperTime14,
    PARAMETERID_CommandShaperTime15,
    PARAMETERID_CommandShaperCoeff00,
    PARAMETERID_CommandShaperCoeff01,
    PARAMETERID_CommandShaperCoeff02
  ]
  const ParameterRun10: seq<int> := [
    PARAMETERID_CommandShaperCoeff03,
    PARAMETERID_CommandShaperCoeff04,
    PARAMETERID_CommandShaperCoeff05,
    PARAMETERID_CommandShaperCoeff06,
    PARAMETERID_CommandShaperCoeff07,
    PARAMETERID_CommandShaperCoeff08,
    PARAMETERID_CommandShaperCoeff09,
    PARAMETERID_CommandShaperCoeff10,
    PARAMETERID_CommandShaperCoeff11,
    PARAMETERID_CommandShaperCoeff12,
    PARAMETERID_CommandShaperCoeff13,
    PARAMETERID_CommandShaperCoeff14,
    PARAMETERID_CommandShaperCoeff15,
    PARAMETERID_CommandShaper0Type,
    PARAMETERID_CommandShaper0Frequency,
    PARAMETERID_CommandShaper0Damping,
    PARAMETERID_CommandShaper1Type,
    PARAMETERID_CommandShaper1Frequency,
    PARAMETERID_CommandShaper1Damping,
    PARAMETERID_ResoluteEncoderSetup,
    PARAMETERID_ResoluteEncoderResolution,
    PARAMETERID_ResoluteEncoderUserResolution,
    PARAMETERID_AutofocusInput,
    PARAMETERID_AutofocusTarget,
    PARAMETERID_AutofocusDeadband,
    PARAMETERID_AutofocusGainKi,
    PARAMETERID_AutofocusGainKp,
    PARAMETERID_AutofocusLimitLow,
    PARAMETERID_AutofocusLimitHigh,
    PARAMETERID_AutofocusSpeedClamp,
    PARAMETERID_AutofocusHoldInput,
    PARAMETERID_AutofocusSetup,
    PARAMETERID_ExternalSyncFrequency,
    PARAMETERID_GainPff,
    PARAMETERID_AutofocusInitialRampTime
  ]

  /** The identifiers in header order. */
  const ParameterIds: seq<int> := ParameterRun1 + ParameterRun2 + ParameterRun3 + ParameterRun4 + ParameterRun5 + ParameterRun6 + ParameterRun7 + ParameterRun8 + ParameterRun9 + ParameterRun10

  lemma ParameterRun1Ascends()
    ensures Ascending(ParameterRun1)
  {
  }

  lemma ParameterRun2Ascends()
    ensures Ascending(ParameterRun2)
  {
  }

  lemma ParameterRun3Ascends()
    ensures Ascending(ParameterRun3)
  {
  }

  lemma ParameterRun4Ascends()
    ensures Ascending(ParameterRun4)
  {
  }

  lemma ParameterRun5Ascends()
    ensures Ascending(ParameterRun5)
  {
  }

  lemma ParameterRun6Ascends()
    ensures Ascending(ParameterRun6)
  {
  }

  lemma ParameterRun7Ascends()
    ensures Ascending(ParameterRun7)
  {
  }

  lemma ParameterRun8Ascends()
    ensures Ascending(ParameterRun8)
  {
  }

  lemma ParameterRun9Ascends()
    ensures Ascending(ParameterRun9)
  {
  }

  lemma ParameterRun10Ascends()
    ensures Ascending(ParameterRun10)
  {
  }

  /** The runs join into one strictly rising table. */
  lemma ParameterIdsAscend()
    ensures |ParameterIds| == 377 && Ascending(ParameterIds)
    ensures ParameterIds[0] == Pack(0, 0) && ParameterIds[376] == Pack(0, 763)
  {
    ParameterRun1Ascends();
    ParameterRun2Ascends();
    ParameterRun3Ascends();
    ParameterRun4Ascends();
    ParameterRun5Ascends();
    ParameterRun6Ascends();
    ParameterRun7Ascends();
    ParameterRun8Ascends();
    ParameterRun9Ascends();
    ParameterRun10Ascends();
    AscendingJoin(ParameterRun1, ParameterRun2);
    var t1 := ParameterRun1 + ParameterRun2;
    AscendingJoin(t1, ParameterRun3);
    var t2 := t1 + ParameterRun3;
    AscendingJoin(t2, ParameterRun4);
    var t3 := t2 + ParameterRun4;
    AscendingJoin(t3, ParameterRun5);
    var t4 := t3 + ParameterRun5;
    AscendingJoin(t4, ParameterRun6);
    var t5 := t4 + ParameterRun6;
    AscendingJoin(t5, ParameterRun7);
    var t6 := t5 + ParameterRun7;
    AscendingJoin(t6, ParameterRun8);
    var t7 := t6 + ParameterRun8;
    AscendingJoin(t7, ParameterRun9);
    var t8 := t7 + ParameterRun9;
    AscendingJoin(t8, ParameterRun10);
  }

  /**
   * The parameter identifiers rise strictly from Pack(0, 0) to
   * Pack(0, 763), so no two share a value, and each decodes to category 0.
   */
  lemma ParameterIdsLayout()
    ensures |ParameterIds| == 377 && Ascending(ParameterIds) && Distinct(ParameterIds)
    ensures forall k :: 0 <= k < |ParameterIds| ==> Pack(0, 0) <= ParameterIds[k] <= Pack(0, 763)
    ensures forall k :: 0 <= k < |ParameterIds| ==> Category(ParameterIds[k]) == 0 && 0 <= Index(ParameterIds[k]) <= 763
  {
    ParameterIdsAscend();
    MonotoneDistinct(ParameterIds);
    InCategory(ParameterIds, 0, 0, 763);
  }

  /** Every identifier is in category 0 and so equals its own index, the largest being 763. */
  lemma ParameterIdsAreIndices()
    ensures forall k :: 0 <= k < |ParameterIds| ==> 0 <= ParameterIds[k] && Category(ParameterIds[k]) == 0 && Index(ParameterIds[k]) == ParameterIds[k] <= 763
  {
    ParameterIdsLayout();
  }

  /**
   * DefaultWaitMode is (0 << 24) | 79 here and (1 << 24) | 0 in the A3200
   * table: an identifier means something only within its own table.
   */
  lemma DefaultWaitModeDiffers()
    ensures Category(PARAMETERID_DefaultWaitMode) == 0 && Index(PARAMETERID_DefaultWaitMode) == 79
    ensures Category(A3200ParameterIds.PARAMETERID_DefaultWaitMode) == 1
    ensures Index(A3200ParameterIds.PARAMETERID_DefaultWaitMode) == 0
    ensures PARAMETERID_DefaultWaitMode != A3200ParameterIds.PARAMETERID_DefaultWaitMode
  {
    UnpackPack(0, 79);
    UnpackPack(1, 0);
  }
}
