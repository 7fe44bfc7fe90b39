/**
 * The PI GCS2 error codes: the constants of the controller error header,
 * grouped as the header groups them, and TranslatePIError, which turns a
 * code into its message text when the text fits the caller's buffer.
 */
module PiErrors {
  import opened CSemantics
  import opened Decimal
  import opened CodeTables

  // DLL errors: raised by the GCS library itself (picontrollererrors.h, lines 20-265).

  const PI_UNKNOWN_AXIS_IDENTIFIER: int := -1001
  const PI_NR_NAV_OUT_OF_RANGE: int := -1002
  const PI_INVALID_SGA: int := -1003
  const PI_UNEXPECTED_RESPONSE: int := -1004
  const PI_NO_MANUAL_PAD: int := -1005
  const PI_INVALID_MANUAL_PAD_KNOB: int := -1006
  const PI_INVALID_MANUAL_PAD_AXIS: int := -1007
  const PI_CONTROLLER_BUSY: int := -1008
  const PI_THREAD_ERROR: int := -1009
  const PI_IN_MACRO_MODE: int := -1010
  const PI_NOT_IN_MACRO_MODE: int := -1011
  const PI_MACRO_FILE_ERROR: int := -1012
  const PI_NO_MACRO_OR_EMPTY: int := -1013
  const PI_MACRO_EDITOR_ERROR: int := -1014
  const PI_INVALID_ARGUMENT: int := -1015
  const PI_AXIS_ALREADY_EXISTS: int := -1016
  const PI_INVALID_AXIS_IDENTIFIER: int := -1017
  const PI_COM_ARRAY_ERROR: int := -1018
  const PI_COM_ARRAY_RANGE_ERROR: int := -1019
  const PI_INVALID_SPA_CMD_ID: int := -1020
  const PI_NR_AVG_OUT_OF_RANGE: int := -1021
  const PI_WAV_SAMPLES_OUT_OF_RANGE: int := -1022
  const PI_WAV_FAILED: int := -1023
  const PI_MOTION_ERROR: int := -1024
  const PI_RUNNING_MACRO: int := -1025
  const PI_PZT_CONFIG_FAILED: int := -1026
  const PI_PZT_CONFIG_INVALID_PARAMS: int := -1027
  const PI_UNKNOWN_CHANNEL_IDENTIFIER: int := -1028
  const PI_WAVE_PARAM_FILE_ERROR: int := -1029
  const PI_UNKNOWN_WAVE_SET: int := -1030
  const PI_WAVE_EDITOR_FUNC_NOT_LOADED: int := -1031
  const PI_USER_CANCELLED: int := -1032
  const PI_C844_ERROR: int := -1033
  const PI_DLL_NOT_LOADED: int := -1034
  const PI_PARAMETER_FILE_PROTECTED: int := -1035
  const PI_NO_PARAMETER_FILE_OPENED: int := -1036
  const PI_STAGE_DOES_NOT_EXIST: int := -1037
  const PI_PARAMETER_FILE_ALREADY_OPENED: int := -1038
  const PI_PARAMETER_FILE_OPEN_ERROR: int := -1039
  const PI_INVALID_CONTROLLER_VERSION: int := -1040
  const PI_PARAM_SET_ERROR: int := -1041
  const PI_NUMBER_OF_POSSIBLE_WAVES_EXCEEDED: int := -1042
  const PI_NUMBER_OF_POSSIBLE_GENERATORS_EXCEEDED: int := -1043
  const PI_NO_WAVE_FOR_AXIS_DEFINED: int := -1044
  const PI_CANT_STOP_OR_START_WAV: int := -1045
  const PI_REFERENCE_ERROR: int := -1046
  const PI_REQUIRED_WAVE_NOT_FOUND: int := -1047
  const PI_INVALID_SPP_CMD_ID: int := -1048
  const PI_STAGE_NAME_ISNT_UNIQUE: int := -1049
  const PI_FILE_TRANSFER_BEGIN_MISSING: int := -1050
  const PI_FILE_TRANSFER_ERROR_TEMP_FILE: int := -1051
  const PI_FILE_TRANSFER_CRC_ERROR: int := -1052
  const PI_COULDNT_FIND_PISTAGES_DAT: int := -1053
  const PI_NO_WAVE_RUNNING: int := -1054
  const PI_INVALID_PASSWORD: int := -1055
  const PI_OPM_COM_ERROR: int := -1056
  const PI_WAVE_EDITOR_WRONG_PARAMNUM: int := -1057
  const PI_WAVE_EDITOR_FREQUENCY_OUT_OF_RANGE: int := -1058
  const PI_WAVE_EDITOR_WRONG_IP_VALUE: int := -1059
  const PI_WAVE_EDITOR_WRONG_DP_VALUE: int := -1060
  const PI_WAVE_EDITOR_WRONG_ITEM_VALUE: int := -1061
  const PI_WAVE_EDITOR_MISSING_GRAPH_COMPONENT: int := -1062
  const PI_EXT_PROFILE_UNALLOWED_CMD: int := -1063
  const PI_EXT_PROFILE_EXPECTING_MOTION_ERROR: int := -1064
  const PI_EXT_PROFILE_ACTIVE: int := -1065
  const PI_EXT_PROFILE_INDEX_OUT_OF_RANGE: int := -1066
  const PI_PROFILE_GENERATOR_NO_PROFILE: int := -1067
  const PI_PROFILE_GENERATOR_OUT_OF_LIMITS: int := -1068
  const PI_PROFILE_GENERATOR_UNKNOWN_PARAMETER: int := -1069
  const PI_PROFILE_GENERATOR_PAR_OUT_OF_RANGE: int := -1070
  const PI_EXT_PROFILE_OUT_OF_MEMORY: int := -1071
  const PI_EXT_PROFILE_WRONG_CLUSTER: int := -1072
  const PI_EXT_PROFILE_UNKNOWN_CLUSTER_IDENTIFIER: int := -1073
  const PI_INVALID_DEVICE_DRIVER_VERSION: int := -1074
  const PI_INVALID_LIBRARY_VERSION: int := -1075
  const PI_INTERFACE_LOCKED: int := -1076
  const PI_PARAM_DAT_FILE_INVALID_VERSION: int := -1077
  const PI_CANNOT_WRITE_TO_PARAM_DAT_FILE: int := -1078
  const PI_CANNOT_CREATE_PARAM_DAT_FILE: int := -1079
  const PI_PARAM_DAT_FILE_INVALID_REVISION: int := -1080
  const PI_USERSTAGES_DAT_FILE_INVALID_REVISION: int := -1081
  const PI_SOFTWARE_TIMEOUT: int := -1082

  /**
   * The DLL error codes in header order. Each group's table is written as
   * runs of at most forty names, so that facts about one run are proved
   * apart from the others.
   */
  const DllErrors: seq<int> := DllRun1 + DllRun2 + DllRun3

  const DllRun1: seq<int> := [
    PI_UNKNOWN_AXIS_IDENTIFIER, PI_NR_NAV_OUT_OF_RANGE, PI_INVALID_SGA, PI_UNEXPECTED_RESPONSE,
    PI_NO_MANUAL_PAD, PI_INVALID_MANUAL_PAD_KNOB, PI_INVALID_MANUAL_PAD_AXIS, PI_CONTROLLER_BUSY,
    PI_THREAD_ERROR, PI_IN_MACRO_MODE, PI_NOT_IN_MACRO_MODE, PI_MACRO_FILE_ERROR,
    PI_NO_MACRO_OR_EMPTY, PI_MACRO_EDITOR_ERROR, PI_INVALID_ARGUMENT, PI_AXIS_ALREADY_EXISTS,
    PI_INVALID_AXIS_IDENTIFIER, PI_COM_ARRAY_ERROR, PI_COM_ARRAY_RANGE_ERROR,
    PI_INVALID_SPA_CMD_ID, PI_NR_AVG_OUT_OF_RANGE, PI_WAV_SAMPLES_OUT_OF_RANGE, PI_WAV_FAILED,
    PI_MOTION_ERROR, PI_RUNNING_MACRO, PI_PZT_CONFIG_FAILED, PI_PZT_CONFIG_INVALID_PARAMS,
    PI_UNKNOWN_CHANNEL_IDENTIFIER, PI_WAVE_PARAM_FILE_ERROR, PI_UNKNOWN_WAVE_SET,
    PI_WAVE_EDITOR_FUNC_NOT_LOADED, PI_USER_CANCELLED, PI_C844_ERROR, PI_DLL_NOT_LOADED,
    PI_PARAMETER_FILE_PROTECTED, PI_NO_PARAMETER_FILE_OPENED, PI_STAGE_DOES_NOT_EXIST,
    PI_PARAMETER_FILE_ALREADY_OPENED, PI_PARAMETER_FILE_OPEN_ERROR, PI_INVALID_CONTROLLER_VERSION
  ]

  const DllRun2: seq<int> := [
    PI_PARAM_SET_ERROR, PI_NUMBER_OF_POSSIBLE_WAVES_EXCEEDED,
    PI_NUMBER_OF_POSSIBLE_GENERATORS_EXCEEDED, PI_NO_WAVE_FOR_AXIS_DEFINED,
    PI_CANT_STOP_OR_START_WAV, PI_REFERENCE_ERROR, PI_REQUIRED_WAVE_NOT_FOUND,
    PI_INVALID_SPP_CMD_ID, PI_STAGE_NAME_ISNT_UNIQUE, PI_FILE_TRANSFER_BEGIN_MISSING,
    PI_FILE_TRANSFER_ERROR_TEMP_FILE, PI_FILE_TRANSFER_CRC_ERROR, PI_COULDNT_FIND_PISTAGES_DAT,
    PI_NO_WAVE_RUNNING, PI_INVALID_PASSWORD, PI_OPM_COM_ERROR, PI_WAVE_EDITOR_WRONG_PARAMNUM,
    PI_WAVE_EDITOR_FREQUENCY_OUT_OF_RANGE, PI_WAVE_EDITOR_WRONG_IP_VALUE,
    PI_WAVE_EDITOR_WRONG_DP_VALUE, PI_WAVE_EDITOR_WRONG_ITEM_VALUE,
    PI_WAVE_EDITOR_MISSING_GRAPH_COMPONENT, PI_EXT_PROFILE_UNALLOWED_CMD,
    PI_EXT_PROFILE_EXPECTING_MOTION_ERROR, PI_EXT_PROFILE_ACTIVE,
    PI_EXT_PROFILE_INDEX_OUT_OF_RANGE, PI_PROFILE_GENERATOR_NO_PROFILE,
    PI_PROFILE_GENERATOR_OUT_OF_LIMITS, PI_PROFILE_GENERATOR_UNKNOWN_PARAMETER,
    PI_PROFILE_GENERATOR_PAR_OUT_OF_RANGE, PI_EXT_PROFILE_OUT_OF_MEMORY,
    PI_EXT_PROFILE_WRONG_CLUSTER, PI_EXT_PROFILE_UNKNOWN_CLUSTER_IDENTIFIER,
    PI_INVALID_DEVICE_DRIVER_VERSION, PI_INVALID_LIBRARY_VERSION, PI_INTERFACE_LOCKED,
    PI_PARAM_DAT_FILE_INVALID_VERSION, PI_CANNOT_WRITE_TO_PARAM_DAT_FILE,
    PI_CANNOT_CREATE_PARAM_DAT_FILE, PI_PARAM_DAT_FILE_INVALID_REVISION
  ]

  const DllRun3: seq<int> := [
    PI_USERSTAGES_DAT_FILE_INVALID_REVISION, PI_SOFTWARE_TIMEOUT
  ]

  // Controller errors: reported by the controller firmware (lines 274-867).

  const PI_CNTR_NO_ERROR: int := 0
  const PI_CNTR_PARAM_SYNTAX: int := 1
  const PI_CNTR_UNKNOWN_COMMAND: int := 2
  const PI_CNTR_COMMAND_TOO_LONG: int := 3
  const PI_CNTR_SCAN_ERROR: int := 4
  const PI_CNTR_MOVE_WITHOUT_REF_OR_NO_SERVO: int := 5
  const PI_CNTR_INVALID_SGA_PARAM: int := 6
  const PI_CNTR_POS_OUT_OF_LIMITS: int := 7
  const PI_CNTR_VEL_OUT_OF_LIMITS: int := 8
  const PI_CNTR_SET_PIVOT_NOT_POSSIBLE: int := 9
  const PI_CNTR_STOP: int := 10
  const PI_CNTR_SST_OR_SCAN_RANGE: int := 11
  const PI_CNTR_INVALID_SCAN_AXES: int := 12
  const PI_CNTR_INVALID_NAV_PARAM: int := 13
  const PI_CNTR_INVALID_ANALOG_INPUT: int := 14
  const PI_CNTR_INVALID_AXIS_IDENTIFIER: int := 15
  const PI_CNTR_INVALID_STAGE_NAME: int := 16
  const PI_CNTR_PARAM_OUT_OF_RANGE: int := 17
  const PI_CNTR_INVALID_MACRO_NAME: int := 18
  const PI_CNTR_MACRO_RECORD: int := 19
  const PI_CNTR_MACRO_NOT_FOUND: int := 20
  const PI_CNTR_AXIS_HAS_NO_BRAKE: int := 21
  const PI_CNTR_DOUBLE_AXIS: int := 22
  const PI_CNTR_ILLEGAL_AXIS: int := 23
  const PI_CNTR_PARAM_NR: int := 24
  const PI_CNTR_INVALID_REAL_NR: int := 25
  const PI_CNTR_MISSING_PARAM: int := 26
  const PI_CNTR_SOFT_LIMIT_OUT_OF_RANGE: int := 27
  const PI_CNTR_NO_MANUAL_PAD: int := 28
  const PI_CNTR_NO_JUMP: int := 29
  const PI_CNTR_INVALID_JUMP: int := 30
  const PI_CNTR_AXIS_HAS_NO_REFERENCE: int := 31
  const PI_CNTR_STAGE_HAS_NO_LIM_SWITCH: int := 32
  const PI_CNTR_NO_RELAY_CARD: int := 33
  const PI_CNTR_CMD_NOT_ALLOWED_FOR_STAGE: int := 34
  const PI_CNTR_NO_DIGITAL_INPUT: int := 35
  const PI_CNTR_NO_DIGITAL_OUTPUT: int := 36
  const PI_CNTR_NO_MCM: int := 37
  const PI_CNTR_INVALID_MCM: int := 38
  const PI_CNTR_INVALID_CNTR_NUMBER: int := 39
  const PI_CNTR_NO_JOYSTICK_CONNECTED: int := 40
  const PI_CNTR_INVALID_EGE_AXIS: int := 41
  const PI_CNTR_SLAVE_POSITION_OUT_OF_RANGE: int := 42
  const PI_CNTR_COMMAND_EGE_SLAVE: int := 43
  const PI_CNTR_JOYSTICK_CALIBRATION_FAILED: int := 44
  const PI_CNTR_REFERENCING_FAILED: int := 45
  const PI_CNTR_OPM_MISSING: int := 46
  const PI_CNTR_OPM_NOT_INITIALIZED: int := 47
  const PI_CNTR_OPM_COM_ERROR: int := 48
  const PI_CNTR_MOVE_TO_LIMIT_SWITCH_FAILED: int := 49
  const PI_CNTR_REF_WITH_REF_DISABLED: int := 50
  const PI_CNTR_AXIS_UNDER_JOYSTICK_CONTROL: int := 51
  const PI_CNTR_COMMUNICATION_ERROR: int := 52
  const PI_CNTR_DYNAMIC_MOVE_IN_PROCESS: int := 53
  const PI_CNTR_UNKNOWN_PARAMETER: int := 54
  const PI_CNTR_NO_REP_RECORDED: int := 55
  const PI_CNTR_INVALID_PASSWORD: int := 56
  const PI_CNTR_INVALID_RECORDER_CHAN: int := 57
  const PI_CNTR_INVALID_RECORDER_SRC_OPT: int := 58
  const PI_CNTR_INVALID_RECORDER_SRC_CHAN: int := 59
  const PI_CNTR_PARAM_PROTECTION: int := 60
  const PI_CNTR_AUTOZERO_RUNNING: int := 61
  const PI_CNTR_NO_LINEAR_AXIS: int := 62
  const PI_CNTR_INIT_RUNNING: int := 63
  const PI_CNTR_READ_ONLY_PARAMETER: int := 64
  const PI_CNTR_PAM_NOT_FOUND: int := 65
  const PI_CNTR_VOL_OUT_OF_LIMITS: int := 66
  const PI_CNTR_WAVE_TOO_LARGE: int := 67
  const PI_CNTR_NOT_ENOUGH_DDL_MEMORY: int := 68
  const PI_CNTR_DDL_TIME_DELAY_TOO_LARGE: int := 69
  const PI_CNTR_DIFFERENT_ARRAY_LENGTH: int := 70
  const PI_CNTR_GEN_SINGLE_MODE_RESTART: int := 71
  const PI_CNTR_ANALOG_TARGET_ACTIVE: int := 72
  const PI_CNTR_WAVE_GENERATOR_ACTIVE: int := 73
  const PI_CNTR_AUTOZERO_DISABLED: int := 74
  const PI_CNTR_NO_WAVE_SELECTED: int := 75
  const PI_CNTR_IF_BUFFER_OVERRUN: int := 76
  const PI_CNTR_NOT_ENOUGH_RECORDED_DATA: int := 77
  const PI_CNTR_TABLE_DEACTIVATED: int := 78
  const PI_CNTR_OPENLOOP_VALUE_SET_WHEN_SERVO_ON: int := 79
  const PI_CNTR_RAM_ERROR: int := 80
  const PI_CNTR_MACRO_UNKNOWN_COMMAND: int := 81
  const PI_CNTR_MACRO_PC_ERROR: int := 82
  const PI_CNTR_JOYSTICK_ACTIVE: int := 83
  const PI_CNTR_MOTOR_IS_OFF: int := 84
  const PI_CNTR_ONLY_IN_MACRO: int := 85
  const PI_CNTR_JOYSTICK_UNKNOWN_AXIS: int := 86
  const PI_CNTR_JOYSTICK_UNKNOWN_ID: int := 87
  const PI_CNTR_REF_MODE_IS_ON: int := 88
  const PI_CNTR_NOT_ALLOWED_IN_CURRENT_MOTION_MODE: int := 89
  const PI_CNTR_DIO_AND_TRACING_NOT_POSSIBLE: int := 90
  const PI_CNTR_COLLISION: int := 91
  const PI_CNTR_SLAVE_NOT_FAST_ENOUGH: int := 92
  const PI_CNTR_CMD_NOT_ALLOWED_WHILE_AXIS_IN_MOTION: int := 93
  const PI_CNTR_OPEN_LOOP_JOYSTICK_ENABLED: int := 94
  const PI_CNTR_INVALID_SERVO_STATE_FOR_PARAMETER: int := 95
  const PI_CNTR_UNKNOWN_STAGE_NAME: int := 96
  const PI_LABVIEW_ERROR: int := 100
  const PI_CNTR_NO_AXIS: int := 200
  const PI_CNTR_NO_AXIS_PARAM_FILE: int := 201
  const PI_CNTR_INVALID_AXIS_PARAM_FILE: int := 202
  const PI_CNTR_NO_AXIS_PARAM_BACKUP: int := 203
  const PI_CNTR_RESERVED_204: int := 204
  const PI_CNTR_SMO_WITH_SERVO_ON: int := 205
  const PI_CNTR_UUDECODE_INCOMPLETE_HEADER: int := 206
  const PI_CNTR_UUDECODE_NOTHING_TO_DECODE: int := 207
  const PI_CNTR_UUDECODE_ILLEGAL_FORMAT: int := 208
  const PI_CNTR_CRC32_ERROR: int := 209
  const PI_CNTR_ILLEGAL_FILENAME: int := 210
  const PI_CNTR_FILE_NOT_FOUND: int := 211
  const PI_CNTR_FILE_WRITE_ERROR: int := 212
  const PI_CNTR_DTR_HINDERS_VELOCITY_CHANGE: int := 213
  const PI_CNTR_POSITION_UNKNOWN: int := 214
  const PI_CNTR_CONN_POSSIBLY_BROKEN: int := 215
  const PI_CNTR_ON_LIMIT_SWITCH: int := 216
  const PI_CNTR_UNEXPECTED_STRUT_STOP: int := 217
  const PI_CNTR_POSITION_BASED_ON_ESTIMATION: int := 218
  const PI_CNTR_POSITION_BASED_ON_INTERPOLATION: int := 219
  const PI_CNTR_INVALID_HANDLE: int := 230
  const PI_CNTR_NO_BIOS_FOUND: int := 231
  const PI_CNTR_SAVE_SYS_CFG_FAILED: int := 232
  const PI_CNTR_LOAD_SYS_CFG_FAILED: int := 233
  const PI_CNTR_SEND_BUFFER_OVERFLOW: int := 301
  const PI_CNTR_VOLTAGE_OUT_OF_LIMITS: int := 302
  const PI_CNTR_OPEN_LOOP_MOTION_SET_WHEN_SERVO_ON: int := 303
  const PI_CNTR_RECEIVING_BUFFER_OVERFLOW: int := 304
  const PI_CNTR_EEPROM_ERROR: int := 305
  const PI_CNTR_I2C_ERROR: int := 306
  const PI_CNTR_RECEIVING_TIMEOUT: int := 307
  const PI_CNTR_TIMEOUT: int := 308
  const PI_CNTR_MACRO_OUT_OF_SPACE: int := 309
  const PI_CNTR_EUI_OLDVERSION_CFGDATA: int := 310
  const PI_CNTR_EUI_INVALID_CFGDATA: int := 311
  const PI_CNTR_HARDWARE_ERROR: int := 333
  const PI_CNTR_WAV_INDEX_ERROR: int := 400
  const PI_CNTR_WAV_NOT_DEFINED: int := 401
  const PI_CNTR_WAV_TYPE_NOT_SUPPORTED: int := 402
  const PI_CNTR_WAV_LENGTH_EXCEEDS_LIMIT: int := 403
  const PI_CNTR_WAV_PARAMETER_NR: int := 404
  const PI_CNTR_WAV_PARAMETER_OUT_OF_LIMIT: int := 405
  const PI_CNTR_WGO_BIT_NOT_SUPPORTED: int := 406
  const PI_CNTR_EMERGENCY_STOP_BUTTON_ACTIVATED: int := 500
  const PI_CNTR_EMERGENCY_STOP_BUTTON_WAS_ACTIVATED: int := 501
  const PI_CNTR_REDUNDANCY_LIMIT_EXCEEDED: int := 502
  const PI_CNTR_COLLISION_SWITCH_ACTIVATED: int := 503
  const PI_CNTR_FOLLOWING_ERROR: int := 504
  const PI_CNTR_SENSOR_SIGNAL_INVALID: int := 505
  const PI_CNTR_SERVO_LOOP_UNSTABLE: int := 506
  const PI_CNTR_UNKNOWN_ERROR: int := 555
  const PI_CNTR_NOT_ENOUGH_MEMORY: int := 601
  const PI_CNTR_HW_VOLTAGE_ERROR: int := 602
  const PI_CNTR_HW_TEMPERATURE_ERROR: int := 603
  const PI_CNTR_POSITION_ERROR_TOO_HIGH: int := 604
  const PI_CNTR_INPUT_OUT_OF_RANGE: int := 606
  const PI_CNTR_TOO_MANY_NESTED_MACROS: int := 1000
  const PI_CNTR_MACRO_ALREADY_DEFINED: int := 1001
  const PI_CNTR_NO_MACRO_RECORDING: int := 1002
  const PI_CNTR_INVALID_MAC_PARAM: int := 1003
  const PI_CNTR_MACRO_DELETE_ERROR: int := 1004
  const PI_CNTR_CONTROLLER_BUSY: int := 1005
  const PI_CNTR_INVALID_IDENTIFIER: int := 1006
  const PI_CNTR_UNKNOWN_VARIABLE_OR_ARGUMENT: int := 1007
  const PI_CNTR_RUNNING_MACRO: int := 1008
  const PI_CNTR_MACRO_INVALID_OPERATOR: int := 1009
  const PI_CNTR_MACRO_NO_ANSWER: int := 1010
  const PI_CMD_NOT_VALID_IN_MACRO_MODE: int := 1011
  const PI_CNTR_MOTION_ERROR: int := 1024
  const PI_CNTR_EXT_PROFILE_UNALLOWED_CMD: int := 1063
  const PI_CNTR_EXT_PROFILE_EXPECTING_MOTION_ERROR: int := 1064
  const PI_CNTR_PROFILE_ACTIVE: int := 1065
  const PI_CNTR_PROFILE_INDEX_OUT_OF_RANGE: int := 1066
  const PI_CNTR_PROFILE_OUT_OF_MEMORY: int := 1071
  const PI_CNTR_PROFILE_WRONG_CLUSTER: int := 1072
  const PI_CNTR_PROFILE_UNKNOWN_CLUSTER_IDENTIFIER: int := 1073
  const PI_CNTR_ALREADY_HAS_SERIAL_NUMBER: int := 2000
  const PI_CNTR_SECTOR_ERASE_FAILED: int := 4000
  const PI_CNTR_FLASH_PROGRAM_FAILED: int := 4001
  const PI_CNTR_FLASH_READ_FAILED: int := 4002
  const PI_CNTR_HW_MATCHCODE_ERROR: int := 4003
  const PI_CNTR_FW_MATCHCODE_ERROR: int := 4004
  const PI_CNTR_HW_VERSION_ERROR: int := 4005
  const PI_CNTR_FW_VERSION_ERROR: int := 4006
  const PI_CNTR_FW_UPDATE_ERROR: int := 4007
  const PI_CNTR_FW_CRC_PAR_ERROR: int := 4008
  const PI_CNTR_FW_CRC_FW_ERROR: int := 4009
  const PI_CNTR_INVALID_PCC_SCAN_DATA: int := 5000
  const PI_CNTR_PCC_SCAN_RUNNING: int := 5001
  const PI_CNTR_INVALID_PCC_AXIS: int := 5002
  const PI_CNTR_PCC_SCAN_OUT_OF_RANGE: int := 5003
  const PI_CNTR_PCC_TYPE_NOT_EXISTING: int := 5004
  const PI_CNTR_PCC_PAM_ERROR: int := 5005
  const PI_CNTR_PCC_TABLE_ARRAY_TOO_LARGE: int := 5006
  const PI_CNTR_NEXLINE_ERROR: int := 5100
  const PI_CNTR_CHANNEL_ALREADY_USED: int := 5101
  const PI_CNTR_NEXLINE_TABLE_TOO_SMALL: int := 5102
  const PI_CNTR_RNP_WITH_SERVO_ON: int := 5103
  const PI_CNTR_RNP_NEEDED: int := 5104
  const PI_CNTR_AXIS_NOT_CONFIGURED: int := 5200

  /** The controller error codes in header order. */
  const ControllerErrors: seq<int> := ControllerRun1 + ControllerRun2 + ControllerRun3 + ControllerRun4 + ControllerRun5

  const ControllerRun1: seq<int> := [
    PI_CNTR_NO_ERROR, PI_CNTR_PARAM_SYNTAX, PI_CNTR_UNKNOWN_COMMAND, PI_CNTR_COMMAND_TOO_LONG,
    PI_CNTR_SCAN_ERROR, PI_CNTR_MOVE_WITHOUT_REF_OR_NO_SERVO, PI_CNTR_INVALID_SGA_PARAM,
    PI_CNTR_POS_OUT_OF_LIMITS, PI_CNTR_VEL_OUT_OF_LIMITS, PI_CNTR_SET_PIVOT_NOT_POSSIBLE,
    PI_CNTR_STOP, PI_CNTR_SST_OR_SCAN_RANGE, PI_CNTR_INVALID_SCAN_AXES, PI_CNTR_INVALID_NAV_PARAM,
    PI_CNTR_INVALID_ANALOG_INPUT, PI_CNTR_INVALID_AXIS_IDENTIFIER, PI_CNTR_INVALID_STAGE_NAME,
    PI_CNTR_PARAM_OUT_OF_RANGE, PI_CNTR_INVALID_MACRO_NAME, PI_CNTR_MACRO_RECORD,
    PI_CNTR_MACRO_NOT_FOUND, PI_CNTR_AXIS_HAS_NO_BRAKE, PI_CNTR_DOUBLE_AXIS, PI_CNTR_ILLEGAL_AXIS,
    PI_CNTR_PARAM_NR, PI_CNTR_INVALID_REAL_NR, PI_CNTR_MISSING_PARAM,
    PI_CNTR_SOFT_LIMIT_OUT_OF_RANGE, PI_CNTR_NO_MANUAL_PAD, PI_CNTR_NO_JUMP, PI_CNTR_INVALID_JUMP,
    PI_CNTR_AXIS_HAS_NO_REFERENCE, PI_CNTR_STAGE_HAS_NO_LIM_SWITCH, PI_CNTR_NO_RELAY_CARD,
    PI_CNTR_CMD_NOT_ALLOWED_FOR_STAGE, PI_CNTR_NO_DIGITAL_INPUT, PI_CNTR_NO_DIGITAL_OUTPUT,
    PI_CNTR_NO_MCM, PI_CNTR_INVALID_MCM, PI_CNTR_INVALID_CNTR_NUMBER
  ]

  const ControllerRun2: seq<int> := [
    PI_CNTR_NO_JOYSTICK_CONNECTED, PI_CNTR_INVALID_EGE_AXIS, PI_CNTR_SLAVE_POSITION_OUT_OF_RANGE,
    PI_CNTR_COMMAND_EGE_SLAVE, PI_CNTR_JOYSTICK_CALIBRATION_FAILED, PI_CNTR_REFERENCING_FAILED,
    PI_CNTR_OPM_MISSING, PI_CNTR_OPM_NOT_INITIALIZED, PI_CNTR_OPM_COM_ERROR,
    PI_CNTR_MOVE_TO_LIMIT_SWITCH_FAILED, PI_CNTR_REF_WITH_REF_DISABLED,
    PI_CNTR_AXIS_UNDER_JOYSTICK_CONTROL, PI_CNTR_COMMUNICATION_ERROR,
    PI_CNTR_DYNAMIC_MOVE_IN_PROCESS, PI_CNTR_UNKNOWN_PARAMETER, PI_CNTR_NO_REP_RECORDED,
    PI_CNTR_INVALID_PASSWORD, PI_CNTR_INVALID_RECORDER_CHAN, PI_CNTR_INVALID_RECORDER_SRC_OPT,
    PI_CNTR_INVALID_RECORDER_SRC_CHAN, PI_CNTR_PARAM_PROTECTION, PI_CNTR_AUTOZERO_RUNNING,
    PI_CNTR_NO_LINEAR_AXIS, PI_CNTR_INIT_RUNNING, PI_CNTR_READ_ONLY_PARAMETER,
    PI_CNTR_PAM_NOT_FOUND, PI_CNTR_VOL_OUT_OF_LIMITS, PI_CNTR_WAVE_TOO_LARGE,
    PI_CNTR_NOT_ENOUGH_DDL_MEMORY, PI_CNTR_DDL_TIME_DELAY_TOO_LARGE,
    PI_CNTR_DIFFERENT_ARRAY_LENGTH, PI_CNTR_GEN_SINGLE_MODE_RESTART, PI_CNTR_ANALOG_TARGET_ACTIVE,
    PI_CNTR_WAVE_GENERATOR_ACTIVE, PI_CNTR_AUTOZERO_DISABLED, PI_CNTR_NO_WAVE_SELECTED,
    PI_CNTR_IF_BUFFER_OVERRUN, PI_CNTR_NOT_ENOUGH_RECORDED_DATA, PI_CNTR_TABLE_DEACTIVATED,
    PI_CNTR_OPENLOOP_VALUE_SET_WHEN_SERVO_ON
  ]

  const ControllerRun3: seq<int> := [
    PI_CNTR_RAM_ERROR, PI_CNTR_MACRO_UNKNOWN_COMMAND, PI_CNTR_MACRO_PC_ERROR,
    PI_CNTR_JOYSTICK_ACTIVE, PI_CNTR_MOTOR_IS_OFF, PI_CNTR_ONLY_IN_MACRO,
    PI_CNTR_JOYSTICK_UNKNOWN_AXIS, PI_CNTR_JOYSTICK_UNKNOWN_ID, PI_CNTR_REF_MODE_IS_ON,
    PI_CNTR_NOT_ALLOWED_IN_CURRENT_MOTION_MODE, PI_CNTR_DIO_AND_TRACING_NOT_POSSIBLE,
    PI_CNTR_COLLISION, PI_CNTR_SLAVE_NOT_FAST_ENOUGH, PI_CNTR_CMD_NOT_ALLOWED_WHILE_AXIS_IN_MOTION,
    PI_CNTR_OPEN_LOOP_JOYSTICK_ENABLED, PI_CNTR_INVALID_SERVO_STATE_FOR_PARAMETER,
    PI_CNTR_UNKNOWN_STAGE_NAME, PI_LABVIEW_ERROR, PI_CNTR_NO_AXIS, PI_CNTR_NO_AXIS_PARAM_FILE,
    PI_CNTR_INVALID_AXIS_PARAM_FILE, PI_CNTR_NO_AXIS_PARAM_BACKUP, PI_CNTR_RESERVED_204,
    PI_CNTR_SMO_WITH_SERVO_ON, PI_CNTR_UUDECODE_INCOMPLETE_HEADER,
    PI_CNTR_UUDECODE_NOTHING_TO_DECODE, PI_CNTR_UUDECODE_ILLEGAL_FORMAT, PI_CNTR_CRC32_ERROR,
    PI_CNTR_ILLEGAL_FILENAME, PI_CNTR_FILE_NOT_FOUND, PI_CNTR_FILE_WRITE_ERROR,
    PI_CNTR_DTR_HINDERS_VELOCITY_CHANGE, PI_CNTR_POSITION_UNKNOWN, PI_CNTR_CONN_POSSIBLY_BROKEN,
    PI_CNTR_ON_LIMIT_SWITCH, PI_CNTR_UNEXPECTED_STRUT_STOP, PI_CNTR_POSITION_BASED_ON_ESTIMATION,
    PI_CNTR_POSITION_BASED_ON_INTERPOLATION, PI_CNTR_INVALID_HANDLE, PI_CNTR_NO_BIOS_FOUND
  ]

  const ControllerRun4: seq<int> := [
    PI_CNTR_SAVE_SYS_CFG_FAILED, PI_CNTR_LOAD_SYS_CFG_FAILED, PI_CNTR_SEND_BUFFER_OVERFLOW,
    PI_CNTR_VOLTAGE_OUT_OF_LIMITS, PI_CNTR_OPEN_LOOP_MOTION_SET_WHEN_SERVO_ON,
    PI_CNTR_RECEIVING_BUFFER_OVERFLOW, PI_CNTR_EEPROM_ERROR, PI_CNTR_I2C_ERROR,
    PI_CNTR_RECEIVING_TIMEOUT, PI_CNTR_TIMEOUT, PI_CNTR_MACRO_OUT_OF_SPACE,
    PI_CNTR_EUI_OLDVERSION_CFGDATA, PI_CNTR_EUI_INVALID_CFGDATA, PI_CNTR_HARDWARE_ERROR,
    PI_CNTR_WAV_INDEX_ERROR, PI_CNTR_WAV_NOT_DEFINED, PI_CNTR_WAV_TYPE_NOT_SUPPORTED,
    PI_CNTR_WAV_LENGTH_EXCEEDS_LIMIT, PI_CNTR_WAV_PARAMETER_NR, PI_CNTR_WAV_PARAMETER_OUT_OF_LIMIT,
    PI_CNTR_WGO_BIT_NOT_SUPPORTED, PI_CNTR_EMERGENCY_STOP_BUTTON_ACTIVATED,
    PI_CNTR_EMERGENCY_STOP_BUTTON_WAS_ACTIVATED, PI_CNTR_REDUNDANCY_LIMIT_EXCEEDED,
    PI_CNTR_COLLISION_SWITCH_ACTIVATED, PI_CNTR_FOLLOWING_ERROR, PI_CNTR_SENSOR_SIGNAL_INVALID,
    PI_CNTR_SERVO_LOOP_UNSTABLE, PI_CNTR_UNKNOWN_ERROR, PI_CNTR_NOT_ENOUGH_MEMORY,
    PI_CNTR_HW_VOLTAGE_ERROR, PI_CNTR_HW_TEMPERATURE_ERROR, PI_CNTR_POSITION_ERROR_TOO_HIGH,
    PI_CNTR_INPUT_OUT_OF_RANGE, PI_CNTR_TOO_MANY_NESTED_MACROS, PI_CNTR_MACRO_ALREADY_DEFINED,
    PI_CNTR_NO_MACRO_RECORDING, PI_CNTR_INVALID_MAC_PARAM, PI_CNTR_MACRO_DELETE_ERROR,
    PI_CNTR_CONTROLLER_BUSY
  ]

  const ControllerRun5: seq<int> := [
    PI_CNTR_INVALID_IDENTIFIER, PI_CNTR_UNKNOWN_VARIABLE_OR_ARGUMENT, PI_CNTR_RUNNING_MACRO,
    PI_CNTR_MACRO_INVALID_OPERATOR, PI_CNTR_MACRO_NO_ANSWER, PI_CMD_NOT_VALID_IN_MACRO_MODE,
    PI_CNTR_MOTION_ERROR, PI_CNTR_EXT_PROFILE_UNALLOWED_CMD,
    PI_CNTR_EXT_PROFILE_EXPECTING_MOTION_ERROR, PI_CNTR_PROFILE_ACTIVE,
    PI_CNTR_PROFILE_INDEX_OUT_OF_RANGE, PI_CNTR_PROFILE_OUT_OF_MEMORY,
    PI_CNTR_PROFILE_WRONG_CLUSTER, PI_CNTR_PROFILE_UNKNOWN_CLUSTER_IDENTIFIER,
    PI_CNTR_ALREADY_HAS_SERIAL_NUMBER, PI_CNTR_SECTOR_ERASE_FAILED, PI_CNTR_FLASH_PROGRAM_FAILED,
    PI_CNTR_FLASH_READ_FAILED, PI_CNTR_HW_MATCHCODE_ERROR, PI_CNTR_FW_MATCHCODE_ERROR,
    PI_CNTR_HW_VERSION_ERROR, PI_CNTR_FW_VERSION_ERROR, PI_CNTR_FW_UPDATE_ERROR,
    PI_CNTR_FW_CRC_PAR_ERROR, PI_CNTR_FW_CRC_FW_ERROR, PI_CNTR_INVALID_PCC_SCAN_DATA,
    PI_CNTR_PCC_SCAN_RUNNING, PI_CNTR_INVALID_PCC_AXIS, PI_CNTR_PCC_SCAN_OUT_OF_RANGE,
    PI_CNTR_PCC_TYPE_NOT_EXISTING, PI_CNTR_PCC_PAM_ERROR, PI_CNTR_PCC_TABLE_ARRAY_TOO_LARGE,
    PI_CNTR_NEXLINE_ERROR, PI_CNTR_CHANNEL_ALREADY_USED, PI_CNTR_NEXLINE_TABLE_TOO_SMALL,
    PI_CNTR_RNP_WITH_SERVO_ON, PI_CNTR_RNP_NEEDED, PI_CNTR_AXIS_NOT_CONFIGURED
  ]

  // Interface errors: raised while communicating with the controller (lines 876-1061).

  const COM_NO_ERROR: int := 0
  const COM_ERROR: int := -1
  const SEND_ERROR: int := -2
  const REC_ERROR: int := -3
  const NOT_CONNECTED_ERROR: int := -4
  const COM_BUFFER_OVERFLOW: int := -5
  const CONNECTION_FAILED: int := -6
  const COM_TIMEOUT: int := -7
  const COM_MULTILINE_RESPONSE: int := -8
  const COM_INVALID_ID: int := -9
  const COM_NOTIFY_EVENT_ERROR: int := -10
  const COM_NOT_IMPLEMENTED: int := -11
  const COM_ECHO_ERROR: int := -12
  const COM_GPIB_EDVR: int := -13
  const COM_GPIB_ECIC: int := -14
  const COM_GPIB_ENOL: int := -15
  const COM_GPIB_EADR: int := -16
  const COM_GPIB_EARG: int := -17
  const COM_GPIB_ESAC: int := -18
  const COM_GPIB_EABO: int := -19
  const COM_GPIB_ENEB: int := -20
  const COM_GPIB_EDMA: int := -21
  const COM_GPIB_EOIP: int := -22
  const COM_GPIB_ECAP: int := -23
  const COM_GPIB_EFSO: int := -24
  const COM_GPIB_EBUS: int := -25
  const COM_GPIB_ESTB: int := -26
  const COM_GPIB_ESRQ: int := -27
  const COM_GPIB_ETAB: int := -28
  const COM_GPIB_ELCK: int := -29
  const COM_RS_INVALID_DATA_BITS: int := -30
  const COM_ERROR_RS_SETTINGS: int := -31
  const COM_INTERNAL_RESOURCES_ERROR: int := -32
  const COM_DLL_FUNC_ERROR: int := -33
  const COM_FTDIUSB_INVALID_HANDLE: int := -34
  const COM_FTDIUSB_DEVICE_NOT_FOUND: int := -35
  const COM_FTDIUSB_DEVICE_NOT_OPENED: int := -36
  const COM_FTDIUSB_IO_ERROR: int := -37
  const COM_FTDIUSB_INSUFFICIENT_RESOURCES: int := -38
  const COM_FTDIUSB_INVALID_PARAMETER: int := -39
  const COM_FTDIUSB_INVALID_BAUD_RATE: int := -40
  const COM_FTDIUSB_DEVICE_NOT_OPENED_FOR_ERASE: int := -41
  const COM_FTDIUSB_DEVICE_NOT_OPENED_FOR_WRITE: int := -42
  const COM_FTDIUSB_FAILED_TO_WRITE_DEVICE: int := -43
  const COM_FTDIUSB_EEPROM_READ_FAILED: int := -44
  const COM_FTDIUSB_EEPROM_WRITE_FAILED: int := -45
  const COM_FTDIUSB_EEPROM_ERASE_FAILED: int := -46
  const COM_FTDIUSB_EEPROM_NOT_PRESENT: int := -47
  const COM_FTDIUSB_EEPROM_NOT_PROGRAMMED: int := -48
  const COM_FTDIUSB_INVALID_ARGS: int := -49
  const COM_FTDIUSB_NOT_SUPPORTED: int := -50
  const COM_FTDIUSB_OTHER_ERROR: int := -51
  const COM_PORT_ALREADY_OPEN: int := -52
  const COM_PORT_CHECKSUM_ERROR: int := -53
  const COM_SOCKET_NOT_READY: int := -54
  const COM_SOCKET_PORT_IN_USE: int := -55
  const COM_SOCKET_NOT_CONNECTED: int := -56
  const COM_SOCKET_TERMINATED: int := -57
  const COM_SOCKET_NO_RESPONSE: int := -58
  const COM_SOCKET_INTERRUPTED: int := -59
  const COM_PCI_INVALID_ID: int := -60
  const COM_PCI_ACCESS_DENIED: int := -61

  /** The interface error codes in header order. */
  const InterfaceErrors: seq<int> := InterfaceRun1 + InterfaceRun2

  const InterfaceRun1: seq<int> := [
    COM_NO_ERROR, COM_ERROR, SEND_ERROR, REC_ERROR, NOT_CONNECTED_ERROR, COM_BUFFER_OVERFLOW,
    CONNECTION_FAILED, COM_TIMEOUT, COM_MULTILINE_RESPONSE, COM_INVALID_ID, COM_NOTIFY_EVENT_ERROR,
    COM_NOT_IMPLEMENTED, COM_ECHO_ERROR, COM_GPIB_EDVR, COM_GPIB_ECIC, COM_GPIB_ENOL,
    COM_GPIB_EADR, COM_GPIB_EARG, COM_GPIB_ESAC, COM_GPIB_EABO, COM_GPIB_ENEB, COM_GPIB_EDMA,
    COM_GPIB_EOIP, COM_GPIB_ECAP, COM_GPIB_EFSO, COM_GPIB_EBUS, COM_GPIB_ESTB, COM_GPIB_ESRQ,
    COM_GPIB_ETAB, COM_GPIB_ELCK, COM_RS_INVALID_DATA_BITS, COM_ERROR_RS_SETTINGS,
    COM_INTERNAL_RESOURCES_ERROR, COM_DLL_FUNC_ERROR, COM_FTDIUSB_INVALID_HANDLE,
    COM_FTDIUSB_DEVICE_NOT_FOUND, COM_FTDIUSB_DEVICE_NOT_OPENED, COM_FTDIUSB_IO_ERROR,
    COM_FTDIUSB_INSUFFICIENT_RESOURCES, COM_FTDIUSB_INVALID_PARAMETER
  ]

  const InterfaceRun2: seq<int> := [
    COM_FTDIUSB_INVALID_BAUD_RATE, COM_FTDIUSB_DEVICE_NOT_OPENED_FOR_ERASE,
    COM_FTDIUSB_DEVICE_NOT_OPENED_FOR_WRITE, COM_FTDIUSB_FAILED_TO_WRITE_DEVICE,
    COM_FTDIUSB_EEPROM_READ_FAILED, COM_FTDIUSB_EEPROM_WRITE_FAILED,
    COM_FTDIUSB_EEPROM_ERASE_FAILED, COM_FTDIUSB_EEPROM_NOT_PRESENT,
    COM_FTDIUSB_EEPROM_NOT_PROGRAMMED, COM_FTDIUSB_INVALID_ARGS, COM_FTDIUSB_NOT_SUPPORTED,
    COM_FTDIUSB_OTHER_ERROR, COM_PORT_ALREADY_OPEN, COM_PORT_CHECKSUM_ERROR, COM_SOCKET_NOT_READY,
    COM_SOCKET_PORT_IN_USE, COM_SOCKET_NOT_CONNECTED, COM_SOCKET_TERMINATED,
    COM_SOCKET_NO_RESPONSE, COM_SOCKET_INTERRUPTED, COM_PCI_INVALID_ID, COM_PCI_ACCESS_DENIED
  ]

  // Obsolete names the header keeps for backward compatibility (lines 1069-1070).

  const PI_CNTR_MOVE_WITHOUT_INI: int := 5
  const PI_CNTR_INVALID_AXIS: int := 23

  /**
   * The message text TranslatePIError has for a code. Its switch lists the
   * DLL errors (all at most -1001), then the controller errors (all at
   * least 0), then the interface errors (-1 to -61); as the three ranges
   * are disjoint, looking in the group the code's range selects finds the
   * same case the switch does.
   */
  function Message(code: int): Option<string>
  {
    if code <= -1001 then DllMessage(code)
    else if code < 0 then InterfaceMessage(code)
    else ControllerMessage(code)
  }

  /** The DLL-error cases of the switch, in its order. */
  function DllMessage(code: int): Option<string>
  {
    match code
    case -1001 => Some("Unknown axis identifier")
    case -1002 => Some("Number for NAV out of range--must be in [1,10000]")
    case -1003 => Some("Invalid value for SGA--must be one of {1, 10, 100, 1000}")
    case -1004 => Some("Controller sent unexpected response")
    case -1005 => Some("No manual control pad installed, calls to SMA and related commands are not allowed")
    case -1006 => Some("Invalid number for manual control pad knob")
    case -1007 => Some("Axis not currently controlled by a manual control pad")
    case -1008 => Some("Controller is busy with some lengthy operation (e.g. reference move, fast scan algorithm)")
    case -1009 => Some("Internal error--could not start thread")
    case -1010 => Some("Controller is (already) in macro mode--command not valid in macro mode")
    case -1011 => Some("Controller not in macro mode--command not valid unless macro mode active")
    case -1012 => Some("Could not open file to write or read macro")
    case -1013 => Some("No macro with given name on controller, or macro is empty")
    case -1014 => Some("Internal error in macro editor")
    case -1015 => Some("One or more arguments given to function is invalid (empty string, index out of range, ...)")
    case -1016 => Some("Axis identifier is already in use by a connected stage")
    case -1017 => Some("Invalid axis identifier")
    case -1018 => Some("Could not access array data in COM server")
    case -1019 => Some("Range of array does not fit the number of parameters")
    case -1020 => Some("Invalid parameter ID given to SPA or SPA?")
    case -1021 => Some("Number for AVG out of range--must be >0")
    case -1022 => Some("Incorrect number of samples given to WAV")
    case -1023 => Some("Generation of wave failed")
    case -1024 => Some("Motion error: position error too large, servo is switched off automatically")
    case -1025 => Some("Controller is (already) running a macro")
    case -1026 => Some("Configuration of PZT stage or amplifier failed")
    case -1027 => Some("Current settings are not valid for desired configuration")
    case -1028 => Some("Unknown channel identifier")
    case -1029 => Some("Error while reading/writing wave generator parameter file")
    case -1030 => Some("Could not find description of wave form. Maybe WG.INI is missing?")
    case -1031 => Some("The WGWaveEditor DLL function was not found at startup")
    case -1032 => Some("The user cancelled a dialog")
    case -1033 => Some("Error from C-844 Controller")
    case -1034 => Some("DLL necessary to call function not loaded, or function not found in DLL")
    case -1035 => Some("The open parameter file is protected and cannot be edited")
    case -1036 => Some("There is no parameter file open")
    case -1037 => Some("Selected stage does not exist")
    case -1038 => Some("There is already a parameter file open. Close it before opening a new file")
    case -1039 => Some("Could not open parameter file")
    case -1040 => Some("The version of the connected controller is invalid")
    case -1041 => Some("Parameter could not be set with SPA--parameter not defined for this controller!")
    case -1042 => Some("The maximum number of wave definitions has been exceeded")
    case -1043 => Some("The maximum number of wave generators has been exceeded")
    case -1044 => Some("No wave defined for specified axis")
    case -1045 => Some("Wave output to axis already stopped/started")
    case -1046 => Some("Not all axes could be referenced")
    case -1047 => Some("Could not find parameter set required by frequency relation")
    case -1048 => Some("Command ID given to SPP or SPP? is not valid")
    case -1049 => Some("A stage name given to CST is not unique")
    case -1050 => Some("A uuencoded file transfered did not start with \"begin\" followed by the proper filename")
    case -1051 => Some("Could not create/read file on host PC")
    case -1052 => Some("Checksum error when transfering a file to/from the controller")
    case -1053 => Some("The PiStages.dat database could not be found. This file is required to connect a stage with the CST command")
    case -1054 => Some("No wave being output to specified axis")
    case -1055 => Some("Invalid password")
    case -1056 => Some("Error during communication with OPM (Optical Power Meter), maybe no OPM connected")
    case -1057 => Some("WaveEditor: Error during wave creation, incorrect number of parameters")
    case -1058 => Some("WaveEditor: Frequency out of range")
    case -1059 => Some("WaveEditor: Error during wave creation, incorrect index for integer parameter")
    case -1060 => Some("WaveEditor: Error during wave creation, incorrect index for floating point parameter")
    case -1061 => Some("WaveEditor: Error during wave creation, could not calculate value")
    case -1062 => Some("WaveEditor: Graph display component not installed")
    case -1063 => Some("User Profile Mode: Command is not allowed, check for required preparatory commands")
    case -1064 => Some("User Profile Mode: First target position in User Profile is too far from current position")
    case -1065 => Some("Controller is (already) in User Profile Mode")
    case -1066 => Some("User Profile Mode: Block or Data Set index out of allowed range")
    case -1067 => Some("ProfileGenerator: No profile has been created yet")
    case -1068 => Some("ProfileGenerator: Generated profile exceeds limits of one or both axes")
    case -1069 => Some("ProfileGenerator: Unknown parameter ID in Set/Get Parameter command")
    case -1070 => Some("ProfileGenerator: Parameter out of allowed range")
    case -1071 => Some("User Profile Mode: Out of memory")
    case -1072 => Some("User Profile Mode: Cluster is not assigned to this axis")
    case -1073 => Some("Unknown cluster identifier")
    case -1074 => Some("The installed device driver doesn't match the required version. Please see the documentation to determine the required device driver version.")
    case -1075 => Some("The library used doesn't match the required version. Please see the documentation to determine the required library version.")
    case -1076 => Some("The interface is currently locked by another function. Please try again later.")
    case -1077 => Some("Version of parameter DAT file does not match the required version. Current files are available at www.pi.ws.")
    case -1078 => Some("Cannot write to parameter DAT file to store user defined stage type.")
    case -1079 => Some("Cannot create parameter DAT file to store user defined stage type.")
    case -1080 => Some("Parameter DAT file does not have correct revision.")
    case -1081 => Some("User stages DAT file does not have correct revision.")
    case -1082 => Some("Timeout Error. Some lengthy operation did not finish within expected time.")
    case _ => None
  }

  /** The controller-error cases of the switch, in its order. */
  function ControllerMessage(code: int): Option<string>
  {
    match code
    case 0 => Some("No error")
    case 1 => Some("Parameter syntax error")
    case 2 => Some("Unknown command")
    case 3 => Some("Command length out of limits or command buffer overrun")
    case 4 => Some("Error while scanning")
    case 5 => Some("Unallowable move attempted on unreferenced axis, or move attempted with servo off")
    case 6 => Some("Parameter for SGA not valid")
    case 7 => Some("Position out of limits")
    case 8 => Some("Velocity out of limits")
    case 9 => Some("Attempt to set pivot point while U,V and W not all 0")
    case 10 => Some("Controller was stopped by command")
    case 11 => Some("Parameter for SST or for one of the embedded scan algorithms out of range")
    case 12 => Some("Invalid axis combination for fast scan")
    case 13 => Some("Parameter for NAV out of range")
    case 14 => Some("Invalid analog channel")
    case 15 => Some("Invalid axis identifier")
    case 16 => Some("Invalid stage name")
    case 17 => Some("Parameter out of range")
    case 18 => Some("Invalid macro name")
    case 19 => Some("Error while recording macro")
    case 20 => Some("Macro not found")
    case 21 => Some("Axis has no brake")
    case 22 => Some("Axis identifier specified more than once")
    case 23 => Some("Illegal axis")
    case 24 => Some("Incorrect number of parameters")
    case 25 => Some("Invalid floating point number")
    case 26 => Some("Parameter missing")
    case 27 => Some("Soft limit out of range")
    case 28 => Some("No manual pad found")
    case 29 => Some("No more step-response values")
    case 30 => Some("No step-response values recorded")
    case 31 => Some("Axis has no reference sensor")
    case 32 => Some("Axis has no limit switch")
    case 33 => Some("No relay card installed")
    case 34 => Some("Command not allowed for selected stage(s)")
    case 35 => Some("No digital input installed")
    case 36 => Some("No digital output configured")
    case 37 => Some("No more MCM responses")
    case 38 => Some("No MCM values recorded")
    case 39 => Some("Controller number invalid")
    case 40 => Some("No joystick configured")
    case 41 => Some("Invalid axis for electronic gearing, axis can not be slave")
    case 42 => Some("Position of slave axis is out of range")
    case 43 => Some("Slave axis cannot be commanded directly when electronic gearing is enabled")
    case 44 => Some("Calibration of joystick failed")
    case 45 => Some("Referencing failed")
    case 46 => Some("OPM (Optical Power Meter) missing")
    case 47 => Some("OPM (Optical Power Meter) not initialized or cannot be initialized")
    case 48 => Some("OPM (Optical Power Meter) Communication Error")
    case 49 => Some("Move to limit switch failed")
    case 50 => Some("Attempt to reference axis with referencing disabled")
    case 51 => Some("Selected axis is controlled by joystick")
    case 52 => Some("Controller detected communication error")
    case 53 => Some("MOV! motion still in progress")
    case 54 => Some("Unknown parameter")
    case 55 => Some("No commands were recorded with REP")
    case 56 => Some("Password invalid")
    case 57 => Some("Data Record Table does not exist")
    case 58 => Some("Source does not exist; number too low or too high")
    case 59 => Some("Source Record Table number too low or too high")
    case 60 => Some("Protected Param: current Command Level (CCL) too low")
    case 61 => Some("Command execution not possible while Autozero is running")
    case 62 => Some("Autozero requires at least one linear axis")
    case 63 => Some("Initialization still in progress")
    case 64 => Some("Parameter is read-only")
    case 65 => Some("Parameter not found in non-volatile memory")
    case 66 => Some("Voltage out of limits")
    case 67 => Some("Not enough memory available for requested wave curve")
    case 68 => Some("Not enough memory available for DDL table; DDL can not be started")
    case 69 => Some("Time delay larger than DDL table; DDL can not be started")
    case 70 => Some("The requested arrays have different lengths; query them separately")
    case 71 => Some("Attempt to restart the generator while it is running in single step mode")
    case 72 => Some("Motion commands and wave generator activation are not allowed when analog target is active")
    case 73 => Some("Motion commands are not allowed when wave generator output is active; use WGO to disable generator output")
    case 74 => Some("No sensor channel or no piezo channel connected to selected axis (sensor and piezo matrix)")
    case 75 => Some("Generator started (WGO) without having selected a wave table (WSL).")
    case 76 => Some("Interface buffer did overrun and command couldn't be received correctly")
    case 77 => Some("Data Record Table does not hold enough recorded data")
    case 78 => Some("Data Record Table is not configured for recording")
    case 79 => Some("Open-loop commands (SVA, SVR) are not allowed when servo is on")
    case 80 => Some("Hardware error affecting RAM")
    case 81 => Some("Not macro command")
    case 82 => Some("Macro counter out of range")
    case 83 => Some("Joystick is active")
    case 84 => Some("Motor is off")
    case 85 => Some("Macro-only command")
    case 86 => Some("Invalid joystick axis")
    case 87 => Some("Joystick unknown")
    case 88 => Some("Move without referenced stage")
    case 89 => Some("Command not allowed in current motion mode")
    case 90 => Some("No tracing possible while digital IOs are used on this HW revision. Reconnect to switch operation mode.")
    case 91 => Some("Move not possible, would cause collision")
    case 92 => Some("Stage is not capable of following the master. Check the gear ratio(SRA).")
    case 93 => Some("This command is not allowed while the affected axis or its master is in motion.")
    case 94 => Some("Servo cannot be switched on when open-loop joystick control is enabled.")
    case 95 => Some("This parameter cannot be changed in current servo mode.")
    case 96 => Some("Unknown stage name")
    case 100 => Some("PI LabVIEW driver reports error. See source control for details.")
    case 200 => Some("No stage connected to axis")
    case 201 => Some("File with axis parameters not found")
    case 202 => Some("Invalid axis parameter file")
    case 203 => Some("Backup file with axis parameters not found")
    case 204 => Some("PI internal error code 204")
    case 205 => Some("SMO with servo on")
    case 206 => Some("uudecode: incomplete header")
    case 207 => Some("uudecode: nothing to decode")
    case 208 => Some("uudecode: illegal UUE format")
    case 209 => Some("CRC32 error")
    case 210 => Some("Illegal file name (must be 8-0 format)")
    case 211 => Some("File not found on controller")
    case 212 => Some("Error writing file on controller")
    case 213 => Some("VEL command not allowed in DTR Command Mode")
    case 214 => Some("Position calculations failed")
    case 215 => Some("The connection between controller and stage may be broken")
    case 216 => Some("The connected stage has driven into a limit switch, some controllers need CLR to resume operation")
    case 217 => Some("Strut test command failed because of an unexpected strut stop")
    case 218 => Some("While MOV! is running position can only be estimated!")
    case 219 => Some("Position was calculated during MOV motion")
    case 230 => Some("Invalid handle")
    case 231 => Some("No bios found")
    case 232 => Some("Save system configuration failed")
    case 233 => Some("Load system configuration failed")
    case 301 => Some("Send buffer overflow")
    case 302 => Some("Voltage out of limits")
    case 303 => Some("Open-loop motion attempted when servo ON")
    case 304 => Some("Received command is too long")
    case 305 => Some("Error while reading/writing EEPROM")
    case 306 => Some("Error on I2C bus")
    case 307 => Some("Timeout while receiving command")
    case 308 => Some("A lengthy operation has not finished in the expected time")
    case 309 => Some("Insufficient space to store macro")
    case 310 => Some("Configuration data has old version number")
    case 311 => Some("Invalid configuration data")
    case 333 => Some("Internal hardware error")
    case 400 => Some("Wave generator index error")
    case 401 => Some("Wave table not defined")
    case 402 => Some("Wave type not supported")
    case 403 => Some("Wave length exceeds limit")
    case 404 => Some("Wave parameter number error")
    case 405 => Some("Wave parameter out of range")
    case 406 => Some("WGO command bit not supported")
    case 500 => Some("The \"red knob\" is still set and disables system")
    case 501 => Some("The \"red knob\" was activated and still disables system - reanimation required")
    case 502 => Some("Position consistency check failed")
    case 503 => Some("Hardware collision sensor(s) are activated")
    case 504 => Some("Strut following error occurred, e.g. caused by overload or encoder failure")
    case 505 => Some("One sensor signal is not valid")
    case 506 => Some("Servo loop was unstable due to wrong parameter setting and switched off to avoid damage.")
    case 530 => Some("A command refers to a node that does not exist")
    case 531 => Some("A command refers to a node that has no parent node")
    case 532 => Some("Attempt to delete a node that is in use")
    case 533 => Some("Definition of a node is cyclic")
    case 534 => Some("The node chain does not end in the \"0\" node")
    case 535 => Some("The definition of a coordinate transformation is erroneous")
    case 536 => Some("Transformation cannot be defined as long as Hexapod is in motion")
    case 537 => Some("Transformation node cannot be activated")
    case 538 => Some("A node can only be replaced by a node of the same type")
    case 539 => Some("A node cannot be linked to itself")
    case 540 => Some("Node definition is erroneous or not complete (replace or delete it)")
    case 541 => Some("0 is the root node and cannot be modified")
    case 542 => Some("The nodes are not part of the same chain")
    case 543 => Some("Unused nodes must be deleted before new nodes can be stored")
    case 544 => Some("With some transformations pivot point usage is not supported")
    case 555 => Some("BasMac: unknown controller error")
    case 601 => Some("Not enough memory")
    case 602 => Some("Hardware voltage error")
    case 603 => Some("Hardware temperature out of range")
    case 604 => Some("Position error of any axis in the system is too high")
    case 606 => Some("Maximum value of input signal has been exceeded")
    case 607 => Some("Value is not integer")
    case 1000 => Some("Too many nested macros")
    case 1001 => Some("Macro already defined")
    case 1002 => Some("Macro recording not activated")
    case 1003 => Some("Invalid parameter for MAC")
    case 1004 => Some("Deleting macro failed")
    case 1005 => Some("Controller is busy with some lengthy operation (e.g. reference move, fast scan algorithm)")
    case 1006 => Some("Invalid identifier (invalid special characters, ...)")
    case 1007 => Some("Variable or argument not defined")
    case 1008 => Some("Controller is (already) running a macro")
    case 1009 => Some("Invalid or missing operator for condition. Check necessary spaces around operator.")
    case 1010 => Some("No answer was received while executing WAC/MEX/JRC/...")
    case 1011 => Some("Command not valid during macro execution")
    case 1024 => Some("Motion error: position error too large, servo is switched off automatically")
    case 1063 => Some("User Profile Mode: Command is not allowed, check for required preparatory commands")
    case 1064 => Some("User Profile Mode: First target position in User Profile is too far from current position")
    case 1065 => Some("Controller is (already) in User Profile Mode")
    case 1066 => Some("User Profile Mode: Block or Data Set index out of allowed range")
    case 1071 => Some("User Profile Mode: Out of memory")
    case 1072 => Some("User Profile Mode: Cluster is not assigned to this axis")
    case 1073 => Some("Unknown cluster identifier")
    case 1090 => Some("There are too many open tcpip connections")
    case 2000 => Some("Controller already has a serial number")
    case 4000 => Some("Sector erase failed")
    case 4001 => Some("Flash program failed")
    case 4002 => Some("Flash read failed")
    case 4003 => Some("HW match code missing/invalid")
    case 4004 => Some("FW match code missing/invalid")
    case 4005 => Some("HW version missing/invalid")
    case 4006 => Some("FW version missing/invalid")
    case 4007 => Some("FW update failed")
    case 4008 => Some("FW Parameter CRC wrong")
    case 4009 => Some("FW CRC wrong")
    case 5000 => Some("PicoCompensation scan data is not valid")
    case 5001 => Some("PicoCompensation is running, some actions can not be executed during scanning/recording")
    case 5002 => Some("Given axis can not be defined as PPC axis")
    case 5003 => Some("Defined scan area is larger than the travel range")
    case 5004 => Some("Given PicoCompensation type is not defined")
    case 5005 => Some("PicoCompensation parameter error")
    case 5006 => Some("PicoCompensation table is larger than maximum table length")
    case 5100 => Some("Common error in Nexline firmware module")
    case 5101 => Some("Output channel for Nexline can not be redefined for other usage")
    case 5102 => Some("Memory for Nexline signals is too small")
    case 5103 => Some("RNP can not be executed if axis is in closed loop")
    case 5104 => Some("relax procedure (RNP) needed")
    case 5200 => Some("Axis must be configured for this action")
    case 6000 => Some("Invalid preset value of absolute sensor")
    case 6001 => Some("Error while writing to sensor")
    case 6002 => Some("Error while reading from sensor")
    case 6003 => Some("Checksum error of absolute sensor")
    case 6004 => Some("General error of absolute sensor")
    case 6005 => Some("Overflow of absolute sensor position")
    case _ => None
  }

  /** The interface-error cases of the switch, in its order. */
  function InterfaceMessage(code: int): Option<string>
  {
    match code
    case -1 => Some("Error during com operation (could not be specified)")
    case -2 => Some("Error while sending data")
    case -3 => Some("Error while receiving data")
    case -4 => Some("Not connected (no port with given ID open)")
    case -5 => Some("Buffer overflow")
    case -6 => Some("Error while opening port")
    case -7 => Some("Timeout error")
    case -8 => Some("There are more lines waiting in buffer")
    case -9 => Some("There is no interface or DLL handle with the given ID")
    case -10 => Some("Event/message for notification could not be opened")
    case -11 => Some("Function not supported by this interface type")
    case -12 => Some("Error while sending \"echoed\" data")
    case -13 => Some("IEEE488: System error")
    case -14 => Some("IEEE488: Function requires GPIB board to be CIC")
    case -15 => Some("IEEE488: Write function detected no listeners")
    case -16 => Some("IEEE488: Interface board not addressed correctly")
    case -17 => Some("IEEE488: Invalid argument to function call")
    case -18 => Some("IEEE488: Function requires GPIB board to be SAC")
    case -19 => Some("IEEE488: I/O operation aborted")
    case -20 => Some("IEEE488: Interface board not found")
    case -21 => Some("IEEE488: Error performing DMA")
    case -22 => Some("IEEE488: I/O operation started before previous operation completed")
    case -23 => Some("IEEE488: No capability for intended operation")
    case -24 => Some("IEEE488: File system operation error")
    case -25 => Some("IEEE488: Command error during device call")
    case -26 => Some("IEEE488: Serial poll-status byte lost")
    case -27 => Some("IEEE488: SRQ remains asserted")
    case -28 => Some("IEEE488: Return buffer full")
    case -29 => Some("IEEE488: Address or board locked")
    case -30 => Some("RS-232: 5 data bits with 2 stop bits is an invalid combination, as is 6, 7, or 8 data bits with 1.5 stop bits")
    case -31 => Some("RS-232: Error configuring the COM port")
    case -32 => Some("Error dealing with internal system resources (events, threads, ...)")
    case -33 => Some("A DLL or one of the required functions could not be loaded")
    case -34 => Some("FTDIUSB: invalid handle")
    case -35 => Some("FTDIUSB: device not found")
    case -36 => Some("FTDIUSB: device not opened")
    case -37 => Some("FTDIUSB: IO error")
    case -38 => Some("FTDIUSB: insufficient resources")
    case -39 => Some("FTDIUSB: invalid parameter")
    case -40 => Some("FTDIUSB: invalid baud rate")
    case -41 => Some("FTDIUSB: device not opened for erase")
    case -42 => Some("FTDIUSB: device not opened for write")
    case -43 => Some("FTDIUSB: failed to write device")
    case -44 => Some("FTDIUSB: EEPROM read failed")
    case -45 => Some("FTDIUSB: EEPROM write failed")
    case -46 => Some("FTDIUSB: EEPROM erase failed")
    case -47 => Some("FTDIUSB: EEPROM not present")
    case -48 => Some("FTDIUSB: EEPROM not programmed")
    case -49 => Some("FTDIUSB: invalid arguments")
    case -50 => Some("FTDIUSB: not supported")
    case -51 => Some("FTDIUSB: other error")
    case -52 => Some("Error while opening the COM port: was already open")
    case -53 => Some("Checksum error in received data from COM port")
    case -54 => Some("Socket not ready, you should call the function again")
    case -55 => Some("Port is used by another socket")
    case -56 => Some("Socket not connected (or not valid)")
    case -57 => Some("Connection terminated (by peer)")
    case -58 => Some("Can't connect to peer")
    case -59 => Some("Operation was interrupted by a nonblocked signal")
    case -60 => Some("No Device with this ID is present")
    case -61 => Some("Driver could not be opened (on Vista: run as administrator!)")
    case _ => None
  }

  lemma DllRun1Descends()
    ensures Descending(DllRun1)
  {
  }

  lemma DllRun2Descends()
    ensures Descending(DllRun2) && Descending(DllRun3)
  {
  }

  lemma ControllerRun1Ascends()
    ensures Ascending(ControllerRun1)
  {
  }

  lemma ControllerRun2Ascends()
    ensures Ascending(ControllerRun2)
  {
  }

  lemma ControllerRun3Ascends()
    ensures Ascending(ControllerRun3)
  {
  }

  lemma ControllerRun4Ascends()
    ensures Ascending(ControllerRun4)
  {
  }

  lemma ControllerRun5Ascends()
    ensures Ascending(ControllerRun5)
  {
  }

  lemma InterfaceRun1Descends()
    ensures Descending(InterfaceRun1)
  {
  }

  lemma InterfaceRun2Descends()
    ensures Descending(InterfaceRun2)
  {
  }

  /** The DLL group runs strictly down from -1001 to -1082, so no code repeats. */
  lemma DllLayout()
    ensures Descending(DllErrors) && Distinct(DllErrors)
    ensures forall k :: 0 <= k < |DllErrors| ==> -1082 <= DllErrors[k] <= -1001
  {
    DllRun1Descends();
    DllRun2Descends();
    DescendingJoin(DllRun1, DllRun2);
    DescendingJoin(DllRun1 + DllRun2, DllRun3);
    MonotoneDistinct(DllErrors);
    DescendingBounds(DllErrors);
    assert DllErrors[0] == DllRun1[0] && DllErrors[|DllErrors| - 1] == DllRun3[|DllRun3| - 1];
  }

  /** The controller group runs strictly up from 0 to 5200, so no code repeats. */
  lemma ControllerLayout()
    ensures Ascending(ControllerErrors) && Distinct(ControllerErrors)
    ensures forall k :: 0 <= k < |ControllerErrors| ==> 0 <= ControllerErrors[k] <= 5200
  {
    ControllerRun1Ascends();
    ControllerRun2Ascends();
    ControllerRun3Ascends();
    ControllerRun4Ascends();
    ControllerRun5Ascends();
    AscendingJoin(ControllerRun1, ControllerRun2);
    AscendingJoin(ControllerRun1 + ControllerRun2, ControllerRun3);
    AscendingJoin(ControllerRun1 + ControllerRun2 + ControllerRun3, ControllerRun4);
    AscendingJoin(ControllerRun1 + ControllerRun2 + ControllerRun3 + ControllerRun4, ControllerRun5);
    MonotoneDistinct(ControllerErrors);
    AscendingBounds(ControllerErrors);
    assert ControllerErrors[0] == ControllerRun1[0];
    assert ControllerErrors[|ControllerErrors| - 1] == ControllerRun5[|ControllerRun5| - 1];
  }

  /** The interface group runs strictly down from 0 to -61, so no code repeats. */
  lemma InterfaceLayout()
    ensures Descending(InterfaceErrors) && Distinct(InterfaceErrors)
    ensures forall k :: 0 <= k < |InterfaceErrors| ==> -61 <= InterfaceErrors[k] <= 0
  {
    InterfaceRun1Descends();
    InterfaceRun2Descends();
    DescendingJoin(InterfaceRun1, InterfaceRun2);
    MonotoneDistinct(InterfaceErrors);
    DescendingBounds(InterfaceErrors);
    assert InterfaceErrors[0] == InterfaceRun1[0];
    assert InterfaceErrors[|InterfaceErrors| - 1] == InterfaceRun2[|InterfaceRun2| - 1];
  }

  /**
   * The groups overlap only in code 0, which the controller group calls
   * PI_CNTR_NO_ERROR and the interface group COM_NO_ERROR.
   */
  lemma GroupsShareOnlyNoError()
    ensures PI_CNTR_NO_ERROR == COM_NO_ERROR == 0
    ensures forall i, j :: 0 <= i < |DllErrors| && 0 <= j < |ControllerErrors| ==> DllErrors[i] != ControllerErrors[j]
    ensures forall i, j :: 0 <= i < |DllErrors| && 0 <= j < |InterfaceErrors| ==> DllErrors[i] != InterfaceErrors[j]
    ensures forall i, j :: 0 <= i < |InterfaceErrors| && 0 <= j < |ControllerErrors| ==>
      (InterfaceErrors[i] == ControllerErrors[j] <==> i == 0 && j == 0)
  {
    DllLayout();
    ControllerLayout();
    InterfaceLayout();
    assert InterfaceErrors[0] == InterfaceRun1[0] && ControllerErrors[0] == ControllerRun1[0];
  }

  /**
   * The obsolete names carry the values of their successors, and
   * PI_MOTION_ERROR and PI_CNTR_MOTION_ERROR differ only in sign.
   */
  lemma NamedCodes()
    ensures PI_CNTR_MOVE_WITHOUT_INI == PI_CNTR_MOVE_WITHOUT_REF_OR_NO_SERVO == 5
    ensures PI_CNTR_INVALID_AXIS == PI_CNTR_ILLEGAL_AXIS == 23
    ensures PI_MOTION_ERROR == -PI_CNTR_MOTION_ERROR == -1024
  {
  }

  /** The result of TranslatePIError: its BOOL return and the caller's buffer afterwards. */
  datatype Translation = Translation(ok: bool, buffer: string)

  /**
   * sprintf(buffer, text) with a literal format: the characters of text up
   * to its terminator, a NUL, and whatever the buffer held beyond.
   */
  function Print(buffer: string, text: string): (r: string)
    ensures CText(r) == CText(text)
    ensures |CText(text)| < |buffer| ==> |r| == |buffer| && r[|CText(text)| + 1..] == buffer[|CText(text)| + 1..]
  {
    var t := CText(text);
    var r := t + ['\0'] + (if |t| < |buffer| then buffer[|t| + 1..] else []);
    CTextIs(r, |t|);
    r
  }

  /**
   * TranslatePIError with the guard it evidently means: the message is
   * written, and TRUE returned, exactly when the code has a message and
   * the message is shorter than maxlen, so that it fits maxlen bytes with
   * its terminator. Otherwise the buffer is left as it was.
   */
  function Translate(error: int, buffer: string, maxlen: int): (r: Translation)
    ensures r.ok <==> Message(error).Some? && |CText(Message(error).value)| < maxlen
    ensures r.ok ==> CText(r.buffer) == CText(Message(error).value)
    ensures !r.ok ==> r.buffer == buffer
  {
    match Message(error)
    case None => Translation(false, buffer)
    case Some(text) =>
      if |CText(text)| < maxlen then Translation(true, Print(buffer, text)) else Translation(false, buffer)
  }

  /** The conversion of a C int to the 64-bit size_t it is compared with. */
  function SizeT(x: int): (r: nat)
    ensures r < 0x1_0000_0000_0000_0000
    ensures 0 <= x < 0x1_0000_0000_0000_0000 ==> r == x
    ensures -0x1_0000_0000_0000_0000 <= x < 0 ==> r == x + 0x1_0000_0000_0000_0000
  {
    x % 0x1_0000_0000_0000_0000
  }

  /**
   * TranslatePIError as written: strlen(text) < maxlen compares a size_t
   * with an int, so maxlen is converted to size_t first.
   */
  function TranslateAsWritten(error: int, buffer: string, maxlen: int): (r: Translation)
    ensures !r.ok ==> r.buffer == buffer
  {
    match Message(error)
    case None => Translation(false, buffer)
    case Some(text) =>
      if |CText(text)| < SizeT(maxlen) then Translation(true, Print(buffer, text)) else Translation(false, buffer)
  }

  /** For every buffer length a caller can pass (maxlen >= 0), the code as written behaves as intended. */
  lemma AsWrittenAgrees(error: int, buffer: string, maxlen: int)
    requires 0 <= maxlen < 0x8000_0000
    ensures TranslateAsWritten(error, buffer, maxlen) == Translate(error, buffer, maxlen)
  {
  }

  /**
   * A negative maxlen becomes a huge size_t, so the code as written
   * reports success and writes the message into a buffer it was told has
   * no room at all.
   */
  lemma NegativeMaxlenAccepted(buffer: string)
    ensures TranslateAsWritten(PI_UNKNOWN_AXIS_IDENTIFIER, buffer, -1).ok
    ensures !Translate(PI_UNKNOWN_AXIS_IDENTIFIER, buffer, -1).ok
  {
  }

  /** A successful translation writes at most maxlen bytes, terminator included. */
  lemma TranslateFits(error: int, buffer: string, maxlen: int)
    requires Translate(error, buffer, maxlen).ok
    ensures |CText(Translate(error, buffer, maxlen).buffer)| + 1 <= maxlen
  {
  }

  /** Success is monotone in maxlen, and a larger buffer changes nothing about the result. */
  lemma TranslateMonotone(error: int, buffer: string, maxlen: int, larger: int)
    requires Translate(error, buffer, maxlen).ok && maxlen <= larger
    ensures Translate(error, buffer, larger) == Translate(error, buffer, maxlen)
  {
  }

  /** A code TranslatePIError has no case for yields FALSE and leaves the buffer alone. */
  lemma UnknownCodeFails(buffer: string, maxlen: int)
    ensures Translate(6006, buffer, maxlen) == Translation(false, buffer)
    ensures Translate(-1083, buffer, maxlen) == Translation(false, buffer)
  {
  }

  /** A message's text is the whole literal when the literal holds no NUL. */
  lemma Known(code: int, text: string)
    requires Message(code) == Some(text) && '\0' !in text
    ensures CText(Message(code).value) == text
  {
    CTextIs(text, |text|);
  }

  /** Code 0 translates to "No error" once maxlen leaves room for its nine bytes. */
  lemma NoErrorText(buffer: string, maxlen: int)
    ensures Translate(PI_CNTR_NO_ERROR, buffer, maxlen).ok <==> 8 < maxlen
    ensures 8 < maxlen ==> CText(Translate(PI_CNTR_NO_ERROR, buffer, maxlen).buffer) == "No error"
  {
    Known(0, "No error");
  }

  /** Code -1001 translates to "Unknown axis identifier". */
  lemma UnknownAxisText(buffer: string, maxlen: int)
    ensures Translate(PI_UNKNOWN_AXIS_IDENTIFIER, buffer, maxlen).ok <==> 23 < maxlen
    ensures 23 < maxlen ==> CText(Translate(PI_UNKNOWN_AXIS_IDENTIFIER, buffer, maxlen).buffer) == "Unknown axis identifier"
  {
    Known(-1001, "Unknown axis identifier");
  }

  /** Code -1 has the text "Error during com operation (could not be specified)". */
  lemma ComErrorText()
    ensures COM_ERROR == -1
    ensures Message(COM_ERROR) == Some("Error during com operation (could not be specified)")
  {
  }

  /** The busy text of the DLL group. */
  lemma DllBusyText()
    ensures DllMessage(-1008) == Some("Controller is busy with some lengthy operation (e.g. reference move, fast scan algorithm)")
  {
  }

  /** The busy text of the controller group. */
  lemma ControllerBusyText()
    ensures ControllerMessage(1005) == Some("Controller is busy with some lengthy operation (e.g. reference move, fast scan algorithm)")
  {
  }

  /**
   * Distinct codes may share a text: PI_CONTROLLER_BUSY (-1008) and
   * PI_CNTR_CONTROLLER_BUSY (1005) both have the busy message.
   */
  lemma BusyTextShared()
    ensures PI_CONTROLLER_BUSY == -1008 && PI_CNTR_CONTROLLER_BUSY == 1005
    ensures Message(PI_CONTROLLER_BUSY).Some?
    ensures Message(PI_CONTROLLER_BUSY) == Message(PI_CNTR_CONTROLLER_BUSY)
  {
    DllBusyText();
    ControllerBusyText();
  }

  /**
   * Besides each name, the header defines an alias with the same value
   * whose name ends in the value: NAME__N, or NAME__MINUSN for a negative
   * code. This is the suffix it appends after the two underscores.
   */
  function AliasSuffix(code: int): (s: string)
    ensures |s| >= 1
  {
    if code < 0 then "MINUS" + NatString(-code) else NatString(code)
  }

  /** The alias defined beside a name, with the name's own value. */
  function Alias(name: string, code: int): (a: (string, int))
    ensures a.1 == code && |a.0| > |name| + 2
    ensures a.0[..|name|] == name && a.0[|name|..|name| + 2] == "__"
  {
    (name + "__" + AliasSuffix(code), code)
  }

  /** The value an alias suffix spells. */
  function SuffixValue(s: string): Option<int>
  {
    if |s| > 5 && s[..5] == "MINUS" && AllDigits(s[5..]) then Some(-(DigitsValue(s[5..]) as int))
    else if |s| >= 1 && AllDigits(s) then Some(DigitsValue(s))
    else None
  }

  /** A suffix for a negative code reads back as that code. */
  lemma MinusSuffixValue(n: nat)
    requires n >= 1
    ensures SuffixValue("MINUS" + NatString(n)) == Some(-(n as int))
  {
    var s := "MINUS" + NatString(n);
    NatStringRoundTrip(n);
    assert s[..5] == "MINUS" && s[5..] == NatString(n);
  }

  /** A suffix for a code of at least zero reads back as that code. */
  lemma PlainSuffixValue(n: nat)
    ensures SuffixValue(NatString(n)) == Some(n)
  {
    NatStringRoundTrip(n);
  }

  /** The suffix of an alias spells exactly the value the alias is defined with. */
  lemma AliasSpellsValue(name: string, code: int)
    ensures SuffixValue(Alias(name, code).0[|name| + 2..]) == Some(Alias(name, code).1)
  {
    var suffix := AliasSuffix(code);
    AliasTail(name, suffix);
    if code < 0 {
      var n: nat := -code;
      assert suffix == "MINUS" + NatString(n);
      MinusSuffixValue(n);
    } else {
      var n: nat := code;
      assert suffix == NatString(n);
      PlainSuffixValue(n);
    }
  }

  /** Past the name and the two underscores comes the suffix. */
  lemma AliasTail(name: string, suffix: string)
    ensures (name + "__" + suffix)[|name| + 2..] == suffix
  {
  }

  /** One alias written out: PI_UNKNOWN_AXIS_IDENTIFIER__MINUS1001 is -1001. */
  lemma UnknownAxisAlias()
    ensures Alias("PI_UNKNOWN_AXIS_IDENTIFIER", PI_UNKNOWN_AXIS_IDENTIFIER)
      == ("PI_UNKNOWN_AXIS_IDENTIFIER" + "__" + "MINUS1001", -1001)
  {
    assert NatString(1) == "1";
    assert NatString(10) == "10";
    assert NatString(100) == "100";
    assert NatString(1001) == "1001";
    assert AliasSuffix(-1001) == "MINUS1001";
  }
}
