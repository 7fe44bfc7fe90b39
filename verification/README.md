# EPICS motor module: a Dafny model of its decision and protocol core

This project models the deterministic core of the EPICS `motor` module. That
core sits between the motor record, the drivers and the controllers' wire
protocols. Socket, register and EPICS plumbing is stripped away, and each
piece is a pure function over numbers, flag records, bit words and character
sequences. The pieces are:

- **The motor record.**
  - The newer policy module (`motorRecord.cc`) covers dial/user limits, `range_check`, resolution defaults, the retry decision, the deadband and the soft-limit violation rule.
  - The older record (`motorRecord.c`) covers the minimum retry deadband, readback and limit-switch derivation from MSTA, its own retry rule, the `do_work` limit and no-move rules, speed/resolution reconciliation, and the MIP bits.
- **Newport XPS.**
  - Group-state classification, the position and step unit conversions, and `setPIDValue`.
  - Group-name derivation and `isInGroup`.
  - The deferred group-move buffer.
  - Trajectory element velocities and ramps, the pulse window and period, and the profile readback.
  - The older `XPSMotorDriver` poll with its jog disabling.
- **OMS and MAXnet.**
  - Firmware comparison and comma-field extraction.
  - Integer-array and status-string replies.
  - The `"A? "` axis substitution.
  - The per-axis poll stages: motion and stall, limits, encoder.
  - MAXnet's own `getSubstring` and encoder pass.
  - Argument clamping in move, home, jog and stop.
- **Phytron.**
  - STX/ETX framing and ACK/NAK reply parsing.
  - The status mapping and the velocity and acceleration clamps.
  - `SE` status decoding, current and temperature scaling, and axis numbering.
- **Hytec 8601.**
  - CSR decoding, the 32-bit position split into two 16-bit registers, and `motorAxisSetDouble`.
  - Move, jog and stop ramps, and relative step counts.
  - The configure/open card registry.
- **Newport HXP string helpers.** `ReplaceCharacter`, `CleanString`, `DeleteCharacters` and list-argument commands.
- **PI GCS2.**
  - `TranslatePIError` with its buffer-length guard.
  - The three error-code tables of `picontrollererrors.h` and their alias spelling.
- **Aerotech headers.**
  - The A3200 and Ensemble status, fault and mode words, where every mask is `1u << k` with a `*BITS` twin giving `k`.
  - Packed parameter identifiers, `(category << 24) | index`, for both controllers.

C semantics are written out where they matter:
- truncation toward zero of `(int)` casts, and `floor`/`NINT`;
- `strtol` prefixes, its saturation at `LONG_MIN`/`LONG_MAX`, the narrowing of its result into an `int`, and `size_t` comparison wrap-around;
- C strings as character sequences read up to the first NUL;
- fixed output buffers.

Where the code differs from what it evidently intends, both versions are modelled (see Findings).

A few constants live in headers that are not part of this model. Each enters as a parameter or a separate datatype:
- `motorRecord.h`, `motor.h`, `XPSController.h`, `phytronAxisMotor.h`, `drvHy8601Asyn.h` and `omsBaseController.h` are not part of this model.
- Their constants are parameters: the Phytron limits, the Hytec CSR bit positions, `XPS_MIN_PROFILE_ACCEL_TIME` and `OMS_MAX_AXES`.
- The MSTA word is a record of booleans.
- The `.cc` record reuses the MIP bit values of `motorRecord.c:246-266`.

`XPSMotorDriver.cpp` repeats, line for line, code that the `XPSAxis.cpp` members model:
- group-name derivation (519-528);
- the following-error set (934-943);
- the hard-limit masks (979-988, constants 131-132);
- `isInGroup` (1022-1035);
- `setPIDValue` (1235-1261).

Those members stand for both files. Only its poll differs, and it has its own module.

MAXnet's `sendReceiveContrArray` (`drvMAXnetAsyn.cc:1043-1099`) and `sendReceiveContrStatus` (1026-1041) repeat `getAxesArray` and `getAxesStatus` of `omsBaseController.cpp`. `OmsFields.AxesArray` and `OmsFields.AxesStatus` model both.

## Model

| member | source | states |
|---|---|---|
| MotorRecordPolicy.RangeCheck | motorApp/MotorSrc/motorRecord.cc:4303-4324 | a value inside [min, max] is kept; max == 0 means no upper bound; otherwise the result is raised to min or lowered to max |
| MotorRecordPolicy.RangeCheckNearest | motorApp/MotorSrc/motorRecord.cc:4303-4324 | the clamped value lies in the range, is at least as close to the input as any in-range value, and clamping twice changes nothing |
| MotorRecordPolicy.ClampFrac | motorApp/MotorSrc/motorRecord.cc:2992-3006 | FRAC always ends in [0.1, 1.5] and an in-range FRAC is kept |
| MotorRecordPolicy.SoftLimitsDefined | motorApp/MotorSrc/motorRecord.cc:579-585 | soft limits are undefined exactly when DHLM and DLLM are both zero |
| MotorRecordPolicy.SetUserLimits | motorApp/MotorSrc/motorRecord.cc:4275-4293 | disabled limits give HLM = LLM = 0; DIR positive maps DHLM/DLLM to HLM/LLM, DIR negative swaps them; HLM >= LLM whenever DHLM >= DLLM |
| MotorRecordPolicy.UserLimitsMatchDialLimits | motorApp/MotorSrc/motorRecord.cc:4275-4293 | a dial position lies within [DLLM, DHLM] exactly when its user position lies within [LLM, HLM], for either direction |
| MotorRecordPolicy.CheckResolution | motorApp/MotorSrc/motorRecord.cc:3950-3980 | afterwards SREV > 0 (default 200), MRES != 0 (default 1) and UREV == MRES * SREV; a nonzero UREV sets MRES = UREV / SREV |
| MotorRecordPolicy.CheckResolutionFixedPoints | motorApp/MotorSrc/motorRecord.cc:3950-3980 | the resolution triple is left alone exactly when it is already consistent, so the check is idempotent |
| MotorRecordPolicy.EnforceMinRetryDeadband | motorApp/MotorSrc/motorRecord.cc:671-712 | RDBD is the configured dial value or at least |MRES|; SPDB is non-negative and never above a nonzero RDBD; ERES follows its configured value |
| MotorRecordPolicy.EnforceMinRetryDeadbandStable | motorApp/MotorSrc/motorRecord.cc:671-712 | applying the deadband rules a second time changes nothing when SPDB is non-negative |
| MotorRecordPolicy.EnforceMinRetryDeadbandNegativeSpdb | motorApp/MotorSrc/motorRecord.cc:700-712 | a negative SPDB is first clamped to 0 and only a second pass raises it to RDBD, so the rule is not idempotent in general |
| MotorRecordPolicy.UserCommandedDir | motorApp/MotorSrc/motorRecord.cc:1198 | the user-commanded direction equals the dial one when DIR and the sign of MRES agree, and is reversed otherwise |
| MotorRecordPolicy.MaybeRetry | motorApp/MotorSrc/motorRecord.cc:1192-1266 | RTRY == 0 keeps only JOG_REQ; exhausted retries end done (or jog re-request) with MISS and latched targets; otherwise MIP is exactly RETRY and DMOV false; close enough clears MISS and turns Move into Pause |
| MotorRecordPolicy.WithinDeadband | motorApp/MotorSrc/motorRecord.cc:1946-1970 | outside a retry the move is too small when strictly within SPDB, or within |MRES| when SPDB <= 0; during a retry the threshold is |RDBD| |
| MotorRecordPolicy.PreferredDirection | motorApp/MotorSrc/motorRecord.cc:2022-2027 | without backlash every move is preferred; otherwise the move is preferred when it goes the way the backlash sign selects |
| MotorRecordPolicy.LimitViolation | motorApp/MotorSrc/motorRecord.cc:2028-2045 | disabled limits and moves back toward the valid range never violate; otherwise LVIO holds iff DVAL, or DVAL - BDST for a non-preferred move, is outside the dial limits |
| MotorRecordPolicy.LimitViolationOnlyOutside | motorApp/MotorSrc/motorRecord.cc:2028-2045 | a violation needs a target outside the limits; without backlash it is exactly "outside and not moving back inside" |
| MotorRecordPolicy.DvalChanged | motorApp/MotorSrc/motorRecord.cc:1920-2086 | VAL and RVAL follow DVAL unless refused; a too-small move only latches the targets and may finish; a violation restores the last targets; a dispatched move carries the preferred direction |
| MotorRecordLegacy.MinRetryDeadbandOrdering | motorApp/MotorSrc/motorRecord.c:441-459 | backlash alone leaves the MRES-based minimum unchanged; the minimum grows from MRES only, to encoder, to encoder with backlash, and the last is at most twice the encoder-only value |
| MotorRecordLegacy.EnforceMinRetryDeadband | motorApp/MotorSrc/motorRecord.c:441-459 | RDBD is only ever raised, to the minimum for the encoder/backlash configuration, and never ends below 0.51 * |MRES| |
| MotorRecordLegacy.ProcessMotorInfo | motorApp/MotorSrc/motorRecord.c:2954-3002 | RRBV comes from REP only with an encoder in use; DRBV = RRBV * RES; MOVN is off iff done, problem or overtravel; the raw limits split overtravel by direction and swap when DIR and RES disagree |
| MotorRecordLegacy.LimitSwitchesExclusive | motorApp/MotorSrc/motorRecord.c:2982-2990 | at most one limit switch is reported, one is reported exactly on overtravel, and a limit means not moving |
| MotorRecordLegacy.DirectionSwapsLimits | motorApp/MotorSrc/motorRecord.c:2982-3002 | reversing DIR swaps the high and low switches and mirrors the user readback about the offset |
| MotorRecordLegacy.MaybeRetry | motorApp/MotorSrc/motorRecord.c:829-875 | retries only when |DIFF| > RDBD strictly and no limit switch is on; RTRY == 0 keeps only JOG_REQ; exceeding RTRY ends with MIP 0 and MISS |
| MotorRecordLegacy.RetryVersionsAgree | motorApp/MotorSrc/motorRecord.c:829-866 | away from the limits, jogs and the exact deadband boundary, the old and new retry rules give the same state |
| MotorRecordLegacy.RetryVersionsDifferAtDeadband | motorApp/MotorSrc/motorRecord.c:829-866 | at |DIFF| == RDBD the new record retries while the old one finishes |
| MotorRecordLegacy.DoWorkLimitViolation | motorApp/MotorSrc/motorRecord.c:1744-1759 | no violation exactly when DVAL lies in [DLLM + max(BDST, 0), DHLM + min(BDST, 0)] |
| MotorRecordLegacy.DoWorkLimitCheck | motorApp/MotorSrc/motorRecord.c:1744-1759 | the move goes ahead with LVIO cleared exactly when there is no violation |
| MotorRecordLegacy.RefuseMove | motorApp/MotorSrc/motorRecord.c:1750-1759 | a refused move restores the last targets, sets DMOV and keeps LVIO set |
| MotorRecordLegacy.NoMoveRule | motorApp/MotorSrc/motorRecord.c:1812-1827 | nothing is sent exactly when target and readback round to the same raw step; DMOV becomes true only from MIP 0 or RETRY |
| MotorRecordLegacy.NoMoveWithinOneStep | motorApp/MotorSrc/motorRecord.c:1812-1827 | a target equal to the readback sends nothing, and a suppressed move is within one step of the readback |
| MotorRecordLegacy.ReconcileRate | motorApp/MotorSrc/motorRecord.c:3154-3176 | the revolutions/s and units/s forms of a speed always describe the same rate, the set one being range-checked |
| MotorRecordLegacy.CheckSpeedAndResolution | motorApp/MotorSrc/motorRecord.c:3154-3176 | after the check the resolution is consistent, every speed pair describes one rate, base speeds are non-negative and a zero ACCL or BACC becomes 0.1 |
| MotorRecordLegacy.MaxRate | motorApp/MotorSrc/motorRecord.c:3232-3241 | the maximum speed is taken from SMAX, else from VMAX, else both are zero, and the pair describes one rate |
| MotorRecordLegacy.BaseRateNonNegative | motorApp/MotorSrc/motorRecord.c:3154-3176 | range-checking the base speed against [0, max] never leaves it negative |
| MipFlags.ClearBits | motorApp/MotorSrc/motorRecord.c:245-265 | clearing bits leaves none of them set and every other bit as it was |
| MipFlags.SingleBitsLayout | motorApp/MotorSrc/motorRecord.c:245-265 | the fourteen single-motion bits are 1 << 0 to 1 << 13 in order, pairwise disjoint |
| MipFlags.CompoundMasks | motorApp/MotorSrc/motorRecord.c:249-262 | MIP_JOG, MIP_HOME and MIP_DELAY contain exactly their constituent bits and are disjoint |
| XpsAxis.PollMotion | motorApp/NewportSrc/XPSAxis.cpp:590-623 | outside group states 43..48 the axis never moves; without moving mode, moving is exactly 43..48; done is left unset exactly when moving mode is on, the group and axis were moving and the moving socket gave no reply; otherwise done means not moving and no deferred move |
| XpsAxis.SocketReplyEndsMotion | motorApp/NewportSrc/XPSAxis.cpp:605-620 | a reply on the moving socket ends the motion and reports done unless a move is deferred |
| XpsStatus.AtHome | motorApp/NewportSrc/XPSAxis.cpp:633-642 | the home switch is set exactly in state 11 with referencing mode 0, which is exactly state 11 of a homed axis |
| XpsStatus.Homed | motorApp/NewportSrc/XPSAxis.cpp:644-654 | homed iff the status is 10..21, 44, 45 or 47 and the referencing mode is 0 |
| XpsStatus.FollowingError | motorApp/NewportSrc/XPSAxis.cpp:656-667 | the following-error flag is set iff the status is one of 21, 22, 24, 25, 26, 28, 35 |
| XpsStatus.FollowingErrorIsProblem | motorApp/NewportSrc/XPSAxis.cpp:656-682 | a following error is always also a problem and never a moving state |
| XpsStatus.Problem | motorApp/NewportSrc/XPSAxis.cpp:669-682 | problem iff status < 10, 20..42, 50 or 64, with 20 exempt when noDisableError > 0 |
| XpsStatus.ProblemNeverMoving | motorApp/NewportSrc/XPSAxis.cpp:669-682 | no problem state is a moving state |
| XpsStatus.HighLimit | motorApp/NewportSrc/XPSAxis.cpp:717-726 | the high limit is set iff bit 31 or bit 9 of the positioner error is set |
| XpsStatus.LowLimit | motorApp/NewportSrc/XPSAxis.cpp:717-726 | the low limit is set iff bit 31 or bit 8 of the positioner error is set |
| XpsStatus.LimitsShareBit31 | motorApp/NewportSrc/XPSAxis.cpp:101-102 | bit 31 raises both limits; without it, each limit is its own bit |
| XpsStatus.FlagsOfVelocity | motorApp/NewportSrc/XPSAxis.cpp:739-740 | direction is velocity > 1e-7, moving is |velocity| > 1e-7, and a positive direction implies moving |
| XpsAxis.SignedResolution | motorApp/NewportSrc/XPSAxis.cpp:869-882 | the resolution is negated for a nonzero DIR, and the signed value is zero only for a zero resolution |
| XpsAxis.ToXpsPosition | motorApp/NewportSrc/XPSAxis.cpp:869-882 | the controller position times the signed resolution is (user position - offset) * stepSize; a zero resolution leaves the divisor out |
| XpsAxis.FromXpsPosition | motorApp/NewportSrc/XPSAxis.cpp:884-897 | a zero stepSize is replaced by 1, and (position - offset) * stepSize equals the controller position times the signed resolution |
| XpsAxis.ToXpsStep | motorApp/NewportSrc/XPSAxis.cpp:899-911 | a step converts like a position with no offset |
| XpsAxis.FromXpsStep | motorApp/NewportSrc/XPSAxis.cpp:913-925 | a controller step converts back like a position with no offset |
| XpsAxis.PositionRoundTrip | motorApp/NewportSrc/XPSAxis.cpp:869-897 | with nonzero resolution and stepSize the two position conversions are mutual inverses |
| XpsAxis.StepRoundTrip | motorApp/NewportSrc/XPSAxis.cpp:899-925 | the step conversions are mutual inverses |
| XpsAxis.DirectionNegatesSteps | motorApp/NewportSrc/XPSAxis.cpp:869-911 | a nonzero DIR negates every converted step |
| XpsAxis.ZeroResolutionReadsOffset | motorApp/NewportSrc/XPSAxis.cpp:869-897 | with zero resolution every position reads back as the offset |
| XpsStatus.SetPidValue | motorApp/NewportSrc/XPSAxis.cpp:1314-1340 | option 0, 1 or 2 replaces exactly KP, KI or KD; any other option is asynError and changes nothing |
| XpsStatus.SetPidValueReadBack | motorApp/NewportSrc/XPSAxis.cpp:1314-1340 | the gain set reads back, and a second set of the same gain overrides the first |
| XpsGroup.GroupName | motorApp/NewportSrc/XPSAxis.cpp:181-183 | the group name is the positioner name up to its first '.', or the whole name without one |
| XpsGroup.GroupNameOfQualified | motorApp/NewportSrc/XPSAxis.cpp:181-183 | the group of "group.positioner" is "group" |
| XpsGroup.CountInGroup | motorApp/NewportSrc/XPSAxis.cpp:1101-1114 | the count of axes in a group never exceeds the number of axes |
| XpsGroup.IsInGroup | motorApp/NewportSrc/XPSAxis.cpp:1101-1114 | a configured axis counts itself, so the group size is at least 1 |
| XpsGroup.CountMember | motorApp/NewportSrc/XPSAxis.cpp:1101-1114 | the group of any listed axis has at least one member |
| XpsGroup.CountAbsentGroup | motorApp/NewportSrc/XPSAxis.cpp:1101-1114 | a group no axis belongs to has no members |
| XpsMotorDriver.PollMotion | motorApp/NewportSrc/XPSMotorDriver.cpp:880-921 | jog mode is disabled exactly in state 47 with a successful read of both velocities at 0, and a failed disable leads to a kill; done and home are left unset only in state 47 when the read or the disable fails; otherwise done means not 43..48 and no deferred move, and home means state 11 |
| XpsMotorDriver.DriversAgree | motorApp/NewportSrc/XPSMotorDriver.cpp:880-921 | outside state 47 the old driver's done state equals the new one's without moving mode, and its home flag equals the new at-home flag when referencing mode is 0 |
| XpsGroup.ProcessDeferredMovesInGroup | motorApp/NewportSrc/XPSController.cpp:340-420 | the group buffer holds one entry per member, the move is relative iff some member's deferred move is, every member's deferred flag is cleared, other axes are untouched, and the status follows the send |
| XpsGroup.CollectGroupMove | motorApp/NewportSrc/XPSController.cpp:362-385 | the collected buffer, count and relative flag are those of the group's members in axis order |
| XpsGroup.ClearDeferred | motorApp/NewportSrc/XPSController.cpp:403-409 | after the move only the group's axes lose their deferred flag |
| XpsGroup.GroupBuffer | motorApp/NewportSrc/XPSController.cpp:373-379 | the buffer has exactly one entry per group member |
| XpsGroup.AfterGroupMove | motorApp/NewportSrc/XPSController.cpp:403-409 | an axis keeps every field except its deferred flag, which is cleared only for the moved group |
| XpsGroup.RelativeGroupMoveOvershoots | motorApp/NewportSrc/XPSController.cpp:373-379 | a deferred relative move of 1 from setpoint 10 sends 11 as a relative displacement and ends at 21 instead of 11 |
| XpsGroup.IntendedBufferReachesTargets | motorApp/NewportSrc/XPSController.cpp:373-379 | the corrected buffer brings every group member to its own target, whether the group moves relatively or absolutely |
| XpsGroup.IntendedEntry | motorApp/NewportSrc/XPSController.cpp:373-379 | the corrected entry of an axis brings it to its own target, for a relative or an absolute group move |
| XpsGroup.IntendedBuffer | motorApp/NewportSrc/XPSController.cpp:373-379 | the corrected buffer has one entry per group member |
| XpsGroup.Members | motorApp/NewportSrc/XPSController.cpp:365-381 | the group's members, in axis order, are as many as the group count and all belong to the group |
| XpsGroup.AbsoluteMovesAsIntended | motorApp/NewportSrc/XPSController.cpp:373-379 | when no member is relative the buffer as written is the corrected one |
| XpsProfile.ProfileElement | motorApp/NewportSrc/XPSController.cpp:657-683 | an element's distance is the position step and its velocity times T0 + T1 is D0 + D1 (the last element uses its own step); unused axes get zeros whatever the element times |
| XpsProfile.ConstantVelocityKept | motorApp/NewportSrc/XPSController.cpp:657-683 | a trajectory at constant speed gives that speed to every element |
| XpsProfile.VelocityBetweenNeighbours | motorApp/NewportSrc/XPSController.cpp:657-683 | an interior velocity lies between the speeds of its two neighbouring segments |
| XpsProfile.PreVelocity | motorApp/NewportSrc/XPSController.cpp:612-615 | the pre-ramp velocity is the first segment's speed |
| XpsProfile.PostVelocityAsWritten | motorApp/NewportSrc/XPSController.cpp:617-619 | the post-ramp velocity as written divides the last step by the time one past the last element |
| XpsProfile.PostVelocity | motorApp/NewportSrc/XPSController.cpp:617-619 | the post-ramp velocity as intended is the last segment's speed |
| XpsProfile.PostVelocityContinuous | motorApp/NewportSrc/XPSController.cpp:617-683 | the intended post-ramp velocity equals the last element's velocity, so the ramp continues the trajectory |
| XpsProfile.PostVelocityMismatch | motorApp/NewportSrc/XPSController.cpp:617-619 | a three-point profile whose last element moves at 1.0 gets a post-ramp velocity of 0.5 as written |
| XpsProfile.AxisRampTime | motorApp/NewportSrc/XPSController.cpp:608-627 | an axis's ramp time is |v| / (0.9 * maximum acceleration), never negative |
| XpsProfile.LongestRampTime | motorApp/NewportSrc/XPSController.cpp:608-627 | the ramp time covers every axis's own ramp time |
| XpsProfile.LongestRampTimeAttained | motorApp/NewportSrc/XPSController.cpp:608-627 | the ramp time is zero or is the ramp time of some axis |
| XpsProfile.RampDistance | motorApp/NewportSrc/XPSController.cpp:628-637 | the ramp distance is half of v * t, and within the acceleration bound when t respects it |
| XpsProfile.BuildRamp | motorApp/NewportSrc/XPSController.cpp:608-637 | the ramp lasts at least the minimum time, no axis exceeds 90% of its acceleration, and each distance is 0.5 * v * t |
| XpsProfile.RampDuration | motorApp/NewportSrc/XPSController.cpp:608-637 | the ramp duration is at least the minimum time and respects every axis's acceleration |
| XpsProfile.VerifyMessageDeterminesStatus | motorApp/NewportSrc/XPSController.cpp:735-754 | the verification message names its status: each known code has its own message, so the code can be recovered from it |
| XpsProfile.PulseWindowOk | motorApp/NewportSrc/XPSController.cpp:958-966 | execution is allowed iff 1 <= startPulses <= endPulses <= numElements + 1 |
| XpsProfile.PulsePeriod | motorApp/NewportSrc/XPSController.cpp:958-979 | a period exists iff the window is valid; it is 0 for no pulses and otherwise times the pulse count equals the element time from startPulses to min(endPulses, numElements) |
| XpsProfile.ReadbackProfile | motorApp/NewportSrc/XPSController.cpp:1223-1262 | the sample count is the controller's count clipped to [0, maxProfilePoints]; each readback is the actual position and each following error is actual - setpoint; enough samples were taken iff the count reaches the pulse count |
| XpsProfile.AcceptedBlock | motorApp/NewportSrc/XPSController.cpp:1232-1239 | the block read is no larger than what remains and is accepted by the controller, or 0 when no halving is accepted |
| XpsProfile.ReadBlock | motorApp/NewportSrc/XPSController.cpp:1232-1239 | the halving loop finds that block |
| OmsBase.FirmwareMin | motorApp/OmsAsynSrc/omsBaseController.cpp:907-916 | the installed firmware meets the minimum exactly when it is at least (major, minor, revision) in lexicographic order |
| OmsBase.FirmwareMinReflexive | motorApp/OmsAsynSrc/omsBaseController.cpp:907-916 | every firmware version meets its own minimum |
| OmsBase.FirmwareMinTransitive | motorApp/OmsAsynSrc/omsBaseController.cpp:907-916 | the minimum-version relation is transitive |
| OmsBase.FirmwareMinTotal | motorApp/OmsAsynSrc/omsBaseController.cpp:907-916 | any two versions are comparable, and comparable both ways only when equal |
| OmsBase.GetSubstring | motorApp/OmsAsynSrc/omsBaseController.cpp:1065-1102 | field k exists iff the reply has more than k comma fields; the result is that field truncated to fit the buffer with its terminator |
| OmsBase.SubstringWalk | motorApp/OmsAsynSrc/omsBaseController.cpp:1080-1099 | the field-by-field walk finds the requested field exactly when it exists |
| OmsBase.GetSubstringOfJoin | motorApp/OmsAsynSrc/omsBaseController.cpp:1065-1102 | extracting field k from comma-joined fields returns that field, truncated, or fails past the last one |
| OmsBase.Truncated | motorApp/OmsAsynSrc/omsBaseController.cpp:1081-1089 | a truncated field is a prefix of the field, of length min(field length, limit) |
| OmsBase.FieldCountBound | motorApp/OmsAsynSrc/omsBaseController.cpp:1065-1102 | a string of n characters has at most n + 1 fields |
| OmsBase.ReplaceAxisChar | motorApp/OmsAsynSrc/omsBaseController.cpp:939-960 | only a command starting "A? " has its character 1 replaced by the axis letter; everything else passes unchanged |
| OmsBase.ReplaceAxisCharIdempotent | motorApp/OmsAsynSrc/omsBaseController.cpp:939-960 | substituting twice is substituting once |
| OmsBase.Stopped | motorApp/OmsAsynSrc/omsBaseController.cpp:726-761 | a stopped axis is done, not moving and not homing, with the stall counter cleared; limits, home, direction and following error are kept |
| OmsBase.MotionStage | motorApp/OmsAsynSrc/omsBaseController.cpp:717-761 | 'D' means done; a moving axis with nonzero velocity is moving; a moving axis at zero velocity on a limit stops there; otherwise the stall counter climbs, and only a stall raises a problem |
| OmsBase.StallStep | motorApp/OmsAsynSrc/omsBaseController.cpp:740-761 | one stalled poll counts up, and the poll that reaches the stall limit stops the axis with a problem |
| OmsBase.StallCounted | motorApp/OmsAsynSrc/omsBaseController.cpp:740-761 | n stalled polls add n to the counter until the limit, where the axis stops with a problem |
| OmsBase.StallReportedOnFifthPoll | motorApp/OmsAsynSrc/omsBaseController.cpp:740-761 | starting from a fresh move, four stalled polls keep the axis moving and the fifth reports a problem |
| OmsBase.MotionIgnoresFollowing | motorApp/OmsAsynSrc/omsBaseController.cpp:717-761 | the motion stage does not depend on the following-error flag |
| OmsBase.LowLimitBit | motorApp/OmsAsynSrc/omsBaseController.cpp:768-779 | the low-limit bit of axis i fits in the 32-bit word |
| OmsBase.HighLimitBit | motorApp/OmsAsynSrc/omsBaseController.cpp:768-779 | the high-limit bit is 8 above the low one |
| OmsBase.LimitBitsDistinct | motorApp/OmsAsynSrc/omsBaseController.cpp:768-779 | no two axes share a limit bit, and no low bit is another axis's high bit |
| OmsBase.LimitStage | motorApp/OmsAsynSrc/omsBaseController.cpp:768-779 | each limit is its bit XOR the invert flag; nothing else changes, and without a limit reply nothing changes |
| OmsBase.EncoderStage | motorApp/OmsAsynSrc/omsBaseController.cpp:697-713 | only the following-error flag and encBuffer can change, only for an axis with an encoder whose field exists; the field is copied into encBuffer, and the flag is set iff byte 2 then reads 'S': the field's own third character, the terminator for a two-character field, or the byte an earlier axis left for a shorter one |
| OmsBase.StoreField | motorApp/OmsAsynSrc/omsBaseController.cpp:1092-1093 | the copy puts the field and one terminator at the front of the seven-byte buffer and leaves the bytes after the terminator as they were |
| OmsBase.StaleByteFlagsFollowingError | motorApp/OmsAsynSrc/omsBaseController.cpp:697-707 | with fields "ABS" then "A", the second axis is flagged with a following error from the 'S' the first one left in the shared buffer |
| OmsBase.AxisPoll | motorApp/OmsAsynSrc/omsBaseController.cpp:694-791 | the per-axis poll sets at-home from 'H', direction from 'P', motion from the motion stage, limits from the limit word and the following error from the encoder stage, and hands the encoder buffer on to the next axis |
| OmsFields.AxesStatus | motorApp/OmsAsynSrc/omsBaseController.cpp:981-1000 | a failed send passes its status through with done false; otherwise done iff the reply contains 'D'; success iff the send succeeded, the reply starts with 'P' or 'M' and has at least numAxes * 5 - 1 characters, compared as size_t; any failure is the send's status or asynError |
| OmsFields.AxesArray | motorApp/OmsAsynSrc/omsBaseController.cpp:1007-1062 | success iff the send succeeded, the reply has at least numAxes - 1 characters (compared as size_t) and yields exactly numAxes values, which are then the parsed ones; a failed send passes its status through; numAxes 0 always fails |
| OmsFields.Unsigned | motorApp/OmsAsynSrc/omsBaseController.cpp:1022 | the (unsigned int) conversion yields a value below 2^32 and keeps every value already in that range |
| OmsFields.ParseWellFormed | motorApp/OmsAsynSrc/omsBaseController.cpp:1018-1048 | a reply rendered from integers and empty fields parses back to as many values as it has fields, each the integer as the `int intVal` stores it (saturated to long, then wrapped to 32 bits), empty fields as 0 |
| OmsFields.ParseInt32Fields | motorApp/OmsAsynSrc/omsBaseController.cpp:1018-1048 | when every field lies in the 32-bit range, the reply parses back to exactly those integers |
| OmsFields.Stored | motorApp/OmsAsynSrc/omsBaseController.cpp:1018-1038 | the value kept in `intVal` lies in the 32-bit range and equals the parsed integer whenever that is in range |
| OmsFields.WideValueWraps | motorApp/OmsAsynSrc/omsBaseController.cpp:1018-1043 | the field "3000000000" is stored as -1294967296 |
| OmsFields.HugeValueSaturates | motorApp/OmsAsynSrc/omsBaseController.cpp:1018-1043 | the field "9223372036854775808" (2^63) makes strtol return LONG_MAX, stored as -1 |
| OmsFields.SplitJoin | motorApp/OmsAsynSrc/omsBaseController.cpp:1065-1102 | comma-free fields joined by commas split back into the same fields |
| OmsFields.JoinSplit | motorApp/OmsAsynSrc/omsBaseController.cpp:1065-1102 | joining the comma fields of a string by commas gives back the string |
| OmsFields.Strtol | motorApp/OmsAsynSrc/omsBaseController.cpp:1038 | strtol consumes nothing and returns 0, or stops just before a non-digit or at the end; its value lies within [LONG_MIN, LONG_MAX] |
| OmsFields.StrtolOfInt | motorApp/OmsAsynSrc/omsBaseController.cpp:1038 | strtol reads back any decimal integer followed by a non-digit, consuming exactly its digits; the value is the integer saturated at LONG_MIN/LONG_MAX, hence exact within the range of long |
| Maxnet.GetSubstringAsWritten | motorApp/OmsSrc/drvMAXnetAsyn.cc:162-192 | returns `number` or 0, so field 0 cannot be told from failure; the caller's buffer keeps its length and only commas may become NUL |
| Maxnet.GetSubstringAsWrittenFields | motorApp/OmsSrc/drvMAXnetAsyn.cc:162-192 | for a NUL-free reply the result is nonzero iff field `number` >= 1 exists, and the copy is that field truncated to the buffer length |
| Maxnet.WalkFollowsFields | motorApp/OmsSrc/drvMAXnetAsyn.cc:170-190 | the comma-by-comma walk reaches exactly the requested field |
| Maxnet.NoCommaFails | motorApp/OmsSrc/drvMAXnetAsyn.cc:162-192 | on a buffer without commas every field past 0 fails and the buffer is unchanged |
| Maxnet.TerminatorOverrunsBuffer | motorApp/OmsSrc/drvMAXnetAsyn.cc:185-188 | a seven-character field in a seven-byte buffer gets its terminator at index 7, one past the end |
| Maxnet.EncoderPass | motorApp/OmsSrc/drvMAXnetAsyn.cc:782-795 | the pass yields one update flag per remaining axis |
| Maxnet.EncoderPassUpdatesAtMostOne | motorApp/OmsSrc/drvMAXnetAsyn.cc:782-795 | at most one axis has its following error updated per pass, and none when axis 0 has an encoder |
| Maxnet.EncoderPassMissesBothAxes | motorApp/OmsSrc/drvMAXnetAsyn.cc:786 | on "AAS,BBS" with two encoders, neither axis is updated as written, though the intended stage flags axis 1 |
| Maxnet.MovePositionAsWritten | motorApp/OmsSrc/drvMAXnetAsyn.cc:513 | the cast of position + 0.5 rounds correctly only from -0.5 upwards |
| Maxnet.MovePosition | motorApp/OmsSrc/drvMAXnetAsyn.cc:513 | the intended rounding lands within 0.5 of the position |
| Maxnet.MoveRoundingAsWritten | motorApp/OmsSrc/drvMAXnetAsyn.cc:513 | both roundings agree on positive positions, but -2.7 is sent as -2 instead of -3 |
| Maxnet.MoveAcceleration | motorApp/OmsSrc/drvMAXnetAsyn.cc:525-527 | AC is |acceleration| truncated and clamped to [1, 8,000,000] |
| Maxnet.Move | motorApp/OmsSrc/drvMAXnetAsyn.cc:497-531 | the step sent is (epicsInt32)(position + 0.5) and the move is refused before sending when it is beyond 67,000,000; VL is in [1, 4,000,000], VB in [0, VL - 1], AC in [1, 8,000,000], each kept when already in range |
| Maxnet.MoveIntended | motorApp/OmsSrc/drvMAXnetAsyn.cc:513-517 | with nearest-step rounding the step sent is within 0.5 of the position, and refused exactly when beyond 67,000,000 |
| Maxnet.MoveVersionsAgree | motorApp/OmsSrc/drvMAXnetAsyn.cc:513-517 | the two moves send the same command for positive positions and differ only in the step otherwise; -2.7 goes out as -2, not -3, and -67000000.7 is accepted where the nearest step is refused |
| Maxnet.HomeSearchAsWritten | motorApp/OmsSrc/drvMAXnetAsyn.cc:559-580 | `direction[forwards]` names a search only for forwards 0 or 1; any other value reads outside the two-entry table, which the model marks as None |
| Maxnet.HomeSearch | motorApp/OmsSrc/drvMAXnetAsyn.cc:559-580 | forwards 0 selects "HR" and any other value "HM" |
| Maxnet.HomeSearchAgrees | motorApp/OmsSrc/drvMAXnetAsyn.cc:559-580 | the two agree for 0 and 1, and only the intended one handles 2 |
| Maxnet.Home | motorApp/OmsSrc/drvMAXnetAsyn.cc:554-583 | VL is clamped to [1, 1,000,000], AC to [1, 8,000,000], and the search direction follows forwards |
| Maxnet.VelocityMove | motorApp/OmsSrc/drvMAXnetAsyn.cc:602-617 | JG is the truncated velocity, kept within ±4,000,000 and never of the opposite sign; AC is in [1, 8,000,000], and 1 for an acceleration below 1 |
| Maxnet.StopAcceleration | motorApp/OmsSrc/drvMAXnetAsyn.cc:638-652 | the stop acceleration is round(|a|) capped at 8,000,000, or 200,000 when that rounds below 1 |
| Maxnet.Limits | motorApp/OmsSrc/drvMAXnetAsyn.cc:824-831 | low limit is bit i, high limit bit i + 8 of the limit word, each XOR the invert flag |
| Maxnet.MotionStep | motorApp/OmsSrc/drvMAXnetAsyn.cc:797-819 | 'D' ends the motion; a nonzero velocity means moving; a zero velocity leaves an idle axis alone and ends a moving axis's motion on its fifth stalled poll, with no limit stop and no problem flag |
| Maxnet.StallCounted | motorApp/OmsSrc/drvMAXnetAsyn.cc:802-814 | fewer than five stalled polls leave a moving axis moving and count each poll |
| Maxnet.StalledDoneOnFifthPoll | motorApp/OmsSrc/drvMAXnetAsyn.cc:802-814 | a moving axis that stalls without 'D' is still moving after four polls and done after the fifth |
| Maxnet.MotionAgreesWithOms | motorApp/OmsSrc/drvMAXnetAsyn.cc:797-819 | MAXnet decides done and moving as the OMS base poller does on 'D', on a nonzero velocity and for an idle axis; on a limit ('L') the OMS base poller stops a stalled axis at once, MAXnet does not |
| Maxnet.LimitBitsAgreeWithOms | motorApp/OmsSrc/drvMAXnetAsyn.cc:824-831 | for MAXnet's axes the limit bits are those of the OMS base poller, and distinct across axes |
| Phytron.FrameRoundTrip | motorApp/PhytronSrc/phytronAxisMotor.cpp:476-483 | the request frame is STX '0' command ':' 'X' 'X' ETX, and the command text is recovered from it |
| Phytron.FrameCommand | motorApp/PhytronSrc/phytronAxisMotor.cpp:476-483 | a text read as a frame carries its command between six framing characters |
| Phytron.FrameInjective | motorApp/PhytronSrc/phytronAxisMotor.cpp:476-483 | different commands give different frames |
| Phytron.ParseReply | motorApp/PhytronSrc/phytronAxisMotor.cpp:490-521 | a reply without STX is an invalid return; an ACK payload contains no ':' and no NUL |
| Phytron.AfterStx | motorApp/PhytronSrc/phytronAxisMotor.cpp:496-521 | the ACK payload is exactly the characters between the ACK and the first following ':' |
| Phytron.AckReplyParses | motorApp/PhytronSrc/phytronAxisMotor.cpp:490-521 | an ACK reply parses to its payload whatever precedes STX and follows ':' |
| Phytron.NakReplyParses | motorApp/PhytronSrc/phytronAxisMotor.cpp:490-521 | a NAK reply parses as an invalid command |
| Phytron.Store | motorApp/PhytronSrc/phytronAxisMotor.cpp:505-510 | the response buffer keeps its size and holds the payload, truncated to leave room for the terminator |
| Phytron.StoreAgrees | motorApp/PhytronSrc/phytronAxisMotor.cpp:505-510 | when the payload fits, the store as written is the intended one |
| Phytron.TerminatorOutsideResponse | motorApp/PhytronSrc/phytronAxisMotor.cpp:505-510 | the store as written fails exactly when the payload does not fit the response buffer, and otherwise holds it |
| Phytron.ReplyOverrunsResponse | motorApp/PhytronSrc/phytronAxisMotor.cpp:505-510 | a four-character payload into a four-byte response writes its terminator past the end |
| Phytron.SendCommand | motorApp/PhytronSrc/phytronAxisMotor.cpp:470-526 | an I/O failure passes through; a reply without STX is an invalid return; the response only changes on success |
| Phytron.SendAckReply | motorApp/PhytronSrc/phytronAxisMotor.cpp:470-526 | an ACK reply whose payload fits gives success and that payload |
| Phytron.SendNakReply | motorApp/PhytronSrc/phytronAxisMotor.cpp:470-526 | a NAK reply gives an invalid command, which maps to asynError |
| Phytron.PhyToAsyn | motorApp/PhytronSrc/phytronAxisMotor.cpp:529-532 | invalid return and invalid command become asynError; every asyn status keeps its code; only success maps to success |
| Phytron.ClampTo | motorApp/PhytronSrc/phytronAxisMotor.cpp:612-664 | a clamped value lies within the limits and an in-range value is kept |
| Phytron.ClampIdempotent | motorApp/PhytronSrc/phytronAxisMotor.cpp:612-664 | clamping twice is clamping once |
| Phytron.VelocityParams | motorApp/PhytronSrc/phytronAxisMotor.cpp:612-664 | a stop move writes no velocity; standard and home moves write their own parameter pair |
| Phytron.ParamsDistinct | motorApp/PhytronSrc/phytronAxisMotor.cpp:612-693 | different move types never write the same velocity or acceleration parameter |
| Phytron.VelocityWrites | motorApp/PhytronSrc/phytronAxisMotor.cpp:612-664 | |max| and |min| velocity are written clamped to their parameters, none for a stop move |
| Phytron.Worse | motorApp/PhytronSrc/phytronAxisMotor.cpp:655-664 | the combined status is one of the two and ranks no better than either |
| Phytron.SetVelocityStatus | motorApp/PhytronSrc/phytronAxisMotor.cpp:612-664 | setting the velocity succeeds iff it is a stop move or both writes succeed |
| Phytron.AccelerationWrite | motorApp/PhytronSrc/phytronAxisMotor.cpp:670-693 | the acceleration written is clamped, and kept when in range |
| Phytron.DecodeStatus | motorApp/PhytronSrc/phytronAxisMotor.cpp:965-985 | moving iff the moving reply does not start with 'E'; done is not moving; homed and home agree |
| Phytron.EncodeStatus | motorApp/PhytronSrc/phytronAxisMotor.cpp:977-985 | a built status word uses only the decoded bits |
| Phytron.DecodeEncode | motorApp/PhytronSrc/phytronAxisMotor.cpp:977-985 | 0x10, 0x20, 0x40, 0x08 and 0x4000 decode to high limit, low limit, at home, homed and slip independently |
| Phytron.DecodeIgnoresOtherBits | motorApp/PhytronSrc/phytronAxisMotor.cpp:977-985 | bits outside those five never change the decoded status |
| Phytron.Poll | motorApp/PhytronSrc/phytronAxisMotor.cpp:914-1000 | the poll decodes only when all four exchanges succeed, and otherwise reports the first failure's asyn status |
| Phytron.FirstFailure | motorApp/PhytronSrc/phytronAxisMotor.cpp:914-1000 | from exchange k on, the result is the first failing exchange, or the decoded status when none fails |
| Phytron.ReadCurrent | motorApp/PhytronSrc/phytronAxisMotor.cpp:255-260 | a current reads as a multiple of 10 mA |
| Phytron.WriteCurrent | motorApp/PhytronSrc/phytronAxisMotor.cpp:327-335 | the device value is the current divided by 10, truncated toward zero |
| Phytron.CurrentRoundTrip | motorApp/PhytronSrc/phytronAxisMotor.cpp:255-335 | a device value read and written back is unchanged |
| Phytron.CurrentWriteRead | motorApp/PhytronSrc/phytronAxisMotor.cpp:255-335 | a current written and read back loses less than 10 mA toward zero, and none for a multiple of 10 |
| Phytron.Temperature | motorApp/PhytronSrc/phytronAxisMotor.cpp:410-411 | the temperature is the raw value divided by 10 |
| Phytron.AxisNumberDecodes | motorApp/PhytronSrc/phytronAxisMotor.cpp:553-576 | axis number module * 10 + axis recovers module and axis, and prints as "module.axis" |
| Phytron.AxisNumberInjective | motorApp/PhytronSrc/phytronAxisMotor.cpp:553-576 | distinct (module, axis) pairs get distinct axis numbers |
| Hy8601.DecodeCsr | motorApp/HytecSrc/drvHy8601Asyn.c:611-621 | has-encoder is set exactly when the encoder-detect bit is clear |
| Hy8601.DecodeEncode | motorApp/HytecSrc/drvHy8601Asyn.c:611-621 | a CSR built from any flags decodes to those flags |
| Hy8601.RaisingDoneOnlySetsDone | motorApp/HytecSrc/drvHy8601Asyn.c:600-621 | setting the done bit changes only the done flag |
| Hy8601.InterruptStatus | motorApp/HytecSrc/drvHy8601Asyn.c:628-644 | the interrupt reports the CSR's done, limit and problem flags, and signals home exactly when home is set |
| Hy8601.Lo | motorApp/HytecSrc/drvHy8601Asyn.c:283-284 | the low register holds a 16-bit value |
| Hy8601.Hi | motorApp/HytecSrc/drvHy8601Asyn.c:283-284 | the high register holds a 16-bit value |
| Hy8601.Raw | motorApp/HytecSrc/drvHy8601Asyn.c:600-601 | the two registers assemble a 32-bit signed count |
| Hy8601.SplitRoundTrip | motorApp/HytecSrc/drvHy8601Asyn.c:283-284 | any 32-bit count split into the two registers reads back unchanged |
| Hy8601.RawInjective | motorApp/HytecSrc/drvHy8601Asyn.c:600-601 | different register pairs read as different counts |
| Hy8601.InitialDrv | motorApp/HytecSrc/drvHy8601Asyn.c:766-769 | a new axis starts with resolution 1 and the hardware encoder ratio 0.25 |
| Hy8601.ReadPosition | motorApp/HytecSrc/drvHy8601Asyn.c:600-605 | with an encoder the position is count * ratio; otherwise, for a nonzero resolution, position * resolution is the count |
| Hy8601.ReadSteps | motorApp/HytecSrc/drvHy8601Asyn.c:600-605 | a step count reads back as steps / resolution |
| Hy8601.Reported | motorApp/HytecSrc/drvHy8601Asyn.c:611-612 | the posted position is the nearest integer, halves rounded up |
| Hy8601.SetDouble | motorApp/HytecSrc/drvHy8601Asyn.c:272-340 | gains, closed loop and unknown parameters are refused with the axis unchanged; a resolution change from a zero resolution has no defined result; a stored value returns the parameter table's status; only a position loads the registers |
| Hy8601.ResolutionKeepsLimits | motorApp/HytecSrc/drvHy8601Asyn.c:287-293 | a new resolution rescales both soft limits so they stay put in user units |
| Hy8601.EncoderRatioQuartered | motorApp/HytecSrc/drvHy8601Asyn.c:295-298 | the stored encoder ratio is a quarter of the value set, and nothing else changes |
| Hy8601.LimitInUserUnits | motorApp/HytecSrc/drvHy8601Asyn.c:301-309 | a soft limit set in user units reads back as that value at the current resolution |
| Hy8601.SetPositionReadBack | motorApp/HytecSrc/drvHy8601Asyn.c:281-285 | a position loaded into the registers reads back within one step below the value set |
| Hy8601.SetPositionRegs | motorApp/HytecSrc/drvHy8601Asyn.c:281-285 | setting the position loads the split floor(value * resolution) and keeps the axis state |
| Hy8601.MoveSpeeds | motorApp/HytecSrc/drvHy8601Asyn.c:362-376 | a move writes the ramp only for acceleration >= 64, and start and high speeds only when nonzero |
| Hy8601.JogSpeeds | motorApp/HytecSrc/drvHy8601Asyn.c:464-482 | a jog writes the ramp for any nonzero acceleration |
| Hy8601.JogOrHome | motorApp/HytecSrc/drvHy8601Asyn.c:425-497 | a home search or jog loads the jog speed registers, sets the direction bit exactly for a non-negative velocity (home ignores its forwards argument), which agrees with the sign of the high-speed register, and adds HOMESTOP only for a home search |
| Hy8601.RampRulesDiffer | motorApp/HytecSrc/drvHy8601Asyn.c:362-482 | an acceleration between 1 and 64 sets the ramp for a jog but not for a move |
| Hy8601.MoveSteps | motorApp/HytecSrc/drvHy8601Asyn.c:377-410 | the step registers hold 16-bit values and a relative move is forward iff the position is non-negative |
| Hy8601.RelativeMoveDisplacement | motorApp/HytecSrc/drvHy8601Asyn.c:377-410 | the signed step count of a relative move is the scaled position truncated toward zero |
| Hy8601.StepCountIsFloorOfMagnitude | motorApp/HytecSrc/drvHy8601Asyn.c:385-391 | the step count is the floor of the magnitude |
| Hy8601.Stop | motorApp/HytecSrc/drvHy8601Asyn.c:513-538 | zero acceleration is a crash stop; otherwise the ramp is 64 below 64, else min(current ramp, floor(a)) |
| Hy8601.StopIdempotent | motorApp/HytecSrc/drvHy8601Asyn.c:513-538 | stopping again with the same acceleration changes nothing |
| Hy8601.FirstClash | motorApp/HytecSrc/drvHy8601Asyn.c:730-746 | a clash is found iff some card has the same number or carrier and slot |
| Hy8601.Configure | motorApp/HytecSrc/drvHy8601Asyn.c:699-790 | configure refuses vectors outside 1..255, clashes and failed hardware, and otherwise appends exactly the new card |
| Hy8601.ConfigureKeepsRegistry | motorApp/HytecSrc/drvHy8601Asyn.c:699-790 | a registry with unique numbers and slots stays so after configure |
| Hy8601.FindCard | motorApp/HytecSrc/drvHy8601Asyn.c:221-232 | the card lookup finds a card with that number, or fails iff there is none |
| Hy8601.Open | motorApp/HytecSrc/drvHy8601Asyn.c:221-232 | open succeeds iff the card exists and 0 <= axis < its axis count |
| Hy8601.OpenAfterConfigure | motorApp/HytecSrc/drvHy8601Asyn.c:221-790 | after a successful configure, exactly its axes can be opened |
| Hxp.ReplaceCharacter | motorApp/NewportSrc/hxp_drivers.cpp:45-66 | the buffer keeps its length and everything past the text; within the text, only old characters inside bracket pairs become the new one |
| Hxp.ReplaceAsWritten | motorApp/NewportSrc/hxp_drivers.cpp:45-66 | the loop as written keeps the buffer length whenever it stays inside it |
| Hxp.ReplaceByMask | motorApp/NewportSrc/hxp_drivers.cpp:45-66 | a character changes iff it lies strictly inside a bracket pair and is the old character |
| Hxp.ProtectRoundTrip | motorApp/NewportSrc/hxp_drivers.cpp:45-66 | replacing ';' by ':' inside brackets and back restores the text when ':' was not inside brackets |
| Hxp.AsWrittenAgrees | motorApp/NewportSrc/hxp_drivers.cpp:45-66 | on text whose brackets all close, the code as written gives the intended result |
| Hxp.ReplacePastTerminator | motorApp/NewportSrc/hxp_drivers.cpp:52-60 | an unclosed '{' makes the code as written replace past the terminator, unlike the intended result |
| Hxp.Clean | motorApp/NewportSrc/hxp_drivers.cpp:71-106 | cleaning never lengthens the text |
| Hxp.CleanAgrees | motorApp/NewportSrc/hxp_drivers.cpp:71-106 | without stray closing brackets and within the buffer, the code as written drops exactly the blanks inside bracket pairs |
| Hxp.CleanBySieve | motorApp/NewportSrc/hxp_drivers.cpp:71-106 | cleaning keeps, in order, exactly the characters that are not blanks lying strictly inside a bracket pair |
| Hxp.CleanNoOpenIdentity | motorApp/NewportSrc/hxp_drivers.cpp:71-106 | text without an opening bracket is returned unchanged |
| Hxp.CleanIdempotent | motorApp/NewportSrc/hxp_drivers.cpp:71-106 | cleaning twice is cleaning once |
| Hxp.CleanDuplicatesStrayClose | motorApp/NewportSrc/hxp_drivers.cpp:80-100 | the code as written turns "}}{" into "}}}{", where the intended cleaning leaves it unchanged |
| Hxp.DeleteCharacters | motorApp/NewportSrc/hxp_drivers.cpp:111-136 | the result is the text without the characters to delete, in order, and exists iff it fits the buffer with room for the loop's second terminator |
| Hxp.DeleteRemoves | motorApp/NewportSrc/hxp_drivers.cpp:111-136 | the result holds exactly the characters of the text that are not to be deleted |
| Hxp.DeleteIdempotent | motorApp/NewportSrc/hxp_drivers.cpp:111-136 | deleting again from the result changes nothing |
| Hxp.DeleteFullResultOverruns | motorApp/NewportSrc/hxp_drivers.cpp:120-135 | 1023 kept characters fit the intended buffer but make the code as written write its terminator at index 1024 |
| Hxp.ListCommand | motorApp/NewportSrc/hxp_drivers.cpp:1471-1481 | the command is the name, " (", the elements joined by single commas, and ")" |
| Hxp.JoinSnoc | motorApp/NewportSrc/hxp_drivers.cpp:1471-1481 | appending an element adds a comma and the element |
| Hxp.SplitJoin | motorApp/NewportSrc/hxp_drivers.cpp:1471-1481 | comma-free elements can be recovered from the joined list |
| PiErrors.Translate | motorApp/PIGCS2Src/translateerror.c:34-3342 | success iff the code has a message shorter than maxlen; the buffer then holds exactly the message, and on failure it is untouched |
| PiErrors.SizeT | motorApp/PIGCS2Src/translateerror.c:44 | the size_t conversion keeps non-negative values below 2^64 and adds 2^64 to negative ones |
| PiErrors.TranslateAsWritten | motorApp/PIGCS2Src/translateerror.c:44-49 | with the size_t comparison as written, a failure still leaves the buffer untouched |
| PiErrors.AsWrittenAgrees | motorApp/PIGCS2Src/translateerror.c:34-3342 | for non-negative maxlen the comparison as written gives the intended translation |
| PiErrors.NegativeMaxlenAccepted | motorApp/PIGCS2Src/translateerror.c:42-50 | maxlen -1 passes the guard as written, but not the intended one |
| PiErrors.TranslateFits | motorApp/PIGCS2Src/translateerror.c:44-49 | a successful translation leaves text plus terminator within maxlen |
| PiErrors.TranslateMonotone | motorApp/PIGCS2Src/translateerror.c:34-3342 | success for maxlen means the same success for every larger maxlen |
| PiErrors.UnknownCodeFails | motorApp/PIGCS2Src/translateerror.c:3338-3339 | codes without a case, such as 6006 and -1083, fail for every maxlen and leave the buffer untouched |
| PiErrors.NoErrorText | motorApp/PIGCS2Src/translateerror.c:788-796 | code 0 gives "No error" iff maxlen > 8 |
| PiErrors.UnknownAxisText | motorApp/PIGCS2Src/translateerror.c:42-50 | code -1001 gives "Unknown axis identifier" iff maxlen > 23 |
| PiErrors.ComErrorText | motorApp/PIGCS2Src/translateerror.c:2785-2793 | code -1 gives "Error during com operation (could not be specified)" |
| PiErrors.DllBusyText | motorApp/PIGCS2Src/translateerror.c:105-113 | DLL code -1008 gives the "Controller is busy..." message |
| PiErrors.ControllerBusyText | motorApp/PIGCS2Src/translateerror.c:2363-2371 | controller code 1005 gives the same words |
| PiErrors.BusyTextShared | motorApp/PIGCS2Src/translateerror.c:105-113 | two distinct codes, -1008 and 1005, share one message |
| PiErrors.DllLayout | motorApp/PIGCS2Src/picontrollererrors.h:20-265 | the DLL codes are listed in descending order, are distinct and lie in [-1082, -1001] |
| PiErrors.ControllerLayout | motorApp/PIGCS2Src/picontrollererrors.h:274-867 | the controller codes are listed in ascending order, are distinct and lie in [0, 5200] |
| PiErrors.InterfaceLayout | motorApp/PIGCS2Src/picontrollererrors.h:876-1061 | the interface codes are listed in descending order, are distinct and lie in [-61, 0] |
| PiErrors.GroupsShareOnlyNoError | motorApp/PIGCS2Src/picontrollererrors.h:274-277 | the three tables are disjoint except that the controller and interface "no error" codes are both 0 |
| PiErrors.NamedCodes | motorApp/PIGCS2Src/picontrollererrors.h:1069-1070 | the obsolete names equal the current ones (5 and 23), and PI_MOTION_ERROR is the negation of PI_CNTR_MOTION_ERROR |
| PiErrors.Print | motorApp/PIGCS2Src/translateerror.c:44-49 | the buffer then holds the message, with the bytes past its terminator untouched |
| PiErrors.Alias | motorApp/PIGCS2Src/picontrollererrors.h:20-21 | an alias is the name, "__" and a suffix, and has the name's value |
| PiErrors.AliasSpellsValue | motorApp/PIGCS2Src/picontrollererrors.h:20-21 | an alias's suffix spells its value, "MINUS" marking a negative one |
| PiErrors.UnknownAxisAlias | motorApp/PIGCS2Src/picontrollererrors.h:20-21 | the alias of PI_UNKNOWN_AXIS_IDENTIFIER is PI_UNKNOWN_AXIS_IDENTIFIER__MINUS1001 = -1001 |
| AerotechFlags.Decode | motorApp/AerotechSrc/A3200CommonStructures.h:38-92 | decoding a word gives one flag per mask, each the bit at its twin index |
| AerotechFlags.DecodeEncode | motorApp/AerotechSrc/A3200CommonStructures.h:38-147 | for a table whose masks are 1 << twin with rising indices, any choice of flags encoded and decoded comes back unchanged |
| AerotechFlags.DistinctMasks | motorApp/AerotechSrc/A3200CommonStructures.h:38-92 | the masks of such a table are strictly increasing, hence pairwise distinct |
| AerotechFlags.FullWord | motorApp/AerotechSrc/A3200CommonStructures.h:277-410 | a table of 32 rising bits is exactly bits 0 to 31 in order |
| A3200Structures.TaskStatesContiguous | motorApp/AerotechSrc/A3200CommonStructures.h:11-35 | TASKSTATE values are exactly 0 to 10 in order |
| A3200Structures.AxisStatusLayout | motorApp/AerotechSrc/A3200CommonStructures.h:38-147 | every AXISSTATUS mask is 1 << its AXISSTATUSBITS twin, rising from 0 to 26, with bit 6 unused |
| A3200Structures.AxisFaultLayout | motorApp/AerotechSrc/A3200CommonStructures.h:150-251 | every AXISFAULT mask is 1 << its twin, with bits 13, 16 and 21 unused |
| A3200Structures.DriveStatusLayout | motorApp/AerotechSrc/A3200CommonStructures.h:277-410 | every DRIVESTATUS mask is 1 << its twin, rising from 0 to 31 |
| A3200Structures.DriveStatusFull | motorApp/AerotechSrc/A3200CommonStructures.h:277-410 | DRIVESTATUS uses all 32 bits, member k being bit k |
| A3200Structures.TaskStatus0Layout | motorApp/AerotechSrc/A3200CommonStructures.h:450-571 | every TASKSTATUS0 mask is 1 << its twin, with bit 1 unused |
| A3200Structures.TaskStatus1Layout | motorApp/AerotechSrc/A3200CommonStructures.h:574-671 | every TASKSTATUS1 mask is 1 << its twin, with bits 14 and 20 unused |
| A3200Structures.TaskStatus2Layout | motorApp/AerotechSrc/A3200CommonStructures.h:674-799 | every TASKSTATUS2 mask is 1 << its twin, with bit 29 unused |
| A3200Structures.TaskModeLayout | motorApp/AerotechSrc/A3200CommonStructures.h:802-911 | every TASKMODE mask is 1 << its twin, with bits 18-21 and 29 unused |
| A3200Structures.QueueStatusLayout | motorApp/AerotechSrc/A3200CommonStructures.h:914-943 | every QUEUESTATUS mask is 1 << its twin, bits 0 to 5 |
| A3200Structures.DataCollectionFlagsLayout | motorApp/AerotechSrc/A3200CommonStructures.h:955-984 | every DATACOLLECTIONFLAGS mask is 1 << its twin, rising from 2 to 16 with the gaps the header leaves |
| A3200Structures.DataRecordingFlagsLayout | motorApp/AerotechSrc/A3200CommonStructures.h:1227-1240 | the two DATARECORDINGFLAGS masks are bits 0 and 1 |
| A3200Structures.DataPlaybackFlagsLayout | motorApp/AerotechSrc/A3200CommonStructures.h:1243-1256 | the two DATAPLAYBACKFLAGS masks are bits 0 and 1 |
| A3200Structures.AxisStatusIndependent | motorApp/AerotechSrc/A3200CommonStructures.h:38-92 | the AXISSTATUS masks are distinct powers of two, so a word built from any flags decodes to those flags |
| A3200Structures.AxisFaultIndependent | motorApp/AerotechSrc/A3200CommonStructures.h:150-251 | a word built from any axis-fault flags decodes to those flags |
| EnsembleStructures.ServoRatesContiguous | motorApp/AerotechSrc/EnsembleCommonStructures.h:10-25 | SERVORATEPARAMETER values are exactly 0 to 5 in order |
| EnsembleStructures.PlaneStatusLayout | motorApp/AerotechSrc/EnsembleCommonStructures.h:48-78 | every PLANESTATUS mask is 1 << its twin, bits 0 to 5 |
| EnsembleStructures.DebugFlagsLayout | motorApp/AerotechSrc/EnsembleCommonStructures.h:81-102 | every DEBUGFLAGS mask is 1 << its twin, bits 0 to 3 |
| EnsembleStructures.AxisStatusLayout | motorApp/AerotechSrc/EnsembleCommonStructures.h:105-238 | every AXISSTATUS mask is 1 << its twin, rising from 0 to 31 |
| EnsembleStructures.AxisStatusFull | motorApp/AerotechSrc/EnsembleCommonStructures.h:105-238 | AXISSTATUS uses all 32 bits, member k being bit k |
| EnsembleStructures.DataCollectionFlagsLayout | motorApp/AerotechSrc/EnsembleCommonStructures.h:315-336 | every DATACOLLECTIONFLAGS mask is 1 << its twin, with bits 0, 1 and 4 unused |
| EnsembleStructures.EthernetStatusLayout | motorApp/AerotechSrc/EnsembleCommonStructures.h:511-524 | the ETHERNETSTATUS masks are bits 0 and 1 |
| EnsembleStructures.FlashConfigStatusLayout | motorApp/AerotechSrc/EnsembleCommonStructures.h:719-737 | the FLASHCONFIGSTATUS masks are bits 0 to 2 |
| EnsembleStructures.AxisFaultLayout | motorApp/AerotechSrc/EnsembleCommonStructures.h:740-837 | every AXISFAULT mask is 1 << its twin, with bits 13, 14, 16, 21, 22, 25, 26, 29 and 31 unused |
| EnsembleStructures.AxisFaultIndependent | motorApp/AerotechSrc/EnsembleCommonStructures.h:740-837 | a word built from any axis-fault flags decodes to those flags |
| EnsembleStructures.ComponentTypesLayout | motorApp/AerotechSrc/EnsembleCommonStructures.h:670-699 | the 13 COMPONENTTYPE codes are distinct, lie in 32773..32786, and 32783 is absent |
| EnsembleStructures.HomedBitsDiffer | motorApp/AerotechSrc/EnsembleCommonStructures.h:107-110 | the Ensemble has Enabled at bit 0 and Homed at bit 1, so the A3200 Homed mask reads an Ensemble word's Enabled flag |
| EnsembleStructures.RampModesDiffer | motorApp/AerotechSrc/EnsembleCommonStructures.h:850-859 | the Ensemble ramp modes are Dist 0, Rate 1, Time 2, the A3200 ones Rate 0, Time 1 |
| ParameterPacking.Pack | motorApp/AerotechSrc/A3200ParameterId.h:14-1115 | a packed identifier lies in its category's block of 2^24 values |
| ParameterPacking.Index | motorApp/AerotechSrc/A3200ParameterId.h:14-1115 | the index part of an identifier is below 2^24 |
| ParameterPacking.InCategory | motorApp/AerotechSrc/A3200ParameterId.h:14-1115 | an ascending table running from (c, lo) to (c, hi) lies wholly in category c with indices in [lo, hi] |
| ParameterPacking.UnpackPack | motorApp/AerotechSrc/A3200ParameterId.h:14-1115 | category and index are recovered from a packed identifier |
| ParameterPacking.PackUnpack | motorApp/AerotechSrc/A3200ParameterId.h:14-1115 | every identifier is the packing of its category and index |
| ParameterPacking.PackInjective | motorApp/AerotechSrc/A3200ParameterId.h:14-1115 | two packings are equal iff category and index both are |
| ParameterPacking.ShiftOr | motorApp/AerotechSrc/A3200ParameterId.h:14-1115 | on 32-bit words, (c << 24) \| i is c * 2^24 + i, and >> 24 and & 0xFFFFFF recover c and i |
| A3200ParameterIds.Category2Layout | motorApp/AerotechSrc/A3200ParameterId.h:16-98 | the 42 category-2 identifiers strictly rise within category 2, indices 0 to 262 |
| A3200ParameterIds.Category1Layout | motorApp/AerotechSrc/A3200ParameterId.h:100-416 | the 159 category-1 identifiers strictly rise within category 1, indices 0 to 169 |
| A3200ParameterIds.Category0Layout | motorApp/AerotechSrc/A3200ParameterId.h:418-1114 | the 349 category-0 identifiers strictly rise within category 0, indices 0 to 385 |
| A3200ParameterIds.UpperLayout | motorApp/AerotechSrc/A3200ParameterId.h:16-416 | the category-2 and category-1 identifiers together are distinct and at least Pack(1, 0) |
| A3200ParameterIds.ParameterIdsLayout | motorApp/AerotechSrc/A3200ParameterId.h:14-1115 | all 550 identifiers are distinct, with category at most 2 and index at most 385 |
| EnsembleParameterIds.ParameterIdsLayout | motorApp/AerotechSrc/ParameterId.h:11-766 | the 377 identifiers strictly rise within category 0, indices 0 to 763 |
| EnsembleParameterIds.ParameterIdsAreIndices | motorApp/AerotechSrc/ParameterId.h:11-766 | every identifier is in category 0 and equals its own index |
| EnsembleParameterIds.DefaultWaitModeDiffers | motorApp/AerotechSrc/ParameterId.h:169 | DefaultWaitMode is (0, 79) here and (1, 0) in the A3200 table, so identifiers are table-specific |

## Left out

- I/O, threads and timing are left out.
  - This covers sockets, asyn octet I/O, EPICS callbacks and parameter posting.
  - It also covers poller threads, events, mutexes and the DLY watchdog.
  - Register and interrupt access is represented by parameters: the reply, the status or the register value.
- Floating-point formatting and parsing (`%g`, `%lf`, `atof`, `strtod`) is left out. Numbers are `real` or `int`, and IEEE rounding is not modelled.
- `sprintf` into fixed command buffers is left out. Only the clamps and choices that feed it are modelled, not the text, except where the text is the property: the Phytron frame, the HXP list command and the MAXnet home command.
- `XPSController::buildProfile`'s FTP upload and trajectory file text are left out. The element, ramp and pulse arithmetic is modelled.
- ProfileMove execution is left out, and so is everything in `route.c`.
- Constants defined in headers that are not part of this model are parameters of the members that use them. This affects:
  - the Phytron velocity and acceleration limits;
  - the Hytec CSR bit positions;
  - `XPS_MIN_PROFILE_ACCEL_TIME`;
  - `OMS_MAX_AXES`;
  - the Hytec axis count.
- The ranks of the Phytron status values are an assumed order. They are not the header's numbers.
- Twenty-three case labels in `translateerror.c` are not defined in `picontrollererrors.h`. Their values are taken from the case comments.
- `COM_NO_ERROR` has no case in `translateerror.c`, so the model gives no message for interface code 0. A lookup of 0 finds the controller's "No error".
- The PI aliases (`NAME__N`, `NAME__MINUSN`) are modelled by their spelling rule and one worked instance. The other aliases are not listed one by one.
- The Aerotech plain enumerations carry no property beyond their values, and are not modelled beyond those stated.
- The Aerotech drivers `drvA3200Asyn.cc` and `drvEnsembleAsyn.cc` are left out.
- ParameterPacking.ShiftOr: the shift-and-mask decoding is stated on 32-bit words only for category < 0x80, because a 32-bit signed category field is never larger in either table.
- Hytec's `motorAxisSetInteger` only forwards to the parameter table and is left out.
- Hxp.Clean: the contract is only a length bound. The meaning, "drops exactly the blanks inside bracket pairs", is stated through CleanBySieve, CleanAgrees, CleanIdempotent and CleanNoOpenIdentity, and holds only for text without stray closing brackets.
- Hxp.ReplaceAsWritten only states that the length is kept. Its agreement with ReplaceCharacter holds only for text whose brackets all close (AsWrittenAgrees).
- HXP `strncat`/`strcpy` truncation, and the `strtok`-based reply splitting at the call sites, are left out.
- XpsProfile.ProfileElement: for an axis in use, element times that sum to zero are excluded by the precondition. The source divides anyway and writes an IEEE infinity or NaN, which `real` cannot represent.
- XpsProfile.PreVelocity: a zero first element time is excluded. The source divides by it unguarded (infinity or NaN).
- XpsProfile.PostVelocityAsWritten: a zero `times[numPoints-1]` is excluded. The source divides by it unguarded (infinity or NaN).
- XpsProfile.PostVelocity: a zero last element time is excluded, for the same reason.
- XpsProfile.AxisRampTime: a maximum acceleration of zero or less from the controller is excluded. The source divides by 0.9 times it unguarded.
- XpsProfile.BuildRamp: every axis's maximum acceleration must be positive, for the same reason.
- Maxnet.MovePositionAsWritten: the cast to `epicsInt32` is undefined in C for values outside the 32-bit range. The model truncates the unbounded value, and the 67,000,000 check then refuses it.
- OmsFields.Strtol: `long` is taken as 64 bits (LP64). The narrowing of its result into `int intVal` (omsBaseController.cpp:1018, and MAXnet's `sendReceiveContrArray`, modelled by the same ParseValues) is implementation-defined in C; it is modelled as wrap-around modulo 2^32, as the usual compilers define it.
- Maxnet.Home builds its command from the intended HomeSearch. As written, a forwards outside {0, 1} indexes `direction[]` out of bounds; that version is HomeSearchAsWritten (see Findings), so "the search direction follows forwards" describes the intended code.
- XpsGroup.CountInGroup only states a bound. Membership counting itself is stated by IsInGroup, CountMember and CountAbsentGroup.

## Findings

| source | as written | input that shows it | evidently intended | confidence | as-written member | corrected member |
|---|---|---|---|---|---|---|
| motorApp/NewportSrc/XPSController.cpp:373-379 | a deferred relative axis puts setpoint + deferredPosition in the buffer, and the group is then moved relatively by that amount | setpoint 10, relative move 1: the axis ends at 21 | a relative group move sends the displacement, an absolute one the target | medium, not executed | XpsGroup.RelativeGroupMoveOvershoots | XpsGroup.IntendedBufferReachesTargets |
| motorApp/NewportSrc/XPSController.cpp:617-619 | the post-ramp velocity divides the last position step by `times[numPoints-1]`, one past the last element's time | positions 0, 1, 3 and times 1, 2, 4: the last element moves at 1.0, the ramp at 0.5 | divide by the last element's own time | medium, not executed | XpsProfile.PostVelocityMismatch | XpsProfile.PostVelocity |
| motorApp/OmsSrc/drvMAXnetAsyn.cc:185-188 | the field is copied up to outBufferLen characters and the terminator written at index outBufferLen | a seven-character field with a seven-byte buffer | stop at outBufferLen - 1, as the OMS base controller does | high, not executed | Maxnet.TerminatorOverrunsBuffer | OmsBase.GetSubstring |
| motorApp/OmsSrc/drvMAXnetAsyn.cc:786 | the encoder loop calls getSubstring on the buffer that the previous call already cut at its commas | reply "AAS,BBS" with two encoders: neither axis is flagged | read each axis's field of the whole reply | high, not executed | Maxnet.EncoderPassMissesBothAxes | OmsBase.EncoderStage |
| motorApp/OmsSrc/drvMAXnetAsyn.cc:513 | `(epicsInt32)(position + 0.5)` truncates toward zero | position -2.7 is sent as -2; -67000000.7 passes the range check | round to the nearest step: -3, and refuse -67000000.7 | medium, not executed | Maxnet.MoveVersionsAgree | Maxnet.MoveIntended |
| motorApp/OmsSrc/drvMAXnetAsyn.cc:559-580 | `fw` is computed from forwards (lines 564-567) and never used; the search is `direction[forwards]`, which for any forwards other than 0 or 1 reads outside the two-entry array, and the command is still sent | forwards 2 | use fw: any nonzero value means forwards | low, not executed | Maxnet.HomeSearchAsWritten | Maxnet.HomeSearch |
| motorApp/PhytronSrc/phytronAxisMotor.cpp:505-510 | the payload is copied and terminated at an index that is not limited by the response buffer size | a four-character ACK payload into a four-byte response | truncate to the buffer, leaving room for the terminator | high, not executed; latent at the call sites shown, which all pass MAX_CONTROLLER_STRING_SIZE | Phytron.ReplyOverrunsResponse | Phytron.Store |
| motorApp/NewportSrc/hxp_drivers.cpp:52-60 | the inner loop after an unmatched start character scans on past the string's terminator | "{;" NUL ";}" NUL: the ';' after the terminator is replaced too | stop at the terminator | high, not executed | Hxp.ReplacePastTerminator | Hxp.ReplaceCharacter |
| motorApp/NewportSrc/hxp_drivers.cpp:80-100 | a closing character outside any pair is copied twice | "}}{" becomes "}}}{" | copy it once | high, not executed | Hxp.CleanDuplicatesStrayClose | Hxp.CleanIdempotent |
| motorApp/NewportSrc/hxp_drivers.cpp:120-135 | the loop copies the terminator and a second one is written after it, one past the buffer when 1023 characters are kept | 1023 kept characters | write one terminator inside the buffer | high, not executed; latent at the call sites shown, which pass names of at most 100 bytes | Hxp.DeleteFullResultOverruns | Hxp.DeleteIdempotent |
| motorApp/PIGCS2Src/translateerror.c:44 | `strlen(msg) < maxlen` converts a negative maxlen to a huge size_t | maxlen -1 with code -1001 reports success | a negative maxlen never fits | high, not executed | PiErrors.NegativeMaxlenAccepted | PiErrors.Translate |
