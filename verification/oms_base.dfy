/**
 * The OMS asyn controller (omsBaseController.cpp): the firmware version
 * test, comma-field extraction, the axis-character substitution of
 * commands, and the per-axis status decode of the poller.
 */
module OmsBase {
  import opened CSemantics
  import opened OmsFields

  /** The firmware version the controller reported. */
  datatype Firmware = Firmware(major: int, minor: int, revision: int)

  /** firmwareMin: the version (major, minor, revision) is at most the controller's. */
  function FirmwareMin(fw: Firmware, major: int, minor: int, revision: int): (r: bool)
    ensures major < fw.major ==> r
    ensures major > fw.major ==> !r
    ensures major == fw.major && minor != fw.minor ==> (r <==> minor < fw.minor)
    ensures major == fw.major && minor == fw.minor ==> (r <==> revision <= fw.revision)
  {
    if major < fw.major then true
    else if major == fw.major then
      (if minor < fw.minor then true
       else if minor == fw.minor then revision <= fw.revision
       else false)
    else false
  }

  /** Every version is at least itself. */
  lemma FirmwareMinReflexive(v: Firmware)
    ensures FirmwareMin(v, v.major, v.minor, v.revision)
  {
  }

  /** The order firmwareMin tests is transitive. */
  lemma FirmwareMinTransitive(a: Firmware, b: Firmware, c: Firmware)
    requires FirmwareMin(b, a.major, a.minor, a.revision)
    requires FirmwareMin(c, b.major, b.minor, b.revision)
    ensures FirmwareMin(c, a.major, a.minor, a.revision)
  {
  }

  /** Any two versions are ordered, and only equal versions both ways. */
  lemma FirmwareMinTotal(a: Firmware, b: Firmware)
    ensures FirmwareMin(b, a.major, a.minor, a.revision) || FirmwareMin(a, b.major, b.minor, b.revision)
    ensures FirmwareMin(b, a.major, a.minor, a.revision) && FirmwareMin(a, b.major, b.minor, b.revision)
            ==> a == b
  {
  }

  /** A field cut to at most maxLen characters, as strncpy into a buffer does. */
  function Truncated(f: string, maxLen: nat): (r: string)
    ensures r <= f
    ensures |r| == if |f| <= maxLen then |f| else maxLen
  {
    if |f| <= maxLen then f else f[..maxLen]
  }

  /** A string of n characters has at most n + 1 fields. */
  lemma {:induction false} FieldCountBound(s: string)
    ensures |Split(s)| <= |s| + 1
    decreases |s|
  {
    match IndexOf(s, ',')
    case None =>
    case Some(k) => FieldCountBound(s[k + 1..]);
  }

  /**
   * The loop of getSubstring from field i on, start being the text from
   * field i: it stops at the wanted field, or when no comma is left.
   */
  function SubstringWalk(start: string, i: nat, number: nat, outLen: nat): (r: Option<string>)
    requires i <= number && outLen >= 1
    ensures r.Some? <==> number - i < |Split(start)|
    ensures r.Some? ==> r.value == Truncated(Split(start)[number - i], outLen - 1)
    decreases |start|
  {
    match IndexOf(start, ',')
    case None =>
      if i == number then Some(Truncated(start, outLen - 1)) else None
    case Some(p) =>
      if i == number then Some(Truncated(start[..p], outLen - 1))
      else SubstringWalk(start[p + 1..], i + 1, number, outLen)
  }

  /**
   * getSubstring: field number (from 0) of the comma-separated s, cut to
   * outLen - 1 characters; None (asynError) when s is shorter than number
   * or has no such field. It works on a copy, so s itself is not changed.
   */
  function GetSubstring(s: string, number: nat, outLen: nat): (r: Option<string>)
    requires outLen >= 1
    ensures r.Some? <==> number < |Split(s)|
    ensures r.Some? ==> r.value == Truncated(Split(s)[number], outLen - 1)
    ensures r.Some? ==> |r.value| < outLen
  {
    FieldCountBound(s);
    if |s| < number then None else SubstringWalk(s, 0, number, outLen)
  }

  /** Field k of joined comma-free fields comes back, cut to the buffer. */
  lemma GetSubstringOfJoin(fs: seq<string>, k: nat, outLen: nat)
    requires |fs| >= 1 && outLen >= 1
    requires forall j :: 0 <= j < |fs| ==> !Contains(fs[j], ',')
    ensures GetSubstring(Join(fs), k, outLen)
            == if k < |fs| then Some(Truncated(fs[k], outLen - 1)) else None
  {
    SplitJoin(fs);
  }

  /** Whether a command starts with the placeholder "A? ". */
  predicate HasAxisPlaceholder(cmd: string)
  {
    |cmd| >= 3 && cmd[..3] == "A? "
  }

  /**
   * sendReplace / sendReceiveReplace: a command starting with "A? " gets
   * the axis character in place of the '?'; any other passes unchanged.
   */
  function ReplaceAxisChar(cmd: string, axisChar: char): (r: string)
    ensures |r| == |cmd|
    ensures forall k :: 0 <= k < |cmd| && k != 1 ==> r[k] == cmd[k]
    ensures HasAxisPlaceholder(cmd) ==> r[1] == axisChar
    ensures !HasAxisPlaceholder(cmd) ==> r == cmd
  {
    if HasAxisPlaceholder(cmd) then cmd[1 := axisChar] else cmd
  }

  /** Substituting twice is substituting once. */
  lemma ReplaceAxisCharIdempotent(cmd: string, axisChar: char)
    ensures ReplaceAxisChar(ReplaceAxisChar(cmd, axisChar), axisChar) == ReplaceAxisChar(cmd, axisChar)
  {
    var r := ReplaceAxisChar(cmd, axisChar);
    if HasAxisPlaceholder(r) {
      assert r[1] == '?';
      assert r == r[1 := axisChar];
    }
  }

  /** The status parameters of one axis and the poller's per-axis counters. */
  datatype AxisFlags = AxisFlags(
    done: bool,
    moving: bool,
    problem: bool,
    lowLimit: bool,
    highLimit: bool,
    atHome: bool,
    direction: bool,
    followingError: bool,
    moveDelay: nat,
    homing: bool)

  /** What one pass of the poller read from the controller. */
  datatype PollReplies = PollReplies(
    status: string,               // the RI reply, STATUS_STRING_LEN characters per axis
    velocities: Option<seq<int>>, // the RV reply, when it could be read
    limitFlags: Option<bv32>,     // the QL mask, when it could be read and converted
    encoderStatus: Option<string>)// the EA reply, when it could be read

  /** Character k of the status field of axis i. */
  function StatusChar(status: string, i: nat, k: nat): char
  {
    CharAt(status, i * STATUS_STRING_LEN + k)
  }

  /** Polls the velocity may read zero before a moving axis is declared stalled. */
  const STALL_POLLS: nat := 5

  /** The axis has stopped: done, not moving, no problem, counters reset. */
  function Stopped(f: AxisFlags, problem: bool): (r: AxisFlags)
    ensures r.done && !r.moving && r.problem == problem && r.moveDelay == 0 && !r.homing
    ensures r.lowLimit == f.lowLimit && r.highLimit == f.highLimit && r.atHome == f.atHome
    ensures r.direction == f.direction && r.followingError == f.followingError
  {
    f.(done := true, moving := false, problem := problem, moveDelay := 0, homing := false)
  }

  /**
   * The done/moving decision for axis i: 'D' in its status field ends the
   * motion; a zero velocity of a moving axis ends it at a limit ('L') or
   * after STALL_POLLS polls with a problem; a non-zero (or unknown)
   * velocity means moving.
   */
  function MotionStage(f: AxisFlags, r: PollReplies, i: nat): (g: AxisFlags)
    requires r.velocities.Some? ==> i < |r.velocities.value|
    ensures StatusChar(r.status, i, 1) == 'D' ==> g == Stopped(f, false)
    ensures StatusChar(r.status, i, 1) != 'D'
            && (r.velocities.None? || r.velocities.value[i] != 0) ==>
              !g.done && g.moving && !g.problem && g.moveDelay == 0
    ensures (f.moving ==> !f.done) ==> (g.moving ==> !g.done)
    ensures (!f.moving && StatusChar(r.status, i, 1) != 'D' && r.velocities.Some?
             && r.velocities.value[i] == 0) ==> g == f
    ensures (f.moving && StatusChar(r.status, i, 1) != 'D' && r.velocities.Some?
             && r.velocities.value[i] == 0 && StatusChar(r.status, i, 2) == 'L') ==>
              g.done && !g.moving && !g.problem
              && (if StatusChar(r.status, i, 0) == 'P' then g.highLimit else g.lowLimit)
    ensures g.moving && g.moveDelay > 0 ==> g.moveDelay == f.moveDelay + 1 < STALL_POLLS
    ensures g.problem && !f.problem ==> g.done && !g.moving && f.moving
    ensures g.followingError == f.followingError
  {
    if StatusChar(r.status, i, 1) == 'D' then Stopped(f, false)
    else if r.velocities.Some? && r.velocities.value[i] == 0 then
      if !f.moving then f
      else if StatusChar(r.status, i, 2) == 'L' then
        var s := Stopped(f, false);
        if StatusChar(r.status, i, 0) == 'P' then s.(highLimit := true)
        else s.(lowLimit := true)
      else if f.moveDelay + 1 >= STALL_POLLS then Stopped(f, true)
      else f.(moveDelay := f.moveDelay + 1)
    else f.(moveDelay := 0, problem := false, done := false, moving := true)
  }

  /** The QL bit holding the low limit of axis i (axes 8 and up use the upper half word). */
  function LowLimitBit(i: nat): (b: nat)
    requires i < 16
    ensures b < 32
  {
    i + (if i > 7 then 8 else 0)
  }

  /** The QL bit holding the high limit of axis i, eight above its low limit. */
  function HighLimitBit(i: nat): (b: nat)
    requires i < 16
    ensures b < 32 && b == LowLimitBit(i) + 8
  {
    i + (if i > 7 then 8 else 0) + 8
  }

  /** The sixteen axes read thirty-two different bits. */
  lemma LimitBitsDistinct(i: nat, j: nat)
    requires i < 16 && j < 16 && i != j
    ensures LowLimitBit(i) != LowLimitBit(j) && HighLimitBit(i) != HighLimitBit(j)
    ensures LowLimitBit(i) != HighLimitBit(j)
  {
  }

  /** The limit switches of axis i from the QL mask, each inverted when limitInvert is set. */
  function LimitStage(f: AxisFlags, limitFlags: Option<bv32>, i: nat, limitInvert: bool): (g: AxisFlags)
    requires i < 16
    ensures limitFlags.None? ==> g == f
    ensures limitFlags.Some? ==>
              (g.lowLimit <==> Bit(limitFlags.value, LowLimitBit(i)) != limitInvert)
              && (g.highLimit <==> Bit(limitFlags.value, HighLimitBit(i)) != limitInvert)
              && g == f.(lowLimit := g.lowLimit, highLimit := g.highLimit)
  {
    match limitFlags
    case None => f
    case Some(m) =>
      f.(lowLimit := Bit(m, LowLimitBit(i)) != limitInvert,
         highLimit := Bit(m, HighLimitBit(i)) != limitInvert)
  }

  /** Buffer size the poller gives getSubstring for the encoder field of an axis. */
  const ENCODER_FIELD_BUFFER: nat := 7

  /**
   * An axis's flags together with the poller's char encBuffer[7], which
   * is declared once for the whole poller and so carries bytes over from
   * one axis (and one poll) to the next.
   */
  datatype Polled = Polled(flags: AxisFlags, encBuffer: seq<char>)

  /**
   * getSubstring's strncpy of count characters followed by
   * outBuffer[count] = NUL: the bytes past the terminator keep whatever
   * an earlier call left there.
   */
  function StoreField(encBuffer: seq<char>, field: string): (r: seq<char>)
    requires |encBuffer| == ENCODER_FIELD_BUFFER && |field| < ENCODER_FIELD_BUFFER
    ensures |r| == ENCODER_FIELD_BUFFER
    ensures forall k :: 0 <= k < |field| ==> r[k] == field[k]
    ensures r[|field|] == '\0'
    ensures forall k :: |field| < k < ENCODER_FIELD_BUFFER ==> r[k] == encBuffer[k]
  {
    field + ['\0'] + encBuffer[|field| + 1..]
  }

  /**
   * The following error of an encoder axis: 'S' at encBuffer[2] after
   * its EA field has been copied in. A field of three characters or more
   * decides by its own third character, a field of two by the terminator,
   * and a shorter one by the byte an earlier axis left at index 2.
   */
  function EncoderStage(f: AxisFlags, encoderStatus: Option<string>, hasEncoder: bool, i: nat,
                        encBuffer: seq<char>): (r: Polled)
    requires |encBuffer| == ENCODER_FIELD_BUFFER
    ensures |r.encBuffer| == ENCODER_FIELD_BUFFER
    ensures r.flags == f.(followingError := r.flags.followingError)
    ensures !(hasEncoder && encoderStatus.Some? && i < |Split(encoderStatus.value)|) ==>
              r == Polled(f, encBuffer)
    ensures hasEncoder && encoderStatus.Some? && i < |Split(encoderStatus.value)| ==>
              var field := Truncated(Split(encoderStatus.value)[i], ENCODER_FIELD_BUFFER - 1);
              r.encBuffer == StoreField(encBuffer, field)
              && (|field| >= 3 ==> (r.flags.followingError <==> field[2] == 'S'))
              && (|field| == 2 ==> !r.flags.followingError)
              && (|field| < 2 ==> (r.flags.followingError <==> encBuffer[2] == 'S'))
  {
    if !hasEncoder then Polled(f, encBuffer)
    else match encoderStatus
      case None => Polled(f, encBuffer)
      case Some(e) =>
        match GetSubstring(e, i, ENCODER_FIELD_BUFFER)
        case None => Polled(f, encBuffer)
        case Some(field) =>
          var buf := StoreField(encBuffer, field);
          Polled(f.(followingError := buf[2] == 'S'), buf)
  }

  /**
   * With axis 0 reporting "ABS" and axis 1 only "A", axis 1 is flagged
   * with a following error from the 'S' that axis 0 left in encBuffer.
   */
  lemma StaleByteFlagsFollowingError(f: AxisFlags, encBuffer: seq<char>)
    requires |encBuffer| == ENCODER_FIELD_BUFFER
    ensures var first := EncoderStage(f, Some("ABS,A"), true, 0, encBuffer);
            first.flags.followingError
            && EncoderStage(f, Some("ABS,A"), true, 1, first.encBuffer).flags.followingError
  {
    assert IndexOf("ABS,A", ',') == Some(3);
    assert "ABS,A"[..3] == "ABS" && "ABS,A"[4..] == "A";
    assert IndexOf("A", ',') == None by {
      assert !Contains("A", ',');
    }
    assert Split("ABS,A") == ["ABS", "A"];
  }

  /**
   * One axis of omsPoller: encoder status, motion, limits, then the home
   * switch ('H') and direction ('P') characters of its status field.
   */
  function AxisPoll(f: AxisFlags, r: PollReplies, i: nat, hasEncoder: bool, limitInvert: bool,
                    encBuffer: seq<char>): (p: Polled)
    requires i < 16 && |encBuffer| == ENCODER_FIELD_BUFFER
    requires r.velocities.Some? ==> i < |r.velocities.value|
    ensures p.flags.atHome <==> StatusChar(r.status, i, 3) == 'H'
    ensures p.flags.direction <==> StatusChar(r.status, i, 0) == 'P'
    ensures MotionOf(p.flags) == MotionOf(MotionStage(f, r, i))
    ensures r.limitFlags.Some? ==>
              (p.flags.lowLimit <==> Bit(r.limitFlags.value, LowLimitBit(i)) != limitInvert)
              && (p.flags.highLimit <==> Bit(r.limitFlags.value, HighLimitBit(i)) != limitInvert)
    ensures p.encBuffer == EncoderStage(f, r.encoderStatus, hasEncoder, i, encBuffer).encBuffer
    ensures p.flags.followingError
            == EncoderStage(f, r.encoderStatus, hasEncoder, i, encBuffer).flags.followingError
  {
    var e := EncoderStage(f, r.encoderStatus, hasEncoder, i, encBuffer);
    var m := MotionStage(e.flags, r, i);
    MotionIgnoresFollowing(f, e.flags, r, i);
    assert e.flags == f.(followingError := e.flags.followingError);
    assert MotionOf(m) == MotionOf(MotionStage(f, r, i));
    var l := LimitStage(m, r.limitFlags, i, limitInvert);
    Polled(l.(atHome := StatusChar(r.status, i, 3) == 'H',
              direction := StatusChar(r.status, i, 0) == 'P'),
           e.encBuffer)
  }

  /** The done/moving decision does not look at the following error. */
  lemma MotionIgnoresFollowing(f: AxisFlags, e: AxisFlags, r: PollReplies, i: nat)
    requires r.velocities.Some? ==> i < |r.velocities.value|
    requires e == f.(followingError := e.followingError)
    ensures MotionOf(MotionStage(e, r, i)) == MotionOf(MotionStage(f, r, i))
  {
    if StatusChar(r.status, i, 1) == 'D' {
    } else if r.velocities.Some? && r.velocities.value[i] == 0 {
      if !f.moving {
      } else if StatusChar(r.status, i, 2) == 'L' {
      } else if f.moveDelay + 1 >= STALL_POLLS {
      } else {
      }
    } else {
    }
  }

  /** The motion state of an axis: done, moving, problem. */
  function MotionOf(g: AxisFlags): (bool, bool, bool)
  {
    (g.done, g.moving, g.problem)
  }

  /** n polls of axis i with the same replies. */
  function RepeatMotion(f: AxisFlags, r: PollReplies, i: nat, n: nat): (g: AxisFlags)
    requires r.velocities.Some? ==> i < |r.velocities.value|
    decreases n
  {
    if n == 0 then f else RepeatMotion(MotionStage(f, r, i), r, i, n - 1)
  }

  /** The axis is moving, but its velocity reads zero and no 'D' or 'L' shows. */
  predicate Stalled(r: PollReplies, i: nat)
    requires r.velocities.Some? ==> i < |r.velocities.value|
  {
    StatusChar(r.status, i, 1) != 'D'
    && StatusChar(r.status, i, 2) != 'L'
    && r.velocities.Some? && r.velocities.value[i] == 0
  }

  /**
   * A stalled axis stays moving for STALL_POLLS - 1 polls, counting them,
   * and the poll after that stops it with a problem.
   */
  lemma {:induction false} StallCounted(f: AxisFlags, r: PollReplies, i: nat, n: nat)
    requires r.velocities.Some? ==> i < |r.velocities.value|
    requires Stalled(r, i) && f.moving && f.moveDelay < STALL_POLLS && f.moveDelay + n <= STALL_POLLS
    ensures var g := RepeatMotion(f, r, i, n);
            if f.moveDelay + n < STALL_POLLS then g.moving && g.moveDelay == f.moveDelay + n
            else g == Stopped(f, true)
    decreases n
  {
    if n > 0 {
      StallStep(f, r, i);
      var f1 := MotionStage(f, r, i);
      assert RepeatMotion(f, r, i, n) == RepeatMotion(f1, r, i, n - 1);
      if f.moveDelay + 1 < STALL_POLLS {
        StallCounted(f1, r, i, n - 1);
        assert Stopped(f1, true) == Stopped(f, true);
      } else {
        assert RepeatMotion(f1, r, i, n - 1) == f1;
      }
    }
  }

  /** One poll of a stalled axis: the count goes up, or the axis stops with a problem. */
  lemma StallStep(f: AxisFlags, r: PollReplies, i: nat)
    requires r.velocities.Some? ==> i < |r.velocities.value|
    requires Stalled(r, i) && f.moving
    ensures MotionStage(f, r, i)
            == if f.moveDelay + 1 < STALL_POLLS then f.(moveDelay := f.moveDelay + 1) else Stopped(f, true)
  {
  }

  /** From rest, a stall is reported on exactly the fifth poll. */
  lemma StallReportedOnFifthPoll(f: AxisFlags, r: PollReplies, i: nat)
    requires r.velocities.Some? ==> i < |r.velocities.value|
    requires Stalled(r, i) && f.moving && f.moveDelay == 0
    ensures RepeatMotion(f, r, i, STALL_POLLS - 1).moving
    ensures RepeatMotion(f, r, i, STALL_POLLS).problem
    ensures RepeatMotion(f, r, i, STALL_POLLS).done
  {
    StallCounted(f, r, i, STALL_POLLS - 1);
    StallCounted(f, r, i, STALL_POLLS);
  }
}
