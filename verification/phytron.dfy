/**
 * The Phytron phyMOTION driver: the STX/ETX request frame, the ACK/NAK
 * reply parser, the status conversion to asyn, the clamps applied to
 * velocities and accelerations, the decoding of the axis status word,
 * the unit scaling of currents and temperatures, and the module.axis
 * numbering of axes.
 */
module Phytron {
  import opened CSemantics
  import Decimal

  const STX: char := 2 as char
  const ETX: char := 3 as char
  const ACK: char := 6 as char
  const NAK: char := 0x15 as char

  // ---------------------------------------------------------------------
  // Status codes

  /**
   * phytronStatus: the asyn codes, followed by the two codes the driver
   * adds for a reply without STX and for a NAK.
   */
  datatype PhyStatus = Asyn(a: AsynStatus) | InvalidReturn | InvalidCommand
  {
    /** The numeric value of the enumerator. */
    function Rank(): (n: nat)
      ensures n == 0 <==> this == Asyn(AsynSuccess)
    {
      match this
      case Asyn(a) => a.Code()
      case InvalidReturn => 6
      case InvalidCommand => 7
    }
  }

  const Success: PhyStatus := Asyn(AsynSuccess)

  /** phyToAsyn: the two Phytron codes become asynError, the rest keep their value. */
  function PhyToAsyn(s: PhyStatus): (a: AsynStatus)
    ensures s.Asyn? ==> a.Code() == s.Rank()
    ensures !s.Asyn? ==> a == AsynError
    ensures a == AsynSuccess <==> s == Success
  {
    match s
    case Asyn(x) => x
    case _ => AsynError
  }

  // ---------------------------------------------------------------------
  // Request frame

  /**
   * The bytes written to the controller for a command: STX, the module
   * address '0', the command text, the separator ':', the checksum
   * placeholder "XX" that disables checksumming, and ETX.
   */
  function Frame(command: string): (f: string)
  {
    [STX, '0'] + CText(command) + [':', 'X', 'X', ETX]
  }

  /** The command carried by a frame, if the bytes have the frame's shape. */
  function FrameCommand(f: string): (c: Option<string>)
    ensures c.Some? ==> |f| == |c.value| + 6
  {
    if |f| >= 6 && f[0] == STX && f[1] == '0' && f[|f| - 4..] == [':', 'X', 'X', ETX]
    then Some(f[2..|f| - 4])
    else None
  }

  /**
   * The frame is well-formed, carries exactly the C text of the command,
   * and holds no NUL, so it reaches the controller in full.
   */
  lemma FrameRoundTrip(command: string)
    ensures FrameCommand(Frame(command)) == Some(CText(command))
    ensures '\0' !in Frame(command)
  {
    var f := Frame(command);
    var t := CText(command);
    assert f[2..|f| - 4] == t;
    assert f[|f| - 4..] == [':', 'X', 'X', ETX];
  }

  /** Commands with different text give different frames. */
  lemma FrameInjective(c1: string, c2: string)
    requires Frame(c1) == Frame(c2)
    ensures CText(c1) == CText(c2)
  {
    FrameRoundTrip(c1);
    FrameRoundTrip(c2);
  }

  // ---------------------------------------------------------------------
  // Reply parsing

  /** What the reply buffer says, judged from its C text. */
  datatype Reply =
    | NoStx                    // no STX at all
    | Ack(payload: string)     // STX ACK payload ':' ...
    | AckUnterminated          // STX ACK with no ':' after it
    | Nak                      // STX NAK
    | Unrecognised             // STX followed by anything else, or by the terminator

  /**
   * The byte after the first STX decides: ACK carries the payload up to
   * the first ':' after the ACK, NAK rejects the command, and any other
   * byte (the terminator included) leaves the exchange a success with no
   * payload.
   */
  function AfterStx(tail: string): (r: Reply)
    ensures r.Ack? ==> ':' !in r.payload && |r.payload| + 1 < |tail|
    ensures r.Ack? ==> tail[1..|r.payload| + 1] == r.payload && tail[|r.payload| + 1] == ':'
    ensures r.Ack? && '\0' !in tail ==> '\0' !in r.payload
  {
    if |tail| == 0 then Unrecognised
    else if tail[0] == ACK then
      match IndexOf(tail, ':')
      case None => AckUnterminated
      case Some(j) =>
        assert j >= 1;
        assert forall m :: 0 <= m < j - 1 ==> tail[1..j][m] == tail[m + 1];
        Ack(tail[1..j])
    else if tail[0] == NAK then Nak
    else Unrecognised
  }

  /** sendPhytronCommand's reading of the reply: find the first STX of the C text, then look past it. */
  function ParseReply(buffer: string): (r: Reply)
    ensures r == NoStx <==> STX !in CText(buffer)
    ensures r.Ack? ==> ':' !in r.payload && '\0' !in r.payload
  {
    var text := CText(buffer);
    match IndexOf(text, STX)
    case None => NoStx
    case Some(k) =>
      var tail := text[k + 1..];
      assert '\0' !in tail by { assert forall m :: 0 <= m < |tail| ==> tail[m] == text[k + 1 + m]; }
      AfterStx(tail)
  }

  /** The bytes of a positive reply: anything without STX, then STX ACK, the payload and ':'. */
  function AckReply(prefix: string, payload: string, rest: string): string
  {
    prefix + [STX, ACK] + payload + [':'] + rest
  }

  /** The bytes of a negative reply. */
  function NakReply(prefix: string, rest: string): string
  {
    prefix + [STX, NAK] + rest
  }

  /** The first occurrence of c in a + b, when a does not contain it. */
  lemma {:induction false} IndexOfAfter(a: string, b: string, c: char)
    requires c !in a
    ensures IndexOf(a + b, c) == (match IndexOf(b, c) case None => None case Some(j) => Some(|a| + j))
  {
    if |a| == 0 {
      assert a + b == b;
    } else {
      var ab, a1 := a + b, a[1..];
      assert ab[0] == a[0] && a[0] != c;
      assert ab[1..] == a1 + b;
      assert c !in a1 by { assert forall k :: 0 <= k < |a1| ==> a1[k] == a[k + 1]; }
      IndexOfAfter(a1, b, c);
    }
  }

  /** A NUL-free buffer is its own C text. */
  lemma {:induction false} CTextOfNulFree(s: string)
    requires '\0' !in s
    ensures CText(s) == s
  {
    if |s| > 0 {
      assert '\0' !in s[1..] by { assert forall k :: 0 <= k < |s| - 1 ==> s[1..][k] == s[k + 1]; }
      CTextOfNulFree(s[1..]);
    }
  }

  /** ParseReply on NUL-free text reads what follows its first STX. */
  lemma ParseAt(text: string, k: nat, tail: string)
    requires '\0' !in text && IndexOf(text, STX) == Some(k) && tail == text[k + 1..]
    ensures ParseReply(text) == AfterStx(tail)
  {
    CTextOfNulFree(text);
  }

  lemma NulFreeConcat(a: string, b: string, ab: string)
    requires '\0' !in a && '\0' !in b && ab == a + b
    ensures '\0' !in ab
  {
    assert forall k :: 0 <= k < |ab| ==> ab[k] == (if k < |a| then a[k] else b[k - |a|]);
  }

  /** The shape of a positive reply around its STX. */
  lemma AckReplyFrame(prefix: string, payload: string, rest: string, tail: string, frame: string, s: string)
    requires '\0' !in prefix && '\0' !in payload && '\0' !in rest
    requires tail == [ACK] + payload + [':'] + rest && frame == [STX] + tail && s == AckReply(prefix, payload, rest)
    ensures s == prefix + frame && '\0' !in s && s[|prefix| + 1..] == tail
    ensures IndexOf(frame, STX) == Some(0)
  {
    assert forall m :: 0 <= m < |tail| ==> tail[m] != '\0' by {
      assert forall m :: 0 <= m < |tail| ==>
        tail[m] == (if m == 0 then ACK else if m <= |payload| then payload[m - 1]
                    else if m == |payload| + 1 then ':' else rest[m - |payload| - 2]);
    }
    NulFreeConcat(prefix, frame, s);
  }

  /** Past the STX of a positive reply, AfterStx finds the payload. */
  lemma AckAfterStx(payload: string, rest: string, tail: string)
    requires ':' !in payload && tail == [ACK] + payload + [':'] + rest
    ensures AfterStx(tail) == Ack(payload)
  {
    var head, after := [ACK] + payload, [':'] + rest;
    assert tail == head + after;
    assert ':' !in head;
    IndexOfAfter(head, after, ':');
    assert tail[1..|head|] == payload;
  }

  /** Parsing the bytes of a positive reply gives back its payload. */
  lemma AckReplyParses(prefix: string, payload: string, rest: string)
    requires STX !in prefix && ':' !in payload
    requires '\0' !in prefix && '\0' !in payload && '\0' !in rest
    ensures ParseReply(AckReply(prefix, payload, rest)) == Ack(payload)
  {
    var tail := [ACK] + payload + [':'] + rest;
    var frame := [STX] + tail;
    var s := AckReply(prefix, payload, rest);
    AckReplyFrame(prefix, payload, rest, tail, frame, s);
    IndexOfAfter(prefix, frame, STX);
    ParseAt(s, |prefix|, tail);
    AckAfterStx(payload, rest, tail);
  }

  /** Parsing the bytes of a negative reply gives NAK. */
  lemma NakReplyParses(prefix: string, rest: string)
    requires STX !in prefix && '\0' !in prefix && '\0' !in rest
    ensures ParseReply(NakReply(prefix, rest)) == Nak
  {
    var frame := [STX, NAK] + rest;
    var s := NakReply(prefix, rest);
    assert s == prefix + frame;
    NulFreeConcat([STX, NAK], rest, frame);
    NulFreeConcat(prefix, frame, s);
    IndexOfAfter(prefix, frame, STX);
    ParseAt(s, |prefix|, [NAK] + rest);
  }

  // ---------------------------------------------------------------------
  // Storing the payload

  /**
   * The response buffer after the ACK branch as the driver writes it: at
   * most |resp| payload bytes are copied, but the terminator goes to index
   * |payload| whatever the buffer size. None stands for a terminator
   * written outside the buffer.
   */
  function StoreAsWritten(resp: string, payload: string): (r: Option<string>)
  {
    var len := if |payload| > |resp| then |resp| else |payload|;
    if |payload| < |resp| then Some(payload[..len] + ['\0'] + resp[|payload| + 1..])
    else None
  }

  /**
   * A payload as long as the response buffer makes the driver write its
   * terminator past the end of the buffer.
   */
  lemma TerminatorOutsideResponse(resp: string, payload: string)
    requires '\0' !in payload
    ensures StoreAsWritten(resp, payload).None? <==> |payload| >= |resp|
    ensures |payload| < |resp| ==> CText(StoreAsWritten(resp, payload).value) == payload
  {
    if |payload| < |resp| {
      var r := StoreAsWritten(resp, payload).value;
      assert r[..|payload|] == payload && r[|payload|] == '\0';
      CTextUpToNul(r, payload);
    }
  }

  /** A concrete reply whose payload fills the response buffer: the terminator lands outside. */
  lemma ReplyOverrunsResponse(buffer: string, resp: string)
    requires buffer == AckReply("", "1234", ['X', 'X', ETX]) && |resp| == 4
    ensures ParseReply(buffer) == Ack("1234")
    ensures StoreAsWritten(resp, ParseReply(buffer).payload).None?
  {
    AckReplyParses("", "1234", ['X', 'X', ETX]);
  }

  /** The C text of a buffer that starts with NUL-free t followed by NUL. */
  lemma {:induction false} CTextUpToNul(r: string, t: string)
    requires |t| < |r| && r[..|t|] == t && r[|t|] == '\0' && '\0' !in t
    ensures CText(r) == t
  {
    if |t| > 0 {
      assert r[1..][..|t| - 1] == t[1..];
      assert '\0' !in t[1..] by { assert forall k :: 0 <= k < |t| - 1 ==> t[1..][k] == t[k + 1]; }
      CTextUpToNul(r[1..], t[1..]);
      assert [r[0]] + t[1..] == t;
    }
  }

  /**
   * The intended store: the payload is truncated so that it and its
   * terminator fit the response buffer. An empty buffer is left alone.
   */
  function Store(resp: string, payload: string): (r: string)
    requires '\0' !in payload
    ensures |r| == |resp|
    ensures |resp| > 0 ==> CText(r) == payload[..if |payload| < |resp| then |payload| else |resp| - 1]
  {
    if |resp| == 0 then resp
    else
      var n := if |payload| < |resp| then |payload| else |resp| - 1;
      var r := payload[..n] + ['\0'] + resp[n + 1..];
      assert r[..n] == payload[..n] && r[n] == '\0';
      assert '\0' !in payload[..n];
      CTextUpToNul(r, payload[..n]);
      r
  }

  /** Where the payload fits, the intended store and the driver's agree. */
  lemma StoreAgrees(resp: string, payload: string)
    requires '\0' !in payload && |payload| < |resp|
    ensures StoreAsWritten(resp, payload) == Some(Store(resp, payload))
  {
  }

  /** The outcome of one command: the status and the response buffer afterwards. */
  datatype Exchange = Exchange(status: PhyStatus, response: string)

  /**
   * sendPhytronCommand with the intended store: io is the status of the
   * write/read, reply the buffer read back and resp the caller's response
   * buffer. None stands for an ACK with no separator, where the driver
   * computes its length from a null pointer.
   */
  function SendCommand(io: AsynStatus, reply: string, resp: string): (r: Option<Exchange>)
    ensures io != AsynSuccess ==> r == Some(Exchange(Asyn(io), resp))
    ensures r.Some? && r.value.status == InvalidReturn <==> io == AsynSuccess && STX !in CText(reply)
    ensures r.Some? ==> |r.value.response| == |resp|
    ensures r.Some? && r.value.response != resp ==> r.value.status == Success
  {
    if io != AsynSuccess then Some(Exchange(Asyn(io), resp))
    else
      match ParseReply(reply)
      case NoStx => Some(Exchange(InvalidReturn, resp))
      case Nak => Some(Exchange(InvalidCommand, resp))
      case AckUnterminated => None
      case Unrecognised => Some(Exchange(Success, resp))
      case Ack(p) => Some(Exchange(Success, Store(resp, p)))
  }

  /**
   * A positive reply whose payload fits ends in success, and the response
   * buffer then reads back as exactly the payload.
   */
  lemma SendAckReply(prefix: string, payload: string, rest: string, resp: string)
    requires STX !in prefix && ':' !in payload
    requires '\0' !in prefix && '\0' !in payload && '\0' !in rest
    requires |payload| < |resp|
    ensures SendCommand(AsynSuccess, AckReply(prefix, payload, rest), resp).Some?
    ensures SendCommand(AsynSuccess, AckReply(prefix, payload, rest), resp).value.status == Success
    ensures CText(SendCommand(AsynSuccess, AckReply(prefix, payload, rest), resp).value.response) == payload
  {
    AckReplyParses(prefix, payload, rest);
    assert payload[..|payload|] == payload;
  }

  /** A negative reply leaves the response buffer alone and maps to asynError. */
  lemma SendNakReply(prefix: string, rest: string, resp: string)
    requires STX !in prefix && '\0' !in prefix && '\0' !in rest
    ensures SendCommand(AsynSuccess, NakReply(prefix, rest), resp) == Some(Exchange(InvalidCommand, resp))
    ensures PhyToAsyn(InvalidCommand) == AsynError
  {
    NakReplyParses(prefix, rest);
  }

  // ---------------------------------------------------------------------
  // Velocity and acceleration

  datatype MoveType = StdMove | HomeMove | StopMove

  /** The controller limits MIN_ and MAX_ of velocity or acceleration. */
  datatype Limits = Limits(lo: real, hi: real)

  /** The driver's clamp: above the maximum takes the maximum, else below the minimum takes the minimum. */
  function ClampTo(v: real, lim: Limits): (r: real)
    ensures lim.lo <= lim.hi ==> lim.lo <= r <= lim.hi
    ensures lim.lo <= v <= lim.hi ==> r == v
    ensures v > lim.hi ==> r == lim.hi
  {
    if v > lim.hi then lim.hi else if v < lim.lo then lim.lo else v
  }

  /** A parameter write "M<module>P<param>=<value>". */
  datatype ParamWrite = ParamWrite(param: nat, value: real)

  /** The parameters setVelocity writes: (maximum, minimum) velocity per move type. */
  function VelocityParams(mt: MoveType): (p: Option<(nat, nat)>)
    ensures p.Some? <==> mt != StopMove
  {
    match mt
    case StdMove => Some((14, 4))
    case HomeMove => Some((8, 10))
    case StopMove => None
  }

  /** The parameter setAcceleration targets per move type. */
  function AccelerationParam(mt: MoveType): nat
  {
    match mt
    case StdMove => 15
    case HomeMove => 9
    case StopMove => 7
  }

  /** Each move type has its own parameters, and velocity and acceleration never share one. */
  lemma ParamsDistinct(m1: MoveType, m2: MoveType)
    ensures m1 != m2 ==> AccelerationParam(m1) != AccelerationParam(m2)
    ensures m1 != m2 && VelocityParams(m1).Some? && VelocityParams(m2).Some? ==>
      VelocityParams(m1).value.0 != VelocityParams(m2).value.0 &&
      VelocityParams(m1).value.1 != VelocityParams(m2).value.1
    ensures VelocityParams(m1).Some? ==>
      VelocityParams(m1).value.0 != AccelerationParam(m2) && VelocityParams(m1).value.1 != AccelerationParam(m2)
  {
  }

  /**
   * The writes setVelocity sends: the maximum velocity then the minimum
   * one, each made positive and clamped.
   */
  function VelocityWrites(minVelocity: real, maxVelocity: real, mt: MoveType, lim: Limits): (w: seq<ParamWrite>)
    ensures |w| == 0 <==> mt == StopMove
    ensures |w| == 2 ==> w[0].param == VelocityParams(mt).value.0 && w[1].param == VelocityParams(mt).value.1
    ensures lim.lo <= lim.hi ==> forall k :: 0 <= k < |w| ==> lim.lo <= w[k].value <= lim.hi
    ensures |w| == 2 && lim.lo <= Abs(maxVelocity) <= lim.hi ==> w[0].value == Abs(maxVelocity)
    ensures |w| == 2 && lim.lo <= Abs(minVelocity) <= lim.hi ==> w[1].value == Abs(minVelocity)
  {
    match VelocityParams(mt)
    case None => []
    case Some((pMax, pMin)) =>
      [ParamWrite(pMax, ClampTo(Abs(maxVelocity), lim)), ParamWrite(pMin, ClampTo(Abs(minVelocity), lim))]
  }

  /** The larger of two statuses by enumerator value. */
  function Worse(a: PhyStatus, b: PhyStatus): (r: PhyStatus)
    ensures r == a || r == b
    ensures r.Rank() >= a.Rank() && r.Rank() >= b.Rank()
  {
    if a.Rank() > b.Rank() then a else b
  }

  /**
   * setVelocity's result from the statuses of the two writes; for a move
   * type that writes nothing both stay phytronSuccess.
   */
  function SetVelocityStatus(mt: MoveType, maxStatus: PhyStatus, minStatus: PhyStatus): (r: PhyStatus)
    ensures r == Success <==> mt == StopMove || (maxStatus == Success && minStatus == Success)
  {
    if mt == StopMove then Success else Worse(maxStatus, minStatus)
  }

  /** The write setAcceleration sends; it is sent for every move type. */
  function AccelerationWrite(acceleration: real, mt: MoveType, lim: Limits): (w: ParamWrite)
    ensures lim.lo <= lim.hi ==> lim.lo <= w.value <= lim.hi
    ensures lim.lo <= acceleration <= lim.hi ==> w.value == acceleration
  {
    ParamWrite(AccelerationParam(mt), ClampTo(acceleration, lim))
  }

  /** Clamping twice changes nothing: a clamped value is sent as it is. */
  lemma ClampIdempotent(v: real, lim: Limits)
    requires lim.lo <= lim.hi
    ensures ClampTo(ClampTo(v, lim), lim) == ClampTo(v, lim)
  {
  }

  // ---------------------------------------------------------------------
  // Poll

  /** The axis flags poll sets from the "==H" and "SE" replies. */
  datatype AxisStatus = AxisStatus(
    moving: bool, done: bool,
    highLimit: bool, lowLimit: bool, atHome: bool,
    homed: bool, home: bool, slip: bool)

  /** The SE status word as the 32-bit int atoi produced. */
  function Word(v: int): bv32
  {
    (v % 0x1_0000_0000) as bv32
  }

  /**
   * The moving flag comes from the first character of the "==H" reply
   * ('E' means the axis is idle), the others from bits 4, 5, 6, 3 and 14
   * of the SE word; homed and home both take bit 3.
   */
  function DecodeStatus(movingReply: string, w: bv32): (s: AxisStatus)
    ensures s.done == !s.moving
    ensures s.homed == s.home
    ensures s.moving <==> |CText(movingReply)| == 0 || movingReply[0] != 'E'
  {
    var first := if |CText(movingReply)| == 0 then '\0' else movingReply[0];
    var moving := first != 'E';
    AxisStatus(moving, !moving,
      w & 0x10 != 0, w & 0x20 != 0, w & 0x40 != 0,
      w & 0x08 != 0, w & 0x08 != 0, w & 0x4000 != 0)
  }

  /** The bits of the SE word poll reads. */
  const StatusMask: bv32 := 0x4078

  /** An SE word reporting the given flags and nothing else. */
  function EncodeStatus(highLimit: bool, lowLimit: bool, atHome: bool, homed: bool, slip: bool): (w: bv32)
    ensures w & !StatusMask == 0
  {
    (if highLimit then 0x10 else 0) | (if lowLimit then 0x20 else 0) | (if atHome then 0x40 else 0)
    | (if homed then 0x08 else 0) | (if slip then 0x4000 else 0)
  }

  /** Decoding an encoded word gives the flags back. */
  lemma DecodeEncode(movingReply: string, highLimit: bool, lowLimit: bool, atHome: bool, homed: bool, slip: bool)
    ensures var s := DecodeStatus(movingReply, EncodeStatus(highLimit, lowLimit, atHome, homed, slip));
      s.highLimit == highLimit && s.lowLimit == lowLimit && s.atHome == atHome &&
      s.homed == homed && s.home == homed && s.slip == slip
  {
  }

  /** Bits outside the five poll reads do not affect the decoded flags. */
  lemma DecodeIgnoresOtherBits(movingReply: string, w1: bv32, w2: bv32)
    requires w1 & StatusMask == w2 & StatusMask
    ensures DecodeStatus(movingReply, w1) == DecodeStatus(movingReply, w2)
  {
    assert w1 & 0x10 == (w1 & StatusMask) & 0x10 && w2 & 0x10 == (w2 & StatusMask) & 0x10;
    assert w1 & 0x20 == (w1 & StatusMask) & 0x20 && w2 & 0x20 == (w2 & StatusMask) & 0x20;
    assert w1 & 0x40 == (w1 & StatusMask) & 0x40 && w2 & 0x40 == (w2 & StatusMask) & 0x40;
    assert w1 & 0x08 == (w1 & StatusMask) & 0x08 && w2 & 0x08 == (w2 & StatusMask) & 0x08;
    assert w1 & 0x4000 == (w1 & StatusMask) & 0x4000 && w2 & 0x4000 == (w2 & StatusMask) & 0x4000;
  }

  /** What one poll leaves: a failure (problem set) or the decoded status. */
  datatype PollOutcome = Failed(status: AsynStatus) | Polled(flags: AxisStatus)

  /**
   * poll: the position, encoder, moving and status reads in order; the
   * first failing read sets the problem flag and returns its status
   * converted to asyn, and the later reads are not made.
   */
  function Poll(sends: seq<PhyStatus>, movingReply: string, statusValue: int): (r: PollOutcome)
    requires |sends| == 4
    ensures r.Polled? <==> forall k :: 0 <= k < 4 ==> sends[k] == Success
    ensures r.Failed? ==> r.status != AsynSuccess
    ensures r.Failed? ==> exists k :: (0 <= k < 4 && sends[k] != Success && r.status == PhyToAsyn(sends[k])
      && forall m :: 0 <= m < k ==> sends[m] == Success)
  {
    FirstFailure(sends, 0, movingReply, statusValue)
  }

  function FirstFailure(sends: seq<PhyStatus>, k: nat, movingReply: string, statusValue: int): (r: PollOutcome)
    requires |sends| == 4 && k <= 4
    requires forall m :: 0 <= m < k ==> sends[m] == Success
    ensures r.Polled? <==> forall m :: k <= m < 4 ==> sends[m] == Success
    ensures r.Polled? ==> r.flags == DecodeStatus(movingReply, Word(statusValue))
    ensures r.Failed? ==> exists j :: (k <= j < 4 && sends[j] != Success && r.status == PhyToAsyn(sends[j])
      && forall m :: 0 <= m < j ==> sends[m] == Success)
    decreases 4 - k
  {
    if k == 4 then Polled(DecodeStatus(movingReply, Word(statusValue)))
    else if sends[k] != Success then Failed(PhyToAsyn(sends[k]))
    else FirstFailure(sends, k + 1, movingReply, statusValue)
  }

  // ---------------------------------------------------------------------
  // Unit scaling

  /** Currents: the device counts in 10 mA, the records in mA. */
  function ReadCurrent(device: int): (mA: int)
    ensures mA % 10 == 0
  {
    device * 10
  }

  /** writeInt32 divides the record value by 10 with C truncation. */
  function WriteCurrent(mA: int): (device: int)
    ensures IAbs(mA - device * 10) < 10
    ensures IAbs(device) * 10 <= IAbs(mA)
  {
    CDiv(mA, 10)
  }

  /** Reading then writing a current sends back the device value. */
  lemma CurrentRoundTrip(device: int)
    ensures WriteCurrent(ReadCurrent(device)) == device
  {
  }

  /** Writing then reading loses only the last digit, toward zero. */
  lemma CurrentWriteRead(mA: int)
    ensures IAbs(ReadCurrent(WriteCurrent(mA))) <= IAbs(mA)
    ensures IAbs(mA - ReadCurrent(WriteCurrent(mA))) < 10
    ensures mA % 10 == 0 ==> ReadCurrent(WriteCurrent(mA)) == mA
  {
  }

  /** Temperatures: the device reports tenths of a degree. */
  function Temperature(raw: real): (celsius: real)
    ensures celsius * 10.0 == raw
  {
    raw / 10.0
  }

  // ---------------------------------------------------------------------
  // Axis numbering

  /** phytronCreateAxis numbers axis a of module m as m*10 + a. */
  function AxisNumber(moduleNo: int, axis: int): int
  {
    moduleNo * 10 + axis
  }

  /**
   * The "%.1f" text of axisNo/10 that addresses the axis in every command,
   * for an axis number whose tenths are exact.
   */
  function ModuleText(axisNo: nat): string
  {
    Decimal.NatString(axisNo / 10) + "." + [Decimal.DigitChar(axisNo % 10)]
  }

  /** Module and axis are recovered from the number, and the address reads "module.axis". */
  lemma AxisNumberDecodes(moduleNo: nat, axis: nat)
    requires axis < 10
    ensures AxisNumber(moduleNo, axis) >= 0
    ensures AxisNumber(moduleNo, axis) / 10 == moduleNo && AxisNumber(moduleNo, axis) % 10 == axis
    ensures ModuleText(AxisNumber(moduleNo, axis)) == Decimal.NatString(moduleNo) + "." + [Decimal.DigitChar(axis)]
  {
  }

  /** Distinct (module, axis) pairs get distinct numbers and addresses. */
  lemma AxisNumberInjective(m1: nat, a1: nat, m2: nat, a2: nat)
    requires a1 < 10 && a2 < 10
    requires AxisNumber(m1, a1) == AxisNumber(m2, a2)
    ensures m1 == m2 && a1 == a2
  {
    AxisNumberDecodes(m1, a1);
    AxisNumberDecodes(m2, a2);
  }
}
