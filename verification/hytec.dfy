/**
 * The Hytec 8601 IP stepper-motor driver: the control/status register
 * (CSR) decode, the 32-bit position split over two 16-bit registers, the
 * driver's unit conversions (resolution, encoder ratio, soft limits), the
 * register writes of a move, a home, a jog and a stop, and the
 * configure/open argument checks.
 */
module Hy8601 {
  import opened CSemantics

  // ---------------------------------------------------------------------
  // Registers

  const Word: int := 0x1_0000

  /** The low register of a 32-bit count: count & 0xFFFF on a two's-complement int. */
  function Lo(count: int): (r: nat)
    ensures r < Word
  {
    count % Word
  }

  /** The high register: (count >> 16) & 0xFFFF, the arithmetic shift being a floor division. */
  function Hi(count: int): (r: nat)
    ensures r < Word
  {
    (count / Word) % Word
  }

  /**
   * (HI << 16) + LO read back into a 32-bit int: a high register with its
   * top bit set gives a negative value.
   */
  function Raw(hi: nat, lo: nat): (v: int)
    requires hi < Word && lo < Word
    ensures -0x8000_0000 <= v < 0x8000_0000
  {
    var u := hi * Word + lo;
    if u >= 0x8000_0000 then u - 0x1_0000_0000 else u
  }

  /** Splitting a 32-bit count over the two registers and reading them back gives the count. */
  lemma SplitRoundTrip(count: int)
    requires -0x8000_0000 <= count < 0x8000_0000
    ensures Raw(Hi(count), Lo(count)) == count
  {
    var q := count / Word;
    assert count == q * Word + Lo(count);
    assert -0x8000 <= q < 0x8000;
    if q < 0 {
      assert Hi(count) == q + Word;
    } else {
      assert Hi(count) == q;
    }
  }

  /** Distinct register pairs read back as distinct counts. */
  lemma RawInjective(h1: nat, l1: nat, h2: nat, l2: nat)
    requires h1 < Word && l1 < Word && h2 < Word && l2 < Word
    requires Raw(h1, l1) == Raw(h2, l2)
    ensures h1 == h2 && l1 == l2
  {
    var u1, u2 := h1 * Word + l1, h2 * Word + l2;
    assert u1 == u2 by {
      if u1 >= 0x8000_0000 && u2 < 0x8000_0000 { assert false; }
      if u2 >= 0x8000_0000 && u1 < 0x8000_0000 { assert false; }
    }
    assert h1 == u1 / Word && l1 == u1 % Word;
  }

  // ---------------------------------------------------------------------
  // CSR decode

  /**
   * The CSR as its sixteen bits, bit k being set when csr & (1 << k) is
   * nonzero.
   */
  type Csr = b: seq<bool> | |b| == 16 witness seq(16, _ => false)

  /**
   * Bit positions of the CSR flags; the CSR_* masks live in the driver's
   * header, which is not part of this model.
   */
  datatype CsrLayout = CsrLayout(
    done: nat, maxLmt: nat, homeLmt: nat, drvStat: nat, minLmt: nat, direction: nat, encodDet: nat)
  {
    predicate Valid()
    {
      done < 16 && maxLmt < 16 && homeLmt < 16 && drvStat < 16 && minLmt < 16 && direction < 16 && encodDet < 16
    }

    /** The seven flags sit on seven different bits. */
    predicate Distinct()
    {
      && done != maxLmt && done != homeLmt && done != drvStat && done != minLmt && done != direction && done != encodDet
      && maxLmt != homeLmt && maxLmt != drvStat && maxLmt != minLmt && maxLmt != direction && maxLmt != encodDet
      && homeLmt != drvStat && homeLmt != minLmt && homeLmt != direction && homeLmt != encodDet
      && drvStat != minLmt && drvStat != direction && drvStat != encodDet
      && minLmt != direction && minLmt != encodDet
      && direction != encodDet
    }
  }

  datatype CsrFlags = CsrFlags(
    done: bool, highLimit: bool, home: bool, problem: bool, lowLimit: bool, direction: bool, hasEncoder: bool)

  /**
   * The poller's reading of the CSR: each flag is its bit, except that an
   * encoder is present when the encoder-detect bit is clear.
   */
  function DecodeCsr(csr: Csr, l: CsrLayout): (f: CsrFlags)
    requires l.Valid()
    ensures f.hasEncoder <==> !csr[l.encodDet]
  {
    CsrFlags(csr[l.done], csr[l.maxLmt], csr[l.homeLmt], csr[l.drvStat], csr[l.minLmt], csr[l.direction], !csr[l.encodDet])
  }

  /** The CSR with the given flags set and every other bit clear. */
  function EncodeCsr(f: CsrFlags, l: CsrLayout): (csr: Csr)
    requires l.Valid()
  {
    seq(16, k =>
      (k == l.done && f.done) || (k == l.maxLmt && f.highLimit) || (k == l.homeLmt && f.home) ||
      (k == l.drvStat && f.problem) || (k == l.minLmt && f.lowLimit) || (k == l.direction && f.direction) ||
      (k == l.encodDet && !f.hasEncoder))
  }

  /** With the flags on distinct bits, decoding an encoded CSR gives the flags back. */
  lemma DecodeEncode(f: CsrFlags, l: CsrLayout)
    requires l.Valid() && l.Distinct()
    ensures DecodeCsr(EncodeCsr(f, l), l) == f
  {
  }

  /**
   * Raising the done bit changes the decoded flags in exactly one place:
   * done becomes true.
   */
  lemma RaisingDoneOnlySetsDone(csr: Csr, l: CsrLayout)
    requires l.Valid() && l.Distinct()
    ensures DecodeCsr(csr[l.done := true], l) == DecodeCsr(csr, l).(done := true)
  {
  }

  /**
   * The interrupt-time status update: done, limits, home and problem
   * from the latched CSR, and a request to clear stop-at-home once the
   * home switch is reported.
   */
  function InterruptStatus(csr: Csr, l: CsrLayout): (r: (CsrFlags, bool))
    requires l.Valid()
    ensures r.1 <==> r.0.home
    ensures r.0.done == DecodeCsr(csr, l).done && r.0.highLimit == DecodeCsr(csr, l).highLimit
    ensures r.0.lowLimit == DecodeCsr(csr, l).lowLimit && r.0.problem == DecodeCsr(csr, l).problem
  {
    var f := DecodeCsr(csr, l);
    (f, csr[l.homeLmt])
  }

  // ---------------------------------------------------------------------
  // Driver state and parameters

  /** The per-card conversion state. */
  datatype Drv = Drv(resolution: real, softLowLimit: real, softHighLimit: real, encoderRatio: real, useEncoder: bool)

  /** The encoder counts four edges per pulse. */
  const EncoderHardRatio: real := 0.25

  /** The state a freshly configured card starts from. */
  function InitialDrv(useEncoder: bool): (d: Drv)
    ensures d.resolution == 1.0 && d.encoderRatio == EncoderHardRatio
  {
    Drv(1.0, 0.0, 0.0, EncoderHardRatio, useEncoder)
  }

  /**
   * The position the poller reports, from the two position registers:
   * encoder counts scaled by the ratio, or steps divided by the resolution
   * (None for a zero resolution, where the division has no real value).
   */
  function ReadPosition(d: Drv, hi: nat, lo: nat): (p: Option<real>)
    requires hi < Word && lo < Word
    ensures d.useEncoder ==> p == Some(Raw(hi, lo) as real * d.encoderRatio)
    ensures !d.useEncoder && d.resolution != 0.0 ==> p.Some? && p.value * d.resolution == Raw(hi, lo) as real
  {
    if d.useEncoder then Some(Raw(hi, lo) as real * d.encoderRatio)
    else if d.resolution == 0.0 then None
    else Some(Raw(hi, lo) as real / d.resolution)
  }

  /** The motor and encoder positions posted: floor(position + 0.5), both the same. */
  function Reported(position: real): (r: int)
    ensures position - 0.5 < r as real <= position + 0.5
  {
    (position + 0.5).Floor
  }

  datatype Param =
    | Position | Resolution | EncoderRatio | LowLimit | HighLimit
    | PGain | IGain | DGain | ClosedLoop | OtherParam

  /** The outcome of motorAxisSetDouble: status, new state, the position registers written, if any. */
  datatype SetOutcome = SetOutcome(ok: bool, drv: Drv, positionRegs: Option<(nat, nat)>, stored: bool)

  /**
   * motorAxisSetDouble. Position loads the position registers with
   * floor(value * resolution); Resolution rescales both soft limits by
   * new/old (None when the old resolution is zero); EncoderRatio stores a
   * quarter of the value; the limits are stored in steps; the gains and
   * closed-loop control are refused. Only accepted values reach the
   * parameter table, and then the table's status is the result.
   */
  function SetDouble(d: Drv, p: Param, value: real, tableOk: bool): (r: Option<SetOutcome>)
    ensures p in {PGain, IGain, DGain, ClosedLoop, OtherParam} ==>
      r == Some(SetOutcome(false, d, None, false))
    ensures r.Some? && r.value.stored ==> r.value.ok == tableOk
    ensures r.None? <==> p == Resolution && d.resolution == 0.0
    ensures r.Some? && p != Position ==> r.value.positionRegs.None?
    ensures r.Some? ==> r.value.drv.useEncoder == d.useEncoder
  {
    var accepted := p in {Position, Resolution, EncoderRatio, LowLimit, HighLimit};
    if !accepted then Some(SetOutcome(false, d, None, false))
    else if p == Resolution && d.resolution == 0.0 then None
    else if p == Position then Some(SetOutcome(tableOk, d, Some(PositionRegs(d, value)), true))
    else Some(SetOutcome(tableOk, Apply(d, p, value), None, true))
  }

  /** The registers motorAxisPosition loads: the step count split in two. */
  function PositionRegs(d: Drv, value: real): (regs: (nat, nat))
    ensures regs.0 < Word && regs.1 < Word
  {
    var steps := PositionSteps(d, value);
    (Hi(steps), Lo(steps))
  }

  /** The step count a position of value user units stands for: floor(value * resolution). */
  function PositionSteps(d: Drv, value: real): (steps: int)
    ensures value * d.resolution - 1.0 < steps as real <= value * d.resolution
  {
    (value * d.resolution).Floor
  }

  /** The state change of an accepted parameter other than the position. */
  function Apply(d: Drv, p: Param, value: real): (e: Drv)
    requires p == Resolution ==> d.resolution != 0.0
    ensures e.useEncoder == d.useEncoder
  {
    match p
    case Resolution =>
      d.(resolution := value,
         softLowLimit := Rescaled(d.softLowLimit, d.resolution, value),
         softHighLimit := Rescaled(d.softHighLimit, d.resolution, value))
    case EncoderRatio => d.(encoderRatio := EncoderHardRatio * value)
    case LowLimit => d.(softLowLimit := d.resolution * value)
    case HighLimit => d.(softHighLimit := d.resolution * value)
    case _ => d
  }

  /**
   * A change of resolution keeps the soft limits where they were in user
   * units: limit / resolution is the same before and after.
   */
  lemma ResolutionKeepsLimits(d: Drv, value: real, tableOk: bool)
    requires d.resolution != 0.0 && value != 0.0
    ensures SetDouble(d, Resolution, value, tableOk).Some?
    ensures var e := SetDouble(d, Resolution, value, tableOk).value.drv;
      e.resolution == value &&
      e.softLowLimit / e.resolution == d.softLowLimit / d.resolution &&
      e.softHighLimit / e.resolution == d.softHighLimit / d.resolution
  {
  }

  /**
   * A limit held in steps, carried from resolution r to resolution v:
   * v * limit / r, which stands for the same value in user units.
   */
  function Rescaled(limit: real, r: real, v: real): (x: real)
    requires r != 0.0
    ensures v != 0.0 ==> x / v == limit / r
  {
    v * limit / r
  }

  /** A limit set in user units reads back in user units at the current resolution. */
  lemma LimitInUserUnits(d: Drv, value: real, tableOk: bool)
    requires d.resolution != 0.0
    ensures SetDouble(d, LowLimit, value, tableOk).Some?
    ensures SetDouble(d, LowLimit, value, tableOk).value.drv.softLowLimit / d.resolution == value
    ensures SetDouble(d, HighLimit, value, tableOk).value.drv.softHighLimit / d.resolution == value
  {
  }

  /**
   * The encoder ratio is stored as a quarter of the value set, and nothing
   * else of the axis changes; encoder-read positions are scaled by it.
   */
  lemma EncoderRatioQuartered(d: Drv, value: real, tableOk: bool)
    ensures SetDouble(d, EncoderRatio, value, tableOk).Some?
    ensures var e := SetDouble(d, EncoderRatio, value, tableOk).value.drv;
      4.0 * e.encoderRatio == value && e == d.(encoderRatio := e.encoderRatio)
  {
  }

  /** A whole number of steps below v * r, divided back by r, lies within one step of v. */
  lemma StepBounds(v: real, r: real, steps: int)
    requires r > 0.0 && v * r - 1.0 < steps as real <= v * r
    ensures v - 1.0 / r < steps as real / r <= v
  {
    var p := steps as real / r;
    assert p * r == steps as real;
    assert (v - 1.0 / r) * r == v * r - 1.0;
  }

  /** Without an encoder, registers holding steps read back as steps / resolution. */
  lemma ReadSteps(d: Drv, hi: nat, lo: nat, steps: int)
    requires hi < Word && lo < Word && !d.useEncoder && d.resolution != 0.0 && Raw(hi, lo) == steps
    ensures ReadPosition(d, hi, lo) == Some(steps as real / d.resolution)
  {
  }

  /**
   * Setting the position and then reading it back without an encoder
   * gives the value rounded down to a whole step.
   */
  lemma SetPositionReadBack(d: Drv, value: real, tableOk: bool)
    requires !d.useEncoder && d.resolution > 0.0
    requires -0x8000_0000 <= PositionSteps(d, value) < 0x8000_0000
    ensures SetDouble(d, Position, value, tableOk).Some?
    ensures var regs := SetDouble(d, Position, value, tableOk).value.positionRegs;
      regs.Some? && regs.value.0 < Word && regs.value.1 < Word &&
      var p := ReadPosition(d, regs.value.0, regs.value.1);
      p.Some? && value - 1.0 / d.resolution < p.value <= value
  {
    var steps := PositionSteps(d, value);
    var hi, lo := Hi(steps), Lo(steps);
    SetPositionRegs(d, value, tableOk);
    SplitRoundTrip(steps);
    ReadSteps(d, hi, lo, steps);
    StepBounds(value, d.resolution, steps);
  }

  /** Setting the position loads the step count into the two registers. */
  lemma SetPositionRegs(d: Drv, value: real, tableOk: bool)
    ensures SetDouble(d, Position, value, tableOk) ==
      Some(SetOutcome(tableOk, d, Some((Hi(PositionSteps(d, value)), Lo(PositionSteps(d, value)))), true))
  {
  }

  // ---------------------------------------------------------------------
  // Motion commands

  /** The speed and ramp registers a command loads; None leaves the register as it was. */
  datatype SpeedRegs = SpeedRegs(startSpeed: Option<int>, highSpeed: Option<int>, ramp: Option<int>)

  /** A move loads a speed only when it is nonzero, and the ramp only from 64 up. */
  function MoveSpeeds(minVelocity: real, maxVelocity: real, acceleration: real): (s: SpeedRegs)
    ensures s.ramp.Some? <==> acceleration >= 64.0
    ensures s.ramp.Some? ==> s.ramp.value >= 64
    ensures s.startSpeed.Some? <==> minVelocity != 0.0
    ensures s.highSpeed.Some? <==> maxVelocity != 0.0
  {
    SpeedRegs(
      if minVelocity != 0.0 then Some(minVelocity.Floor) else None,
      if maxVelocity != 0.0 then Some(maxVelocity.Floor) else None,
      if acceleration >= 64.0 then Some(acceleration.Floor) else None)
  }

  /** A home search or a jog loads the ramp for any nonzero acceleration. */
  function JogSpeeds(minVelocity: real, velocity: real, acceleration: real): (s: SpeedRegs)
    ensures s.ramp.Some? <==> acceleration != 0.0
    ensures s.startSpeed.Some? <==> minVelocity != 0.0
    ensures s.highSpeed.Some? <==> velocity != 0.0
  {
    SpeedRegs(
      if minVelocity != 0.0 then Some(minVelocity.Floor) else None,
      if velocity != 0.0 then Some(velocity.Floor) else None,
      if acceleration != 0.0 then Some(acceleration.Floor) else None)
  }

  /**
   * What a home search or a jog writes: its speed registers, then the CSR
   * direction bit, set for a non-negative velocity (a home search takes
   * it from max_velocity and ignores its forwards argument), then JOG,
   * together with HOMESTOP for a home search.
   */
  datatype JogCommand = JogCommand(speeds: SpeedRegs, forward: bool, homeStop: bool)

  /** motorAxisHome (home) and motorAxisVelocityMove (not home). */
  function JogOrHome(minVelocity: real, velocity: real, acceleration: real, home: bool): (c: JogCommand)
    ensures c.speeds == JogSpeeds(minVelocity, velocity, acceleration)
    ensures c.forward <==> velocity >= 0.0
    ensures c.homeStop == home
    ensures c.speeds.highSpeed.Some? ==> (c.forward <==> c.speeds.highSpeed.value >= 0)
  {
    JogCommand(JogSpeeds(minVelocity, velocity, acceleration), velocity >= 0.0, home)
  }

  /**
   * The ramp rules differ: an acceleration between 1 and 64 reaches the
   * ramp register on a jog but not on a move.
   */
  lemma RampRulesDiffer(acceleration: real)
    requires 1.0 <= acceleration < 64.0
    ensures MoveSpeeds(0.0, 0.0, acceleration).ramp.None?
    ensures JogSpeeds(0.0, 0.0, acceleration).ramp == Some(acceleration.Floor)
  {
  }

  /** The step count of a move: C's integer abs of the double, which truncates first. */
  function StepCount(x: real): (n: nat)
  {
    IAbs(Trunc(x))
  }

  /** The integer abs of the truncation is the floor of the magnitude, as fabs would give. */
  lemma StepCountIsFloorOfMagnitude(x: real)
    ensures StepCount(x) == Abs(x).Floor
  {
    if x < 0.0 {
      assert Trunc(x) == -((-x).Floor);
    }
  }

  /** The registers a move writes besides the speeds. */
  datatype StepRegs = StepRegs(stepHi: nat, stepLo: nat, forward: bool)

  /**
   * motorAxisMove's step counter and direction: relative moves count
   * position * resolution steps in the direction of position; absolute
   * moves subtract the current position (encoder counts scaled by the
   * ratio when the encoder is used) from the target in steps.
   */
  function MoveSteps(d: Drv, position: real, relative: bool, currHi: nat, currLo: nat): (r: StepRegs)
    requires currHi < Word && currLo < Word
    ensures r.stepHi < Word && r.stepLo < Word
    ensures relative ==> (r.forward <==> position >= 0.0)
  {
    if relative then StepsFor(Scaled(d, position), position >= 0.0)
    else
      var x := Scaled(d, position) - Raw(currHi, currLo) as real * (if d.useEncoder then d.encoderRatio else 1.0);
      StepsFor(x, x >= 0.0)
  }

  /** A distance in user units expressed in steps; with a positive resolution it keeps its sign. */
  function Scaled(d: Drv, position: real): (x: real)
    ensures d.resolution > 0.0 ==> (x >= 0.0 <==> position >= 0.0)
  {
    if d.resolution > 0.0 then SignOfProduct(position, d.resolution); position * d.resolution
    else position * d.resolution
  }

  /** The step-counter registers and direction bit for a displacement of x steps. */
  function StepsFor(x: real, forward: bool): (r: StepRegs)
    ensures r.stepHi < Word && r.stepLo < Word && r.forward == forward
  {
    var n := StepCount(x);
    StepRegs(Hi(n), Lo(n), forward)
  }

  /** The displacement a step-counter setting stands for. */
  function Displacement(r: StepRegs): int
    requires r.stepHi < Word && r.stepLo < Word
  {
    if r.forward then Raw(r.stepHi, r.stepLo) else -Raw(r.stepHi, r.stepLo)
  }

  /**
   * A relative move of fewer than 2^31 steps, with a positive resolution,
   * commands the requested displacement to within one step, rounded
   * toward zero.
   */
  lemma RelativeMoveDisplacement(d: Drv, position: real, currHi: nat, currLo: nat)
    requires currHi < Word && currLo < Word && d.resolution > 0.0
    requires Abs(Scaled(d, position)) < 0x8000_0000 as real
    ensures Displacement(MoveSteps(d, position, true, currHi, currLo)) == Trunc(Scaled(d, position))
  {
    DisplacementOf(Scaled(d, position), position >= 0.0);
  }

  /** The step registers for a displacement under 2^31 stand for its truncation. */
  lemma DisplacementOf(x: real, forward: bool)
    requires forward <==> x >= 0.0
    requires Abs(x) < 0x8000_0000 as real
    ensures Displacement(StepsFor(x, forward)) == Trunc(x)
  {
    var n := StepCount(x);
    SignedCount(x, forward);
    SplitRoundTrip(n);
  }

  /** The step count with the direction's sign is the truncated displacement. */
  lemma SignedCount(x: real, forward: bool)
    requires forward <==> x >= 0.0
    requires Abs(x) < 0x8000_0000 as real
    ensures StepCount(x) < 0x8000_0000
    ensures (if forward then StepCount(x) as int else -(StepCount(x) as int)) == Trunc(x)
  {
  }

  lemma SignOfProduct(a: real, r: real)
    requires r > 0.0
    ensures a >= 0.0 <==> a * r >= 0.0
  {
    if a < 0.0 { assert a * r < 0.0 * r; }
  }

  /** A stop: with an acceleration, a new ramp value; without one, a crash stop. */
  datatype StopAction = Ramp(value: int) | CrashStop

  /**
   * motorAxisStop: floor(acceleration) below 64 gives a ramp of 64, a
   * larger one lowers the current ramp to it but never raises it; zero
   * acceleration aborts.
   */
  function Stop(currentRamp: int, acceleration: real): (s: StopAction)
    ensures s == CrashStop <==> acceleration == 0.0
    ensures s.Ramp? && acceleration.Floor < 64 ==> s.value == 64
    ensures s.Ramp? && acceleration.Floor >= 64 ==> s.value <= currentRamp && s.value <= acceleration.Floor
    ensures s.Ramp? && acceleration.Floor >= 64 ==> s.value == currentRamp || s.value == acceleration.Floor
  {
    if acceleration == 0.0 then CrashStop
    else
      var a := acceleration.Floor;
      if a < 64 then Ramp(64)
      else if a < currentRamp then Ramp(a)
      else Ramp(currentRamp)
  }

  /** Stopping again with the same acceleration leaves the ramp where the first stop put it. */
  lemma StopIdempotent(currentRamp: int, acceleration: real)
    requires acceleration != 0.0
    ensures Stop(Stop(currentRamp, acceleration).value, acceleration) == Stop(currentRamp, acceleration)
  {
  }

  // ---------------------------------------------------------------------
  // Configure and open

  /** A configured card: its number, IP carrier and slot, and axis count. */
  datatype Card = Card(card: int, carrier: int, slot: int, nAxes: int)

  datatype ConfigureError = BadVector | CardNumberUsed | SlotUsed | HardwareFailed

  datatype ConfigureResult = Configured(cards: seq<Card>) | Rejected(error: ConfigureError)

  /** No two cards share a number or an IP carrier and slot. */
  predicate Registry(cards: seq<Card>)
  {
    forall i, j :: 0 <= i < j < |cards| ==>
      cards[i].card != cards[j].card && (cards[i].carrier, cards[i].slot) != (cards[j].carrier, cards[j].slot)
  }

  predicate Clashes(c: Card, cardnum: int, carrier: int, slot: int)
  {
    (c.carrier == carrier && c.slot == slot) || c.card == cardnum
  }

  /**
   * The configure scan: the first card that clashes decides the error,
   * a card-number clash taking precedence on that card.
   */
  function FirstClash(cards: seq<Card>, cardnum: int, carrier: int, slot: int): (r: Option<ConfigureError>)
    ensures r.None? <==> forall i :: 0 <= i < |cards| ==> !Clashes(cards[i], cardnum, carrier, slot)
    ensures r.Some? ==> r.value in {CardNumberUsed, SlotUsed}
  {
    if |cards| == 0 then None
    else if Clashes(cards[0], cardnum, carrier, slot) then
      Some(if cards[0].card == cardnum then CardNumberUsed else SlotUsed)
    else
      var r := FirstClash(cards[1..], cardnum, carrier, slot);
      assert r.None? ==> forall i :: 1 <= i < |cards| ==> !Clashes(cards[i], cardnum, carrier, slot) by {
        if r.None? {
          forall i | 1 <= i < |cards| ensures !Clashes(cards[i], cardnum, carrier, slot) {
            assert cards[i] == cards[1..][i - 1];
          }
        }
      }
      r
  }

  /**
   * Hy8601Configure: the vector must lie in 1..255, the card number and
   * the carrier/slot must be new, and the hardware set-up (modelled by
   * hardwareOk) must succeed; the card is then appended to the list.
   */
  function Configure(cards: seq<Card>, cardnum: int, carrier: int, slot: int, vector: int,
                     nAxes: int, hardwareOk: bool): (r: ConfigureResult)
    ensures r.Rejected? && r.error == BadVector <==> vector <= 0 || vector > 255
    ensures r.Configured? ==> r.cards == cards + [Card(cardnum, carrier, slot, nAxes)]
    ensures r.Configured? <==> (1 <= vector <= 255 && hardwareOk &&
      forall i :: 0 <= i < |cards| ==> !Clashes(cards[i], cardnum, carrier, slot))
  {
    if vector <= 0 || vector > 255 then Rejected(BadVector)
    else match FirstClash(cards, cardnum, carrier, slot)
      case Some(e) => Rejected(e)
      case None =>
        if !hardwareOk then Rejected(HardwareFailed)
        else Configured(cards + [Card(cardnum, carrier, slot, nAxes)])
  }

  /** Configuring keeps card numbers and carrier/slot pairs unique. */
  lemma ConfigureKeepsRegistry(cards: seq<Card>, cardnum: int, carrier: int, slot: int, vector: int,
                               nAxes: int, hardwareOk: bool)
    requires Registry(cards)
    ensures var r := Configure(cards, cardnum, carrier, slot, vector, nAxes, hardwareOk);
      r.Configured? ==> Registry(r.cards)
  {
    var r := Configure(cards, cardnum, carrier, slot, vector, nAxes, hardwareOk);
    if r.Configured? {
      var n := r.cards;
      forall i, j | 0 <= i < j < |n|
        ensures n[i].card != n[j].card && (n[i].carrier, n[i].slot) != (n[j].carrier, n[j].slot)
      {
        if j == |cards| {
          assert !Clashes(cards[i], cardnum, carrier, slot);
        }
      }
    }
  }

  /** The first card with the given number. */
  function FindCard(cards: seq<Card>, card: int): (r: Option<nat>)
    ensures r.Some? ==> r.value < |cards| && cards[r.value].card == card
    ensures r.None? <==> forall i :: 0 <= i < |cards| ==> cards[i].card != card
  {
    if |cards| == 0 then None
    else if cards[0].card == card then Some(0)
    else match FindCard(cards[1..], card)
      case None =>
        assert forall i :: 1 <= i < |cards| ==> cards[i] == cards[1..][i - 1];
        None
      case Some(k) => Some(k + 1)
  }

  /** motorAxisOpen: the card must exist and the axis lie in 0 .. nAxes-1. */
  function Open(cards: seq<Card>, card: int, axis: int): (r: Option<(nat, nat)>)
    ensures r.Some? ==> r.value.0 < |cards| && cards[r.value.0].card == card
    ensures r.Some? ==> r.value.1 == axis && axis < cards[r.value.0].nAxes
    ensures r.None? <==> axis < 0 || FindCard(cards, card).None? || axis >= cards[FindCard(cards, card).value].nAxes
  {
    match FindCard(cards, card)
    case None => None
    case Some(k) => if 0 <= axis < cards[k].nAxes then Some((k, axis)) else None
  }

  /** Every axis of a configured card can be opened, and no other. */
  lemma OpenAfterConfigure(cards: seq<Card>, cardnum: int, carrier: int, slot: int, vector: int,
                           nAxes: int, axis: int)
    requires Configure(cards, cardnum, carrier, slot, vector, nAxes, true).Configured?
    ensures var n := Configure(cards, cardnum, carrier, slot, vector, nAxes, true).cards;
      Open(n, cardnum, axis).Some? <==> 0 <= axis < nAxes
  {
    var n := Configure(cards, cardnum, carrier, slot, vector, nAxes, true).cards;
    assert n[|cards|] == Card(cardnum, carrier, slot, nAxes);
    assert forall i :: 0 <= i < |cards| ==> n[i] == cards[i] && n[i].card != cardnum;
    assert FindCard(n, cardnum) == Some(|cards|) by {
      FindCardFirst(n, cardnum, |cards|);
    }
  }

  /** A card whose number no earlier card has is the one FindCard returns. */
  lemma {:induction false} FindCardFirst(cards: seq<Card>, card: int, k: nat)
    requires k < |cards| && cards[k].card == card
    requires forall i :: 0 <= i < k ==> cards[i].card != card
    ensures FindCard(cards, card) == Some(k)
  {
    if k > 0 {
      var tail := cards[1..];
      assert forall i :: 0 <= i < k - 1 ==> tail[i] == cards[i + 1];
      FindCardFirst(tail, card, k - 1);
    }
  }
}
