/**
 * Parameter sanitising and move-decision rules of the motor record
 * (motorRecord.cc): range clamping, dial-to-user limit conversion,
 * resolution reconciliation, the retry deadband and the soft-limit
 * violation (LVIO) rule.
 *
 * Fields are IEEE doubles in the record; here they are exact reals.
 */
module MotorRecordPolicy {
  import opened CSemantics
  import opened MipFlags

  // ---------------------------------------------------------------------
  // range_check and the FRAC clamp

  /**
   * range_check: a value below lo is raised to lo; afterwards a value
   * above hi is lowered to hi, except that hi == 0 means "no upper bound".
   */
  function RangeCheck(v: real, lo: real, hi: real): (r: real)
    ensures lo <= v && (hi == 0.0 || v <= hi) ==> r == v
    ensures hi == 0.0 ==> r == Max(v, lo)
    ensures hi != 0.0 ==> r <= hi
    ensures r >= lo || (hi != 0.0 && r == hi)
  {
    var raised := if v < lo then lo else v;
    if hi != 0.0 && raised > hi then hi else raised
  }

  /** The admissible range of range_check, when it is not empty. */
  predicate InRange(v: real, lo: real, hi: real)
  {
    lo <= v && (hi == 0.0 || v <= hi)
  }

  /**
   * On a non-empty range, range_check returns the admissible value closest
   * to its argument, and so applying it twice changes nothing.
   */
  lemma RangeCheckNearest(v: real, lo: real, hi: real, w: real)
    requires hi == 0.0 || lo <= hi
    requires InRange(w, lo, hi)
    ensures InRange(RangeCheck(v, lo, hi), lo, hi)
    ensures Abs(RangeCheck(v, lo, hi) - v) <= Abs(w - v)
    ensures RangeCheck(RangeCheck(v, lo, hi), lo, hi) == RangeCheck(v, lo, hi)
  {
  }

  /** The FRAC (move fraction) field is kept within [0.1, 1.5]. */
  function ClampFrac(frac: real): (r: real)
    ensures 0.1 <= r <= 1.5
    ensures 0.1 <= frac <= 1.5 ==> r == frac
    ensures r == RangeCheck(frac, 0.1, 1.5)
  {
    var raised := if frac < 0.1 then 0.1 else frac;
    if raised > 1.5 then 1.5 else raised
  }

  // ---------------------------------------------------------------------
  // Soft limits

  /** Soft limits are switched off exactly when DHLM == DLLM == 0. */
  function SoftLimitsDefined(dhlm: real, dllm: real): (r: bool)
    ensures !r <==> dhlm == 0.0 && dllm == 0.0
  {
    !(dhlm == dllm && dllm == 0.0)
  }

  /** The dial-to-user map: user = dir * dial + off. */
  function DialToUser(dial: real, dirPos: bool, off: real): real
  {
    (if dirPos then dial else -dial) + off
  }

  datatype UserLimits = UserLimits(hlm: real, llm: real)

  /** set_userlimits: HLM/LLM from DHLM/DLLM, DIR and OFF. */
  function SetUserLimits(dhlm: real, dllm: real, dirPos: bool, off: real): (r: UserLimits)
    ensures !SoftLimitsDefined(dhlm, dllm) ==> r == UserLimits(0.0, 0.0)
    ensures SoftLimitsDefined(dhlm, dllm) && dirPos ==>
              r.hlm == DialToUser(dhlm, dirPos, off) && r.llm == DialToUser(dllm, dirPos, off)
    ensures SoftLimitsDefined(dhlm, dllm) && !dirPos ==>
              r.hlm == DialToUser(dllm, dirPos, off) && r.llm == DialToUser(dhlm, dirPos, off)
    ensures dhlm >= dllm ==> r.hlm >= r.llm
  {
    if !SoftLimitsDefined(dhlm, dllm) then UserLimits(0.0, 0.0)
    else if dirPos then UserLimits(dhlm + off, dllm + off)
    else UserLimits(-dllm + off, -dhlm + off)
  }

  /**
   * The user limits describe the same interval as the dial limits: a dial
   * position lies within [DLLM, DHLM] exactly when its user position lies
   * within [LLM, HLM].
   */
  lemma UserLimitsMatchDialLimits(dhlm: real, dllm: real, dirPos: bool, off: real, dial: real)
    requires SoftLimitsDefined(dhlm, dllm)
    ensures var u := SetUserLimits(dhlm, dllm, dirPos, off);
            dllm <= dial <= dhlm <==> u.llm <= DialToUser(dial, dirPos, off) <= u.hlm
  {
  }

  // ---------------------------------------------------------------------
  // check_resolution

  /** SREV (steps per revolution), UREV (EGU per revolution), MRES (EGU per step). */
  datatype Resolution = Resolution(srev: int, urev: real, mres: real)

  predicate Consistent(x: Resolution)
  {
    x.srev > 0 && x.mres != 0.0 && x.urev == x.mres * x.srev as real
  }

  /**
   * check_resolution: SREV defaults to 200, a nonzero UREV determines MRES,
   * a zero MRES defaults to 1.0, and UREV is made to agree with MRES * SREV.
   */
  function CheckResolution(x: Resolution): (r: Resolution)
    ensures Consistent(r)
    ensures r.srev == (if x.srev <= 0 then 200 else x.srev)
    ensures x.urev != 0.0 ==> r.urev == x.urev && r.mres == x.urev / r.srev as real
    ensures x.urev == 0.0 ==> r.mres == (if x.mres == 0.0 then 1.0 else x.mres)
  {
    var srev := if x.srev <= 0 then 200 else x.srev;
    var mres1 := if x.urev != 0.0 then x.urev / srev as real else x.mres;
    var mres := if mres1 == 0.0 then 1.0 else mres1;
    var urev := if x.urev != mres * srev as real then mres * srev as real else x.urev;
    Resolution(srev, urev, mres)
  }

  /** The records check_resolution leaves alone are exactly the consistent ones. */
  lemma CheckResolutionFixedPoints(x: Resolution)
    ensures CheckResolution(x) == x <==> Consistent(x)
    ensures CheckResolution(CheckResolution(x)) == CheckResolution(x)
  {
    var r := CheckResolution(x);
    if Consistent(x) {
      assert x.urev != 0.0;
      assert x.urev / x.srev as real == x.mres;
    }
    assert r.urev / r.srev as real == r.mres;
  }

  // ---------------------------------------------------------------------
  // enforceMinRetryDeadband

  /** Retry and speed deadbands that the controller configuration may impose. */
  datatype DeadbandConfig = DeadbandConfig(eresDial: real, rdbdDial: real, spdbDial: real)

  datatype Deadbands = Deadbands(eres: real, rdbd: real, spdb: real)

  /**
   * enforceMinRetryDeadband: configured values win; otherwise RDBD is at
   * least |MRES|, and SPDB defaults to RDBD (or |MRES|) and is kept within
   * [0, RDBD].
   */
  function EnforceMinRetryDeadband(cfg: DeadbandConfig, d: Deadbands, mres: real): (r: Deadbands)
    ensures r.eres == (if cfg.eresDial != 0.0 then cfg.eresDial else d.eres)
    ensures cfg.rdbdDial > 0.0 ==> r.rdbd == cfg.rdbdDial
    ensures cfg.rdbdDial <= 0.0 ==> r.rdbd == Max(d.rdbd, Abs(mres))
    ensures 0.0 <= r.rdbd && 0.0 <= r.spdb
    ensures r.rdbd != 0.0 ==> r.spdb <= r.rdbd
    ensures cfg.spdbDial > 0.0 && cfg.spdbDial <= r.rdbd ==> r.spdb == cfg.spdbDial
    ensures cfg.spdbDial <= 0.0 && d.spdb == 0.0 && r.rdbd != 0.0 ==> r.spdb == r.rdbd
  {
    var eres := if cfg.eresDial != 0.0 then cfg.eresDial else d.eres;
    var rdbd := if cfg.rdbdDial > 0.0 then cfg.rdbdDial
                else if d.rdbd < Abs(mres) then Abs(mres) else d.rdbd;
    var spdb0 := if cfg.spdbDial > 0.0 then cfg.spdbDial else d.spdb;
    var spdb1 := if spdb0 == 0.0 then rdbd else spdb0;
    var spdb2 := if spdb1 == 0.0 then Abs(mres) else spdb1;
    Deadbands(eres, rdbd, RangeCheck(spdb2, 0.0, rdbd))
  }

  /**
   * With a non-negative SPDB the deadbands are stable: enforcing them a
   * second time changes nothing.
   */
  lemma EnforceMinRetryDeadbandStable(cfg: DeadbandConfig, d: Deadbands, mres: real)
    requires d.spdb >= 0.0
    ensures var once := EnforceMinRetryDeadband(cfg, d, mres);
            EnforceMinRetryDeadband(cfg, once, mres) == once
  {
  }

  /** A negative SPDB is clamped to 0 and only replaced by RDBD on the next pass. */
  lemma EnforceMinRetryDeadbandNegativeSpdb()
    ensures var cfg := DeadbandConfig(0.0, 0.0, 0.0);
            var once := EnforceMinRetryDeadband(cfg, Deadbands(0.0, 1.0, -1.0), 1.0);
            once.spdb == 0.0 && EnforceMinRetryDeadband(cfg, once, 1.0).spdb == 1.0
  {
  }

  // ---------------------------------------------------------------------
  // maybeRetry

  /** What maybeRetry reads besides the mutable state. */
  datatype RetryInput = RetryInput(
    commandedDval: real, drbv: real, rdbd: real, rtry: int,
    dirPos: bool, mres: real, cdir: bool,
    hls: bool, lls: bool, jogf: bool, jogr: bool,
    target: Targets)

  /** The record fields maybeRetry may change; `last` holds the last targets. */
  datatype RetryState = RetryState(mip: Mip, rcnt: int, dmov: bool, miss: bool, spmg: Spmg, last: Targets)

  /**
   * The commanded direction CDIR (raw coordinates) seen in user
   * coordinates: it flips when exactly one of DIR and MRES is negative.
   */
  function UserCommandedDir(dirPos: bool, mres: real, cdir: bool): (r: bool)
    ensures dirPos && mres >= 0.0 ==> r == cdir
    ensures !dirPos && mres < 0.0 ==> r == cdir
    ensures dirPos != (mres >= 0.0) ==> r == !cdir
  {
    if (dirPos == (mres >= 0.0)) then cdir else !cdir
  }

  /**
   * The retry condition in words: the miss is at least RDBD and the limit
   * switch ahead of the commanded move is not active.
   */
  predicate RetryWanted(inp: RetryInput)
  {
    var ahead := if UserCommandedDir(inp.dirPos, inp.mres, inp.cdir) then inp.hls else inp.lls;
    Abs(inp.commandedDval - inp.drbv) >= inp.rdbd && !ahead
  }

  /** A jog is still requested and its limit switch is not active. */
  predicate JogHeld(inp: RetryInput)
  {
    (inp.jogf && !inp.hls) || (inp.jogr && !inp.lls)
  }

  function MaybeRetry(inp: RetryInput, s: RetryState): (r: RetryState)
    // retry disabled: every motion bit except JOG_REQ is dropped
    ensures RetryWanted(inp) && inp.rtry == 0 ==> r == s.(mip := s.mip & JOG_REQ)
    // retries exhausted: done (or jog re-request), MISS set, targets latched
    ensures RetryWanted(inp) && inp.rtry != 0 && s.rcnt + 1 > inp.rtry ==>
              r.mip == (if JogHeld(inp) then JOG_REQ else DONE)
              && r.miss && r.last == inp.target && r.rcnt == s.rcnt + 1 && r.dmov == s.dmov
    // another retry
    ensures RetryWanted(inp) && inp.rtry != 0 && s.rcnt + 1 <= inp.rtry ==>
              r.mip == RETRY && !r.dmov && r.rcnt == s.rcnt + 1 && r.miss == s.miss
    // close enough
    ensures !RetryWanted(inp) ==>
              r.mip == s.mip & JOG_REQ && !r.miss && r.rcnt == s.rcnt && r.dmov == s.dmov
              && r.spmg == (if s.spmg == Move then Pause else s.spmg)
    ensures OnlyJogRequest(r.mip) || r.mip == RETRY
    ensures r.mip == RETRY ==> r.rcnt <= inp.rtry
  {
    var diff := inp.commandedDval - inp.drbv;
    var userCdir := UserCommandedDir(inp.dirPos, inp.mres, inp.cdir);
    if Abs(diff) >= inp.rdbd && !(inp.hls && userCdir) && !(inp.lls && !userCdir) then
      if inp.rtry == 0 then
        s.(mip := ClearBits(s.mip, !JOG_REQ))
      else if s.rcnt + 1 > inp.rtry then
        var mip := if JogHeld(inp) then DONE | JOG_REQ else DONE;
        s.(mip := mip, rcnt := s.rcnt + 1, last := inp.target, miss := true)
      else
        s.(rcnt := s.rcnt + 1, dmov := false, mip := RETRY)
    else
      s.(mip := ClearBits(s.mip, !JOG_REQ), miss := false,
         spmg := if s.spmg == Move then Pause else s.spmg)
  }

  // ---------------------------------------------------------------------
  // doDVALchangedOrNOTdoneMoving: deadband, preferred direction, LVIO

  /**
   * The "too small to move" test. Outside a retry the speed deadband SPDB
   * applies (or |MRES| when SPDB <= 0); during a retry RDBD applies.
   */
  function WithinDeadband(mip: Mip, dval: real, drbv: real, spdb: real, mres: real, rdbd: real): (r: bool)
    ensures mip & RETRY == 0 && spdb > 0.0 ==> (r <==> Abs(dval - drbv) < spdb)
    ensures mip & RETRY == 0 && spdb <= 0.0 ==> (r <==> Abs(dval - drbv) < Abs(mres))
    ensures mip & RETRY != 0 ==> (r <==> Abs(dval - drbv) < Abs(rdbd))
  {
    if mip & RETRY == 0 then
      if spdb > 0.0 then (dval - spdb) < drbv && (dval + spdb) > drbv
      else Abs(dval - drbv) < Abs(mres)
    else Abs(dval - drbv) < Abs(rdbd)
  }

  /** A move is in the preferred (backlash) direction; always so when BDST == 0. */
  function PreferredDirection(bdst: real, diff: real): (r: bool)
    ensures bdst == 0.0 ==> r
    ensures bdst > 0.0 ==> (r <==> diff > 0.0)
    ensures bdst < 0.0 ==> (r <==> diff <= 0.0)
  {
    if bdst != 0.0 then (diff > 0.0) == (bdst > 0.0) else true
  }

  datatype DialLimits = DialLimits(dhlm: real, dllm: real, bdst: real)

  /** The new target is beyond a limit but closer to the valid range than the last one. */
  predicate MovingBackInside(lim: DialLimits, dval: real, lastDval: real)
  {
    (dval > lim.dhlm && dval < lastDval) || (dval < lim.dllm && dval > lastDval)
  }

  predicate OutsideDial(lim: DialLimits, x: real)
  {
    x > lim.dhlm || x < lim.dllm
  }

  /** The soft-travel limit violation (LVIO) rule. */
  function LimitViolation(lim: DialLimits, dval: real, lastDval: real, diff: real): (r: bool)
    ensures !SoftLimitsDefined(lim.dhlm, lim.dllm) ==> !r
    ensures MovingBackInside(lim, dval, lastDval) ==> !r
    ensures SoftLimitsDefined(lim.dhlm, lim.dllm) && !MovingBackInside(lim, dval, lastDval) ==>
              (r <==> if PreferredDirection(lim.bdst, diff) then OutsideDial(lim, dval)
                      else OutsideDial(lim, dval - lim.bdst))
  {
    if !SoftLimitsDefined(lim.dhlm, lim.dllm) then false
    else if MovingBackInside(lim, dval, lastDval) then false
    else if PreferredDirection(lim.bdst, diff) then OutsideDial(lim, dval)
    else OutsideDial(lim, dval - lim.bdst)
  }

  /**
   * A target inside [DLLM, DHLM] whose backlash take-off point is inside
   * too is never a violation; a violation always has the target or the
   * take-off point outside the limits.
   */
  lemma LimitViolationOnlyOutside(lim: DialLimits, dval: real, lastDval: real, diff: real)
    ensures !OutsideDial(lim, dval) && !OutsideDial(lim, dval - lim.bdst) ==>
              !LimitViolation(lim, dval, lastDval, diff)
    ensures LimitViolation(lim, dval, lastDval, diff) ==>
              OutsideDial(lim, dval) || OutsideDial(lim, dval - lim.bdst)
    ensures lim.bdst == 0.0 && SoftLimitsDefined(lim.dhlm, lim.dllm) ==>
              (LimitViolation(lim, dval, lastDval, diff) <==>
                 OutsideDial(lim, dval) && !MovingBackInside(lim, dval, lastDval))
  {
  }

  /** The retry mode RMOD. */
  datatype Rmod = RmodDefault | RmodArithmetic | RmodGeometric | RmodInPosition

  /** Everything doDVALchangedOrNOTdoneMoving reads but does not write. */
  datatype DvalParams = DvalParams(
    dirPos: bool, off: real, mres: real, drbv: real,
    spdb: real, rdbd: real, rmod: Rmod, lim: DialLimits,
    readbackOk: bool)

  /** The record fields the routine may change. */
  datatype MoveState = MoveState(
    t: Targets, last: Targets, mip: Mip, dmov: bool, miss: bool, rcnt: int, lvio: bool)

  /** How the routine ends. */
  datatype DvalOutcome =
    | TooSmall           // inside the deadband: no move
    | InPositionRetry    // RMOD = In-position during a retry: nothing more
    | LimitRefused       // LVIO or a failed readback link: targets restored
    | Dispatch(preferred: bool)   // doRetryOrDone is called
    | NotIdle            // a motion is already in progress: nothing is sent

  /**
   * doDVALchangedOrNOTdoneMoving, up to the call of doRetryOrDone (which
   * issues the actual move and is not part of this model).
   */
  function DvalChanged(p: DvalParams, s: MoveState): (r: (MoveState, DvalOutcome))
    requires p.mres != 0.0
    // VAL and RVAL follow DVAL unless the move is refused
    ensures !r.1.LimitRefused? ==>
              r.0.t == Targets(DialToUser(s.t.dval, p.dirPos, p.off), s.t.dval, Nint(s.t.dval / p.mres))
    ensures !r.0.miss
    ensures r.1.TooSmall? <==> WithinDeadband(s.mip, s.t.dval, p.drbv, p.spdb, p.mres, p.rdbd)
    ensures r.1.TooSmall? ==>
              r.0.last == r.0.t
              && (if !s.dmov && (s.mip == DONE || s.mip == RETRY)
                  then r.0.dmov && r.0.mip == DONE
                  else r.0.dmov == s.dmov && r.0.mip == s.mip)
    ensures !r.1.TooSmall? && s.mip & RETRY == 0 ==> r.0.rcnt == 0
    ensures r.1.InPositionRetry? <==> !r.1.TooSmall? && s.mip & RETRY != 0 && p.rmod == RmodInPosition
    ensures r.1.LimitRefused? ==>
              r.0.t == s.last && r.0.last == s.last
              && (s.mip & RETRY != 0 ==> r.0.mip == DONE)
              && (r.0.mip == DONE ==> r.0.dmov)
    ensures r.1.LimitRefused? || r.1.Dispatch? || r.1.NotIdle? ==>
              (r.1.LimitRefused? <==>
                 r.0.lvio || !p.readbackOk)
              && r.0.lvio == LimitViolation(p.lim, s.t.dval, s.last.dval, s.t.dval - p.drbv)
    ensures r.1.Dispatch? ==>
              (s.mip == DONE || s.mip == RETRY)
              && r.1.preferred == PreferredDirection(p.lim.bdst, s.t.dval - p.drbv)
  {
    var dval := s.t.dval;
    var diff := dval - p.drbv;
    var t := Targets(DialToUser(dval, p.dirPos, p.off), dval, Nint(dval / p.mres));
    var s1 := s.(t := t, miss := false);
    if WithinDeadband(s.mip, dval, p.drbv, p.spdb, p.mres, p.rdbd) then
      var settle := !s.dmov && (s.mip == DONE || s.mip == RETRY);
      (s1.(dmov := if settle then true else s.dmov,
           mip := if settle then DONE else s.mip,
           last := t), TooSmall)
    else
      var s2 := if s.mip & RETRY == 0 then s1.(rcnt := 0) else s1;
      if s.mip & RETRY != 0 && p.rmod == RmodInPosition then
        (s2, InPositionRetry)
      else
        var preferred := PreferredDirection(p.lim.bdst, diff);
        var lvio := LimitViolation(p.lim, dval, s.last.dval, diff);
        var s3 := s2.(lvio := lvio);
        if lvio || !p.readbackOk then
          var mip := if s.mip & RETRY != 0 then DONE else s.mip;
          (s3.(t := s.last, mip := mip, dmov := if mip == DONE then true else s.dmov),
           LimitRefused)
        else if s.mip == DONE || s.mip == RETRY then
          (s3, Dispatch(preferred))
        else
          (s3, NotIdle)
  }
}
