/**
 * The older motor record (motorRecord.c): minimum retry deadband, readback
 * and limit-switch derivation from the MSTA status word, its own
 * maybeRetry, the do_work limit and no-move rules, and the speed and
 * resolution reconciliation.
 */
module MotorRecordLegacy {
  import opened CSemantics
  import opened MipFlags
  import P = MotorRecordPolicy

  /**
   * The MSTA bits this model reads. Their numeric positions are defined in
   * motor.h, which is not part of this model, so MSTA is a record of flags.
   */
  datatype Msta = Msta(
    raDirection: bool, raDone: bool, raOvertravel: bool, raHome: bool,
    eaPresent: bool, eaHome: bool, raProblem: bool)

  // ---------------------------------------------------------------------
  // enforceMinRetryDeadband

  /** The smallest retry deadband the axis can honour. */
  function MinRetryDeadband(encoder: bool, backlash: bool, eres: real, mres: real): real
  {
    if backlash && encoder then 0.51 * (Abs(eres) + Abs(mres))
    else if encoder then 0.51 * Max(Abs(eres), Abs(mres))
    else 0.51 * Abs(mres)
  }

  /**
   * The minimum grows with what the move depends on: the motor step alone,
   * then the coarser of encoder and motor step, then both together.
   */
  lemma MinRetryDeadbandOrdering(eres: real, mres: real)
    ensures MinRetryDeadband(false, false, eres, mres) == MinRetryDeadband(false, true, eres, mres)
    ensures MinRetryDeadband(false, false, eres, mres) <= MinRetryDeadband(true, false, eres, mres)
    ensures MinRetryDeadband(true, false, eres, mres) <= MinRetryDeadband(true, true, eres, mres)
    ensures MinRetryDeadband(true, true, eres, mres) <= 2.0 * MinRetryDeadband(true, false, eres, mres)
  {
  }

  /** enforceMinRetryDeadband: RDBD is raised to the minimum, never lowered. */
  function EnforceMinRetryDeadband(msta: Msta, ueip: bool, bdst: real, eres: real, mres: real, rdbd: real): (r: real)
    ensures r >= rdbd
    ensures r >= MinRetryDeadband(msta.eaPresent && ueip, bdst > 0.0, eres, mres)
    ensures r == rdbd || r == MinRetryDeadband(msta.eaPresent && ueip, bdst > 0.0, eres, mres)
    ensures r >= 0.51 * Abs(mres)
  {
    var minRdbd := MinRetryDeadband(msta.eaPresent && ueip, bdst > 0.0, eres, mres);
    if rdbd < minRdbd then minRdbd else rdbd
  }

  // ---------------------------------------------------------------------
  // process_motor_info

  /** The readback fields process_motor_info derives. */
  datatype Readback = Readback(
    rrbv: int, drbv: real, rbv: real, tdir: bool, movn: bool,
    rhls: bool, rlls: bool, hls: bool, lls: bool, athm: bool)

  /** An encoder is present and the user asked for it (UEIP). */
  predicate UseEncoder(msta: Msta, ueip: bool)
  {
    msta.eaPresent && ueip
  }

  function ProcessMotorInfo(msta: Msta, ueip: bool, rep: int, rmp: int, res: real, dirPos: bool, off: real): (r: Readback)
    ensures r.rrbv == (if UseEncoder(msta, ueip) then rep else rmp)
    ensures r.drbv == r.rrbv as real * res
    ensures r.rbv == P.DialToUser(r.drbv, dirPos, off)
    ensures r.tdir == msta.raDirection
    ensures !r.movn <==> msta.raDone || msta.raProblem || msta.raOvertravel
    ensures r.rhls <==> msta.raOvertravel && msta.raDirection
    ensures r.rlls <==> msta.raOvertravel && !msta.raDirection
    ensures dirPos == (res >= 0.0) ==> r.hls == r.rhls && r.lls == r.rlls
    ensures dirPos != (res >= 0.0) ==> r.hls == r.rlls && r.lls == r.rhls
    ensures r.athm == (if UseEncoder(msta, ueip) then msta.eaHome else msta.raHome)
  {
    var rrbv := if UseEncoder(msta, ueip) then rep else rmp;
    var drbv := rrbv as real * res;
    var rhls := msta.raOvertravel && msta.raDirection;
    var rlls := msta.raOvertravel && !msta.raDirection;
    var straight := dirPos == (res >= 0.0);
    Readback(rrbv, drbv, (if dirPos then 1.0 else -1.0) * drbv + off, msta.raDirection,
             !(msta.raDone || msta.raProblem || msta.raOvertravel),
             rhls, rlls,
             if straight then rhls else rlls,
             if straight then rlls else rhls,
             if UseEncoder(msta, ueip) then msta.eaHome else msta.raHome)
  }

  /**
   * At most one user limit switch is reported, a switch is reported exactly
   * when the axis is in overtravel, and an overtravel always stops MOVN.
   */
  lemma LimitSwitchesExclusive(msta: Msta, ueip: bool, rep: int, rmp: int, res: real, dirPos: bool, off: real)
    ensures var r := ProcessMotorInfo(msta, ueip, rep, rmp, res, dirPos, off);
            !(r.hls && r.lls) && (r.hls || r.lls <==> msta.raOvertravel)
            && (r.hls || r.lls ==> !r.movn)
  {
  }

  /** Reversing DIR swaps the user limit switches and mirrors RBV about OFF. */
  lemma DirectionSwapsLimits(msta: Msta, ueip: bool, rep: int, rmp: int, res: real, off: real)
    ensures var a := ProcessMotorInfo(msta, ueip, rep, rmp, res, true, off);
            var b := ProcessMotorInfo(msta, ueip, rep, rmp, res, false, off);
            a.hls == b.lls && a.lls == b.hls && a.rbv - off == -(b.rbv - off)
  {
  }

  // ---------------------------------------------------------------------
  // maybeRetry

  /**
   * maybeRetry of motorRecord.c: a retry needs a miss strictly larger than
   * RDBD and no active limit switch at all.
   */
  function MaybeRetry(diff: real, rdbd: real, rtry: int, hls: bool, lls: bool,
                      target: Targets, s: P.RetryState): (r: P.RetryState)
    ensures Abs(diff) > rdbd && !hls && !lls && rtry == 0 ==> r == s.(mip := s.mip & JOG_REQ)
    ensures Abs(diff) > rdbd && !hls && !lls && rtry != 0 && s.rcnt + 1 > rtry ==>
              r.mip == DONE && r.miss && r.last == target && r.rcnt == s.rcnt + 1
    ensures Abs(diff) > rdbd && !hls && !lls && rtry != 0 && s.rcnt + 1 <= rtry ==>
              r.mip == RETRY && !r.dmov && r.rcnt == s.rcnt + 1
    ensures !(Abs(diff) > rdbd && !hls && !lls) ==>
              r.mip == s.mip & JOG_REQ && !r.miss && r.rcnt == s.rcnt
              && r.spmg == (if s.spmg == Move then Pause else s.spmg)
    ensures OnlyJogRequest(r.mip) || r.mip == RETRY
  {
    if Abs(diff) > rdbd && !hls && !lls then
      if rtry == 0 then s.(mip := s.mip & JOG_REQ)
      else if s.rcnt + 1 > rtry then
        s.(rcnt := s.rcnt + 1, mip := DONE, last := target, miss := true)
      else s.(rcnt := s.rcnt + 1, dmov := false, mip := RETRY)
    else
      s.(mip := s.mip & JOG_REQ, miss := false,
         spmg := if s.spmg == Move then Pause else s.spmg)
  }

  /**
   * Away from the limit switches, with no jog held and a miss not exactly
   * equal to RDBD, the old and the current maybeRetry make the same decision.
   */
  lemma RetryVersionsAgree(inp: P.RetryInput, s: P.RetryState)
    requires !inp.hls && !inp.lls && !inp.jogf && !inp.jogr
    requires Abs(inp.commandedDval - inp.drbv) != inp.rdbd
    ensures MaybeRetry(inp.commandedDval - inp.drbv, inp.rdbd, inp.rtry, false, false, inp.target, s)
            == P.MaybeRetry(inp, s)
  {
  }

  /** At a miss of exactly RDBD the current record retries and the old one does not. */
  lemma RetryVersionsDifferAtDeadband()
    ensures var t := Targets(1.0, 1.0, 1);
            var s := P.RetryState(MOVE, 0, true, false, Go, t);
            var inp := P.RetryInput(1.0, 0.0, 1.0, 3, true, 1.0, true,
                                    false, false, false, false, t);
            P.MaybeRetry(inp, s).mip == RETRY
            && MaybeRetry(1.0, 1.0, 3, false, false, t, s).mip == DONE
  {
  }

  // ---------------------------------------------------------------------
  // do_work: soft-limit check and the "nothing to do" rule

  /**
   * do_work's limit test: DVAL is beyond DHLM or DLLM, or beyond them once
   * shifted by BDST.
   */
  function DoWorkLimitViolation(dval: real, dhlm: real, dllm: real, bdst: real): (r: bool)
    ensures !r <==> dllm + Max(bdst, 0.0) <= dval <= dhlm + Min(bdst, 0.0)
  {
    dval > dhlm || dval > dhlm + bdst || dval < dllm || dval < dllm + bdst
  }

  datatype WorkState = WorkState(t: Targets, last: Targets, dmov: bool, lvio: bool)

  /** On a violation the targets revert to LVAL/LDVL/LRVL and DMOV is set. */
  function DoWorkLimitCheck(dhlm: real, dllm: real, bdst: real, s: WorkState): (r: Option<WorkState>)
    ensures r.None? <==> DoWorkLimitViolation(s.t.dval, dhlm, dllm, bdst)
    ensures r.Some? ==> r.value == s.(lvio := false)
  {
    if DoWorkLimitViolation(s.t.dval, dhlm, dllm, bdst) then None else Some(s.(lvio := false))
  }

  /** The record after a refused move. */
  function RefuseMove(s: WorkState): (r: WorkState)
    ensures r.t == s.last && r.last == s.last && r.dmov && r.lvio
  {
    s.(t := s.last, dmov := true, lvio := true)
  }

  /**
   * When the rounded raw target equals the rounded raw readback, nothing is
   * sent. The result is the new (DMOV, MIP) in that case and None when a
   * move is to be issued.
   */
  function NoMoveRule(dval: real, drbv: real, res: real, dmov: bool, mip: Mip): (r: Option<(bool, Mip)>)
    requires res != 0.0
    ensures r.Some? <==> Nint(dval / res) == Nint(drbv / res)
    ensures r.Some? && !dmov && (mip == DONE || mip == RETRY) ==> r.value == (true, DONE)
    ensures r.Some? && !(!dmov && (mip == DONE || mip == RETRY)) ==> r.value == (dmov, mip)
  {
    if Nint(dval / res) == Nint(drbv / res) then
      if !dmov && (mip == DONE || mip == RETRY) then Some((true, DONE)) else Some((dmov, mip))
    else None
  }

  /**
   * Two dial positions that round to the same raw step are at most one
   * resolution step apart, and a target equal to the readback never moves.
   */
  lemma NoMoveWithinOneStep(dval: real, drbv: real, res: real, dmov: bool, mip: Mip)
    requires res != 0.0
    ensures dval == drbv ==> NoMoveRule(dval, drbv, res, dmov, mip).Some?
    ensures NoMoveRule(dval, drbv, res, dmov, mip).Some? ==> Abs(dval - drbv) <= Abs(res)
  {
    if Nint(dval / res) == Nint(drbv / res) {
      var a := dval / res;
      var b := drbv / res;
      assert Abs(a - b) <= 1.0;
      ScaledBound(dval, res, a);
      ScaledBound(drbv, res, b);
      QuotientDifference(dval, drbv, res, a, b);
    }
  }

  /** x / res recovers x when multiplied back. */
  lemma ScaledBound(x: real, res: real, q: real)
    requires res != 0.0 && q == x / res
    ensures x == q * res
  {
  }

  /** Positions whose quotients by res differ by at most 1 differ by at most |res|. */
  lemma QuotientDifference(x: real, y: real, res: real, a: real, b: real)
    requires res != 0.0 && x == a * res && y == b * res && Abs(a - b) <= 1.0
    ensures Abs(x - y) <= Abs(res)
  {
    var d := a - b;
    assert x - y == d * res;
    if res > 0.0 {
      if d >= 0.0 { assert d * res <= 1.0 * res; } else { assert -d * res <= 1.0 * res; }
    } else {
      if d >= 0.0 { assert d * -res <= 1.0 * -res; } else { assert -d * -res <= 1.0 * -res; }
    }
  }

  // ---------------------------------------------------------------------
  // check_speed_and_resolution

  /** The speed and resolution fields of the record; S* in rev/s, V* in EGU/s. */
  datatype Speeds = Speeds(
    res: P.Resolution,
    smax: real, vmax: real, sbas: real, vbas: real,
    s: real, velo: real, sbak: real, bvel: real,
    accl: real, bacc: real)

  /** A speed given in rev/s and one given in EGU/s that describe the same rate. */
  predicate SameRate(revs: real, egu: real, fabsUrev: real)
  {
    egu == revs * fabsUrev
  }

  /**
   * One rev/s field and its EGU/s twin: a nonzero rev/s value is
   * range-checked and converts to EGU/s; otherwise the EGU/s value is
   * range-checked and converts back.
   */
  function ReconcileRate(revs: real, egu: real, revLo: real, revHi: real, eguLo: real, eguHi: real,
                         fabsUrev: real): (r: (real, real))
    requires fabsUrev > 0.0
    ensures SameRate(r.0, r.1, fabsUrev)
    ensures revs != 0.0 ==> r.0 == P.RangeCheck(revs, revLo, revHi)
    ensures revs == 0.0 ==> r.1 == P.RangeCheck(egu, eguLo, eguHi)
  {
    if revs != 0.0 then
      var v := P.RangeCheck(revs, revLo, revHi);
      (v, v * fabsUrev)
    else
      var v := P.RangeCheck(egu, eguLo, eguHi);
      assert v / fabsUrev * fabsUrev == v;
      (v / fabsUrev, v)
  }

  /** |UREV| of a reconciled resolution is positive. */
  lemma UrevNonzero(res: P.Resolution)
    requires P.Consistent(res)
    ensures Abs(res.urev) > 0.0
  {
    assert res.urev == res.mres * res.srev as real;
    if res.mres > 0.0 {
      assert res.mres * res.srev as real > 0.0;
    } else {
      assert res.mres * res.srev as real < 0.0;
    }
  }

  /**
   * check_speed_and_resolution: resolution as in check_resolution, then each
   * rev/s field and its EGU/s twin are reconciled (a nonzero rev/s field
   * wins), the base and normal speeds are range-checked, and zero
   * acceleration times default to 0.1 s.
   */
  function CheckSpeedAndResolution(x: Speeds): (r: Speeds)
    ensures r.res == P.CheckResolution(x.res)
    ensures SameRate(r.smax, r.vmax, Abs(r.res.urev))
    ensures SameRate(r.sbas, r.vbas, Abs(r.res.urev))
    ensures SameRate(r.s, r.velo, Abs(r.res.urev))
    ensures SameRate(r.sbak, r.bvel, Abs(r.res.urev))
    ensures x.smax <= 0.0 && x.vmax <= 0.0 ==> r.smax == 0.0 && r.vmax == 0.0
    ensures 0.0 <= r.sbas && 0.0 <= r.vbas
    ensures r.accl != 0.0 && r.bacc != 0.0
    ensures r.accl == (if x.accl == 0.0 then 0.1 else x.accl)
    ensures r.bacc == (if x.bacc == 0.0 then 0.1 else x.bacc)
  {
    var res := P.CheckResolution(x.res);
    // the cached |UREV| is refreshed only when UREV changes
    var fabsUrev := if res.urev != x.res.urev then Abs(res.urev) else Abs(x.res.urev);
    UrevNonzero(res);
    var mx := MaxRate(x.smax, x.vmax, fabsUrev);
    var bs := ReconcileRate(x.sbas, x.vbas, 0.0, mx.0, 0.0, mx.1, fabsUrev);
    assert 0.0 <= bs.0 && 0.0 <= bs.1 by { BaseRateNonNegative(x.sbas, x.vbas, mx.0, mx.1, fabsUrev); }
    var sv := ReconcileRate(x.s, x.velo, bs.0, mx.0, bs.1, mx.1, fabsUrev);
    var bk := ReconcileRate(x.sbak, x.bvel, bs.0, mx.0, bs.1, mx.1, fabsUrev);
    Speeds(res, mx.0, mx.1, bs.0, bs.1, sv.0, sv.1, bk.0, bk.1,
           if x.accl == 0.0 then 0.1 else x.accl,
           if x.bacc == 0.0 then 0.1 else x.bacc)
  }

  /** SMAX and VMAX: a positive SMAX wins, then a positive VMAX, else both are 0. */
  function MaxRate(smax: real, vmax: real, fabsUrev: real): (r: (real, real))
    requires fabsUrev > 0.0
    ensures SameRate(r.0, r.1, fabsUrev)
    ensures smax > 0.0 ==> r.0 == smax
    ensures smax <= 0.0 && vmax > 0.0 ==> r.1 == vmax
    ensures smax <= 0.0 && vmax <= 0.0 ==> r == (0.0, 0.0)
    ensures r.0 >= 0.0 && r.1 >= 0.0
  {
    if smax > 0.0 then
      assert smax * fabsUrev > 0.0;
      (smax, smax * fabsUrev)
    else if vmax > 0.0 then
      assert vmax / fabsUrev * fabsUrev == vmax;
      assert vmax / fabsUrev > 0.0;
      (vmax / fabsUrev, vmax)
    else (0.0, 0.0)
  }

  lemma BaseRateNonNegative(sbas: real, vbas: real, smax: real, vmax: real, fabsUrev: real)
    requires fabsUrev > 0.0 && smax >= 0.0 && vmax >= 0.0
    ensures var r := ReconcileRate(sbas, vbas, 0.0, smax, 0.0, vmax, fabsUrev);
            0.0 <= r.0 && 0.0 <= r.1
  {
    var r := ReconcileRate(sbas, vbas, 0.0, smax, 0.0, vmax, fabsUrev);
    if sbas != 0.0 {
      assert r.0 >= 0.0;
      assert r.0 * fabsUrev >= 0.0;
    } else {
      assert r.1 >= 0.0;
      assert r.1 / fabsUrev >= 0.0;
    }
  }
}
