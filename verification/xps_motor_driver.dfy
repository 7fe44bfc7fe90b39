/**
 * The older XPS axis driver (XPSMotorDriver.cpp): the done/moving and
 * home decision of its poll, including the switch out of jog mode once
 * a jog has come to rest.
 */
module XpsMotorDriver {
  import opened CSemantics
  import opened XpsStatus
  import XpsAxis

  /** The answers of the jog queries poll makes while the group is jogging (state 47). */
  datatype JogReadings = JogReadings(
    currentOk: bool,       // GroupJogCurrentGet succeeded
    actualVelocity: real,
    theoryVelocity: real,  // from GroupJogParametersGet, whose status is ignored
    disableOk: bool)       // GroupJogModeDisable succeeded

  /** The jog-mode commands poll sends. */
  datatype JogAction = NoJogAction | DisableJog | DisableJogThenKill

  datatype LegacyMotion = LegacyMotion(
    action: JogAction,
    done: Option<bool>,   // motorStatusDone; None when the poll bails out first
    home: Option<bool>)   // motorStatusHome, written together with done

  /**
   * XPSAxis::poll of XPSMotorDriver.cpp, up to the home flag. Jog mode
   * is switched off only when both jog velocities are exactly zero, and a
   * failure to switch it off kills the group; either query failure ends
   * the poll before the flags are written.
   */
  function PollMotion(status: int, deferredMove: bool, jog: JogReadings): (r: LegacyMotion)
    ensures r.action != NoJogAction <==>
              status == 47 && jog.currentOk
              && jog.actualVelocity == 0.0 && jog.theoryVelocity == 0.0
    ensures r.action == DisableJogThenKill <==> r.action != NoJogAction && !jog.disableOk
    ensures r.done.None? <==>
              status == 47 && (!jog.currentOk || r.action == DisableJogThenKill)
    ensures r.home.None? <==> r.done.None?
    ensures r.done.Some? ==> (r.done.value <==> !GroupMoving(status) && !deferredMove)
    ensures r.home.Some? ==> (r.home.value <==> status == 11)
  {
    var action :=
      if status == 47 && jog.currentOk && jog.actualVelocity == 0.0 && jog.theoryVelocity == 0.0 then
        (if jog.disableOk then DisableJog else DisableJogThenKill)
      else NoJogAction;
    if status == 47 && (!jog.currentOk || action == DisableJogThenKill) then
      LegacyMotion(action, None, None)
    else
      var axisDone := !GroupMoving(status);
      LegacyMotion(action, Some(axisDone && !deferredMove), Some(status == 11))
  }

  /**
   * The two drivers agree on "done" when the newer one is not in
   * moving-mode, and on the home switch in referencing mode 0; the newer
   * one never reports home in any other referencing mode.
   */
  lemma DriversAgree(status: int, deferredMove: bool, jog: JogReadings, wasMoving: bool,
                     referencingMode: int)
    requires status != 47
    ensures PollMotion(status, deferredMove, jog).done
            == XpsAxis.PollMotion(status, false, wasMoving, deferredMove, 0).done
    ensures referencingMode == 0 ==>
              (PollMotion(status, deferredMove, jog).home == Some(AtHome(status, referencingMode)))
    ensures referencingMode != 0 ==> !AtHome(status, referencingMode)
  {
  }
}
