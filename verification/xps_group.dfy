/**
 * XPS groups: the group name an axis derives from its positioner name,
 * the count of axes in a group (isInGroup), and the coordinated group
 * move that flushes the deferred moves of one group
 * (XPSController::processDeferredMovesInGroup).
 */
module XpsGroup {
  import opened CSemantics

  /**
   * The group name of a positioner "group.positioner": the name cut at
   * its first '.', or the whole name when it has none (the constructor
   * only logs that case).
   */
  function GroupName(positionerName: string): (r: string)
    ensures r <= positionerName
    ensures !Contains(r, '.')
    ensures |r| < |positionerName| ==> positionerName[|r|] == '.'
    ensures !Contains(positionerName, '.') ==> r == positionerName
  {
    match IndexOf(positionerName, '.')
    case None => positionerName
    case Some(k) => positionerName[..k]
  }

  /** The group part of a qualified positioner name comes back unchanged. */
  lemma GroupNameOfQualified(group: string, positioner: string)
    requires !Contains(group, '.')
    ensures GroupName(group + "." + positioner) == group
  {
    var name := group + "." + positioner;
    assert name[|group|] == '.';
    assert Contains(name, '.');
  }

  /** The per-axis fields a group move reads and writes. */
  datatype Axis = Axis(
    groupName: string,
    setpoint: real,          // setpointPosition_, read back by poll
    deferredMove: bool,
    deferredRelative: bool,
    deferredPosition: real)  // the target, or the distance of a relative move

  /** The number of axes of the controller whose group is g. */
  function CountInGroup(axes: seq<Axis>, g: string): (n: nat)
    ensures n <= |axes|
  {
    if |axes| == 0 then 0
    else CountInGroup(axes[..|axes| - 1], g) + (if axes[|axes| - 1].groupName == g then 1 else 0)
  }

  /** isInGroup of axis i: the number of axes sharing its group, itself included. */
  function IsInGroup(axes: seq<Axis>, i: nat): (n: nat)
    requires i < |axes|
    ensures 1 <= n <= |axes|
  {
    CountMember(axes, i);
    CountInGroup(axes, axes[i].groupName)
  }

  lemma {:induction false} CountMember(axes: seq<Axis>, i: nat)
    requires i < |axes|
    ensures CountInGroup(axes, axes[i].groupName) >= 1
    decreases |axes|
  {
    if i < |axes| - 1 {
      var init := axes[..|axes| - 1];
      assert init[i] == axes[i];
      CountMember(init, i);
    }
  }

  /** A group with no axis on the controller counts 0. */
  lemma {:induction false} CountAbsentGroup(axes: seq<Axis>, g: string)
    requires forall i :: 0 <= i < |axes| ==> axes[i].groupName != g
    ensures CountInGroup(axes, g) == 0
    decreases |axes|
  {
    if |axes| > 0 {
      var init := axes[..|axes| - 1];
      assert forall i :: 0 <= i < |init| ==> init[i] == axes[i];
      CountAbsentGroup(init, g);
    }
  }

  /** The position-buffer entry of one axis of the group, as the source builds it. */
  function BufferEntry(a: Axis): real
  {
    if a.deferredMove then
      (if a.deferredRelative then a.setpoint + a.deferredPosition else a.deferredPosition)
    else
      (if a.deferredRelative then 0.0 else a.setpoint)
  }

  /** The group's position buffer: one entry per axis of the group, in axis order. */
  function GroupBuffer(axes: seq<Axis>, g: string): (b: seq<real>)
    ensures |b| == CountInGroup(axes, g)
  {
    if |axes| == 0 then []
    else
      var last := axes[|axes| - 1];
      GroupBuffer(axes[..|axes| - 1], g) + (if last.groupName == g then [BufferEntry(last)] else [])
  }

  /** Some axis of group g has its deferredRelative_ flag set. */
  predicate AnyRelative(axes: seq<Axis>, g: string)
  {
    exists i :: 0 <= i < |axes| && axes[i].groupName == g && axes[i].deferredRelative
  }

  /** The axis after the group move: its deferred flag cleared when in group g. */
  function AfterGroupMove(a: Axis, g: string): (r: Axis)
    ensures r.groupName == a.groupName && r.setpoint == a.setpoint
    ensures r.deferredRelative == a.deferredRelative && r.deferredPosition == a.deferredPosition
    ensures r.deferredMove == (a.deferredMove && a.groupName != g)
  {
    if a.groupName == g then a.(deferredMove := false) else a
  }

  /** The group move command: relative or absolute, NbPositioners, and the buffer. */
  datatype GroupMove = GroupMove(relative: bool, count: nat, positions: seq<real>)

  /**
   * processDeferredMovesInGroup. The command it sends, the axes after
   * the deferred flags of the group are cleared (whatever the controller
   * answered), and the status derived from the controller's reply
   * sendStatus.
   */
  method ProcessDeferredMovesInGroup(axes: seq<Axis>, g: string, sendStatus: int)
    returns (move: GroupMove, after: seq<Axis>, st: AsynStatus)
    ensures move.positions == GroupBuffer(axes, g)
    ensures move.relative <==> AnyRelative(axes, g)
    ensures move.count == CountInGroup(axes, g) == |move.positions|
    ensures |after| == |axes|
    ensures forall i :: 0 <= i < |axes| ==> after[i] == AfterGroupMove(axes[i], g)
    ensures st == (if sendStatus == 0 then AsynSuccess else AsynError)
  {
    move := CollectGroupMove(axes, g);
    after := ClearDeferred(axes, g);
    st := if sendStatus == 0 then AsynSuccess else AsynError;
  }

  /** The first loop: the buffer of the group's positions, relative if any is, and the group's size. */
  method CollectGroupMove(axes: seq<Axis>, g: string) returns (move: GroupMove)
    ensures move.positions == GroupBuffer(axes, g)
    ensures move.relative <==> AnyRelative(axes, g)
    ensures move.count == CountInGroup(axes, g) == |move.positions|
  {
    var positions: seq<real> := [];
    var relative := false;
    var count: nat := 0;
    var first := true;
    for i := 0 to |axes|
      invariant positions == GroupBuffer(axes[..i], g)
      invariant relative <==> exists j :: 0 <= j < i && axes[j].groupName == g && axes[j].deferredRelative
      invariant first <==> forall j :: 0 <= j < i ==> axes[j].groupName != g
      invariant first ==> count == 0
      invariant !first ==> count == CountInGroup(axes, g)
    {
      var pre, next := axes[..i], axes[..i + 1];
      assert next[..|next| - 1] == pre && next[|next| - 1] == axes[i];
      assert GroupBuffer(next, g)
             == GroupBuffer(pre, g) + (if axes[i].groupName == g then [BufferEntry(axes[i])] else []);
      if axes[i].groupName == g {
        if first {
          count := IsInGroup(axes, i);
          first := false;
        }
        if axes[i].deferredRelative {
          relative := true;
        }
        positions := positions + [BufferEntry(axes[i])];
      }
    }
    assert axes[..|axes|] == axes;
    if first {
      CountAbsentGroup(axes, g);
    }
    move := GroupMove(relative, count, positions);
  }

  /** The second loop: every axis of the group has its deferred move cleared, the others are left alone. */
  method ClearDeferred(axes: seq<Axis>, g: string) returns (after: seq<Axis>)
    ensures |after| == |axes|
    ensures forall i :: 0 <= i < |axes| ==> after[i] == AfterGroupMove(axes[i], g)
  {
    after := axes;
    for i := 0 to |axes|
      invariant |after| == |axes|
      invariant forall j :: 0 <= j < i ==> after[j] == AfterGroupMove(axes[j], g)
      invariant forall j :: i <= j < |axes| ==> after[j] == axes[j]
    {
      if axes[i].groupName == g {
        after := after[i := axes[i].(deferredMove := false)];
      }
    }
  }

  /** Where an axis is meant to end up: its deferred target, or where it is. */
  function Target(a: Axis): real
  {
    if a.deferredMove then
      (if a.deferredRelative then a.setpoint + a.deferredPosition else a.deferredPosition)
    else a.setpoint
  }

  /** Where a buffer entry takes an axis, for a relative or an absolute group move. */
  function Reached(a: Axis, entry: real, relative: bool): real
  {
    if relative then a.setpoint + entry else entry
  }

  /**
   * As written, a relative group move is sent with the absolute form
   * setpoint + distance for a deferred relative axis, so an axis at 10
   * asked to move by 1 is sent to 21, not to 11.
   */
  lemma RelativeGroupMoveOvershoots()
    ensures var a := Axis("G", 10.0, true, true, 1.0);
            var axes := [a];
            AnyRelative(axes, "G")
            && GroupBuffer(axes, "G") == [11.0]
            && Target(a) == 11.0
            && Reached(a, GroupBuffer(axes, "G")[0], true) == 21.0
  {
    var a := Axis("G", 10.0, true, true, 1.0);
    assert [a][..0] == [];
    assert [a][0].groupName == "G" && [a][0].deferredRelative;
  }

  /** The buffer entry of the frame of the group move: a distance or a target. */
  function IntendedEntry(a: Axis, relative: bool): (e: real)
    ensures Reached(a, e, relative) == Target(a)
  {
    if relative then Target(a) - a.setpoint else Target(a)
  }

  /** The position buffer built with IntendedEntry. */
  function IntendedBuffer(axes: seq<Axis>, g: string, relative: bool): (b: seq<real>)
    ensures |b| == CountInGroup(axes, g)
  {
    if |axes| == 0 then []
    else
      var last := axes[|axes| - 1];
      IntendedBuffer(axes[..|axes| - 1], g, relative)
        + (if last.groupName == g then [IntendedEntry(last, relative)] else [])
  }

  /** The axes of group g, in axis order. */
  function Members(axes: seq<Axis>, g: string): (m: seq<Axis>)
    ensures |m| == CountInGroup(axes, g)
    ensures forall k :: 0 <= k < |m| ==> m[k].groupName == g
  {
    if |axes| == 0 then []
    else
      var last := axes[|axes| - 1];
      Members(axes[..|axes| - 1], g) + (if last.groupName == g then [last] else [])
  }

  /** With the intended buffer, every axis of the group reaches its target. */
  lemma {:induction false} IntendedBufferReachesTargets(axes: seq<Axis>, g: string, relative: bool)
    ensures forall k :: 0 <= k < |Members(axes, g)| ==>
              Reached(Members(axes, g)[k], IntendedBuffer(axes, g, relative)[k], relative)
                == Target(Members(axes, g)[k])
    decreases |axes|
  {
    if |axes| > 0 {
      IntendedBufferReachesTargets(axes[..|axes| - 1], g, relative);
    }
  }

  /**
   * When no axis of the group has a relative flag the move is absolute,
   * and then the buffer as written is the intended one.
   */
  lemma {:induction false} AbsoluteMovesAsIntended(axes: seq<Axis>, g: string)
    requires !AnyRelative(axes, g)
    ensures GroupBuffer(axes, g) == IntendedBuffer(axes, g, false)
    decreases |axes|
  {
    if |axes| > 0 {
      var init := axes[..|axes| - 1];
      AbsoluteMovesAsIntended(init, g);
    }
  }
}
