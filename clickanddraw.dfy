/**
 * QCDScene of clickanddraw.py as an object whose event handlers update its
 * fields in place. Each handler is proved to leave the scene in the state the
 * matching function of SceneModel describes, so every property proved there
 * holds of the object.
 */
module ClickAndDraw {
  import opened Options
  import M = SceneModel

  class Scene {
    var destinations: seq<M.DragPoint>
    var lines: map<M.LineId, M.Line>
    var traceline: Option<M.LineId>
    var moved: bool
    var mover: Option<nat>
    var nextLineId: M.LineId

    /** The scene's fields as a value. */
    function State(): M.SceneState
      reads this
    {
      M.SceneState(destinations, lines, traceline, moved, mover, nextLineId)
    }

    ghost predicate Valid()
      reads this
    {
      M.Inv(State())
    }

    /** A new scene holds one point, at the origin. */
    constructor ()
      ensures State() == M.Init()
      ensures Valid()
    {
      destinations := [M.NewDragPoint(0, 0, None)];
      lines := map[];
      traceline := None;
      moved := false;
      mover := None;
      nextLineId := 0;
    }

    /** QDragPoint.setScenePos on point `i`. */
    method SetScenePos(i: nat, x: int, y: int)
      requires Valid() && i < |destinations|
      modifies this
      ensures State() == M.SetScenePos(old(State()), i, x, y)
      ensures Valid()
    {
      M.PointLines(State(), i);
      var p := destinations[i];
      destinations := destinations[i := p.(offsetX := x - p.originX, offsetY := y - p.originY)];
      if p.traceline.Some? {
        var l := lines[p.traceline.value];
        lines := lines[p.traceline.value := M.Line(l.x1, l.y1, x, y)];
      }
      if p.nextline.Some? {
        var l := lines[p.nextline.value];
        lines := lines[p.nextline.value := M.Line(x, y, l.x2, l.y2)];
      }
    }

    /** QDragPoint.finalizeScenePos on point `i`. */
    method FinalizeScenePos(i: nat, x: int, y: int)
      requires Valid() && i < |destinations|
      modifies this
      ensures State() == M.FinalizeScenePos(old(State()), i, x, y)
      ensures Valid()
    {
      destinations := destinations[i := destinations[i].(x := x, y := y)];
    }

    /** A button press: the point under the pointer, if the item there is one, becomes the dragged point. */
    method MousePressEvent(hit: M.Hit)
      requires Valid() && (hit.PointItem? ==> hit.index < |destinations|)
      modifies this
      ensures State() == M.Press(old(State()), hit)
      ensures Valid()
    {
      mover := if hit.PointItem? then Some(hit.index) else None;
    }

    /** Drawing: the preview line is replaced by one from the last point to (x, y). */
    method MoveNew(x: int, y: int)
      requires Valid()
      modifies this
      ensures State() == M.MoveNew(old(State()), x, y)
      ensures Valid()
    {
      moved := true;
      if traceline.Some? {
        lines := lines - {traceline.value};
        traceline := None;
      }
      var start := destinations[|destinations| - 1];
      lines := lines[nextLineId := M.Line(start.x, start.y, x, y)];
      traceline := Some(nextLineId);
      nextLineId := nextLineId + 1;
    }

    /** Dragging: the held point follows the pointer. */
    method MoveExisting(x: int, y: int)
      requires Valid() && mover.Some?
      modifies this
      ensures State() == M.MoveExisting(old(State()), x, y)
      ensures Valid()
    {
      SetScenePos(mover.value, x, y);
    }

    /** A pointer move: drag the held point, or else draw. */
    method MouseMoveEvent(x: int, y: int)
      requires Valid()
      modifies this
      ensures State() == M.Move(old(State()), x, y)
      ensures Valid()
    {
      if mover.Some? {
        MoveExisting(x, y);
      } else {
        MoveNew(x, y);
      }
    }

    /** A button release: the held point takes (x, y) as its logical position, and a drawn segment ends with a point appended there. */
    method MouseReleaseEvent(x: int, y: int)
      requires Valid()
      modifies this
      ensures State() == M.Release(old(State()), x, y)
      ensures Valid()
    {
      if mover.Some? {
        FinalizeScenePos(mover.value, x, y);
      }
      ghost var held := State();
      if moved {
        moved := false;
        destinations := destinations + [M.NewDragPoint(x, y, traceline)];
        var n := |destinations|;
        destinations := destinations[n - 2 := destinations[n - 2].(nextline := traceline)];
        traceline := None;
        assert State() == M.AppendPoint(held, x, y);
      }
    }
  }
}
