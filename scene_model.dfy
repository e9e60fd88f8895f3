/**
 * The click-and-draw path builder of clickanddraw.py as a state machine over
 * values. The scene's graphics items live in an arena: the drag points are the
 * records of the sequence `destinations` (a point is named by its index), and
 * the line items are the entries of the map `lines` (a line is named by its id;
 * `addLine` takes the next unused id).
 */
module SceneModel {
  import opened Options

  type LineId = nat

  /** A line item, from (x1, y1) to (x2, y2). */
  datatype Line = Line(x1: int, y1: int, x2: int, y2: int)

  /** A drag point (QDragPoint). */
  datatype DragPoint = DragPoint(
    originX: int, originY: int,  // `_x`, `_y`: where the point was created
    x: int, y: int,              // logical position, updated when a drag ends
    offsetX: int, offsetY: int,  // the item's offset from where it was created (`setPos`)
    traceline: Option<LineId>,   // the line arriving from the previous point
    nextline: Option<LineId>)    // the line leaving towards the next point

  /** QDragPoint's constructor. */
  function NewDragPoint(x: int, y: int, traceline: Option<LineId>): (p: DragPoint)
    ensures p.x == p.originX == x && p.y == p.originY == y
    ensures p.offsetX == 0 && p.offsetY == 0
    ensures p.traceline == traceline && p.nextline == None
  {
    DragPoint(x, y, x, y, 0, 0, traceline, None)
  }

  /** QCDScene's state. */
  datatype SceneState = SceneState(
    destinations: seq<DragPoint>,
    lines: map<LineId, Line>,
    traceline: Option<LineId>,  // the preview line of the segment being drawn
    moved: bool,                // a new segment is being drawn
    mover: Option<nat>,         // the point being dragged
    nextLineId: LineId)         // the id the next `addLine` returns

  /** What lies under the pointer when a button is pressed. */
  datatype Hit = NoItem | OtherItem | PointItem(index: nat)

  /** The scene's mouse events, at scene coordinates. */
  datatype Event = PressAt(hit: Hit) | MoveTo(x: int, y: int) | ReleaseAt(x: int, y: int)

  /** The ids of the lines that link consecutive points. */
  ghost function LinkIds(d: seq<DragPoint>): set<LineId>
  {
    set i | 1 <= i < |d| && d[i].traceline.Some? :: d[i].traceline.value
  }

  /** The id of the preview line, if there is one, as a set. */
  function PreviewIds(t: Option<LineId>): set<LineId>
  {
    if t.Some? then {t.value} else {}
  }

  /** Consecutive points share their link: the previous point's nextline is the next point's traceline. */
  ghost predicate Linked(d: seq<DragPoint>)
  {
    forall i :: 1 <= i < |d| ==> d[i].traceline.Some? && d[i - 1].nextline == d[i].traceline
  }

  /** No two points arrive by the same line. */
  ghost predicate DistinctLinks(d: seq<DragPoint>)
  {
    forall i, j :: 1 <= i < j < |d| ==> d[i].traceline != d[j].traceline
  }

  /**
   * The invariant of every reachable scene: a non-empty chain of points whose
   * first point has no incoming line and whose last has no outgoing line, each
   * link shared by its two ends and used once; the scene holds exactly the
   * links and, while a segment is being drawn, one preview line; a preview line
   * exists exactly when `moved` is set; the dragged point is one of the points.
   */
  ghost predicate Inv(s: SceneState)
  {
    var d := s.destinations;
    |d| >= 1
    && d[0].traceline == None
    && d[|d| - 1].nextline == None
    && Linked(d)
    && DistinctLinks(d)
    && (s.traceline.Some? ==> s.traceline.value !in LinkIds(d))
    && s.lines.Keys == LinkIds(d) + PreviewIds(s.traceline)
    && (forall id :: id in s.lines ==> id < s.nextLineId)
    && (s.moved <==> s.traceline.Some?)
    && (s.mover.Some? ==> s.mover.value < |d|)
  }

  /** The lines touching point `i` are lines of the scene; they are distinct from each other and from the preview. */
  lemma PointLines(s: SceneState, i: nat)
    requires Inv(s) && i < |s.destinations|
    ensures var p := s.destinations[i];
      && (p.traceline.Some? ==> p.traceline.value in s.lines && Some(p.traceline.value) != s.traceline)
      && (p.nextline.Some? ==> p.nextline.value in s.lines && Some(p.nextline.value) != s.traceline
                               && p.nextline != p.traceline)
  {
    var d := s.destinations;
    if d[i].traceline.Some? {
      assert d[i].traceline.value in LinkIds(d);
    }
    if d[i].nextline.Some? {
      assert i + 1 < |d|;
      assert d[i + 1].traceline == d[i].nextline;
      assert d[i + 1].traceline.value in LinkIds(d);
    }
  }

  /** Links depend only on each point's traceline. */
  lemma LinkIdsSameLinks(d: seq<DragPoint>, e: seq<DragPoint>)
    requires |d| == |e|
    requires forall i :: 0 <= i < |d| ==> d[i].traceline == e[i].traceline
    ensures LinkIds(d) == LinkIds(e)
  {
    forall id | id in LinkIds(d) ensures id in LinkIds(e) {
      var i :| 1 <= i < |d| && d[i].traceline.Some? && d[i].traceline.value == id;
      assert e[i].traceline.value == id;
    }
    forall id | id in LinkIds(e) ensures id in LinkIds(d) {
      var i :| 1 <= i < |e| && e[i].traceline.Some? && e[i].traceline.value == id;
      assert d[i].traceline.value == id;
    }
  }

  /** Appending a point arriving by line `t` adds `t` to the links. */
  lemma LinkIdsAppend(d: seq<DragPoint>, p: DragPoint)
    requires |d| >= 1 && p.traceline.Some?
    ensures LinkIds(d + [p]) == LinkIds(d) + {p.traceline.value}
  {
    var e := d + [p];
    forall id | id in LinkIds(e) ensures id in LinkIds(d) + {p.traceline.value} {
      var i :| 1 <= i < |e| && e[i].traceline.Some? && e[i].traceline.value == id;
      if i < |d| {
        assert d[i] == e[i];
      }
    }
    forall id | id in LinkIds(d) ensures id in LinkIds(e) {
      var i :| 1 <= i < |d| && d[i].traceline.Some? && d[i].traceline.value == id;
      assert e[i] == d[i];
    }
    assert e[|d|] == p;
  }

  /** The invariant depends on the points' links and the lines' ids only, not on positions. */
  lemma InvSameShape(s: SceneState, r: SceneState)
    requires Inv(s)
    requires |r.destinations| == |s.destinations|
    requires forall i :: 0 <= i < |s.destinations| ==>
      r.destinations[i].traceline == s.destinations[i].traceline
      && r.destinations[i].nextline == s.destinations[i].nextline
    requires r.lines.Keys == s.lines.Keys
    requires r.traceline == s.traceline && r.moved == s.moved && r.mover == s.mover
    requires r.nextLineId == s.nextLineId
    ensures Inv(r)
  {
    LinkIdsSameLinks(s.destinations, r.destinations);
  }

  /** A new scene: one point, at the origin, with no lines; nothing drawn or dragged. */
  function Init(): (s: SceneState)
    ensures Inv(s)
    ensures s.destinations == [NewDragPoint(0, 0, None)]
    ensures s.lines == map[] && s.traceline == None && !s.moved && s.mover == None
  {
    var s := SceneState([NewDragPoint(0, 0, None)], map[], None, false, None, 0);
    assert LinkIds(s.destinations) == {};
    s
  }

  /** `setLine` keeping the start of line `t`, if there is one, and moving its end to (x, y). */
  function MoveLineEnd(lines: map<LineId, Line>, t: Option<LineId>, x: int, y: int): (r: map<LineId, Line>)
    requires t.Some? ==> t.value in lines
    ensures r.Keys == lines.Keys
    ensures t.Some? ==> var l := lines[t.value]; r[t.value] == Line(l.x1, l.y1, x, y)
    ensures forall id :: id in lines && Some(id) != t ==> r[id] == lines[id]
  {
    if t.Some? then
      var l := lines[t.value];
      lines[t.value := Line(l.x1, l.y1, x, y)]
    else lines
  }

  /** `setLine` moving the start of line `n`, if there is one, to (x, y) and keeping its end. */
  function MoveLineStart(lines: map<LineId, Line>, n: Option<LineId>, x: int, y: int): (r: map<LineId, Line>)
    requires n.Some? ==> n.value in lines
    ensures r.Keys == lines.Keys
    ensures n.Some? ==> var l := lines[n.value]; r[n.value] == Line(x, y, l.x2, l.y2)
    ensures forall id :: id in lines && Some(id) != n ==> r[id] == lines[id]
  {
    if n.Some? then
      var l := lines[n.value];
      lines[n.value := Line(x, y, l.x2, l.y2)]
    else lines
  }

  /**
   * `setScenePos`: the point's offset becomes (x, y) less where it was created;
   * its incoming line now ends, and its outgoing line now starts, at (x, y),
   * their far ends staying put; nothing else changes, the point's logical
   * position included.
   */
  function SetScenePos(s: SceneState, i: nat, x: int, y: int): (r: SceneState)
    requires Inv(s) && i < |s.destinations|
    ensures Inv(r)
    ensures var p := s.destinations[i];
      r.destinations == s.destinations[i := p.(offsetX := x - p.originX, offsetY := y - p.originY)]
    ensures r.lines.Keys == s.lines.Keys
    ensures var t := s.destinations[i].traceline;
      t.Some? ==> (t.value in s.lines &&
        var l := s.lines[t.value]; r.lines[t.value] == Line(l.x1, l.y1, x, y))
    ensures var n := s.destinations[i].nextline;
      n.Some? ==> (n.value in s.lines &&
        var l := s.lines[n.value]; r.lines[n.value] == Line(x, y, l.x2, l.y2))
    ensures var p := s.destinations[i];
      forall id :: id in s.lines && Some(id) != p.traceline && Some(id) != p.nextline ==>
        r.lines[id] == s.lines[id]
    ensures r.traceline == s.traceline && r.moved == s.moved && r.mover == s.mover
    ensures r.nextLineId == s.nextLineId
  {
    PointLines(s, i);
    var p := s.destinations[i];
    var lines := MoveLineStart(MoveLineEnd(s.lines, p.traceline, x, y), p.nextline, x, y);
    var r := s.(destinations := s.destinations[i := p.(offsetX := x - p.originX, offsetY := y - p.originY)],
                lines := lines);
    InvSameShape(s, r);
    r
  }

  /** `finalizeScenePos`: the point's logical position becomes (x, y); nothing else changes. */
  function FinalizeScenePos(s: SceneState, i: nat, x: int, y: int): (r: SceneState)
    requires Inv(s) && i < |s.destinations|
    ensures Inv(r)
    ensures r.destinations == s.destinations[i := s.destinations[i].(x := x, y := y)]
    ensures r.lines == s.lines && r.traceline == s.traceline && r.moved == s.moved
    ensures r.mover == s.mover && r.nextLineId == s.nextLineId
  {
    var r := s.(destinations := s.destinations[i := s.destinations[i].(x := x, y := y)]);
    InvSameShape(s, r);
    r
  }

  /** `mousePressEvent`: the dragged point becomes the point under the pointer, or none when that is not a point. */
  function Press(s: SceneState, hit: Hit): (r: SceneState)
    requires Inv(s)
    requires hit.PointItem? ==> hit.index < |s.destinations|
    ensures Inv(r)
    ensures r.mover.Some? <==> hit.PointItem?
    ensures r.mover.Some? ==> r.mover.value == hit.index
    ensures r == s.(mover := r.mover)
  {
    s.(mover := if hit.PointItem? then Some(hit.index) else None)
  }

  /**
   * `_movenew`: a segment is being drawn; the previous preview line is removed
   * and a new one drawn from the last point's logical position to (x, y).
   */
  function MoveNew(s: SceneState, x: int, y: int): (r: SceneState)
    requires Inv(s)
    ensures Inv(r)
    ensures r.moved && r.traceline.Some?
    ensures var last := s.destinations[|s.destinations| - 1];
      r.lines[r.traceline.value] == Line(last.x, last.y, x, y)
    ensures r.traceline.value !in s.lines
    ensures r.lines.Keys == s.lines.Keys - PreviewIds(s.traceline) + {r.traceline.value}
    ensures forall id :: id in r.lines && id != r.traceline.value ==> r.lines[id] == s.lines[id]
    ensures r.destinations == s.destinations && r.mover == s.mover
  {
    var lines := if s.traceline.Some? then s.lines - {s.traceline.value} else s.lines;
    var start := s.destinations[|s.destinations| - 1];
    SceneState(s.destinations, lines[s.nextLineId := Line(start.x, start.y, x, y)],
               Some(s.nextLineId), true, s.mover, s.nextLineId + 1)
  }

  /** `_moveexisting`: the dragged point follows the pointer. */
  function MoveExisting(s: SceneState, x: int, y: int): (r: SceneState)
    requires Inv(s) && s.mover.Some?
    ensures Inv(r)
    ensures r == SetScenePos(s, s.mover.value, x, y)
    ensures var p := s.destinations[s.mover.value]; var q := r.destinations[s.mover.value];
      q.offsetX == x - p.originX && q.offsetY == y - p.originY && q.x == p.x && q.y == p.y
    ensures var t := s.destinations[s.mover.value].traceline;
      t.Some? ==> r.lines[t.value].x2 == x && r.lines[t.value].y2 == y
    ensures var n := s.destinations[s.mover.value].nextline;
      n.Some? ==> r.lines[n.value].x1 == x && r.lines[n.value].y1 == y
    ensures r.moved == s.moved && r.mover == s.mover && r.traceline == s.traceline
    ensures |r.destinations| == |s.destinations|
  {
    SetScenePos(s, s.mover.value, x, y)
  }

  /** `mouseMoveEvent`: drag the held point, or else draw a new segment. */
  function Move(s: SceneState, x: int, y: int): (r: SceneState)
    requires Inv(s)
    ensures Inv(r)
    ensures s.mover.Some? ==> r.moved == s.moved && |r.destinations| == |s.destinations|
    ensures s.mover.None? ==> r.moved
    ensures s.mover.Some? ==> r == MoveExisting(s, x, y)
    ensures s.mover.None? ==> r == MoveNew(s, x, y)
    ensures r.mover == s.mover
  {
    if s.mover.Some? then MoveExisting(s, x, y) else MoveNew(s, x, y)
  }

  /** Point `i` of `r` is point `i` of `s`: same creation position, same incoming line. */
  ghost predicate SameItem(p: DragPoint, q: DragPoint)
  {
    p.originX == q.originX && p.originY == q.originY && p.traceline == q.traceline
  }

  /** `d` is extended by `e`: `e` keeps every point of `d`, at the same index, and may add more. */
  ghost predicate Extends(d: seq<DragPoint>, e: seq<DragPoint>)
  {
    |d| <= |e| && forall i :: 0 <= i < |d| ==> SameItem(d[i], e[i])
  }

  /**
   * Point `q` is point `p` with its offset unchanged, its logical position too
   * when `samePos`, and its outgoing line too when `sameNext`.
   */
  ghost predicate Kept(p: DragPoint, q: DragPoint, samePos: bool, sameNext: bool)
  {
    && q.offsetX == p.offsetX && q.offsetY == p.offsetY
    && (samePos ==> q.x == p.x && q.y == p.y)
    && (sameNext ==> q.nextline == p.nextline)
  }

  /**
   * Every point of `d` keeps its offset in `e`; all but the held one keep their
   * logical position; all but the last keep their outgoing line, and the last
   * one does too unless a point was appended.
   */
  ghost predicate PointsKept(d: seq<DragPoint>, e: seq<DragPoint>, mover: Option<nat>, appended: bool)
  {
    |d| <= |e| &&
    forall j :: 0 <= j < |d| ==> Kept(d[j], e[j], Some(j) != mover, j != |d| - 1 || !appended)
  }

  /**
   * The points after a release, given the points `d` before it: the held point
   * is finalized at (x, y); then, if a segment was being drawn, the last point
   * leaves by line `t` and a point arriving by `t` is appended at (x, y).
   */
  lemma ReleasedPoints(d: seq<DragPoint>, mover: Option<nat>, appended: bool, x: int, y: int,
                       t: Option<LineId>, e: seq<DragPoint>)
    requires |d| >= 1 && (mover.Some? ==> mover.value < |d|)
    requires var d1 := if mover.Some? then d[mover.value := d[mover.value].(x := x, y := y)] else d;
      e == if appended then d1[|d| - 1 := d1[|d| - 1].(nextline := t)] + [NewDragPoint(x, y, t)] else d1
    ensures |e| == |d| + (if appended then 1 else 0)
    ensures Extends(d, e)
    ensures PointsKept(d, e, mover, appended)
    ensures appended ==> var n := |d|; e[n] == NewDragPoint(x, y, t) && e[n - 1].nextline == t
    ensures mover.Some? ==> e[mover.value].x == x && e[mover.value].y == y
  {
  }

  /**
   * The append of `mouseReleaseEvent` while a segment is being drawn: a point
   * is appended at (x, y) arriving by the preview line, the old last point
   * leaves by that same line, and drawing stops.
   */
  function AppendPoint(s: SceneState, x: int, y: int): (r: SceneState)
    requires Inv(s) && s.moved
    ensures Inv(r)
    ensures var d := s.destinations; var n := |d|;
      r.destinations == d[n - 1 := d[n - 1].(nextline := s.traceline)] + [NewDragPoint(x, y, s.traceline)]
    ensures r.traceline == None && !r.moved
    ensures r.lines == s.lines && r.mover == s.mover && r.nextLineId == s.nextLineId
  {
    var d := s.destinations;
    var n := |d|;
    var r := s.(moved := false, traceline := None,
                destinations := d[n - 1 := d[n - 1].(nextline := s.traceline)] + [NewDragPoint(x, y, s.traceline)]);
    AppendKeepsInv(s, x, y, r);
    r
  }

  /** Appending the drawn segment's end point keeps the invariant. */
  lemma AppendKeepsInv(s: SceneState, x: int, y: int, r: SceneState)
    requires Inv(s) && s.moved
    requires var d := s.destinations; var n := |d|;
      r.destinations == d[n - 1 := d[n - 1].(nextline := s.traceline)] + [NewDragPoint(x, y, s.traceline)]
    requires r.traceline == None && !r.moved
    requires r.lines == s.lines && r.mover == s.mover && r.nextLineId == s.nextLineId
    ensures Inv(r)
  {
    var d := s.destinations;
    var n := |d|;
    var d1 := d[n - 1 := d[n - 1].(nextline := s.traceline)];
    var e := r.destinations;
    assert e == d1 + [e[n]];
    LinkIdsSameLinks(d, d1);
    LinkIdsAppend(d1, e[n]);
    assert Linked(e) by {
      forall i | 1 <= i < |e| ensures e[i].traceline.Some? && e[i - 1].nextline == e[i].traceline {
        if i < n {
          assert e[i] == d1[i] && e[i - 1] == d1[i - 1];
        }
      }
    }
    assert DistinctLinks(e) by {
      forall i, j | 1 <= i < j < |e| ensures e[i].traceline != e[j].traceline {
        assert e[i] == d1[i];
        if j < n {
          assert e[j] == d1[j];
        } else {
          assert d[i].traceline.value in LinkIds(d);
        }
      }
    }
  }

  /**
   * `mouseReleaseEvent`: a dragged point takes (x, y) as its logical position;
   * then, if a segment was being drawn, a point is appended at (x, y) arriving
   * by the preview line, which also becomes the old last point's outgoing line,
   * and drawing stops. The dragged point stays held.
   */
  function Release(s: SceneState, x: int, y: int): (r: SceneState)
    requires Inv(s)
    ensures Inv(r)
    ensures |r.destinations| == |s.destinations| + (if s.moved then 1 else 0)
    ensures Extends(s.destinations, r.destinations)
    ensures s.moved ==> var n := |s.destinations|;
      && r.destinations[n] == NewDragPoint(x, y, s.traceline)
      && r.destinations[n - 1].nextline == s.traceline
      && r.traceline == None && !r.moved
    ensures !s.moved ==> r.traceline == s.traceline && !r.moved
    ensures s.mover.Some? ==> r.destinations[s.mover.value].x == x && r.destinations[s.mover.value].y == y
    ensures r.mover == s.mover && r.lines == s.lines
    ensures PointsKept(s.destinations, r.destinations, s.mover, s.moved)
  {
    if s.mover.Some? then
      var s1 := FinalizeScenePos(s, s.mover.value, x, y);
      var r := if s1.moved then AppendPoint(s1, x, y) else s1;
      ReleasedPoints(s.destinations, s.mover, s.moved, x, y, s.traceline, r.destinations);
      r
    else
      var r := if s.moved then AppendPoint(s, x, y) else s;
      ReleasedPoints(s.destinations, s.mover, s.moved, x, y, s.traceline, r.destinations);
      r
  }

  /** The hit-test of a press only ever finds one of the scene's own points. */
  ghost predicate Enabled(s: SceneState, e: Event)
  {
    e.PressAt? && e.hit.PointItem? ==> e.hit.index < |s.destinations|
  }

  /** One mouse event. */
  function Step(s: SceneState, e: Event): (r: SceneState)
    requires Inv(s) && Enabled(s, e)
    ensures Inv(r)
    ensures Extends(s.destinations, r.destinations)
  {
    match e
    case PressAt(hit) => Press(s, hit)
    case MoveTo(x, y) =>
      var r := Move(s, x, y);
      assert r.destinations == s.destinations || SetScenePos(s, s.mover.value, x, y) == r;
      r
    case ReleaseAt(x, y) => Release(s, x, y)
  }

  /** Every event of `es`, delivered in order from `s`, is one the scene can receive. */
  ghost predicate Runnable(s: SceneState, es: seq<Event>)
    requires Inv(s)
    decreases |es|
  {
    es == [] || (Enabled(s, es[0]) && Runnable(Step(s, es[0]), es[1..]))
  }

  /** The scene after the events `es`: the invariant holds, and the points only ever grow in number. */
  function Run(s: SceneState, es: seq<Event>): (r: SceneState)
    requires Inv(s) && Runnable(s, es)
    ensures Inv(r)
    ensures Extends(s.destinations, r.destinations)
    decreases |es|
  {
    if es == [] then s else Run(Step(s, es[0]), es[1..])
  }

  /**
   * Dragging adds no point: once a point is held and no segment is being
   * drawn, any moves and releases leave the number of points, the set of
   * lines and the held point as they were, and never start drawing.
   */
  lemma {:induction false} DragAddsNoDestination(s: SceneState, es: seq<Event>)
    requires Inv(s) && s.mover.Some? && !s.moved
    requires forall k :: 0 <= k < |es| ==> !es[k].PressAt?
    ensures Runnable(s, es)
    ensures var r := Run(s, es);
      |r.destinations| == |s.destinations| && !r.moved && r.mover == s.mover
      && r.lines.Keys == s.lines.Keys
    decreases |es|
  {
    if es != [] {
      DragAddsNoDestination(Step(s, es[0]), es[1..]);
    }
  }

  /**
   * Drawing one segment: with no point held, a move to (x, y) and a release at
   * (rx, ry) append one point at (rx, ry), arriving by a line drawn from the old
   * last point's logical position to (x, y), which is also that point's
   * outgoing line.
   */
  lemma DrawSegment(s: SceneState, x: int, y: int, rx: int, ry: int)
    requires Inv(s) && s.mover.None?
    ensures var r := Release(Move(s, x, y), rx, ry);
      var n := |s.destinations|;
      && |r.destinations| == n + 1
      && r.destinations[n] == NewDragPoint(rx, ry, r.destinations[n].traceline)
      && r.destinations[n].traceline.Some?
      && r.destinations[n - 1].nextline == r.destinations[n].traceline
      && r.lines[r.destinations[n].traceline.value]
         == Line(s.destinations[n - 1].x, s.destinations[n - 1].y, x, y)
      && !r.moved && r.traceline.None?
  {
  }
}
