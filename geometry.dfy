/**
 * The region selector of src/App.jsx: a pointer position and the drag
 * rectangle built from the drag's start point and the current point.
 * Positions are in on-screen pixels relative to the container's bounding box;
 * the subtraction of the bounding box done by getCoords is taken as given.
 */
module Geometry {

  /** A point relative to the container (the `startPos` state). */
  datatype Point = Point(x: real, y: real)

  /** What getCoords returns: the pointer position and the container size. */
  datatype Coords = Coords(x: real, y: real, width: real, height: real)

  /** The `selection` state: origin, size and the container size it was drawn in. */
  datatype Selection = Selection(x: real, y: real, w: real, h: real, containerW: real, containerH: real)
  {
    /** Size is never negative. */
    predicate WellFormed() { w >= 0.0 && h >= 0.0 }

    /** The closed rectangle contains the point. */
    predicate Covers(p: Point) { x <= p.x <= x + w && y <= p.y <= y + h }
  }

  function Min(a: real, b: real): real { if a <= b then a else b }

  /** Math.abs */
  function Abs(a: real): real { if a < 0.0 then -a else a }

  /** The position part of getCoords' result. */
  function PointOf(c: Coords): Point { Point(c.x, c.y) }

  /** The zero-size selection handleStart anchors at the pointer. */
  function Anchored(p: Point): (r: Selection)
    ensures r.WellFormed() && r.w == 0.0 && r.h == 0.0
    ensures r.Covers(p)
  {
    Selection(p.x, p.y, 0.0, 0.0, 0.0, 0.0)
  }

  /**
   * The selection handleMove computes from the drag start and the current
   * pointer: whichever way the user drags, the origin is the top-left corner
   * of the two points and the size is their distance on each axis.
   */
  function DragRect(start: Point, cur: Coords): (r: Selection)
    ensures r.x == Min(start.x, cur.x) && r.y == Min(start.y, cur.y)
    ensures r.x + r.w == (if start.x <= cur.x then cur.x else start.x)
    ensures r.y + r.h == (if start.y <= cur.y then cur.y else start.y)
    ensures r.WellFormed()
    ensures r.containerW == cur.width && r.containerH == cur.height
  {
    var w := cur.x - start.x;
    var h := cur.y - start.y;
    Selection(if w > 0.0 then start.x else cur.x,
              if h > 0.0 then start.y else cur.y,
              Abs(w), Abs(h), cur.width, cur.height)
  }

  /** The rectangle's size is the distance between the two points on each axis. */
  lemma DragRectSize(start: Point, cur: Coords)
    ensures DragRect(start, cur).w == Abs(cur.x - start.x)
    ensures DragRect(start, cur).h == Abs(cur.y - start.y)
  {
  }

  /** The rectangle spans the two points: both lie on its boundary corners. */
  lemma DragRectSpansBothPoints(start: Point, cur: Coords)
    ensures DragRect(start, cur).Covers(start) && DragRect(start, cur).Covers(PointOf(cur))
    ensures var r := DragRect(start, cur);
            {r.x, r.x + r.w} == {start.x, cur.x} && {r.y, r.y + r.h} == {start.y, cur.y}
  {
  }

  /**
   * Drag direction does not matter: dragging from a to b or from b to a in the
   * same container gives the same rectangle.
   */
  lemma DragRectSymmetric(a: Point, b: Point, width: real, height: real)
    ensures DragRect(a, Coords(b.x, b.y, width, height)) == DragRect(b, Coords(a.x, a.y, width, height))
  {
  }

  /** It is the smallest rectangle covering both points. */
  lemma DragRectIsSmallest(start: Point, cur: Coords, s: Selection)
    requires s.Covers(start) && s.Covers(PointOf(cur))
    ensures s.x <= DragRect(start, cur).x && s.y <= DragRect(start, cur).y
    ensures DragRect(start, cur).x + DragRect(start, cur).w <= s.x + s.w
    ensures DragRect(start, cur).y + DragRect(start, cur).h <= s.y + s.h
  {
  }
}
