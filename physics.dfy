/** The movement rules of the ball and the paddle, stated on values. */
module Physics {
  import opened Geometry

  predicate IsSign(v: int)
  {
    v == 1 || v == -1
  }

  /** The ball's `direction` list: two components, each +1 or -1. */
  predicate IsDirection(d: seq<int>)
  {
    |d| == 2 && IsSign(d[0]) && IsSign(d[1])
  }

  predicate HitsSideWall(pos: Rect, width: int)
  {
    pos.left <= 0 || pos.right >= width
  }

  predicate HitsCeiling(pos: Rect)
  {
    pos.top <= 0
  }

  /** The direction `Ball.update` leaves behind after testing the walls. */
  function WallBounce(pos: Rect, d: seq<int>, width: int): (r: seq<int>)
    requires IsDirection(d)
    ensures IsDirection(r)
    ensures r[0] == -d[0] <==> HitsSideWall(pos, width)
    ensures r[0] == d[0] <==> !HitsSideWall(pos, width)
    ensures r[1] == -d[1] <==> HitsCeiling(pos)
    ensures r[1] == d[1] <==> !HitsCeiling(pos)
  {
    var afterSides := if HitsSideWall(pos, width) then d[0 := -d[0]] else d;
    if HitsCeiling(pos) then afterSides[1 := -afterSides[1]] else afterSides
  }

  /** How many times `Ball.update` plays the bounce cue. */
  function WallCues(pos: Rect, width: int): (n: nat)
    ensures n <= 2
    ensures n == 0 <==> !HitsSideWall(pos, width) && !HitsCeiling(pos)
  {
    (if HitsSideWall(pos, width) then 1 else 0) + (if HitsCeiling(pos) then 1 else 0)
  }

  /** The direction `Ball.collide` computes from the number of overlapping objects
      and the span of the first one. The comparisons against the span are strict. */
  function Deflect(ball: Rect, d: seq<int>, count: nat, first: Rect): (r: seq<int>)
    requires IsDirection(d)
    ensures IsDirection(r)
    ensures count == 0 ==> r == d
    ensures count > 1 ==> r[0] == d[0] && r[1] == -d[1]
    ensures count == 1 && CentreTwice(ball) > 2 * first.right ==> r == [1, d[1]]
    ensures count == 1 && CentreTwice(ball) <= 2 * first.right && CentreTwice(ball) < 2 * first.left
            ==> r == [-1, d[1]]
    ensures count == 1 && 2 * first.left <= CentreTwice(ball) <= 2 * first.right
            ==> r == [d[0], -d[1]]
  {
    if count > 1 then d[1 := -d[1]]
    else if count == 1 then
      if CentreTwice(ball) > 2 * first.right then d[0 := 1]
      else if CentreTwice(ball) < 2 * first.left then d[0 := -1]
      else d[1 := -d[1]]
    else d
  }

  /** The paddle may move only if both edges stay inside `[0, width]`. */
  predicate MoveFits(p: Rect, offset: int, width: int)
  {
    p.left + offset >= 0 && p.right + offset <= width
  }

  /** Where `Paddle.move(offset)` leaves the paddle. */
  function PaddleMove(p: Rect, offset: int, width: int): (q: Rect)
    ensures q == p || q == Translate(p, offset, 0)
    ensures q.top == p.top && q.bottom == p.bottom
    ensures MoveFits(p, offset, width) ==> q == Translate(p, offset, 0)
    ensures !MoveFits(p, offset, width) ==> q == p
    ensures 0 <= p.left && p.right <= width ==> 0 <= q.left && q.right <= width
    ensures q.left - p.left == q.right - p.right
  {
    if MoveFits(p, offset, width) then Translate(p, offset, 0) else p
  }
}
