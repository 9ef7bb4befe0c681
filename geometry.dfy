/** Canvas geometry shared by every game object. */
module Geometry {

  datatype Option<T> = None | Some(value: T)

  /** The coordinates `canvas.coords` reports for a shape: left, top, right, bottom.
      Every coordinate the game produces is integer-valued, so `int` is exact. */
  datatype Rect = Rect(left: int, top: int, right: int, bottom: int)

  /** `canvas.move(item, dx, dy)`: a rigid translation. */
  function Translate(r: Rect, dx: int, dy: int): (t: Rect)
    ensures t.right - t.left == r.right - r.left
    ensures t.bottom - t.top == r.bottom - r.top
  {
    Rect(r.left + dx, r.top + dy, r.right + dx, r.bottom + dy)
  }

  /** Twice the horizontal centre `(left + right) * 0.5`, so that comparisons stay integral. */
  function CentreTwice(r: Rect): int
  {
    r.left + r.right
  }
}
