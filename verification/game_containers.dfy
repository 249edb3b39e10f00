/**
 * Containers: static boxes open at the top, made of three wall rectangles.
 *
 * Nothing in the engine tests particles against these walls; the model keeps
 * only their construction and geometry.
 */
module GameContainers {

  /**
   * An axis-aligned rectangle `{x, y, width, height}`; `(x, y)` is its
   * top-left corner (y grows downward).
   */
  datatype Rect = Rect(x: real, y: real, width: real, height: real)

  datatype Container = Container(
    x: real,
    y: real,
    thickness: real,
    width: real,
    height: real,
    leftWall: Rect,
    rightWall: Rect,
    bottomWall: Rect,
    blocks: seq<Rect>)

  /** Every wall is 5 units thick. */
  const THICKNESS: real := 5.0

  function Right(r: Rect): real
  {
    r.x + r.width
  }

  function Bottom(r: Rect): real
  {
    r.y + r.height
  }

  predicate Within(inner: Rect, outer: Rect)
  {
    outer.x <= inner.x && Right(inner) <= Right(outer) &&
    outer.y <= inner.y && Bottom(inner) <= Bottom(outer)
  }

  /**
   * The `Container` constructor for the box with top-left corner `(x, y)`:
   * the left and right walls are full-height strips flush with the box's left
   * and right sides, the bottom wall a full-width strip flush with its bottom;
   * `blocks` lists them left, right, bottom. When the box is at least one
   * wall thick in each direction all three walls lie inside it.
   */
  function NewContainer(x: real, y: real, width: real, height: real): (c: Container)
    ensures c.x == x && c.y == y && c.width == width && c.height == height && c.thickness == THICKNESS
    ensures c.blocks == [c.leftWall, c.rightWall, c.bottomWall]
    ensures c.leftWall.x == x && c.leftWall.width == THICKNESS
    ensures Right(c.rightWall) == x + width && c.rightWall.width == THICKNESS
    ensures c.leftWall.y == y && c.rightWall.y == y
    ensures c.leftWall.height == height && c.rightWall.height == height
    ensures c.bottomWall.x == x && c.bottomWall.width == width
    ensures Bottom(c.bottomWall) == y + height && c.bottomWall.height == THICKNESS
    ensures width >= THICKNESS && height >= THICKNESS ==>
      forall b :: b in c.blocks ==> Within(b, Rect(x, y, width, height))
  {
    var thickness := THICKNESS;
    var leftWall := Rect(x, y, thickness, height);
    var rightWall := Rect(x + width - thickness, y, thickness, height);
    var bottomWall := Rect(x, y + height - thickness, width, thickness);
    Container(x, y, thickness, width, height, leftWall, rightWall, bottomWall,
              [leftWall, rightWall, bottomWall])
  }

  /**
   * In a box at least two walls wide the side walls do not overlap, and the
   * bottom wall spans both.
   */
  lemma SideWallsApart(x: real, y: real, width: real, height: real)
    requires width >= 2.0 * THICKNESS
    ensures var c := NewContainer(x, y, width, height);
            Right(c.leftWall) <= c.rightWall.x &&
            c.bottomWall.x == c.leftWall.x && Right(c.bottomWall) == Right(c.rightWall)
  {
  }

  /**
   * `makeContainer(x, y, width, height)`: builds a container, appends it to
   * the list and returns it.
   */
  function MakeContainer(containers: seq<Container>, x: real, y: real, width: real, height: real)
    : (r: (seq<Container>, Container))
    ensures |r.0| == |containers| + 1
    ensures r.0[..|containers|] == containers && r.0[|containers|] == r.1
    ensures r.1 == NewContainer(x, y, width, height)
  {
    var container := NewContainer(x, y, width, height);
    (containers + [container], container)
  }
}
