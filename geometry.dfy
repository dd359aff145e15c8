/**
  The pure geometry of the rotate widget: which quadrant a touch falls in relative to a
  reference point, how the raw touch angle is normalised, and the integer layout rules
  that size the image, the square wrapper and the hinge.

  Coordinates are screen coordinates: the origin is the top-left corner and Y grows
  downwards. View sizes are non-negative, so the integer divisions below agree with
  Java's truncating division.
 */
module RotateGeometry {

  datatype Point = Point(x: int, y: int)

  const QUADRANT_FIRST: int := 1
  const QUADRANT_SECOND: int := QUADRANT_FIRST + 1
  const QUADRANT_THIRD: int := QUADRANT_SECOND + 1
  const QUADRANT_FORTH: int := QUADRANT_THIRD + 1

  // ---------------------------------------------------------------------------
  // Quadrants
  // ---------------------------------------------------------------------------

  /** The region of the plane (offsets dx, dy from the reference point) that quadrant q covers:
      upper-right with both half-axes, upper-left, lower-left with the left half-axis,
      lower-right with the lower half-axis. */
  predicate InQuadrant(q: int, dx: int, dy: int)
  {
    (q == QUADRANT_FIRST && dx >= 0 && dy <= 0) ||
    (q == QUADRANT_SECOND && dx < 0 && dy < 0) ||
    (q == QUADRANT_THIRD && dx < 0 && dy >= 0) ||
    (q == QUADRANT_FORTH && dx >= 0 && dy > 0)
  }

  /** The quadrant of `position` as seen from `pivot`. */
  function QuadrantForPoint(position: Point, pivot: Point): (q: int)
    ensures QUADRANT_FIRST <= q <= QUADRANT_FORTH
    ensures InQuadrant(q, position.x - pivot.x, position.y - pivot.y)
  {
    var xDifference := position.x - pivot.x;
    var yDifference := position.y - pivot.y;
    if xDifference >= 0 && yDifference <= 0 then QUADRANT_FIRST
    else if xDifference < 0 && yDifference < 0 then QUADRANT_SECOND
    else if xDifference < 0 && yDifference >= 0 then QUADRANT_THIRD
    else QUADRANT_FORTH
  }

  /** The four regions partition the plane: every offset lies in exactly one of them. */
  lemma QuadrantsPartitionPlane(dx: int, dy: int)
    ensures exists q :: InQuadrant(q, dx, dy)
    ensures forall q1, q2 :: InQuadrant(q1, dx, dy) && InQuadrant(q2, dx, dy) ==> q1 == q2
  {
    var q := QuadrantForPoint(Point(dx, dy), Point(0, 0));
    assert InQuadrant(q, dx, dy);
  }

  /** The classifier picks the one quadrant whose region holds the touch. */
  lemma QuadrantIsUnique(position: Point, pivot: Point, q: int)
    requires InQuadrant(q, position.x - pivot.x, position.y - pivot.y)
    ensures q == QuadrantForPoint(position, pivot)
  {
    QuadrantsPartitionPlane(position.x - pivot.x, position.y - pivot.y);
  }

  /** How the axes and the reference point itself are classified. */
  lemma QuadrantOnAxes(position: Point, pivot: Point)
    ensures position == pivot ==> QuadrantForPoint(position, pivot) == QUADRANT_FIRST
    ensures position.x > pivot.x && position.y == pivot.y ==> QuadrantForPoint(position, pivot) == QUADRANT_FIRST
    ensures position.x == pivot.x && position.y < pivot.y ==> QuadrantForPoint(position, pivot) == QUADRANT_FIRST
    ensures position.x < pivot.x && position.y == pivot.y ==> QuadrantForPoint(position, pivot) == QUADRANT_THIRD
    ensures position.x == pivot.x && position.y > pivot.y ==> QuadrantForPoint(position, pivot) == QUADRANT_FORTH
  {
  }

  // ---------------------------------------------------------------------------
  // Angle normalisation
  // ---------------------------------------------------------------------------

  /** Portrait when the image is at least as tall as it is wide: a square image counts as
      portrait, and a landscape image is strictly wider than tall. */
  predicate IsImagePortrait(width: nat, height: nat)
    ensures IsImagePortrait(width, height) ==> height >= width
    ensures !IsImagePortrait(width, height) ==> width > height
  {
    height >= width
  }

  /**
    The rotation angle for a touch at `position` relative to `pivot`. `raw` stands for the
    degrees that atan2(dy, dx) gives for that offset; the trigonometry itself is not modelled.
    The quadrant offset is added to it, and a further quarter turn for a landscape image.
   */
  function GetAngle(raw: real, position: Point, pivot: Point, portrait: bool): (angle: real)
    ensures position.x < pivot.x && position.y < pivot.y ==>
      angle == raw + (if portrait then 450.0 else 540.0)
    ensures !(position.x < pivot.x && position.y < pivot.y) ==>
      angle == raw + (if portrait then 90.0 else 180.0)
  {
    var quadrant := QuadrantForPoint(position, pivot);
    var normalised :=
      if quadrant == QUADRANT_FIRST then 90.0 + raw
      else if quadrant == QUADRANT_SECOND then 270.0 + 180.0 + raw
      else if quadrant == QUADRANT_THIRD then 90.0 + raw
      else 90.0 + raw;
    if portrait then normalised else normalised + 90.0
  }

  /** The degrees atan2(dy, dx) returns for an offset, in the mathematical sense:
      which value or open interval the signs of dx and dy select. Floating-point
      rounding is not modelled. */
  ghost predicate Atan2Range(raw: real, dx: int, dy: int)
  {
    (dx == 0 && dy == 0 ==> raw == 0.0) &&
    (dx > 0 && dy == 0 ==> raw == 0.0) &&
    (dx < 0 && dy == 0 ==> raw == 180.0) &&
    (dx == 0 && dy > 0 ==> raw == 90.0) &&
    (dx == 0 && dy < 0 ==> raw == -90.0) &&
    (dx > 0 && dy > 0 ==> 0.0 < raw < 90.0) &&
    (dx < 0 && dy > 0 ==> 90.0 < raw < 180.0) &&
    (dx < 0 && dy < 0 ==> -180.0 < raw < -90.0) &&
    (dx > 0 && dy < 0 ==> -90.0 < raw < 0.0)
  }

  /**
    For a portrait image the normalised angle is the clockwise bearing of the touch measured
    from twelve o'clock: it lies in [0, 360), it is raw + 90 up to one full turn, and each
    quadrant lands in its own quarter (upper-right, then lower-right, lower-left, upper-left).
   */
  lemma PortraitAngleIsClockwiseBearing(raw: real, position: Point, pivot: Point)
    requires Atan2Range(raw, position.x - pivot.x, position.y - pivot.y)
    ensures 0.0 <= GetAngle(raw, position, pivot, true) < 360.0
    ensures GetAngle(raw, position, pivot, true) == raw + 90.0
         || GetAngle(raw, position, pivot, true) == raw + 90.0 + 360.0
    ensures QuadrantForPoint(position, pivot) == QUADRANT_FIRST ==>
      0.0 <= GetAngle(raw, position, pivot, true) <= 90.0
    ensures QuadrantForPoint(position, pivot) == QUADRANT_FORTH ==>
      90.0 < GetAngle(raw, position, pivot, true) <= 180.0
    ensures QuadrantForPoint(position, pivot) == QUADRANT_THIRD ==>
      180.0 < GetAngle(raw, position, pivot, true) <= 270.0
    ensures QuadrantForPoint(position, pivot) == QUADRANT_SECOND ==>
      270.0 < GetAngle(raw, position, pivot, true) < 360.0
  {
  }

  /** A landscape image is a quarter turn ahead of the portrait bearing, and the result is
      not wrapped: an upper-left touch gives more than 360 degrees. */
  lemma LandscapeAngleIsNotWrapped(raw: real, position: Point, pivot: Point)
    requires Atan2Range(raw, position.x - pivot.x, position.y - pivot.y)
    ensures GetAngle(raw, position, pivot, false) == GetAngle(raw, position, pivot, true) + 90.0
    ensures 90.0 <= GetAngle(raw, position, pivot, false) < 450.0
    ensures position.x < pivot.x && position.y < pivot.y ==>
      GetAngle(raw, position, pivot, false) > 360.0
  {
    PortraitAngleIsClockwiseBearing(raw, position, pivot);
  }

  // ---------------------------------------------------------------------------
  // Layout rules
  // ---------------------------------------------------------------------------

  /** The image's new height: half the smaller side of the parent (the width on a tie). */
  function ImageHeightFor(parentWidth: nat, parentHeight: nat): (height: nat)
    ensures 2 * height <= parentWidth && 2 * height <= parentHeight
    ensures parentWidth <= 2 * height + 1 || parentHeight <= 2 * height + 1
  {
    var smallerSide := if parentHeight >= parentWidth then parentWidth else parentHeight;
    smallerSide / 2
  }

  /** The side of the square wrapper: twice the image's long side (height if portrait,
      width if landscape), so the image can sweep a full turn inside it. */
  function WrapperSide(imageWidth: nat, imageHeight: nat): (side: nat)
    ensures side >= 2 * imageWidth && side >= 2 * imageHeight
    ensures side == 2 * imageWidth || side == 2 * imageHeight
  {
    var viewSide := if IsImagePortrait(imageWidth, imageHeight) then imageHeight else imageWidth;
    viewSide * 2
  }

  /** The centre of the wrapper, rounded down to whole pixels. */
  function CenterOf(wrapperWidth: nat, wrapperHeight: nat): (center: Point)
    ensures 0 <= wrapperWidth - 2 * center.x <= 1
    ensures 0 <= wrapperHeight - 2 * center.y <= 1
  {
    Point(wrapperWidth / 2, wrapperHeight / 2)
  }

  /** The hinge in the image's own coordinates: the middle of the bottom edge for a
      portrait image, the middle of the right edge (x = width) for a landscape one. */
  function PivotFor(imageWidth: nat, imageHeight: nat): (pivot: Point)
    ensures IsImagePortrait(imageWidth, imageHeight) ==>
      pivot.y == imageHeight && 0 <= imageWidth - 2 * pivot.x <= 1
    ensures !IsImagePortrait(imageWidth, imageHeight) ==>
      pivot.x == imageWidth && 0 <= imageHeight - 2 * pivot.y <= 1
  {
    if IsImagePortrait(imageWidth, imageHeight) then
      Point(imageWidth / 2, imageHeight)
    else
      Point(imageWidth, imageHeight / 2)
  }

  /** Where a landscape image's top edge is put inside the wrapper: its half-height mark
      sits on the wrapper's half-height mark, so an image no taller than the wrapper lies
      wholly inside it. */
  function LandscapeImageTop(wrapperHeight: nat, imageHeight: nat): (top: int)
    ensures top + imageHeight / 2 == wrapperHeight / 2
    ensures imageHeight <= wrapperHeight ==> 0 <= top && top + imageHeight <= wrapperHeight
  {
    wrapperHeight / 2 - imageHeight / 2
  }

  /** A square wrapper of side 2s has its centre at (s, s). */
  lemma CenterOfSquareWrapper(s: nat)
    ensures CenterOf(2 * s, 2 * s) == Point(s, s)
  {
  }

  /**
    Once the layout has settled (the wrapper is laid out at the square side it asked for and
    the image at its own size), the hinge lands on the wrapper's centre: exactly for a landscape
    image (placed at x = 0 and vertically centred), and on the centre's row for a portrait one
    (placed at y = 0; its horizontal placement is decided by the layout resource). That is why
    the touch handler may measure angles around the wrapper centre instead of the pivot.
   */
  lemma HingeMeetsCenterWhenSettled(imageWidth: nat, imageHeight: nat)
    ensures var side := WrapperSide(imageWidth, imageHeight);
            var center := CenterOf(side, side);
            var pivot := PivotFor(imageWidth, imageHeight);
            (!IsImagePortrait(imageWidth, imageHeight) ==>
               var imageX := 0;
               var imageY := LandscapeImageTop(side, imageHeight);
               Point(imageX + pivot.x, imageY + pivot.y) == center) &&
            (IsImagePortrait(imageWidth, imageHeight) ==>
               var imageY := 0;
               imageY + pivot.y == center.y)
  {
    if IsImagePortrait(imageWidth, imageHeight) {
      CenterOfSquareWrapper(imageHeight);
    } else {
      CenterOfSquareWrapper(imageWidth);
    }
  }
}
