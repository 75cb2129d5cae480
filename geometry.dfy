/**
 * The Qt value types the navigation core touches, reduced to numbers:
 * integer widget rectangles and positions, real scene points and rectangles.
 */
module Geometry {
  /** A QSize: width and height of a decoded image in pixels. */
  datatype Size = Size(width: nat, height: nat)

  /** A decoded QPixmap; only its size matters to the core. */
  datatype Pixmap = Pixmap(size: Size)

  /** A QPoint: an integer position inside a widget (the `event.pos()` of a mouse event). */
  datatype Pos = Pos(x: int, y: int)

  /** A QPointF: a position in scene (image) coordinates. */
  datatype Point = Point(x: real, y: real)

  /** A QRect: the frame of a widget, as given to `setGeometry`. */
  datatype Rect = Rect(left: int, top: int, width: nat, height: nat)

  /** A QRectF: a rectangle in scene coordinates, such as the visible part of an image. */
  datatype RectF = RectF(x: real, y: real, width: real, height: real)

  /** True when the pixel (px, py) lies inside the frame r. */
  predicate Contains(r: Rect, px: int, py: int)
  {
    r.left <= px < r.left + r.width && r.top <= py < r.top + r.height
  }
}
