/**
  Core Graphics values (`CGSize`, `CGRect`) over `real`, and images as the
  platform sees them. Pixel data is opaque: an image is either a photo of a
  given size, a crop of another image, or what a renderer produced from a
  canvas, a background fill and the images drawn into it with their frames.
*/
module Geometry {
  import opened Wrappers

  /** `CGSize`; the views also use it for drag translations and crop offsets. */
  datatype Size = Size(width: real, height: real)

  const Zero: Size := Size(0.0, 0.0)

  /** `CGRect`, by origin and size. */
  datatype Rect = Rect(x: real, y: real, width: real, height: real) {
    function MaxX(): real { x + width }
    function MaxY(): real { y + height }
    function MidX(): real { x + width / 2.0 }
    function MidY(): real { y + height / 2.0 }
  }

  function Min(a: real, b: real): real {
    if a <= b then a else b
  }

  function Max(a: real, b: real): real {
    if a >= b then a else b
  }

  function Abs(a: real): real {
    if a < 0.0 then -a else a
  }

  /** `width / height`, as the views compute it. */
  function AspectRatio(s: Size): real
    requires s.height != 0.0
  {
    s.width / s.height
  }

  /** The rectangle lies inside `[0, bounds.width] x [0, bounds.height]`. */
  predicate Within(r: Rect, bounds: Size) {
    0.0 <= r.x && r.MaxX() <= bounds.width && 0.0 <= r.y && r.MaxY() <= bounds.height
  }

  /** The rectangle covers the whole `side x side` canvas, so no background shows. */
  predicate CoversSquare(r: Rect, side: real) {
    r.x <= 0.0 && r.y <= 0.0 && side <= r.MaxX() && side <= r.MaxY()
  }

  /** A drawn rectangle covers a square canvas exactly when its centre is off
      the canvas centre by no more than its overhang, on each axis. */
  lemma CoverageByCentre(r: Rect, side: real)
    ensures CoversSquare(r, side) <==>
              Abs(r.MidX() - side / 2.0) <= (r.width - side) / 2.0 &&
              Abs(r.MidY() - side / 2.0) <= (r.height - side) / 2.0
  {
  }

  datatype Color = Black

  /** An image with opaque pixels; see the module comment. */
  datatype Image =
    | Photo(id: nat, size: Size)
    | Cropped(source: Image, rect: Rect)
    | Rendered(canvas: Size, background: Option<Color>, layers: seq<Layer>)

  /** One `image.draw(in: frame)` call of a renderer. */
  datatype Layer = Layer(image: Image, frame: Rect)

  /** `UIImage.size`, in points. */
  function SizeOf(img: Image): Size {
    match img
    case Photo(_, size) => size
    case Cropped(_, rect) => Size(rect.width, rect.height)
    case Rendered(canvas, _, _) => canvas
  }
}
