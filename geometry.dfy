/**
 * Pure geometry of the whiteboard: image boxes, the pointer-down hit test,
 * the drag and resize formulas, the triangle apex and the upload fit.
 */
module Geometry {

  /** Tolerance around an image's bottom-right corner that grabs the resize handle. */
  const HandleTolerance: real := 15.0
  /** Lower bound a resize applies to the new width (and, without Shift, the height). */
  const MinImageSide: real := 20.0
  /** Largest side an uploaded image is scaled down to. */
  const MaxUploadSide: real := 300.0
  /** Where an uploaded image is placed. */
  const UploadX: real := 50.0
  const UploadY: real := 50.0

  /** Position and displayed size of an image on the canvas. */
  datatype Box = Box(x: real, y: real, width: real, height: real)

  function Abs(v: real): (r: real)
    ensures r >= 0.0 && (r == v || r == -v)
  {
    if v < 0.0 then -v else v
  }

  /** Math.max on two numbers. */
  function Max(a: real, b: real): (r: real)
    ensures r >= a && r >= b && (r == a || r == b)
  {
    if a < b then b else a
  }

  /** The point is strictly within the handle tolerance of the box's bottom-right corner. */
  predicate InResizeZone(b: Box, x: real, y: real)
  {
    Abs(x - (b.x + b.width)) < HandleTolerance && Abs(y - (b.y + b.height)) < HandleTolerance
  }

  /** The point lies in the closed bounding box. */
  predicate InBody(b: Box, x: real, y: real)
  {
    b.x <= x <= b.x + b.width && b.y <= y <= b.y + b.height
  }

  /** The point grabs the box in one way or the other. */
  predicate Grabs(b: Box, x: real, y: real)
  {
    InResizeZone(b, x, y) || InBody(b, x, y)
  }

  /** Outcome of a pointer-down: the index of the image whose handle or body was hit, or a miss. */
  datatype Hit = Resize(index: nat) | Drag(index: nat) | Miss

  /**
   * The pointer-down scan: images are visited from the last (topmost) to the
   * first; for each one the resize handle is tried before the body.
   */
  function HitTest(boxes: seq<Box>, x: real, y: real): (h: Hit)
    ensures !h.Miss? ==> h.index < |boxes|
    decreases |boxes|
  {
    if boxes == [] then Miss
    else
      var top := |boxes| - 1;
      if InResizeZone(boxes[top], x, y) then Resize(top)
      else if InBody(boxes[top], x, y) then Drag(top)
      else HitTest(boxes[..top], x, y)
  }

  /**
   * What the scan finds, stated without the scan: the hit image is grabbed in
   * the reported zone (the handle wins over the body of the same image), every
   * image above it is missed, and a miss means no image is grabbed at all.
   */
  lemma {:induction false} HitTestTopmost(boxes: seq<Box>, x: real, y: real)
    ensures HitTest(boxes, x, y).Resize? ==>
      var i := HitTest(boxes, x, y).index;
      i < |boxes| && InResizeZone(boxes[i], x, y) &&
      forall j :: i < j < |boxes| ==> !Grabs(boxes[j], x, y)
    ensures HitTest(boxes, x, y).Drag? ==>
      var i := HitTest(boxes, x, y).index;
      i < |boxes| && InBody(boxes[i], x, y) && !InResizeZone(boxes[i], x, y) &&
      forall j :: i < j < |boxes| ==> !Grabs(boxes[j], x, y)
    ensures HitTest(boxes, x, y).Miss? <==> forall j :: 0 <= j < |boxes| ==> !Grabs(boxes[j], x, y)
    decreases |boxes|
  {
    if boxes != [] {
      var top := |boxes| - 1;
      if !Grabs(boxes[top], x, y) {
        HitTestTopmost(boxes[..top], x, y);
        assert forall j :: 0 <= j < top ==> boxes[..top][j] == boxes[j];
      }
    }
  }

  /** A drag puts the image's top-left corner at the pointer minus the grab offset. */
  function Dragged(b: Box, x: real, y: real, offsetX: real, offsetY: real): (r: Box)
    ensures x - r.x == offsetX && y - r.y == offsetY
    ensures r.width == b.width && r.height == b.height
  {
    b.(x := x - offsetX, y := y - offsetY)
  }

  /**
   * A resize toward the pointer (x, y). The width is clamped below at 20;
   * without Shift so is the height; with Shift the height is derived from the
   * new width through the natural aspect ratio and is not clamped.
   */
  function Resized(b: Box, naturalWidth: real, naturalHeight: real, x: real, y: real, shift: bool): (r: Box)
    requires naturalWidth > 0.0 && naturalHeight > 0.0
    ensures r.x == b.x && r.y == b.y
    ensures r.width >= MinImageSide && r.width >= x - b.x
    ensures r.width == MinImageSide || r.width == x - b.x
    ensures !shift ==> r.height >= MinImageSide && r.height >= y - b.y
    ensures !shift ==> (r.height == MinImageSide || r.height == y - b.y)
    ensures shift ==> r.height * naturalWidth == r.width * naturalHeight
  {
    var newWidth := Max(MinImageSide, x - b.x);
    var newHeight := Max(MinImageSide, y - b.y);
    if shift then
      var ratio := naturalWidth / naturalHeight;
      AspectHeight(newWidth, naturalWidth, naturalHeight);
      b.(width := newWidth, height := newWidth / ratio)
    else
      b.(width := newWidth, height := newHeight)
  }

  /** Dividing a width by the ratio w / h gives the height of the same proportions. */
  lemma AspectHeight(width: real, w: real, h: real)
    requires w > 0.0 && h > 0.0
    ensures (width / (w / h)) * w == width * h
  {
  }

  /** With Shift held, a very wide image can be resized below the 20-unit height floor. */
  lemma ShiftResizeUnclamped()
    ensures Resized(Box(0.0, 0.0, 100.0, 10.0), 100.0, 10.0, 5.0, 5.0, true).height == 2.0
  {
  }

  /**
   * Third vertex of the triangle tool: (x1, y1) is the apex shared by two equal
   * sides, (x2, y2) one base corner and the returned point the other, mirrored
   * across the vertical line through x1.
   */
  function TriangleThird(x1: real, y1: real, x2: real, y2: real): (r: (real, real))
    ensures r.1 == y2
    ensures (r.0 + x2) / 2.0 == x1
    ensures (r.0 - x1) * (r.0 - x1) + (r.1 - y1) * (r.1 - y1)
         == (x2 - x1) * (x2 - x1) + (y2 - y1) * (y2 - y1)
  {
    (x1 * 2.0 - x2, y2)
  }

  /**
   * Size of a freshly uploaded image: kept when neither natural side exceeds
   * 300, otherwise scaled so that the larger side (the height on a tie) is
   * exactly 300 while the proportions stay those of the natural size.
   */
  ghost predicate UploadSize(naturalWidth: real, naturalHeight: real, width: real, height: real)
  {
    && (naturalWidth <= MaxUploadSide && naturalHeight <= MaxUploadSide ==>
          width == naturalWidth && height == naturalHeight)
    && (naturalWidth > MaxUploadSide || naturalHeight > MaxUploadSide ==>
          if naturalWidth > naturalHeight then width == MaxUploadSide
          else height == MaxUploadSide)
    && width * naturalHeight == height * naturalWidth
  }

  /** The upload size is determined by the natural size. */
  lemma UploadSizeUnique(naturalWidth: real, naturalHeight: real, w1: real, h1: real, w2: real, h2: real)
    requires naturalWidth > 0.0 && naturalHeight > 0.0
    requires UploadSize(naturalWidth, naturalHeight, w1, h1) && UploadSize(naturalWidth, naturalHeight, w2, h2)
    ensures w1 == w2 && h1 == h2
  {
  }

  /** The fitted size never exceeds 300 on either side and stays positive. */
  lemma UploadSizeBounded(naturalWidth: real, naturalHeight: real, width: real, height: real)
    requires naturalWidth > 0.0 && naturalHeight > 0.0
    requires UploadSize(naturalWidth, naturalHeight, width, height)
    ensures 0.0 < width <= MaxUploadSide && 0.0 < height <= MaxUploadSide
  {
  }

  /** The step-by-step sizing of an uploaded image. */
  method FitUpload(naturalWidth: real, naturalHeight: real) returns (width: real, height: real)
    requires naturalWidth > 0.0 && naturalHeight > 0.0
    ensures UploadSize(naturalWidth, naturalHeight, width, height)
  {
    width := naturalWidth;
    height := naturalHeight;
    if width > MaxUploadSide || height > MaxUploadSide {
      var ratio := width / height;
      assert ratio * naturalHeight == naturalWidth;
      if width > height {
        width := MaxUploadSide;
        height := MaxUploadSide / ratio;
        AspectHeight(MaxUploadSide, naturalWidth, naturalHeight);
      } else {
        height := MaxUploadSide;
        width := MaxUploadSide * ratio;
      }
    }
  }
}
