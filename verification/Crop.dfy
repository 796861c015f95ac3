/** `app.portrait.crop`: the 3:4 passport crop, and the guard of the processor that follows it. */
module Crop {
  import opened Wrappers
  import opened Numbers
  import opened Pixels
  import opened FloodFill
  import opened Integrity
  import opened MatteArrays

  const PORTRAIT_ASPECT := 0.75
  const HEAD_HEIGHT_RATIO := 0.52
  const TOP_MARGIN_RATIO := 0.10
  const HAIR_PAD_RATIO := 0.02
  const SHOULDER_WIDTH_RATIO := 0.84
  const BOTTOM_MARGIN_RATIO := 0.04
  const ALPHA_THRESHOLD := 0.5

  /** Crop corners; its size is the difference of the corners. */
  datatype CropBox = CropBox(x0: int, y0: int, x1: int, y1: int) {
    function Width(): int { x1 - x0 }

    function Height(): int { y1 - y0 }
  }

  function HairPad(cropHeight: nat): (pixels: nat)
    ensures pixels >= 2 && pixels as real > 0.02 * cropHeight as real - 1.0
    ensures pixels == 2 || pixels as real <= 0.02 * cropHeight as real
  {
    Max(2, Trunc(HAIR_PAD_RATIO * cropHeight as real))
  }

  function BottomMargin(cropHeight: nat): (pixels: nat)
    ensures pixels >= 2 && pixels as real > 0.04 * cropHeight as real - 1.0
    ensures pixels == 2 || pixels as real <= 0.04 * cropHeight as real
  {
    Max(2, Trunc(BOTTOM_MARGIN_RATIO * cropHeight as real))
  }

  function MinSide(cropWidth: nat): (pixels: nat)
    ensures pixels >= 2 && pixels as real > 0.04 * cropWidth as real - 1.0
    ensures pixels == 2 || pixels as real <= 0.04 * cropWidth as real
  {
    Max(2, Trunc(0.04 * cropWidth as real))
  }

  predicate InsideSource(c: CropBox, width: nat, height: nat) {
    0 <= c.x0 < c.x1 <= width && 0 <= c.y0 < c.y1 <= height
  }

  lemma ThreeQuarters(h: nat)
    ensures 3 * h - 3 <= 4 * Trunc(h as real * PORTRAIT_ASPECT) <= 3 * h
  {}

  lemma FourThirds(w: nat)
    ensures -1 <= 4 * w - 3 * Round(w as real / PORTRAIT_ASPECT) <= 1
  {
    var h := Round(w as real / PORTRAIT_ASPECT);
    assert w as real / PORTRAIT_ASPECT == (4 * w) as real / 3.0;
  }

  /** The tight bounding box of the pixels whose alpha exceeds one half; none when there are none. */
  method ForegroundBbox(alpha: array2<real>) returns (bounds: Option<Roi>)
    ensures var fg := set p | p in MatteOf(alpha).alpha && MatteOf(alpha).alpha[p] > 0.5;
      (bounds.None? <==> fg == {}) && (bounds.Some? ==> IsBounds(fg, bounds.value))
  {
    var height, width := alpha.Length0, alpha.Length1;
    var mask := new bool[height, width](
      (y, x) requires 0 <= y < height && 0 <= x < width reads alpha => alpha[y, x] > ALPHA_THRESHOLD);
    bounds := MaskBounds(mask);
    assert TruePixels(mask) == set p | p in MatteOf(alpha).alpha && MatteOf(alpha).alpha[p] > ALPHA_THRESHOLD;
  }

  /** Scales the desired 3:4 frame down until neither side exceeds the source. */
  method FitToSource(desiredWidth: nat, desiredHeight: nat, width: nat, height: nat) returns (w: nat, h: nat)
    requires desiredHeight >= 16 && desiredWidth == Trunc(desiredHeight as real * PORTRAIT_ASPECT)
    requires width >= 1 && height >= 1
    ensures 1 <= w <= width && 1 <= h <= height
    ensures desiredWidth <= width && desiredHeight <= height ==> w == desiredWidth && h == desiredHeight
    ensures width >= 12 && height >= 16 ==> -3 <= 4 * w - 3 * h <= 3
    ensures h <= desiredHeight
    // No side falls below 12 unless the source does, and only that may disturb the shape.
    ensures w >= Min(Min(12, desiredWidth), width) && h >= Min(12, height)
    ensures (h > 12 ==> 3 * h <= 4 * w + 3) && (w > 12 ==> 4 * w <= 3 * h + 3)
    // A frame that had to shrink fills the source in one direction.
    ensures w < desiredWidth || h < desiredHeight ==> w == width || h == height
  {
    ThreeQuarters(desiredHeight);
    w, h := desiredWidth, desiredHeight;
    if w > width || h > height {
      var fitHeight := height;
      var fitWidth := Trunc(fitHeight as real * PORTRAIT_ASPECT);
      ThreeQuarters(height);
      if fitWidth > width {
        fitWidth := width;
        fitHeight := Round(fitWidth as real / PORTRAIT_ASPECT);
        FourThirds(width);
      }
      w := Max(12, Min(w, fitWidth));
      h := Max(12, Min(h, fitHeight));
    }
    w := Min(w, width);
    h := Min(h, height);
  }

  /** The desired frame gives the head at most 52% of its height and the foreground at most 84% of its width. */
  predicate Roomy(cropWidth: int, cropHeight: int, headExtent: int, fgWidth: int) {
    && headExtent as real <= 0.52 * (cropHeight + 2) as real
    && fgWidth as real <= 0.84 * (cropWidth + 3) as real
  }

  /** No more than these two ask for, up to rounding and the smallest frame. */
  predicate Snug(cropHeight: int, headExtent: int, fgWidth: int) {
    || cropHeight <= 16
    || 0.52 * (cropHeight - 1) as real <= Max(8, headExtent) as real
    || 0.84 * 0.75 * (cropHeight - 1) as real <= Max(1, fgWidth) as real
  }

  /** The 3:4 frame that head sizing and shoulder width ask for, before the source limits it. */
  method DesiredFrame(fg: Roi, headTop: int, headBottom: int) returns (w: nat, h: nat)
    ensures h >= 16 && w == Trunc(h as real * 0.75)
    ensures Roomy(w, h, headBottom - headTop, fg.x1 - fg.x0)
    ensures Snug(h, headBottom - headTop, fg.x1 - fg.x0)
  {
    var headExtent := Max(8, headBottom - headTop);
    var heightFromHead := headExtent as real / HEAD_HEIGHT_RATIO;
    var widthFromShoulders := Max(1, fg.x1 - fg.x0) as real / SHOULDER_WIDTH_RATIO;
    var widthNeeded := Max(Trunc(0.75 * heightFromHead), Trunc(widthFromShoulders));
    h := Max(16, Round(widthNeeded as real / PORTRAIT_ASPECT));
    w := Trunc(h as real * PORTRAIT_ASPECT);
  }

  /** Where the top goes before the bottom asks for room: a tenth of the frame above the head, and above the hair. */
  function TopAnchor(fg: Roi, headTop: int, cropHeight: nat): (top: int)
    ensures top >= 0
    ensures top > 0 ==> top as real < headTop as real - 0.1 * cropHeight as real + 1.0 && top + HairPad(cropHeight) <= fg.y0
    ensures top == 0 || top + HairPad(cropHeight) == fg.y0 || top as real >= headTop as real - 0.1 * cropHeight as real
  {
    Max(0, Min(headTop - Trunc(TOP_MARGIN_RATIO * cropHeight as real), fg.y0 - HairPad(cropHeight)))
  }

  /** Top-anchored placement, lowered only by the slack above the hair and only as far as the shoulders need. */
  method PlaceVertically(fg: Roi, headTop: int, cropHeight: nat, height: nat) returns (top: int, bottom: int)
    requires 1 <= cropHeight <= height && 0 <= fg.y0 < fg.y1
    ensures 0 <= top && bottom == top + cropHeight && bottom <= height
    ensures top <= Max(0, fg.y0 - HairPad(cropHeight))
    ensures bottom >= Min(height, fg.y1 + BottomMargin(cropHeight)) || top == Max(0, fg.y0 - HairPad(cropHeight))
    ensures top >= Min(TopAnchor(fg, headTop, cropHeight), height - cropHeight)
    ensures top > TopAnchor(fg, headTop, cropHeight) ==> bottom <= fg.y1 + BottomMargin(cropHeight)
  {
    var hairPad := HairPad(cropHeight);
    top := headTop - Trunc(TOP_MARGIN_RATIO * cropHeight as real);
    top := Min(top, fg.y0 - hairPad);
    top := Max(0, top);
    bottom := top + cropHeight;
    var neededBottom := fg.y1 + BottomMargin(cropHeight);
    if bottom < neededBottom {
      var maxShift := Max(0, (fg.y0 - hairPad) - top);
      var shift := Min(neededBottom - bottom, maxShift);
      top := top + shift;
      bottom := bottom + shift;
    }
    if bottom > height {
      bottom := height;
      top := Max(0, bottom - cropHeight);
    }
  }

  /** A left edge inside the source that keeps both side margins, when any can keep them. */
  predicate Placeable(x: int, fg: Roi, cropWidth: nat, width: nat) {
    var lo, hi := fg.x1 + MinSide(cropWidth) - cropWidth, fg.x0 - MinSide(cropWidth);
    0 <= x <= width - cropWidth && (lo <= hi ==> lo <= x <= hi)
  }

  function Distance(a: int, b: int): nat {
    if a <= b then b - a else a - b
  }

  /** The left edge that centres the frame mostly on the face. */
  function FaceCentred(fg: Roi, headCentreX: int, cropWidth: nat): (x0: int)
    ensures var centre := 0.7 * headCentreX as real + 0.3 * ((fg.x0 + fg.x1) / 2) as real;
      centre - 0.5 <= (x0 + cropWidth / 2) as real <= centre + 0.5
  {
    Round(0.7 * headCentreX as real + (1.0 - 0.7) * ((fg.x0 + fg.x1) / 2) as real) - cropWidth / 2
  }

  /** The placeable left edge closest to the face-centred one. */
  method PlaceHorizontally(fg: Roi, headCentreX: int, cropWidth: nat, width: nat) returns (x0: int, x1: int)
    requires 1 <= cropWidth <= width && 0 <= fg.x0 < fg.x1
    ensures 0 <= x0 && x1 == x0 + cropWidth && x1 <= width
    ensures fg.x1 + MinSide(cropWidth) - cropWidth <= fg.x0 - MinSide(cropWidth) ==>
      && x0 <= Max(0, fg.x0 - MinSide(cropWidth))
      && x1 >= Min(width, fg.x1 + MinSide(cropWidth))
    ensures forall x :: Placeable(x, fg, cropWidth, width) ==>
      && Placeable(x0, fg, cropWidth, width)
      && Distance(x0, FaceCentred(fg, headCentreX, cropWidth)) <= Distance(x, FaceCentred(fg, headCentreX, cropWidth))
  {
    var matteCentreX := (fg.x0 + fg.x1) / 2;
    var desiredCentreX := Round(0.7 * headCentreX as real + (1.0 - 0.7) * matteCentreX as real);
    var minSide := MinSide(cropWidth);
    var lo, hi := fg.x1 + minSide - cropWidth, fg.x0 - minSide;
    if lo <= hi {
      x0 := Max(lo, Min(hi, desiredCentreX - cropWidth / 2));
    } else {
      x0 := desiredCentreX - cropWidth / 2;
    }
    x0 := Max(0, x0);
    if x0 + cropWidth > width {
      x0 := width - cropWidth;
    }
    x1 := x0 + cropWidth;
  }

  /** Rows of the head and its centre column: from the face box, or guessed from the foreground. */
  datatype Head = Head(top: int, bottom: int, centreX: int)

  function HeadOf(fg: Roi, width: nat, height: nat, box: Option<FaceBox>): Head {
    if box.Some? then
      Head(Trunc(Scaled(box.value.y, height)), Trunc(Scaled(box.value.y + box.value.h, height)),
           Trunc(Scaled(box.value.x + box.value.w / 2.0, width)))
    else
      Head(fg.y0, fg.y0 + Trunc(Max(1, fg.y1 - fg.y0) as real * 0.42), (fg.x0 + fg.x1) / 2)
  }

  /** Whole pixels that end at or before the real coordinate. */
  predicate EndsAt(pixel: int, coordinate: real) {
    pixel as real <= coordinate < pixel as real + 1.0
  }

  /** With a face box the head is as high as the box and centred on it; without, it is the top 42% of the foreground. */
  lemma HeadLies(fg: Roi, width: nat, height: nat, box: FaceBox)
    requires fg.y0 < fg.y1 && box.x >= 0.0 && box.y >= 0.0 && box.w >= 0.0 && box.h >= 0.0
    ensures var head := HeadOf(fg, width, height, Some(box));
      && EndsAt(head.top, Scaled(box.y, height)) && EndsAt(head.bottom, Scaled(box.y + box.h, height))
      && EndsAt(head.centreX, Scaled(box.x + box.w / 2.0, width))
    ensures var head := HeadOf(fg, width, height, None);
      && head.top == fg.y0 && EndsAt(head.bottom - fg.y0, 0.42 * (fg.y1 - fg.y0) as real)
      && 2 * head.centreX in {fg.x0 + fg.x1, fg.x0 + fg.x1 - 1}
  {
    ScaledNotNegative(box.y, height);
    ScaledNotNegative(box.y + box.h, height);
    ScaledNotNegative(box.x + box.w / 2.0, width);
  }

  lemma ScaledNotNegative(v: real, n: nat)
    requires v >= 0.0
    ensures Scaled(v, n) >= 0.0
  {}

  method PlaceFrame(fg: Roi, head: Head, cropWidth: nat, cropHeight: nat, width: nat, height: nat) returns (c: CropBox)
    requires 1 <= cropWidth <= width && 1 <= cropHeight <= height
    requires 0 <= fg.x0 < fg.x1 && 0 <= fg.y0 < fg.y1
    ensures InsideSource(c, width, height) && c.Width() == cropWidth && c.Height() == cropHeight
    ensures c.y0 <= Max(0, fg.y0 - HairPad(cropHeight))
    ensures c.y1 >= Min(height, fg.y1 + BottomMargin(cropHeight)) || c.y0 == Max(0, fg.y0 - HairPad(cropHeight))
    ensures c.y0 >= Min(TopAnchor(fg, head.top, cropHeight), height - cropHeight)
    ensures c.y0 > TopAnchor(fg, head.top, cropHeight) ==> c.y1 <= fg.y1 + BottomMargin(cropHeight)
    ensures fg.x1 + MinSide(cropWidth) - cropWidth <= fg.x0 - MinSide(cropWidth) ==>
      && c.x0 <= Max(0, fg.x0 - MinSide(cropWidth))
      && c.x1 >= Min(width, fg.x1 + MinSide(cropWidth))
    ensures var want := FaceCentred(fg, head.centreX, cropWidth);
      forall x :: Placeable(x, fg, cropWidth, width) ==> Distance(c.x0, want) <= Distance(x, want)
  {
    var top, bottom := PlaceVertically(fg, head.top, cropHeight, height);
    var x0, x1 := PlaceHorizontally(fg, head.centreX, cropWidth, width);
    c := CropBox(x0, top, x1, bottom);
  }

  method PassportCrop(fg: Roi, width: nat, height: nat, box: Option<FaceBox>) returns (c: CropBox)
    requires width >= 1 && height >= 1
    requires 0 <= fg.x0 < fg.x1 && 0 <= fg.y0 < fg.y1
    ensures InsideSource(c, width, height)
    ensures width >= 12 && height >= 16 ==> -3 <= 4 * c.Width() - 3 * c.Height() <= 3
    // Head and shoulders have their share of the frame, unless the source limits it.
    ensures c.Width() == width || c.Height() == height ||
            Roomy(c.Width(), c.Height(), HeadOf(fg, width, height, box).bottom - HeadOf(fg, width, height, box).top, fg.x1 - fg.x0)
    // And no more than their share or the smallest frame; one that the source does not limit is 3:4 to the pixel.
    ensures Snug(c.Height(), HeadOf(fg, width, height, box).bottom - HeadOf(fg, width, height, box).top, fg.x1 - fg.x0)
    ensures c.Width() < width && c.Height() < height ==> c.Width() == Trunc(c.Height() as real * 0.75)
    // The top is the anchor above the head, unless the source ends or the shoulders ask for room.
    ensures c.y0 >= Min(TopAnchor(fg, HeadOf(fg, width, height, box).top, c.Height()), height - c.Height())
    ensures c.y0 > TopAnchor(fg, HeadOf(fg, width, height, box).top, c.Height()) ==> c.y1 <= fg.y1 + BottomMargin(c.Height())
    // Hair is never clipped: the top stays a pad above the highest foreground row.
    ensures c.y0 <= Max(0, fg.y0 - HairPad(c.Height()))
    // The shoulder line and its margin are inside unless the hair pad holds the frame up.
    ensures c.y1 >= Min(height, fg.y1 + BottomMargin(c.Height())) || c.y0 == Max(0, fg.y0 - HairPad(c.Height()))
    // When both side margins fit, each is kept up to the edge of the source.
    ensures fg.x1 + MinSide(c.Width()) - c.Width() <= fg.x0 - MinSide(c.Width()) ==>
      && c.x0 <= Max(0, fg.x0 - MinSide(c.Width()))
      && c.x1 >= Min(width, fg.x1 + MinSide(c.Width()))
      && (fg.x1 <= width ==> c.x0 <= fg.x0 && fg.x1 <= c.x1)
    // No placement that keeps as much is closer to the face.
    ensures var want := FaceCentred(fg, HeadOf(fg, width, height, box).centreX, c.Width());
      forall x :: Placeable(x, fg, c.Width(), width) ==> Distance(c.x0, want) <= Distance(x, want)
  {
    var head := HeadOf(fg, width, height, box);
    var desiredWidth, desiredHeight := DesiredFrame(fg, head.top, head.bottom);
    var cropWidth, cropHeight := FitToSource(desiredWidth, desiredHeight, width, height);
    c := PlaceFrame(fg, head, cropWidth, cropHeight, width, height);
  }

  /** Rows (or columns) of the numpy slice `a[lo:hi]` of an axis of length `n`. */
  function SliceLength(lo: nat, hi: nat, n: nat): nat {
    Max(0, Min(hi, n) - Min(lo, n))
  }

  /** The guard before compositing: the image crop and the alpha crop differ in shape. */
  predicate MismatchGuardFires(c: CropBox, alphaHeight: nat, alphaWidth: nat)
    requires 0 <= c.x0 <= c.x1 && 0 <= c.y0 <= c.y1
  {
    c.Height() != SliceLength(c.y0, c.y1, alphaHeight) || c.Width() != SliceLength(c.x0, c.x1, alphaWidth)
  }

  /**
   * The guard fires exactly when the crop reaches past the matte. So it cannot fire when shapes agree,
   * and a matte larger than its image is never noticed by it.
   */
  lemma MismatchGuardExact(c: CropBox, width: nat, height: nat, alphaHeight: nat, alphaWidth: nat)
    requires InsideSource(c, width, height)
    ensures MismatchGuardFires(c, alphaHeight, alphaWidth) <==> c.y1 > alphaHeight || c.x1 > alphaWidth
    ensures alphaHeight >= height && alphaWidth >= width ==> !MismatchGuardFires(c, alphaHeight, alphaWidth)
  {}
}
