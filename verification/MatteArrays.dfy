/** The array form of matte refinement: numpy arrays rewritten in place, proved equal to `RefineMatte`. */
module MatteArrays {
  import opened Wrappers
  import opened Numbers
  import opened Pixels
  import opened FloodFill
  import opened Integrity
  import opened MatteRefinement

  ghost function MatteOf(a: array2<real>): (m: Matte)
    reads a
    ensures m.Valid()
  {
    Matte(a.Length0, a.Length1, map p | p in Frame(a.Length0, a.Length1) :: a[p.y, p.x])
  }

  /** Bounding box of the true pixels, as `np.any` and `np.argmax` along both axes compute it. */
  method MaskBounds(mask: array2<bool>) returns (bounds: Option<Roi>)
    ensures bounds.None? <==> TruePixels(mask) == {}
    ensures bounds.Some? ==> IsBounds(TruePixels(mask), bounds.value)
  {
    bounds := None;
    ghost var seen: set<Pixel> := {};
    for y := 0 to mask.Length0
      invariant forall p :: p in seen <==> p in TruePixels(mask) && p.y < y
      invariant bounds.None? <==> seen == {}
      invariant bounds.Some? ==> IsBounds(seen, bounds.value)
    {
      for x := 0 to mask.Length1
        invariant forall p :: p in seen <==> p in TruePixels(mask) && (p.y < y || (p.y == y && p.x < x))
        invariant bounds.None? <==> seen == {}
        invariant bounds.Some? ==> IsBounds(seen, bounds.value)
      {
        if mask[y, x] {
          var p := Pixel(y, x);
          if bounds.None? {
            bounds := Some(PixelRoi(p));
          } else {
            ExtendBounds(seen, bounds.value, p);
            bounds := Some(Extend(bounds.value, p));
          }
          seen := seen + {p};
        }
      }
    }
    assert seen == TruePixels(mask);
  }

  method SeedOf(mask: array2<bool>, box: Option<FaceBox>) returns (seed: Option<Pixel>)
    ensures seed == SeedPoint(TruePixels(mask), mask.Length0, mask.Length1, box)
  {
    if box.Some? {
      return Some(BoxCentre(box.value, mask.Length0, mask.Length1));
    }
    var b := MaskBounds(mask);
    if b.None? { return None; }
    BoundsUnique(TruePixels(mask), b.value, Bounds(TruePixels(mask)));
    return Some(Pixel((b.value.y0 + b.value.y1 - 1) / 2, (b.value.x0 + b.value.x1 - 1) / 2));
  }

  function SliceRatio(count: nat, roi: Roi): real
    requires roi.x0 <= roi.x1 && roi.y0 <= roi.y1
  {
    Ratio(count, SliceSize(roi))
  }

  lemma SliceRatioIsCoverage(s: set<Pixel>, roi: Roi)
    requires roi.x0 <= roi.x1 && roi.y0 <= roi.y1
    ensures SliceRatio(|s * Region(roi)|, roi) == Coverage(s, roi)
  {
    RegionSize(roi);
  }

  method CountRegion(a: array2<bool>, roi: Roi) returns (count: nat)
    requires 0 <= roi.x0 <= roi.x1 <= a.Length1 && 0 <= roi.y0 <= roi.y1 <= a.Length0
    ensures count == |TruePixels(a) * Region(roi)|
  {
    count := 0;
    ghost var region := TruePixels(a) * Region(roi);
    ghost var counted: set<Pixel> := {};
    for y := roi.y0 to roi.y1
      invariant forall p :: p in counted <==> p in region && p.y < y
      invariant count == |counted|
    {
      for x := roi.x0 to roi.x1
        invariant forall p :: p in counted <==> p in region && (p.y < y || (p.y == y && p.x < x))
        invariant count == |counted|
      {
        if a[y, x] {
          counted := counted + {Pixel(y, x)};
          count := count + 1;
        }
      }
    }
    assert counted == region;
  }

  /** `np.count_nonzero(region) / region.size`; 0 for an empty region. */
  method CoverageOf(a: array2<bool>, roi: Roi) returns (coverage: real)
    requires 0 <= roi.x0 <= roi.x1 <= a.Length1 && 0 <= roi.y0 <= roi.y1 <= a.Length0
    ensures coverage == Coverage(TruePixels(a), roi)
  {
    var count := CountRegion(a, roi);
    SliceRatioIsCoverage(TruePixels(a), roi);
    coverage := SliceRatio(count, roi);
  }

  /** The support array when refinement may remove anything outside it. */
  method TrustedSupportOf(alpha: array2<real>, box: Option<FaceBox>) returns (support: Option<array2<bool>>)
    ensures support.Some? <==> TrustedSupport(MatteOf(alpha), box).Some?
    ensures support.Some? ==>
      && fresh(support.value)
      && support.value.Length0 == alpha.Length0 && support.value.Length1 == alpha.Length1
      && TruePixels(support.value) == TrustedSupport(MatteOf(alpha), box).value
  {
    var height, width := alpha.Length0, alpha.Length1;
    var mask := new bool[height, width](
      (y, x) requires 0 <= y < height && 0 <= x < width reads alpha => alpha[y, x] > SUPPORT_THRESHOLD);
    assert TruePixels(mask) == SupportMask(MatteOf(alpha));
    var seed := SeedOf(mask, box);
    if seed.None? || !InFrame(seed.value, height, width) || !mask[seed.value.y, seed.value.x] {
      return None;
    }
    var component, _ := ConnectedComponentMask(mask, seed.value);
    if box.Some? {
      var roi := FaceRoi(box.value, width, height);
      if !roi.Empty() {
        var coverage := CoverageOf(component, roi);
        if coverage < MIN_COMPONENT_FACE_OVERLAP {
          return None;
        }
      }
    }
    return Some(component);
  }

  /** First row of the reinforced body zone. */
  method FaceTopOf(support: array2<bool>, box: Option<FaceBox>) returns (top: int)
    ensures top == FaceTop(support.Length0, box, TruePixels(support))
  {
    if box.Some? { return BoxTop(box.value, support.Length0); }
    var b := MaskBounds(support);
    if b.None? { return 0; }
    BoundsUnique(TruePixels(support), b.value, Bounds(TruePixels(support)));
    return b.value.y0;
  }

  /** Background removal, then body reinforcement inside the support. */
  method RewriteAlpha(alpha: array2<real>, support: array2<bool>, faceTop: int) returns (out: array2<real>)
    requires support.Length0 == alpha.Length0 && support.Length1 == alpha.Length1
    ensures fresh(out) && out.Length0 == alpha.Length0 && out.Length1 == alpha.Length1
    ensures forall p :: InFrame(p, alpha.Length0, alpha.Length1) ==>
      out[p.y, p.x] == RefinedValue(alpha[p.y, p.x], p, TruePixels(support), faceTop)
  {
    var height, width := alpha.Length0, alpha.Length1;
    out := new real[height, width]((y, x) requires 0 <= y < height && 0 <= x < width reads alpha, support =>
      if alpha[y, x] > REMOVE_HIGH_BACKGROUND_THRESHOLD && !support[y, x] then 0.0 else alpha[y, x]);
    forall y, x | 0 <= y < height && 0 <= x < width && y >= faceTop && support[y, x] && out[y, x] >= BODY_REINFORCE_THRESHOLD {
      out[y, x] := MaxReal(out[y, x], BODY_REINFORCE_ALPHA);
    }
  }

  method RefineMatteArray(alpha: array2<real>, box: Option<FaceBox>) returns (out: array2<real>)
    ensures out == alpha || fresh(out)
    ensures MatteOf(out) == RefineMatte(MatteOf(alpha), box)
  {
    var trusted := TrustedSupportOf(alpha, box);
    if trusted.None? { return alpha; }
    var faceTop := FaceTopOf(trusted.value, box);
    out := RewriteAlpha(alpha, trusted.value, faceTop);
    RefinedPixelwise(MatteOf(alpha), box, TruePixels(trusted.value), faceTop, MatteOf(out));
  }
}
