/** `app.portrait.matte.refine_matte` and the fail-closed choice `_resolve_matte` built on it. */
module MatteRefinement {
  import opened Wrappers
  import opened Numbers
  import opened Pixels
  import opened FloodFill
  import opened Integrity

  const SUPPORT_THRESHOLD := 0.35
  const REMOVE_HIGH_BACKGROUND_THRESHOLD := 0.6
  const BODY_REINFORCE_THRESHOLD := 0.35
  const BODY_REINFORCE_ALPHA := 0.95

  ghost function SupportMask(m: Matte): set<Pixel> {
    set p | p in m.alpha && m.alpha[p] > SUPPORT_THRESHOLD
  }

  function BoxCentre(box: FaceBox, height: nat, width: nat): Pixel {
    Pixel(Trunc(Scaled(box.y + box.h / 2.0, height)), Trunc(Scaled(box.x + box.w / 2.0, width)))
  }

  function BoxTop(box: FaceBox, height: nat): int {
    Trunc(Scaled(box.y, height))
  }

  /** The box centre; without a box, the centre of the mask's bounding box. */
  ghost function SeedPoint(mask: set<Pixel>, height: nat, width: nat, box: Option<FaceBox>): Option<Pixel> {
    if box.Some? then Some(BoxCentre(box.value, height, width))
    else if mask == {} then None
    else
      var b := Bounds(mask);
      Some(Pixel((b.y0 + b.y1 - 1) / 2, (b.x0 + b.x1 - 1) / 2))
  }

  ghost predicate CoversFace(support: set<Pixel>, height: nat, width: nat, box: FaceBox) {
    var roi := FaceRoi(box, width, height);
    roi.Empty() || Coverage(support, roi) >= MIN_COMPONENT_FACE_OVERLAP
  }

  /** The primary-person component when refinement may remove anything outside it. */
  ghost function TrustedSupport(m: Matte, box: Option<FaceBox>): (support: Option<set<Pixel>>)
    ensures support.Some? ==> support.value <= SupportMask(m)
  {
    var mask := SupportMask(m);
    var seed := SeedPoint(mask, m.height, m.width, box);
    if seed.None? || seed.value !in mask then None
    else
      var support := Component(mask, seed.value);
      if box.Some? && !CoversFace(support, m.height, m.width, box.value) then None else Some(support)
  }

  ghost function FaceTop(height: nat, box: Option<FaceBox>, support: set<Pixel>): int {
    if box.Some? then BoxTop(box.value, height)
    else if support == {} then 0 else Bounds(support).y0
  }

  /** New value of pixel `p` once `support` is trusted. */
  ghost function RefinedValue(a: real, p: Pixel, support: set<Pixel>, faceTop: int): real {
    var out := if a > REMOVE_HIGH_BACKGROUND_THRESHOLD && p !in support then 0.0 else a;
    if p.y >= faceTop && p in support && out >= BODY_REINFORCE_THRESHOLD
    then MaxReal(out, BODY_REINFORCE_ALPHA) else out
  }

  ghost function RefineMatte(m: Matte, box: Option<FaceBox>): (r: Matte)
    ensures r.height == m.height && r.width == m.width && r.alpha.Keys == m.alpha.Keys
    ensures m.InUnitRange() ==> r.InUnitRange()
  {
    var support := TrustedSupport(m, box);
    if support.None? then m
    else m.(alpha := map p | p in m.alpha :: RefinedValue(m.alpha[p], p, support.value, FaceTop(m.height, box, support.value)))
  }

  /** The pixels of an alpha above 0.35. */
  ghost function LikelyForeground(m: Matte): set<Pixel> {
    set p | p in m.alpha && m.alpha[p] > 0.35
  }

  /** Where the person is looked for: the centre of the face box, or that of the smallest box around the likely foreground. */
  ghost predicate IsAnchor(m: Matte, box: Option<FaceBox>, seed: Pixel) {
    match box
    case Some(b) =>
      && seed.y == Trunc(Scaled(b.y + b.h / 2.0, m.height)) && seed.x == Trunc(Scaled(b.x + b.w / 2.0, m.width))
    case None =>
      exists around :: IsBounds(LikelyForeground(m), around) &&
        2 * seed.y in {around.y0 + around.y1 - 1, around.y0 + around.y1 - 2} &&
        2 * seed.x in {around.x0 + around.x1 - 1, around.x0 + around.x1 - 2}
  }

  /** The component may be trusted: it holds at least 55% of the face region, if that can be told. */
  ghost predicate HoldsFace(m: Matte, box: Option<FaceBox>, person: set<Pixel>) {
    box.Some? ==>
      var face := FaceRoi(box.value, m.width, m.height);
      face.Empty() || Coverage(person, face) >= 0.55
  }

  lemma MaskIsLikely(m: Matte)
    ensures SupportMask(m) == LikelyForeground(m)
  {}

  /** Something is trusted exactly when the anchor is likely foreground and its component holds the face. */
  lemma TrustTable(m: Matte, box: Option<FaceBox>, seed: Pixel)
    requires IsAnchor(m, box, seed)
    ensures var person := Component(LikelyForeground(m), seed);
      TrustedSupport(m, box) ==
        if seed in LikelyForeground(m) && HoldsFace(m, box, person) then Some(person) else None
  {
    MaskIsLikely(m);
    AnchorIsSeed(m, box, seed);
  }

  lemma AnchorIsSeed(m: Matte, box: Option<FaceBox>, seed: Pixel)
    requires IsAnchor(m, box, seed)
    ensures SeedPoint(LikelyForeground(m), m.height, m.width, box) == Some(seed)
  {
    if box.None? {
      var around :| IsBounds(LikelyForeground(m), around) &&
        2 * seed.y in {around.y0 + around.y1 - 1, around.y0 + around.y1 - 2} &&
        2 * seed.x in {around.x0 + around.x1 - 1, around.x0 + around.x1 - 2};
      BoundsUnique(LikelyForeground(m), around, Bounds(LikelyForeground(m)));
    }
  }

  /** Without a box and without likely foreground there is no anchor, and nothing is trusted. */
  lemma NoAnchorNoTrust(m: Matte)
    requires LikelyForeground(m) == {}
    ensures TrustedSupport(m, None).None?
  {
    MaskIsLikely(m);
  }

  /** The row from which the body is reinforced: the top of the face box, or of the person. */
  ghost predicate IsFaceTop(m: Matte, box: Option<FaceBox>, person: set<Pixel>, top: int) {
    match box
    case Some(b) => top == Trunc(Scaled(b.y, m.height))
    case None => person != {} ==> (exists p :: p in person && p.y == top) && forall p :: p in person ==> top <= p.y
  }

  /**
   * What refinement does to every pixel. Beside a trusted person, confident foreground goes and the rest stays; from
   * the face downwards the person becomes solid, above it the soft edges stay; without trust nothing changes.
   */
  lemma RefinementTable(m: Matte, box: Option<FaceBox>, top: int)
    requires TrustedSupport(m, box).Some? ==> IsFaceTop(m, box, TrustedSupport(m, box).value, top)
    ensures TrustedSupport(m, box).None? ==> RefineMatte(m, box) == m
    ensures TrustedSupport(m, box).Some? ==>
      var person, r := TrustedSupport(m, box).value, RefineMatte(m, box);
      forall p :: p in m.alpha ==>
        && (p !in person ==> r.alpha[p] == if m.alpha[p] > 0.6 then 0.0 else m.alpha[p])
        && (p in person && p.y < top ==> r.alpha[p] == m.alpha[p])
        && (p in person && p.y >= top ==> r.alpha[p] == if m.alpha[p] > 0.95 then m.alpha[p] else 0.95)
  {
    if TrustedSupport(m, box).Some? {
      var person := TrustedSupport(m, box).value;
      TopIsFaceTop(m, box, person, top);
      forall p | p in m.alpha
        ensures RefineMatte(m, box).alpha[p] == RefinedValue(m.alpha[p], p, person, FaceTop(m.height, box, person))
      {
        RefinedAt(m, box, p);
      }
    }
  }

  lemma TopIsFaceTop(m: Matte, box: Option<FaceBox>, person: set<Pixel>, top: int)
    requires IsFaceTop(m, box, person, top)
    ensures box.Some? || person != {} ==> FaceTop(m.height, box, person) == top
  {
    if box.None? && person != {} {
      BoundsExist(person);
    }
  }

  /** A bystander is gone: whatever is still confident foreground is connected to the anchor of the person. */
  lemma OnlyThePersonRemains(m: Matte, box: Option<FaceBox>, seed: Pixel, p: Pixel)
    requires TrustedSupport(m, box).Some? && IsAnchor(m, box, seed)
    requires p in m.alpha && RefineMatte(m, box).alpha[p] > 0.6
    ensures p in Component(LikelyForeground(m), seed)
  {
    TrustTable(m, box, seed);
    RefinedAt(m, box, p);
  }

  lemma RefinedAt(m: Matte, box: Option<FaceBox>, p: Pixel)
    requires p in m.alpha && TrustedSupport(m, box).Some?
    ensures var support := TrustedSupport(m, box).value;
      RefineMatte(m, box).alpha[p] == RefinedValue(m.alpha[p], p, support, FaceTop(m.height, box, support))
  {}

  /** A matte with the refined value at every pixel is the refined matte. */
  lemma RefinedPixelwise(m: Matte, box: Option<FaceBox>, support: set<Pixel>, faceTop: int, r: Matte)
    requires TrustedSupport(m, box) == Some(support) && faceTop == FaceTop(m.height, box, support)
    requires r.height == m.height && r.width == m.width && r.alpha.Keys == m.alpha.Keys
    requires forall p :: p in m.alpha ==> r.alpha[p] == RefinedValue(m.alpha[p], p, support, faceTop)
    ensures r == RefineMatte(m, box)
  {
    forall p | p in m.alpha ensures r.alpha[p] == RefineMatte(m, box).alpha[p] {
      RefinedAt(m, box, p);
    }
  }

  lemma ProductNonNegative(a: real, b: real)
    requires a >= 0.0 && b >= 0.0
    ensures a * b >= 0.0
  {}

  lemma ScaledWithin(y: real, n: nat)
    requires 0.0 <= y <= 1.0
    ensures 0.0 <= Scaled(y, n) <= n as real
  {
    var k := n as real;
    ProductNonNegative(y, k);
    ProductNonNegative(1.0 - y, k);
    assert (1.0 - y) * k == k - y * k;
  }

  lemma RoiTop(box: FaceBox, height: nat, width: nat)
    ensures FaceRoi(box, width, height).y0 == Max(0, Min(height, Round(Scaled(box.y, height))))
  {}

  lemma TruncBelowClip(v: real, n: nat)
    requires 0.0 <= v <= n as real
    ensures Trunc(v) <= Max(0, Min(n, Round(v)))
  {}

  lemma BoxTopBelowClip(box: FaceBox, height: nat)
    requires 0.0 <= box.y <= 1.0
    ensures BoxTop(box, height) <= Max(0, Min(height, Round(Scaled(box.y, height))))
  {
    ScaledWithin(box.y, height);
    TruncBelowClip(Scaled(box.y, height), height);
  }

  /** The face region starts at or below the row from which the body is reinforced. */
  lemma FaceTopAboveRoi(box: FaceBox, height: nat, width: nat, support: set<Pixel>)
    requires 0.0 <= box.y <= 1.0
    ensures FaceTop(height, Some(box), support) <= FaceRoi(box, width, height).y0
  {
    RoiTop(box, height, width);
    BoxTopBelowClip(box, height);
  }

  /**
   * An accepted raw matte never loses primary foreground to refinement: the 0.5-component and the
   * 0.35-support each cover 55% of the face region, so they meet and the first lies in the second.
   */
  lemma PrimaryForegroundKept(m: Matte, box: FaceBox)
    requires ValidatePortraitMatte(m, Some(box)).Ok()
    ensures var primary := PrimaryComponent(Foreground(m), FaceRoi(box, m.width, m.height));
      && (TrustedSupport(m, Some(box)).Some? ==> primary <= TrustedSupport(m, Some(box)).value)
      && forall p :: p in primary ==> RefineMatte(m, Some(box)).alpha[p] >= m.alpha[p]
  {
    var roi := FaceRoi(box, m.width, m.height);
    var foreground := Foreground(m);
    var primary := PrimaryComponent(foreground, roi);
    if TrustedSupport(m, Some(box)).Some? {
      var support := TrustedSupport(m, Some(box)).value;
      var meet := CoveragesMeet(primary, support, roi);
      MeetingComponentIsInside(foreground, PickSeed(foreground, roi).value, SupportMask(m),
                               SeedPoint(SupportMask(m), m.height, m.width, Some(box)).value, meet);
    }
  }

  /** Destructive refinement leaves at least 55% of a non-empty face region as foreground. */
  lemma FaceRetentionAfterRefinement(m: Matte, box: FaceBox)
    requires m.Valid() && ValidFaceBox(box) && TrustedSupport(m, Some(box)).Some?
    requires !FaceRoi(box, m.width, m.height).Empty()
    ensures ValidatePortraitMatte(RefineMatte(m, Some(box)), Some(box)).faceRetention >= MIN_FACE_RETENTION
  {
    var roi := FaceRoi(box, m.width, m.height);
    var support := TrustedSupport(m, Some(box)).value;
    FaceTopAboveRoi(box, m.height, m.width, support);
    var refined := RefineMatte(m, Some(box));
    forall p | p in support * Region(roi) ensures p in Foreground(refined) {
      RefinedAt(m, Some(box), p);
    }
    CoverageMonotone(support, Foreground(refined), roi);
  }

  /** So refining an accepted matte is never rejected for lost face retention. */
  lemma RefinementNeverLosesFaceRetention(m: Matte, box: FaceBox)
    requires m.Valid() && ValidFaceBox(box) && ValidatePortraitMatte(m, Some(box)).Ok()
    ensures ValidatePortraitMatte(RefineMatte(m, Some(box)), Some(box)).reason != Some(FaceRetentionLow)
  {
    if TrustedSupport(m, Some(box)).Some? {
      FaceRetentionAfterRefinement(m, box);
    }
  }

  /** When the centre of the face region is raw foreground, component coverage of the face never falls. */
  lemma OverlapNeverFalls(m: Matte, box: FaceBox)
    requires ValidatePortraitMatte(m, Some(box)).Ok()
    requires FaceRoi(box, m.width, m.height).Centre() in Foreground(m)
    ensures ComponentFaceOverlap(RefineMatte(m, Some(box)), box) >= ComponentFaceOverlap(m, box)
  {
    PrimaryStaysForeground(m, box);
    GrownForegroundGrowsCoverage(Foreground(m), Foreground(RefineMatte(m, Some(box))), FaceRoi(box, m.width, m.height));
  }

  lemma PrimaryStaysForeground(m: Matte, box: FaceBox)
    requires ValidatePortraitMatte(m, Some(box)).Ok()
    ensures !FaceRoi(box, m.width, m.height).Empty()
    ensures PrimaryComponent(Foreground(m), FaceRoi(box, m.width, m.height)) <= Foreground(RefineMatte(m, Some(box)))
  {
    PrimaryForegroundKept(m, box);
  }

  lemma GrownForegroundGrowsCoverage(before: set<Pixel>, after: set<Pixel>, roi: Roi)
    requires roi.Centre() in before && !roi.Empty()
    requires PrimaryComponent(before, roi) <= after
    ensures Coverage(PrimaryComponent(before, roi), roi) <= Coverage(PrimaryComponent(after, roi), roi)
  {
    var primary, centre := PrimaryComponent(before, roi), roi.Centre();
    SeedInComponent(before, centre);
    assert primary == Component(before, centre);
    ComponentOfBetween(before, primary, centre);
    ComponentMonotone(primary, after, centre);
    CoverageMonotone(primary, PrimaryComponent(after, roi), roi);
  }

  /** After a destructive pass the mask holds the support and nothing that was not in the mask. */
  lemma SecondPassSupport(m: Matte, box: FaceBox)
    requires TrustedSupport(m, Some(box)).Some?
    ensures TrustedSupport(RefineMatte(m, Some(box)), Some(box)) == TrustedSupport(m, Some(box))
  {
    var refined := RefineMatte(m, Some(box));
    var support := TrustedSupport(m, Some(box)).value;
    forall p | p in m.alpha
      ensures p in support ==> p in SupportMask(refined)
      ensures p in SupportMask(refined) ==> p in SupportMask(m)
    {
      RefinedAt(m, Some(box), p);
    }
    var seed := SeedPoint(SupportMask(m), m.height, m.width, Some(box)).value;
    assert support <= SupportMask(refined) && SupportMask(refined) <= SupportMask(m);
    ComponentOfBetween(SupportMask(m), SupportMask(refined), seed);
    SeedInComponent(SupportMask(m), seed);
    assert SeedPoint(SupportMask(refined), m.height, m.width, Some(box)) == Some(seed);
    assert Component(SupportMask(refined), seed) == support;
  }

  /** `refine_matte` with a face box is idempotent: the second pass changes no pixel. */
  lemma RefineIdempotent(m: Matte, box: FaceBox)
    ensures RefineMatte(RefineMatte(m, Some(box)), Some(box)) == RefineMatte(m, Some(box))
  {
    if TrustedSupport(m, Some(box)).Some? {
      forall p | p in m.alpha
        ensures RefineMatte(RefineMatte(m, Some(box)), Some(box)).alpha[p] == RefineMatte(m, Some(box)).alpha[p]
      {
        SecondPassAt(m, box, p);
      }
      assert RefineMatte(RefineMatte(m, Some(box)), Some(box)).alpha == RefineMatte(m, Some(box)).alpha;
    }
  }

  lemma SecondPassAt(m: Matte, box: FaceBox, p: Pixel)
    requires p in m.alpha && TrustedSupport(m, Some(box)).Some?
    ensures RefineMatte(RefineMatte(m, Some(box)), Some(box)).alpha[p] == RefineMatte(m, Some(box)).alpha[p]
  {
    var refined := RefineMatte(m, Some(box));
    SecondPassSupport(m, box);
    RefinedAt(m, Some(box), p);
    RefinedAt(refined, Some(box), p);
  }

  /** Outcome of `_resolve_matte`: a matte to composite, or the retryable quality failure. */
  datatype Resolution = QualityFailed | Use(alpha: Matte)

  ghost function ResolveMatte(raw: Matte, imageHeight: nat, imageWidth: nat, box: Option<FaceBox>): Resolution {
    if raw.height != imageHeight || raw.width != imageWidth then Use(RefineMatte(raw, box))
    else
      var rawIntegrity := ValidatePortraitMatte(raw, box);
      if !rawIntegrity.Ok() then QualityFailed
      else
        var refined := RefineMatte(raw, box);
        Use(if RefinementIsAcceptable(rawIntegrity, ValidatePortraitMatte(refined, box)) then refined else raw)
  }

  /** Refinement did no damage: the result passes the gate and keeps face retention and balance close to raw. */
  ghost predicate Harmless(raw: Matte, box: Option<FaceBox>) {
    var before, after := ValidatePortraitMatte(raw, box), ValidatePortraitMatte(RefineMatte(raw, box), box);
    after.Ok() && after.faceRetention >= before.faceRetention - 0.15 && after.balance >= before.balance - 0.25
  }

  /** Which matte is used: none if the raw one fails, the refined one if that did no damage, and otherwise the raw one. */
  lemma ResolutionTable(raw: Matte, imageHeight: nat, imageWidth: nat, box: Option<FaceBox>)
    ensures ResolveMatte(raw, imageHeight, imageWidth, box) ==
      if raw.height != imageHeight || raw.width != imageWidth then Use(RefineMatte(raw, box))
      else if !ValidatePortraitMatte(raw, box).Ok() then QualityFailed
      else if Harmless(raw, box) then Use(RefineMatte(raw, box))
      else Use(raw)
  {}

  /** So a bystander is absent from every refinement that is used. */
  lemma BystanderIsAbsent(raw: Matte, imageHeight: nat, imageWidth: nat, box: Option<FaceBox>, seed: Pixel, p: Pixel)
    requires TrustedSupport(raw, box).Some? && IsAnchor(raw, box, seed)
    requires raw.height == imageHeight && raw.width == imageWidth && ValidatePortraitMatte(raw, box).Ok() && Harmless(raw, box)
    requires p in raw.alpha && p !in Component(LikelyForeground(raw), seed)
    ensures var result := ResolveMatte(raw, imageHeight, imageWidth, box);
      result.Use? && p in result.alpha.alpha && result.alpha.alpha[p] <= 0.6
  {
    ResolutionTable(raw, imageHeight, imageWidth, box);
    if RefineMatte(raw, box).alpha[p] > 0.6 {
      OnlyThePersonRemains(raw, box, seed, p);
    }
  }

  /**
   * Fail closed: when shapes agree, a matte is used exactly when the raw one passes the gate; the one
   * used passes it too, stays within the stated drops of raw and keeps the raw primary foreground.
   */
  lemma ResolveFailsClosed(raw: Matte, imageHeight: nat, imageWidth: nat, box: Option<FaceBox>)
    requires raw.Valid() && raw.height == imageHeight && raw.width == imageWidth
    ensures var rawIntegrity := ValidatePortraitMatte(raw, box);
      var result := ResolveMatte(raw, imageHeight, imageWidth, box);
      && (result.Use? <==> rawIntegrity.Ok())
      && (result.Use? ==>
        && var used := ValidatePortraitMatte(result.alpha, box);
        && used.Ok()
        && used.faceRetention >= rawIntegrity.faceRetention - MAX_REFINEMENT_RETENTION_DROP
        && used.balance >= rawIntegrity.balance - MAX_REFINEMENT_BALANCE_DROP
        && result.alpha.Valid() && result.alpha.height == imageHeight && result.alpha.width == imageWidth
        && (box.Some? ==>
          forall p :: p in PrimaryComponent(Foreground(raw), FaceRoi(box.value, raw.width, raw.height)) ==>
            result.alpha.alpha[p] >= raw.alpha[p]))
  {
    var rawIntegrity := ValidatePortraitMatte(raw, box);
    if rawIntegrity.Ok() {
      if box.Some? {
        PrimaryForegroundKept(raw, box.value);
      }
      var refined := RefineMatte(raw, box);
      if RefinementIsAcceptable(rawIntegrity, ValidatePortraitMatte(refined, box)) {
        assert ResolveMatte(raw, imageHeight, imageWidth, box) == Use(refined);
      } else {
        assert ResolveMatte(raw, imageHeight, imageWidth, box) == Use(raw);
      }
    }
  }
}
