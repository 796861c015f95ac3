/** `app.portrait.integrity`: the structural gate over the face and head regions of a matte. */
module Integrity {
  import opened Wrappers
  import opened Numbers
  import opened Collections
  import opened Pixels
  import opened FloodFill

  /** A soft alpha matte: one value for every pixel of its frame. */
  datatype Matte = Matte(height: nat, width: nat, alpha: map<Pixel, real>) {
    ghost predicate Valid() {
      alpha.Keys == Frame(height, width)
    }

    ghost predicate InUnitRange() {
      forall p :: p in alpha ==> 0.0 <= alpha[p] <= 1.0
    }
  }

  /** Normalized face box (x, y, width, height). */
  datatype FaceBox = FaceBox(x: real, y: real, w: real, h: real)

  const FOREGROUND_THRESHOLD := 0.5
  const HEAD_EXPAND_X := 0.30
  const HEAD_EXPAND_TOP := 0.45
  const HEAD_EXPAND_BOTTOM := 0.20
  const MIN_FACE_RETENTION := 0.55
  const MIN_HEAD_RETENTION := 0.45
  const MIN_LEFT_RIGHT_BALANCE := 0.35
  const MIN_COMPONENT_FACE_OVERLAP := 0.55
  const MIN_GLOBAL_FOREGROUND := 0.02
  const MIN_FACE_BOX_DIM := 0.03
  const MAX_FACE_BOX_DIM := 1.0
  const FACE_BOX_EPSILON := 0.000000001
  const MAX_REFINEMENT_RETENTION_DROP := 0.15
  const MAX_REFINEMENT_BALANCE_DROP := 0.25

  /** The numeric checks of `_validated_face_box`: every box the portrait pipeline receives passes them. */
  predicate ValidFaceBox(b: FaceBox) {
    && b.x >= 0.0 && b.y >= 0.0 && b.w > 0.0 && b.h > 0.0
    && b.x + b.w <= 1.0 + FACE_BOX_EPSILON && b.y + b.h <= 1.0 + FACE_BOX_EPSILON
    && MIN_FACE_BOX_DIM <= b.w <= MAX_FACE_BOX_DIM
    && MIN_FACE_BOX_DIM <= b.h <= MAX_FACE_BOX_DIM
  }

  /** A normalized coordinate in pixels. */
  function Scaled(v: real, size: nat): real {
    v * size as real
  }

  function ClipRoi(x0: real, y0: real, x1: real, y1: real, width: nat, height: nat): Roi {
    var ix0 := Max(0, Min(width, Round(x0)));
    var iy0 := Max(0, Min(height, Round(y0)));
    Roi(ix0, iy0, Max(ix0, Min(width, Round(x1))), Max(iy0, Min(height, Round(y1))))
  }

  function FaceRoi(b: FaceBox, width: nat, height: nat): Roi {
    ClipRoi(Scaled(b.x, width), Scaled(b.y, height), Scaled(b.x + b.w, width), Scaled(b.y + b.h, height), width, height)
  }

  function HeadRoi(b: FaceBox, width: nat, height: nat): Roi {
    ClipRoi(Scaled(b.x - HEAD_EXPAND_X * b.w, width), Scaled(b.y - HEAD_EXPAND_TOP * b.h, height),
            Scaled(b.x + b.w + HEAD_EXPAND_X * b.w, width), Scaled(b.y + b.h + HEAD_EXPAND_BOTTOM * b.h, height),
            width, height)
  }

  ghost function Foreground(m: Matte): set<Pixel> {
    set p | p in m.alpha && m.alpha[p] >= FOREGROUND_THRESHOLD
  }

  function Ratio(count: nat, size: nat): real {
    if size == 0 then 0.0 else count as real / size as real
  }

  /** Share of the region's pixels that lie in `s`; 0 for an empty region. */
  ghost function Coverage(s: set<Pixel>, roi: Roi): real {
    Ratio(|s * Region(roi)|, |Region(roi)|)
  }

  lemma CoverageMonotone(a: set<Pixel>, b: set<Pixel>, roi: Roi)
    requires a * Region(roi) <= b
    ensures Coverage(a, roi) <= Coverage(b, roi)
  {
    CardinalityMonotone(a * Region(roi), b * Region(roi));
    RatioMonotone(|a * Region(roi)|, |b * Region(roi)|, |Region(roi)|);
  }

  lemma RatioMonotone(a: nat, b: nat, n: nat)
    requires a <= b
    ensures Ratio(a, n) <= Ratio(b, n)
  {}

  /** Two sets that each cover more than half of a region have a common pixel there. */
  lemma CoveragesMeet(a: set<Pixel>, b: set<Pixel>, roi: Roi) returns (meet: Pixel)
    requires Coverage(a, roi) > 0.5 && Coverage(b, roi) > 0.5
    ensures meet in a && meet in b && roi.Contains(meet)
  {
    var r := Region(roi);
    var inA, inB := a * r, b * r;
    if inA * inB == {} {
      assert |inA + inB| == |inA| + |inB|;
      CardinalityMonotone(inA + inB, r);
      HalvesExceed(|inA|, |inB|, |r|);
      assert false;
    }
    assert inA * inB != {};
    meet :| meet in inA * inB;
  }

  lemma HalvesExceed(a: nat, b: nat, n: nat)
    requires Ratio(a, n) > 0.5 && Ratio(b, n) > 0.5
    ensures a + b > n
  {
    assert (a as real / n as real) * n as real == a as real;
    assert (b as real / n as real) * n as real == b as real;
  }

  function Balance(left: real, right: real): real {
    var high := MaxReal(left, right);
    if high <= 0.0 then 0.0 else MinReal(left, right) / high
  }

  /** `p` comes first among the pixels of `s`, row by row. */
  ghost predicate FirstInRowMajorOrder(s: set<Pixel>, p: Pixel) {
    p in s && forall q :: q in s ==> p.y < q.y || (p.y == q.y && p.x <= q.x)
  }

  lemma {:induction false} FirstExists(s: set<Pixel>)
    requires s != {}
    ensures exists p :: FirstInRowMajorOrder(s, p)
    decreases |s|
  {
    var p :| p in s;
    if s == {p} {
      assert FirstInRowMajorOrder(s, p);
    } else {
      var rest := s - {p};
      assert rest != {};
      FirstExists(rest);
      var q :| FirstInRowMajorOrder(rest, q);
      var first := if p.y < q.y || (p.y == q.y && p.x <= q.x) then p else q;
      assert FirstInRowMajorOrder(s, first);
    }
  }

  /** Face-box centre when it is foreground, otherwise the first foreground pixel of the region. */
  ghost function PickSeed(foreground: set<Pixel>, roi: Roi): (seed: Option<Pixel>)
    ensures seed.Some? ==> seed.value in foreground && roi.Contains(seed.value)
    ensures seed.None? <==> foreground * Region(roi) == {}
  {
    var centre := roi.Centre();
    var region := foreground * Region(roi);
    if roi.Empty() then None
    else if centre in foreground then
      assert centre in region;
      Some(centre)
    else if region == {} then None
    else
      FirstExists(region);
      var p :| FirstInRowMajorOrder(region, p);
      Some(p)
  }

  /** The primary connected foreground component (empty when there is no seed). */
  ghost function PrimaryComponent(foreground: set<Pixel>, roi: Roi): (c: set<Pixel>)
    ensures c <= foreground
  {
    var seed := PickSeed(foreground, roi);
    if seed.None? then {} else Component(foreground, seed.value)
  }

  /** `component_face_overlap`: coverage of the face by the primary component. */
  ghost function ComponentFaceOverlap(m: Matte, b: FaceBox): real {
    var roi := FaceRoi(b, m.width, m.height);
    Coverage(PrimaryComponent(Foreground(m), roi), roi)
  }

  datatype IntegrityReason = EmptyMatte | FaceRetentionLow | FaceComponentFragmented | HeadRetentionLow | FaceAsymmetry

  datatype MatteIntegrity = MatteIntegrity(
    reason: Option<IntegrityReason>, hasFaceBox: bool, faceRetention: real, headRetention: real,
    leftRetention: real, rightRetention: real, balance: real, overlap: real, foregroundRatio: real)
  {
    predicate Ok() {
      reason.None?
    }
  }

  function LeftHalf(face: Roi): Roi {
    face.(x1 := (face.x0 + face.x1) / 2)
  }

  function RightHalf(face: Roi): Roi {
    face.(x0 := (face.x0 + face.x1) / 2)
  }

  /** What is measured around a face box, before it is judged. */
  ghost function Measured(m: Matte, b: FaceBox, foregroundRatio: real): (v: MatteIntegrity)
    ensures v.overlap <= v.faceRetention && v.overlap == ComponentFaceOverlap(m, b)
    ensures FaceRoi(b, m.width, m.height).Empty() ==> v.faceRetention == 0.0
    ensures v.leftRetention == Coverage(Foreground(m), LeftHalf(FaceRoi(b, m.width, m.height)))
    ensures v.rightRetention == Coverage(Foreground(m), RightHalf(FaceRoi(b, m.width, m.height)))
    ensures v.balance == Balance(v.leftRetention, v.rightRetention)
  {
    var foreground, face := Foreground(m), FaceRoi(b, m.width, m.height);
    var left, right := Coverage(foreground, LeftHalf(face)), Coverage(foreground, RightHalf(face));
    CoverageMonotone(PrimaryComponent(foreground, face), foreground, face);
    assert face.Empty() ==> Region(face) == {};
    MatteIntegrity(None, true, Coverage(foreground, face), Coverage(foreground, HeadRoi(b, m.width, m.height)),
                   left, right, Balance(left, right), ComponentFaceOverlap(m, b), foregroundRatio)
  }

  /** The first check that fails. */
  function FaceReason(v: MatteIntegrity): Option<IntegrityReason> {
    if v.faceRetention < MIN_FACE_RETENTION then Some(FaceRetentionLow)
    else if v.overlap < MIN_COMPONENT_FACE_OVERLAP then Some(FaceComponentFragmented)
    else if v.headRetention < MIN_HEAD_RETENTION then Some(HeadRetentionLow)
    else if v.balance < MIN_LEFT_RIGHT_BALANCE then Some(FaceAsymmetry)
    else None
  }

  function Judged(v: MatteIntegrity): (r: MatteIntegrity)
    ensures r == v.(reason := r.reason)
    ensures r.reason == Some(FaceRetentionLow) <==> v.faceRetention < MIN_FACE_RETENTION
    ensures r.Ok() <==>
      v.faceRetention >= MIN_FACE_RETENTION && v.overlap >= MIN_COMPONENT_FACE_OVERLAP &&
      v.headRetention >= MIN_HEAD_RETENTION && v.balance >= MIN_LEFT_RIGHT_BALANCE
  {
    v.(reason := FaceReason(v))
  }

  ghost function ForegroundRatio(m: Matte): real {
    var size := |Frame(m.height, m.width)|;
    |Foreground(m)| as real / (if size == 0 then 1 else size) as real
  }

  ghost function ValidatePortraitMatte(m: Matte, box: Option<FaceBox>): (v: MatteIntegrity)
    // The primary component is foreground, so it never covers more of the face than the foreground does.
    ensures v.overlap <= v.faceRetention
    ensures box.Some? ==> v.overlap == ComponentFaceOverlap(m, box.value)
    ensures box.Some? && v.Ok() ==> !FaceRoi(box.value, m.width, m.height).Empty()
    ensures box.Some? ==> (v.reason == Some(FaceRetentionLow) <==> v.faceRetention < MIN_FACE_RETENTION)
    ensures box.Some? ==> (v.Ok() <==>
      v.faceRetention >= MIN_FACE_RETENTION && v.overlap >= MIN_COMPONENT_FACE_OVERLAP &&
      v.headRetention >= MIN_HEAD_RETENTION && v.balance >= MIN_LEFT_RIGHT_BALANCE)
  {
    var ratio := ForegroundRatio(m);
    if box.None? then
      MatteIntegrity(if ratio >= MIN_GLOBAL_FOREGROUND then None else Some(EmptyMatte),
                     false, 0.0, 0.0, 0.0, 0.0, 0.0, 0.0, ratio)
    else
      Judged(Measured(m, box.value, ratio))
  }

  // ---------------------------------------------------------------- what the gate measures

  lemma ClippedRegion(x0: real, y0: real, x1: real, y1: real, width: nat, height: nat, p: Pixel)
    ensures p in Region(ClipRoi(x0, y0, x1, y1, width, height)) <==>
      InFrame(p, height, width) && Round(x0) <= p.x < Round(x1) && Round(y0) <= p.y < Round(y1)
  {}

  /** A pixel of the frame is in the face region when it lies between the rounded edges of the box. */
  lemma FaceRegion(b: FaceBox, width: nat, height: nat, p: Pixel)
    ensures p in Region(FaceRoi(b, width, height)) <==>
      && InFrame(p, height, width)
      && Round(Scaled(b.x, width)) <= p.x < Round(Scaled(b.x + b.w, width))
      && Round(Scaled(b.y, height)) <= p.y < Round(Scaled(b.y + b.h, height))
  {
    ClippedRegion(Scaled(b.x, width), Scaled(b.y, height), Scaled(b.x + b.w, width), Scaled(b.y + b.h, height), width, height, p);
  }

  /** The head region is that of a box 30% wider on either side, 45% higher above and 20% below. */
  lemma HeadRegion(b: FaceBox, width: nat, height: nat)
    ensures Region(HeadRoi(b, width, height)) ==
      Region(FaceRoi(FaceBox(b.x - 0.3 * b.w, b.y - 0.45 * b.h, 1.6 * b.w, 1.65 * b.h), width, height))
  {}

  lemma ScaledMonotone(a: real, b: real, n: nat)
    requires a <= b
    ensures Round(Scaled(a, n)) <= Round(Scaled(b, n))
  {
    assert (b - a) * n as real >= 0.0;
    assert Scaled(b, n) - Scaled(a, n) == (b - a) * n as real;
  }

  lemma HeadHoldsFace(b: FaceBox, width: nat, height: nat)
    requires b.w >= 0.0 && b.h >= 0.0
    ensures Region(FaceRoi(b, width, height)) <= Region(HeadRoi(b, width, height))
  {
    ScaledMonotone(b.x - HEAD_EXPAND_X * b.w, b.x, width);
    ScaledMonotone(b.x + b.w, b.x + b.w + HEAD_EXPAND_X * b.w, width);
    ScaledMonotone(b.y - HEAD_EXPAND_TOP * b.h, b.y, height);
    ScaledMonotone(b.y + b.h, b.y + b.h + HEAD_EXPAND_BOTTOM * b.h, height);
  }

  /** How many pixels of the region have an alpha of one half or more. */
  ghost function Opaque(m: Matte, roi: Roi): nat {
    |set p | p in Region(roi) && p in m.alpha && m.alpha[p] >= 0.5|
  }

  lemma CoverageIsShare(m: Matte, roi: Roi)
    ensures IsShare(Coverage(Foreground(m), roi), Opaque(m, roi), |Region(roi)|)
    ensures Coverage(Foreground(m), roi) >= 0.0
  {
    assert Foreground(m) * Region(roi) == set p | p in Region(roi) && p in m.alpha && m.alpha[p] >= 0.5;
    RatioIsShare(Opaque(m, roi), |Region(roi)|);
  }

  lemma RatioIsShare(part: nat, whole: nat)
    ensures IsShare(Ratio(part, whole), part, whole) && Ratio(part, whole) >= 0.0
  {}

  predicate IsShare(share: real, part: nat, whole: nat) {
    if whole == 0 then share == 0.0 else share * whole as real == part as real
  }

  /** Retentions are the shares of opaque pixels in their regions. */
  lemma RetentionsAreShares(m: Matte, b: FaceBox)
    ensures var v, face, head := ValidatePortraitMatte(m, Some(b)), FaceRoi(b, m.width, m.height), HeadRoi(b, m.width, m.height);
      && IsShare(v.faceRetention, Opaque(m, face), |Region(face)|) && IsShare(v.headRetention, Opaque(m, head), |Region(head)|)
  {
    CoverageIsShare(m, FaceRoi(b, m.width, m.height));
    CoverageIsShare(m, HeadRoi(b, m.width, m.height));
  }

  /** `left` and `right` are the halves of `face`; of an odd number of columns the right one has more. */
  predicate Halves(face: Roi, left: Roi, right: Roi) {
    && left.x0 == face.x0 && left.x1 == right.x0 && right.x1 == face.x1
    && left.y0 == face.y0 == right.y0 && left.y1 == face.y1 == right.y1
    && 0 <= (right.x1 - right.x0) - (left.x1 - left.x0) <= 1
  }

  /** The halves share no pixel, and between them have all of the region's. */
  lemma HalvesPartition(m: Matte, face: Roi, left: Roi, right: Roi)
    requires Halves(face, left, right) && face.x0 <= face.x1
    ensures Region(left) + Region(right) == Region(face) && Region(left) * Region(right) == {}
    ensures Opaque(m, left) + Opaque(m, right) == Opaque(m, face)
  {
    var inLeft := set p | p in Region(left) && p in m.alpha && m.alpha[p] >= 0.5;
    var inRight := set p | p in Region(right) && p in m.alpha && m.alpha[p] >= 0.5;
    assert inLeft + inRight == set p | p in Region(face) && p in m.alpha && m.alpha[p] >= 0.5;
    assert inLeft * inRight == {};
  }

  /** Neither side is empty, and the poorer one holds at least 35% of what the richer one does. */
  predicate Balanced(left: real, right: real) {
    left > 0.0 && right > 0.0 && left >= 0.35 * right && right >= 0.35 * left
  }

  lemma BalanceIsShare(left: real, right: real)
    requires left >= 0.0 && right >= 0.0
    ensures Balance(left, right) >= MIN_LEFT_RIGHT_BALANCE <==> Balanced(left, right)
  {
    var high, low := MaxReal(left, right), MinReal(left, right);
    if high > 0.0 {
      QuotientAtLeast(low, high);
    }
  }

  lemma QuotientAtLeast(low: real, high: real)
    requires high > 0.0
    ensures low / high >= MIN_LEFT_RIGHT_BALANCE <==> low >= 0.35 * high
  {
    assert (low / high) * high == low;
  }

  /** The verdict, reason by reason, for what the two halves hold. */
  predicate GateVerdict(v: MatteIntegrity, left: real, right: real) {
    && (v.reason == Some(FaceRetentionLow) <==> v.faceRetention < 0.55)
    && (v.reason == Some(FaceComponentFragmented) <==> v.faceRetention >= 0.55 && v.overlap < 0.55)
    && (v.reason == Some(HeadRetentionLow) <==> v.faceRetention >= 0.55 && v.overlap >= 0.55 && v.headRetention < 0.45)
    && (v.reason == Some(FaceAsymmetry) <==>
        v.faceRetention >= 0.55 && v.overlap >= 0.55 && v.headRetention >= 0.45 && !Balanced(left, right))
    && (v.Ok() <==> v.faceRetention >= 0.55 && v.overlap >= 0.55 && v.headRetention >= 0.45 && Balanced(left, right))
  }

  lemma ReasonIsVerdict(v: MatteIntegrity, left: real, right: real)
    requires v.balance < MIN_LEFT_RIGHT_BALANCE <==> !Balanced(left, right)
    ensures GateVerdict(v.(reason := FaceReason(v)), left, right)
  {}

  /**
   * The gate, reason by reason: the face region mostly opaque, mostly by one component, the head region too, and
   * neither half of the face far behind the other.
   */
  lemma GateTable(m: Matte, b: FaceBox) returns (left: Roi, right: Roi)
    ensures Halves(FaceRoi(b, m.width, m.height), left, right)
    ensures GateVerdict(ValidatePortraitMatte(m, Some(b)), Coverage(Foreground(m), left), Coverage(Foreground(m), right))
  {
    var ratio := ForegroundRatio(m);
    left, right := LeftHalf(FaceRoi(b, m.width, m.height)), RightHalf(FaceRoi(b, m.width, m.height));
    CoverageIsShare(m, left);
    CoverageIsShare(m, right);
    BalanceDecides(Measured(m, b, ratio).balance, Coverage(Foreground(m), left), Coverage(Foreground(m), right));
    ReasonIsVerdict(Measured(m, b, ratio), Coverage(Foreground(m), left), Coverage(Foreground(m), right));
  }

  lemma BalanceDecides(balance: real, left: real, right: real)
    requires balance == Balance(left, right) && left >= 0.0 && right >= 0.0
    ensures balance < MIN_LEFT_RIGHT_BALANCE <==> !Balanced(left, right)
  {
    BalanceIsShare(left, right);
  }

  /** Without a face box the gate asks for 2% of the frame. */
  lemma GateWithoutBox(m: Matte)
    requires m.Valid()
    ensures var v := ValidatePortraitMatte(m, None);
      && v == MatteIntegrity(v.reason, false, 0.0, 0.0, 0.0, 0.0, 0.0, 0.0, v.foregroundRatio)
      && v.reason in {None, Some(EmptyMatte)}
      && (v.Ok() <==> Frame(m.height, m.width) != {} &&
                      Opaque(m, Roi(0, 0, m.width, m.height)) as real >= 0.02 * |Frame(m.height, m.width)| as real)
  {
    GlobalShare(m);
    if Frame(m.height, m.width) != {} {
      ShareAtLeast(ForegroundRatio(m), Opaque(m, Roi(0, 0, m.width, m.height)), |Frame(m.height, m.width)|);
    }
  }

  lemma GlobalShare(m: Matte)
    requires m.Valid()
    ensures IsShare(ForegroundRatio(m), Opaque(m, Roi(0, 0, m.width, m.height)), |Frame(m.height, m.width)|)
  {
    assert Foreground(m) == set p | p in Region(Roi(0, 0, m.width, m.height)) && p in m.alpha && m.alpha[p] >= 0.5;
    if Frame(m.height, m.width) == {} {
      assert Foreground(m) == {};
    } else {
      RatioIsShare(|Foreground(m)|, |Frame(m.height, m.width)|);
    }
  }

  lemma ShareAtLeast(share: real, part: nat, whole: nat)
    requires IsShare(share, part, whole) && whole > 0
    ensures share >= 0.02 <==> part as real >= 0.02 * whole as real
  {
    assert (share - 0.02) * whole as real == part as real - 0.02 * whole as real;
  }

  // ---------------------------------------------------------------- raw against refined

  predicate RefinementIsAcceptable(raw: MatteIntegrity, refined: MatteIntegrity) {
    && refined.Ok()
    && refined.faceRetention >= raw.faceRetention - MAX_REFINEMENT_RETENTION_DROP
    && refined.balance >= raw.balance - MAX_REFINEMENT_BALANCE_DROP
  }
}
