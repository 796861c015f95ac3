/**
 * The gate and the refinement do accept something: a solid matte around a face that fills the frame, and one with a
 * bystander, which the refinement removes.
 */
module SolidMatte {
  import opened Wrappers
  import opened Pixels
  import opened FloodFill
  import opened Integrity
  import opened MatteRefinement

  const WHOLE_FRAME := FaceBox(0.0, 0.0, 1.0, 1.0)

  ghost function Solid(): Matte {
    Matte(2, 2, map p | p in Frame(2, 2) :: 1.0)
  }

  lemma Regions()
    ensures FaceRoi(WHOLE_FRAME, 2, 2) == Roi(0, 0, 2, 2) && HeadRoi(WHOLE_FRAME, 2, 2) == Roi(0, 0, 2, 2)
    ensures BoxCentre(WHOLE_FRAME, 2, 2) == Pixel(1, 1)
  {}

  /** A region of the frame is covered in full by the frame. */
  lemma FullCoverage(roi: Roi)
    requires 0 <= roi.x0 < roi.x1 <= 2 && 0 <= roi.y0 < roi.y1 <= 2
    ensures Coverage(Frame(2, 2), roi) == 1.0
  {
    assert Frame(2, 2) * Region(roi) == Region(roi);
    assert Pixel(roi.y0, roi.x0) in Region(roi);
  }

  lemma FrameIsConnected()
    ensures Component(Frame(2, 2), Pixel(1, 1)) == Frame(2, 2)
  {
    var mask, seed := Frame(2, 2), Pixel(1, 1);
    SeedInComponent(mask, seed);
    ComponentStep(mask, seed, seed, Pixel(0, 1));
    ComponentStep(mask, seed, seed, Pixel(1, 0));
    ComponentStep(mask, seed, Pixel(1, 0), Pixel(0, 0));
    forall p | p in mask ensures p in Component(mask, seed) {
      assert p in {Pixel(0, 0), Pixel(0, 1), Pixel(1, 0), Pixel(1, 1)};
    }
  }

  /** It passes the gate... */
  lemma SolidIsAccepted()
    ensures Solid().Valid() && ValidFaceBox(WHOLE_FRAME)
    ensures ValidatePortraitMatte(Solid(), Some(WHOLE_FRAME)).Ok()
    ensures FaceRoi(WHOLE_FRAME, 2, 2).Centre() in Foreground(Solid())
  {
    var m, face := Solid(), Roi(0, 0, 2, 2);
    Regions();
    assert Foreground(m) == Frame(2, 2);
    FullCoverage(face);
    FullCoverage(face.(x1 := 1));
    FullCoverage(face.(x0 := 1));
    SolidOverlap();
    assert Balance(1.0, 1.0) == 1.0;
  }

  lemma SolidOverlap()
    ensures ComponentFaceOverlap(Solid(), WHOLE_FRAME) == 1.0
  {
    var face := Roi(0, 0, 2, 2);
    Regions();
    assert Foreground(Solid()) == Frame(2, 2);
    FrameIsConnected();
    FullCoverage(face);
    assert PickSeed(Frame(2, 2), face) == Some(Pixel(1, 1));
  }

  /** ...and its refinement is a destructive one. */
  lemma SolidIsTrusted()
    ensures TrustedSupport(Solid(), Some(WHOLE_FRAME)) == Some(Frame(2, 2))
  {
    Regions();
    assert SupportMask(Solid()) == Frame(2, 2);
    FrameIsConnected();
    FullCoverage(Roi(0, 0, 2, 2));
    assert CoversFace(Frame(2, 2), 2, 2, WHOLE_FRAME);
  }

  // ---------------------------------------------------------------- a person and a bystander

  const LEFT_PART := FaceBox(0.0, 0.0, 0.4, 1.0)

  ghost function Person(): set<Pixel> {
    {Pixel(0, 0), Pixel(0, 1), Pixel(1, 0), Pixel(1, 1)}
  }

  ghost function Bystander(): set<Pixel> {
    {Pixel(0, 3), Pixel(0, 4), Pixel(1, 3), Pixel(1, 4)}
  }

  /** Two opaque columns, an empty one, and two more of alpha 0.9. */
  ghost function Crowd(): Matte {
    Matte(2, 5, map p | p in Frame(2, 5) :: if p.x <= 1 then 1.0 else if p.x == 2 then 0.0 else 0.9)
  }

  ghost function PersonAlone(): Matte {
    Matte(2, 5, map p | p in Frame(2, 5) :: if p.x <= 1 then 1.0 else 0.0)
  }

  lemma CrowdRegions()
    ensures FaceRoi(LEFT_PART, 5, 2) == Roi(0, 0, 2, 2) && HeadRoi(LEFT_PART, 5, 2) == Roi(0, 0, 3, 2)
    ensures BoxCentre(LEFT_PART, 2, 5) == Pixel(1, 1) && BoxTop(LEFT_PART, 2) == 0
    ensures Region(Roi(0, 0, 2, 2)) == Person()
  {
    assert forall p :: p in Region(Roi(0, 0, 2, 2)) <==> p in Person();
  }

  lemma CrowdMasks()
    ensures SupportMask(Crowd()) == Foreground(Crowd()) == Person() + Bystander()
    ensures Foreground(PersonAlone()) == Person()
  {
    assert forall p :: p in Frame(2, 5) && p.x <= 1 <==> p in Person();
    assert forall p :: p in Frame(2, 5) && p.x >= 3 <==> p in Bystander();
  }

  /** The person is one component, with or without the bystander. */
  lemma PersonIsConnected(mask: set<Pixel>)
    requires mask == Person() || mask == Person() + Bystander()
    ensures Component(mask, Pixel(1, 1)) == Person()
  {
    var seed := Pixel(1, 1);
    SeedInComponent(mask, seed);
    ComponentStep(mask, seed, seed, Pixel(0, 1));
    ComponentStep(mask, seed, seed, Pixel(1, 0));
    ComponentStep(mask, seed, Pixel(1, 0), Pixel(0, 0));
    ClosedSetHoldsComponent(mask, seed, Person());
  }

  /** What the gate measures on a matte whose foreground is the person, the bystander or not. */
  lemma PersonMeasures(m: Matte)
    requires m.height == 2 && m.width == 5 && Foreground(m) in {Person(), Person() + Bystander()}
    ensures var v := ValidatePortraitMatte(m, Some(LEFT_PART));
      v.faceRetention == 1.0 && v.overlap == 1.0 && v.headRetention >= MIN_HEAD_RETENTION && v.balance == 1.0
  {
    var face, head := Roi(0, 0, 2, 2), Roi(0, 0, 3, 2);
    CrowdRegions();
    PersonIsConnected(Foreground(m));
    assert PickSeed(Foreground(m), face) == Some(Pixel(1, 1));
    CoveredByPerson(Foreground(m), face);
    CoveredByPerson(Foreground(m), LeftHalf(face));
    CoveredByPerson(Foreground(m), RightHalf(face));
    CoveredByPerson(Person(), face);
    HeadCovered(Foreground(m));
    assert Balance(1.0, 1.0) == 1.0;
  }

  lemma CoveredByPerson(s: set<Pixel>, roi: Roi)
    requires Person() <= s && 0 <= roi.x0 < roi.x1 <= 2 && 0 <= roi.y0 < roi.y1 <= 2
    ensures Coverage(s, roi) == 1.0
  {
    CrowdRegions();
    assert forall p :: p in Region(roi) ==> p in Region(Roi(0, 0, 2, 2));
    assert s * Region(roi) == Region(roi);
    assert Pixel(roi.y0, roi.x0) in Region(roi);
  }

  lemma HeadCovered(s: set<Pixel>)
    requires s in {Person(), Person() + Bystander()}
    ensures Coverage(s, Roi(0, 0, 3, 2)) >= MIN_HEAD_RETENTION
  {
    var head := Roi(0, 0, 3, 2);
    RegionSize(head);
    assert |Region(head)| == 6;
    assert s * Region(head) == Person();
    assert |Person()| == 4;
  }

  lemma CrowdIsTrusted()
    ensures TrustedSupport(Crowd(), Some(LEFT_PART)) == Some(Person())
  {
    CrowdRegions();
    CrowdMasks();
    PersonIsConnected(Person() + Bystander());
    CoveredByPerson(Person(), Roi(0, 0, 2, 2));
    assert CoversFace(Person(), 2, 5, LEFT_PART);
  }

  /** Refinement removes the bystander, and only that. */
  lemma CrowdRefined()
    ensures PersonAlone() == RefineMatte(Crowd(), Some(LEFT_PART))
  {
    CrowdIsTrusted();
    CrowdRegions();
    forall p | p in Crowd().alpha ensures PersonAlone().alpha[p] == RefinedValue(Crowd().alpha[p], p, Person(), 0) {
      assert p.x <= 1 <==> p in Person();
    }
    RefinedPixelwise(Crowd(), Some(LEFT_PART), Person(), 0, PersonAlone());
  }

  lemma UsesRefined(raw: Matte, refined: Matte, box: FaceBox)
    requires refined == RefineMatte(raw, Some(box))
    requires ValidatePortraitMatte(raw, Some(box)).Ok()
    requires RefinementIsAcceptable(ValidatePortraitMatte(raw, Some(box)), ValidatePortraitMatte(refined, Some(box)))
    ensures ResolveMatte(raw, raw.height, raw.width, Some(box)) == Use(refined)
  {}

  lemma PersonIsUsed(raw: Matte, refined: Matte)
    requires raw.height == refined.height == 2 && raw.width == refined.width == 5 && refined == RefineMatte(raw, Some(LEFT_PART))
    requires Foreground(raw) in {Person(), Person() + Bystander()} && Foreground(refined) == Person()
    ensures ResolveMatte(raw, 2, 5, Some(LEFT_PART)) == Use(refined)
  {
    PersonMeasures(raw);
    PersonMeasures(refined);
    UsesRefined(raw, refined, LEFT_PART);
  }

  lemma CrowdIsMatte()
    ensures Crowd().Valid() && ValidFaceBox(LEFT_PART)
    ensures Crowd().alpha[Pixel(0, 3)] == 0.9 && PersonAlone().alpha[Pixel(0, 3)] == 0.0
  {}

  /** And that refinement is the one that is used. */
  lemma BystanderIsRemoved()
    ensures Crowd().Valid() && ValidFaceBox(LEFT_PART)
    ensures ResolveMatte(Crowd(), 2, 5, Some(LEFT_PART)) == Use(PersonAlone())
    ensures Crowd().alpha[Pixel(0, 3)] == 0.9 && PersonAlone().alpha[Pixel(0, 3)] == 0.0
  {
    CrowdMasks();
    CrowdRefined();
    CrowdIsMatte();
    PersonIsUsed(Crowd(), PersonAlone());
  }
}
