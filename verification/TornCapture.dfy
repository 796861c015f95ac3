/**
 * Workers that die inside a locked section: the provenance of what is sent survives every death but one, and that one
 * does break it.
 */
module TornCapture {
  import opened Wrappers
  import opened Digests
  import opened Integrity
  import opened Transaction
  import opened Protocol
  import opened ProtocolInvariant
  import opened ProtocolTheorems
  import opened Scenarios

  /** `s` can come about with deaths behind no other writes than these. */
  ghost predicate ReachableDying(cfg: Config, allowed: set<Death>, s: System) {
    Reachable(cfg, s) && s.died <= allowed
  }

  ghost predicate SendsProven(s: System) {
    forall send :: send in s.sends ==> Proven(s, send) && IsEligible(send)
  }

  predicate IsEligible(send: Send) {
    PersonState.IsPortraitEligible(send.assessment)
  }

  /** A capture that dies between its image and its metadata. */
  lemma TornNow(cfg: Config, w: real, s: System, op: nat, attemptId: Bytes, image: Bytes) returns (s': System)
    requires Live(cfg, w, s) && Uploads(cfg, s, attemptId, image) && op !in s.ops
    ensures Live(cfg, w, s')
    ensures s' == s.(tx := RegisterAttempt(s.tx, cfg, attemptId, None, true).0.(original := Some(image)),
                     died := s.died + {InCapture(ImageWritten)}, torn := true)
  {
    var begun := CaptureBegun(cfg, w, s, op, attemptId, image, None);
    var written := Then(cfg, w, begun, WriteImage);
    s' := Then(cfg, w, written, CaptureDies(REMOVED));
  }

  /** The image of a second capture stands beside the metadata and the pass of the first. */
  lemma Torn(cfg: Config, w: real, idA: Bytes, imageA: Bytes, idB: Bytes, imageB: Bytes, box: FaceBox) returns (s: System)
    requires Patient(cfg, w) && cfg.attemptLimit >= 3 && idA != idB
    requires Uploadable(cfg, idA, imageA) && Uploadable(cfg, idB, imageB)
    ensures Live(cfg, w, s) && s.ops == map[] && s.lock.None? && s.died == {InCapture(ImageWritten)} && s.sends == []
    ensures s.evaluated == {(imageA, LIVE_ALONE)}
    ensures s.tx.capture == Some(Capture(Key(idA, Sha256Hex(imageA)), Some(box))) && s.tx.original == Some(imageB)
    ensures HasCurrentCanonicalPass(s.tx) && s.tx.authorization.None? && s.tx.portraitClaims == map[]
    ensures !Terminal(s.tx.status) && s.tx.callback == NotSent
  {
    FreshIsLive(cfg, w);
    var first := CaptureNow(cfg, w, Fresh(), 1, idA, imageA, Some(box));
    var passed := PassedNow(cfg, w, first, 3);
    DifferentUploads(idA, idB);
    s := TornNow(cfg, w, passed, 2, idB, imageB);
  }

  /** The run goes on to deliver a portrait of bytes that nobody judged. */
  lemma TornDelivered(cfg: Config, idA: Bytes, imageA: Bytes, idB: Bytes, imageB: Bytes, box: FaceBox, portrait: Bytes)
    returns (s: System)
    requires cfg.attemptLimit >= 3 && idA != idB && imageA != imageB && JpegMagic(portrait)
    requires Uploadable(cfg, idA, imageA) && Uploadable(cfg, idB, imageB)
    ensures Reachable(cfg, s) && s.died == {InCapture(ImageWritten)} && |s.sends| == 1
    ensures s.sends[0].original == Some(imageB) && s.sends[0].key == Key(idA, Sha256Hex(imageA)) && !Proven(s, s.sends[0])
  {
    var w := -Retries.WorstCase(cfg.providerTimeout, cfg.vlmMaxRetries);
    var torn := Torn(cfg, w, idA, imageA, idB, imageB, box);
    var made := PortraitNow(cfg, w, torn, 7, portrait);
    ProcessedIsAuthorized(torn, portrait);
    s := SentNow(cfg, w, made);
    DifferentUploads(imageA, imageB);
    TimelyReachableIsReachable(cfg, w, s);
  }

  /**
   * With deaths behind the allowed writes, every post ever made has its provenance: exactly when no capture dies
   * between its image and its metadata.
   */
  lemma ProvenanceExactly(cfg: Config, allowed: set<Death>,
                          idA: Bytes, imageA: Bytes, idB: Bytes, imageB: Bytes, box: FaceBox, portrait: Bytes)
    requires cfg.attemptLimit >= 3 && idA != idB && imageA != imageB && JpegMagic(portrait)
    requires Uploadable(cfg, idA, imageA) && Uploadable(cfg, idB, imageB)
    ensures (forall s :: ReachableDying(cfg, allowed, s) ==> SendsProven(s)) <==> InCapture(ImageWritten) !in allowed
  {
    if InCapture(ImageWritten) in allowed {
      var s := TornDelivered(cfg, idA, imageA, idB, imageB, box, portrait);
      assert ReachableDying(cfg, allowed, s) && s.sends[0] in s.sends;
    } else {
      forall s | ReachableDying(cfg, allowed, s) ensures SendsProven(s) {
        ReachableInv(cfg, s);
      }
    }
  }
}
