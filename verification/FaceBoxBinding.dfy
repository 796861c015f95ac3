/**
 * The face box of a portrait run. It is read before the lock is taken, so the promise that a box of an
 * earlier capture is never used for a newer one holds exactly when no capture is accepted in between.
 */
module FaceBoxBinding {
  import opened Wrappers
  import opened Digests
  import opened Integrity
  import opened Transaction
  import opened Protocol
  import opened ProtocolInvariant
  import opened ProtocolFrames
  import opened ProtocolTheorems
  import opened Scenarios

  lemma {:induction false} AcceptedCountsWrites(cfg: Config, s: System, actions: seq<Action>, s': System)
    requires Run(cfg, s, actions, s')
    ensures s.accepted <= s'.accepted
    ensures s'.accepted == s.accepted <==> WriteMeta !in actions
    decreases |actions|
  {
    if actions != [] {
      var next := Do(cfg, s, actions[0]);
      AcceptedGrows(cfg, s, actions[0]);
      AcceptedCountsWrites(cfg, next, actions[1..], s');
    }
  }

  predicate BoxStored(t: Tx) {
    t.capture.Some? && t.capture.value.faceBox.Some?
  }

  /**
   * A portrait request reads its box in state `s`, and later, in `s'`, claims a capture to process. The box is the
   * one stored with that capture exactly when one was stored and no capture was accepted in between; it is the box
   * of another capture exactly when one was stored and some capture was accepted. Otherwise it came with the request.
   */
  lemma BoxIsCurrentExactly(cfg: Config, s: System, op: nat, actions: seq<Action>, s': System, snapshot: Snapshot)
    requires Reachable(cfg, s) && Enabled(cfg, s, ReadBox(op)) && op in DoReadBox(s, op).ops
    requires Run(cfg, DoReadBox(s, op), actions, s')
    requires op in s'.ops && s'.ops[op] == DoReadBox(s, op).ops[op]
    requires ClaimPortrait(s'.tx, cfg, s'.now).1 == Process(snapshot)
    ensures s'.ops[op].boxFrom == Some(snapshot.key) <==> BoxStored(s.tx) && WriteMeta !in actions
    ensures s'.ops[op].boxFrom.Some? && s'.ops[op].boxFrom != Some(snapshot.key) <==> BoxStored(s.tx) && WriteMeta in actions
    ensures Some(s'.ops[op].faceBox) == if s'.ops[op].boxFrom.Some? then s.tx.capture.value.faceBox else s.ops[op].formBox
  {
    ReachableInv(cfg, s);
    ReadBoxKeeps(s, op);
    var start := DoReadBox(s, op);
    RunKeeps(cfg, start, actions, s');
    AcceptedCountsWrites(cfg, start, actions, s');
    CurrentIsLatest(start, s');
    BoxChoice(s, op);
    ProcessedIsCurrent(s'.tx, cfg, s'.now, snapshot);
  }

  lemma ProcessedIsCurrent(t: Tx, cfg: Config, now: real, snapshot: Snapshot)
    requires ClaimPortrait(t, cfg, now).1 == Process(snapshot)
    ensures t.capture.Some? && t.capture.value.key == snapshot.key
  {}

  /** The box stored with the capture comes first, then the one sent with the request; without either the request ends. */
  lemma BoxChoice(s: System, op: nat)
    requires op in s.ops && s.ops[op].PortraitAdmitted?
    ensures DoReadBox(s, op) == s.(ops :=
      if BoxStored(s.tx) then
        s.ops[op := PortraitBoxRead(s.tx.capture.value.faceBox.value, Some(s.tx.capture.value.key))]
      else if s.ops[op].formBox.Some? then s.ops[op := PortraitBoxRead(s.ops[op].formBox.value, None)]
      else s.ops - {op})
  {}

  /** The stored capture is the same one exactly when the list of captures did not grow. */
  lemma CurrentIsLatest(s: System, s': System)
    requires InvCaptures(s) && InvCaptures(s') && s.accepted <= s'.accepted && s'.tx.capture.Some?
    ensures s.tx.capture.Some? && s'.tx.capture.value.key == s.tx.capture.value.key <==> s'.accepted == s.accepted
  {
    if s.tx.capture.Some? && s'.accepted != s.accepted {
      var i := |s.accepted| - 1;
      assert s'.accepted[i] == s.accepted[i];
      assert i < |s'.accepted| - 1;
    }
  }

  /** A portrait request has read the box of one capture when the next is accepted. */
  lemma Overtaken(cfg: Config, w: real, idA: Bytes, imageA: Bytes, boxA: FaceBox, idB: Bytes, imageB: Bytes, boxB: FaceBox)
    returns (s: System)
    requires Patient(cfg, w) && cfg.attemptLimit >= 3 && idA != idB
    requires Uploadable(cfg, idA, imageA) && Uploadable(cfg, idB, imageB)
    ensures Live(cfg, w, s) && s.ops == map[7 := PortraitBoxRead(boxA, Some(Key(idA, Sha256Hex(imageA))))]
    ensures Unjudged(s) && s.tx.original == Some(imageB)
    ensures s.tx.capture == Some(Capture(Key(idB, Sha256Hex(imageB)), Some(boxB)))
    ensures s.tx.authorization.None? && s.tx.portraitClaims == map[] && s.sends == [] && s.tx.callback == NotSent
  {
    FreshIsLive(cfg, w);
    var first := CaptureNow(cfg, w, Fresh(), 1, idA, imageA, Some(boxA));
    var boxRead := BoxReadNow(cfg, w, first, 7);
    DifferentUploads(idA, idB);
    s := CaptureNow(cfg, w, boxRead, 2, idB, imageB, Some(boxB));
  }

  /** A run in which the second of two captures is processed with the box of the first. */
  lemma StaleBoxUsed(cfg: Config, w: real, idA: Bytes, imageA: Bytes, boxA: FaceBox, idB: Bytes, imageB: Bytes, boxB: FaceBox)
    returns (s: System)
    requires Patient(cfg, w) && cfg.attemptLimit >= 3 && idA != idB
    requires Uploadable(cfg, idA, imageA) && Uploadable(cfg, idB, imageB)
    ensures Reachable(cfg, s) && ReadyToProcess(cfg, w, s, idB, imageB)
    ensures s.tx.capture.value.faceBox == Some(boxB) && s.tx.original == Some(imageB)
    ensures s.ops[7].faceBox == boxA && s.ops[7].boxFrom == Some(Key(idA, Sha256Hex(imageA)))
  {
    var second := Overtaken(cfg, w, idA, imageA, boxA, idB, imageB, boxB);
    var passed := PassedNow(cfg, w, second, 3);
    s := PortraitClaimedNow(cfg, w, passed, 7);
    TimelyReachableIsReachable(cfg, w, s);
  }

  /** The only request in flight has claimed the current pass, and nothing has been sent. */
  ghost predicate ReadyToProcess(cfg: Config, w: real, s: System, attemptId: Bytes, image: Bytes) {
    && Live(cfg, w, s) && s.lock.None? && !Terminal(s.tx.status) && s.sends == [] && s.tx.callback == NotSent
    && CurrentKeyIs(s.tx, Key(attemptId, Sha256Hex(image))) && s.ops.Keys == {7}
    && s.ops[7].PortraitClaimed? && SnapshotMatchesCurrent(s.tx, s.ops[7].snapshot)
  }

  /** Posts do happen: that run goes on to deliver the portrait made with the older box, and it is acknowledged. */
  lemma StaleBoxDelivered(cfg: Config, idA: Bytes, imageA: Bytes, boxA: FaceBox, idB: Bytes, imageB: Bytes, boxB: FaceBox,
                          portrait: Bytes)
    returns (s: System)
    requires cfg.attemptLimit >= 3 && idA != idB
    requires Uploadable(cfg, idA, imageA) && Uploadable(cfg, idB, imageB) && JpegMagic(portrait)
    ensures Reachable(cfg, s) && |s.sends| == 1 && s.tx.status == COMPLETED && s.tx.callback.Acknowledged?
    ensures s.sends[0].portrait == portrait && s.sends[0].original == Some(imageB) && s.sends[0].key.attemptId == idB
  {
    var w := -Retries.WorstCase(cfg.providerTimeout, cfg.vlmMaxRetries);
    var claimed := StaleBoxUsed(cfg, w, idA, imageA, boxA, idB, imageB, boxB);
    var finished := FinishedNow(cfg, w, claimed, 7, portrait);
    NewPortraitAuthorized(claimed.tx.(candidates := claimed.tx.candidates[LivenessIdentity(claimed.ops[7].snapshot.key) := portrait]),
                          claimed.ops[7].snapshot);
    s := SentNow(cfg, w, finished);
    TimelyReachableIsReachable(cfg, w, s);
  }
}
