/** What one section grants, and for how long over the runs that follow. */
module RunLaws {
  import opened Wrappers
  import opened Digests
  import opened PersonState
  import opened Retries
  import opened Transaction
  import opened Protocol
  import opened ProtocolInvariant
  import opened ProtocolFrames
  import opened ProtocolTheorems
  import opened SingleFlight
  import opened Scenarios
  import opened FaceBoxBinding

  // ---------------------------------------------------------------- status

  function StatusAfter(current: Status, updates: seq<Status>): Status {
    if updates == [] then current else NextStatus(StatusAfter(current, updates[..|updates| - 1]), updates[|updates| - 1])
  }

  /** `result` is the last terminal entry, or the last one when none is terminal. */
  predicate LastWord(all: seq<Status>, result: Status, i: nat) {
    && i < |all| && all[i] == result
    && (forall j :: i < j < |all| ==> Terminal(result) && !Terminal(all[j]))
    && (!Terminal(result) ==> forall j :: 0 <= j < |all| ==> !Terminal(all[j]))
  }

  /** However many updates are tried in whatever order, the last terminal one has the last word. */
  lemma {:induction false} LastTerminalUpdateWins(current: Status, updates: seq<Status>) returns (i: nat)
    ensures LastWord([current] + updates, StatusAfter(current, updates), i)
  {
    if updates == [] {
      i := 0;
    } else {
      var rest, last := updates[..|updates| - 1], updates[|updates| - 1];
      i := LastTerminalUpdateWins(current, rest);
      assert [current] + updates == ([current] + rest) + [last];
      if Terminal(last) || !Terminal(StatusAfter(current, rest)) {
        i := |updates|;
      }
    }
  }

  // ---------------------------------------------------------------- attempts

  /** The attempt has uploaded, and not just now. */
  predicate UploadedBefore(s: System, attemptId: Bytes) {
    && Sha256Hex(attemptId) in s.tx.attempts.uploaded
    && (s.lock.Some? && !s.lock.value.stage.MetaWritten? ==> s.lock.value.key.attemptId != attemptId)
  }

  /** The locks a step can leave: the one there was at a later stage, none, or a new one for a first upload. */
  lemma LockFollows(cfg: Config, s: System, a: Action)
    requires Enabled(cfg, s, a) && Do(cfg, s, a).lock.Some?
    ensures if a.BeginCapture?
            then Sha256Hex(Do(cfg, s, a).lock.value.key.attemptId) !in s.tx.attempts.uploaded
            else s.lock.Some? && Do(cfg, s, a).lock.value.key == s.lock.value.key
                 && (!Do(cfg, s, a).lock.value.stage.MetaWritten? ==> !s.lock.value.stage.MetaWritten?)
  {
    if a.SubmitNow? {
      SubmitHasEffect(s, a.input);
    }
  }

  lemma UploadsGrow(cfg: Config, s: System, a: Action, hash: Bytes)
    requires Enabled(cfg, s, a) && hash in s.tx.attempts.uploaded
    ensures hash in Do(cfg, s, a).tx.attempts.uploaded
  {
    if !a.BeginCapture? && !a.RegisterOnly? {
      StepFramed(cfg, s, a);
    }
  }

  lemma StepUploadsOnce(cfg: Config, s: System, a: Action, attemptId: Bytes)
    requires Enabled(cfg, s, a) && UploadedBefore(s, attemptId)
    ensures UploadedBefore(Do(cfg, s, a), attemptId)
    ensures forall i :: |s.accepted| <= i < |Do(cfg, s, a).accepted| ==> Do(cfg, s, a).accepted[i].attemptId != attemptId
  {
    UploadsGrow(cfg, s, a, Sha256Hex(attemptId));
    AcceptedGrows(cfg, s, a);
    if Do(cfg, s, a).lock.Some? {
      LockFollows(cfg, s, a);
    }
  }

  /** An attempt that has uploaded never gets another capture accepted. */
  lemma {:induction false} UploadsOnce(cfg: Config, s: System, attemptId: Bytes, actions: seq<Action>, s': System)
    requires Run(cfg, s, actions, s') && UploadedBefore(s, attemptId)
    ensures s.accepted <= s'.accepted
    ensures forall i :: |s.accepted| <= i < |s'.accepted| ==> s'.accepted[i].attemptId != attemptId
    decreases |actions|
  {
    if actions != [] {
      var next := Do(cfg, s, actions[0]);
      StepUploadsOnce(cfg, s, actions[0], attemptId);
      AcceptedGrows(cfg, s, actions[0]);
      UploadsOnce(cfg, next, attemptId, actions[1..], s');
      assert forall i :: |s.accepted| <= i < |next.accepted| ==> s'.accepted[i] == next.accepted[i];
    }
  }

  /** A JPEG that decodes, uploaded under a name. */
  predicate GoodUpload(cfg: Config, attemptId: Bytes, data: Bytes) {
    attemptId != [] && [255, 216, 255] <= data && cfg.decodes(data)
  }

  /** Every upload on its way, in the lock or stored is a good one. */
  predicate InvImages(cfg: Config, s: System) {
    && (forall i :: i in s.ops && s.ops[i].CaptureAdmitted? ==> GoodUpload(cfg, s.ops[i].attemptId, s.ops[i].data))
    && (s.lock.Some? ==> GoodUpload(cfg, s.lock.value.key.attemptId, s.lock.value.data))
    && (s.tx.original.Some? ==> [255, 216, 255] <= s.tx.original.value && cfg.decodes(s.tx.original.value))
    && (forall k :: k in s.accepted ==> k.attemptId != [])
  }

  lemma StepKeepsUploads(cfg: Config, s: System, a: Action, i: nat)
    requires InvImages(cfg, s) && Enabled(cfg, s, a)
    requires i in Do(cfg, s, a).ops && Do(cfg, s, a).ops[i].CaptureAdmitted?
    ensures GoodUpload(cfg, Do(cfg, s, a).ops[i].attemptId, Do(cfg, s, a).ops[i].data)
  {
    if OpOf(a) != Some(i) {
      OnlyItsOp(cfg, s, a, i);
    }
  }

  lemma StepKeepsImages(cfg: Config, s: System, a: Action)
    requires InvImages(cfg, s) && Enabled(cfg, s, a)
    ensures InvImages(cfg, Do(cfg, s, a))
  {
    var s' := Do(cfg, s, a);
    forall i | i in s'.ops && s'.ops[i].CaptureAdmitted? ensures GoodUpload(cfg, s'.ops[i].attemptId, s'.ops[i].data) {
      StepKeepsUploads(cfg, s, a, i);
    }
    AcceptedGrows(cfg, s, a);
    if !a.WriteImage? {
      StepFramed(cfg, s, a);
    }
    StepKeepsLock(cfg, s, a);
  }

  lemma StepKeepsLock(cfg: Config, s: System, a: Action)
    requires InvImages(cfg, s) && Enabled(cfg, s, a)
    ensures Do(cfg, s, a).lock.Some? ==>
      GoodUpload(cfg, Do(cfg, s, a).lock.value.key.attemptId, Do(cfg, s, a).lock.value.data)
  {
    if a.SubmitNow? {
      SubmitHasEffect(s, a.input);
    }
  }

  /** In every reachable state the stored image is a JPEG that decodes, and every capture has a named attempt. */
  lemma StoredImagesAreValid(cfg: Config, s: System)
    requires Reachable(cfg, s)
    ensures s.tx.original.Some? ==> [255, 216, 255] <= s.tx.original.value && cfg.decodes(s.tx.original.value)
    ensures forall k :: k in s.accepted ==> k.attemptId != []
  {
    var s0, actions :| Initial(s0) && Run(cfg, s0, actions, s);
    RunKeepsImages(cfg, s0, actions, s);
  }

  lemma {:induction false} RunKeepsImages(cfg: Config, s: System, actions: seq<Action>, s': System)
    requires InvImages(cfg, s) && Run(cfg, s, actions, s')
    ensures InvImages(cfg, s')
    decreases |actions|
  {
    if actions != [] {
      StepKeepsImages(cfg, s, actions[0]);
      RunKeepsImages(cfg, Do(cfg, s, actions[0]), actions[1..], s');
    }
  }

  // ---------------------------------------------------------------- claims

  /** The step gives back the evaluation claim of `id`. */
  predicate FreesEvaluation(s: System, a: Action, id: Bytes) {
    && (a.PromoteLiveness? || a.RecordUnusable? || a.SectionDies?) && a.op in s.ops && Evaluating(s.ops[a.op])
    && LivenessIdentity(s.ops[a.op].key) == id
  }

  /** The step gives back the portrait claim of `id`. */
  predicate FreesPortrait(s: System, a: Action, id: Bytes) {
    && (a.PromoteCandidate? || a.RecordPortraitFailure? || a.SectionDies?) && a.op in s.ops && OpSnapshot(s.ops[a.op]).Some?
    && LivenessIdentity(OpSnapshot(s.ops[a.op]).value.key) == id
  }

  /** A run in which no request for `id` finishes. */
  ghost predicate UnfreedRun(cfg: Config, s: System, id: Bytes, actions: seq<Action>, s': System)
    decreases |actions|
  {
    if actions == [] then s' == s
    else Enabled(cfg, s, actions[0]) && !FreesEvaluation(s, actions[0], id) && !FreesPortrait(s, actions[0], id)
         && UnfreedRun(cfg, Do(cfg, s, actions[0]), id, actions[1..], s')
  }

  predicate HeldSince(claims: map<Bytes, real>, id: Bytes, since: real) {
    id in claims && claims[id] == since
  }

  predicate InTime(cfg: Config, since: real, now: real) {
    now - since <= ClaimLifetime(cfg.vlmTimeout, cfg.vlmMaxRetries)
  }

  lemma {:induction false} RunTime(cfg: Config, s: System, id: Bytes, actions: seq<Action>, s': System)
    requires UnfreedRun(cfg, s, id, actions, s')
    ensures s.now <= s'.now
    decreases |actions|
  {
    if actions != [] {
      RunTime(cfg, Do(cfg, s, actions[0]), id, actions[1..], s');
    }
  }

  /** Sections leave the claims of other captures alone, and refuse a claim that is held. */
  lemma SectionsHoldEvaluation(cfg: Config, s: System, op: nat, id: Bytes, since: real)
    requires HeldSince(s.tx.evaluationClaims, id, since) && InTime(cfg, since, s.now) && op in s.ops
    ensures s.ops[op].LivenessKeyRead? ==> HeldSince(DoClaimLiveness(cfg, s, op).tx.evaluationClaims, id, since)
    ensures s.ops[op].LivenessEvaluated? && LivenessIdentity(s.ops[op].key) != id ==>
      HeldSince(DoPromoteLiveness(s, op).tx.evaluationClaims, id, since)
    ensures s.ops[op].LivenessUnusable? && LivenessIdentity(s.ops[op].key) != id ==>
      HeldSince(DoRecordUnusable(s, op).tx.evaluationClaims, id, since)
  {}

  lemma DeathsHoldEvaluation(cfg: Config, s: System, op: nat, at: Death, id: Bytes, since: real)
    requires HeldSince(s.tx.evaluationClaims, id, since) && InTime(cfg, since, s.now) && op in s.ops && DiesAt(s.ops[op], at)
    requires Evaluating(s.ops[op]) ==> LivenessIdentity(s.ops[op].key) != id
    ensures HeldSince(DoSectionDies(cfg, s, op, at).tx.evaluationClaims, id, since)
  {
    if Evaluating(s.ops[op]) {
      DeathFrees(cfg, s, op, at);
    } else if !s.ops[op].LivenessKeyRead? {
      OtherDeathsLeaveClaims(cfg, s, op, at);
    }
  }

  lemma StepHoldsEvaluation(cfg: Config, s: System, a: Action, id: Bytes, since: real)
    requires Enabled(cfg, s, a) && !FreesEvaluation(s, a, id) && InTime(cfg, since, s.now)
    requires HeldSince(s.tx.evaluationClaims, id, since)
    ensures HeldSince(Do(cfg, s, a).tx.evaluationClaims, id, since)
  {
    if a.ClaimLiveness? || a.PromoteLiveness? || a.RecordUnusable? {
      SectionsHoldEvaluation(cfg, s, a.op, id, since);
    } else if a.SectionDies? {
      DeathsHoldEvaluation(cfg, s, a.op, a.at, id, since);
    } else {
      OtherStepsLeaveClaims(cfg, s, a);
    }
  }

  /** Until its lifetime ends or a request for that capture finishes, an evaluation claim is granted to nobody else. */
  lemma {:induction false} EvaluationClaimExcludes(
      cfg: Config, s: System, key: Key, since: real, actions: seq<Action>, s': System)
    requires HeldSince(s.tx.evaluationClaims, LivenessIdentity(key), since)
    requires UnfreedRun(cfg, s, LivenessIdentity(key), actions, s') && InTime(cfg, since, s'.now)
    ensures HeldSince(s'.tx.evaluationClaims, LivenessIdentity(key), since)
    ensures !ClaimEvaluation(s'.tx, cfg, key, s'.now).1.Claimed?
    decreases |actions|
  {
    if actions != [] {
      RunTime(cfg, s, LivenessIdentity(key), actions, s');
      StepHoldsEvaluation(cfg, s, actions[0], LivenessIdentity(key), since);
      EvaluationClaimExcludes(cfg, Do(cfg, s, actions[0]), key, since, actions[1..], s');
    }
  }

  /** A result stored for the current capture answers every later request exactly when it does not contradict itself. */
  lemma CoherentIsServed(t: Tx, cfg: Config, key: Key, a: Assessment, decisionId: nat, now: real)
    requires CurrentKeyIs(t, key)
    ensures var reply := ClaimEvaluation(PromoteEvaluation(t, key, AssessedEvaluation(key, a), decisionId).0, cfg, key, now).1;
      if Coherent(a) then reply == Cached(AssessedEvaluation(key, a)) else reply == Claimed
  {}

  /** Over timely runs the provider judges a capture no second time once it gave a coherent result, whatever that is. */
  lemma JudgedOnce(cfg: Config, lockWait: real, s: System, op: nat, a: Assessment, actions: seq<Action>, s': System)
    requires DelaysFit(cfg, lockWait) && TimelyReachable(cfg, lockWait, s) && Enabled(cfg, s, PromoteLiveness(op))
    requires CurrentKeyIs(s.tx, s.ops[op].key) && s.ops[op].evaluation == AssessedEvaluation(s.ops[op].key, a)
    requires Coherent(a) && TimelyRun(cfg, lockWait, DoPromoteLiveness(s, op), actions, s')
    ensures ClaimEvaluation(s'.tx, cfg, s.ops[op].key, s'.now).1 == Cached(AssessedEvaluation(s.ops[op].key, a))
    ensures forall i :: i in s'.ops && Evaluating(s'.ops[i]) ==>
      LivenessIdentity(s'.ops[i].key) != LivenessIdentity(s.ops[op].key)
  {
    var s0, before :| Initial(s0) && TimelyRun(cfg, lockWait, s0, before, s);
    var key := s.ops[op].key;
    RunKeepsFlight(cfg, lockWait, s0, before, s);
    PromotionKeepsFlight(s, op);
    CoherentIsServed(s.tx, cfg, key, a, s.nextDecision, s.now);
    RunKeepsReusable(cfg, lockWait, DoPromoteLiveness(s, op), LivenessIdentity(key), actions, s');
    forall i | i in s'.ops && Evaluating(s'.ops[i]) ensures LivenessIdentity(s'.ops[i].key) != LivenessIdentity(key) {
      assert OwnsClaim(s'.tx, s'.ops[i]);
    }
  }

  lemma SectionsHoldPortrait(cfg: Config, s: System, op: nat, id: Bytes, since: real)
    requires HeldSince(s.tx.portraitClaims, id, since) && InTime(cfg, since, s.now) && op in s.ops
    ensures s.ops[op].PortraitBoxRead? ==> HeldSince(DoClaimForPortrait(cfg, s, op).tx.portraitClaims, id, since)
    ensures s.ops[op].PortraitStaged? && LivenessIdentity(s.ops[op].snapshot.key) != id ==>
      HeldSince(DoPromoteCandidate(s, op).tx.portraitClaims, id, since)
    ensures s.ops[op].PortraitFailed? && LivenessIdentity(s.ops[op].snapshot.key) != id ==>
      HeldSince(DoRecordPortraitFailure(s, op).tx.portraitClaims, id, since)
  {}

  lemma DeathsHoldPortrait(cfg: Config, s: System, op: nat, at: Death, id: Bytes, since: real)
    requires HeldSince(s.tx.portraitClaims, id, since) && InTime(cfg, since, s.now) && op in s.ops && DiesAt(s.ops[op], at)
    requires OpSnapshot(s.ops[op]).Some? ==> LivenessIdentity(OpSnapshot(s.ops[op]).value.key) != id
    ensures HeldSince(DoSectionDies(cfg, s, op, at).tx.portraitClaims, id, since)
  {
    if s.ops[op].PortraitStaged? {
      PortraitDeathClears(s.tx, s.ops[op].snapshot, at);
    } else if !s.ops[op].PortraitBoxRead? {
      OtherDeathsLeavePortraitClaims(cfg, s, op, at);
    }
  }

  lemma PortraitDeathClears(t: Tx, snapshot: Snapshot, at: Death)
    ensures PortraitDeath(t, snapshot, at).portraitClaims == t.portraitClaims - {LivenessIdentity(snapshot.key)}
  {
    PromotionClears(t, snapshot);
  }

  lemma PromotionClears(t: Tx, snapshot: Snapshot)
    ensures PromotePortrait(t, snapshot).0.portraitClaims == t.portraitClaims - {LivenessIdentity(snapshot.key)}
  {}

  lemma OtherDeathsLeavePortraitClaims(cfg: Config, s: System, op: nat, at: Death)
    requires op in s.ops && DiesAt(s.ops[op], at) && !s.ops[op].PortraitStaged? && !s.ops[op].PortraitBoxRead?
    ensures DoSectionDies(cfg, s, op, at).tx.portraitClaims == s.tx.portraitClaims
  {
    if at.ClaimCleared? {
      assert s.ops[op].LivenessKeyRead? || s.ops[op].LivenessUnusable? || s.ops[op].LivenessEvaluated?;
    } else {
      SectionDeathFramed(cfg, s, op, at);
    }
  }

  lemma StepHoldsPortrait(cfg: Config, s: System, a: Action, id: Bytes, since: real)
    requires Enabled(cfg, s, a) && !FreesPortrait(s, a, id) && InTime(cfg, since, s.now)
    requires HeldSince(s.tx.portraitClaims, id, since)
    ensures HeldSince(Do(cfg, s, a).tx.portraitClaims, id, since)
  {
    if a.ClaimForPortrait? || a.PromoteCandidate? || a.RecordPortraitFailure? {
      SectionsHoldPortrait(cfg, s, a.op, id, since);
    } else if a.SectionDies? {
      DeathsHoldPortrait(cfg, s, a.op, a.at, id, since);
    } else {
      OthersLeavePortraitClaims(cfg, s, a);
    }
  }

  lemma OthersLeavePortraitClaims(cfg: Config, s: System, a: Action)
    requires Enabled(cfg, s, a) && !a.ClaimForPortrait? && !a.PromoteCandidate? && !a.RecordPortraitFailure? && !a.SectionDies?
    ensures Do(cfg, s, a).tx.portraitClaims == s.tx.portraitClaims
  {
    StepFramed(cfg, s, a);
  }

  /** Likewise a portrait claim: no other request is told to process that capture. */
  lemma {:induction false} PortraitClaimExcludes(
      cfg: Config, s: System, id: Bytes, since: real, actions: seq<Action>, s': System, snapshot: Snapshot)
    requires HeldSince(s.tx.portraitClaims, id, since)
    requires UnfreedRun(cfg, s, id, actions, s') && InTime(cfg, since, s'.now)
    ensures HeldSince(s'.tx.portraitClaims, id, since)
    ensures ClaimPortrait(s'.tx, cfg, s'.now).1 == Process(snapshot) ==> LivenessIdentity(snapshot.key) != id
    decreases |actions|
  {
    if actions != [] {
      RunTime(cfg, s, id, actions, s');
      StepHoldsPortrait(cfg, s, actions[0], id, since);
      PortraitClaimExcludes(cfg, Do(cfg, s, actions[0]), id, since, actions[1..], s', snapshot);
    }
  }

  // ---------------------------------------------------------------- authorization

  /** The authorized capture and its decision. */
  predicate AuthorizedBy(t: Tx, decision: Decision) {
    PortraitAuthorizationCurrent(t) && t.decision == Some(decision)
  }

  /** Everything an authorization is checked against. */
  predicate SameProofs(t: Tx, t': Tx) {
    t'.capture == t.capture && t'.decision == t.decision && t'.portrait == t.portrait && t'.authorization == t.authorization
  }

  lemma SameProofsAuthorize(t: Tx, t': Tx, decision: Decision)
    requires SameProofs(t, t') && AuthorizedBy(t, decision)
    ensures AuthorizedBy(t', decision)
  {}

  lemma OthersLeaveProofs(cfg: Config, s: System, a: Action)
    requires Enabled(cfg, s, a) && !a.WriteMeta? && !a.EndCapture? && !a.CaptureDies?
    requires !a.PromoteLiveness? && !a.PromoteCandidate? && !(a.SectionDies? && (LeavesBehind(a.at)))
    ensures SameProofs(s.tx, Do(cfg, s, a).tx)
  {
    StepFramed(cfg, s, a);
  }

  /** An authorization meets no capture whose metadata are written: nothing is bound to that capture yet. */
  lemma EndsKeepAuthorization(cfg: Config, s: System, a: Action, decision: Decision)
    requires InvCaptures(s) && InvEvidence(s) && Enabled(cfg, s, a) && (a.EndCapture? || a.CaptureDies?)
    requires AuthorizedBy(s.tx, decision)
    ensures AuthorizedBy(Do(cfg, s, a).tx, decision)
  {}

  lemma PromotionKeepsReused(s: System, op: nat, decision: Decision)
    requires InvFlight(s) && op in s.ops && s.ops[op].LivenessEvaluated?
    requires AuthorizedBy(s.tx, decision) && Reusable(s.tx, LivenessIdentity(decision.key))
    ensures AuthorizedBy(DoPromoteLiveness(s, op).tx, decision)
  {
    assert OwnsClaim(s.tx, s.ops[op]);
  }

  /** The worker dies with a new portrait in place, and the authorization of the old one. */
  predicate Unauthorizes(a: Action) {
    a.SectionDies? && (a.at.PortraitWritten? || a.at.CandidateRemoved?)
  }

  lemma DeathKeepsAuthorization(cfg: Config, s: System, op: nat, at: Death, decision: Decision)
    requires InvFlight(s) && op in s.ops && DiesAt(s.ops[op], at) && at in {DecisionWritten, AuthorizationWritten}
    requires AuthorizedBy(s.tx, decision) && Reusable(s.tx, LivenessIdentity(decision.key))
    ensures AuthorizedBy(DoSectionDies(cfg, s, op, at).tx, decision)
  {
    if at.DecisionWritten? {
      PromotionKeepsReused(s, op, decision);
      SameProofsAuthorize(DoPromoteLiveness(s, op).tx, DoSectionDies(cfg, s, op, at).tx, decision);
    } else {
      PromotionKeepsAuthorization(s.tx, s.ops[op].snapshot, decision);
      SameProofsAuthorize(PromotePortrait(s.tx, s.ops[op].snapshot).0, DoSectionDies(cfg, s, op, at).tx, decision);
    }
  }

  /** Between captures, an authorization falls only to a second evaluation of its own capture, or to such a death. */
  lemma StepKeepsAuthorization(cfg: Config, s: System, a: Action, decision: Decision)
    requires Inv(s) && InvFlight(s) && Enabled(cfg, s, a) && !a.WriteMeta? && !Unauthorizes(a)
    requires AuthorizedBy(s.tx, decision) && Reusable(s.tx, LivenessIdentity(decision.key))
    ensures AuthorizedBy(Do(cfg, s, a).tx, decision)
  {
    if a.EndCapture? || a.CaptureDies? {
      EndsKeepAuthorization(cfg, s, a, decision);
    } else if a.PromoteLiveness? {
      PromotionKeepsReused(s, a.op, decision);
    } else if a.PromoteCandidate? {
      PromotionKeepsAuthorization(s.tx, s.ops[a.op].snapshot, decision);
    } else if a.SectionDies? && LeavesBehind(a.at) {
      DeathKeepsAuthorization(cfg, s, a.op, a.at, decision);
    } else {
      OthersLeaveProofs(cfg, s, a);
      SameProofsAuthorize(s.tx, Do(cfg, s, a).tx, decision);
    }
  }

  lemma PromotionKeepsAuthorization(t: Tx, snapshot: Snapshot, decision: Decision)
    requires AuthorizedBy(t, decision)
    ensures AuthorizedBy(PromotePortrait(t, snapshot).0, decision)
  {}

  lemma {:induction false} AuthorizationLasts(
      cfg: Config, lockWait: real, s: System, decision: Decision, actions: seq<Action>, s': System)
    requires Inv(s) && InvFlight(s) && DelaysFit(cfg, lockWait) && TimelyRun(cfg, lockWait, s, actions, s')
    requires AuthorizedBy(s.tx, decision) && Reusable(s.tx, LivenessIdentity(decision.key))
    requires WriteMeta !in actions && forall a :: a in actions ==> !Unauthorizes(a)
    ensures AuthorizedBy(s'.tx, decision)
    decreases |actions|
  {
    if actions != [] {
      var next := Do(cfg, s, actions[0]);
      StepKeeps(cfg, s, actions[0]);
      StepKeepsFlight(cfg, lockWait, s, actions[0]);
      StepKeepsReusable(cfg, s, actions[0], LivenessIdentity(decision.key));
      StepKeepsAuthorization(cfg, s, actions[0], decision);
      AuthorizationLasts(cfg, lockWait, next, decision, actions[1..], s');
    }
  }

  /** A pass on record rests on a stored evaluation that would be reused. */
  predicate PassIsReusable(t: Tx) {
    t.decision.Some? && t.decision.value.outcome == PASS ==> Reusable(t, LivenessIdentity(t.decision.value.key))
  }

  lemma StepKeepsPassReusable(cfg: Config, s: System, a: Action)
    requires Inv(s) && InvFlight(s) && Enabled(cfg, s, a) && PassIsReusable(s.tx)
    ensures PassIsReusable(Do(cfg, s, a).tx)
  {
    if Decides(s, a) {
      DecidedIsReusable(cfg, s, a);
    } else {
      StepKeepsDecision(cfg, s, a);
      if s.tx.decision.Some? && s.tx.decision.value.outcome == PASS {
        StepKeepsReusable(cfg, s, a, LivenessIdentity(s.tx.decision.value.key));
      }
    }
  }

  /** The step writes a decision, with or without its status. */
  predicate Decides(s: System, a: Action) {
    && (a.PromoteLiveness? || (a.SectionDies? && a.at.DecisionWritten?)) && a.op in s.ops && s.ops[a.op].LivenessEvaluated?
    && PromoteEvaluation(s.tx, s.ops[a.op].key, s.ops[a.op].evaluation, s.nextDecision).1.Decided?
  }

  lemma DecidedIsReusable(cfg: Config, s: System, a: Action)
    requires InvOps(s) && Enabled(cfg, s, a) && Decides(s, a)
    ensures PassIsReusable(Do(cfg, s, a).tx)
  {
    assert OpOk(s, s.ops[a.op]);
    WrittenIsReusable(s, s.ops[a.op]);
  }

  lemma WrittenIsReusable(s: System, o: Op)
    requires OpOk(s, o) && o.LivenessEvaluated? && PromoteEvaluation(s.tx, o.key, o.evaluation, s.nextDecision).1.Decided?
    ensures PassIsReusable(PromoteEvaluation(s.tx, o.key, o.evaluation, s.nextDecision).0)
  {}

  lemma StepKeepsDecision(cfg: Config, s: System, a: Action)
    requires Enabled(cfg, s, a) && !Decides(s, a)
    ensures Do(cfg, s, a).tx.decision in {s.tx.decision, None}
  {
    StepFramed(cfg, s, a);
  }

  lemma {:induction false} RunKeepsPassReusable(cfg: Config, lockWait: real, s: System, actions: seq<Action>, s': System)
    requires Inv(s) && InvFlight(s) && DelaysFit(cfg, lockWait) && TimelyRun(cfg, lockWait, s, actions, s')
    requires PassIsReusable(s.tx)
    ensures Inv(s') && InvFlight(s') && PassIsReusable(s'.tx)
    decreases |actions|
  {
    if actions != [] {
      StepKeeps(cfg, s, actions[0]);
      StepKeepsFlight(cfg, lockWait, s, actions[0]);
      StepKeepsPassReusable(cfg, s, actions[0]);
      RunKeepsPassReusable(cfg, lockWait, Do(cfg, s, actions[0]), actions[1..], s');
    }
  }

  /**
   * Over timely runs, when the longest evaluation fits in a claim, an authorized capture stays authorized, and
   * portrait requests reuse its portrait, exactly until the next capture is accepted; unless a worker dies between a
   * second portrait of that capture and its authorization.
   */
  lemma AuthorizedUntilNextCapture(cfg: Config, lockWait: real, s: System, actions: seq<Action>, s': System)
    requires DelaysFit(cfg, lockWait) && TimelyReachable(cfg, lockWait, s) && TimelyRun(cfg, lockWait, s, actions, s')
    requires forall a :: a in actions ==> !Unauthorizes(a)
    requires PortraitAuthorizationCurrent(s.tx)
    ensures PortraitAuthorizationCurrent(s'.tx) && CurrentKeyIs(s'.tx, s.tx.decision.value.key) <==> WriteMeta !in actions
    ensures WriteMeta !in actions ==> s'.tx.decision == s.tx.decision && ClaimPortrait(s'.tx, cfg, s'.now).1 == Reused
  {
    var s0, before :| Initial(s0) && TimelyRun(cfg, lockWait, s0, before, s);
    InitialInv(s0);
    RunKeepsPassReusable(cfg, lockWait, s0, before, s);
    TimelyRunIsRun(cfg, lockWait, s, actions, s');
    if WriteMeta in actions {
      RunKeeps(cfg, s, actions, s');
      AcceptedCountsWrites(cfg, s, actions, s');
      if s'.tx.capture.Some? {
        CurrentIsLatest(s, s');
      }
    } else {
      AuthorizationLasts(cfg, lockWait, s, s.tx.decision.value, actions, s');
    }
  }

  // ---------------------------------------------------------------- delivery

  /**
   * A status that promises a portrait keeps its word exactly when it has caught up. A submit with a consumer, a secret
   * and a JPEG portrait then either posts, or repeats the redirect of the delivery that was acknowledged before the
   * status could be written.
   */
  lemma ReadyMeansSendable(cfg: Config, s: System, input: SubmitInput)
    requires Reachable(cfg, s) && Enabled(cfg, s, SubmitNow(input)) && s.tx.status in {PORTRAIT_READY, CALLBACK_FAILED}
    ensures Submit(s.tx, input).1 != NotReady <==> CaughtUp(s)
    ensures CaughtUp(s) && Sendable(s.tx, input) ==>
      if s.tx.callback.Acknowledged?
      then Submit(s.tx, input) == (s.tx, Duplicate(s.tx.callback.redirect), 0)
      else 1 <= Submit(s.tx, input).2 <= cfg.callbackMaxRetries + 1
    ensures CaughtUp(s) && Sendable(s.tx, input) && !s.tx.callback.Acknowledged? && !Submit(s.tx, input).1.Ready? ==>
      PortraitAuthorizationCurrent(Submit(s.tx, input).0) && Submit(s.tx, input).0.status == CALLBACK_FAILED
  {
    StatusAgreement(cfg, s);
    AuthorizedSubmits(s.tx, input);
  }

  /** Nothing but the callback can go wrong. */
  predicate Sendable(t: Tx, input: SubmitInput) {
    && t.portrait.Some? && JpegMagic(t.portrait.value)
    && input.consumerConfigured && !input.secretMissing && input.crash.NoCrash?
  }

  lemma AuthorizedSubmits(t: Tx, input: SubmitInput)
    requires !Terminal(t.status) && input.script != []
    ensures Submit(t, input).1 == NotReady <==> !PortraitAuthorizationCurrent(t)
    ensures PortraitAuthorizationCurrent(t) && Sendable(t, input) ==>
      if t.callback.Acknowledged?
      then Submit(t, input) == (t, Duplicate(t.callback.redirect), 0)
      else 1 <= Submit(t, input).2 <= |input.script|
    ensures PortraitAuthorizationCurrent(t) && Sendable(t, input) && !t.callback.Acknowledged? && !Submit(t, input).1.Ready? ==>
      PortraitAuthorizationCurrent(Submit(t, input).0) && Submit(t, input).0.status == CALLBACK_FAILED
  {}
}
