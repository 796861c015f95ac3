/** Whole-run results about captures, evidence, portraits, status and delivery. */
module ProtocolTheorems {
  import opened Wrappers
  import opened Digests
  import opened PersonState
  import opened Callback
  import opened Transaction
  import opened Protocol
  import opened ProtocolInvariant
  import opened ProtocolFrames

  predicate Arrival(a: Action) {
    a.ArriveCapture? || a.ArriveAttempt? || a.ArriveLiveness? || a.ArrivePortrait?
  }

  lemma ArrivalKeeps(cfg: Config, s: System, a: Action)
    requires Inv(s) && Enabled(cfg, s, a) && Arrival(a)
    ensures Inv(Do(cfg, s, a))
  {
    match a
    case ArriveCapture(op, attemptId, data, box) => MoveKeeps(s, op, CaptureAdmitted(attemptId, data, box));
    case ArriveAttempt(op, attemptId, reason) => MoveKeeps(s, op, AttemptAdmitted(attemptId, reason));
    case ArriveLiveness(op) => MoveKeeps(s, op, LivenessAdmitted);
    case ArrivePortrait(op, formBox) => MoveKeeps(s, op, PortraitAdmitted(formBox));
  }

  lemma CaptureStepKeeps(cfg: Config, s: System, a: Action)
    requires Inv(s) && Enabled(cfg, s, a) && CaptureSection(a)
    ensures Inv(Do(cfg, s, a))
  {
    match a
    case RegisterOnly(op) => RegisterOnlyKeeps(cfg, s, op);
    case BeginCapture(op) => BeginCaptureKeeps(cfg, s, op);
    case WriteImage => WriteImageKeeps(s);
    case WriteMeta => WriteMetaKeeps(s);
    case EndCapture(left) => EndCaptureKeeps(s, left);
    case CaptureDies(left) => CaptureDiesKeeps(s, left);
  }

  predicate LivenessAction(a: Action) {
    || a.ReadKey? || a.ClaimLiveness? || a.ReadImage? || a.ProviderAssesses? || a.ProviderErrs? || a.ProviderUnusable?
    || a.RecordUnusable? || a.PromoteLiveness?
  }

  lemma LivenessStepKeeps(cfg: Config, s: System, a: Action)
    requires Inv(s) && Enabled(cfg, s, a) && LivenessAction(a)
    ensures Inv(Do(cfg, s, a))
  {
    match a
    case ReadKey(op) => ReadKeyKeeps(s, op);
    case ClaimLiveness(op) => ClaimLivenessKeeps(cfg, s, op);
    case ReadImage(op) => ReadImageKeeps(s, op);
    case ProviderAssesses(op, c, n, p) => ProviderAssessesKeeps(s, op, Assessment(Some(c), Some(n), Some(p)));
    case ProviderErrs(op, code) => ProviderErrsKeeps(s, op, code);
    case ProviderUnusable(op, code) => ProviderUnusableKeeps(s, op, code);
    case RecordUnusable(op) => RecordUnusableKeeps(s, op);
    case PromoteLiveness(op) => PromoteLivenessKeeps(s, op);
  }

  predicate PortraitAction(a: Action) {
    a.ReadBox? || a.ClaimForPortrait? || a.StageCandidate? || a.PromoteCandidate?
  }

  lemma PortraitStepKeeps(cfg: Config, s: System, a: Action)
    requires Inv(s) && Enabled(cfg, s, a) && PortraitAction(a)
    ensures Inv(Do(cfg, s, a))
  {
    match a
    case ReadBox(op) => ReadBoxKeeps(s, op);
    case ClaimForPortrait(op) => ClaimForPortraitKeeps(cfg, s, op);
    case StageCandidate(op, output) => StageCandidateKeeps(s, op, output);
    case PromoteCandidate(op) => PromoteCandidateKeeps(s, op);
  }

  predicate FailureAction(a: Action) {
    a.PortraitFails? || a.RecordPortraitFailure? || a.SectionDies? || a.Crash? || a.Tick?
  }

  lemma FailureStepKeeps(cfg: Config, s: System, a: Action)
    requires Inv(s) && Enabled(cfg, s, a) && FailureAction(a)
    ensures Inv(Do(cfg, s, a))
  {
    match a
    case PortraitFails(op) => PortraitFailsKeeps(s, op);
    case RecordPortraitFailure(op) => RecordPortraitFailureKeeps(s, op);
    case SectionDies(op, at) => SectionDiesKeeps(cfg, s, op, at);
    case Crash(op) => CrashKeeps(s, op);
    case Tick(seconds) => FrameKeeps(s, DoTick(s, seconds));
  }

  lemma StepKeeps(cfg: Config, s: System, a: Action)
    requires Inv(s) && Enabled(cfg, s, a)
    ensures Inv(Do(cfg, s, a))
  {
    if Arrival(a) {
      ArrivalKeeps(cfg, s, a);
    } else if CaptureSection(a) {
      CaptureStepKeeps(cfg, s, a);
    } else if LivenessAction(a) {
      LivenessStepKeeps(cfg, s, a);
    } else if PortraitAction(a) {
      PortraitStepKeeps(cfg, s, a);
    } else if FailureAction(a) {
      FailureStepKeeps(cfg, s, a);
    } else {
      SubmitKeeps(s, a.input);
    }
  }

  lemma {:induction false} RunKeeps(cfg: Config, s: System, actions: seq<Action>, s': System)
    requires Inv(s) && Run(cfg, s, actions, s')
    ensures Inv(s')
    decreases |actions|
  {
    if actions != [] {
      StepKeeps(cfg, s, actions[0]);
      RunKeeps(cfg, Do(cfg, s, actions[0]), actions[1..], s');
    }
  }

  lemma ReachableInv(cfg: Config, s: System)
    requires Reachable(cfg, s)
    ensures Inv(s)
  {
    var s0, actions :| Initial(s0) && Run(cfg, s0, actions, s);
    InitialInv(s0);
    RunKeeps(cfg, s0, actions, s);
  }

  // ---------------------------------------------------------------- provenance

  /**
   * In every reachable state, all posts carry one event id and an assessment that passes, and every post made while
   * the image was not torn carried a portrait produced from exactly the bytes of the capture then current, and those
   * bytes had been judged so. Interleavings, expired claims, duplicate runs and deaths behind any write of any section
   * are all included; the image is torn from the death of a capture between its image and its metadata to the next
   * metadata.
   */
  lemma EverySendHasProvenance(cfg: Config, s: System)
    requires Reachable(cfg, s)
    ensures forall send :: send in s.sends ==>
      && send.key in s.accepted && MapToOutcome(send.assessment) == PASS
      && send.eventId == EventId(s.tx.consumerId, s.tx.externalId)
      && (!send.torn ==>
        && send.original.Some? && send.key.sha == Sha256Hex(send.original.value)
        && (send.original.value, send.portrait) in s.produced && (send.original.value, send.assessment) in s.evaluated)
    ensures InCapture(ImageWritten) !in s.died ==> forall send :: send in s.sends ==> !send.torn
  {
    ReachableInv(cfg, s);
  }

  /** What a submit sends is bound to the capture stored at that moment. */
  lemma SubmitSendsCurrentCapture(cfg: Config, s: System, input: SubmitInput, send: Send)
    requires Reachable(cfg, s) && Enabled(cfg, s, SubmitNow(input))
    requires send in DoSubmit(s, input).sends && send !in s.sends
    ensures CurrentKeyIs(s.tx, send.key) && send.original == s.tx.original && s.tx.portrait == Some(send.portrait)
    ensures s.tx.decision.Some? && s.tx.decision.value.id == send.decisionId && s.tx.decision.value.assessment == send.assessment
    ensures IsPortraitEligible(send.assessment) && [255, 216, 255] <= send.portrait && send.torn == s.torn
    ensures !s.torn ==> MadeFromOriginal(s, send.portrait) && Judged(s, send.assessment)
  {
    ReachableInv(cfg, s);
    SubmitHasEffect(s, input);
    EffectKeeps(s, DoSubmit(s, input));
    OnlyJpegIsSent(s.tx, input);
  }

  lemma OnlyJpegIsSent(t: Tx, input: SubmitInput)
    requires input.script != []
    ensures Submit(t, input).2 > 0 ==> t.portrait.Some? && [255, 216, 255] <= t.portrait.value
  {}

  // ---------------------------------------------------------------- staleness

  lemma {:induction false} RunExtends(cfg: Config, s: System, actions: seq<Action>, s': System)
    requires Run(cfg, s, actions, s')
    ensures s.accepted <= s'.accepted
    decreases |actions|
  {
    if actions != [] {
      AcceptedGrows(cfg, s, actions[0]);
      RunExtends(cfg, Do(cfg, s, actions[0]), actions[1..], s');
    }
  }

  /** A superseded capture is never current again. */
  lemma SupersededForever(cfg: Config, s: System, key: Key, actions: seq<Action>, s': System)
    requires Reachable(cfg, s) && Run(cfg, s, actions, s')
    requires key in s.accepted && !CurrentKeyIs(s.tx, key)
    ensures !CurrentKeyIs(s'.tx, key)
  {
    ReachableInv(cfg, s);
    RunKeeps(cfg, s, actions, s');
    RunExtends(cfg, s, actions, s');
    NotLast(s, key, s');
  }

  lemma NotLast(s: System, key: Key, s': System)
    requires InvCaptures(s) && InvCaptures(s') && s.accepted <= s'.accepted && key in s.accepted && !CurrentKeyIs(s.tx, key)
    ensures !CurrentKeyIs(s'.tx, key)
  {
    var i :| 0 <= i < |s.accepted| && s.accepted[i] == key;
    assert i < |s.accepted| - 1;
    assert s'.accepted[i] == key;
  }

  lemma StaleSectionsAreInert(t: Tx, key: Key, e: Evaluation, code: string, id: nat, snapshot: Snapshot)
    requires !CurrentIdentityIs(t, LivenessIdentity(key)) && snapshot.key == key && !CurrentKeyIs(t, key)
    ensures SameAuthority(t, PromoteEvaluation(t, key, e, id).0)
    ensures SameAuthority(t, FailEvaluation(t, key, code))
    ensures SameAuthority(t, PromotePortrait(t, snapshot).0)
    ensures forall at :: SameAuthority(t, PromotionDeath(t, key, e, id, at)) && SameAuthority(t, PortraitDeath(t, snapshot, at))
  {}

  lemma SupersededIdentity(s: System, key: Key)
    requires Inv(s) && key in s.accepted && !CurrentKeyIs(s.tx, key)
    ensures !CurrentIdentityIs(s.tx, LivenessIdentity(key))
  {
    if CurrentIdentityIs(s.tx, LivenessIdentity(key)) {
      IdentityInjective(s.tx.capture.value.key, key);
    }
  }

  /**
   * A request that outlives its capture changes no authority: if its capture was superseded at any earlier
   * point of the run, finishing it leaves image, capture, decision, portrait, authorization, status and
   * callback as they were.
   */
  lemma OutlivedRequestChangesNothing(cfg: Config, s: System, key: Key, actions: seq<Action>, s': System, op: nat)
    requires Reachable(cfg, s) && Run(cfg, s, actions, s')
    requires key in s.accepted && !CurrentKeyIs(s.tx, key)
    requires op in s'.ops && OpKey(s'.ops[op]) == Some(key)
    ensures s'.ops[op].LivenessKeyRead? ==> SameAuthority(s'.tx, DoClaimLiveness(cfg, s', op).tx)
    ensures s'.ops[op].LivenessEvaluated? ==> SameAuthority(s'.tx, DoPromoteLiveness(s', op).tx)
    ensures s'.ops[op].LivenessUnusable? ==> SameAuthority(s'.tx, DoRecordUnusable(s', op).tx)
    ensures s'.ops[op].PortraitImageRead? ==> forall output :: SameAuthority(s'.tx, DoStageCandidate(s', op, output).tx)
    ensures s'.ops[op].PortraitStaged? ==> SameAuthority(s'.tx, DoPromoteCandidate(s', op).tx)
    ensures s'.ops[op].PortraitFailed? ==> SameAuthority(s'.tx, DoRecordPortraitFailure(s', op).tx)
    ensures forall at :: DiesAt(s'.ops[op], at) ==> SameAuthority(s'.tx, DoSectionDies(cfg, s', op, at).tx)
  {
    ReachableInv(cfg, s);
    RunKeeps(cfg, s, actions, s');
    SupersededForever(cfg, s, key, actions, s');
    RunExtends(cfg, s, actions, s');
    SupersededIdentity(s', key);
    StaleRequestIsInert(cfg, s', key, op);
  }

  lemma StaleRequestIsInert(cfg: Config, s: System, key: Key, op: nat)
    requires !CurrentIdentityIs(s.tx, LivenessIdentity(key)) && !CurrentKeyIs(s.tx, key)
    requires op in s.ops && OpKey(s.ops[op]) == Some(key)
    ensures s.ops[op].LivenessKeyRead? ==> SameAuthority(s.tx, DoClaimLiveness(cfg, s, op).tx)
    ensures s.ops[op].LivenessEvaluated? ==> SameAuthority(s.tx, DoPromoteLiveness(s, op).tx)
    ensures s.ops[op].LivenessUnusable? ==> SameAuthority(s.tx, DoRecordUnusable(s, op).tx)
    ensures s.ops[op].PortraitImageRead? ==> forall output :: SameAuthority(s.tx, DoStageCandidate(s, op, output).tx)
    ensures s.ops[op].PortraitStaged? ==> SameAuthority(s.tx, DoPromoteCandidate(s, op).tx)
    ensures s.ops[op].PortraitFailed? ==> SameAuthority(s.tx, DoRecordPortraitFailure(s, op).tx)
    ensures forall at :: DiesAt(s.ops[op], at) ==> SameAuthority(s.tx, DoSectionDies(cfg, s, op, at).tx)
  {
    var o := s.ops[op];
    var snapshot := if o.PortraitStaged? then o.snapshot else Snapshot(0, key);
    StaleSectionsAreInert(s.tx, key, if o.LivenessEvaluated? then o.evaluation else ErrorEvaluation(key, ""),
                          if o.LivenessUnusable? then o.code else "", s.nextDecision, snapshot);
  }

  predicate AuthorizesNothing(t: Tx) {
    !HasCurrentCanonicalPass(t) && !PortraitAuthorizationCurrent(t) && CaptureSnapshot(t).None?
  }

  /** A new capture authorizes nothing, even when every removal fails or its worker dies among them. */
  lemma NewCaptureRevokes(cfg: Config, s: System, left: Leftover)
    requires Reachable(cfg, s) && Enabled(cfg, s, EndCapture(left))
    ensures AuthorizesNothing(DoEndCapture(s, left).tx) && AuthorizesNothing(DoCaptureDies(s, left).tx)
    ensures forall t :: t in {DoEndCapture(s, left).tx, DoCaptureDies(s, left).tx} ==>
      && (t.decision.Some? ==> left.decision) && (t.portrait.Some? ==> left.portrait)
      && (t.authorization.Some? ==> left.authorization)
  {
    ReachableInv(cfg, s);
  }

  // ---------------------------------------------------------------- status and delivery

  /** The status is what the artifacts call for, whatever write it has not followed. */
  predicate CaughtUp(s: System) {
    match s.behind
    case None => true
    case Some(InCapture(_)) => s.tx.status == CAPTURE_READY
    case Some(DecisionWritten) => s.tx.status == DECISION_READY
    case Some(AuthorizationWritten) => s.tx.status in {PORTRAIT_READY, CALLBACK_FAILED}
    case Some(_) =>
      if NamesPortrait(s.tx) then s.tx.status in {PORTRAIT_READY, CALLBACK_FAILED} else s.tx.status == DECISION_READY
  }

  /** The stored authorization names the stored decision, its capture and the stored portrait. */
  predicate NamesPortrait(t: Tx) {
    && t.decision.Some? && t.portrait.Some?
    && t.authorization == Some(Authorization(
      t.decision.value.id, t.decision.value.key, LivenessIdentity(t.decision.value.key), Sha256Hex(t.portrait.value)))
  }

  /**
   * The status agrees with the artifacts, except while it is behind the last write of a worker that died: it then
   * agrees exactly when it already was the status this write calls for.
   */
  lemma StatusAgreement(cfg: Config, s: System)
    requires Reachable(cfg, s)
    ensures s.lock.None? && !Terminal(s.tx.status) ==> (StatusAgrees(s.tx) <==> CaughtUp(s))
    ensures s.tx.status == COMPLETED ==> s.tx.callback.Acknowledged?
    ensures s.behind.Some? ==> s.behind.value in s.died && LeavesBehind(s.behind.value)
  {
    ReachableInv(cfg, s);
    if s.behind.Some? && s.lock.None? && !Terminal(s.tx.status) {
      LaggingAgrees(s, s.behind.value);
    }
  }

  lemma LaggingAgrees(s: System, last: Death)
    requires s.behind == Some(last) && Lagging(s.tx, last) && KnownStatus(s.tx.status) && !Terminal(s.tx.status)
    ensures StatusAgrees(s.tx) <==> CaughtUp(s)
  {}

  /** Right after a promotion, reading back says "pass" exactly when the mapping said so. */
  lemma PromotionReadsBack(t: Tx, key: Key, a: Assessment, decisionId: nat)
    requires CurrentKeyIs(t, key)
    ensures var (t', reply) := PromoteEvaluation(t, key, AssessedEvaluation(key, a), decisionId);
      && reply == Decided(MapToOutcome(a))
      && (HasCurrentCanonicalPass(t') <==> MapToOutcome(a) == PASS)
      && (t.authorization.Some? && t.authorization.value.decisionId != decisionId ==> !PortraitAuthorizationCurrent(t'))
  {}

  predicate DeliveryFrozen(s: System, s': System) {
    && (Terminal(s.tx.status) ==> Terminal(s'.tx.status))
    && (s.tx.callback.Acknowledged? ==> s'.tx.callback == s.tx.callback && s'.sends == s.sends)
    && s.sends <= s'.sends
  }

  lemma SubmitFreezes(s: System, input: SubmitInput, maxRetries: nat)
    requires |input.script| == maxRetries + 1
    ensures DeliveryFrozen(s, DoSubmit(s, input))
    ensures |DoSubmit(s, input).sends| <= |s.sends| + maxRetries + 1
  {}

  lemma StepFreezes(cfg: Config, s: System, a: Action)
    requires Enabled(cfg, s, a)
    ensures DeliveryFrozen(s, Do(cfg, s, a))
    ensures a.SubmitNow? ==> |Do(cfg, s, a).sends| <= |s.sends| + cfg.callbackMaxRetries + 1
    ensures !a.SubmitNow? ==> Do(cfg, s, a).sends == s.sends
  {
    if a.SubmitNow? {
      SubmitFreezes(s, a.input, cfg.callbackMaxRetries);
    } else {
      StepFramed(cfg, s, a);
      OthersSendNothing(cfg, s, a);
    }
  }

  lemma OthersSendNothing(cfg: Config, s: System, a: Action)
    requires Enabled(cfg, s, a) && !a.SubmitNow?
    ensures Do(cfg, s, a).sends == s.sends
  {}

  /**
   * Over any run: a terminal status stays terminal; once acknowledged the callback never changes and nothing
   * is posted again, even when a crash separated the acknowledgement from the completed status.
   */
  lemma {:induction false} AcknowledgedForever(cfg: Config, s: System, actions: seq<Action>, s': System)
    requires Run(cfg, s, actions, s')
    ensures DeliveryFrozen(s, s')
    decreases |actions|
  {
    if actions != [] {
      StepFreezes(cfg, s, actions[0]);
      AcknowledgedForever(cfg, Do(cfg, s, actions[0]), actions[1..], s');
    }
  }

  /** The step registers an attempt, or begins to, with the count at the limit. */
  predicate ReachesLimit(cfg: Config, s: System, a: Action) {
    match a
    case RegisterOnly(op) => op in s.ops && s.ops[op].AttemptAdmitted? && AtLimit(cfg, s.tx, s.ops[op].reportedId, false)
    case BeginCapture(op) => op in s.ops && s.ops[op].CaptureAdmitted? && AtLimit(cfg, s.tx, s.ops[op].attemptId, true)
    case SectionDies(op, LimitWritten) =>
      op in s.ops && ((s.ops[op].AttemptAdmitted? && AtLimit(cfg, s.tx, s.ops[op].reportedId, false))
                      || (s.ops[op].CaptureAdmitted? && AtLimit(cfg, s.tx, s.ops[op].attemptId, true)))
    case _ => false
  }

  /** With this attempt the count reaches the limit, and it is no second upload. */
  predicate AtLimit(cfg: Config, t: Tx, attemptId: Bytes, upload: bool) {
    var hash := Sha256Hex(attemptId);
    && !(upload && hash in t.attempts.uploaded)
    && (if hash in t.attempts.consumed then t.attempts.count else t.attempts.count + 1) >= cfg.attemptLimit
  }

  /** `COMPLETED` alone is not absorbing: a late attempt or upload at the limit overrides it, and nothing else does. */
  lemma CompletedYieldsOnlyToLimit(cfg: Config, s: System, a: Action)
    requires Enabled(cfg, s, a) && s.tx.status == COMPLETED
    ensures Do(cfg, s, a).tx.status == if ReachesLimit(cfg, s, a) then ATTEMPT_LIMIT_EXCEEDED else COMPLETED
  {
    if a.SubmitNow? {
      assert DoSubmit(s, a.input) == s;
    } else if a.RegisterOnly? || a.BeginCapture? || (a.SectionDies? && a.at.LimitWritten?) {
      RegistrationYields(cfg, s, a);
    } else if a.EndCapture? || a.PromoteLiveness? || a.PromoteCandidate? {
      PromotionsYieldNothing(s, a);
    } else {
      StepFramed(cfg, s, a);
    }
  }

  lemma RegistrationYields(cfg: Config, s: System, a: Action)
    requires Enabled(cfg, s, a) && s.tx.status == COMPLETED
    requires a.RegisterOnly? || a.BeginCapture? || (a.SectionDies? && a.at.LimitWritten?)
    ensures Do(cfg, s, a).tx.status == if ReachesLimit(cfg, s, a) then ATTEMPT_LIMIT_EXCEEDED else COMPLETED
  {
    match a
    case RegisterOnly(op) => RegisteredStatus(cfg, s.tx, s.ops[op].reportedId, s.ops[op].reason, false);
    case BeginCapture(op) => RegisteredStatus(cfg, s.tx, s.ops[op].attemptId, None, true);
    case SectionDies(op, _) => RegistrationDeathYields(cfg, s, op);
  }

  lemma RegistrationDeathYields(cfg: Config, s: System, op: nat)
    requires op in s.ops && DiesAt(s.ops[op], LimitWritten) && s.tx.status == COMPLETED
    ensures DoSectionDies(cfg, s, op, LimitWritten).tx.status ==
            if ReachesLimit(cfg, s, SectionDies(op, LimitWritten)) then ATTEMPT_LIMIT_EXCEEDED else COMPLETED
  {
    if s.ops[op].AttemptAdmitted? {
      RegisteredStatus(cfg, s.tx, s.ops[op].reportedId, None, false);
    } else {
      RegisteredStatus(cfg, s.tx, s.ops[op].attemptId, None, true);
    }
  }

  lemma RegisteredStatus(cfg: Config, t: Tx, attemptId: Bytes, reason: Option<string>, upload: bool)
    requires t.status == COMPLETED
    ensures RegisterAttempt(t, cfg, attemptId, reason, upload).0.status ==
            if AtLimit(cfg, t, attemptId, upload) then ATTEMPT_LIMIT_EXCEEDED else COMPLETED
  {}

  lemma PromotionsYieldNothing(s: System, a: Action)
    requires s.tx.status == COMPLETED
    ensures a.EndCapture? ==> DoEndCapture(s, a.left).tx.status == COMPLETED
    ensures a.PromoteLiveness? && a.op in s.ops && s.ops[a.op].LivenessEvaluated? ==> DoPromoteLiveness(s, a.op).tx.status == COMPLETED
    ensures a.PromoteCandidate? && a.op in s.ops && s.ops[a.op].PortraitStaged? ==> DoPromoteCandidate(s, a.op).tx.status == COMPLETED
  {}
}
