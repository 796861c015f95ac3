/** The transaction record as the handlers change it: each locked section equals its specification. */
module TransactionStore {
  import opened Wrappers
  import opened Digests
  import opened PersonState
  import opened Integrity
  import opened Callback
  import opened Transaction
  import opened SectionAnswers

  /** Authorization and status, as far as they are written. */
  function Authorized(t: Tx, snapshot: Snapshot, bytes: Bytes, dies: Option<Death>): Tx {
    var authorized := t.(authorization := Some(
      Authorization(snapshot.decisionId, snapshot.key, LivenessIdentity(snapshot.key), Sha256Hex(bytes))));
    match dies
    case Some(CandidateRemoved) => t
    case Some(AuthorizationWritten) => authorized
    case _ => authorized.(status := NextStatus(t.status, PORTRAIT_READY))
  }

  /** Clearing the claim first makes no difference to the rest of the section. */
  lemma ClearedFirst(t: Tx, key: Key, evaluation: Evaluation, decisionId: nat, dies: Option<Death>)
    requires dies.Some? ==> dies.value in {EvaluationWritten, DecisionWritten}
    ensures PromoteEvaluation(FreeEvaluation(t, key), key, evaluation, decisionId) == PromoteEvaluation(t, key, evaluation, decisionId)
    ensures dies.Some? ==> PromotionDeath(FreeEvaluation(t, key), key, evaluation, decisionId, dies.value) ==
                           PromotionDeath(t, key, evaluation, decisionId, dies.value)
  {
    var claims, id := t.evaluationClaims, LivenessIdentity(key);
    assert claims - {id} - {id} == claims - {id};
  }

  lemma PortraitClearedFirst(t: Tx, snapshot: Snapshot, dies: Option<Death>)
    requires dies.Some? ==> dies.value in {PortraitWritten, CandidateRemoved, AuthorizationWritten}
    ensures PromotePortrait(ClearPortraitClaim(t, snapshot.key), snapshot) == PromotePortrait(t, snapshot)
    ensures dies.Some? ==> PortraitDeath(ClearPortraitClaim(t, snapshot.key), snapshot, dies.value) ==
                           PortraitDeath(t, snapshot, dies.value)
  {
    var claims, id := t.portraitClaims, LivenessIdentity(snapshot.key);
    assert claims - {id} - {id} == claims - {id};
  }

  class TransactionRecord {
    const consumerId: Bytes
    const externalId: Bytes
    var status: Status
    var attempts: Attempts
    var original: Option<Bytes>
    var capture: Option<Capture>
    var decision: Option<Decision>
    var portrait: Option<Bytes>
    var authorization: Option<Authorization>
    var evaluations: map<Bytes, Evaluation>
    var evaluationClaims: map<Bytes, real>
    var portraitClaims: map<Bytes, real>
    var candidates: map<Bytes, Bytes>
    var callback: CallbackState

    ghost function View(): Tx
      reads this
    {
      Tx(consumerId, externalId, status, attempts, original, capture, decision, portrait, authorization,
         evaluations, evaluationClaims, portraitClaims, candidates, callback)
    }

    constructor (consumerId: Bytes, externalId: Bytes)
      ensures View() == Launched(consumerId, externalId)
    {
      this.consumerId, this.externalId := consumerId, externalId;
      status, attempts := LAUNCHED, Attempts(0, [], [], []);
      original, capture, decision, portrait, authorization := None, None, None, None, None;
      evaluations, evaluationClaims, portraitClaims, candidates := map[], map[], map[], map[];
      callback := NotSent;
    }

    method UpdateTransactionStatus(new_: Status)
      modifies this`status
      ensures status == NextStatus(old(status), new_)
      ensures Terminal(old(status)) ==> Terminal(status)
      ensures Terminal(new_) || !Terminal(old(status)) ==> status == new_
    {
      if Terminal(status) && !Terminal(new_) {
        return;
      }
      status := new_;
    }

    method RegisterAttemptLocked(cfg: Config, attemptId: Bytes, reason: Option<string>, markUploaded: bool)
      returns (reply: AttemptReply)
      modifies this`attempts, this`status
      ensures (View(), reply) == RegisterAttempt(old(View()), cfg, attemptId, reason, markUploaded)
    {
      var idHash := Sha256Hex(attemptId);
      var a := attempts;
      if markUploaded && idHash in a.uploaded {
        return UploadRejected;
      }
      if idHash !in a.consumed {
        a := a.(consumed := a.consumed + [idHash], count := a.count + 1);
        if reason.Some? && reason.value !in a.reasons {
          a := a.(reasons := a.reasons + [reason.value]);
        }
      }
      if markUploaded && idHash !in a.uploaded {
        a := a.(uploaded := a.uploaded + [idHash]);
      }
      var warning := a.count in {cfg.warningAt, cfg.warningAgainAt};
      var terminal := false;
      if a.count >= cfg.attemptLimit {
        terminal := true;
        UpdateTransactionStatus(ATTEMPT_LIMIT_EXCEEDED);
      }
      attempts := a;
      return Registered(a.count, warning, terminal);
    }

    /** Removal of superseded artifacts; a failed removal is logged and skipped. */
    method RemoveAuthorizationArtifacts(left: Leftover)
      modifies this`decision, this`portrait, this`authorization
      ensures View() == InvalidateAuthorization(old(View()), left)
      ensures !left.decision ==> !HasCurrentCanonicalPass(View())
      ensures !left.portrait || !left.authorization ==> !PortraitAuthorizationCurrent(View())
      ensures HasCurrentCanonicalPass(View()) ==> HasCurrentCanonicalPass(old(View()))
    {
      if !left.decision { decision := None; }
      if !left.portrait { portrait := None; }
      if !left.authorization { authorization := None; }
    }

    /** The locked section of `browser_capture`. */
    method CaptureLocked(cfg: Config, attemptId: Bytes, data: Bytes, faceBox: Option<FaceBox>, left: Leftover)
      returns (reply: AttemptReply)
      modifies this
      ensures reply == RegisterAttempt(old(View()), cfg, attemptId, None, true).1
      ensures reply.UploadRejected? ==> View() == old(View())
      ensures reply.Registered? && reply.terminal ==> View() == RegisterAttempt(old(View()), cfg, attemptId, None, true).0
      ensures reply.Registered? && !reply.terminal ==>
        View() == AcceptCapture(old(View()), cfg, attemptId, data, faceBox, left)
    {
      reply := RegisterAttemptLocked(cfg, attemptId, None, true);
      if reply.UploadRejected? || reply.terminal {
        return;
      }
      original := Some(data);
      capture := Some(Capture(Key(attemptId, Sha256Hex(data)), faceBox));
      RemoveAuthorizationArtifacts(left);
      UpdateTransactionStatus(CAPTURE_READY);
    }

    /** Cache and claim check of `browser_liveness`. */
    method ClaimEvaluationLocked(cfg: Config, key: Key, now: real) returns (reply: ClaimReply)
      modifies this`evaluationClaims
      ensures (View(), reply) == ClaimEvaluation(old(View()), cfg, key, now)
    {
      var identity := LivenessIdentity(key);
      if identity in evaluations {
        var cached := evaluations[identity];
        if IsCurrentEvaluation(cached) {
          return Cached(cached);
        }
      }
      if identity in evaluationClaims {
        if ClaimStale(cfg, evaluationClaims[identity], now) {
          evaluationClaims := evaluationClaims - {identity};
        } else {
          return InProgress;
        }
      }
      evaluationClaims := evaluationClaims[identity := now];
      assert evaluationClaims == old(evaluationClaims)[identity := now];
      return Claimed;
    }

    /** Handling of a provider that cannot be used at all. */
    method FailEvaluationLocked(key: Key, code: string)
      modifies this`evaluations, this`evaluationClaims
      ensures View() == FailEvaluation(old(View()), key, code)
      // The claim is free: the next request is served the failure while its capture is current, and evaluates otherwise.
      ensures LivenessIdentity(key) !in evaluationClaims
      ensures !Reusable(old(View()), LivenessIdentity(key)) ==> forall cfg, now ::
        ClaimEvaluation(View(), cfg, key, now).1 ==
          (if CurrentIdentityIs(View(), LivenessIdentity(key)) then Cached(ErrorEvaluation(key, code)) else Claimed)
    {
      var identity := LivenessIdentity(key);
      evaluationClaims := evaluationClaims - {identity};
      if capture.Some? && LivenessIdentity(capture.value.key) == identity {
        evaluations := evaluations[identity := ErrorEvaluation(key, code)];
      }
    }

    /** Stale check, persistence and promotion after the provider returned, for a worker that may die on the way. */
    method PromoteEvaluationLocked(key: Key, evaluation: Evaluation, decisionId: nat, dies: Option<Death>)
      returns (reply: Option<PromoteReply>)
      requires dies.Some? ==> dies.value in {ClaimCleared, EvaluationWritten, DecisionWritten}
      modifies this`evaluations, this`evaluationClaims, this`decision, this`status
      ensures dies.None? ==>
        var (t, r) := PromoteEvaluation(old(View()), key, evaluation, decisionId); View() == t && reply == Some(r)
      ensures dies.Some? ==> View() == PromotionDeath(old(View()), key, evaluation, decisionId, dies.value)
    {
      var identity := LivenessIdentity(key);
      evaluationClaims := evaluationClaims - {identity};
      if dies == Some(ClaimCleared) {
        return None;
      }
      ClearedFirst(old(View()), key, evaluation, decisionId, dies);
      reply := PersistAndDecide(key, evaluation, decisionId, dies);
    }

    /** The part behind the claim. */
    method PersistAndDecide(key: Key, evaluation: Evaluation, decisionId: nat, dies: Option<Death>)
      returns (reply: Option<PromoteReply>)
      requires dies.Some? ==> dies.value in {EvaluationWritten, DecisionWritten}
      requires LivenessIdentity(key) !in evaluationClaims
      modifies this`evaluations, this`decision, this`status
      ensures dies.None? ==>
        var (t, r) := PromoteEvaluation(old(View()), key, evaluation, decisionId); View() == t && reply == Some(r)
      ensures dies.Some? ==> View() == PromotionDeath(old(View()), key, evaluation, decisionId, dies.value)
    {
      var identity := LivenessIdentity(key);
      assert evaluationClaims - {identity} == evaluationClaims;
      if capture.None? || LivenessIdentity(capture.value.key) != identity {
        evaluations := evaluations[identity := evaluation.(stale := true)];
        return Some(StaleEvaluation);
      }
      evaluations := evaluations[identity := evaluation];
      if dies == Some(EvaluationWritten) {
        return None;
      }
      if evaluation.error.Some? {
        return Some(Unavailable);
      }
      WriteDecision(evaluation, decisionId, identity, dies.Some?);
      return if dies.Some? then None else Some(Decided(evaluation.outcome));
    }

    method WriteDecision(evaluation: Evaluation, decisionId: nat, identity: Bytes, dies: bool)
      modifies this`decision, this`status
      ensures decision ==
        Some(Decision(decisionId, evaluation.outcome, evaluation.key, identity, evaluation.schemaVersion, evaluation.assessment))
      ensures status == if dies then old(status) else NextStatus(old(status), DECISION_READY)
    {
      decision := Some(Decision(decisionId, evaluation.outcome, evaluation.key, identity, evaluation.schemaVersion, evaluation.assessment));
      if !dies {
        UpdateTransactionStatus(DECISION_READY);
      }
    }

    /** Reuse, readiness and claim check of `browser_portrait`. */
    method ClaimPortraitLocked(cfg: Config, now: real) returns (reply: PortraitReply)
      modifies this`portraitClaims
      ensures (View(), reply) == ClaimPortrait(old(View()), cfg, now)
    {
      var record := ReadAll();
      if PortraitAuthorizationCurrent(record) {
        return Reused;
      }
      var snapshot := CaptureSnapshot(record);
      if snapshot.None? {
        return PortraitNotReady;
      }
      var identity := LivenessIdentity(snapshot.value.key);
      if identity in portraitClaims {
        if ClaimStale(cfg, portraitClaims[identity], now) {
          portraitClaims := portraitClaims - {identity};
        } else {
          return PortraitInProgress;
        }
      }
      portraitClaims := portraitClaims[identity := now];
      assert portraitClaims == old(portraitClaims)[identity := now];
      return Process(snapshot.value);
    }

    /** Promotion of a staged candidate, or its removal when it went stale, for a worker that may die on the way. */
    method PromotePortraitLocked(snapshot: Snapshot, dies: Option<Death>) returns (reply: Option<PortraitPromoteReply>)
      requires dies.Some? ==> dies.value in {ClaimCleared, PortraitWritten, CandidateRemoved, AuthorizationWritten}
      modifies this`portraitClaims, this`candidates, this`portrait, this`authorization, this`status
      ensures dies.None? ==> var (t, r) := PromotePortrait(old(View()), snapshot); View() == t && reply == Some(r)
      ensures dies.Some? ==> View() == PortraitDeath(old(View()), snapshot, dies.value)
    {
      var identity := LivenessIdentity(snapshot.key);
      portraitClaims := portraitClaims - {identity};
      if dies == Some(ClaimCleared) {
        return None;
      }
      PortraitClearedFirst(old(View()), snapshot, dies);
      reply := PublishPortrait(snapshot, dies);
    }

    /** The part behind the claim. */
    method PublishPortrait(snapshot: Snapshot, dies: Option<Death>) returns (reply: Option<PortraitPromoteReply>)
      requires dies.Some? ==> dies.value in {PortraitWritten, CandidateRemoved, AuthorizationWritten}
      requires LivenessIdentity(snapshot.key) !in portraitClaims
      modifies this`candidates, this`portrait, this`authorization, this`status
      ensures dies.None? ==> var (t, r) := PromotePortrait(old(View()), snapshot); View() == t && reply == Some(r)
      ensures dies.Some? ==> View() == PortraitDeath(old(View()), snapshot, dies.value)
    {
      var identity := LivenessIdentity(snapshot.key);
      assert portraitClaims - {identity} == portraitClaims;
      var record := ReadAll();
      if !SnapshotMatchesCurrent(record, snapshot) {
        candidates := candidates - {identity};
        return Some(StalePortrait);
      }
      if identity !in candidates {
        return Some(CandidateMissing);
      }
      WriteAuthorizedPortrait(snapshot, candidates[identity], dies);
      return if dies.Some? then None else Some(Promoted);
    }

    method WriteAuthorizedPortrait(snapshot: Snapshot, bytes: Bytes, dies: Option<Death>)
      modifies this`candidates, this`portrait, this`authorization, this`status
      ensures var id, t := LivenessIdentity(snapshot.key), old(View()).(portrait := Some(bytes));
        View() == if dies == Some(PortraitWritten) then t
                  else Authorized(t.(candidates := t.candidates - {id}), snapshot, bytes, dies)
    {
      var identity := LivenessIdentity(snapshot.key);
      portrait := Some(bytes);
      if dies == Some(PortraitWritten) {
        return;
      }
      candidates := candidates - {identity};
      Authorize(snapshot, bytes, dies);
    }

    method Authorize(snapshot: Snapshot, bytes: Bytes, dies: Option<Death>)
      modifies this`authorization, this`status
      ensures View() == Authorized(old(View()), snapshot, bytes, dies)
    {
      if dies == Some(CandidateRemoved) {
        return;
      }
      authorization := Some(Authorization(snapshot.decisionId, snapshot.key, LivenessIdentity(snapshot.key), Sha256Hex(bytes)));
      if dies == Some(AuthorizationWritten) {
        return;
      }
      UpdateTransactionStatus(PORTRAIT_READY);
    }

    /** `browser_submit`, with the callback delivered while the lock is held. */
    method SubmitLocked(cfg: Config, input: SubmitInput) returns (reply: SubmitReply, posts: nat)
      requires |input.script| == cfg.callbackMaxRetries + 1
      modifies this`callback, this`status
      ensures (View(), reply, posts) == Submit(old(View()), input)
      ensures posts <= cfg.callbackMaxRetries + 1
      // An acknowledgement is the allowed redirect that a 2xx JSON answer to the last post named.
      ensures Acknowledges(old(View()), View()) ==> Earned(input, View(), posts)
    {
      AcknowledgementIsEarned(View(), input);
      posts := 0;
      if Terminal(status) {
        return AlreadyTerminal, 0;
      }
      var record := ReadAll();
      if !PortraitAuthorizationCurrent(record) {
        return NotReady, 0;
      }
      if !JpegMagic(portrait.value) {
        return IntegrityFailed, 0;
      }
      if !input.consumerConfigured {
        return NotConfigured, 0;
      }
      if callback.Acknowledged? {
        return Duplicate(callback.redirect), 0;
      }
      reply, posts := DeliverLocked(cfg, input);
    }

    /** The delivery, once every guard has been passed. */
    method DeliverLocked(cfg: Config, input: SubmitInput) returns (reply: SubmitReply, posts: nat)
      requires |input.script| == cfg.callbackMaxRetries + 1
      modifies this`callback, this`status
      ensures (View(), reply, posts) == Deliver(old(View()), input)
      ensures posts <= cfg.callbackMaxRetries + 1
    {
      var delivery;
      delivery, posts := SendCallback(input.script, cfg.callbackMaxRetries, input.secretMissing);
      if input.crash.AfterPosts? {
        return Died, if input.crash.made < posts then input.crash.made else posts;
      }
      var newStatus;
      match delivery {
        case TransportError =>
          callback, newStatus, reply := NotDelivered(true), CALLBACK_FAILED, CallbackFailed;
        case TerminalError =>
          callback, newStatus, reply := NotDelivered(false), CALLBACK_FAILED, CallbackFailed;
        case Delivered(redirect) =>
          if redirect.None? || redirect.value == "" || !input.redirectAllowed(redirect.value) {
            callback, newStatus, reply := NotDelivered(false), CALLBACK_FAILED, InvalidRedirect;
          } else {
            callback, newStatus, reply := Acknowledged(redirect.value), COMPLETED, Ready(redirect.value);
          }
      }
      if input.crash.AfterRecord? {
        return Died, posts;
      }
      UpdateTransactionStatus(newStatus);
    }

    /** The stored fields read together, as the checks under the lock see them. */
    method ReadAll() returns (t: Tx)
      ensures t == View()
    {
      t := Tx(consumerId, externalId, status, attempts, original, capture, decision, portrait, authorization,
              evaluations, evaluationClaims, portraitClaims, candidates, callback);
    }
  }
}
