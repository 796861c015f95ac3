/**
 * What each locked section answers and records, for whatever is stored: nothing here presumes that the stored state
 * came about by these sections.
 */
module SectionAnswers {
  import opened Wrappers
  import opened Digests
  import opened PersonState
  import opened Callback
  import opened Retries
  import opened Transaction

  // ---------------------------------------------------------------- what counts as authorized

  /** `d` was written for the stored capture, attempt and digest both, by the current rules. */
  predicate IsFor(d: Decision, t: Tx) {
    && t.capture.Some? && d.key.attemptId == t.capture.value.key.attemptId && d.key.sha == t.capture.value.key.sha
    && d.identity == Sha256Hex(d.key.attemptId + [58] + d.key.sha) && d.schemaVersion == Some("vlm-result-v3")
  }

  /** A stored decision passes only for its own capture, and only as one of the two assessments that may. */
  lemma PassTable(t: Tx)
    ensures HasCurrentCanonicalPass(t) <==>
      && t.decision.Some? && t.decision.value.outcome == PASS && IsFor(t.decision.value, t)
      && t.decision.value.assessment in {Assessment(Some(LIVE), Some(ONE), Some(NONE)),
                                         Assessment(Some(LIVE), Some(MULTIPLE), Some(BACKGROUND))}
  {}

  /** A stored portrait is authorized only by that pass, for that capture, and with these bytes. */
  lemma AuthorizationTable(t: Tx)
    ensures PortraitAuthorizationCurrent(t) <==>
      && HasCurrentCanonicalPass(t) && t.portrait.Some?
      && t.authorization == Some(Authorization(t.decision.value.id, t.capture.value.key,
           Sha256Hex(t.capture.value.key.attemptId + [58] + t.capture.value.key.sha), Sha256Hex(t.portrait.value)))
  {}

  lemma TerminalTable(s: Status)
    ensures Terminal(s) <==> s == COMPLETED || s == ATTEMPT_LIMIT_EXCEEDED || s == FAILED
  {}

  // ---------------------------------------------------------------- attempts

  /** The list goes on with those of `more` that it does not have, once each. */
  predicate Extends<T(==)>(before: seq<T>, after: seq<T>, more: set<T>) {
    && before <= after && (forall x :: x in after[|before|..] ==> x in more && x !in before)
    && (forall x :: x in more ==> x in after) && |after| <= |before| + |more|
  }

  /**
   * A second upload of an attempt is refused without effect. Otherwise the attempt is on record once, with its upload
   * and, when it is new, its reason; the two warning stages and the limit go by the new count.
   */
  lemma RegistrationTable(t: Tx, cfg: Config, attemptId: Bytes, reason: Option<string>, upload: bool)
    ensures var (t', reply) := RegisterAttempt(t, cfg, attemptId, reason, upload);
      var id, a, b := Sha256Hex(attemptId), t.attempts, t'.attempts;
      && (reply.UploadRejected? <==> upload && id in a.uploaded)
      && if reply.UploadRejected? then t' == t
         else
           && t' == t.(attempts := b, status := if b.count >= cfg.attemptLimit then ATTEMPT_LIMIT_EXCEEDED else t.status)
           && b.count == a.count + (if id in a.consumed then 0 else 1)
           && Extends(a.consumed, b.consumed, {id})
           && Extends(a.uploaded, b.uploaded, if upload then {id} else {})
           && Extends(a.reasons, b.reasons, if id !in a.consumed && reason.Some? then {reason.value} else {})
           && reply == Registered(b.count, b.count == cfg.warningAt || b.count == cfg.warningAgainAt, b.count >= cfg.attemptLimit)
  {
    var id, a := Sha256Hex(attemptId), t.attempts;
    AddedExtends(a.consumed, id);
    AddedExtends(a.uploaded, id);
    if reason.Some? {
      AddedExtends(a.reasons, reason.value);
    }
  }

  lemma AddedExtends<T>(s: seq<T>, x: T)
    ensures Extends(s, AddUnlessPresent(s, x), {x}) && Extends(s, s, {})
  {}

  // ---------------------------------------------------------------- captures

  /** A new capture takes decision, portrait and authorization away, except what could not be removed. */
  lemma RevocationTable(t: Tx, left: Leftover)
    ensures FinishCapture(t, left) == InvalidateAuthorization(t, left).(status := NextStatus(t.status, CAPTURE_READY))
    ensures var t' := InvalidateAuthorization(t, left);
      && t' == t.(decision := t'.decision, portrait := t'.portrait, authorization := t'.authorization)
      && (if left.decision then t'.decision == t.decision else t'.decision.None?)
      && (if left.portrait then t'.portrait == t.portrait else t'.portrait.None?)
      && (if left.authorization then t'.authorization == t.authorization else t'.authorization.None?)
  {}

  // ---------------------------------------------------------------- evaluation and portrait

  /** The claim has lived for the timeout of every attempt and one more, and ten seconds. */
  predicate Expired(cfg: Config, started: real, now: real) {
    now > started + Times(cfg.vlmTimeout, cfg.vlmMaxRetries + 2) + 10.0
  }

  /** A record that is still good answers; otherwise a claim that lives holds the request off; otherwise it is granted. */
  lemma ClaimTable(t: Tx, cfg: Config, key: Key, now: real)
    ensures var (t', reply) := ClaimEvaluation(t, cfg, key, now);
      var id := LivenessIdentity(key);
      if id in t.evaluations && IsCurrentEvaluation(t.evaluations[id]) then
        reply == Cached(t.evaluations[id]) && t' == t
      else if id in t.evaluationClaims && !Expired(cfg, t.evaluationClaims[id], now) then
        reply == InProgress && t' == t
      else
        reply == Claimed && t' == t.(evaluationClaims := t.evaluationClaims[id := now])
  {}

  /** A portrait that is authorized is reused; without a pass there is nothing to do; otherwise as for evaluations. */
  lemma PortraitClaimTable(t: Tx, cfg: Config, now: real)
    ensures var (t', reply) := ClaimPortrait(t, cfg, now);
      if PortraitAuthorizationCurrent(t) then reply == Reused && t' == t
      else if !HasCurrentCanonicalPass(t) then reply == PortraitNotReady && t' == t
      else
        var id := LivenessIdentity(t.capture.value.key);
        if id in t.portraitClaims && !Expired(cfg, t.portraitClaims[id], now) then
          reply == PortraitInProgress && t' == t
        else
          && reply == Process(Snapshot(t.decision.value.id, t.capture.value.key))
          && t' == t.(portraitClaims := t.portraitClaims[id := now])
  {}

  /** Only the capture `id` is touched: its claim is gone, and what is on file about others stays. */
  predicate OnlyAbout<T(==)>(before: map<Bytes, T>, after: map<Bytes, T>, id: Bytes) {
    forall h :: h in before.Keys + after.Keys && h != id ==> h in before && h in after && after[h] == before[h]
  }

  /**
   * A result of a superseded capture is kept, flagged as stale, and decides nothing; a failure is kept and decides
   * nothing; any other result becomes the decision.
   */
  lemma PromotionTable(t: Tx, key: Key, e: Evaluation, decisionId: nat)
    ensures var (t', reply) := PromoteEvaluation(t, key, e, decisionId);
      var id, current := LivenessIdentity(key), t.capture.Some? && LivenessIdentity(t.capture.value.key) == LivenessIdentity(key);
      && t' == t.(evaluations := t'.evaluations, evaluationClaims := t'.evaluationClaims, decision := t'.decision, status := t'.status)
      && id !in t'.evaluationClaims && OnlyAbout(t.evaluationClaims, t'.evaluationClaims, id)
      && id in t'.evaluations && t'.evaluations[id] == e.(stale := e.stale || !current) && OnlyAbout(t.evaluations, t'.evaluations, id)
      && (reply == StaleEvaluation <==> !current) && (reply == Unavailable <==> current && e.error.Some?)
      && if current && e.error.None? then
           && reply == Decided(e.outcome) && t'.status == NextStatus(t.status, DECISION_READY)
           && t'.decision == Some(Decision(decisionId, e.outcome, e.key, id, e.schemaVersion, e.assessment))
         else t'.decision == t.decision && t'.status == t.status
  {}

  /** A provider that cannot be used frees the claim, and answers for its capture while that is current. */
  lemma FailureTable(t: Tx, key: Key, code: string)
    ensures var t', id := FailEvaluation(t, key, code), LivenessIdentity(key);
      && t' == t.(evaluations := t'.evaluations, evaluationClaims := t'.evaluationClaims)
      && id !in t'.evaluationClaims && OnlyAbout(t.evaluationClaims, t'.evaluationClaims, id)
      && if t.capture.Some? && LivenessIdentity(t.capture.value.key) == id
         then t'.evaluations == t.evaluations[id := ErrorEvaluation(key, code)] else t'.evaluations == t.evaluations
  {}

  /**
   * A candidate becomes the authorized portrait exactly when the pass it was made for is still the current one; the
   * candidate of a superseded pass is discarded.
   */
  lemma PortraitTable(t: Tx, snapshot: Snapshot)
    ensures var (t', reply) := PromotePortrait(t, snapshot);
      var id, current := LivenessIdentity(snapshot.key),
        HasCurrentCanonicalPass(t) && t.decision.value.id == snapshot.decisionId && t.capture.value.key == snapshot.key;
      && t' == t.(portraitClaims := t'.portraitClaims, candidates := t'.candidates, portrait := t'.portrait,
                  authorization := t'.authorization, status := t'.status)
      && id !in t'.portraitClaims && OnlyAbout(t.portraitClaims, t'.portraitClaims, id)
      && OnlyAbout(t.candidates, t'.candidates, id) && id !in t'.candidates
      && (reply == StalePortrait <==> !current) && (reply == CandidateMissing <==> current && id !in t.candidates)
      && if current && id in t.candidates then
           && reply == Promoted && t'.portrait == Some(t.candidates[id]) && t'.status == NextStatus(t.status, PORTRAIT_READY)
           && t'.authorization == Some(Authorization(snapshot.decisionId, snapshot.key, id, Sha256Hex(t.candidates[id])))
         else t'.portrait == t.portrait && t'.authorization == t.authorization && t'.status == t.status
  {}

  // ---------------------------------------------------------------- deaths

  /** A worker that dies leaves the writes before its death, and none after. */
  lemma PromotionDeathTable(t: Tx, key: Key, e: Evaluation, decisionId: nat, at: Death)
    requires at in {ClaimCleared, EvaluationWritten, DecisionWritten}
    ensures var t', whole := PromotionDeath(t, key, e, decisionId, at), PromoteEvaluation(t, key, e, decisionId).0;
      && t' == t.(evaluationClaims := t'.evaluationClaims, evaluations := t'.evaluations, decision := t'.decision)
      && t'.evaluationClaims == whole.evaluationClaims
      && t'.evaluations == (if at == ClaimCleared then t.evaluations else whole.evaluations)
      && t'.decision == (if at == DecisionWritten then whole.decision else t.decision)
  {}

  lemma PortraitDeathTable(t: Tx, snapshot: Snapshot, at: Death)
    requires at in {ClaimCleared, PortraitWritten, CandidateRemoved, AuthorizationWritten}
    ensures var t', whole := PortraitDeath(t, snapshot, at), PromotePortrait(t, snapshot).0;
      && t' == t.(portraitClaims := t'.portraitClaims, candidates := t'.candidates, portrait := t'.portrait,
                  authorization := t'.authorization)
      && t'.portraitClaims == whole.portraitClaims
      && t'.portrait == (if at == ClaimCleared then t.portrait else whole.portrait)
      && t'.authorization == (if at == AuthorizationWritten then whole.authorization else t.authorization)
      && t'.candidates == (if at == ClaimCleared || (at == PortraitWritten && SnapshotMatchesCurrent(t, snapshot))
                           then t.candidates else whole.candidates)
  {
    if SnapshotMatchesCurrent(t, snapshot) {
    } else {
    }
  }

  /** Before a claim is granted an expired one is cleared; the status of a last attempt precedes its record. */
  lemma ClaimDeathTable(t: Tx, cfg: Config, key: Key, now: real, attemptId: Bytes, upload: bool)
    ensures EvaluationClaimDeath(t, cfg, key, now) == t.(evaluationClaims :=
      if ClaimEvaluation(t, cfg, key, now).1 == Claimed then t.evaluationClaims - {LivenessIdentity(key)} else t.evaluationClaims)
    ensures PortraitClaimDeath(t, cfg, now) == t.(portraitClaims :=
      if ClaimPortrait(t, cfg, now).1.Process? then t.portraitClaims - {LivenessIdentity(t.capture.value.key)} else t.portraitClaims)
    ensures RegistrationDeath(t, cfg, attemptId, upload) ==
            t.(status := RegisterAttempt(t, cfg, attemptId, None, upload).0.status)
  {}

  // ---------------------------------------------------------------- submit

  /** A submit that is refused makes no post and leaves everything as it was; the first reason that applies is given. */
  lemma RefusalTable(t: Tx, input: SubmitInput)
    requires input.script != []
    ensures var (t', reply, posts) := Submit(t, input);
      && (reply == AlreadyTerminal <==> t.status in {COMPLETED, ATTEMPT_LIMIT_EXCEEDED, FAILED})
      && (reply == NotReady <==> reply != AlreadyTerminal && !PortraitAuthorizationCurrent(t))
      && (reply == IntegrityFailed <==>
          reply != AlreadyTerminal && PortraitAuthorizationCurrent(t) && !([255, 216, 255] <= t.portrait.value))
      && (reply == NotConfigured <==>
          reply !in {AlreadyTerminal, NotReady, IntegrityFailed} && !input.consumerConfigured)
      && (reply.Duplicate? <==>
          reply !in {AlreadyTerminal, NotReady, IntegrityFailed, NotConfigured} && t.callback.Acknowledged?)
      && (reply.Duplicate? ==> reply.redirect == t.callback.redirect)
      && (reply in {AlreadyTerminal, NotReady, IntegrityFailed, NotConfigured} || reply.Duplicate? ==> t' == t && posts == 0)
  {}

  /** Nothing refuses the submit, and its worker lives. */
  predicate Delivers(t: Tx, input: SubmitInput) {
    && !Terminal(t.status) && PortraitAuthorizationCurrent(t) && JpegMagic(t.portrait.value)
    && input.consumerConfigured && !t.callback.Acknowledged? && input.crash.NoCrash?
  }

  /** Otherwise the last response met decides what is recorded and what the client is told. */
  lemma DeliveryTable(t: Tx, input: SubmitInput)
    requires input.script != [] && Delivers(t, input)
    ensures var (t', reply, posts) := Submit(t, input);
      && (posts == 0 <==> input.secretMissing) && posts <= |input.script|
      && if input.secretMissing then
           reply == CallbackFailed && t' == t.(callback := NotDelivered(true), status := CALLBACK_FAILED)
         else if AcceptedBy(input.script[posts - 1]) then
           var redirect := input.script[posts - 1].body.redirect;
           if redirect.Some? && redirect.value != "" && input.redirectAllowed(redirect.value) then
             reply == Ready(redirect.value) && t' == t.(callback := Acknowledged(redirect.value), status := COMPLETED)
           else
             reply == InvalidRedirect && t' == t.(callback := NotDelivered(false), status := CALLBACK_FAILED)
         else
           && reply == CallbackFailed && t' == t.(callback := NotDelivered(t'.callback.retryable), status := CALLBACK_FAILED)
           && t'.callback.NotDelivered?
           && (t'.callback.retryable <==> FailsForNow(input.script[posts - 1]))
           && (t'.callback.retryable ==> posts == |input.script|)
  {
    VerdictTable(input.script);
  }

  /** A worker that dies among its posts leaves the transaction as it was; one that dies later leaves only the record. */
  lemma SubmitDeathTable(t: Tx, input: SubmitInput, made: nat)
    requires input.script != [] && Delivers(t, input)
    ensures var (t', reply, posts) := Submit(t, input);
      && Submit(t, input.(crash := AfterPosts(made))) == (t, Died, if made <= posts then made else posts)
      && Submit(t, input.(crash := AfterRecord)) == (t'.(status := t.status), Died, posts)
  {}

  predicate FailsForNow(r: Response) {
    r.NetworkFailure? || r.status == 429 || r.status >= 500
  }

  /** What a delivery records as acknowledged, or completes. */
  predicate Acknowledges(t: Tx, t': Tx) {
    (t'.callback.Acknowledged? && t'.callback != t.callback) || (t'.status == COMPLETED && t.status != COMPLETED)
  }

  /** The last of the posts was taken, and named the redirect that is on record. */
  predicate Earned(input: SubmitInput, t': Tx, posts: nat) {
    && 1 <= posts <= |input.script| && AcceptedBy(input.script[posts - 1])
    && t'.callback.Acknowledged? && t'.callback.redirect != "" && input.redirectAllowed(t'.callback.redirect)
    && input.script[posts - 1].body.redirect == Some(t'.callback.redirect)
  }

  lemma DeliverEarns(t: Tx, input: SubmitInput)
    requires input.script != []
    ensures var (t', reply, posts) := Deliver(t, input);
      Acknowledges(t, t') ==> Earned(input, t', posts) && (reply.Ready? ==> reply.redirect == t'.callback.redirect)
  {
    VerdictTable(input.script);
  }

  /** However the worker fares, an acknowledgement names the allowed redirect of a 2xx JSON answer to the last post. */
  lemma AcknowledgementIsEarned(t: Tx, input: SubmitInput)
    requires input.script != []
    ensures var (t', reply, posts) := Submit(t, input);
      Acknowledges(t, t') ==> Earned(input, t', posts) && (reply.Ready? ==> reply.redirect == t'.callback.redirect)
  {
    DeliverEarns(t, input);
  }
}
