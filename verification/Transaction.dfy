/**
 * The persisted state of one transaction and what each locked section of the browser API does to it.
 * Sections are functions on values; `TransactionStore` runs them on fields.
 */
module Transaction {
  import opened Wrappers
  import opened Digests
  import opened PersonState
  import opened Integrity
  import opened Callback
  import opened Retries

  datatype Status =
    | LAUNCHED | CREATED | CAPTURE_READY | VLM_EVALUATED | PORTRAIT_PROCESSING | PORTRAIT_READY | DECISION_READY
    | SUBMITTED | COMPLETED | CALLBACK_FAILED | ATTEMPT_LIMIT_EXCEEDED | FAILED | TECHNICAL_ERROR

  predicate Terminal(s: Status) {
    s in {COMPLETED, ATTEMPT_LIMIT_EXCEEDED, FAILED}
  }

  /** `update_transaction_status`: terminal states never regress to a non-terminal one. */
  function NextStatus(current: Status, new_: Status): Status {
    if Terminal(current) && !Terminal(new_) then current else new_
  }

  /**
   * `vlmTimeout` sets the lifetime of claims; `providerTimeout` limits one call of the configured provider, and is
   * another setting for the self-hosted one. `decodes` is the verdict of the image library on an upload.
   */
  datatype Config = Config(
    attemptLimit: nat, warningAt: nat, warningAgainAt: nat,
    vlmTimeout: real, providerTimeout: real, vlmMaxRetries: nat, callbackMaxRetries: nat,
    decodes: Bytes -> bool)

  /** Attempt ids are kept as digests. */
  datatype Attempts = Attempts(count: nat, consumed: seq<Bytes>, uploaded: seq<Bytes>, reasons: seq<string>)

  /** `capture/capture.json`. */
  datatype Capture = Capture(key: Key, faceBox: Option<FaceBox>)

  /** Canonical decision with the capture it is bound to. */
  datatype Decision = Decision(
    id: nat, outcome: Outcome, key: Key, identity: Bytes, schemaVersion: Option<string>, assessment: Assessment)

  /** `portrait/authorization.json`. */
  datatype Authorization = Authorization(decisionId: nat, key: Key, identity: Bytes, portraitSha: Bytes)

  datatype CallbackState = NotSent | NotDelivered(retryable: bool) | Acknowledged(redirect: string)

  datatype Tx = Tx(
    consumerId: Bytes, externalId: Bytes,
    status: Status, attempts: Attempts,
    original: Option<Bytes>, capture: Option<Capture>,
    decision: Option<Decision>, portrait: Option<Bytes>, authorization: Option<Authorization>,
    evaluations: map<Bytes, Evaluation>,
    evaluationClaims: map<Bytes, real>, portraitClaims: map<Bytes, real>,
    candidates: map<Bytes, Bytes>, callback: CallbackState)

  function Launched(consumerId: Bytes, externalId: Bytes): Tx {
    Tx(consumerId, externalId, LAUNCHED, Attempts(0, [], [], []), None, None, None, None, None,
       map[], map[], map[], map[], NotSent)
  }

  // ---------------------------------------------------------------- current bindings

  predicate CurrentKeyIs(t: Tx, key: Key) {
    t.capture.Some? && t.capture.value.key == key
  }

  /** The stale checks of the liveness section compare identities. */
  predicate CurrentIdentityIs(t: Tx, identity: Bytes) {
    t.capture.Some? && LivenessIdentity(t.capture.value.key) == identity
  }

  /** A decision of any outcome bound to the current capture. */
  predicate DecisionBound(t: Tx) {
    t.decision.Some? && CurrentKeyIs(t, t.decision.value.key)
  }

  predicate HasCurrentCanonicalPass(t: Tx) {
    && t.decision.Some? && t.decision.value.outcome == PASS
    && CurrentKeyIs(t, t.decision.value.key)
    && t.decision.value.identity == LivenessIdentity(t.decision.value.key)
    && t.decision.value.schemaVersion == Some(VLM_SCHEMA_VERSION)
    && IsPortraitEligible(t.decision.value.assessment)
  }

  predicate PortraitAuthorizationCurrent(t: Tx) {
    && HasCurrentCanonicalPass(t)
    && t.authorization.Some? && t.portrait.Some?
    && t.authorization.value.decisionId == t.decision.value.id
    && CurrentKeyIs(t, t.authorization.value.key)
    && t.authorization.value.identity == LivenessIdentity(t.authorization.value.key)
    && t.authorization.value.portraitSha == Sha256Hex(t.portrait.value)
  }

  /** Decision and capture that authorize one portrait run. */
  datatype Snapshot = Snapshot(decisionId: nat, key: Key)

  function CaptureSnapshot(t: Tx): Option<Snapshot> {
    if HasCurrentCanonicalPass(t) then Some(Snapshot(t.decision.value.id, t.capture.value.key)) else None
  }

  predicate SnapshotMatchesCurrent(t: Tx, snapshot: Snapshot) {
    CaptureSnapshot(t) == Some(snapshot)
  }

  // ---------------------------------------------------------------- attempts

  datatype AttemptReply = UploadRejected | Registered(count: nat, warning: bool, terminal: bool)

  function AddUnlessPresent<T(==)>(s: seq<T>, x: T): seq<T> {
    if x in s then s else s + [x]
  }

  function RegisteredAttempts(a: Attempts, idHash: Bytes, reason: Option<string>, upload: bool): Attempts {
    Attempts(
      if idHash in a.consumed then a.count else a.count + 1,
      AddUnlessPresent(a.consumed, idHash),
      if upload then AddUnlessPresent(a.uploaded, idHash) else a.uploaded,
      if idHash !in a.consumed && reason.Some? then AddUnlessPresent(a.reasons, reason.value) else a.reasons)
  }

  function RegisterAttempt(t: Tx, cfg: Config, attemptId: Bytes, reason: Option<string>, upload: bool): (Tx, AttemptReply) {
    var idHash := Sha256Hex(attemptId);
    if upload && idHash in t.attempts.uploaded then (t, UploadRejected)
    else
      var a := RegisteredAttempts(t.attempts, idHash, reason, upload);
      var terminal := a.count >= cfg.attemptLimit;
      (t.(attempts := a, status := if terminal then NextStatus(t.status, ATTEMPT_LIMIT_EXCEEDED) else t.status),
       Registered(a.count, a.count in {cfg.warningAt, cfg.warningAgainAt}, terminal))
  }

  // ---------------------------------------------------------------- capture

  predicate JpegMagic(data: Bytes) {
    |data| >= 3 && data[..3] == [255, 216, 255]
  }

  /** An upload that gets past validation: a named attempt and a JPEG that decodes. */
  predicate Uploadable(cfg: Config, attemptId: Bytes, data: Bytes) {
    attemptId != [] && JpegMagic(data) && cfg.decodes(data)
  }

  /** Which superseded artifacts could not be removed. */
  datatype Leftover = Leftover(decision: bool, portrait: bool, authorization: bool)

  function InvalidateAuthorization(t: Tx, left: Leftover): Tx {
    t.(decision := if left.decision then t.decision else None,
       portrait := if left.portrait then t.portrait else None,
       authorization := if left.authorization then t.authorization else None)
  }

  function FinishCapture(t: Tx, left: Leftover): Tx {
    InvalidateAuthorization(t, left).(status := NextStatus(t.status, CAPTURE_READY))
  }

  /** The whole locked capture section, for an attempt that is neither rejected nor the last one. */
  function AcceptCapture(t: Tx, cfg: Config, attemptId: Bytes, data: Bytes, faceBox: Option<FaceBox>, left: Leftover): Tx {
    var registered := RegisterAttempt(t, cfg, attemptId, None, true).0;
    FinishCapture(registered.(original := Some(data), capture := Some(Capture(Key(attemptId, Sha256Hex(data)), faceBox))), left)
  }

  // ---------------------------------------------------------------- liveness

  datatype ClaimReply = Cached(evaluation: Evaluation) | InProgress | Claimed

  predicate ClaimStale(cfg: Config, started: real, now: real) {
    now - started > ClaimLifetime(cfg.vlmTimeout, cfg.vlmMaxRetries)
  }

  /** A reusable evaluation is on record under `id`. */
  predicate Reusable(t: Tx, id: Bytes) {
    id in t.evaluations && IsCurrentEvaluation(t.evaluations[id])
  }

  function ClaimEvaluation(t: Tx, cfg: Config, key: Key, now: real): (Tx, ClaimReply) {
    var id := LivenessIdentity(key);
    if Reusable(t, id) then (t, Cached(t.evaluations[id]))
    else if id in t.evaluationClaims && !ClaimStale(cfg, t.evaluationClaims[id], now) then (t, InProgress)
    else (t.(evaluationClaims := t.evaluationClaims[id := now]), Claimed)
  }

  datatype PromoteReply = StaleEvaluation | Unavailable | Decided(outcome: Outcome)

  /** The provider could not be used at all: the failure is cached while its capture is current. */
  function FailEvaluation(t: Tx, key: Key, code: string): Tx {
    var id := LivenessIdentity(key);
    var cleared := t.(evaluationClaims := t.evaluationClaims - {id});
    if CurrentIdentityIs(t, id) then cleared.(evaluations := t.evaluations[id := ErrorEvaluation(key, code)]) else cleared
  }

  function PromoteEvaluation(t: Tx, key: Key, evaluation: Evaluation, decisionId: nat): (Tx, PromoteReply) {
    var id := LivenessIdentity(key);
    var cleared := t.(evaluationClaims := t.evaluationClaims - {id});
    if !CurrentIdentityIs(t, id) then
      (cleared.(evaluations := t.evaluations[id := evaluation.(stale := true)]), StaleEvaluation)
    else
      var persisted := cleared.(evaluations := t.evaluations[id := evaluation]);
      if evaluation.error.Some? then (persisted, Unavailable)
      else
        var decision := Decision(decisionId, evaluation.outcome, evaluation.key, id, evaluation.schemaVersion, evaluation.assessment);
        (persisted.(decision := Some(decision), status := NextStatus(t.status, DECISION_READY)), Decided(evaluation.outcome))
  }

  // ---------------------------------------------------------------- portrait

  datatype PortraitReply = Reused | PortraitNotReady | PortraitInProgress | Process(snapshot: Snapshot)

  function ClaimPortrait(t: Tx, cfg: Config, now: real): (Tx, PortraitReply) {
    if PortraitAuthorizationCurrent(t) then (t, Reused)
    else if CaptureSnapshot(t).None? then (t, PortraitNotReady)
    else
      var snapshot := CaptureSnapshot(t).value;
      var id := LivenessIdentity(snapshot.key);
      if id in t.portraitClaims && !ClaimStale(cfg, t.portraitClaims[id], now) then (t, PortraitInProgress)
      else (t.(portraitClaims := t.portraitClaims[id := now]), Process(snapshot))
  }

  function ClearPortraitClaim(t: Tx, key: Key): Tx {
    t.(portraitClaims := t.portraitClaims - {LivenessIdentity(key)})
  }

  datatype PortraitPromoteReply = StalePortrait | CandidateMissing | Promoted

  function PromotePortrait(t: Tx, snapshot: Snapshot): (Tx, PortraitPromoteReply) {
    var id := LivenessIdentity(snapshot.key);
    var cleared := ClearPortraitClaim(t, snapshot.key);
    if !SnapshotMatchesCurrent(t, snapshot) then (cleared.(candidates := t.candidates - {id}), StalePortrait)
    else if id !in t.candidates then (cleared, CandidateMissing)
    else
      var portrait := t.candidates[id];
      var authorization := Authorization(snapshot.decisionId, snapshot.key, id, Sha256Hex(portrait));
      (cleared.(portrait := Some(portrait), candidates := t.candidates - {id},
                authorization := Some(authorization), status := NextStatus(t.status, PORTRAIT_READY)),
       Promoted)
  }

  // ---------------------------------------------------------------- deaths inside a locked section

  datatype CaptureStage = Begun | ImageWritten | MetaWritten

  /** The last write a worker makes before it dies inside its locked section. */
  datatype Death =
    | InCapture(stage: CaptureStage)
    | LimitWritten
    | ClaimCleared
    | EvaluationWritten
    | DecisionWritten
    | PortraitWritten
    | CandidateRemoved
    | AuthorizationWritten

  /** The status moves to the limit before the attempt is recorded. */
  function RegistrationDeath(t: Tx, cfg: Config, attemptId: Bytes, upload: bool): Tx {
    t.(status := RegisterAttempt(t, cfg, attemptId, None, upload).0.status)
  }

  /** An expired claim is cleared before a new one is written. */
  function EvaluationClaimDeath(t: Tx, cfg: Config, key: Key, now: real): Tx {
    if ClaimEvaluation(t, cfg, key, now).1.Claimed? then FreeEvaluation(t, key) else t
  }

  function PortraitClaimDeath(t: Tx, cfg: Config, now: real): Tx {
    var reply := ClaimPortrait(t, cfg, now).1;
    if reply.Process? then ClearPortraitClaim(t, reply.snapshot.key) else t
  }

  function FreeEvaluation(t: Tx, key: Key): Tx {
    t.(evaluationClaims := t.evaluationClaims - {LivenessIdentity(key)})
  }

  /** The claim is cleared first, then come evaluation, decision and status. */
  function PromotionDeath(t: Tx, key: Key, evaluation: Evaluation, decisionId: nat, at: Death): Tx {
    var whole := PromoteEvaluation(t, key, evaluation, decisionId).0;
    match at
    case EvaluationWritten => whole.(decision := t.decision, status := t.status)
    case DecisionWritten => whole.(status := t.status)
    case _ => FreeEvaluation(t, key)
  }

  /** The claim is cleared first, then the portrait is written, its candidate removed, the authorization and the status written. */
  function PortraitDeath(t: Tx, snapshot: Snapshot, at: Death): Tx {
    var (whole, reply) := PromotePortrait(t, snapshot);
    match at
    case PortraitWritten =>
      whole.(candidates := if reply.Promoted? then t.candidates else whole.candidates, authorization := t.authorization, status := t.status)
    case CandidateRemoved => whole.(authorization := t.authorization, status := t.status)
    case AuthorizationWritten => whole.(status := t.status)
    case _ => ClearPortraitClaim(t, snapshot.key)
  }

  // ---------------------------------------------------------------- submit

  /** Where a worker can die while it delivers: after some posts, or between the callback record and the status. */
  datatype CrashPoint = NoCrash | AfterPosts(made: nat) | AfterRecord

  datatype SubmitInput = SubmitInput(
    consumerConfigured: bool, script: seq<Response>, secretMissing: bool, redirectAllowed: string -> bool, crash: CrashPoint)

  datatype SubmitReply =
    | AlreadyTerminal | NotReady | IntegrityFailed | NotConfigured | Duplicate(redirect: string)
    | CallbackFailed | InvalidRedirect | Ready(redirect: string) | Died

  function ConcludeDelivery(delivery: Delivery, redirectAllowed: string -> bool): (CallbackState, Status, SubmitReply) {
    match delivery
    case TransportError => (NotDelivered(true), CALLBACK_FAILED, CallbackFailed)
    case TerminalError => (NotDelivered(false), CALLBACK_FAILED, CallbackFailed)
    case Delivered(redirect) =>
      if redirect.None? || redirect.value == "" || !redirectAllowed(redirect.value) then (NotDelivered(false), CALLBACK_FAILED, InvalidRedirect)
      else (Acknowledged(redirect.value), COMPLETED, Ready(redirect.value))
  }

  /** State, reply and number of posts made. */
  function Submit(t: Tx, input: SubmitInput): (Tx, SubmitReply, nat)
    requires input.script != []
  {
    if Terminal(t.status) then (t, AlreadyTerminal, 0)
    else if !PortraitAuthorizationCurrent(t) then (t, NotReady, 0)
    else if !JpegMagic(t.portrait.value) then (t, IntegrityFailed, 0)
    else if !input.consumerConfigured then (t, NotConfigured, 0)
    else if t.callback.Acknowledged? then (t, Duplicate(t.callback.redirect), 0)
    else Deliver(t, input)
  }

  /** The delivery itself, once every guard has been passed. */
  function Deliver(t: Tx, input: SubmitInput): (Tx, SubmitReply, nat)
    requires input.script != []
  {
    var posts := if input.secretMissing then 0 else Posts(input.script);
    var delivery := if input.secretMissing then TransportError else Verdict(input.script);
    if input.crash.AfterPosts? then (t, Died, if input.crash.made < posts then input.crash.made else posts)
    else
      var (record, status, reply) := ConcludeDelivery(delivery, input.redirectAllowed);
      var recorded := t.(callback := record);
      if input.crash.AfterRecord? then (recorded, Died, posts)
      else (recorded.(status := NextStatus(t.status, status)), reply, posts)
  }
}
