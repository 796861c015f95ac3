/** What every action of the protocol keeps. */
module ProtocolInvariant {
  import opened Wrappers
  import opened Digests
  import opened PersonState
  import opened Callback
  import opened Transaction
  import opened Protocol

  /** The capture a request works for, once it knows it. */
  function OpKey(o: Op): Option<Key> {
    match o
    case LivenessKeyRead(key) => Some(key)
    case LivenessClaimed(key, _) => Some(key)
    case LivenessImageRead(key, _, _) => Some(key)
    case LivenessEvaluated(key, _, _) => Some(key)
    case LivenessUnusable(key, _, _) => Some(key)
    case PortraitClaimed(snapshot, _, _) => Some(snapshot.key)
    case PortraitImageRead(snapshot, _, _, _) => Some(snapshot.key)
    case PortraitStaged(snapshot) => Some(snapshot.key)
    case PortraitFailed(snapshot) => Some(snapshot.key)
    case _ => None
  }

  function OpImage(o: Op): Option<Bytes> {
    match o
    case LivenessImageRead(_, _, image) => Some(image)
    case PortraitImageRead(_, _, _, source) => Some(source)
    case _ => None
  }

  function OpSnapshot(o: Op): Option<Snapshot> {
    match o
    case PortraitClaimed(snapshot, _, _) => Some(snapshot)
    case PortraitImageRead(snapshot, _, _, _) => Some(snapshot)
    case PortraitStaged(snapshot) => Some(snapshot)
    case PortraitFailed(snapshot) => Some(snapshot)
    case _ => None
  }

  /** `key` is the stored capture and the stored image is still its image. */
  predicate Settled(s: System, key: Key) {
    CurrentKeyIs(s.tx, key) && (s.lock.None? || s.lock.value.stage.Begun?) && !s.torn
  }

  predicate Judged(s: System, a: Assessment) {
    s.tx.original.Some? && (s.tx.original.value, a) in s.evaluated
  }

  predicate MadeFromOriginal(s: System, portrait: Bytes) {
    s.tx.original.Some? && (s.tx.original.value, portrait) in s.produced
  }

  /** Accepted captures have distinct attempts; the stored one is the last; a pending one is new. */
  ghost predicate InvCaptures(s: System) {
    && (forall i, j :: 0 <= i < j < |s.accepted| ==> s.accepted[i].attemptId != s.accepted[j].attemptId)
    && (forall k :: k in s.accepted ==> COLON !in k.sha && Sha256Hex(k.attemptId) in s.tx.attempts.uploaded)
    && (s.tx.capture.None? <==> s.accepted == [])
    && (s.tx.capture.Some? ==> s.tx.capture.value.key == s.accepted[|s.accepted| - 1])
    && (forall k :: Settled(s, k) ==> s.tx.original.Some? && k.sha == Sha256Hex(s.tx.original.value))
    && (s.lock.Some? ==> LockOk(s, s.lock.value))
  }

  ghost predicate LockOk(s: System, l: CaptureLock) {
    && l.key.sha == Sha256Hex(l.data) && Sha256Hex(l.key.attemptId) in s.tx.attempts.uploaded
    && (l.stage.MetaWritten? ==> CurrentKeyIs(s.tx, l.key))
    && (!l.stage.MetaWritten? ==> forall k :: k in s.accepted ==> k.attemptId != l.key.attemptId)
    && (!l.stage.Begun? ==> s.tx.original == Some(l.data))
  }

  /** While a capture holds the lock, nothing but a fresh key read can know of it. */
  predicate Pending(s: System, key: Key) {
    s.lock.Some? && s.lock.value.key == key
  }

  ghost predicate OpOk(s: System, o: Op) {
    && (OpKey(o).Some? ==> OpKey(o).value in s.accepted && (Pending(s, OpKey(o).value) ==> o.LivenessKeyRead?))
    && (OpImage(o).Some? && Settled(s, OpKey(o).value) ==> OpImage(o) == s.tx.original)
    && (o.LivenessEvaluated? ==>
      && o.evaluation.key == o.key
      && (o.evaluation.error.None? ==>
        && o.evaluation == AssessedEvaluation(o.key, o.evaluation.assessment)
        && (Settled(s, o.key) ==> Judged(s, o.evaluation.assessment))))
    && (OpSnapshot(o).Some? ==> OpSnapshot(o).value.decisionId < s.nextDecision)
  }

  ghost predicate InvOps(s: System) {
    forall i :: i in s.ops ==> OpOk(s, s.ops[i])
  }

  /** Evidence for a decision, a candidate or an authorization of the settled capture. */
  ghost predicate DecisionOk(s: System, d: Decision) {
    && d.key in s.accepted && !Pending(s, d.key) && d.id < s.nextDecision
    && d.identity == LivenessIdentity(d.key) && d.schemaVersion == Some(VLM_SCHEMA_VERSION)
    && d.outcome == MapToOutcome(d.assessment)
    && (Settled(s, d.key) ==> Judged(s, d.assessment))
  }

  ghost predicate AuthorizationOk(s: System, a: Authorization) {
    && a.key in s.accepted && !Pending(s, a.key) && a.decisionId < s.nextDecision
    && (Settled(s, a.key) && s.tx.portrait.Some? && a.portraitSha == Sha256Hex(s.tx.portrait.value) ==>
        MadeFromOriginal(s, s.tx.portrait.value))
  }

  /** `id` is the identity of some accepted capture, and not of the pending one. */
  ghost predicate CandidateOk(s: System, id: Bytes, candidate: Bytes) {
    && (exists k :: k in s.accepted && LivenessIdentity(k) == id && !Pending(s, k))
    && (forall k :: Settled(s, k) && LivenessIdentity(k) == id ==> MadeFromOriginal(s, candidate))
  }

  ghost predicate InvEvidence(s: System) {
    && (s.tx.decision.Some? ==> DecisionOk(s, s.tx.decision.value))
    && (s.tx.authorization.Some? ==> AuthorizationOk(s, s.tx.authorization.value))
    && (forall id :: id in s.tx.candidates ==> CandidateOk(s, id, s.tx.candidates[id]))
  }

  /** With no lock held, a non-terminal status says which artifacts are current. */
  predicate StatusAgrees(t: Tx) {
    && (t.status == LAUNCHED <==> t.capture.None?)
    && (t.status == CAPTURE_READY <==> t.capture.Some? && !DecisionBound(t))
    && (t.status == DECISION_READY <==> DecisionBound(t) && !PortraitAuthorizationCurrent(t))
    && (t.status in {PORTRAIT_READY, CALLBACK_FAILED} <==> PortraitAuthorizationCurrent(t))
  }

  /** What the artifacts say while the status is behind this write. */
  predicate Lagging(t: Tx, last: Death) {
    match last
    case InCapture(_) => t.capture.Some? && !DecisionBound(t)
    case DecisionWritten => DecisionBound(t) && !PortraitAuthorizationCurrent(t)
    case AuthorizationWritten => PortraitAuthorizationCurrent(t)
    case _ => HasCurrentCanonicalPass(t)
  }

  predicate KnownStatus(status: Status) {
    status in {LAUNCHED, CAPTURE_READY, DECISION_READY, PORTRAIT_READY, CALLBACK_FAILED, COMPLETED, ATTEMPT_LIMIT_EXCEEDED}
  }

  ghost predicate InvStatus(s: System) {
    && KnownStatus(s.tx.status)
    && ((s.lock.None? || !s.lock.value.stage.MetaWritten?) && !Terminal(s.tx.status) ==>
          if s.behind.Some? then Lagging(s.tx, s.behind.value) else StatusAgrees(s.tx))
    && (s.tx.status == COMPLETED ==> s.tx.callback.Acknowledged?)
  }

  /** The post carried a portrait of the bytes of its capture, and those bytes were judged eligible. */
  ghost predicate Proven(s: System, send: Send) {
    && send.original.Some? && send.key.sha == Sha256Hex(send.original.value)
    && (send.original.value, send.portrait) in s.produced
    && (send.original.value, send.assessment) in s.evaluated
  }

  ghost predicate SendOk(s: System, send: Send) {
    && send.eventId == EventId(s.tx.consumerId, s.tx.externalId)
    && send.key in s.accepted && IsPortraitEligible(send.assessment)
    && (send.torn ==> InCapture(ImageWritten) in s.died)
    && (!send.torn ==> Proven(s, send))
  }

  /** What is torn or behind became so by a death. */
  predicate InvDeaths(s: System) {
    && (s.torn ==> InCapture(ImageWritten) in s.died)
    && (s.behind.Some? ==> s.behind.value in s.died && LeavesBehind(s.behind.value))
  }

  /** The writes that call for a status. */
  predicate LeavesBehind(d: Death) {
    d in {InCapture(MetaWritten), DecisionWritten, PortraitWritten, CandidateRemoved, AuthorizationWritten}
  }

  ghost predicate InvSends(s: System) {
    forall send :: send in s.sends ==> SendOk(s, send)
  }

  ghost predicate Inv(s: System) {
    InvCaptures(s) && InvOps(s) && InvEvidence(s) && InvStatus(s) && InvSends(s) && InvDeaths(s)
  }

  lemma InitialInv(s: System)
    requires Initial(s)
    ensures Inv(s)
  {}

  // ---------------------------------------------------------------- frames

  /** The captures are as they were, and what is on record about them only grew. */
  ghost predicate SameCaptures(s: System, s': System) {
    && s'.tx.original == s.tx.original && s'.tx.capture == s.tx.capture
    && s'.tx.consumerId == s.tx.consumerId && s'.tx.externalId == s.tx.externalId
    && s'.lock == s.lock && s'.accepted == s.accepted && s.nextDecision <= s'.nextDecision
    && (forall h :: h in s.tx.attempts.uploaded ==> h in s'.tx.attempts.uploaded)
    && s.evaluated <= s'.evaluated && s.produced <= s'.produced
    && s.died <= s'.died && s'.torn == s.torn && (s'.behind.None? || s'.behind == s.behind || BehindItsDeath(s'))
  }

  predicate BehindItsDeath(s: System) {
    s.behind.Some? && s.behind.value in s.died && LeavesBehind(s.behind.value)
  }

  /** Neither have decision, portrait, authorization and candidates changed. */
  ghost predicate SameBindings(s: System, s': System) {
    && SameCaptures(s, s') && s'.behind == s.behind
    && s'.tx.decision == s.tx.decision && s'.tx.portrait == s.tx.portrait
    && s'.tx.authorization == s.tx.authorization && s'.tx.candidates == s.tx.candidates
  }

  /** Each request is an old one or a good one. */
  ghost predicate OpsFollow(s: System, s': System) {
    forall i :: i in s'.ops ==> (i in s.ops && s'.ops[i] == s.ops[i]) || OpOk(s', s'.ops[i])
  }

  lemma FrameOp(s: System, s': System, o: Op)
    requires SameCaptures(s, s') && OpOk(s, o)
    ensures OpOk(s', o)
  {}

  lemma FrameOps(s: System, s': System)
    requires SameCaptures(s, s') && InvOps(s) && OpsFollow(s, s')
    ensures InvOps(s')
  {
    forall i | i in s'.ops ensures OpOk(s', s'.ops[i]) {
      if i in s.ops && s'.ops[i] == s.ops[i] {
        FrameOp(s, s', s.ops[i]);
      }
    }
  }

  lemma FrameCaptures(s: System, s': System)
    requires SameCaptures(s, s') && InvCaptures(s)
    ensures InvCaptures(s')
  {}

  lemma FrameEvidence(s: System, s': System)
    requires SameBindings(s, s') && InvEvidence(s)
    ensures InvEvidence(s')
  {}

  lemma FrameSends(s: System, s': System)
    requires SameCaptures(s, s') && s'.sends == s.sends && InvSends(s)
    ensures InvSends(s')
  {}

  /** The parts of the invariant that do not speak of decision, portrait, authorization and candidates. */
  lemma FrameRest(s: System, s': System)
    requires Inv(s) && SameCaptures(s, s') && OpsFollow(s, s') && s'.sends == s.sends
    ensures InvCaptures(s') && InvOps(s') && InvSends(s') && InvDeaths(s')
  {
    FrameCaptures(s, s');
    FrameOps(s, s');
    FrameSends(s, s');
  }

  lemma FrameStatus(s: System, s': System)
    requires SameCaptures(s, s') && SameAuthority(s.tx, s'.tx) && s'.behind == s.behind && InvStatus(s)
    ensures InvStatus(s')
  {}

  /** Decision, portrait, authorization, status and callback are as they were. */
  predicate SameAuthority(t: Tx, t': Tx) {
    && t'.original == t.original && t'.capture == t.capture && t'.decision == t.decision
    && t'.portrait == t.portrait && t'.authorization == t.authorization && t'.status == t.status && t'.callback == t.callback
  }

  lemma FrameBound(s: System, s': System)
    requires SameCaptures(s, s') && SameAuthority(s.tx, s'.tx) && InvEvidence(s)
    ensures s'.tx.decision.Some? ==> DecisionOk(s', s'.tx.decision.value)
    ensures s'.tx.authorization.Some? ==> AuthorizationOk(s', s'.tx.authorization.value)
  {}

  lemma FrameCandidate(s: System, s': System, id: Bytes, candidate: Bytes)
    requires SameCaptures(s, s') && CandidateOk(s, id, candidate)
    ensures CandidateOk(s', id, candidate)
  {}

  /** Only the candidates changed, and each of them has its evidence. */
  lemma CandidatesKeep(s: System, s': System)
    requires Inv(s) && SameCaptures(s, s') && OpsFollow(s, s') && s'.sends == s.sends && SameAuthority(s.tx, s'.tx)
    requires s'.behind == s.behind
    requires forall id :: id in s'.tx.candidates ==> CandidateOk(s', id, s'.tx.candidates[id])
    ensures Inv(s')
  {
    FrameRest(s, s');
    FrameBound(s, s');
    FrameStatus(s, s');
  }

  lemma FrameKeeps(s: System, s': System)
    requires Inv(s) && SameBindings(s, s') && OpsFollow(s, s')
    requires s'.tx.status == s.tx.status && s'.tx.callback == s.tx.callback && s'.sends == s.sends
    ensures Inv(s')
  {
    FrameCaptures(s, s');
    FrameOps(s, s');
    FrameEvidence(s, s');
    FrameStatus(s, s');
    FrameSends(s, s');
  }

  // ---------------------------------------------------------------- steps that only move a request

  /** A request may move to any good state. */
  lemma MoveKeeps(s: System, op: nat, o: Op)
    requires Inv(s) && OpOk(s, o)
    ensures Inv(With(s, op, o))
  {
    FrameOp(s, With(s, op, o), o);
    FrameKeeps(s, With(s, op, o));
  }

  lemma CrashKeeps(s: System, op: nat)
    requires Inv(s)
    ensures Inv(Without(s, op))
  {
    FrameKeeps(s, Without(s, op));
  }

  lemma ReadKeyKeeps(s: System, op: nat)
    requires Inv(s)
    ensures Inv(DoReadKey(s, op))
  {
    if s.tx.capture.None? {
      CrashKeeps(s, op);
    } else {
      MoveKeeps(s, op, LivenessKeyRead(s.tx.capture.value.key));
    }
  }

  lemma ReadImageKeeps(s: System, op: nat)
    requires Inv(s) && op in s.ops && (s.ops[op].LivenessClaimed? || s.ops[op].PortraitClaimed?) && s.tx.original.Some?
    ensures Inv(DoReadImage(s, op))
  {
    assert OpOk(s, s.ops[op]);
    MoveKeeps(s, op, DoReadImage(s, op).ops[op]);
  }

  lemma ProviderAssessesKeeps(s: System, op: nat, a: Assessment)
    requires Inv(s) && op in s.ops && s.ops[op].LivenessImageRead?
    ensures Inv(DoProviderAssesses(s, op, a))
  {
    var o := s.ops[op];
    var recorded := s.(evaluated := s.evaluated + {(o.image, a)});
    assert OpOk(s, o);
    FrameKeeps(s, recorded);
    MoveKeeps(recorded, op, LivenessEvaluated(o.key, o.since, AssessedEvaluation(o.key, a)));
  }

  lemma ProviderErrsKeeps(s: System, op: nat, code: string)
    requires Inv(s) && op in s.ops && s.ops[op].LivenessImageRead?
    ensures Inv(DoProviderErrs(s, op, code))
  {
    assert OpOk(s, s.ops[op]);
    MoveKeeps(s, op, LivenessEvaluated(s.ops[op].key, s.ops[op].since, ErrorEvaluation(s.ops[op].key, code)));
  }

  lemma ProviderUnusableKeeps(s: System, op: nat, code: string)
    requires Inv(s) && op in s.ops && s.ops[op].LivenessImageRead?
    ensures Inv(DoProviderUnusable(s, op, code))
  {
    assert OpOk(s, s.ops[op]);
    MoveKeeps(s, op, LivenessUnusable(s.ops[op].key, s.ops[op].since, code));
  }

  lemma ReadBoxKeeps(s: System, op: nat)
    requires Inv(s) && op in s.ops && s.ops[op].PortraitAdmitted?
    ensures Inv(DoReadBox(s, op))
  {
    if op in DoReadBox(s, op).ops {
      MoveKeeps(s, op, DoReadBox(s, op).ops[op]);
    } else {
      CrashKeeps(s, op);
    }
  }

  lemma FailedOpOk(s: System, o: Op)
    requires OpOk(s, o) && OpSnapshot(o).Some?
    ensures OpOk(s, PortraitFailed(OpSnapshot(o).value))
  {}

  lemma PortraitFailsKeeps(s: System, op: nat)
    requires Inv(s) && op in s.ops && (s.ops[op].PortraitClaimed? || s.ops[op].PortraitImageRead? || s.ops[op].PortraitStaged?)
    ensures Inv(DoPortraitFails(s, op))
  {
    FailedOpOk(s, s.ops[op]);
    MoveKeeps(s, op, PortraitFailed(s.ops[op].snapshot));
  }

  // ---------------------------------------------------------------- claims and failures

  /** Nothing but claims and cached evaluations changed. */
  predicate OnlyClaims(t: Tx, t': Tx) {
    t' == t.(evaluations := t'.evaluations, evaluationClaims := t'.evaluationClaims, portraitClaims := t'.portraitClaims)
  }

  lemma ClaimsKeep(s: System, t: Tx)
    requires Inv(s) && OnlyClaims(s.tx, t)
    ensures Inv(s.(tx := t))
  {
    FrameKeeps(s, s.(tx := t));
  }

  lemma ClaimLivenessKeeps(cfg: Config, s: System, op: nat)
    requires Inv(s) && op in s.ops && s.ops[op].LivenessKeyRead? && s.lock.None?
    ensures Inv(DoClaimLiveness(cfg, s, op))
  {
    assert OpOk(s, s.ops[op]);
    MoveKeeps(s, op, LivenessClaimed(s.ops[op].key, s.now));
    CrashKeeps(s, op);
    var t := ClaimEvaluation(s.tx, cfg, s.ops[op].key, s.now).0;
    ClaimsKeep(With(s, op, LivenessClaimed(s.ops[op].key, s.now)), t);
    ClaimsKeep(Without(s, op), t);
  }

  lemma RecordUnusableKeeps(s: System, op: nat)
    requires Inv(s) && op in s.ops && s.ops[op].LivenessUnusable?
    ensures Inv(DoRecordUnusable(s, op))
  {
    CrashKeeps(s, op);
    ClaimsKeep(Without(s, op), FailEvaluation(s.tx, s.ops[op].key, s.ops[op].code));
  }

  lemma ClaimPortraitFrame(t: Tx, cfg: Config, now: real)
    ensures OnlyClaims(t, ClaimPortrait(t, cfg, now).0)
    ensures ClaimPortrait(t, cfg, now).1.Process? ==> Some(ClaimPortrait(t, cfg, now).1.snapshot) == CaptureSnapshot(t)
  {}

  lemma ClaimForPortraitKeeps(cfg: Config, s: System, op: nat)
    requires Inv(s) && op in s.ops && s.ops[op].PortraitBoxRead? && s.lock.None?
    ensures Inv(DoClaimForPortrait(cfg, s, op))
  {
    ClaimPortraitFrame(s.tx, cfg, s.now);
    var (t, reply) := ClaimPortrait(s.tx, cfg, s.now);
    if reply.Process? {
      GrantedKeeps(s, op, reply.snapshot, t);
    } else {
      CrashKeeps(s, op);
      ClaimsKeep(Without(s, op), t);
    }
  }

  lemma GrantedKeeps(s: System, op: nat, snapshot: Snapshot, t: Tx)
    requires Inv(s) && op in s.ops && s.ops[op].PortraitBoxRead? && s.lock.None?
    requires OnlyClaims(s.tx, t) && CaptureSnapshot(s.tx) == Some(snapshot)
    ensures Inv(With(s, op, PortraitClaimed(snapshot, s.ops[op].faceBox, s.ops[op].boxFrom)).(tx := t))
  {
    var o := PortraitClaimed(snapshot, s.ops[op].faceBox, s.ops[op].boxFrom);
    MoveKeeps(s, op, o);
    ClaimsKeep(With(s, op, o), t);
  }

  lemma RecordPortraitFailureKeeps(s: System, op: nat)
    requires Inv(s) && op in s.ops && s.ops[op].PortraitFailed?
    ensures Inv(DoRecordPortraitFailure(s, op))
  {
    CrashKeeps(s, op);
    ClaimsKeep(Without(s, op), ClearPortraitClaim(s.tx, s.ops[op].snapshot.key));
  }

  // ---------------------------------------------------------------- attempts and captures

  /** Registering an attempt changes no artifact; the status only moves to the attempt limit. */
  lemma RegisteredKeeps(s: System, s': System)
    requires Inv(s) && SameBindings(s, s') && OpsFollow(s, s') && s'.sends == s.sends && s'.tx.callback == s.tx.callback
    requires s'.tx.status in {s.tx.status, ATTEMPT_LIMIT_EXCEEDED}
    ensures Inv(s')
  {
    FrameRest(s, s');
    FrameEvidence(s, s');
  }

  lemma RegistrationKeeps(cfg: Config, s: System, op: nat, attemptId: Bytes, reason: Option<string>, upload: bool)
    requires Inv(s)
    ensures Inv(Without(s, op).(tx := RegisterAttempt(s.tx, cfg, attemptId, reason, upload).0))
  {
    CrashKeeps(s, op);
    RegisteredKeeps(Without(s, op), Without(s, op).(tx := RegisterAttempt(s.tx, cfg, attemptId, reason, upload).0));
  }

  lemma RegisterOnlyKeeps(cfg: Config, s: System, op: nat)
    requires Inv(s) && op in s.ops && s.ops[op].AttemptAdmitted?
    ensures Inv(DoRegisterOnly(cfg, s, op))
  {
    RegistrationKeeps(cfg, s, op, s.ops[op].reportedId, s.ops[op].reason, false);
  }

  lemma BeginCaptureKeeps(cfg: Config, s: System, op: nat)
    requires Inv(s) && op in s.ops && s.ops[op].CaptureAdmitted? && s.lock.None?
    ensures Inv(DoBeginCapture(cfg, s, op))
  {
    var o, s' := s.ops[op], DoBeginCapture(cfg, s, op);
    RegistrationKeeps(cfg, s, op, o.attemptId, None, true);
    if s'.lock.Some? {
      FirstUploadLocks(s, Without(s, op).(tx := s'.tx),
                       CaptureLock(Key(o.attemptId, Sha256Hex(o.data)), o.data, o.captureBox, Begun));
    }
  }

  /** The attempt had not uploaded before `s'` registered it, so no accepted capture is its own. */
  lemma FirstUploadLocks(s: System, s': System, l: CaptureLock)
    requires Inv(s') && InvCaptures(s) && s'.lock.None? && s'.accepted == s.accepted && l.stage.Begun?
    requires l.key.sha == Sha256Hex(l.data)
    requires Sha256Hex(l.key.attemptId) !in s.tx.attempts.uploaded && Sha256Hex(l.key.attemptId) in s'.tx.attempts.uploaded
    ensures Inv(s'.(lock := Some(l)))
  {
    TakeLockKeeps(s', l);
  }

  // ---------------------------------------------------------------- inside the capture section

  /** What is known of an accepted capture stays true of it, unless it is the one just being written. */
  predicate Carries(s: System, s': System, k: Key) {
    && (Pending(s', k) ==> Pending(s, k))
    && (Settled(s', k) && !Pending(s, k) ==> Settled(s, k) && s'.tx.original == s.tx.original)
  }

  /** A step of the capture section: it changes which capture is pending or settled, and leaves all requests alone. */
  ghost predicate Carried(s: System, s': System) {
    && s'.ops == s.ops && s'.sends == s.sends && s.accepted <= s'.accepted && s'.nextDecision == s.nextDecision
    && s'.evaluated == s.evaluated && s'.produced == s.produced && s.died <= s'.died
    && s'.tx.consumerId == s.tx.consumerId && s'.tx.externalId == s.tx.externalId
    && s'.tx.candidates == s.tx.candidates && s'.tx.decision in {s.tx.decision, None}
    && s'.tx.portrait in {s.tx.portrait, None} && s'.tx.authorization in {s.tx.authorization, None}
    && (forall k :: k in s.accepted ==> Carries(s, s', k))
    && (forall k :: Settled(s', k) ==> k in s.accepted)
  }

  lemma CarriedOps(s: System, s': System)
    requires InvOps(s) && Carried(s, s')
    ensures InvOps(s')
  {
    forall i | i in s'.ops ensures OpOk(s', s'.ops[i]) {
      assert OpOk(s, s.ops[i]);
      if OpKey(s.ops[i]).Some? {
        assert Carries(s, s', OpKey(s.ops[i]).value);
      }
    }
  }

  lemma CarriedCandidate(s: System, s': System, id: Bytes, candidate: Bytes)
    requires InvCaptures(s) && Carried(s, s') && CandidateOk(s, id, candidate)
    ensures CandidateOk(s', id, candidate)
  {
    var filed :| filed in s.accepted && LivenessIdentity(filed) == id && !Pending(s, filed);
    assert Carries(s, s', filed);
    forall k | Settled(s', k) && LivenessIdentity(k) == id ensures MadeFromOriginal(s', candidate) {
      assert Carries(s, s', k);
      IdentityInjective(k, filed);
    }
  }

  lemma CarriedEvidence(s: System, s': System)
    requires InvCaptures(s) && InvEvidence(s) && Carried(s, s')
    ensures InvEvidence(s')
  {
    forall id | id in s'.tx.candidates ensures CandidateOk(s', id, s'.tx.candidates[id]) {
      CarriedCandidate(s, s', id, s.tx.candidates[id]);
    }
    if s'.tx.decision.Some? {
      assert Carries(s, s', s.tx.decision.value.key);
    }
    if s'.tx.authorization.Some? {
      assert Carries(s, s', s.tx.authorization.value.key);
    }
  }

  lemma CarriedKeeps(s: System, s': System)
    requires Inv(s) && Carried(s, s') && InvCaptures(s') && InvStatus(s') && InvDeaths(s')
    ensures Inv(s')
  {
    CarriedOps(s, s');
    CarriedEvidence(s, s');
  }

  /** A capture whose attempt uploads for the first time may take the lock. */
  lemma TakeLockKeeps(s: System, l: CaptureLock)
    requires Inv(s) && s.lock.None?
    requires l.stage.Begun? && LockOk(s, l)
    ensures Inv(s.(lock := Some(l)))
  {
    CarriedKeeps(s, s.(lock := Some(l)));
  }

  lemma WriteImageKeeps(s: System)
    requires Inv(s) && s.lock.Some? && s.lock.value.stage.Begun?
    ensures Inv(DoWriteImage(s))
  {
    CarriedKeeps(s, DoWriteImage(s));
  }

  lemma WriteMetaKeeps(s: System)
    requires Inv(s) && s.lock.Some? && s.lock.value.stage.ImageWritten?
    ensures Inv(DoWriteMeta(s))
  {
    MetaCarries(s, DoWriteMeta(s));
    CarriedKeeps(s, DoWriteMeta(s));
  }

  lemma MetaCarries(s: System, s': System)
    requires Inv(s) && s.lock.Some? && s.lock.value.stage.ImageWritten? && s' == DoWriteMeta(s)
    ensures Carried(s, s')
  {}

  /** Whatever is left of older artifacts, nothing of it is bound to the capture just written. */
  lemma NothingBound(s: System)
    requires InvCaptures(s) && InvEvidence(s) && s.lock.Some? && s.lock.value.stage.MetaWritten?
    ensures Lagging(s.tx, InCapture(MetaWritten))
  {
    assert Pending(s, s.lock.value.key);
  }

  lemma EndCaptureKeeps(s: System, left: Leftover)
    requires Inv(s) && s.lock.Some? && s.lock.value.stage.MetaWritten?
    ensures Inv(DoEndCapture(s, left))
  {
    NothingBound(s);
    CarriedKeeps(s, DoEndCapture(s, left));
  }

  /**
   * A death before the metadata are written leaves the old capture stored, torn if its image is gone; a death after
   * it leaves the new capture stored, with nothing bound to it.
   */
  lemma CaptureDiesKeeps(s: System, left: Leftover)
    requires Inv(s) && s.lock.Some?
    ensures Inv(DoCaptureDies(s, left))
  {
    DeathCarries(s, DoCaptureDies(s, left), left);
    CarriedKeeps(s, DoCaptureDies(s, left));
  }

  lemma DeathCarries(s: System, s': System, left: Leftover)
    requires Inv(s) && s.lock.Some? && s' == DoCaptureDies(s, left)
    ensures Carried(s, s') && InvCaptures(s') && InvStatus(s')
  {
    if s.lock.value.stage.MetaWritten? {
      NothingBound(s);
      LateDeathCarries(s, s', left);
    } else {
      EarlyDeathCarries(s, s', left);
    }
  }

  lemma EarlyDeathCarries(s: System, s': System, left: Leftover)
    requires InvCaptures(s) && InvStatus(s) && s.lock.Some? && !s.lock.value.stage.MetaWritten? && s' == DoCaptureDies(s, left)
    ensures Carried(s, s') && InvCaptures(s') && InvStatus(s')
  {}

  lemma LateDeathCarries(s: System, s': System, left: Leftover)
    requires InvCaptures(s) && InvStatus(s) && s.lock.Some? && s.lock.value.stage.MetaWritten? && s' == DoCaptureDies(s, left)
    requires Lagging(s.tx, InCapture(MetaWritten))
    ensures Carried(s, s') && InvCaptures(s') && InvStatus(s')
  {}

  // ---------------------------------------------------------------- promotion and submit

  lemma PromoteLivenessKeeps(s: System, op: nat)
    requires Inv(s) && op in s.ops && s.ops[op].LivenessEvaluated? && s.lock.None?
    ensures Inv(DoPromoteLiveness(s, op))
  {
    PromotionKeeps(s, DoPromoteLiveness(s, op), op);
  }

  lemma DecisionDeathKeeps(cfg: Config, s: System, op: nat)
    requires Inv(s) && op in s.ops && s.ops[op].LivenessEvaluated? && s.lock.None?
    ensures Inv(DoSectionDies(cfg, s, op, DecisionWritten))
  {
    PromotionKeeps(s, DoSectionDies(cfg, s, op, DecisionWritten), op);
  }

  /** A promotion that has come as far as its decision, whether or not the status follows. */
  ghost predicate PromotionFollows(s: System, s': System, op: nat)
    requires op in s.ops && s.ops[op].LivenessEvaluated?
  {
    var (t, reply) := PromoteEvaluation(s.tx, s.ops[op].key, s.ops[op].evaluation, s.nextDecision);
    && s' == Without(s, op).(tx := s'.tx, nextDecision := s.nextDecision + 1, died := s'.died, behind := s'.behind)
    && s.died <= s'.died
    && if !reply.Decided? then s'.tx == t && s'.behind == s.behind
       else if s'.behind.None? then s'.tx == t
       else s'.tx == t.(status := s.tx.status) && s'.behind == Some(DecisionWritten) && DecisionWritten in s'.died
  }

  lemma PromotionKeeps(s: System, s': System, op: nat)
    requires Inv(s) && op in s.ops && s.ops[op].LivenessEvaluated? && s.lock.None? && PromotionFollows(s, s', op)
    ensures Inv(s')
  {
    if PromoteEvaluation(s.tx, s.ops[op].key, s.ops[op].evaluation, s.nextDecision).1.Decided? {
      DecidedKeeps(s, s', op);
    } else {
      FrameKeeps(s, s');
    }
  }

  lemma DecidedKeeps(s: System, s': System, op: nat)
    requires Inv(s) && op in s.ops && s.ops[op].LivenessEvaluated? && s.lock.None? && PromotionFollows(s, s', op)
    requires PromoteEvaluation(s.tx, s.ops[op].key, s.ops[op].evaluation, s.nextDecision).1.Decided?
    ensures Inv(s')
  {
    assert OpOk(s, s.ops[op]);
    IdentityInjective(s.ops[op].key, s.tx.capture.value.key);
    CrashKeeps(s, op);
    NewDecisionKeeps(Without(s, op), s');
  }

  /** A fresh decision bound to the current capture and backed by evidence. */
  lemma NewDecisionKeeps(s: System, s': System)
    requires Inv(s) && SameCaptures(s, s') && OpsFollow(s, s') && s'.sends == s.sends && s.lock.None?
    requires s'.tx.decision.Some? && CurrentKeyIs(s.tx, s'.tx.decision.value.key) && DecisionOk(s', s'.tx.decision.value)
    requires s'.tx.decision.value.id == s.nextDecision
    requires s'.tx.portrait == s.tx.portrait && s'.tx.authorization == s.tx.authorization && s'.tx.candidates == s.tx.candidates
    requires s'.tx.callback == s.tx.callback
    requires if s'.behind.None? then s'.tx.status == NextStatus(s.tx.status, DECISION_READY)
             else s'.behind == Some(DecisionWritten) && s'.tx.status == s.tx.status
    ensures Inv(s')
  {
    FrameRest(s, s');
    NewDecisionEvidence(s, s');
  }

  lemma NewDecisionEvidence(s: System, s': System)
    requires InvEvidence(s) && SameCaptures(s, s')
    requires s'.tx.decision.Some? && DecisionOk(s', s'.tx.decision.value)
    requires s'.tx.portrait == s.tx.portrait && s'.tx.authorization == s.tx.authorization && s'.tx.candidates == s.tx.candidates
    ensures InvEvidence(s')
  {
    forall id | id in s'.tx.candidates ensures CandidateOk(s', id, s'.tx.candidates[id]) {
      FrameCandidate(s, s', id, s.tx.candidates[id]);
    }
  }

  lemma StageCandidateKeeps(s: System, op: nat, output: Bytes)
    requires Inv(s) && op in s.ops && s.ops[op].PortraitImageRead?
    ensures Inv(DoStageCandidate(s, op, output))
  {
    assert OpOk(s, s.ops[op]);
    var moved := With(s, op, PortraitStaged(s.ops[op].snapshot));
    MoveKeeps(s, op, PortraitStaged(s.ops[op].snapshot));
    MovedIsStaged(s, op, output, moved);
  }

  lemma MovedIsStaged(s: System, op: nat, output: Bytes, moved: System)
    requires op in s.ops && s.ops[op].PortraitImageRead? && OpOk(s, s.ops[op])
    requires moved == With(s, op, PortraitStaged(s.ops[op].snapshot)) && Inv(moved)
    ensures Inv(DoStageCandidate(s, op, output))
  {
    StagedIs(s, op, output, moved);
    NewCandidateKeeps(moved, DoStageCandidate(s, op, output), s.ops[op].snapshot.key, output);
  }

  lemma StagedIs(s: System, op: nat, output: Bytes, moved: System)
    requires op in s.ops && s.ops[op].PortraitImageRead? && OpOk(s, s.ops[op])
    requires moved == With(s, op, PortraitStaged(s.ops[op].snapshot))
    ensures var s', key := DoStageCandidate(s, op, output), s.ops[op].snapshot.key;
      && SameCaptures(moved, s') && OpsFollow(moved, s') && s'.sends == moved.sends && SameAuthority(moved.tx, s'.tx)
      && s'.behind == moved.behind && s'.tx.candidates == moved.tx.candidates[LivenessIdentity(key) := output]
      && key in moved.accepted && !Pending(moved, key) && (Settled(moved, key) ==> MadeFromOriginal(s', output))
  {}

  lemma NewCandidateKeeps(s: System, s': System, key: Key, output: Bytes)
    requires Inv(s) && SameCaptures(s, s') && OpsFollow(s, s') && s'.sends == s.sends && SameAuthority(s.tx, s'.tx)
    requires s'.behind == s.behind && s'.tx.candidates == s.tx.candidates[LivenessIdentity(key) := output]
    requires key in s.accepted && !Pending(s, key) && (Settled(s, key) ==> MadeFromOriginal(s', output))
    ensures Inv(s')
  {
    forall id | id in s'.tx.candidates ensures CandidateOk(s', id, s'.tx.candidates[id]) {
      if id == LivenessIdentity(key) {
        NewCandidateOk(s, s', key, output);
      } else {
        FrameCandidate(s, s', id, s.tx.candidates[id]);
      }
    }
    CandidatesKeep(s, s');
  }

  lemma NewCandidateOk(s: System, s': System, key: Key, output: Bytes)
    requires InvCaptures(s) && SameCaptures(s, s') && key in s.accepted && !Pending(s, key)
    requires Settled(s, key) ==> MadeFromOriginal(s', output)
    ensures CandidateOk(s', LivenessIdentity(key), output)
  {
    assert key in s'.accepted && !Pending(s', key);
    forall k | Settled(s', k) && LivenessIdentity(k) == LivenessIdentity(key) ensures k == key {
      IdentityInjective(k, key);
    }
  }

  lemma PromoteCandidateKeeps(s: System, op: nat)
    requires Inv(s) && op in s.ops && s.ops[op].PortraitStaged? && s.lock.None?
    ensures Inv(DoPromoteCandidate(s, op))
  {
    var s', snapshot := DoPromoteCandidate(s, op), s.ops[op].snapshot;
    PromotedOrNot(s.tx, snapshot);
    if PromotePortrait(s.tx, snapshot).1.Promoted? {
      NewPortraitKeeps(s, s', snapshot);
    } else {
      FewerCandidatesKeep(s, s');
    }
  }

  lemma PortraitDeathKeeps(cfg: Config, s: System, op: nat, at: Death)
    requires Inv(s) && op in s.ops && s.ops[op].PortraitStaged? && s.lock.None? && DiesAt(s.ops[op], at) && !at.ClaimCleared?
    ensures Inv(DoSectionDies(cfg, s, op, at))
  {
    PortraitLeftKeeps(s, DoSectionDies(cfg, s, op, at), s.ops[op].snapshot, at);
  }

  lemma PortraitLeftKeeps(s: System, s': System, snapshot: Snapshot, at: Death)
    requires Inv(s) && s.lock.None? && at in {PortraitWritten, CandidateRemoved, AuthorizationWritten} && OpsFollow(s, s')
    requires s' == s.(ops := s'.ops, tx := PortraitDeath(s.tx, snapshot, at), nextDecision := s.nextDecision + 1,
                      died := s.died + {at}, behind := if PromotePortrait(s.tx, snapshot).1.Promoted? then Some(at) else s.behind)
    ensures Inv(s')
  {
    if PromotePortrait(s.tx, snapshot).1.Promoted? {
      DeathFollows(s, s', snapshot, at);
      NewPortraitKeeps(s, s', snapshot);
    } else {
      PortraitDeathLeaves(s.tx, snapshot, at);
      FewerCandidatesKeep(s, s');
    }
  }

  lemma DeathFollows(s: System, s': System, snapshot: Snapshot, at: Death)
    requires at in {PortraitWritten, CandidateRemoved, AuthorizationWritten} && PromotePortrait(s.tx, snapshot).1.Promoted?
    requires s' == s.(ops := s'.ops, tx := PortraitDeath(s.tx, snapshot, at), nextDecision := s.nextDecision + 1,
                      died := s.died + {at}, behind := Some(at))
    ensures PortraitFollows(s, s', snapshot)
  {
    PortraitDeathLeaves(s.tx, snapshot, at);
    PromotedOrNot(s.tx, snapshot);
  }

  lemma PortraitDeathLeaves(t: Tx, snapshot: Snapshot, at: Death)
    requires at in {PortraitWritten, CandidateRemoved, AuthorizationWritten}
    ensures var t' := PortraitDeath(t, snapshot, at);
      && t' == t.(portraitClaims := t'.portraitClaims, candidates := t'.candidates, portrait := t'.portrait,
                  authorization := t'.authorization)
      && (forall id :: id in t'.candidates ==> id in t.candidates && t'.candidates[id] == t.candidates[id])
      && t'.portrait == PromotePortrait(t, snapshot).0.portrait
      && t'.authorization == if at.AuthorizationWritten? then PromotePortrait(t, snapshot).0.authorization else t.authorization
    ensures !PromotePortrait(t, snapshot).1.Promoted? ==> SameAuthority(t, PortraitDeath(t, snapshot, at))
  {
    PromotedOrNot(t, snapshot);
    PrefixLeaves(t, PromotePortrait(t, snapshot).0, PortraitDeath(t, snapshot, at), at);
  }

  /** `t'` has what the whole promotion writes as far as `at`. */
  lemma PrefixLeaves(t: Tx, whole: Tx, t': Tx, at: Death)
    requires at in {PortraitWritten, CandidateRemoved, AuthorizationWritten}
    requires t' == whole.(candidates := t'.candidates,
                          authorization := if at.AuthorizationWritten? then whole.authorization else t.authorization,
                          status := t.status)
    requires whole == t.(portraitClaims := whole.portraitClaims, candidates := whole.candidates, portrait := whole.portrait,
                         authorization := whole.authorization, status := whole.status)
    ensures t' == t.(portraitClaims := t'.portraitClaims, candidates := t'.candidates, portrait := t'.portrait,
                     authorization := t'.authorization)
    ensures whole.portrait == t.portrait && whole.authorization == t.authorization ==> SameAuthority(t, t')
  {}

  /** A promotion writes the candidate and its authorization, or it leaves every authority alone. */
  lemma PromotedOrNot(t: Tx, snapshot: Snapshot)
    ensures var (t', reply) := PromotePortrait(t, snapshot);
      if reply.Promoted? then
        && SnapshotMatchesCurrent(t, snapshot) && LivenessIdentity(snapshot.key) in t.candidates
        && t' == t.(portraitClaims := t'.portraitClaims, candidates := t.candidates - {LivenessIdentity(snapshot.key)},
                    portrait := Some(t.candidates[LivenessIdentity(snapshot.key)]),
                    authorization := Some(NewAuthorization(t, snapshot)), status := NextStatus(t.status, PORTRAIT_READY))
      else
        && t' == t.(portraitClaims := t'.portraitClaims, candidates := t'.candidates)
        && forall id :: id in t'.candidates ==> id in t.candidates && t'.candidates[id] == t.candidates[id]
  {}

  function NewAuthorization(t: Tx, snapshot: Snapshot): Authorization
    requires LivenessIdentity(snapshot.key) in t.candidates
  {
    var id := LivenessIdentity(snapshot.key);
    Authorization(snapshot.decisionId, snapshot.key, id, Sha256Hex(t.candidates[id]))
  }

  lemma FewerCandidatesKeep(s: System, s': System)
    requires Inv(s) && SameCaptures(s, s') && OpsFollow(s, s') && s'.sends == s.sends && SameAuthority(s.tx, s'.tx)
    requires s'.behind == s.behind
    requires forall id :: id in s'.tx.candidates ==> id in s.tx.candidates && s'.tx.candidates[id] == s.tx.candidates[id]
    ensures Inv(s')
  {
    forall id | id in s'.tx.candidates ensures CandidateOk(s', id, s'.tx.candidates[id]) {
      FrameCandidate(s, s', id, s.tx.candidates[id]);
    }
    CandidatesKeep(s, s');
  }

  /** The candidate of the current pass has become the portrait, and perhaps its authorization and status followed. */
  ghost predicate PortraitFollows(s: System, s': System, snapshot: Snapshot) {
    && SnapshotMatchesCurrent(s.tx, snapshot) && LivenessIdentity(snapshot.key) in s.tx.candidates
    && SameCaptures(s, s') && s'.tx.decision == s.tx.decision && s'.tx.callback == s.tx.callback
    && s'.tx.portrait == Some(s.tx.candidates[LivenessIdentity(snapshot.key)])
    && (forall id :: id in s'.tx.candidates ==> id in s.tx.candidates && s'.tx.candidates[id] == s.tx.candidates[id])
    && s'.tx.authorization in {s.tx.authorization, Some(NewAuthorization(s.tx, snapshot))}
    && (s'.behind in {None, Some(AuthorizationWritten)} ==> s'.tx.authorization == Some(NewAuthorization(s.tx, snapshot)))
    && if s'.behind.None? then s'.tx.status == NextStatus(s.tx.status, PORTRAIT_READY)
       else s'.behind.value in {PortraitWritten, CandidateRemoved, AuthorizationWritten} && s'.tx.status == s.tx.status
  }

  lemma NewPortraitKeeps(s: System, s': System, snapshot: Snapshot)
    requires Inv(s) && s.lock.None? && PortraitFollows(s, s', snapshot) && OpsFollow(s, s') && s'.sends == s.sends
    ensures Inv(s')
  {
    FrameRest(s, s');
    NewPortraitEvidence(s, s', snapshot);
    NewPortraitStatus(s, s', snapshot);
  }

  lemma NewPortraitStatus(s: System, s': System, snapshot: Snapshot)
    requires PortraitFollows(s, s', snapshot) && InvStatus(s) && s.lock.None?
    ensures InvStatus(s')
  {}

  lemma NewPortraitEvidence(s: System, s': System, snapshot: Snapshot)
    requires Inv(s) && s.lock.None? && PortraitFollows(s, s', snapshot)
    ensures InvEvidence(s')
  {
    forall id | id in s'.tx.candidates ensures CandidateOk(s', id, s'.tx.candidates[id]) {
      FrameCandidate(s, s', id, s.tx.candidates[id]);
    }
    assert CandidateOk(s, LivenessIdentity(snapshot.key), s.tx.candidates[LivenessIdentity(snapshot.key)]);
  }

  // ---------------------------------------------------------------- deaths inside the other sections

  /** A death behind anything but a decision, a portrait or an authorization touches claims, cache or status at most. */
  lemma EarlyDeathKeeps(cfg: Config, s: System, op: nat, at: Death)
    requires Inv(s) && op in s.ops && DiesAt(s.ops[op], at) && s.lock.None?
    requires at in {LimitWritten, ClaimCleared, EvaluationWritten}
    ensures Inv(DoSectionDies(cfg, s, op, at))
  {
    var s' := DoSectionDies(cfg, s, op, at);
    EarlyDeathLeaves(cfg, s, s.ops[op], at);
    if at.LimitWritten? {
      RegisteredKeeps(s, s');
    } else {
      FrameKeeps(s, s');
    }
  }

  lemma EarlyDeathLeaves(cfg: Config, s: System, o: Op, at: Death)
    requires DiesAt(o, at) && at in {LimitWritten, ClaimCleared, EvaluationWritten}
    ensures if at.LimitWritten? then LeftBy(cfg, s, o, at) == s.tx.(status := LeftBy(cfg, s, o, at).status)
                                     && LeftBy(cfg, s, o, at).status in {s.tx.status, ATTEMPT_LIMIT_EXCEEDED}
            else OnlyClaims(s.tx, LeftBy(cfg, s, o, at))
  {}

  lemma SectionDiesKeeps(cfg: Config, s: System, op: nat, at: Death)
    requires Inv(s) && op in s.ops && DiesAt(s.ops[op], at) && s.lock.None?
    ensures Inv(DoSectionDies(cfg, s, op, at))
  {
    match at
    case DecisionWritten => DecisionDeathKeeps(cfg, s, op);
    case PortraitWritten => PortraitDeathKeeps(cfg, s, op, at);
    case CandidateRemoved => PortraitDeathKeeps(cfg, s, op, at);
    case AuthorizationWritten => PortraitDeathKeeps(cfg, s, op, at);
    case _ => EarlyDeathKeeps(cfg, s, op, at);
  }

  /** What a submit may change: the callback record, the status it reports, and the posts it makes. */
  ghost predicate SubmitEffect(s: System, s': System) {
    && s' == s.(tx := s'.tx, sends := s'.sends) && Delivered(s.tx, s'.tx)
    && (s' == s || (!Terminal(s.tx.status) && PortraitAuthorizationCurrent(s.tx)))
    && (forall send :: send in s'.sends ==> send in s.sends || SendsNow(s, send))
  }

  /** The post carries the current portrait under the current decision. */
  predicate SendsNow(s: System, send: Send)
  {
    && s.tx.decision.Some?
    && send == Send(EventId(s.tx.consumerId, s.tx.externalId), send.portrait, s.tx.decision.value.id,
                    s.tx.decision.value.key, s.tx.decision.value.assessment, s.tx.original, s.torn)
    && s.tx.portrait == Some(send.portrait)
  }

  /** What a delivery records. */
  predicate Delivered(t: Tx, t': Tx) {
    && t' == t.(status := t'.status, callback := t'.callback)
    && (t'.status == t.status || t'.status == CALLBACK_FAILED || (t'.status == COMPLETED && t'.callback.Acknowledged?))
  }

  lemma DeliverRecords(t: Tx, input: SubmitInput)
    requires input.script != []
    ensures Delivered(t, Deliver(t, input).0)
  {}

  lemma SubmitDelivers(t: Tx, input: SubmitInput)
    requires input.script != []
    ensures Delivered(t, Submit(t, input).0)
    ensures (Submit(t, input).0 == t && Submit(t, input).2 == 0) || (!Terminal(t.status) && PortraitAuthorizationCurrent(t))
  {
    DeliverRecords(t, input);
  }

  lemma SubmitHasEffect(s: System, input: SubmitInput)
    requires input.script != []
    ensures SubmitEffect(s, DoSubmit(s, input))
  {
    SubmitDelivers(s.tx, input);
  }

  lemma EffectKeeps(s: System, s': System)
    requires Inv(s) && s.lock.None? && SubmitEffect(s, s')
    ensures Inv(s')
  {
    if s' != s {
      FrameCaptures(s, s');
      FrameOps(s, s');
      FrameEvidence(s, s');
    }
  }

  lemma SubmitKeeps(s: System, input: SubmitInput)
    requires Inv(s) && s.lock.None? && input.script != []
    ensures Inv(DoSubmit(s, input))
  {
    SubmitHasEffect(s, input);
    EffectKeeps(s, DoSubmit(s, input));
  }
}
