/**
 * One transaction under concurrent requests. A request is an operation in flight; each action is one
 * unlocked read or write, one locked section, or one of the four steps of the locked capture section.
 */
module Protocol {
  import opened Wrappers
  import opened Digests
  import opened PersonState
  import opened Integrity
  import opened Callback
  import opened Transaction

  /** How far a request has come. */
  datatype Op =
    | CaptureAdmitted(attemptId: Bytes, data: Bytes, captureBox: Option<FaceBox>)
    | AttemptAdmitted(reportedId: Bytes, reason: Option<string>)
    | LivenessAdmitted
    | LivenessKeyRead(key: Key)
    | LivenessClaimed(key: Key, since: real)
    | LivenessImageRead(key: Key, since: real, image: Bytes)
    | LivenessEvaluated(key: Key, since: real, evaluation: Evaluation)
    | LivenessUnusable(key: Key, since: real, code: string)
    | PortraitAdmitted(formBox: Option<FaceBox>)
    | PortraitBoxRead(faceBox: FaceBox, boxFrom: Option<Key>)
    | PortraitClaimed(snapshot: Snapshot, faceBox: FaceBox, boxFrom: Option<Key>)
    | PortraitImageRead(snapshot: Snapshot, faceBox: FaceBox, boxFrom: Option<Key>, source: Bytes)
    | PortraitStaged(snapshot: Snapshot)
    | PortraitFailed(snapshot: Snapshot)

  /** The capture request that holds the lock. */
  datatype CaptureLock = CaptureLock(key: Key, data: Bytes, faceBox: Option<FaceBox>, stage: CaptureStage)

  /** One post: what it carried, the capture and evidence in force when it was made, and whether the image was torn. */
  datatype Send = Send(
    eventId: Bytes, portrait: Bytes, decisionId: nat, key: Key, assessment: Assessment, original: Option<Bytes>, torn: bool)

  /**
   * `accepted` lists every capture written so far; `evaluated` and `produced` record which bytes the
   * provider judged and which bytes each staged portrait was made from. `died` holds the writes behind which a worker
   * has died inside its section: `torn` while an image still stands beside older metadata, `behind` names the last
   * write of a capture, a decision, a portrait or an authorization whose status has not been written.
   */
  datatype System = System(
    tx: Tx, ops: map<nat, Op>, lock: Option<CaptureLock>, now: real, nextDecision: nat,
    accepted: seq<Key>, evaluated: set<(Bytes, Assessment)>, produced: set<(Bytes, Bytes)>, sends: seq<Send>,
    died: set<Death>, torn: bool, behind: Option<Death>)

  datatype Action =
    | ArriveCapture(op: nat, attemptId: Bytes, data: Bytes, captureBox: Option<FaceBox>)
    | ArriveAttempt(op: nat, attemptId: Bytes, reason: Option<string>)
    | ArriveLiveness(op: nat)
    | ArrivePortrait(op: nat, formBox: Option<FaceBox>)
    | RegisterOnly(op: nat)
    | BeginCapture(op: nat)
    | WriteImage
    | WriteMeta
    | EndCapture(left: Leftover)
    | CaptureDies(left: Leftover)
    | ReadKey(op: nat)
    | ClaimLiveness(op: nat)
    | ReadImage(op: nat)
    | ProviderAssesses(op: nat, classification: Classification, subjectCount: SubjectCount, secondary: SecondaryPersonState)
    | ProviderErrs(op: nat, code: string)
    | ProviderUnusable(op: nat, code: string)
    | RecordUnusable(op: nat)
    | PromoteLiveness(op: nat)
    | ReadBox(op: nat)
    | ClaimForPortrait(op: nat)
    | StageCandidate(op: nat, output: Bytes)
    | PortraitFails(op: nat)
    | RecordPortraitFailure(op: nat)
    | PromoteCandidate(op: nat)
    | SubmitNow(input: SubmitInput)
    | SectionDies(op: nat, at: Death)
    | Crash(op: nat)
    | Tick(seconds: real)

  /** The section such a request is about to run makes this write, and another one after it. */
  predicate DiesAt(o: Op, at: Death) {
    match at
    case InCapture(_) => false
    case LimitWritten => o.AttemptAdmitted? || o.CaptureAdmitted?
    case ClaimCleared =>
      o.LivenessKeyRead? || o.LivenessUnusable? || o.LivenessEvaluated? || o.PortraitBoxRead? || o.PortraitStaged?
    case EvaluationWritten => o.LivenessEvaluated?
    case DecisionWritten => o.LivenessEvaluated?
    case _ => o.PortraitStaged?
  }

  ghost predicate Enabled(cfg: Config, s: System, a: Action) {
    match a
    case ArriveCapture(op, attemptId, data, _) => op !in s.ops && !Terminal(s.tx.status) && Uploadable(cfg, attemptId, data)
    case ArriveAttempt(op, attemptId, _) => op !in s.ops && !Terminal(s.tx.status) && attemptId != []
    case ArriveLiveness(op) => op !in s.ops && !Terminal(s.tx.status)
    case ArrivePortrait(op, _) => op !in s.ops && !Terminal(s.tx.status)
    case RegisterOnly(op) => op in s.ops && s.ops[op].AttemptAdmitted? && s.lock.None?
    case BeginCapture(op) => op in s.ops && s.ops[op].CaptureAdmitted? && s.lock.None?
    case WriteImage => s.lock.Some? && s.lock.value.stage.Begun?
    case WriteMeta => s.lock.Some? && s.lock.value.stage.ImageWritten?
    case EndCapture(_) => s.lock.Some? && s.lock.value.stage.MetaWritten?
    case CaptureDies(_) => s.lock.Some?
    case ReadKey(op) => op in s.ops && s.ops[op].LivenessAdmitted?
    case ClaimLiveness(op) => op in s.ops && s.ops[op].LivenessKeyRead? && s.lock.None?
    case ReadImage(op) => op in s.ops && (s.ops[op].LivenessClaimed? || s.ops[op].PortraitClaimed?) && s.tx.original.Some?
    case ProviderAssesses(op, _, _, _) => op in s.ops && s.ops[op].LivenessImageRead?
    case ProviderErrs(op, _) => op in s.ops && s.ops[op].LivenessImageRead?
    case ProviderUnusable(op, _) => op in s.ops && s.ops[op].LivenessImageRead?
    case RecordUnusable(op) => op in s.ops && s.ops[op].LivenessUnusable? && s.lock.None?
    case PromoteLiveness(op) => op in s.ops && s.ops[op].LivenessEvaluated? && s.lock.None?
    case ReadBox(op) => op in s.ops && s.ops[op].PortraitAdmitted?
    case ClaimForPortrait(op) => op in s.ops && s.ops[op].PortraitBoxRead? && s.lock.None?
    case StageCandidate(op, _) => op in s.ops && s.ops[op].PortraitImageRead?
    case PortraitFails(op) => op in s.ops && (s.ops[op].PortraitClaimed? || s.ops[op].PortraitImageRead? || s.ops[op].PortraitStaged?)
    case RecordPortraitFailure(op) => op in s.ops && s.ops[op].PortraitFailed? && s.lock.None?
    case PromoteCandidate(op) => op in s.ops && s.ops[op].PortraitStaged? && s.lock.None?
    case SubmitNow(input) => s.lock.None? && |input.script| == cfg.callbackMaxRetries + 1
    case SectionDies(op, at) => op in s.ops && DiesAt(s.ops[op], at) && s.lock.None?
    case Crash(op) => op in s.ops
    case Tick(seconds) => seconds >= 0.0
  }

  function With(s: System, op: nat, o: Op): System {
    s.(ops := s.ops[op := o])
  }

  function Without(s: System, op: nat): System {
    s.(ops := s.ops - {op})
  }

  function DoRegisterOnly(cfg: Config, s: System, op: nat): System
    requires op in s.ops && s.ops[op].AttemptAdmitted?
  {
    Without(s, op).(tx := RegisterAttempt(s.tx, cfg, s.ops[op].reportedId, s.ops[op].reason, false).0)
  }

  function DoBeginCapture(cfg: Config, s: System, op: nat): System
    requires op in s.ops && s.ops[op].CaptureAdmitted?
  {
    var o := s.ops[op];
    var (t, reply) := RegisterAttempt(s.tx, cfg, o.attemptId, None, true);
    var rest := Without(s, op).(tx := t);
    if reply.UploadRejected? || reply.terminal then rest
    else rest.(lock := Some(CaptureLock(Key(o.attemptId, Sha256Hex(o.data)), o.data, o.captureBox, Begun)))
  }

  function DoWriteImage(s: System): System
    requires s.lock.Some?
  {
    s.(tx := s.tx.(original := Some(s.lock.value.data)), lock := Some(s.lock.value.(stage := ImageWritten)))
  }

  function DoWriteMeta(s: System): System
    requires s.lock.Some?
  {
    s.(tx := s.tx.(capture := Some(Capture(s.lock.value.key, s.lock.value.faceBox))),
       lock := Some(s.lock.value.(stage := MetaWritten)), accepted := s.accepted + [s.lock.value.key], torn := false)
  }

  function DoEndCapture(s: System, left: Leftover): System {
    s.(tx := FinishCapture(s.tx, left), lock := None, behind := None)
  }

  /** The lock goes with its holder; what it has written stays, and after the metadata what it has removed is gone. */
  function DoCaptureDies(s: System, left: Leftover): System
    requires s.lock.Some?
  {
    var stage := s.lock.value.stage;
    s.(tx := if stage.MetaWritten? then InvalidateAuthorization(s.tx, left) else s.tx, lock := None,
       died := s.died + {InCapture(stage)}, torn := s.torn || stage.ImageWritten?,
       behind := if stage.MetaWritten? then Some(InCapture(stage)) else s.behind)
  }

  function DoReadKey(s: System, op: nat): System {
    if s.tx.capture.None? then Without(s, op) else With(s, op, LivenessKeyRead(s.tx.capture.value.key))
  }

  function DoClaimLiveness(cfg: Config, s: System, op: nat): System
    requires op in s.ops && s.ops[op].LivenessKeyRead?
  {
    var (t, reply) := ClaimEvaluation(s.tx, cfg, s.ops[op].key, s.now);
    if reply.Claimed? then With(s, op, LivenessClaimed(s.ops[op].key, s.now)).(tx := t)
    else Without(s, op).(tx := t)
  }

  function DoReadImage(s: System, op: nat): System
    requires op in s.ops && (s.ops[op].LivenessClaimed? || s.ops[op].PortraitClaimed?) && s.tx.original.Some?
  {
    var o := s.ops[op];
    With(s, op,
         if o.LivenessClaimed? then LivenessImageRead(o.key, o.since, s.tx.original.value)
         else PortraitImageRead(o.snapshot, o.faceBox, o.boxFrom, s.tx.original.value))
  }

  function DoProviderAssesses(s: System, op: nat, a: Assessment): System
    requires op in s.ops && s.ops[op].LivenessImageRead?
  {
    var o := s.ops[op];
    With(s, op, LivenessEvaluated(o.key, o.since, AssessedEvaluation(o.key, a))).(evaluated := s.evaluated + {(o.image, a)})
  }

  function DoProviderErrs(s: System, op: nat, code: string): System
    requires op in s.ops && s.ops[op].LivenessImageRead?
  {
    With(s, op, LivenessEvaluated(s.ops[op].key, s.ops[op].since, ErrorEvaluation(s.ops[op].key, code)))
  }

  function DoProviderUnusable(s: System, op: nat, code: string): System
    requires op in s.ops && s.ops[op].LivenessImageRead?
  {
    With(s, op, LivenessUnusable(s.ops[op].key, s.ops[op].since, code))
  }

  function DoRecordUnusable(s: System, op: nat): System
    requires op in s.ops && s.ops[op].LivenessUnusable?
  {
    Without(s, op).(tx := FailEvaluation(s.tx, s.ops[op].key, s.ops[op].code))
  }

  function DoPromoteLiveness(s: System, op: nat): System
    requires op in s.ops && s.ops[op].LivenessEvaluated?
  {
    var (t, reply) := PromoteEvaluation(s.tx, s.ops[op].key, s.ops[op].evaluation, s.nextDecision);
    Without(s, op).(tx := t, nextDecision := s.nextDecision + 1, behind := if reply.Decided? then None else s.behind)
  }

  function DoReadBox(s: System, op: nat): System
    requires op in s.ops && s.ops[op].PortraitAdmitted?
  {
    var stored := if s.tx.capture.Some? then s.tx.capture.value.faceBox else None;
    var box := if stored.Some? then stored else s.ops[op].formBox;
    if box.None? then Without(s, op)
    else With(s, op, PortraitBoxRead(box.value, if stored.Some? then Some(s.tx.capture.value.key) else None))
  }

  function DoClaimForPortrait(cfg: Config, s: System, op: nat): System
    requires op in s.ops && s.ops[op].PortraitBoxRead?
  {
    var (t, reply) := ClaimPortrait(s.tx, cfg, s.now);
    if reply.Process? then With(s, op, PortraitClaimed(reply.snapshot, s.ops[op].faceBox, s.ops[op].boxFrom)).(tx := t)
    else Without(s, op).(tx := t)
  }

  function DoStageCandidate(s: System, op: nat, output: Bytes): System
    requires op in s.ops && s.ops[op].PortraitImageRead?
  {
    var o := s.ops[op];
    With(s, op, PortraitStaged(o.snapshot)).(
      tx := s.tx.(candidates := s.tx.candidates[LivenessIdentity(o.snapshot.key) := output]),
      produced := s.produced + {(o.source, output)})
  }

  function DoPortraitFails(s: System, op: nat): System
    requires op in s.ops && (s.ops[op].PortraitClaimed? || s.ops[op].PortraitImageRead? || s.ops[op].PortraitStaged?)
  {
    With(s, op, PortraitFailed(s.ops[op].snapshot))
  }

  function DoRecordPortraitFailure(s: System, op: nat): System
    requires op in s.ops && s.ops[op].PortraitFailed?
  {
    Without(s, op).(tx := ClearPortraitClaim(s.tx, s.ops[op].snapshot.key))
  }

  function DoPromoteCandidate(s: System, op: nat): System
    requires op in s.ops && s.ops[op].PortraitStaged?
  {
    var (t, reply) := PromotePortrait(s.tx, s.ops[op].snapshot);
    Without(s, op).(tx := t, behind := if reply.Promoted? then None else s.behind)
  }

  /** What is stored when the worker of `o` dies in its section. */
  function LeftBy(cfg: Config, s: System, o: Op, at: Death): Tx
    requires DiesAt(o, at)
  {
    match o
    case AttemptAdmitted(attemptId, _) => RegistrationDeath(s.tx, cfg, attemptId, false)
    case CaptureAdmitted(attemptId, _, _) => RegistrationDeath(s.tx, cfg, attemptId, true)
    case LivenessKeyRead(key) => EvaluationClaimDeath(s.tx, cfg, key, s.now)
    case LivenessUnusable(key, _, _) => FreeEvaluation(s.tx, key)
    case LivenessEvaluated(key, _, evaluation) => PromotionDeath(s.tx, key, evaluation, s.nextDecision, at)
    case PortraitBoxRead(_, _) => PortraitClaimDeath(s.tx, cfg, s.now)
    case _ => PortraitDeath(s.tx, o.snapshot, at)
  }

  /** Something has been written that calls for a status. */
  predicate CallsForStatus(s: System, o: Op, at: Death)
    requires DiesAt(o, at)
  {
    match at
    case DecisionWritten => PromoteEvaluation(s.tx, o.key, o.evaluation, s.nextDecision).1.Decided?
    case PortraitWritten => PromotePortrait(s.tx, o.snapshot).1.Promoted?
    case CandidateRemoved => PromotePortrait(s.tx, o.snapshot).1.Promoted?
    case AuthorizationWritten => PromotePortrait(s.tx, o.snapshot).1.Promoted?
    case _ => false
  }

  function DoSectionDies(cfg: Config, s: System, op: nat, at: Death): System
    requires op in s.ops && DiesAt(s.ops[op], at)
  {
    Without(s, op).(
      tx := LeftBy(cfg, s, s.ops[op], at), nextDecision := s.nextDecision + 1, died := s.died + {at},
      behind := if CallsForStatus(s, s.ops[op], at) then Some(at) else s.behind)
  }

  function DoSubmit(s: System, input: SubmitInput): System
    requires input.script != []
  {
    var (t, reply, posts) := Submit(s.tx, input);
    if posts == 0 then s.(tx := t)
    else
      var d := s.tx.decision.value;
      var send := Send(EventId(s.tx.consumerId, s.tx.externalId), s.tx.portrait.value, d.id, d.key, d.assessment, s.tx.original, s.torn);
      s.(tx := t, sends := s.sends + seq(posts, _ => send))
  }

  function DoTick(s: System, seconds: real): System {
    s.(now := s.now + seconds)
  }

  function Do(cfg: Config, s: System, a: Action): System
    requires Enabled(cfg, s, a)
  {
    match a
    case ArriveCapture(op, attemptId, data, box) => With(s, op, CaptureAdmitted(attemptId, data, box))
    case ArriveAttempt(op, attemptId, reason) => With(s, op, AttemptAdmitted(attemptId, reason))
    case ArriveLiveness(op) => With(s, op, LivenessAdmitted)
    case ArrivePortrait(op, formBox) => With(s, op, PortraitAdmitted(formBox))
    case RegisterOnly(op) => DoRegisterOnly(cfg, s, op)
    case BeginCapture(op) => DoBeginCapture(cfg, s, op)
    case WriteImage => DoWriteImage(s)
    case WriteMeta => DoWriteMeta(s)
    case EndCapture(left) => DoEndCapture(s, left)
    case CaptureDies(left) => DoCaptureDies(s, left)
    case ReadKey(op) => DoReadKey(s, op)
    case ClaimLiveness(op) => DoClaimLiveness(cfg, s, op)
    case ReadImage(op) => DoReadImage(s, op)
    case ProviderAssesses(op, classification, subjectCount, secondary) =>
      DoProviderAssesses(s, op, Assessment(Some(classification), Some(subjectCount), Some(secondary)))
    case ProviderErrs(op, code) => DoProviderErrs(s, op, code)
    case ProviderUnusable(op, code) => DoProviderUnusable(s, op, code)
    case RecordUnusable(op) => DoRecordUnusable(s, op)
    case PromoteLiveness(op) => DoPromoteLiveness(s, op)
    case ReadBox(op) => DoReadBox(s, op)
    case ClaimForPortrait(op) => DoClaimForPortrait(cfg, s, op)
    case StageCandidate(op, output) => DoStageCandidate(s, op, output)
    case PortraitFails(op) => DoPortraitFails(s, op)
    case RecordPortraitFailure(op) => DoRecordPortraitFailure(s, op)
    case PromoteCandidate(op) => DoPromoteCandidate(s, op)
    case SubmitNow(input) => DoSubmit(s, input)
    case SectionDies(op, at) => DoSectionDies(cfg, s, op, at)
    case Crash(op) => Without(s, op)
    case Tick(seconds) => DoTick(s, seconds)
  }

  /** Actions that touch no stored field. */
  predicate Passive(a: Action) {
    || a.ArriveCapture? || a.ArriveAttempt? || a.ArriveLiveness? || a.ArrivePortrait? || a.ReadKey?
    || a.ReadImage? || a.ProviderAssesses? || a.ProviderErrs? || a.ProviderUnusable? || a.ReadBox? || a.PortraitFails?
    || a.Crash? || a.Tick?
  }

  lemma PassiveLeavesTx(cfg: Config, s: System, a: Action)
    requires Enabled(cfg, s, a) && Passive(a)
    ensures Do(cfg, s, a).tx == s.tx
  {}

  predicate Initial(s: System) {
    && s.tx == Launched(s.tx.consumerId, s.tx.externalId)
    && s.ops == map[] && s.lock.None? && s.nextDecision == 0
    && s.accepted == [] && s.evaluated == {} && s.produced == {} && s.sends == []
    && s.died == {} && !s.torn && s.behind.None?
  }

  /** `s'` follows from `s` by performing `actions` in order. */
  ghost predicate Run(cfg: Config, s: System, actions: seq<Action>, s': System)
    decreases |actions|
  {
    if actions == [] then s' == s
    else Enabled(cfg, s, actions[0]) && Run(cfg, Do(cfg, s, actions[0]), actions[1..], s')
  }

  ghost predicate Reachable(cfg: Config, s: System) {
    exists s0, actions :: Initial(s0) && Run(cfg, s0, actions, s)
  }
}
