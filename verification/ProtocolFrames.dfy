/** Which stored fields, and which requests, an action can touch. */
module ProtocolFrames {
  import opened Wrappers
  import opened Transaction
  import opened Protocol
  import opened ProtocolInvariant

  /** Every field not named here is as it was. */
  predicate Framed(a: Action, t: Tx, t': Tx) {
    match a
    case RegisterOnly(_) => t' == t.(attempts := t'.attempts, status := t'.status)
    case BeginCapture(_) => t' == t.(attempts := t'.attempts, status := t'.status)
    case WriteImage => t' == t.(original := t'.original)
    case WriteMeta => t' == t.(capture := t'.capture)
    case EndCapture(_) =>
      && t' == t.(decision := t'.decision, portrait := t'.portrait, authorization := t'.authorization, status := t'.status)
      && t'.decision in {t.decision, None}
    case CaptureDies(_) =>
      && t' == t.(decision := t'.decision, portrait := t'.portrait, authorization := t'.authorization)
      && t'.decision in {t.decision, None}
    case ClaimLiveness(_) => t' == t.(evaluationClaims := t'.evaluationClaims)
    case RecordUnusable(_) => t' == t.(evaluations := t'.evaluations, evaluationClaims := t'.evaluationClaims)
    case PromoteLiveness(_) =>
      t' == t.(evaluations := t'.evaluations, evaluationClaims := t'.evaluationClaims, decision := t'.decision, status := t'.status)
    case ClaimForPortrait(_) => t' == t.(portraitClaims := t'.portraitClaims)
    case StageCandidate(_, _) => t' == t.(candidates := t'.candidates)
    case RecordPortraitFailure(_) => t' == t.(portraitClaims := t'.portraitClaims)
    case PromoteCandidate(_) =>
      t' == t.(portraitClaims := t'.portraitClaims, candidates := t'.candidates, portrait := t'.portrait,
               authorization := t'.authorization, status := t'.status)
    case SubmitNow(_) => t' == t.(callback := t'.callback, status := t'.status)
    case SectionDies(_, at) => DeathFramed(at, t, t')
    case _ => t' == t
  }

  predicate DeathFramed(at: Death, t: Tx, t': Tx) {
    match at
    case LimitWritten => t' == t.(status := t'.status)
    case ClaimCleared => t' == t.(evaluationClaims := t'.evaluationClaims, portraitClaims := t'.portraitClaims)
    case EvaluationWritten => t' == t.(evaluations := t'.evaluations, evaluationClaims := t'.evaluationClaims)
    case DecisionWritten =>
      t' == t.(evaluations := t'.evaluations, evaluationClaims := t'.evaluationClaims, decision := t'.decision)
    case _ =>
      t' == t.(portraitClaims := t'.portraitClaims, candidates := t'.candidates, portrait := t'.portrait,
               authorization := t'.authorization)
  }

  /** A terminal status has not given way to a non-terminal one. */
  predicate Guarded(status: Status, status': Status) {
    Terminal(status) ==> Terminal(status')
  }

  predicate CaptureSection(a: Action) {
    a.RegisterOnly? || a.BeginCapture? || a.WriteImage? || a.WriteMeta? || a.EndCapture? || a.CaptureDies?
  }

  lemma CaptureFramed(cfg: Config, s: System, a: Action)
    requires Enabled(cfg, s, a) && CaptureSection(a)
    ensures Framed(a, s.tx, Do(cfg, s, a).tx) && Guarded(s.tx.status, Do(cfg, s, a).tx.status)
  {}

  predicate LivenessSection(a: Action) {
    a.ClaimLiveness? || a.RecordUnusable? || a.PromoteLiveness?
  }

  lemma LivenessFramed(cfg: Config, s: System, a: Action)
    requires Enabled(cfg, s, a) && LivenessSection(a)
    ensures Framed(a, s.tx, Do(cfg, s, a).tx) && Guarded(s.tx.status, Do(cfg, s, a).tx.status)
  {}

  predicate PortraitSection(a: Action) {
    a.ClaimForPortrait? || a.StageCandidate? || a.RecordPortraitFailure? || a.PromoteCandidate?
  }

  lemma PortraitFramed(cfg: Config, s: System, a: Action)
    requires Enabled(cfg, s, a) && PortraitSection(a)
    ensures Framed(a, s.tx, Do(cfg, s, a).tx) && Guarded(s.tx.status, Do(cfg, s, a).tx.status)
  {}

  lemma SectionDeathFramed(cfg: Config, s: System, op: nat, at: Death)
    requires op in s.ops && DiesAt(s.ops[op], at)
    ensures DeathFramed(at, s.tx, DoSectionDies(cfg, s, op, at).tx)
    ensures Guarded(s.tx.status, DoSectionDies(cfg, s, op, at).tx.status)
  {
    if at in {LimitWritten, ClaimCleared, EvaluationWritten} {
      EarlyDeathFramed(cfg, s, s.ops[op], at);
    } else if at.DecisionWritten? {
    } else {
      PortraitDeathLeaves(s.tx, s.ops[op].snapshot, at);
    }
  }

  lemma EarlyDeathFramed(cfg: Config, s: System, o: Op, at: Death)
    requires DiesAt(o, at) && at in {LimitWritten, ClaimCleared, EvaluationWritten}
    ensures DeathFramed(at, s.tx, LeftBy(cfg, s, o, at)) && Guarded(s.tx.status, LeftBy(cfg, s, o, at).status)
  {
    EarlyDeathLeaves(cfg, s, o, at);
    if at.ClaimCleared? {
      ClearingFramed(cfg, s, o);
    }
  }

  lemma ClearingFramed(cfg: Config, s: System, o: Op)
    requires DiesAt(o, ClaimCleared)
    ensures DeathFramed(ClaimCleared, s.tx, LeftBy(cfg, s, o, ClaimCleared))
  {
    ClaimPortraitFrame(s.tx, cfg, s.now);
  }

  lemma StepFramed(cfg: Config, s: System, a: Action)
    requires Enabled(cfg, s, a)
    ensures Framed(a, s.tx, Do(cfg, s, a).tx) && Guarded(s.tx.status, Do(cfg, s, a).tx.status)
  {
    if Passive(a) {
      PassiveLeavesTx(cfg, s, a);
    } else if CaptureSection(a) {
      CaptureFramed(cfg, s, a);
    } else if LivenessSection(a) {
      LivenessFramed(cfg, s, a);
    } else if PortraitSection(a) {
      PortraitFramed(cfg, s, a);
    } else if a.SectionDies? {
      SectionDeathFramed(cfg, s, a.op, a.at);
    } else {
      SubmitHasEffect(s, a.input);
      assert Terminal(s.tx.status) ==> DoSubmit(s, a.input) == s;
    }
  }

  /** The request an action moves. */
  function OpOf(a: Action): Option<nat> {
    match a
    case WriteImage => None
    case WriteMeta => None
    case EndCapture(_) => None
    case CaptureDies(_) => None
    case SubmitNow(_) => None
    case Tick(_) => None
    case _ => Some(a.op)
  }

  ghost predicate OthersStay(s: System, s': System, moved: Option<nat>) {
    forall i :: Some(i) != moved ==> (i in s'.ops <==> i in s.ops) && (i in s.ops ==> s'.ops[i] == s.ops[i])
  }

  lemma PassiveMovesOne(cfg: Config, s: System, a: Action)
    requires Enabled(cfg, s, a) && Passive(a)
    ensures OthersStay(s, Do(cfg, s, a), OpOf(a))
  {}

  lemma SectionMovesOne(cfg: Config, s: System, a: Action)
    requires Enabled(cfg, s, a) && !Passive(a) && !a.SubmitNow?
    ensures OthersStay(s, Do(cfg, s, a), OpOf(a))
  {}

  /** It moves no other. */
  lemma OnlyItsOp(cfg: Config, s: System, a: Action, i: nat)
    requires Enabled(cfg, s, a) && OpOf(a) != Some(i)
    ensures i in Do(cfg, s, a).ops <==> i in s.ops
    ensures i in s.ops ==> Do(cfg, s, a).ops[i] == s.ops[i]
  {
    if a.SubmitNow? {
      SubmitHasEffect(s, a.input);
    } else if Passive(a) {
      PassiveMovesOne(cfg, s, a);
    } else {
      SectionMovesOne(cfg, s, a);
    }
  }

  /** The list of captures grows by the one whose metadata are written. */
  lemma AcceptedGrows(cfg: Config, s: System, a: Action)
    requires Enabled(cfg, s, a)
    ensures Do(cfg, s, a).accepted ==
            s.accepted + if a.WriteMeta? then [s.lock.value.key] else []
  {
    if a.SubmitNow? {
      SubmitHasEffect(s, a.input);
    }
  }
}
