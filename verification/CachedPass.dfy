/** A pass served from the cache means a pass on record: exactly when no worker dies between evaluation and decision. */
module CachedPass {
  import opened Wrappers
  import opened Digests
  import opened PersonState
  import opened Transaction
  import opened Protocol
  import opened ProtocolInvariant
  import opened ProtocolFrames
  import opened ProtocolTheorems
  import opened SingleFlight
  import opened Scenarios
  import opened TornCapture
  import opened RunLaws
  import opened SectionDeaths

  // ---------------------------------------------------------------- evaluations are filed under captures

  predicate Filed(s: System, key: Key, id: Bytes) {
    key in s.accepted && LivenessIdentity(key) == id && !Pending(s, key)
  }

  /** Every evaluation is filed under an accepted capture whose section has ended. */
  ghost predicate InvFiled(s: System) {
    forall id :: id in s.tx.evaluations ==> exists k :: Filed(s, k, id)
  }

  lemma StaysFiled(cfg: Config, s: System, a: Action, id: Bytes)
    requires Inv(s) && Enabled(cfg, s, a) && exists k :: Filed(s, k, id)
    ensures exists k :: Filed(Do(cfg, s, a), k, id)
  {
    var k :| Filed(s, k, id);
    var s' := Do(cfg, s, a);
    AcceptedGrows(cfg, s, a);
    if s'.lock.Some? {
      LockFollows(cfg, s, a);
    }
    assert Filed(s', k, id);
  }

  /** The step files an evaluation. */
  predicate Files(a: Action) {
    a.RecordUnusable? || a.PromoteLiveness? || (a.SectionDies? && (a.at.EvaluationWritten? || a.at.DecisionWritten?))
  }

  predicate FiledBy(s: System, a: Action, id: Bytes) {
    Files(a) && a.op in s.ops && Evaluating(s.ops[a.op]) && id == LivenessIdentity(s.ops[a.op].key)
  }

  lemma StepFiles(cfg: Config, s: System, a: Action, id: Bytes)
    requires Enabled(cfg, s, a) && id in Do(cfg, s, a).tx.evaluations && id !in s.tx.evaluations
    ensures FiledBy(s, a, id)
  {
    if a.SectionDies? && Evaluating(s.ops[a.op]) {
      DeathFiles(cfg, s, a.op, a.at, id);
    } else if a.RecordUnusable? || a.PromoteLiveness? {
      FinishFiles(s, a, id);
    } else {
      StepFramed(cfg, s, a);
    }
  }

  lemma DeathFiles(cfg: Config, s: System, op: nat, at: Death, id: Bytes)
    requires op in s.ops && Evaluating(s.ops[op]) && DiesAt(s.ops[op], at)
    requires id in DoSectionDies(cfg, s, op, at).tx.evaluations && id !in s.tx.evaluations
    ensures at in {EvaluationWritten, DecisionWritten} && id == LivenessIdentity(s.ops[op].key)
  {
    DeathFrees(cfg, s, op, at);
    if at.ClaimCleared? {
      ClearedFilesNothing(cfg, s, op, at);
    }
  }

  lemma FinishFiles(s: System, a: Action, id: Bytes)
    requires (a.RecordUnusable? || a.PromoteLiveness?) && a.op in s.ops
    ensures a.RecordUnusable? && s.ops[a.op].LivenessUnusable? && id in DoRecordUnusable(s, a.op).tx.evaluations ==>
      id in s.tx.evaluations || id == LivenessIdentity(s.ops[a.op].key)
    ensures a.PromoteLiveness? && s.ops[a.op].LivenessEvaluated? && id in DoPromoteLiveness(s, a.op).tx.evaluations ==>
      id in s.tx.evaluations || id == LivenessIdentity(s.ops[a.op].key)
  {}

  lemma ClearedFilesNothing(cfg: Config, s: System, op: nat, at: Death)
    requires op in s.ops && Evaluating(s.ops[op]) && DiesAt(s.ops[op], at) && at.ClaimCleared?
    ensures DoSectionDies(cfg, s, op, at).tx.evaluations == s.tx.evaluations
  {}

  lemma EvaluatedIsFiled(s: System, op: nat)
    requires InvOps(s) && op in s.ops && Evaluating(s.ops[op])
    ensures Filed(s, s.ops[op].key, LivenessIdentity(s.ops[op].key))
  {
    assert OpOk(s, s.ops[op]);
  }

  lemma StepKeepsFiled(cfg: Config, s: System, a: Action)
    requires Inv(s) && InvFiled(s) && Enabled(cfg, s, a)
    ensures InvFiled(Do(cfg, s, a))
  {
    forall id | id in Do(cfg, s, a).tx.evaluations ensures exists k :: Filed(Do(cfg, s, a), k, id) {
      if id !in s.tx.evaluations {
        StepFiles(cfg, s, a, id);
        EvaluatedIsFiled(s, a.op);
      }
      StaysFiled(cfg, s, a, id);
    }
  }

  /** While a capture holds the lock, no evaluation is filed under it. */
  lemma NothingFiled(s: System)
    requires InvCaptures(s) && InvFiled(s) && s.lock.Some?
    ensures LivenessIdentity(s.lock.value.key) !in s.tx.evaluations
  {
    var id := LivenessIdentity(s.lock.value.key);
    if id in s.tx.evaluations {
      var k :| Filed(s, k, id);
      IdentityInjective(k, s.lock.value.key);
    }
  }

  // ---------------------------------------------------------------- a cached pass is backed

  /** The stored evaluation of the current capture would be served as a pass. */
  predicate PassServed(t: Tx) {
    && t.capture.Some? && Reusable(t, LivenessIdentity(t.capture.value.key))
    && t.evaluations[LivenessIdentity(t.capture.value.key)].error.None?
    && t.evaluations[LivenessIdentity(t.capture.value.key)].outcome == PASS
  }

  predicate Backed(t: Tx) {
    PassServed(t) ==> DecisionBound(t) && t.decision.value.outcome == PASS
  }

  ghost predicate InvBacked(s: System) {
    EvaluationWritten !in s.died ==> Backed(s.tx)
  }

  /** The capture being written has no evaluation yet. */
  lemma WritingServesNothing(s: System, t: Tx)
    requires InvCaptures(s) && InvFiled(s) && s.lock.Some?
    requires CurrentKeyIs(t, s.lock.value.key) && t.evaluations == s.tx.evaluations
    ensures !PassServed(t)
  {
    NothingFiled(s);
  }

  /** A promotion of the current capture writes evaluation and decision alike. */
  lemma PromotionBacks(t: Tx, key: Key, evaluation: Evaluation, decisionId: nat)
    requires t.capture.Some? && COLON !in key.sha && COLON !in t.capture.value.key.sha && evaluation.key == key && Backed(t)
    ensures Backed(PromoteEvaluation(t, key, evaluation, decisionId).0)
  {
    if CurrentIdentityIs(t, LivenessIdentity(key)) {
      IdentityInjective(key, t.capture.value.key);
    }
  }

  lemma FailureBacks(t: Tx, key: Key, code: string)
    requires Backed(t)
    ensures Backed(FailEvaluation(t, key, code))
  {}

  /** Capture, evaluations and decision are as they were. */
  lemma SameBacked(t: Tx, t': Tx)
    requires Backed(t) && t'.capture == t.capture && t'.evaluations == t.evaluations && t'.decision == t.decision
    ensures Backed(t')
  {}

  lemma OthersLeaveBacked(cfg: Config, s: System, a: Action)
    requires Enabled(cfg, s, a) && !Files(a) && !a.WriteMeta? && !a.EndCapture? && !a.CaptureDies? && Backed(s.tx)
    ensures Backed(Do(cfg, s, a).tx)
  {
    StepFramed(cfg, s, a);
    SameBacked(s.tx, Do(cfg, s, a).tx);
  }

  lemma CapturesLeaveBacked(cfg: Config, s: System, a: Action)
    requires Inv(s) && InvFiled(s) && Enabled(cfg, s, a) && (a.WriteMeta? || a.EndCapture? || a.CaptureDies?) && Backed(s.tx)
    ensures Backed(Do(cfg, s, a).tx)
  {
    var t' := Do(cfg, s, a).tx;
    StepFramed(cfg, s, a);
    if a.WriteMeta? || s.lock.value.stage.MetaWritten? {
      WritingServesNothing(s, t');
    } else {
      SameBacked(s.tx, t');
    }
  }

  lemma PromotionStepBacks(cfg: Config, s: System, a: Action)
    requires Inv(s) && Enabled(cfg, s, a) && Backed(s.tx)
    requires a.PromoteLiveness? || (a.SectionDies? && a.at.DecisionWritten?)
    ensures Backed(Do(cfg, s, a).tx)
  {
    var o := s.ops[a.op];
    assert OpOk(s, o);
    assert s.tx.capture.Some?;
    PromotionBacks(s.tx, o.key, o.evaluation, s.nextDecision);
    SameBacked(PromoteEvaluation(s.tx, o.key, o.evaluation, s.nextDecision).0, Do(cfg, s, a).tx);
  }

  lemma StepKeepsBacked(cfg: Config, s: System, a: Action)
    requires Inv(s) && InvFiled(s) && InvBacked(s) && Enabled(cfg, s, a)
    ensures InvBacked(Do(cfg, s, a))
  {
    StepRecordsDeaths(cfg, s, a);
    if EvaluationWritten !in Do(cfg, s, a).died {
      if a.RecordUnusable? {
        FailureBacks(s.tx, s.ops[a.op].key, s.ops[a.op].code);
      } else if Files(a) {
        PromotionStepBacks(cfg, s, a);
      } else if a.WriteMeta? || a.EndCapture? || a.CaptureDies? {
        CapturesLeaveBacked(cfg, s, a);
      } else {
        OthersLeaveBacked(cfg, s, a);
      }
    }
  }

  lemma {:induction false} RunKeepsBacked(cfg: Config, s: System, actions: seq<Action>, s': System)
    requires Inv(s) && InvFiled(s) && InvBacked(s) && Run(cfg, s, actions, s')
    ensures Inv(s') && InvBacked(s')
    decreases |actions|
  {
    if actions != [] {
      StepKeeps(cfg, s, actions[0]);
      StepKeepsFiled(cfg, s, actions[0]);
      StepKeepsBacked(cfg, s, actions[0]);
      RunKeepsBacked(cfg, Do(cfg, s, actions[0]), actions[1..], s');
    }
  }

  // ---------------------------------------------------------------- what a client is told

  /** A client that is told the current capture passes is not then told that its portrait is not ready. */
  predicate PassHolds(cfg: Config, s: System, key: Key) {
    var reply := ClaimEvaluation(s.tx, cfg, key, s.now).1;
    CurrentKeyIs(s.tx, key) && reply.Cached? && reply.evaluation.error.None? && reply.evaluation.outcome == PASS ==>
      ClaimPortrait(s.tx, cfg, s.now).1 != PortraitNotReady
  }

  lemma BackedHolds(cfg: Config, s: System, key: Key)
    requires Inv(s) && Backed(s.tx)
    ensures PassHolds(cfg, s, key)
  {}

  /** An evaluation is written without its decision. */
  lemma Unbacked(cfg: Config, attemptId: Bytes, image: Bytes) returns (s: System, key: Key)
    requires cfg.attemptLimit >= 2 && Uploadable(cfg, attemptId, image)
    ensures Reachable(cfg, s) && s.died == {EvaluationWritten} && !PassHolds(cfg, s, key)
  {
    var w := Slack(cfg);
    FreshIsLive(cfg, w);
    var first := CaptureNow(cfg, w, Fresh(), 1, attemptId, image, None);
    var judged := JudgedAlone(cfg, w, first);
    key := judged.ops[3].key;
    s := DiedNow(cfg, w, judged, 3, EvaluationWritten);
    DecisionMissing(cfg, judged, s, key);
    TimelyReachableIsReachable(cfg, w, s);
  }

  lemma JudgedAlone(cfg: Config, w: real, s: System) returns (s': System)
    requires Live(cfg, w, s) && s.ops == map[] && Unjudged(s) && s.tx.original.Some? && s.tx.decision.None? && s.died == {}
    ensures Live(cfg, w, s') && s'.lock.None? && s'.died == {} && s'.tx.decision.None? && 3 in s'.ops
    ensures s'.ops[3].LivenessEvaluated? && CurrentKeyIs(s'.tx, s'.ops[3].key)
    ensures s'.ops[3].evaluation == AssessedEvaluation(s'.ops[3].key, LIVE_ALONE)
  {
    var read := ImageReadNow(cfg, w, s, 3);
    s' := JudgedNow(cfg, w, read, 3);
  }

  lemma DecisionMissing(cfg: Config, judged: System, s: System, key: Key)
    requires 3 in judged.ops && judged.ops[3].LivenessEvaluated? && judged.ops[3].key == key
    requires judged.ops[3].evaluation == AssessedEvaluation(key, LIVE_ALONE) && s == DoSectionDies(cfg, judged, 3, EvaluationWritten)
    requires CurrentKeyIs(judged.tx, key) && judged.tx.decision.None?
    ensures !PassHolds(cfg, s, key) && s.died == judged.died + {EvaluationWritten}
  {
    UndecidedPass(judged.tx, key, judged.nextDecision);
  }

  lemma UndecidedPass(t: Tx, key: Key, decisionId: nat)
    requires CurrentKeyIs(t, key) && t.decision.None?
    ensures var t' := PromotionDeath(t, key, AssessedEvaluation(key, LIVE_ALONE), decisionId, EvaluationWritten);
      && CurrentKeyIs(t', key) && t'.decision.None? && Reusable(t', LivenessIdentity(key))
      && t'.evaluations[LivenessIdentity(key)] == AssessedEvaluation(key, LIVE_ALONE)
  {}

  /**
   * With deaths behind the allowed writes, a pass served for the current capture leads to its portrait: exactly when
   * no worker dies between an evaluation and its decision.
   */
  lemma CachedPassExactly(cfg: Config, allowed: set<Death>, attemptId: Bytes, image: Bytes)
    requires cfg.attemptLimit >= 2 && Uploadable(cfg, attemptId, image)
    ensures (forall s, key :: ReachableDying(cfg, allowed, s) ==> PassHolds(cfg, s, key)) <==> EvaluationWritten !in allowed
  {
    if EvaluationWritten in allowed {
      var s, key := Unbacked(cfg, attemptId, image);
      assert ReachableDying(cfg, allowed, s);
    } else {
      forall s, key | ReachableDying(cfg, allowed, s) ensures PassHolds(cfg, s, key) {
        var s0, actions :| Initial(s0) && Run(cfg, s0, actions, s);
        InitialInv(s0);
        RunKeepsBacked(cfg, s0, actions, s);
        BackedHolds(cfg, s, key);
      }
    }
  }

  // ---------------------------------------------------------------- and it stays so

  /** Between captures, a step decides no capture whose evaluation is stored. */
  lemma StepLeavesUndecided(cfg: Config, s: System, a: Action, key: Key)
    requires Inv(s) && InvFlight(s) && Enabled(cfg, s, a) && !a.WriteMeta?
    requires CurrentKeyIs(s.tx, key) && Reusable(s.tx, LivenessIdentity(key)) && !DecisionBound(s.tx)
    ensures CurrentKeyIs(Do(cfg, s, a).tx, key) && !DecisionBound(Do(cfg, s, a).tx)
  {
    if (a.PromoteLiveness? || (a.SectionDies? && a.at.DecisionWritten?)) && s.ops[a.op].LivenessEvaluated? {
      StoredIsNotDecided(s, s.ops[a.op], key);
    }
    StepKeepsDecision(cfg, s, a);
    StepFramed(cfg, s, a);
  }

  lemma StoredIsNotDecided(s: System, o: Op, key: Key)
    requires OwnsClaim(s.tx, o) && o.LivenessEvaluated?
    requires CurrentKeyIs(s.tx, key) && Reusable(s.tx, LivenessIdentity(key))
    ensures !PromoteEvaluation(s.tx, o.key, o.evaluation, s.nextDecision).1.Decided?
  {}

  /**
   * Over timely runs, when the longest evaluation fits in a claim, nothing repairs such a capture: every later request
   * is served its evaluation, and none its portrait, until another capture is accepted.
   */
  lemma {:induction false} UnbackedUntilNextCapture(
      cfg: Config, lockWait: real, s: System, key: Key, actions: seq<Action>, s': System)
    requires DelaysFit(cfg, lockWait) && Inv(s) && InvFlight(s) && TimelyRun(cfg, lockWait, s, actions, s')
    requires CurrentKeyIs(s.tx, key) && Reusable(s.tx, LivenessIdentity(key)) && !DecisionBound(s.tx) && WriteMeta !in actions
    ensures ClaimEvaluation(s'.tx, cfg, key, s'.now).1 == Cached(s.tx.evaluations[LivenessIdentity(key)])
    ensures ClaimPortrait(s'.tx, cfg, s'.now).1 == PortraitNotReady
    decreases |actions|
  {
    if actions != [] {
      StepKeeps(cfg, s, actions[0]);
      StepKeepsFlight(cfg, lockWait, s, actions[0]);
      StepKeepsReusable(cfg, s, actions[0], LivenessIdentity(key));
      StepLeavesUndecided(cfg, s, actions[0], key);
      UnbackedUntilNextCapture(cfg, lockWait, Do(cfg, s, actions[0]), key, actions[1..], s');
    }
  }
}
