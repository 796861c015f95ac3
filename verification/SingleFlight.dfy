/** At most one provider call per capture is in flight, as long as no evaluation outlives its claim. */
module SingleFlight {
  import opened Digests
  import opened Retries
  import opened Transaction
  import opened Protocol
  import opened Wrappers
  import opened PersonState
  import opened ProtocolInvariant
  import opened ProtocolFrames

  /** The request holds a claim and has not given it back. */
  predicate Evaluating(o: Op) {
    o.LivenessClaimed? || o.LivenessImageRead? || o.LivenessEvaluated? || o.LivenessUnusable?
  }

  /** No evaluation has lasted longer than its worst case plus the time it may wait for the lock. */
  predicate Timely(cfg: Config, lockWait: real, s: System) {
    forall i :: i in s.ops && Evaluating(s.ops[i]) ==>
      s.now - s.ops[i].since <= WorstCase(cfg.providerTimeout, cfg.vlmMaxRetries) + lockWait
  }

  ghost predicate TimelyRun(cfg: Config, lockWait: real, s: System, actions: seq<Action>, s': System)
    decreases |actions|
  {
    && Timely(cfg, lockWait, s)
    && if actions == [] then s' == s
       else Enabled(cfg, s, actions[0]) && TimelyRun(cfg, lockWait, Do(cfg, s, actions[0]), actions[1..], s')
  }

  ghost predicate TimelyReachable(cfg: Config, lockWait: real, s: System) {
    exists s0, actions :: Initial(s0) && TimelyRun(cfg, lockWait, s0, actions, s)
  }

  predicate DelaysFit(cfg: Config, lockWait: real) {
    Fits(cfg.providerTimeout, cfg.vlmTimeout, cfg.vlmMaxRetries, lockWait)
  }

  /** `o` owns the claim stored for its capture, and nothing reusable is stored for it yet. */
  predicate OwnsClaim(t: Tx, o: Op) {
    Evaluating(o) ==>
      var id := LivenessIdentity(o.key);
      id in t.evaluationClaims && t.evaluationClaims[id] == o.since && !Reusable(t, id)
  }

  predicate SameCapture(o: Op, p: Op) {
    Evaluating(o) && Evaluating(p) && LivenessIdentity(o.key) == LivenessIdentity(p.key)
  }

  predicate OneEach(s: System) {
    forall i, j :: i in s.ops && j in s.ops && i != j ==> !SameCapture(s.ops[i], s.ops[j])
  }

  predicate InvFlight(s: System) {
    && (forall i :: i in s.ops ==> OwnsClaim(s.tx, s.ops[i]))
    && OneEach(s)
  }

  /** Nothing that evaluates has begun, moved to another claim or lost its claim. */
  predicate NoNewFlight(s: System, s': System) {
    && s'.tx.evaluations == s.tx.evaluations && s'.tx.evaluationClaims == s.tx.evaluationClaims
    && forall i :: i in s'.ops && Evaluating(s'.ops[i]) ==>
      i in s.ops && Evaluating(s.ops[i]) && s'.ops[i].key == s.ops[i].key && s'.ops[i].since == s.ops[i].since
  }

  lemma NoNewFlightKeeps(s: System, s': System)
    requires InvFlight(s) && NoNewFlight(s, s')
    ensures InvFlight(s')
  {
    forall i, j | i in s'.ops && j in s'.ops && i != j ensures !SameCapture(s'.ops[i], s'.ops[j]) {
      assert SameCapture(s'.ops[i], s'.ops[j]) ==> SameCapture(s.ops[i], s.ops[j]);
    }
  }

  /** The step runs the section that asks for an evaluation claim, or part of it. */
  predicate AsksForClaim(s: System, a: Action) {
    match a
    case ClaimLiveness(_) => true
    case SectionDies(op, _) => op in s.ops && s.ops[op].LivenessKeyRead?
    case _ => false
  }

  /** The step ends an evaluation and gives its claim back. */
  predicate GivesBack(s: System, a: Action) {
    match a
    case PromoteLiveness(_) => true
    case RecordUnusable(_) => true
    case SectionDies(op, _) => op in s.ops && Evaluating(s.ops[op])
    case _ => false
  }

  /** An expired claim has no owner, so it may be cleared. */
  lemma ClearingKeepsFlight(cfg: Config, lockWait: real, s: System, op: nat, at: Death)
    requires InvFlight(s) && Timely(cfg, lockWait, s) && DelaysFit(cfg, lockWait)
    requires op in s.ops && s.ops[op].LivenessKeyRead? && DiesAt(s.ops[op], at)
    ensures InvFlight(DoSectionDies(cfg, s, op, at))
  {
    var s', id := DoSectionDies(cfg, s, op, at), LivenessIdentity(s.ops[op].key);
    forall i | i in s'.ops ensures OwnsClaim(s'.tx, s'.ops[i]) {
      assert OwnsClaim(s.tx, s.ops[i]);
    }
    forall i, j | i in s'.ops && j in s'.ops && i != j ensures !SameCapture(s'.ops[i], s'.ops[j]) {
      assert !SameCapture(s.ops[i], s.ops[j]);
    }
  }

  lemma ClaimKeepsFlight(cfg: Config, lockWait: real, s: System, op: nat)
    requires InvFlight(s) && Timely(cfg, lockWait, s) && DelaysFit(cfg, lockWait)
    requires op in s.ops && s.ops[op].LivenessKeyRead?
    ensures InvFlight(DoClaimLiveness(cfg, s, op))
  {
    var s', id := DoClaimLiveness(cfg, s, op), LivenessIdentity(s.ops[op].key);
    if op !in s'.ops {
      NoNewFlightKeeps(s, s');
    } else {
      forall i | i in s.ops && Evaluating(s.ops[i]) ensures LivenessIdentity(s.ops[i].key) != id {
        assert OwnsClaim(s.tx, s.ops[i]);
      }
      forall i | i in s'.ops ensures OwnsClaim(s'.tx, s'.ops[i]) {
        assert i != op ==> OwnsClaim(s.tx, s.ops[i]);
      }
      forall i, j | i in s'.ops && j in s'.ops && i != j ensures !SameCapture(s'.ops[i], s'.ops[j]) {
        if i != op && j != op {
          assert !SameCapture(s.ops[i], s.ops[j]);
        }
      }
    }
  }

  /** Giving a claim back touches one capture only, and its request is gone. */
  lemma ReleaseKeepsFlight(s: System, s': System, op: nat)
    requires InvFlight(s) && op in s.ops && Evaluating(s.ops[op]) && s'.ops == s.ops - {op}
    requires forall id :: id != LivenessIdentity(s.ops[op].key) ==>
      && (id in s.tx.evaluationClaims <==> id in s'.tx.evaluationClaims)
      && (id in s.tx.evaluationClaims ==> s'.tx.evaluationClaims[id] == s.tx.evaluationClaims[id])
      && Reusable(s'.tx, id) == Reusable(s.tx, id)
    ensures InvFlight(s')
  {
    forall i | i in s'.ops ensures OwnsClaim(s'.tx, s'.ops[i]) {
      assert OwnsClaim(s.tx, s.ops[i]) && !SameCapture(s.ops[i], s.ops[op]);
    }
    forall i, j | i in s'.ops && j in s'.ops && i != j ensures !SameCapture(s'.ops[i], s'.ops[j]) {
      assert !SameCapture(s.ops[i], s.ops[j]);
    }
  }

  /** A request that evaluates did so before, with the same claim, unless it has just been granted one. */
  lemma EvaluationStems(cfg: Config, s: System, a: Action, i: nat)
    requires Enabled(cfg, s, a) && !a.ClaimLiveness? && OpOf(a) == Some(i)
    requires i in Do(cfg, s, a).ops && Evaluating(Do(cfg, s, a).ops[i])
    ensures i in s.ops && Evaluating(s.ops[i])
    ensures Do(cfg, s, a).ops[i].key == s.ops[i].key && Do(cfg, s, a).ops[i].since == s.ops[i].since
  {}

  lemma OtherStepsStartNone(cfg: Config, s: System, a: Action)
    requires Enabled(cfg, s, a) && !AsksForClaim(s, a) && !GivesBack(s, a)
    ensures NoNewFlight(s, Do(cfg, s, a))
  {
    OtherStepsLeaveClaims(cfg, s, a);
    var s' := Do(cfg, s, a);
    forall i | i in s'.ops && Evaluating(s'.ops[i])
      ensures i in s.ops && Evaluating(s.ops[i]) && s'.ops[i].key == s.ops[i].key && s'.ops[i].since == s.ops[i].since
    {
      if OpOf(a) == Some(i) {
        EvaluationStems(cfg, s, a, i);
      } else {
        OnlyItsOp(cfg, s, a, i);
      }
    }
  }

  lemma OtherStepsLeaveClaims(cfg: Config, s: System, a: Action)
    requires Enabled(cfg, s, a) && !AsksForClaim(s, a) && !GivesBack(s, a)
    ensures Do(cfg, s, a).tx.evaluations == s.tx.evaluations
    ensures Do(cfg, s, a).tx.evaluationClaims == s.tx.evaluationClaims
  {
    if a.SectionDies? {
      OtherDeathsLeaveClaims(cfg, s, a.op, a.at);
    } else {
      StepFramed(cfg, s, a);
    }
  }

  lemma OtherDeathsLeaveClaims(cfg: Config, s: System, op: nat, at: Death)
    requires op in s.ops && DiesAt(s.ops[op], at) && !s.ops[op].LivenessKeyRead? && !Evaluating(s.ops[op])
    ensures DoSectionDies(cfg, s, op, at).tx.evaluations == s.tx.evaluations
    ensures DoSectionDies(cfg, s, op, at).tx.evaluationClaims == s.tx.evaluationClaims
  {
    if s.ops[op].PortraitStaged? {
      PortraitDeathFrees(s.tx, s.ops[op].snapshot, at);
    } else if s.ops[op].PortraitBoxRead? {
      ClaimPortraitFrame(s.tx, cfg, s.now);
    } else {
      assert at.LimitWritten?;
    }
  }

  lemma PortraitDeathFrees(t: Tx, snapshot: Snapshot, at: Death)
    ensures PortraitDeath(t, snapshot, at).evaluations == t.evaluations
    ensures PortraitDeath(t, snapshot, at).evaluationClaims == t.evaluationClaims
  {}

  /** What is left of a capture's claim and record by a worker that died while it ended its evaluation. */
  predicate Freed(t: Tx, t': Tx, id: Bytes) {
    && t'.evaluationClaims == t.evaluationClaims - {id}
    && (t'.evaluations == t.evaluations || (id in t'.evaluations && t'.evaluations == t.evaluations[id := t'.evaluations[id]]))
  }

  lemma PromotionDeathFrees(t: Tx, key: Key, evaluation: Evaluation, decisionId: nat, at: Death)
    ensures Freed(t, PromotionDeath(t, key, evaluation, decisionId, at), LivenessIdentity(key))
  {
    PromotionFrees(t, key, evaluation, decisionId);
  }

  lemma PromotionFrees(t: Tx, key: Key, evaluation: Evaluation, decisionId: nat)
    ensures Freed(t, PromoteEvaluation(t, key, evaluation, decisionId).0, LivenessIdentity(key))
  {}

  lemma DeathFrees(cfg: Config, s: System, op: nat, at: Death)
    requires op in s.ops && Evaluating(s.ops[op]) && DiesAt(s.ops[op], at)
    ensures Freed(s.tx, DoSectionDies(cfg, s, op, at).tx, LivenessIdentity(s.ops[op].key))
  {
    if s.ops[op].LivenessEvaluated? {
      PromotionDeathFrees(s.tx, s.ops[op].key, s.ops[op].evaluation, s.nextDecision, at);
    }
  }

  /** A worker that dies while it ends an evaluation has given the claim back before. */
  lemma DeathKeepsFlight(cfg: Config, s: System, op: nat, at: Death)
    requires InvFlight(s) && op in s.ops && Evaluating(s.ops[op]) && DiesAt(s.ops[op], at)
    ensures InvFlight(DoSectionDies(cfg, s, op, at))
  {
    DeathFrees(cfg, s, op, at);
    var s' := DoSectionDies(cfg, s, op, at);
    assert s'.ops == s.ops - {op};
    ReleaseKeepsFlight(s, s', op);
  }

  lemma PromotionKeepsFlight(s: System, op: nat)
    requires InvFlight(s) && op in s.ops && s.ops[op].LivenessEvaluated?
    ensures InvFlight(DoPromoteLiveness(s, op))
  {
    ReleaseKeepsFlight(s, DoPromoteLiveness(s, op), op);
  }

  lemma UnusableKeepsFlight(s: System, op: nat)
    requires InvFlight(s) && op in s.ops && s.ops[op].LivenessUnusable?
    ensures InvFlight(DoRecordUnusable(s, op))
  {
    ReleaseKeepsFlight(s, DoRecordUnusable(s, op), op);
  }

  lemma StepKeepsFlight(cfg: Config, lockWait: real, s: System, a: Action)
    requires InvFlight(s) && Timely(cfg, lockWait, s) && DelaysFit(cfg, lockWait) && Enabled(cfg, s, a)
    ensures InvFlight(Do(cfg, s, a))
  {
    if a.ClaimLiveness? {
      ClaimKeepsFlight(cfg, lockWait, s, a.op);
    } else if a.PromoteLiveness? {
      PromotionKeepsFlight(s, a.op);
    } else if a.RecordUnusable? {
      UnusableKeepsFlight(s, a.op);
    } else if AsksForClaim(s, a) {
      ClearingKeepsFlight(cfg, lockWait, s, a.op, a.at);
    } else if GivesBack(s, a) {
      DeathKeepsFlight(cfg, s, a.op, a.at);
    } else {
      OtherStepsStartNone(cfg, s, a);
      NoNewFlightKeeps(s, Do(cfg, s, a));
    }
  }

  lemma {:induction false} RunKeepsFlight(cfg: Config, lockWait: real, s: System, actions: seq<Action>, s': System)
    requires InvFlight(s) && DelaysFit(cfg, lockWait) && TimelyRun(cfg, lockWait, s, actions, s')
    ensures InvFlight(s')
    decreases |actions|
  {
    if actions != [] {
      StepKeepsFlight(cfg, lockWait, s, actions[0]);
      RunKeepsFlight(cfg, lockWait, Do(cfg, s, actions[0]), actions[1..], s');
    }
  }

  /** When the delays fit, no claim expires under its owner, so one request at a time evaluates a capture. */
  lemma SingleFlightHolds(cfg: Config, lockWait: real, s: System)
    requires DelaysFit(cfg, lockWait) && TimelyReachable(cfg, lockWait, s)
    ensures OneEach(s)
    ensures forall i :: i in s.ops && Evaluating(s.ops[i]) ==>
      !ClaimStale(cfg, s.ops[i].since, s.now) && !Reusable(s.tx, LivenessIdentity(s.ops[i].key))
  {
    var s0, actions :| Initial(s0) && TimelyRun(cfg, lockWait, s0, actions, s);
    RunKeepsFlight(cfg, lockWait, s0, actions, s);
    EndsTimely(cfg, lockWait, s0, actions, s);
    forall i | i in s.ops && Evaluating(s.ops[i])
      ensures !ClaimStale(cfg, s.ops[i].since, s.now) && !Reusable(s.tx, LivenessIdentity(s.ops[i].key))
    {
      assert OwnsClaim(s.tx, s.ops[i]);
    }
  }

  lemma {:induction false} EndsTimely(cfg: Config, lockWait: real, s: System, actions: seq<Action>, s': System)
    requires TimelyRun(cfg, lockWait, s, actions, s')
    ensures Timely(cfg, lockWait, s')
    decreases |actions|
  {
    if actions != [] {
      EndsTimely(cfg, lockWait, Do(cfg, s, actions[0]), actions[1..], s');
    }
  }

  lemma StepKeepsReusable(cfg: Config, s: System, a: Action, id: Bytes)
    requires InvFlight(s) && Enabled(cfg, s, a) && Reusable(s.tx, id)
    ensures id in Do(cfg, s, a).tx.evaluations && Do(cfg, s, a).tx.evaluations[id] == s.tx.evaluations[id]
  {
    if GivesBack(s, a) {
      assert OwnsClaim(s.tx, s.ops[a.op]);
      EndsLeaveOthersReusable(cfg, s, a, id);
    } else if !AsksForClaim(s, a) {
      OtherStepsStartNone(cfg, s, a);
    }
  }

  lemma EndsLeaveOthersReusable(cfg: Config, s: System, a: Action, id: Bytes)
    requires Enabled(cfg, s, a) && GivesBack(s, a) && LivenessIdentity(s.ops[a.op].key) != id && id in s.tx.evaluations
    ensures id in Do(cfg, s, a).tx.evaluations && Do(cfg, s, a).tx.evaluations[id] == s.tx.evaluations[id]
  {
    if a.SectionDies? {
      DeathFrees(cfg, s, a.op, a.at);
    }
  }

  lemma {:induction false} RunKeepsReusable(
      cfg: Config, lockWait: real, s: System, id: Bytes, actions: seq<Action>, s': System)
    requires DelaysFit(cfg, lockWait) && InvFlight(s) && Reusable(s.tx, id) && TimelyRun(cfg, lockWait, s, actions, s')
    ensures InvFlight(s') && id in s'.tx.evaluations && s'.tx.evaluations[id] == s.tx.evaluations[id]
    decreases |actions|
  {
    if actions != [] {
      StepKeepsFlight(cfg, lockWait, s, actions[0]);
      StepKeepsReusable(cfg, s, actions[0], id);
      RunKeepsReusable(cfg, lockWait, Do(cfg, s, actions[0]), id, actions[1..], s');
    }
  }

  /** Once a reusable evaluation is stored it stays, and no request evaluates that capture again. */
  lemma ReusableForever(cfg: Config, lockWait: real, s: System, id: Bytes, actions: seq<Action>, s': System)
    requires DelaysFit(cfg, lockWait) && TimelyReachable(cfg, lockWait, s) && TimelyRun(cfg, lockWait, s, actions, s')
    requires Reusable(s.tx, id)
    ensures id in s'.tx.evaluations && s'.tx.evaluations[id] == s.tx.evaluations[id]
    ensures forall i :: i in s'.ops && Evaluating(s'.ops[i]) ==> LivenessIdentity(s'.ops[i].key) != id
  {
    var s0, before :| Initial(s0) && TimelyRun(cfg, lockWait, s0, before, s);
    RunKeepsFlight(cfg, lockWait, s0, before, s);
    RunKeepsReusable(cfg, lockWait, s, id, actions, s');
    forall i | i in s'.ops && Evaluating(s'.ops[i]) ensures LivenessIdentity(s'.ops[i].key) != id {
      assert OwnsClaim(s'.tx, s'.ops[i]);
    }
  }

  // ---------------------------------------------------------------- what the claims on file say

  /** Every claim on file belongs to a request that evaluates its capture. */
  predicate ClaimsOwned(s: System) {
    forall id :: id in s.tx.evaluationClaims ==> Owned(s, id)
  }

  predicate Owned(s: System, id: Bytes) {
    exists i :: i in s.ops && Evaluates(s.ops[i], id)
  }

  predicate Evaluates(o: Op, id: Bytes) {
    Evaluating(o) && LivenessIdentity(o.key) == id
  }

  /** No evaluating request dies. */
  ghost predicate Survives(s: System, a: Action) {
    (a.Crash? || a.SectionDies?) && a.op in s.ops ==> !Evaluating(s.ops[a.op])
  }

  ghost predicate SurvivingRun(cfg: Config, s: System, actions: seq<Action>, s': System)
    decreases |actions|
  {
    if actions == [] then s' == s
    else Enabled(cfg, s, actions[0]) && Survives(s, actions[0]) && SurvivingRun(cfg, Do(cfg, s, actions[0]), actions[1..], s')
  }

  /** Evaluating requests go on, unless they give their claim back. */
  lemma EvaluationContinues(cfg: Config, s: System, a: Action, i: nat, id: Bytes)
    requires Enabled(cfg, s, a) && Survives(s, a) && i in s.ops && Evaluates(s.ops[i], id)
    requires id in Do(cfg, s, a).tx.evaluationClaims
    ensures i in Do(cfg, s, a).ops && Evaluates(Do(cfg, s, a).ops[i], id)
  {
    if OpOf(a) == Some(i) {
      if a.PromoteLiveness? || a.RecordUnusable? {
        FinishedFrees(cfg, s, a);
      } else {
        ItsEvaluationContinues(cfg, s, a);
      }
    } else {
      OnlyItsOp(cfg, s, a, i);
    }
  }

  lemma FinishedFrees(cfg: Config, s: System, a: Action)
    requires Enabled(cfg, s, a) && (a.PromoteLiveness? || a.RecordUnusable?)
    ensures LivenessIdentity(s.ops[a.op].key) !in Do(cfg, s, a).tx.evaluationClaims
  {}

  lemma ItsEvaluationContinues(cfg: Config, s: System, a: Action)
    requires Enabled(cfg, s, a) && Survives(s, a) && OpOf(a).Some? && a.op in s.ops && Evaluating(s.ops[a.op])
    requires !a.PromoteLiveness? && !a.RecordUnusable?
    ensures a.op in Do(cfg, s, a).ops && Evaluating(Do(cfg, s, a).ops[a.op]) && Do(cfg, s, a).ops[a.op].key == s.ops[a.op].key
  {}

  lemma StepKeepsOwned(cfg: Config, s: System, a: Action)
    requires Enabled(cfg, s, a) && Survives(s, a) && ClaimsOwned(s)
    ensures ClaimsOwned(Do(cfg, s, a))
  {
    var s' := Do(cfg, s, a);
    forall id | id in s'.tx.evaluationClaims ensures Owned(s', id) {
      if id in s.tx.evaluationClaims {
        var i :| i in s.ops && Evaluates(s.ops[i], id);
        EvaluationContinues(cfg, s, a, i, id);
      } else {
        OnlyClaimsAdd(cfg, s, a, id);
        assert Evaluates(s'.ops[a.op], id);
      }
    }
  }

  lemma OnlyClaimsAdd(cfg: Config, s: System, a: Action, id: Bytes)
    requires Enabled(cfg, s, a) && id !in s.tx.evaluationClaims && id in Do(cfg, s, a).tx.evaluationClaims
    ensures a.ClaimLiveness? && a.op in Do(cfg, s, a).ops && Evaluates(Do(cfg, s, a).ops[a.op], id)
  {
    if a.ClaimLiveness? {
      ClaimAddsItsOwn(cfg, s, a.op, id);
    } else if a.PromoteLiveness? || a.RecordUnusable? {
      FinishedAddsNone(s, a.op, id);
    } else if a.SectionDies? {
      DeathAddsNone(cfg, s, a.op, a.at, id);
    } else {
      OtherStepsLeaveClaims(cfg, s, a);
    }
  }

  lemma FinishedAddsNone(s: System, op: nat, id: Bytes)
    requires op in s.ops && id !in s.tx.evaluationClaims
    ensures s.ops[op].LivenessEvaluated? ==> id !in DoPromoteLiveness(s, op).tx.evaluationClaims
    ensures s.ops[op].LivenessUnusable? ==> id !in DoRecordUnusable(s, op).tx.evaluationClaims
  {}

  lemma DeathAddsNone(cfg: Config, s: System, op: nat, at: Death, id: Bytes)
    requires op in s.ops && DiesAt(s.ops[op], at) && id !in s.tx.evaluationClaims
    ensures id !in DoSectionDies(cfg, s, op, at).tx.evaluationClaims
  {
    if Evaluating(s.ops[op]) {
      DeathFrees(cfg, s, op, at);
    } else if !s.ops[op].LivenessKeyRead? {
      OtherDeathsLeaveClaims(cfg, s, op, at);
    }
  }

  lemma ClaimAddsItsOwn(cfg: Config, s: System, op: nat, id: Bytes)
    requires op in s.ops && s.ops[op].LivenessKeyRead?
    requires id !in s.tx.evaluationClaims && id in DoClaimLiveness(cfg, s, op).tx.evaluationClaims
    ensures op in DoClaimLiveness(cfg, s, op).ops && Evaluates(DoClaimLiveness(cfg, s, op).ops[op], id)
  {}

  lemma {:induction false} RunKeepsOwned(cfg: Config, s: System, actions: seq<Action>, s': System)
    requires ClaimsOwned(s) && SurvivingRun(cfg, s, actions, s')
    ensures ClaimsOwned(s')
    decreases |actions|
  {
    if actions != [] {
      StepKeepsOwned(cfg, s, actions[0]);
      RunKeepsOwned(cfg, Do(cfg, s, actions[0]), actions[1..], s');
    }
  }

  /** Over timely runs in which no evaluation dies, a capture is claimed exactly while a request evaluates it. */
  lemma ClaimedExactlyWhileEvaluating(cfg: Config, lockWait: real, s0: System, actions: seq<Action>, s: System, id: Bytes)
    requires Initial(s0) && DelaysFit(cfg, lockWait) && TimelyRun(cfg, lockWait, s0, actions, s) && SurvivingRun(cfg, s0, actions, s)
    ensures id in s.tx.evaluationClaims <==> Owned(s, id)
  {
    RunKeepsFlight(cfg, lockWait, s0, actions, s);
    RunKeepsOwned(cfg, s0, actions, s);
    if Owned(s, id) {
      var i :| i in s.ops && Evaluates(s.ops[i], id);
      assert OwnsClaim(s.tx, s.ops[i]);
    }
  }
}
