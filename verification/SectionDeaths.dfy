/**
 * Workers that die inside a locked section, behind a write whose status they no longer write: which of these deaths
 * the status, a submit and an authorization survive, exactly.
 */
module SectionDeaths {
  import opened Wrappers
  import opened Digests
  import opened PersonState
  import opened Integrity
  import opened Retries
  import opened Transaction
  import opened Protocol
  import opened ProtocolInvariant
  import opened ProtocolTheorems
  import opened SingleFlight
  import opened Scenarios
  import opened TornCapture
  import opened RunLaws

  /** Two captures and two portraits to tell apart. */
  datatype Material = Material(
    idA: Bytes, imageA: Bytes, idB: Bytes, imageB: Bytes, box: FaceBox, portraitA: Bytes, portraitB: Bytes)

  predicate Usable(cfg: Config, m: Material) {
    && cfg.attemptLimit >= 3 && m.idA != m.idB && m.portraitA != m.portraitB
    && Uploadable(cfg, m.idA, m.imageA) && Uploadable(cfg, m.idB, m.imageB)
  }

  /** Longer than a claim lives. */
  function Long(cfg: Config): real {
    var lifetime := ClaimLifetime(cfg.vlmTimeout, cfg.vlmMaxRetries);
    if lifetime > 0.0 then lifetime + 1.0 else 1.0
  }

  /** Lock waits with which an evaluation may outlive a claim. */
  function Slack(cfg: Config): real {
    Long(cfg) - WorstCase(cfg.providerTimeout, cfg.vlmMaxRetries)
  }

  // ---------------------------------------------------------------- the runs

  /** One capture and its evaluation, undisturbed. */
  lemma FreshPass(cfg: Config, w: real, m: Material) returns (s: System)
    requires Patient(cfg, w) && Usable(cfg, m)
    ensures Live(cfg, w, s) && s.lock.None? && s.ops == map[] && s.died == {} && s.tx.status == DECISION_READY
    ensures HasCurrentCanonicalPass(s.tx) && s.tx.authorization.None? && s.tx.portraitClaims == map[]
    ensures s.tx.original.Some? && s.tx.capture.value.faceBox.Some?
    ensures s.tx.attempts.count == 1 && s.tx.attempts.consumed == [Sha256Hex(m.idA)] == s.tx.attempts.uploaded
  {
    FreshIsLive(cfg, w);
    var first := CaptureNow(cfg, w, Fresh(), 1, m.idA, m.imageA, Some(m.box));
    s := PassedNow(cfg, w, first, 3);
  }

  /** And its portrait. */
  lemma AuthorizedNow(cfg: Config, w: real, m: Material) returns (s: System)
    requires Patient(cfg, w) && Usable(cfg, m)
    ensures Live(cfg, w, s) && s.lock.None? && s.ops == map[] && s.died == {} && s.tx.status == PORTRAIT_READY
    ensures s.tx.attempts.count == 1 && s.tx.attempts.consumed == [Sha256Hex(m.idA)] == s.tx.attempts.uploaded
  {
    var passed := FreshPass(cfg, w, m);
    s := PortraitNow(cfg, w, passed, 7, m.portraitA);
    ProcessedIsAuthorized(passed, m.portraitA);
  }

  /** A capture that dies behind its metadata. */
  lemma MetaDiesNow(cfg: Config, w: real, s: System, op: nat, attemptId: Bytes, image: Bytes) returns (s': System)
    requires Live(cfg, w, s) && Uploads(cfg, s, attemptId, image) && op !in s.ops
    ensures Live(cfg, w, s') && s'.lock.None? && s'.died == s.died + {InCapture(MetaWritten)}
    ensures s'.behind == Some(InCapture(MetaWritten)) && s'.tx.status == s.tx.status
  {
    var begun := CaptureBegun(cfg, w, s, op, attemptId, image, None);
    var written := Then(cfg, w, begun, WriteImage);
    var meta := Then(cfg, w, written, WriteMeta);
    s' := Then(cfg, w, meta, CaptureDies(REMOVED));
    BelowTheLimit(s.tx, cfg, attemptId);
  }

  lemma BelowTheLimit(t: Tx, cfg: Config, attemptId: Bytes)
    requires t.attempts.count + 1 < cfg.attemptLimit
    ensures RegisterAttempt(t, cfg, attemptId, None, true).0.status == t.status
  {}

  /** The next capture dies behind its metadata. */
  lemma CaptureLags(cfg: Config, m: Material) returns (s: System)
    requires Usable(cfg, m)
    ensures Reachable(cfg, s) && s.lock.None? && s.died == {InCapture(MetaWritten)}
    ensures s.tx.status == PORTRAIT_READY && !StatusAgrees(s.tx)
  {
    var w := Slack(cfg);
    var ready := AuthorizedNow(cfg, w, m);
    DifferentUploads(m.idA, m.idB);
    s := MetaDiesNow(cfg, w, ready, 2, m.idB, m.imageB);
    TimelyReachableIsReachable(cfg, w, s);
    StatusAgreement(cfg, s);
  }

  /** A worker dies inside the section it runs for a request. */
  lemma DiedNow(cfg: Config, w: real, s: System, op: nat, at: Death) returns (s': System)
    requires Live(cfg, w, s) && s.lock.None? && op in s.ops && DiesAt(s.ops[op], at)
    ensures DiesNow(cfg, w, s, op, at, s')
  {
    s' := Then(cfg, w, s, SectionDies(op, at));
  }

  /** A second evaluation of the capture, whose first has outlived its claim, waits for the provider. */
  lemma OverdueNow(cfg: Config, w: real, s: System, op: nat, late: nat) returns (s': System)
    requires Live(cfg, w, s) && s.ops == map[] && Unjudged(s) && s.tx.original.Some? && op != late && w == Slack(cfg)
    ensures Live(cfg, w, s')
    ensures var key, image := s.tx.capture.value.key, s.tx.original.value;
      s' == s.(now := s.now + Long(cfg), tx := ClaimedFor(s.tx, key, s.now + Long(cfg)),
               ops := map[late := LivenessImageRead(key, s.now, image), op := LivenessImageRead(key, s.now + Long(cfg), image)])
  {
    var first := ImageReadNow(cfg, w, s, late);
    var waited := ThenWait(cfg, w, first, Long(cfg));
    s' := ReclaimedNow(cfg, w, waited, op);
  }

  /** A claim that has expired is granted again. */
  lemma ReclaimedNow(cfg: Config, w: real, s: System, op: nat) returns (s': System)
    requires Live(cfg, w, s) && op !in s.ops && s.lock.None? && !Terminal(s.tx.status) && s.tx.evaluations == map[]
    requires s.tx.capture.Some? && s.tx.original.Some?
    requires var id := LivenessIdentity(s.tx.capture.value.key);
      s.tx.evaluationClaims.Keys == {id} && ClaimStale(cfg, s.tx.evaluationClaims[id], s.now)
    ensures Live(cfg, w, s')
    ensures var key := s.tx.capture.value.key;
      s' == s.(ops := s.ops[op := LivenessImageRead(key, s.now, s.tx.original.value)], tx := ClaimedFor(s.tx, key, s.now))
  {
    var read := KeyReadNow(cfg, w, s, op);
    var claimed := RegrantedNow(cfg, w, read, op);
    s' := Then(cfg, w, claimed, ReadImage(op));
  }

  lemma RegrantedNow(cfg: Config, w: real, s: System, op: nat) returns (s': System)
    requires Live(cfg, w, s) && s.lock.None? && op in s.ops && s.ops[op].LivenessKeyRead? && s.tx.evaluations == map[]
    requires var id := LivenessIdentity(s.ops[op].key);
      s.tx.evaluationClaims.Keys == {id} && ClaimStale(cfg, s.tx.evaluationClaims[id], s.now)
    ensures Live(cfg, w, s')
    ensures s' == s.(ops := s.ops[op := LivenessClaimed(s.ops[op].key, s.now)], tx := ClaimedFor(s.tx, s.ops[op].key, s.now))
  {
    s' := Then(cfg, w, s, ClaimLiveness(op));
    assert s.tx.evaluationClaims[LivenessIdentity(s.ops[op].key) := s.now] == map[LivenessIdentity(s.ops[op].key) := s.now];
  }

  /** The later one is decided, the portrait follows, and the overdue one is judged. */
  lemma DecidedTwiceNow(cfg: Config, w: real, m: Material) returns (s: System)
    requires Patient(cfg, w) && w == Slack(cfg) && Usable(cfg, m)
    ensures Live(cfg, w, s) && s.lock.None? && s.died == {} && s.tx.status == PORTRAIT_READY && s.tx.capture.Some?
    ensures 3 in s.ops && s.ops[3].LivenessEvaluated? && s.ops[3].key == s.tx.capture.value.key
    ensures s.ops[3].evaluation == AssessedEvaluation(s.ops[3].key, LIVE_ALONE)
  {
    var passed := OverdueAndPassed(cfg, w, m);
    var made := PortraitNow(cfg, w, passed, 7, m.portraitA);
    ProcessedIsAuthorized(passed, m.portraitA);
    s := JudgedNow(cfg, w, made, 3);
  }

  lemma OverdueAndPassed(cfg: Config, w: real, m: Material) returns (s: System)
    requires Patient(cfg, w) && w == Slack(cfg) && Usable(cfg, m)
    ensures Live(cfg, w, s) && s.lock.None? && s.died == {} && !Terminal(s.tx.status) && HasCurrentCanonicalPass(s.tx)
    ensures s.tx.authorization.None? && s.tx.portraitClaims == map[] && s.tx.original.Some? && s.tx.capture.value.faceBox.Some?
    ensures s.ops.Keys == {3} && s.ops[3].LivenessImageRead? && s.ops[3].key == s.tx.capture.value.key
  {
    FreshIsLive(cfg, w);
    var first := CaptureNow(cfg, w, Fresh(), 1, m.idA, m.imageA, Some(m.box));
    var both := OverdueNow(cfg, w, first, 4, 3);
    var judged := JudgedNow(cfg, w, both, 4);
    s := DecidedNow(cfg, w, judged, 4);
    PassedAfterAll(first, both, 4);
  }

  lemma PassedAfterAll(first: System, both: System, op: nat)
    requires op in both.ops && both.ops[op].LivenessImageRead? && Unjudged(first) && first.tx.capture.value.key == both.ops[op].key
    requires both.tx.capture == first.tx.capture && both.tx.status == first.tx.status && both.died == first.died && both.lock.None?
    requires both.tx.authorization == first.tx.authorization && both.tx.portraitClaims == first.tx.portraitClaims
    requires both.tx.original == first.tx.original
    ensures var s := DoPromoteLiveness(DoProviderAssesses(both, op, LIVE_ALONE), op);
      && s.ops == both.ops - {op} && s.lock.None? && s.died == first.died && !Terminal(s.tx.status)
      && HasCurrentCanonicalPass(s.tx) && s.tx.capture == first.tx.capture && s.tx.original == first.tx.original
      && s.tx.authorization == first.tx.authorization && s.tx.portraitClaims == first.tx.portraitClaims
  {}

  /** A second decision is written without its status. */
  lemma DecisionLags(cfg: Config, m: Material) returns (s: System)
    requires Usable(cfg, m)
    ensures Reachable(cfg, s) && s.lock.None? && s.died == {DecisionWritten}
    ensures s.tx.status == PORTRAIT_READY && !StatusAgrees(s.tx)
  {
    var w := Slack(cfg);
    var ready := DecidedTwiceNow(cfg, w, m);
    DecisionIsNew(ready.tx, ready.ops[3].key, ready.nextDecision);
    s := DiedNow(cfg, w, ready, 3, DecisionWritten);
    DecisionDies(cfg, ready, 3);
    TimelyReachableIsReachable(cfg, w, s);
    StatusAgreement(cfg, s);
  }

  lemma DecisionDies(cfg: Config, s: System, op: nat)
    requires op in s.ops && s.ops[op].LivenessEvaluated?
    requires PromoteEvaluation(s.tx, s.ops[op].key, s.ops[op].evaluation, s.nextDecision).1.Decided?
    ensures var s' := DoSectionDies(cfg, s, op, DecisionWritten);
      && s'.lock == s.lock && s'.died == s.died + {DecisionWritten} && s'.behind == Some(DecisionWritten)
      && s'.tx.status == s.tx.status
  {}

  lemma DecisionIsNew(t: Tx, key: Key, decisionId: nat)
    requires CurrentKeyIs(t, key)
    ensures PromoteEvaluation(t, key, AssessedEvaluation(key, LIVE_ALONE), decisionId).1.Decided?
  {}

  /** A portrait run of a fresh pass has its image when its claim expires. */
  lemma ReadingNow(cfg: Config, w: real, m: Material) returns (s: System)
    requires Patient(cfg, w) && Usable(cfg, m)
    ensures Live(cfg, w, s) && s.lock.None? && s.died == {} && !Terminal(s.tx.status)
    ensures HasCurrentCanonicalPass(s.tx) && s.tx.authorization.None? && s.tx.original.Some? && s.tx.capture.value.faceBox.Some?
    ensures s.ops.Keys == {8} && s.ops[8].PortraitImageRead? && SnapshotMatchesCurrent(s.tx, s.ops[8].snapshot)
    ensures forall id :: id in s.tx.portraitClaims ==> ClaimStale(cfg, s.tx.portraitClaims[id], s.now)
  {
    var passed := FreshPass(cfg, w, m);
    var reading := PortraitReadNow(cfg, w, passed, 8);
    s := ThenWait(cfg, w, reading, Long(cfg));
  }

  lemma PortraitReadNow(cfg: Config, w: real, s: System, op: nat) returns (s': System)
    requires Live(cfg, w, s) && op !in s.ops && s.lock.None? && !Terminal(s.tx.status) && s.tx.original.Some?
    requires HasCurrentCanonicalPass(s.tx) && !PortraitAuthorizationCurrent(s.tx) && s.tx.portraitClaims == map[]
    requires s.tx.capture.value.faceBox.Some?
    ensures Live(cfg, w, s') && op in s'.ops && s'.ops[op].PortraitImageRead? && s'.ops[op].snapshot == CaptureSnapshot(s.tx).value
    ensures s' == s.(ops := s.ops[op := s'.ops[op]], tx := s.tx.(portraitClaims := s'.tx.portraitClaims))
    ensures forall id :: id in s'.tx.portraitClaims ==> s'.tx.portraitClaims[id] == s.now
  {
    var granted := PortraitGrantedNow(cfg, w, s, op);
    s' := Then(cfg, w, granted, ReadImage(op));
  }

  /** The expired claim is granted again, and that run finishes. */
  lemma SecondPortraitNow(cfg: Config, w: real, s: System, output: Bytes) returns (s': System)
    requires Live(cfg, w, s) && s.lock.None? && s.died == {} && !Terminal(s.tx.status) && s.ops.Keys == {8}
    requires HasCurrentCanonicalPass(s.tx) && s.tx.authorization.None? && s.tx.original.Some? && s.tx.capture.value.faceBox.Some?
    requires forall id :: id in s.tx.portraitClaims ==> ClaimStale(cfg, s.tx.portraitClaims[id], s.now)
    ensures Live(cfg, w, s') && s'.lock.None? && s'.died == {} && s'.ops == s.ops
    ensures s'.tx.status == PORTRAIT_READY && PortraitAuthorizationCurrent(s'.tx) && s'.tx.portrait == Some(output)
    ensures CaptureSnapshot(s'.tx) == CaptureSnapshot(s.tx)
  {
    var claimed := PortraitReclaimedNow(cfg, w, s, 7);
    s' := FinishedNow(cfg, w, claimed, 7, output);
    var snapshot := CaptureSnapshot(s.tx).value;
    FinishedIsAuthorized(claimed.tx, snapshot, output);
    assert s'.ops == s.ops;
  }

  lemma PortraitReclaimedNow(cfg: Config, w: real, s: System, op: nat) returns (s': System)
    requires Live(cfg, w, s) && s.lock.None? && op !in s.ops && !Terminal(s.tx.status)
    requires HasCurrentCanonicalPass(s.tx) && s.tx.authorization.None? && s.tx.capture.value.faceBox.Some?
    requires forall id :: id in s.tx.portraitClaims ==> ClaimStale(cfg, s.tx.portraitClaims[id], s.now)
    ensures Live(cfg, w, s') && op in s'.ops && s'.ops[op].PortraitClaimed? && s'.ops[op].snapshot == CaptureSnapshot(s.tx).value
    ensures s' == s.(ops := s.ops[op := s'.ops[op]], tx := s.tx.(portraitClaims := s'.tx.portraitClaims))
  {
    var boxRead := BoxReadNow(cfg, w, s, op);
    s' := PortraitRegrantedNow(cfg, w, boxRead, op);
  }

  lemma PortraitRegrantedNow(cfg: Config, w: real, s: System, op: nat) returns (s': System)
    requires Live(cfg, w, s) && s.lock.None? && op in s.ops && s.ops[op].PortraitBoxRead?
    requires HasCurrentCanonicalPass(s.tx) && s.tx.authorization.None?
    requires forall id :: id in s.tx.portraitClaims ==> ClaimStale(cfg, s.tx.portraitClaims[id], s.now)
    ensures Live(cfg, w, s')
    ensures s' == s.(ops := s.ops[op := PortraitClaimed(CaptureSnapshot(s.tx).value, s.ops[op].faceBox, s.ops[op].boxFrom)],
                     tx := s.tx.(portraitClaims := s'.tx.portraitClaims))
  {
    s' := Then(cfg, w, s, ClaimForPortrait(op));
  }

  lemma FinishedIsAuthorized(t: Tx, snapshot: Snapshot, output: Bytes)
    requires SnapshotMatchesCurrent(t, snapshot) && !Terminal(t.status)
    ensures var staged := t.(candidates := t.candidates[LivenessIdentity(snapshot.key) := output]);
      var t' := PromotePortrait(staged, snapshot).0;
      && t'.status == PORTRAIT_READY && PortraitAuthorizationCurrent(t') && t'.portrait == Some(output)
      && CaptureSnapshot(t') == CaptureSnapshot(t)
  {
    NewPortraitAuthorized(t.(candidates := t.candidates[LivenessIdentity(snapshot.key) := output]), snapshot);
  }

  /** Two portrait runs of one pass; the later one is promoted, and the overdue one still has its image. */
  lemma TwoPortraits(cfg: Config, w: real, m: Material) returns (s: System)
    requires Patient(cfg, w) && Usable(cfg, m)
    ensures Live(cfg, w, s) && s.lock.None? && s.died == {} && s.ops.Keys == {8} && s.ops[8].PortraitImageRead?
    ensures s.tx.status == PORTRAIT_READY && PortraitAuthorizationCurrent(s.tx) && s.tx.portrait == Some(m.portraitA)
    ensures SnapshotMatchesCurrent(s.tx, s.ops[8].snapshot)
  {
    var reading := ReadingNow(cfg, w, m);
    s := SecondPortraitNow(cfg, w, reading, m.portraitA);
  }

  /** The overdue run is about to write another portrait. */
  ghost predicate Overdue(cfg: Config, w: real, s: System, m: Material) {
    && Live(cfg, w, s) && s.lock.None? && s.died == {} && 8 in s.ops && s.ops[8].PortraitImageRead?
    && s.tx.status == PORTRAIT_READY && PortraitAuthorizationCurrent(s.tx) && s.tx.portrait == Some(m.portraitA)
    && SnapshotMatchesCurrent(s.tx, s.ops[8].snapshot) && m.portraitA != m.portraitB
  }

  /** It writes it without the authorization. */
  lemma PortraitLags(cfg: Config, w: real, ready: System, m: Material, at: Death) returns (staged: System, s: System)
    requires Overdue(cfg, w, ready, m) && at in {PortraitWritten, CandidateRemoved}
    ensures StagesNow(cfg, w, ready, 8, m.portraitB, staged) && DiesNow(cfg, w, staged, 8, at, s)
    ensures s.lock.None? && s.died == {at} && s.tx.status == PORTRAIT_READY && !PortraitAuthorizationCurrent(s.tx)
  {
    staged := StageAgainNow(cfg, w, ready, 8, m.portraitB);
    StagedPortrait(ready, m, staged);
    s := DiedNow(cfg, w, staged, 8, at);
    OtherPortrait(ready.tx, ready.ops[8].snapshot, m, at);
    PortraitDies(cfg, staged, 8, at);
  }

  ghost predicate StagesNow(cfg: Config, w: real, s: System, op: nat, output: Bytes, s': System) {
    && op in s.ops && s.ops[op].PortraitImageRead? && s' == DoStageCandidate(s, op, output)
    && Live(cfg, w, s) && Live(cfg, w, s')
  }

  ghost predicate DiesNow(cfg: Config, w: real, s: System, op: nat, at: Death, s': System) {
    && op in s.ops && DiesAt(s.ops[op], at) && s.lock.None? && s' == DoSectionDies(cfg, s, op, at)
    && Live(cfg, w, s) && Live(cfg, w, s')
  }

  lemma StageAgainNow(cfg: Config, w: real, s: System, op: nat, output: Bytes) returns (s': System)
    requires Live(cfg, w, s) && op in s.ops && s.ops[op].PortraitImageRead?
    ensures StagesNow(cfg, w, s, op, output, s')
  {
    s' := Then(cfg, w, s, StageCandidate(op, output));
  }

  lemma StagedPortrait(ready: System, m: Material, staged: System)
    requires 8 in ready.ops && ready.ops[8].PortraitImageRead? && staged == DoStageCandidate(ready, 8, m.portraitB)
    ensures 8 in staged.ops && staged.ops[8] == PortraitStaged(ready.ops[8].snapshot)
    ensures staged.lock == ready.lock && staged.died == ready.died
    ensures staged.tx == ready.tx.(candidates := ready.tx.candidates[LivenessIdentity(ready.ops[8].snapshot.key) := m.portraitB])
  {}

  lemma PortraitDies(cfg: Config, s: System, op: nat, at: Death)
    requires op in s.ops && s.ops[op].PortraitStaged? && DiesAt(s.ops[op], at)
    ensures DoSectionDies(cfg, s, op, at).tx == PortraitDeath(s.tx, s.ops[op].snapshot, at)
    ensures DoSectionDies(cfg, s, op, at).lock == s.lock && DoSectionDies(cfg, s, op, at).died == s.died + {at}
  {}

  lemma OtherPortrait(t: Tx, snapshot: Snapshot, m: Material, at: Death)
    requires PortraitAuthorizationCurrent(t) && t.portrait == Some(m.portraitA) && SnapshotMatchesCurrent(t, snapshot)
    requires m.portraitA != m.portraitB && at in {PortraitWritten, CandidateRemoved}
    ensures var t' := PortraitDeath(t.(candidates := t.candidates[LivenessIdentity(snapshot.key) := m.portraitB]), snapshot, at);
      t'.status == t.status && !PortraitAuthorizationCurrent(t')
  {
    DifferentUploads(m.portraitA, m.portraitB);
  }

  /** A first portrait and its authorization are written without the status. */
  lemma AuthorizationLags(cfg: Config, m: Material) returns (s: System)
    requires Usable(cfg, m)
    ensures Reachable(cfg, s) && s.lock.None? && s.died == {AuthorizationWritten} && !Terminal(s.tx.status) && !StatusAgrees(s.tx)
  {
    var w := Slack(cfg);
    var passed := FreshPass(cfg, w, m);
    var granted := PortraitGrantedNow(cfg, w, passed, 7);
    s := AuthorizationDiesNow(cfg, w, granted, m.portraitA);
    TimelyReachableIsReachable(cfg, w, s);
    StatusAgreement(cfg, s);
  }

  lemma AuthorizationDiesNow(cfg: Config, w: real, s: System, output: Bytes) returns (s': System)
    requires Live(cfg, w, s) && s.lock.None? && s.died == {} && s.tx.status == DECISION_READY && s.tx.original.Some?
    requires 7 in s.ops && s.ops[7].PortraitClaimed? && SnapshotMatchesCurrent(s.tx, s.ops[7].snapshot)
    ensures Live(cfg, w, s') && s'.lock.None? && s'.died == {AuthorizationWritten} && s'.tx.status == DECISION_READY
    ensures s'.behind == Some(AuthorizationWritten)
  {
    var staged := StagedNow(cfg, w, s, 7, output);
    s' := DiedNow(cfg, w, staged, 7, AuthorizationWritten);
  }

  // ---------------------------------------------------------------- what survives which deaths

  /** With no lock held, a non-terminal status says which artifacts are current. */
  ghost predicate StatusSpeaks(s: System) {
    s.lock.None? && !Terminal(s.tx.status) ==> StatusAgrees(s.tx)
  }

  /** With deaths behind the allowed writes, the status always agrees: exactly when it follows each of them. */
  lemma StatusExactly(cfg: Config, allowed: set<Death>, m: Material)
    requires Usable(cfg, m)
    ensures (forall s :: ReachableDying(cfg, allowed, s) ==> StatusSpeaks(s)) <==> forall d :: d in allowed ==> !LeavesBehind(d)
  {
    if d :| d in allowed && LeavesBehind(d) {
      var s := LagsBehind(cfg, m, d);
      assert ReachableDying(cfg, allowed, s);
    } else {
      forall s | ReachableDying(cfg, allowed, s) ensures StatusSpeaks(s) {
        StatusAgreement(cfg, s);
      }
    }
  }

  lemma LagsBehind(cfg: Config, m: Material, d: Death) returns (s: System)
    requires Usable(cfg, m) && LeavesBehind(d)
    ensures Reachable(cfg, s) && s.died == {d} && !StatusSpeaks(s)
    ensures !d.AuthorizationWritten? ==> s.lock.None? && s.tx.status == PORTRAIT_READY
  {
    match d
    case InCapture(_) => s := CaptureLags(cfg, m);
    case DecisionWritten => s := DecisionLags(cfg, m);
    case AuthorizationWritten => s := AuthorizationLags(cfg, m);
    case _ => s := SecondPortraitLags(cfg, m, d);
  }

  lemma SecondPortraitLags(cfg: Config, m: Material, d: Death) returns (s: System)
    requires Usable(cfg, m) && d in {PortraitWritten, CandidateRemoved}
    ensures Reachable(cfg, s) && s.lock.None? && s.died == {d} && s.tx.status == PORTRAIT_READY && !StatusAgrees(s.tx)
  {
    var ready := TwoPortraits(cfg, Slack(cfg), m);
    var staged;
    staged, s := PortraitLags(cfg, Slack(cfg), ready, m, d);
    TimelyReachableIsReachable(cfg, Slack(cfg), s);
  }

  /** A transaction whose status promises a portrait is not refused by a submit as not ready. */
  ghost predicate KeepsItsWord(cfg: Config, s: System, input: SubmitInput) {
    Enabled(cfg, s, SubmitNow(input)) && s.tx.status in {PORTRAIT_READY, CALLBACK_FAILED} ==> Submit(s.tx, input).1 != NotReady
  }

  /** With deaths behind the allowed writes, it always is: exactly when each of them leaves an authorized portrait. */
  lemma SendableExactly(cfg: Config, allowed: set<Death>, m: Material, input: SubmitInput)
    requires Usable(cfg, m) && |input.script| == cfg.callbackMaxRetries + 1
    ensures (forall s :: ReachableDying(cfg, allowed, s) ==> KeepsItsWord(cfg, s, input)) <==>
            forall d :: d in allowed && LeavesBehind(d) ==> d.AuthorizationWritten?
  {
    if d :| d in allowed && LeavesBehind(d) && !d.AuthorizationWritten? {
      var s := Broken(cfg, m, d, input);
      assert ReachableDying(cfg, allowed, s);
    } else {
      forall s | ReachableDying(cfg, allowed, s) ensures KeepsItsWord(cfg, s, input) {
        if Enabled(cfg, s, SubmitNow(input)) && s.tx.status in {PORTRAIT_READY, CALLBACK_FAILED} {
          StatusAgreement(cfg, s);
          ReadyMeansSendable(cfg, s, input);
        }
      }
    }
  }

  lemma Broken(cfg: Config, m: Material, d: Death, input: SubmitInput) returns (s: System)
    requires Usable(cfg, m) && |input.script| == cfg.callbackMaxRetries + 1 && LeavesBehind(d) && !d.AuthorizationWritten?
    ensures Reachable(cfg, s) && s.died == {d} && !KeepsItsWord(cfg, s, input)
  {
    s := LagsBehind(cfg, m, d);
    StatusAgreement(cfg, s);
    ReadyMeansSendable(cfg, s, input);
  }

  /** From an authorized state in time, a run without another capture and with no deaths but these. */
  ghost predicate Continues(cfg: Config, w: real, allowed: set<Death>, s: System, actions: seq<Action>, s': System) {
    && TimelyReachable(cfg, w, s) && PortraitAuthorizationCurrent(s.tx) && TimelyRun(cfg, w, s, actions, s')
    && WriteMeta !in actions && s'.died <= allowed
  }

  /**
   * Over timely runs, when the longest evaluation fits in a claim, an authorized capture stays authorized until the
   * next one is accepted: exactly when no worker dies between a portrait and its authorization.
   */
  lemma AuthorizationExactly(cfg: Config, w: real, allowed: set<Death>, m: Material)
    requires Usable(cfg, m) && Patient(cfg, w) && DelaysFit(cfg, w)
    ensures (forall s, actions, s' :: Continues(cfg, w, allowed, s, actions, s') ==> PortraitAuthorizationCurrent(s'.tx)) <==>
            PortraitWritten !in allowed && CandidateRemoved !in allowed
  {
    if at :| at in allowed && at in {PortraitWritten, CandidateRemoved} {
      var ready, actions, s := Unauthorized(cfg, w, m, at);
      assert Continues(cfg, w, allowed, ready, actions, s);
    } else {
      forall s, actions, s' | Continues(cfg, w, allowed, s, actions, s') ensures PortraitAuthorizationCurrent(s'.tx) {
        RunRecordsDeaths(cfg, w, s, actions, s');
        AuthorizedUntilNextCapture(cfg, w, s, actions, s');
      }
    }
  }

  lemma Unauthorized(cfg: Config, w: real, m: Material, at: Death) returns (ready: System, actions: seq<Action>, s: System)
    requires Usable(cfg, m) && Patient(cfg, w) && at in {PortraitWritten, CandidateRemoved}
    ensures Continues(cfg, w, {at}, ready, actions, s) && !PortraitAuthorizationCurrent(s.tx)
  {
    ready := TwoPortraits(cfg, w, m);
    var staged;
    staged, s := PortraitLags(cfg, w, ready, m, at);
    actions := OverdueRun(cfg, w, ready, m, staged, at, s);
  }

  lemma OverdueRun(cfg: Config, w: real, ready: System, m: Material, staged: System, at: Death, s: System)
    returns (actions: seq<Action>)
    requires StagesNow(cfg, w, ready, 8, m.portraitB, staged) && DiesNow(cfg, w, staged, 8, at, s)
    ensures TimelyRun(cfg, w, ready, actions, s) && WriteMeta !in actions
  {
    actions := [StageCandidate(8, m.portraitB), SectionDies(8, at)];
    assert TimelyRun(cfg, w, ready, [], ready);
    RunThen(cfg, w, ready, [], ready, StageCandidate(8, m.portraitB));
    RunThen(cfg, w, ready, [] + [StageCandidate(8, m.portraitB)], staged, SectionDies(8, at));
    assert actions == [] + [StageCandidate(8, m.portraitB)] + [SectionDies(8, at)];
  }

  lemma StepRecordsDeaths(cfg: Config, s: System, a: Action)
    requires Enabled(cfg, s, a)
    ensures s.died <= Do(cfg, s, a).died && (a.SectionDies? ==> a.at in Do(cfg, s, a).died)
  {}

  lemma {:induction false} RunRecordsDeaths(cfg: Config, w: real, s: System, actions: seq<Action>, s': System)
    requires TimelyRun(cfg, w, s, actions, s')
    ensures s.died <= s'.died && forall a :: a in actions && a.SectionDies? ==> a.at in s'.died
    decreases |actions|
  {
    if actions != [] {
      StepRecordsDeaths(cfg, s, actions[0]);
      RunRecordsDeaths(cfg, w, Do(cfg, s, actions[0]), actions[1..], s');
    }
  }
}
