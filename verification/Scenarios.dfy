/** Concrete runs, for statements that some behaviour does happen. */
module Scenarios {
  import opened Wrappers
  import opened Digests
  import opened PersonState
  import opened Integrity
  import opened Callback
  import opened Transaction
  import opened Protocol
  import opened ProtocolInvariant
  import opened ProtocolFrames
  import opened SingleFlight

  const REMOVED := Leftover(false, false, false)

  lemma {:induction false} RunThen(cfg: Config, w: real, s0: System, actions: seq<Action>, s: System, a: Action)
    requires TimelyRun(cfg, w, s0, actions, s) && Enabled(cfg, s, a) && Timely(cfg, w, Do(cfg, s, a))
    ensures TimelyRun(cfg, w, s0, actions + [a], Do(cfg, s, a))
    decreases |actions|
  {
    if actions == [] {
      assert [a][1..] == [];
      assert TimelyRun(cfg, w, Do(cfg, s, a), [], Do(cfg, s, a));
      assert actions + [a] == [a];
    } else {
      RunThen(cfg, w, Do(cfg, s0, actions[0]), actions[1..], s, a);
      assert (actions + [a])[1..] == actions[1..] + [a];
    }
  }

  lemma {:induction false} TimelyRunIsRun(cfg: Config, w: real, s: System, actions: seq<Action>, s': System)
    requires TimelyRun(cfg, w, s, actions, s')
    ensures Run(cfg, s, actions, s')
    decreases |actions|
  {
    if actions != [] {
      TimelyRunIsRun(cfg, w, Do(cfg, s, actions[0]), actions[1..], s');
    }
  }

  lemma TimelyReachableIsReachable(cfg: Config, w: real, s: System)
    requires TimelyReachable(cfg, w, s)
    ensures Reachable(cfg, s)
  {
    var s0, actions :| Initial(s0) && TimelyRun(cfg, w, s0, actions, s);
    TimelyRunIsRun(cfg, w, s0, actions, s);
  }

  /** There is room for a claim that has just been granted. */
  predicate Patient(cfg: Config, w: real) {
    Retries.WorstCase(cfg.providerTimeout, cfg.vlmMaxRetries) + w >= 0.0
  }

  /** Reached in time. */
  ghost predicate Live(cfg: Config, w: real, s: System) {
    TimelyReachable(cfg, w, s) && Timely(cfg, w, s) && Patient(cfg, w)
  }

  /** Only time makes an evaluation late. */
  lemma StepIsTimely(cfg: Config, w: real, s: System, a: Action)
    requires Live(cfg, w, s) && Enabled(cfg, s, a) && !a.Tick?
    ensures Timely(cfg, w, Do(cfg, s, a))
  {
    var s' := Do(cfg, s, a);
    OnlyTicksTakeTime(cfg, s, a);
    forall i | i in s'.ops && Evaluating(s'.ops[i])
      ensures s'.now - s'.ops[i].since <= Retries.WorstCase(cfg.providerTimeout, cfg.vlmMaxRetries) + w
    {
      if OpOf(a) != Some(i) {
        OnlyItsOp(cfg, s, a, i);
      } else if a.ClaimLiveness? {
        GrantedNow(cfg, s, a.op);
      } else {
        EvaluationStems(cfg, s, a, i);
      }
    }
  }

  lemma OnlyTicksTakeTime(cfg: Config, s: System, a: Action)
    requires Enabled(cfg, s, a) && !a.Tick?
    ensures Do(cfg, s, a).now == s.now
  {}

  lemma GrantedNow(cfg: Config, s: System, op: nat)
    requires op in s.ops && s.ops[op].LivenessKeyRead?
    requires op in DoClaimLiveness(cfg, s, op).ops
    ensures DoClaimLiveness(cfg, s, op).ops[op] == LivenessClaimed(s.ops[op].key, s.now)
  {}

  /** Appends one step to a run. */
  lemma Then(cfg: Config, w: real, s: System, a: Action) returns (s': System)
    requires Live(cfg, w, s) && Enabled(cfg, s, a) && !a.Tick?
    ensures s' == Do(cfg, s, a) && Live(cfg, w, s')
  {
    s' := Do(cfg, s, a);
    StepIsTimely(cfg, w, s, a);
    var s0, actions :| Initial(s0) && TimelyRun(cfg, w, s0, actions, s);
    RunThen(cfg, w, s0, actions, s, a);
  }

  /** Time passes, for no longer than the evaluations in flight may take. */
  lemma ThenWait(cfg: Config, w: real, s: System, seconds: real) returns (s': System)
    requires Live(cfg, w, s) && seconds >= 0.0 && Timely(cfg, w, DoTick(s, seconds))
    ensures s' == DoTick(s, seconds) && Live(cfg, w, s')
  {
    s' := DoTick(s, seconds);
    var s0, actions :| Initial(s0) && TimelyRun(cfg, w, s0, actions, s);
    RunThen(cfg, w, s0, actions, s, Tick(seconds));
  }

  function Fresh(): System {
    System(Launched([], []), map[], None, 0.0, 0, [], {}, {}, [], {}, false, None)
  }

  lemma FreshIsLive(cfg: Config, w: real)
    requires Patient(cfg, w)
    ensures Live(cfg, w, Fresh())
  {
    assert TimelyRun(cfg, w, Fresh(), [], Fresh());
  }

  /** A first upload under `attemptId` that stays below the limit. */
  predicate Uploads(cfg: Config, s: System, attemptId: Bytes, data: Bytes) {
    && s.lock.None? && !Terminal(s.tx.status) && Uploadable(cfg, attemptId, data)
    && Sha256Hex(attemptId) !in s.tx.attempts.consumed && Sha256Hex(attemptId) !in s.tx.attempts.uploaded
    && s.tx.attempts.count + 1 < cfg.attemptLimit
  }

  /** The state after an undisturbed capture. */
  function Captured(cfg: Config, s: System, attemptId: Bytes, data: Bytes, box: Option<FaceBox>): System {
    s.(tx := AcceptCapture(s.tx, cfg, attemptId, data, box, REMOVED), accepted := s.accepted + [Key(attemptId, Sha256Hex(data))],
       torn := false, behind := None)
  }

  lemma CaptureBegun(cfg: Config, w: real, s: System, op: nat, attemptId: Bytes, data: Bytes, box: Option<FaceBox>)
    returns (s': System)
    requires Live(cfg, w, s) && Uploads(cfg, s, attemptId, data) && op !in s.ops
    ensures Live(cfg, w, s')
    ensures s' == s.(tx := RegisterAttempt(s.tx, cfg, attemptId, None, true).0,
                     lock := Some(CaptureLock(Key(attemptId, Sha256Hex(data)), data, box, Begun)))
  {
    var s1 := Then(cfg, w, s, ArriveCapture(op, attemptId, data, box));
    FirstRegistration(cfg, s1, op);
    s' := Then(cfg, w, s1, BeginCapture(op));
    assert s'.ops == s.ops;
  }

  lemma FirstRegistration(cfg: Config, s: System, op: nat)
    requires op in s.ops && s.ops[op].CaptureAdmitted? && Uploads(cfg, s, s.ops[op].attemptId, s.ops[op].data)
    ensures var o := s.ops[op];
      DoBeginCapture(cfg, s, op) == Without(s, op).(
        tx := RegisterAttempt(s.tx, cfg, o.attemptId, None, true).0,
        lock := Some(CaptureLock(Key(o.attemptId, Sha256Hex(o.data)), o.data, o.captureBox, Begun)))
  {}

  lemma CaptureNow(cfg: Config, w: real, s: System, op: nat, attemptId: Bytes, data: Bytes, box: Option<FaceBox>)
    returns (s': System)
    requires Live(cfg, w, s) && Uploads(cfg, s, attemptId, data) && op !in s.ops
    ensures s' == Captured(cfg, s, attemptId, data, box) && Live(cfg, w, s')
  {
    var s2 := CaptureBegun(cfg, w, s, op, attemptId, data, box);
    var s3 := Then(cfg, w, s2, WriteImage);
    var s4 := Then(cfg, w, s3, WriteMeta);
    s' := Then(cfg, w, s4, EndCapture(REMOVED));
  }

  predicate Unjudged(s: System) {
    && s.lock.None? && !Terminal(s.tx.status) && s.tx.capture.Some?
    && s.tx.evaluations == map[] && s.tx.evaluationClaims == map[]
  }

  /** A liveness request reads the key of the stored capture. */
  lemma KeyReadNow(cfg: Config, w: real, s: System, op: nat) returns (s': System)
    requires Live(cfg, w, s) && op !in s.ops && !Terminal(s.tx.status) && s.tx.capture.Some?
    ensures Live(cfg, w, s')
    ensures s' == s.(ops := s.ops[op := LivenessKeyRead(s.tx.capture.value.key)])
  {
    var s1 := Then(cfg, w, s, ArriveLiveness(op));
    s' := Then(cfg, w, s1, ReadKey(op));
  }

  /** Digests of different attempts are different. */
  lemma DifferentUploads(a: Bytes, b: Bytes)
    requires a != b
    ensures Sha256Hex(a) != Sha256Hex(b)
  {
    if Sha256Hex(a) == Sha256Hex(b) {
      Sha256Injective(a, b);
    }
  }

  const LIVE_ALONE := Assessment(Some(LIVE), Some(ONE), Some(NONE))

  function ClaimedFor(t: Tx, key: Key, now: real): Tx {
    t.(evaluationClaims := map[LivenessIdentity(key) := now])
  }

  /** A liveness request is granted the claim of the stored capture. */
  lemma ClaimGrantedNow(cfg: Config, w: real, s: System, op: nat) returns (s': System)
    requires Live(cfg, w, s) && op !in s.ops && Unjudged(s)
    ensures Live(cfg, w, s')
    ensures var key := s.tx.capture.value.key;
      s' == s.(ops := s.ops[op := LivenessClaimed(key, s.now)], tx := ClaimedFor(s.tx, key, s.now))
  {
    var s1 := KeyReadNow(cfg, w, s, op);
    s' := Then(cfg, w, s1, ClaimLiveness(op));
  }

  /** A liveness request reaches the provider with the stored image. */
  lemma ImageReadNow(cfg: Config, w: real, s: System, op: nat) returns (s': System)
    requires Live(cfg, w, s) && op !in s.ops && Unjudged(s) && s.tx.original.Some?
    ensures Live(cfg, w, s')
    ensures var key := s.tx.capture.value.key;
      s' == s.(ops := s.ops[op := LivenessImageRead(key, s.now, s.tx.original.value)], tx := ClaimedFor(s.tx, key, s.now))
  {
    var s1 := ClaimGrantedNow(cfg, w, s, op);
    s' := Then(cfg, w, s1, ReadImage(op));
  }

  /** The state after an undisturbed evaluation that finds one live subject. */
  function Passed(s: System): System
    requires s.tx.capture.Some? && s.tx.original.Some?
  {
    var key := s.tx.capture.value.key;
    s.(tx := PromoteEvaluation(s.tx, key, AssessedEvaluation(key, LIVE_ALONE), s.nextDecision).0,
       nextDecision := s.nextDecision + 1, evaluated := s.evaluated + {(s.tx.original.value, LIVE_ALONE)}, behind := None)
  }

  lemma JudgedNow(cfg: Config, w: real, s: System, op: nat) returns (s': System)
    requires Live(cfg, w, s) && op in s.ops && s.ops[op].LivenessImageRead?
    ensures Live(cfg, w, s') && s' == DoProviderAssesses(s, op, LIVE_ALONE)
  {
    s' := Then(cfg, w, s, ProviderAssesses(op, LIVE, ONE, NONE));
  }

  lemma DecidedNow(cfg: Config, w: real, s: System, op: nat) returns (s': System)
    requires Live(cfg, w, s) && op in s.ops && s.ops[op].LivenessEvaluated? && s.lock.None?
    ensures Live(cfg, w, s') && s' == DoPromoteLiveness(s, op)
  {
    s' := Then(cfg, w, s, PromoteLiveness(op));
  }

  /** The state after an undisturbed evaluation is this one. */
  lemma PassedIs(s: System, op: nat)
    requires op !in s.ops && Unjudged(s) && s.tx.original.Some?
    ensures var key := s.tx.capture.value.key;
      var read := s.(ops := s.ops[op := LivenessImageRead(key, s.now, s.tx.original.value)], tx := ClaimedFor(s.tx, key, s.now));
      DoPromoteLiveness(DoProviderAssesses(read, op, LIVE_ALONE), op) == Passed(s)
  {
    var key := s.tx.capture.value.key;
    var id := LivenessIdentity(key);
    var read := s.(ops := s.ops[op := LivenessImageRead(key, s.now, s.tx.original.value)], tx := ClaimedFor(s.tx, key, s.now));
    var judged := DoProviderAssesses(read, op, LIVE_ALONE);
    assert judged.ops - {op} == s.ops;
    assert judged.tx.evaluationClaims - {id} == s.tx.evaluationClaims - {id};
    assert PromoteEvaluation(judged.tx, key, AssessedEvaluation(key, LIVE_ALONE), s.nextDecision) ==
           PromoteEvaluation(s.tx, key, AssessedEvaluation(key, LIVE_ALONE), s.nextDecision);
  }

  lemma PassedNow(cfg: Config, w: real, s: System, op: nat) returns (s': System)
    requires Live(cfg, w, s) && op !in s.ops && Unjudged(s) && s.tx.original.Some?
    ensures Live(cfg, w, s') && s' == Passed(s) && HasCurrentCanonicalPass(s'.tx)
  {
    PassedIs(s, op);
    var read := ImageReadNow(cfg, w, s, op);
    var judged := JudgedNow(cfg, w, read, op);
    s' := DecidedNow(cfg, w, judged, op);
  }

  /** A portrait request reads the stored box. */
  lemma BoxReadNow(cfg: Config, w: real, s: System, op: nat) returns (s': System)
    requires Live(cfg, w, s) && op !in s.ops && !Terminal(s.tx.status)
    requires s.tx.capture.Some? && s.tx.capture.value.faceBox.Some?
    ensures Live(cfg, w, s')
    ensures var capture := s.tx.capture.value;
      s' == s.(ops := s.ops[op := PortraitBoxRead(capture.faceBox.value, Some(capture.key))])
  {
    var s1 := Then(cfg, w, s, ArrivePortrait(op, None));
    s' := Then(cfg, w, s1, ReadBox(op));
  }

  /** It claims the current pass. */
  lemma PortraitClaimedNow(cfg: Config, w: real, s: System, op: nat) returns (s': System)
    requires Live(cfg, w, s) && s.lock.None? && op in s.ops && s.ops[op].PortraitBoxRead?
    requires HasCurrentCanonicalPass(s.tx) && !PortraitAuthorizationCurrent(s.tx) && s.tx.portraitClaims == map[]
    ensures Live(cfg, w, s')
    ensures var snapshot := CaptureSnapshot(s.tx).value;
      s' == s.(ops := s.ops[op := PortraitClaimed(snapshot, s.ops[op].faceBox, s.ops[op].boxFrom)],
               tx := s.tx.(portraitClaims := map[LivenessIdentity(snapshot.key) := s.now]))
  {
    s' := Then(cfg, w, s, ClaimForPortrait(op));
  }

  /** It stages what it made of the stored image. */
  lemma StagedNow(cfg: Config, w: real, s: System, op: nat, output: Bytes) returns (s': System)
    requires Live(cfg, w, s) && op in s.ops && s.ops[op].PortraitClaimed? && s.tx.original.Some?
    ensures Live(cfg, w, s')
    ensures var snapshot := s.ops[op].snapshot;
      s' == s.(ops := s.ops[op := PortraitStaged(snapshot)],
               tx := s.tx.(candidates := s.tx.candidates[LivenessIdentity(snapshot.key) := output]),
               produced := s.produced + {(s.tx.original.value, output)})
  {
    var s1 := Then(cfg, w, s, ReadImage(op));
    s' := Then(cfg, w, s1, StageCandidate(op, output));
  }

  /** The promotion of a staged candidate for the current pass. */
  lemma PortraitPromotedNow(cfg: Config, w: real, s: System, op: nat) returns (s': System)
    requires Live(cfg, w, s) && s.lock.None? && op in s.ops && s.ops[op].PortraitStaged?
    requires PromotePortrait(s.tx, s.ops[op].snapshot).1.Promoted?
    ensures Live(cfg, w, s')
    ensures s' == s.(ops := s.ops - {op}, tx := PromotePortrait(s.tx, s.ops[op].snapshot).0, behind := None)
  {
    s' := Then(cfg, w, s, PromoteCandidate(op));
  }

  /** The state after an undisturbed portrait run. */
  function Processed(s: System, output: Bytes): System
    requires HasCurrentCanonicalPass(s.tx) && s.tx.original.Some?
  {
    var snapshot := CaptureSnapshot(s.tx).value;
    var id := LivenessIdentity(snapshot.key);
    var staged := s.tx.(portraitClaims := map[id := s.now], candidates := s.tx.candidates[id := output]);
    s.(tx := PromotePortrait(staged, snapshot).0, produced := s.produced + {(s.tx.original.value, output)}, behind := None)
  }

  /** A portrait request that is granted the claim of the current pass. */
  lemma PortraitGrantedNow(cfg: Config, w: real, s: System, op: nat) returns (s': System)
    requires Live(cfg, w, s) && op !in s.ops && s.lock.None? && !Terminal(s.tx.status)
    requires HasCurrentCanonicalPass(s.tx) && !PortraitAuthorizationCurrent(s.tx) && s.tx.portraitClaims == map[]
    requires s.tx.capture.value.faceBox.Some?
    ensures Live(cfg, w, s')
    ensures var snapshot, capture := CaptureSnapshot(s.tx).value, s.tx.capture.value;
      s' == s.(ops := s.ops[op := PortraitClaimed(snapshot, capture.faceBox.value, Some(capture.key))],
               tx := s.tx.(portraitClaims := map[LivenessIdentity(snapshot.key) := s.now]))
  {
    var boxRead := BoxReadNow(cfg, w, s, op);
    s' := PortraitClaimedNow(cfg, w, boxRead, op);
  }

  lemma PortraitNow(cfg: Config, w: real, s: System, op: nat, output: Bytes) returns (s': System)
    requires Live(cfg, w, s) && op !in s.ops && s.lock.None? && !Terminal(s.tx.status)
    requires HasCurrentCanonicalPass(s.tx) && s.tx.authorization.None? && s.tx.portraitClaims == map[] && s.tx.original.Some?
    requires s.tx.capture.value.faceBox.Some?
    ensures Live(cfg, w, s') && s' == Processed(s, output)
  {
    var claimed := PortraitGrantedNow(cfg, w, s, op);
    s' := FinishedNow(cfg, w, claimed, op, output);
    assert s'.ops == s.ops;
  }

  lemma FinishedNow(cfg: Config, w: real, s: System, op: nat, output: Bytes) returns (s': System)
    requires Live(cfg, w, s) && s.lock.None? && op in s.ops && s.ops[op].PortraitClaimed? && s.tx.original.Some?
    requires SnapshotMatchesCurrent(s.tx, s.ops[op].snapshot)
    ensures Live(cfg, w, s')
    ensures var snapshot := s.ops[op].snapshot;
      var staged := s.tx.(candidates := s.tx.candidates[LivenessIdentity(snapshot.key) := output]);
      s' == s.(ops := s.ops - {op}, tx := PromotePortrait(staged, snapshot).0,
               produced := s.produced + {(s.tx.original.value, output)}, behind := None)
  {
    var staged := StagedNow(cfg, w, s, op, output);
    s' := PortraitPromotedNow(cfg, w, staged, op);
    assert s'.ops == s.ops - {op};
  }

  lemma NewPortraitAuthorized(t: Tx, snapshot: Snapshot)
    requires SnapshotMatchesCurrent(t, snapshot) && LivenessIdentity(snapshot.key) in t.candidates
    ensures PortraitAuthorizationCurrent(PromotePortrait(t, snapshot).0)
    ensures PromotePortrait(t, snapshot).0.status == NextStatus(t.status, PORTRAIT_READY)
  {}

  /** It stores and authorizes the portrait, and leaves alone what led to it. */
  lemma ProcessedIsAuthorized(s: System, output: Bytes)
    requires HasCurrentCanonicalPass(s.tx) && s.tx.original.Some? && !Terminal(s.tx.status)
    ensures var t := Processed(s, output).tx;
      && PortraitAuthorizationCurrent(t) && t.portrait == Some(output) && !Terminal(t.status)
      && t.capture == s.tx.capture && t.original == s.tx.original && t.decision == s.tx.decision && t.callback == s.tx.callback
  {
    var snapshot := CaptureSnapshot(s.tx).value;
    var id := LivenessIdentity(snapshot.key);
    NewPortraitAuthorized(s.tx.(portraitClaims := map[id := s.now], candidates := s.tx.candidates[id := output]), snapshot);
  }

  const REDIRECT := "https://consumer.example/done"

  /** A submit whose first post is acknowledged. */
  lemma SentNow(cfg: Config, w: real, s: System) returns (s': System)
    requires Live(cfg, w, s) && s.lock.None? && !Terminal(s.tx.status)
    requires PortraitAuthorizationCurrent(s.tx) && JpegMagic(s.tx.portrait.value) && !s.tx.callback.Acknowledged?
    ensures Live(cfg, w, s') && s'.died == s.died && s'.evaluated == s.evaluated && s'.produced == s.produced
    ensures s'.tx == s.tx.(callback := Acknowledged(REDIRECT), status := COMPLETED)
    ensures |s'.sends| == |s.sends| + 1 && SendsNow(s, s'.sends[|s.sends|])
  {
    var script := seq(cfg.callbackMaxRetries + 1, _ => Http(200, Json(Some(REDIRECT))));
    assert script[0] == Http(200, Json(Some(REDIRECT)));
    assert Posts(script) == 1;
    var input := SubmitInput(true, script, false, _ => true, NoCrash);
    assert Submit(s.tx, input).2 == 1;
    s' := Then(cfg, w, s, SubmitNow(input));
  }

  /** Two liveness requests for the stored capture, the first one holding the claim since `s.now`. */
  lemma ClaimedOnce(cfg: Config, w: real, s: System) returns (s': System)
    requires Live(cfg, w, s) && s.ops == map[] && Unjudged(s)
    ensures var key := s.tx.capture.value.key;
      && s' == s.(ops := map[1 := LivenessClaimed(key, s.now), 2 := LivenessKeyRead(key)],
                  tx := s.tx.(evaluationClaims := map[LivenessIdentity(key) := s.now]))
      && Live(cfg, w, s')
  {
    var s1 := KeyReadNow(cfg, w, s, 1);
    var s2 := KeyReadNow(cfg, w, s1, 2);
    s' := Then(cfg, w, s2, ClaimLiveness(1));
  }
}
