/** Attempts are counted once each, upload once each, and leave room for a bounded number of captures. */
module AttemptAccounting {
  import opened Wrappers
  import opened Collections
  import opened Digests
  import opened Transaction
  import opened Protocol
  import opened ProtocolInvariant
  import opened ProtocolFrames
  import opened ProtocolTheorems

  /** The count is the number of distinct attempts on record, and only attempts on record have uploaded. */
  predicate Accounted(a: Attempts) {
    && a.count == |a.consumed| == |Elements(a.consumed)|
    && |a.uploaded| == |Elements(a.uploaded)|
    && Elements(a.uploaded) <= Elements(a.consumed)
  }

  /** Captures accepted so far, the one being written included. */
  function CapturesTaken(s: System): nat {
    |s.accepted| + if s.lock.Some? && !s.lock.value.stage.MetaWritten? then 1 else 0
  }

  predicate InvAttempts(cfg: Config, s: System) {
    && Accounted(s.tx.attempts)
    && (CapturesTaken(s) == 0 || CapturesTaken(s) < cfg.attemptLimit)
  }

  lemma ElementsOfAdded<T>(s: seq<T>, x: T)
    requires |s| == |Elements(s)|
    ensures Elements(AddUnlessPresent(s, x)) == Elements(s) + {x}
    ensures |AddUnlessPresent(s, x)| == |Elements(s) + {x}|
  {
    if x in s {
      assert Elements(s) + {x} == Elements(s);
    } else {
      assert Elements(s + [x]) == Elements(s) + {x};
    }
  }

  lemma RegistrationAccounts(a: Attempts, idHash: Bytes, reason: Option<string>, upload: bool)
    requires Accounted(a)
    ensures var b := RegisteredAttempts(a, idHash, reason, upload);
      && Accounted(b)
      && Elements(b.consumed) == Elements(a.consumed) + {idHash}
      && Elements(b.uploaded) == Elements(a.uploaded) + (if upload then {idHash} else {})
      && b.count == a.count + (if idHash in a.consumed then 0 else 1)
  {
    ElementsOfAdded(a.consumed, idHash);
    ElementsOfAdded(a.uploaded, idHash);
  }

  /** Captures of different attempts need as many uploads. */
  lemma {:induction false} EachCaptureUploaded(keys: seq<Key>, uploads: set<Bytes>)
    requires forall i, j :: 0 <= i < j < |keys| ==> keys[i].attemptId != keys[j].attemptId
    requires forall k :: k in keys ==> Sha256Hex(k.attemptId) in uploads
    ensures |keys| <= |uploads|
  {
    if keys != [] {
      var rest, last := keys[..|keys| - 1], keys[|keys| - 1];
      forall k | k in rest ensures Sha256Hex(k.attemptId) in uploads - {Sha256Hex(last.attemptId)} {
        if Sha256Hex(k.attemptId) == Sha256Hex(last.attemptId) {
          Sha256Injective(k.attemptId, last.attemptId);
        }
      }
      EachCaptureUploaded(rest, uploads - {Sha256Hex(last.attemptId)});
    }
  }

  lemma BeginCaptureAccounts(cfg: Config, s: System, op: nat)
    requires Inv(s) && InvAttempts(cfg, s) && op in s.ops && s.ops[op].CaptureAdmitted? && s.lock.None?
    ensures InvAttempts(cfg, DoBeginCapture(cfg, s, op))
  {
    var idHash := Sha256Hex(s.ops[op].attemptId);
    if idHash !in s.tx.attempts.uploaded {
      RegistrationAccounts(s.tx.attempts, idHash, None, true);
      UploadLeavesRoom(s, idHash);
      BegunTakes(cfg, s, op);
    }
  }

  /** A capture that gets the lock takes one more place, and the limit leaves one. */
  lemma BegunTakes(cfg: Config, s: System, op: nat)
    requires op in s.ops && s.ops[op].CaptureAdmitted? && s.lock.None?
    requires Sha256Hex(s.ops[op].attemptId) !in s.tx.attempts.uploaded
    ensures var s' := DoBeginCapture(cfg, s, op);
      && s'.tx.attempts == RegisteredAttempts(s.tx.attempts, Sha256Hex(s.ops[op].attemptId), None, true)
      && s'.accepted == s.accepted
      && (s'.lock.Some? ==> s'.tx.attempts.count < cfg.attemptLimit && s'.lock.value.stage.Begun?)
  {
    FirstUpload(s.tx, cfg, s.ops[op].attemptId);
  }

  lemma FirstUpload(t: Tx, cfg: Config, attemptId: Bytes)
    requires Sha256Hex(attemptId) !in t.attempts.uploaded
    ensures var (t', reply) := RegisterAttempt(t, cfg, attemptId, None, true);
      && t'.attempts == RegisteredAttempts(t.attempts, Sha256Hex(attemptId), None, true)
      && reply.Registered? && (reply.terminal <==> t'.attempts.count >= cfg.attemptLimit)
  {}

  /** An attempt that uploads for the first time is counted, besides those of all earlier captures. */
  lemma UploadLeavesRoom(s: System, idHash: Bytes)
    requires InvCaptures(s) && Accounted(s.tx.attempts) && idHash !in s.tx.attempts.uploaded
    ensures |s.accepted| + 1 <= RegisteredAttempts(s.tx.attempts, idHash, None, true).count
  {
    var a := s.tx.attempts;
    var b := RegisteredAttempts(a, idHash, None, true);
    RegistrationAccounts(a, idHash, None, true);
    EachCaptureUploaded(s.accepted, Elements(a.uploaded));
    assert idHash !in Elements(a.uploaded);
    assert |Elements(b.uploaded)| == |Elements(a.uploaded)| + 1;
    CardinalityMonotone(Elements(b.uploaded), Elements(b.consumed));
  }

  lemma StepAccounts(cfg: Config, s: System, a: Action)
    requires Inv(s) && InvAttempts(cfg, s) && Enabled(cfg, s, a)
    ensures InvAttempts(cfg, Do(cfg, s, a))
  {
    if a.BeginCapture? {
      BeginCaptureAccounts(cfg, s, a.op);
    } else if a.RegisterOnly? {
      RegistrationAccounts(s.tx.attempts, Sha256Hex(s.ops[a.op].reportedId), s.ops[a.op].reason, false);
    } else {
      OthersLeaveAttempts(cfg, s, a);
    }
  }

  lemma OthersLeaveAttempts(cfg: Config, s: System, a: Action)
    requires Enabled(cfg, s, a) && !a.BeginCapture? && !a.RegisterOnly?
    ensures Do(cfg, s, a).tx.attempts == s.tx.attempts
    ensures CapturesTaken(Do(cfg, s, a)) <= CapturesTaken(s)
  {
    StepFramed(cfg, s, a);
    if a.SubmitNow? {
      SubmitHasEffect(s, a.input);
    }
  }

  lemma {:induction false} RunAccounts(cfg: Config, s: System, actions: seq<Action>, s': System)
    requires Inv(s) && InvAttempts(cfg, s) && Run(cfg, s, actions, s')
    ensures InvAttempts(cfg, s')
    decreases |actions|
  {
    if actions != [] {
      StepKeeps(cfg, s, actions[0]);
      StepAccounts(cfg, s, actions[0]);
      RunAccounts(cfg, Do(cfg, s, actions[0]), actions[1..], s');
    }
  }

  /**
   * In every reachable state: the count is the number of distinct attempts, uploads belong to counted
   * attempts and do not repeat, and captures of distinct attempts number at most one less than the limit,
   * although admission is checked without the lock.
   */
  lemma AttemptAccountingHolds(cfg: Config, s: System)
    requires Reachable(cfg, s)
    ensures Accounted(s.tx.attempts)
    ensures forall i, j :: 0 <= i < j < |s.accepted| ==> s.accepted[i].attemptId != s.accepted[j].attemptId
    ensures s.accepted == [] || |s.accepted| <= cfg.attemptLimit - 1
  {
    var s0, actions :| Initial(s0) && Run(cfg, s0, actions, s);
    InitialInv(s0);
    RunKeeps(cfg, s0, actions, s);
    RunAccounts(cfg, s0, actions, s);
  }

  // ---------------------------------------------------------------- how far the count can overshoot

  /** Requests past the unlocked terminal check that will still register an attempt. */
  function Admitted(s: System): set<nat> {
    set op | op in s.ops && (s.ops[op].CaptureAdmitted? || s.ops[op].AttemptAdmitted?)
  }

  function Room(s: System): nat {
    s.tx.attempts.count + |Admitted(s)|
  }

  lemma OthersAdmitNobody(cfg: Config, s: System, a: Action)
    requires Enabled(cfg, s, a) && Terminal(s.tx.status) && !a.BeginCapture? && !a.RegisterOnly?
    ensures Admitted(Do(cfg, s, a)) <= Admitted(s)
  {}

  lemma BeginCaptureRoom(cfg: Config, s: System, op: nat)
    requires op in s.ops && s.ops[op].CaptureAdmitted?
    ensures Room(DoBeginCapture(cfg, s, op)) <= Room(s)
  {
    assert Admitted(DoBeginCapture(cfg, s, op)) == Admitted(s) - {op};
  }

  lemma RegisterOnlyRoom(cfg: Config, s: System, op: nat)
    requires op in s.ops && s.ops[op].AttemptAdmitted?
    ensures Room(DoRegisterOnly(cfg, s, op)) <= Room(s)
  {
    assert Admitted(DoRegisterOnly(cfg, s, op)) == Admitted(s) - {op};
  }

  /** Once terminal, a step registers at most the attempts that were already admitted. */
  lemma TerminalStepRoom(cfg: Config, s: System, a: Action)
    requires Enabled(cfg, s, a) && Terminal(s.tx.status)
    ensures Room(Do(cfg, s, a)) <= Room(s)
  {
    if a.BeginCapture? {
      BeginCaptureRoom(cfg, s, a.op);
    } else if a.RegisterOnly? {
      RegisterOnlyRoom(cfg, s, a.op);
    } else {
      OthersLeaveAttempts(cfg, s, a);
      OthersAdmitNobody(cfg, s, a);
      CardinalityMonotone(Admitted(Do(cfg, s, a)), Admitted(s));
    }
  }

  /** The count can pass the limit, but after a terminal status only by the requests already admitted. */
  lemma {:induction false} OvershootIsBounded(cfg: Config, s: System, actions: seq<Action>, s': System)
    requires Run(cfg, s, actions, s') && Terminal(s.tx.status)
    ensures s'.tx.attempts.count <= s.tx.attempts.count + |Admitted(s)|
    ensures Room(s') <= Room(s)
    decreases |actions|
  {
    if actions != [] {
      var next := Do(cfg, s, actions[0]);
      StepFreezes(cfg, s, actions[0]);
      TerminalStepRoom(cfg, s, actions[0]);
      OvershootIsBounded(cfg, next, actions[1..], s');
    }
  }
}
