/** No request is stuck: each can run to its end, the work of others notwithstanding. */
module Progress {
  import opened Digests
  import opened PersonState
  import opened Transaction
  import opened Protocol
  import opened ProtocolInvariant
  import opened ProtocolFrames
  import opened ProtocolTheorems

  /** What the provider and the image pipeline answer on the way. */
  datatype World = World(
    classification: Classification, subjectCount: SubjectCount, secondary: SecondaryPersonState, output: Bytes)

  /** A step of a request already in flight, in which nothing dies or fails. */
  predicate Undisturbed(a: Action) {
    || a.RegisterOnly? || a.BeginCapture? || a.WriteImage? || a.WriteMeta? || a.EndCapture? || a.ReadKey? || a.ClaimLiveness?
    || a.ReadImage? || a.ProviderAssesses? || a.RecordUnusable? || a.PromoteLiveness? || a.ReadBox? || a.ClaimForPortrait?
    || a.StageCandidate? || a.RecordPortraitFailure? || a.PromoteCandidate?
  }

  ghost predicate QuietRun(cfg: Config, s: System, actions: seq<Action>, s': System) {
    Run(cfg, s, actions, s') && forall a :: a in actions ==> Undisturbed(a)
  }

  lemma FirstStep(cfg: Config, s: System, a: Action, rest: seq<Action>, s': System)
    requires Enabled(cfg, s, a) && Undisturbed(a) && QuietRun(cfg, Do(cfg, s, a), rest, s')
    ensures QuietRun(cfg, s, [a] + rest, s')
  {
    assert ([a] + rest)[1..] == rest;
  }

  // ---------------------------------------------------------------- the stored image

  /** Metadata, stored or about to be, stand beside an image. */
  predicate ImageStored(s: System) {
    s.tx.capture.Some? || (s.lock.Some? && !s.lock.value.stage.Begun?) ==> s.tx.original.Some?
  }

  lemma StepStoresImage(cfg: Config, s: System, a: Action)
    requires ImageStored(s) && Enabled(cfg, s, a)
    ensures ImageStored(Do(cfg, s, a))
  {
    if !a.WriteImage? && !a.WriteMeta? {
      StepFramed(cfg, s, a);
    }
  }

  lemma {:induction false} RunStoresImage(cfg: Config, s: System, actions: seq<Action>, s': System)
    requires ImageStored(s) && Run(cfg, s, actions, s')
    ensures ImageStored(s')
    decreases |actions|
  {
    if actions != [] {
      StepStoresImage(cfg, s, actions[0]);
      RunStoresImage(cfg, Do(cfg, s, actions[0]), actions[1..], s');
    }
  }

  // ---------------------------------------------------------------- the lock

  function WritesLeft(s: System): nat {
    if s.lock.None? then 0
    else match s.lock.value.stage case Begun => 3 case ImageWritten => 2 case MetaWritten => 1
  }

  /** Whoever holds the lock can finish its writes and give it back. */
  lemma {:induction false} LockCanBeReleased(cfg: Config, s: System) returns (actions: seq<Action>, s': System)
    ensures QuietRun(cfg, s, actions, s') && |actions| == WritesLeft(s)
    ensures s'.lock.None? && s'.ops == s.ops
    decreases WritesLeft(s)
  {
    if s.lock.None? {
      actions, s' := [], s;
    } else {
      var a := match s.lock.value.stage case Begun => WriteImage case ImageWritten => WriteMeta
        case MetaWritten => EndCapture(Leftover(false, false, false));
      var rest;
      rest, s' := LockCanBeReleased(cfg, Do(cfg, s, a));
      FirstStep(cfg, s, a, rest, s');
      actions := [a] + rest;
    }
  }

  // ---------------------------------------------------------------- requests

  function StepsLeft(o: Op): nat {
    match o
    case LivenessAdmitted => 5
    case LivenessKeyRead(_) => 4
    case LivenessClaimed(_, _) => 3
    case LivenessImageRead(_, _, _) => 2
    case PortraitAdmitted(_) => 5
    case PortraitBoxRead(_, _) => 4
    case PortraitClaimed(_, _, _) => 3
    case PortraitImageRead(_, _, _, _) => 2
    case CaptureAdmitted(_, _, _) => 4
    case _ => 1
  }

  function NextStep(op: nat, o: Op, world: World): Action {
    match o
    case CaptureAdmitted(_, _, _) => BeginCapture(op)
    case AttemptAdmitted(_, _) => RegisterOnly(op)
    case LivenessAdmitted => ReadKey(op)
    case LivenessKeyRead(_) => ClaimLiveness(op)
    case LivenessClaimed(_, _) => ReadImage(op)
    case LivenessImageRead(_, _, _) => ProviderAssesses(op, world.classification, world.subjectCount, world.secondary)
    case LivenessEvaluated(_, _, _) => PromoteLiveness(op)
    case LivenessUnusable(_, _, _) => RecordUnusable(op)
    case PortraitAdmitted(_) => ReadBox(op)
    case PortraitBoxRead(_, _) => ClaimForPortrait(op)
    case PortraitClaimed(_, _, _) => ReadImage(op)
    case PortraitImageRead(_, _, _, _) => StageCandidate(op, world.output)
    case PortraitStaged(_) => PromoteCandidate(op)
    case PortraitFailed(_) => RecordPortraitFailure(op)
  }

  /** A request whose turn it is can take its next step: it is done but for the writes of a capture, or nearer its end. */
  ghost predicate Advances(cfg: Config, s: System, op: nat, a: Action)
    requires op in s.ops
  {
    && Enabled(cfg, s, a) && Undisturbed(a)
    && var s' := Do(cfg, s, a);
    && (op in s'.ops ==> s'.lock.None? && StepsLeft(s'.ops[op]) < StepsLeft(s.ops[op]))
    && (op !in s'.ops ==> WritesLeft(s') < StepsLeft(s.ops[op]))
  }

  lemma AttemptAdvances(cfg: Config, s: System, op: nat, world: World)
    requires s.lock.None? && op in s.ops && (s.ops[op].CaptureAdmitted? || s.ops[op].AttemptAdmitted?)
    ensures Advances(cfg, s, op, NextStep(op, s.ops[op], world))
  {}

  lemma ImageReadAdvances(cfg: Config, s: System, op: nat, world: World)
    requires InvCaptures(s) && ImageStored(s) && s.lock.None? && op in s.ops && OpOk(s, s.ops[op])
    requires s.ops[op].LivenessClaimed? || s.ops[op].PortraitClaimed?
    ensures Advances(cfg, s, op, NextStep(op, s.ops[op], world))
  {}

  lemma LivenessAdvances(cfg: Config, s: System, op: nat, world: World)
    requires s.lock.None? && op in s.ops
    requires var o := s.ops[op];
      o.LivenessAdmitted? || o.LivenessKeyRead? || o.LivenessImageRead? || o.LivenessEvaluated? || o.LivenessUnusable?
    ensures Advances(cfg, s, op, NextStep(op, s.ops[op], world))
  {}

  lemma PortraitAdvances(cfg: Config, s: System, op: nat, world: World)
    requires s.lock.None? && op in s.ops
    requires s.ops[op].PortraitAdmitted? || s.ops[op].PortraitBoxRead? || s.ops[op].PortraitImageRead?
    ensures Advances(cfg, s, op, NextStep(op, s.ops[op], world))
  {}

  lemma PortraitEnds(cfg: Config, s: System, op: nat, world: World)
    requires s.lock.None? && op in s.ops && (s.ops[op].PortraitStaged? || s.ops[op].PortraitFailed?)
    ensures Advances(cfg, s, op, NextStep(op, s.ops[op], world))
  {}

  lemma StepAdvances(cfg: Config, s: System, op: nat, world: World)
    requires Inv(s) && ImageStored(s) && s.lock.None? && op in s.ops
    ensures Advances(cfg, s, op, NextStep(op, s.ops[op], world))
  {
    match s.ops[op]
    case CaptureAdmitted(_, _, _) => AttemptAdvances(cfg, s, op, world);
    case AttemptAdmitted(_, _) => AttemptAdvances(cfg, s, op, world);
    case LivenessClaimed(_, _) => ImageReadAdvances(cfg, s, op, world);
    case PortraitClaimed(_, _, _) => ImageReadAdvances(cfg, s, op, world);
    case PortraitAdmitted(_) => PortraitAdvances(cfg, s, op, world);
    case PortraitBoxRead(_, _) => PortraitAdvances(cfg, s, op, world);
    case PortraitImageRead(_, _, _, _) => PortraitAdvances(cfg, s, op, world);
    case PortraitStaged(_) => PortraitEnds(cfg, s, op, world);
    case PortraitFailed(_) => PortraitEnds(cfg, s, op, world);
    case _ => LivenessAdvances(cfg, s, op, world);
  }

  lemma {:induction false} UnlockedCanFinish(cfg: Config, s: System, op: nat, world: World)
    returns (actions: seq<Action>, s': System)
    requires Inv(s) && ImageStored(s) && s.lock.None? && op in s.ops
    ensures QuietRun(cfg, s, actions, s') && |actions| <= StepsLeft(s.ops[op])
    ensures op !in s'.ops && s'.lock.None?
    decreases StepsLeft(s.ops[op])
  {
    var a := NextStep(op, s.ops[op], world);
    StepAdvances(cfg, s, op, world);
    var t := Do(cfg, s, a);
    StepKeeps(cfg, s, a);
    StepStoresImage(cfg, s, a);
    var rest;
    if op in t.ops {
      rest, s' := UnlockedCanFinish(cfg, t, op, world);
    } else {
      rest, s' := LockCanBeReleased(cfg, t);
    }
    FirstStep(cfg, s, a, rest, s');
    actions := [a] + rest;
  }

  lemma {:induction false} RunsJoin(cfg: Config, s: System, first: seq<Action>, t: System, second: seq<Action>, s': System)
    requires QuietRun(cfg, s, first, t) && QuietRun(cfg, t, second, s')
    ensures QuietRun(cfg, s, first + second, s')
    decreases |first|
  {
    if first == [] {
      assert first + second == second;
    } else {
      RunsJoin(cfg, Do(cfg, s, first[0]), first[1..], t, second, s');
      assert (first + second)[1..] == first[1..] + second;
    }
  }

  lemma CanFinish(cfg: Config, s: System, op: nat, world: World) returns (actions: seq<Action>, s': System)
    requires Inv(s) && ImageStored(s) && op in s.ops
    ensures QuietRun(cfg, s, actions, s') && |actions| <= 8
    ensures op !in s'.ops && s'.lock.None?
  {
    var first, t := LockCanBeReleased(cfg, s);
    RunKeeps(cfg, s, first, t);
    RunStoresImage(cfg, s, first, t);
    var rest;
    rest, s' := UnlockedCanFinish(cfg, t, op, world);
    RunsJoin(cfg, s, first, t, rest, s');
    actions := first + rest;
  }

  lemma ReachableStoresImage(cfg: Config, s: System)
    requires Reachable(cfg, s)
    ensures ImageStored(s)
  {
    var s0, before :| Initial(s0) && Run(cfg, s0, before, s);
    RunStoresImage(cfg, s0, before, s);
  }

  /**
   * In every reachable state, whoever holds the lock and whatever deaths came before, every request in flight can run to
   * its end, whatever the provider answers: three writes of the lock holder and five steps of its own are enough.
   */
  lemma EveryRequestCanFinish(cfg: Config, s: System, op: nat, world: World) returns (actions: seq<Action>, s': System)
    requires Reachable(cfg, s) && op in s.ops
    ensures QuietRun(cfg, s, actions, s') && |actions| <= 8
    ensures op !in s'.ops && s'.lock.None?
  {
    ReachableInv(cfg, s);
    ReachableStoresImage(cfg, s);
    actions, s' := CanFinish(cfg, s, op, world);
  }

  /** A request for an unfinished transaction; one that brings an image or reports an attempt names the attempt. */
  predicate Arrives(cfg: Config, s: System, op: nat, a: Action) {
    && op !in s.ops && s.tx.status !in {COMPLETED, ATTEMPT_LIMIT_EXCEEDED, FAILED}
    && match a
       case ArriveCapture(i, attemptId, data, _) => i == op && attemptId != [] && [255, 216, 255] <= data && cfg.decodes(data)
       case ArriveAttempt(i, attemptId, _) => i == op && attemptId != []
       case ArriveLiveness(i) => i == op
       case ArrivePortrait(i, _) => i == op
       case _ => false
  }

  /** Every such request is admitted, at any time, and can run to its end. */
  lemma EveryArrivalCanFinish(cfg: Config, s: System, op: nat, a: Action, world: World)
    returns (actions: seq<Action>, s': System)
    requires Reachable(cfg, s) && Arrives(cfg, s, op, a)
    ensures Enabled(cfg, s, a) && op in Do(cfg, s, a).ops
    ensures QuietRun(cfg, Do(cfg, s, a), actions, s') && |actions| <= 8
    ensures op !in s'.ops && s'.lock.None?
  {
    ReachableInv(cfg, s);
    ReachableStoresImage(cfg, s);
    StepKeeps(cfg, s, a);
    StepStoresImage(cfg, s, a);
    actions, s' := CanFinish(cfg, Do(cfg, s, a), op, world);
  }
}
