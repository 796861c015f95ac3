/** The liveness rules of `liveness.py`: which assessments may authorize a portrait. */
module PersonState {
  import opened Wrappers
  import opened Digests

  datatype Classification = LIVE | SCREEN_REPLAY | PRINT_ATTACK | QUALITY_FAILURE | UNCERTAIN_CLASS
  datatype SubjectCount = ZERO | ONE | MULTIPLE | UNCERTAIN_COUNT
  datatype SecondaryPersonState = NONE | BACKGROUND | INTERFERING | UNCERTAIN_STATE
  datatype Outcome = PASS | RETRY | REVIEW | FAIL

  const VLM_SCHEMA_VERSION := "vlm-result-v3"
  const PROMPT_VERSION := "vlm-passive-v3"

  const COHERENT_PERSON_STATES: set<(SubjectCount, SecondaryPersonState)> := {
    (ZERO, NONE), (ONE, NONE), (MULTIPLE, BACKGROUND), (MULTIPLE, INTERFERING),
    (MULTIPLE, UNCERTAIN_STATE), (UNCERTAIN_COUNT, UNCERTAIN_STATE)
  }

  const PORTRAIT_ELIGIBLE_PERSON_STATES: set<(SubjectCount, SecondaryPersonState)> := {
    (ONE, NONE), (MULTIPLE, BACKGROUND)
  }

  /** What the model reports; every part may be missing in a stored record. */
  datatype Assessment = Assessment(
    classification: Option<Classification>, subjectCount: Option<SubjectCount>, secondary: Option<SecondaryPersonState>)

  predicate IsPersonStateConsistent(a: Assessment) {
    a.subjectCount.Some? && a.secondary.Some? && (a.subjectCount.value, a.secondary.value) in COHERENT_PERSON_STATES
  }

  predicate IsPortraitEligible(a: Assessment) {
    && a.classification == Some(LIVE)
    && IsPersonStateConsistent(a)
    && (a.subjectCount.value, a.secondary.value) in PORTRAIT_ELIGIBLE_PERSON_STATES
  }

  function MapToOutcome(a: Assessment): Outcome {
    if a.classification == Some(SCREEN_REPLAY) || a.classification == Some(PRINT_ATTACK) then FAIL
    else if IsPortraitEligible(a) then PASS
    else RETRY
  }

  /** A stored evaluation record. */
  datatype Evaluation = Evaluation(
    key: Key, schemaVersion: Option<string>, promptVersion: Option<string>,
    assessment: Assessment, outcome: Outcome, error: Option<string>, stale: bool)

  /** Payload of a normalized provider result. */
  function AssessedEvaluation(key: Key, a: Assessment): Evaluation {
    Evaluation(key, Some(VLM_SCHEMA_VERSION), Some(PROMPT_VERSION), a, MapToOutcome(a), None, false)
  }

  /** Payload of a provider or schema failure. */
  function ErrorEvaluation(key: Key, code: string): Evaluation {
    Evaluation(key, None, None, Assessment(None, None, None), RETRY, Some(code), false)
  }

  /** A cached record that may be reused instead of calling the provider again. */
  predicate IsCurrentEvaluation(e: Evaluation) {
    || e.error.Some?
    || (&& e.schemaVersion == Some(VLM_SCHEMA_VERSION) && e.promptVersion == Some(PROMPT_VERSION)
        && IsPersonStateConsistent(e.assessment))
  }

  /** The six pairs of subject count and second person that do not contradict each other. */
  predicate Coherent(a: Assessment) {
    || (a.subjectCount == Some(ZERO) && a.secondary == Some(NONE))
    || (a.subjectCount == Some(ONE) && a.secondary == Some(NONE))
    || (a.subjectCount == Some(MULTIPLE) && a.secondary in {Some(BACKGROUND), Some(INTERFERING), Some(UNCERTAIN_STATE)})
    || (a.subjectCount == Some(UNCERTAIN_COUNT) && a.secondary == Some(UNCERTAIN_STATE))
  }

  /** A record answers for its capture if it is a failure, or a coherent result of the current schema and prompt. */
  lemma ReuseTable(e: Evaluation)
    ensures IsCurrentEvaluation(e) <==>
      || e.error.Some?
      || (e.schemaVersion == Some("vlm-result-v3") && e.promptVersion == Some("vlm-passive-v3") && Coherent(e.assessment))
  {}

  /** The table of the module: a pass needs a live subject alone or with a distant person, nothing else passes. */
  lemma OutcomeTable(a: Assessment)
    ensures MapToOutcome(a) == PASS <==>
      a == Assessment(Some(LIVE), Some(ONE), Some(NONE)) || a == Assessment(Some(LIVE), Some(MULTIPLE), Some(BACKGROUND))
    ensures MapToOutcome(a) == FAIL <==> a.classification in {Some(SCREEN_REPLAY), Some(PRINT_ATTACK)}
    ensures MapToOutcome(a) != REVIEW
  {}
}
