# LivePhoto: verified model of the capture, liveness, portrait and submit core

The service lets a browser upload a selfie (a *capture*), has a vision model judge whether it is live, cuts a
portrait out of it and delivers that portrait to a consumer's callback. Every transaction is a set of files
guarded by one lock, but the slow parts (provider call, segmentation, reading the stored image) run without the
lock, requests may be duplicated, and claims may expire. This project models that core and proves what it keeps.

How the files fit together:

- `Digests`, `PersonState`: capture identities and the rule from an assessment to an outcome.
- `Transaction`: the stored state of one transaction and, as functions, what each locked section does to it.
  `TransactionStore` is the same record as a class whose methods run those sections on fields, each proved equal to
  its function, also when the worker dies behind one of the writes of a promotion; `SectionAnswers` says case by case
  what each section answers and records, in terms of the stored fields alone; `Callback` and `Retries` hold the two retry
  loops.
- `Protocol`: the transaction under concurrent requests. A request is an operation in flight; an action is one
  unlocked read or write, one locked section, or one of the four steps of the locked capture section (so an unlocked
  read can land between writing the image and writing `capture.json`). A worker can die outside its section, or inside
  any section behind any write.
  `ProtocolInvariant` shows what every action keeps, `ProtocolFrames` what each leaves alone, `ProtocolTheorems` the
  results over whole runs; `AttemptAccounting`, `SingleFlight`, `RunLaws`, `Progress` and `FaceBoxBinding` are
  further results over the same runs, `TornCapture`, `SectionDeaths` and `CachedPass` those about deaths; `Scenarios` and
  `ClaimExpiry` build concrete runs.
- `Pixels`, `FloodFill`, `Integrity`, `MatteRefinement`, `MatteArrays`, `SolidMatte`, `Crop`: the matte gate, the destructive
  refinement behind it and the crop, on exact reals; array algorithms are proved against set-level definitions.
- `Connectivity`: the epoch, single-flight and pending-recheck gate of the browser.
- `Sessions`, `SessionProtocol`: launch tokens and browser sessions.
- `Sampling`, `Metrics`, `Report`: round-robin sampling, the holdout split, the Wilson interval and report totals.

Assumptions. SHA-256 is replaced by an injective hex encoding (equal digests come from equal bytes, and the text
has no colon). The transaction lock excludes other locked sections; storage operations succeed and are atomic, except
that removing superseded artifacts after a new capture may fail. Random tokens and transaction ids do not repeat.
Provider answers, segmentation output, callback responses, the clock, the shuffles of the seeded generator and
crashes of requests are arbitrary. Reals are exact.

Eight promises of the code or its documents turned out to need a condition, and the exact one is proved. Every run that
shows a failure uses uploads the endpoint accepts (a named attempt, a JPEG that decodes).

- `docs/PORTRAIT_PROCESSING.md:88` and `backend/app/experiments/vlm/liveness.py:205` promise that the face box of an
  earlier capture is never used for a newer one. The box is read before the lock is taken, so the stored box that was
  read is the one of the processed capture exactly when no capture is accepted between that read and the claim
  (`FaceBoxBinding.BoxIsCurrentExactly`; `StaleBoxUsed` is a run in which it fails, `StaleBoxDelivered` takes it to an
  acknowledged delivery). When no box is stored, the one sent with the request is used.
- A claim is meant to outlast its owner. It lives for `T*(r+2) + 10` seconds, `T` being the general provider timeout
  (`backend/app/experiments/vlm/liveness.py:245`), but the local provider runs on a timeout `P` of its own
  (`backend/app/providers/vision/registry.py:80`). With lock waits of `w`, single flight holds exactly when
  `P*(r+1) + 0.5*(2^r - 1) + w <= T*(r+2) + 10` (`ClaimExpiry.SingleFlightExactly`). For `P = T` this is
  `0.5*(2^r - 1) + w <= T + 10`; `ClaimExpiry.LocalProviderOutlivesClaim` meets the latter and not the former.
- A reissue is meant to revoke every earlier launch token. It does exactly when every stored token of the launch is on
  its list and no creation has a first token still to store (`SessionProtocol.ReissueExactly`). A launch reissued while
  it is being created loses its own token from the list, and the next reissue leaves it stored
  (`SessionProtocol.ReissueLosesItsToken`).
- Every portrait sent is meant to come from the bytes that were judged. Of all deaths inside locked sections, it survives
  every one but that between the image and the metadata of a capture (`TornCapture.ProvenanceExactly`; `TornDelivered`
  is the failing run).
- The status is meant to tell which artifacts are current. It does exactly when no worker dies between the metadata of a
  capture, a decision, a portrait or an authorization and the status that follows it (`SectionDeaths.StatusExactly`,
  with a run for each; `ProtocolTheorems.StatusAgreement` says what the status then has to be).
- A status that says PORTRAIT_READY is meant to let a submit through. It does exactly when no worker dies between
  metadata, decision or portrait and the status; a death behind an authorization does no harm
  (`SectionDeaths.SendableExactly`, `RunLaws.ReadyMeansSendable`).
- An authorized capture is meant to stay authorized until the next one. With claims that outlast evaluations it does
  exactly when no worker dies between a second portrait of that capture and its authorization
  (`SectionDeaths.AuthorizationExactly`).
- A pass served from the cache is meant to lead to a portrait. It does exactly when no worker dies between an evaluation
  and its decision (`CachedPass.CachedPassExactly`); after such a death every request is told that the capture passes
  and that its portrait is not ready, until the next capture (`CachedPass.UnbackedUntilNextCapture`).

The comment at `backend/app/portrait/processor.py:304` says a shape mismatch is always caught before compositing; by
`Crop.MismatchGuardExact` a matte larger than its image is not. After an OFFLINE event "Check again" is ignored while
the superseded probe is still in flight (`Connectivity.RetryIsAnsweredUnlessSuperseded`).

## Model

| member | source | states |
|---|---|---|
| Digests.Sha256Injective | backend/app/transactions/store.py:343-345 | the digest stand-in is injective: equal digests come from equal bytes |
| Digests.IdentityInjective | backend/app/experiments/vlm/liveness.py:99-102 | captures with equal liveness identities are equal, attempt id and digest both, even when attempt ids contain colons |
| PersonState.OutcomeTable | backend/app/experiments/vlm/liveness.py:105-154 | PASS exactly for LIVE alone or LIVE with a background person, FAIL exactly for the two spoof classes, never REVIEW |
| PersonState.ReuseTable | backend/app/experiments/vlm/liveness.py:56-65 | the table of the six pairs of counts and states that do not contradict themselves: a record answers for its capture if and only if it is a failure, or carries such a pair under the current schema and prompt |
| Callback.SendCallback | backend/app/integrations/callback.py:77-134 | with a secret, posts go on while they meet a network failure, 429 or 5xx, and at most `max_retries + 1` times; delivered if and only if the last response met is a 2xx with a JSON body, with exactly its redirect; given up if and only if every post there may be met one of these failures |
| Callback.VerdictTable | backend/app/integrations/callback.py:102-134 | the same of the verdict that the submit section acts on |
| Callback.EventIdsDiffer | backend/app/integrations/callback.py:47-50 | two transactions of one consumer, or of consumers whose ids have no colon, never share an idempotency key |
| Retries.RunWithRetries | backend/app/providers/vision/base.py:52-66 | stops at the first success, non-retryable failure or last attempt, and the elapsed time is the sum of attempts and growing delays |
| Retries.EvaluationWithinWorstCase | backend/app/providers/vision/base.py:52-66 | an evaluation whose attempts respect the timeout ends within `P*(r+1) + 0.5*(2^r - 1)` |
| Retries.WorstCaseReached | backend/app/providers/vision/base.py:52-66 | that bound is reached when every attempt times out |
| Retries.ClaimSuffices | backend/app/experiments/vlm/liveness.py:243-254 | no evaluation with its lock waits outlives its claim, if and only if `P*(r+1) + 0.5*(2^r - 1) + w <= T*(r+2) + 10`, whatever provider timeout `P` and claim timeout `T` are |
| Retries.SameTimeoutFits | backend/app/providers/vision/registry.py:70-86 | when one setting times both, this says that the delays and waits fit in `T + 10` |
| TransactionStore.TransactionRecord.constructor | backend/app/integrations/launch.py:107-147 | a launched transaction has no artifacts |
| TransactionStore.TransactionRecord.RegisterAttemptLocked | backend/app/integrations/attempts.py:147-222 | equals the registration function: once per id, one upload per id, terminal at the limit |
| SectionAnswers.RegistrationTable | backend/app/integrations/attempts.py:147-222 | a second upload is refused without effect; otherwise the attempt is on record once, the count grows if it is new, and the warnings and the limit go by the new count |
| TransactionStore.TransactionRecord.CaptureLocked | backend/app/api/v1/browser.py:263-308 | a rejected upload changes nothing, the terminal attempt only the record of attempts and the status, any other replaces image and metadata and revokes |
| SectionAnswers.RevocationTable | backend/app/experiments/vlm/liveness.py:218-228 | a new capture takes decision, portrait and authorization away, except what could not be removed, and nothing else |
| TransactionStore.TransactionRecord.ClaimEvaluationLocked | backend/app/api/v1/browser.py:336-373 | reuses a record that is a failure or a coherent current result, respects a live claim, replaces an expired one |
| SectionAnswers.ClaimTable | backend/app/api/v1/browser.py:336-373 | the three answers and what each stores, with the lifetime of a claim written out |
| RunLaws.CoherentIsServed | backend/app/experiments/vlm/liveness.py:358-387 | the assessment promoted for the current capture answers every later request, at any time, if and only if its pair is coherent; otherwise the next request evaluates again |
| RunLaws.JudgedOnce | backend/app/experiments/vlm/liveness.py:358-387 | over timely runs, when the longest evaluation fits in a claim, a capture with a coherent result of any outcome is served it and never evaluated again |
| TransactionStore.TransactionRecord.FailEvaluationLocked | backend/app/api/v1/browser.py:384-404 | the claim is free: the next request is served the failure while its capture is current, and evaluates otherwise |
| SectionAnswers.FailureTable | backend/app/api/v1/browser.py:384-404 | the claim of that capture goes and no other; the failure is recorded exactly while its capture is current |
| TransactionStore.TransactionRecord.PromoteEvaluationLocked | backend/app/api/v1/browser.py:406-466 | a stale result is kept as evidence only, an error writes no decision, any other result writes the bound decision; a worker that dies leaves what it has written, in this order |
| SectionAnswers.PromotionTable | backend/app/api/v1/browser.py:406-466 | stale if and only if another capture is current, unavailable if and only if current and failed; otherwise the decision carries exactly this capture, assessment and outcome; nothing about other captures changes |
| SectionAnswers.PromotionDeathTable | backend/app/api/v1/browser.py:406-466 | a death leaves the writes before it and none after |
| TransactionStore.TransactionRecord.ClaimPortraitLocked | backend/app/api/v1/browser.py:496-529 | reuses a current portrait, requires a current pass, respects a live claim |
| SectionAnswers.PassTable | backend/app/experiments/vlm/liveness.py:533-562 | a pass counts if and only if it was decided for the stored attempt and digest, under the current schema, on one of the two assessments that may pass |
| SectionAnswers.AuthorizationTable | backend/app/experiments/vlm/liveness.py:657-685 | a portrait counts if and only if the authorization names that decision, that capture and the digest of exactly these bytes |
| SectionAnswers.PortraitClaimTable | backend/app/api/v1/browser.py:496-529 | the four answers in order and what each stores |
| TransactionStore.TransactionRecord.PromotePortraitLocked | backend/app/api/v1/browser.py:556-586 | promotes the candidate and writes the authorization only when the snapshot is still current; a worker that dies leaves what it has written, in this order |
| SectionAnswers.PortraitTable | backend/app/api/v1/browser.py:556-586 | the candidate becomes the portrait, with an authorization of its digest, if and only if the pass it was made for is still the current one; it is gone from staging either way |
| SectionAnswers.PortraitDeathTable | backend/app/api/v1/browser.py:556-586 | a death leaves the writes before it and none after |
| SectionAnswers.ClaimDeathTable | backend/app/api/v1/browser.py:336-529 | a death in a claim leaves an expired claim cleared, one in a registration only the status of a last attempt |
| TransactionStore.TransactionRecord.SubmitLocked | backend/app/api/v1/browser.py:640-770 | every guard in order, delivery under the lock, callback record before status, with a crash possible at each point; a new acknowledgement or completion implies that the last post met a 2xx with a JSON body naming exactly the recorded redirect, which is not empty and is allowed |
| SectionAnswers.RefusalTable | backend/app/api/v1/browser.py:640-685 | which refusal a submit gets, in the order of the guards; refused, it posts nothing and changes nothing |
| SectionAnswers.DeliveryTable | backend/app/api/v1/browser.py:695-770 | otherwise the last response met decides: acknowledged and COMPLETED on an accepted post with an allowed redirect, and CALLBACK_FAILED with the right retry flag on everything else |
| SectionAnswers.SubmitDeathTable | backend/app/api/v1/browser.py:695-770 | a death among the posts changes nothing stored, one behind the callback record leaves the old status |
| SectionAnswers.AcknowledgementIsEarned | backend/app/api/v1/browser.py:695-770 | the last clause of the row of `SubmitLocked`, for every input |
| ProtocolInvariant.WriteImageKeeps | backend/app/api/v1/browser.py:286-291 | the invariant holds while the new image stands beside the old metadata |
| ProtocolInvariant.WriteMetaKeeps | backend/app/api/v1/browser.py:292-305 | it holds when the metadata follow |
| ProtocolInvariant.EndCaptureKeeps | backend/app/api/v1/browser.py:306-308 | it holds after revocation, whichever removals fail |
| ProtocolInvariant.CaptureDiesKeeps | backend/app/api/v1/browser.py:286-308 | it holds when the worker dies before, between or after the two writes, or among the removals |
| ProtocolInvariant.ReadImageKeeps | backend/app/experiments/vlm/liveness.py:433-499 | an image read without the lock is the image of its capture, or its capture is no longer current |
| ProtocolInvariant.ClaimLivenessKeeps | backend/app/api/v1/browser.py:336-373 | claiming, also over an expired claim, keeps the invariant |
| ProtocolInvariant.SectionDiesKeeps | backend/app/api/v1/browser.py:336-586 | it holds when the worker dies behind any write of a registration, a claim, an evaluation promotion or a portrait promotion |
| ProtocolInvariant.PromoteLivenessKeeps | backend/app/api/v1/browser.py:406-466 | a promoted decision is backed by a judgement of the stored bytes |
| ProtocolInvariant.StageCandidateKeeps | backend/app/portrait/processor.py:94-287 | a staged candidate was made from the bytes of the capture it is filed under |
| ProtocolInvariant.PromoteCandidateKeeps | backend/app/api/v1/browser.py:556-586 | a promoted portrait was made from the stored bytes, even when duplicate runs share a candidate file |
| ProtocolInvariant.SubmitKeeps | backend/app/api/v1/browser.py:640-770 | every post is backed by the evidence in force when it is made |
| ProtocolTheorems.StepKeeps | backend/app/api/v1/browser.py:236-770 | every action of any request, deaths included, keeps the invariant |
| ProtocolTheorems.EverySendHasProvenance | backend/app/api/v1/browser.py:640-696 | in every reachable state, deaths behind any write of any section included, every post ever made while the image was not torn carried a portrait produced from exactly the bytes of the capture then current, and those bytes were judged live and eligible; no image is torn unless a capture died between image and metadata; all posts share one event id |
| TornCapture.ProvenanceExactly | backend/app/api/v1/browser.py:286-305 | whatever deaths are allowed, every post has its provenance if and only if none falls between image and metadata |
| TornCapture.TornDelivered | backend/app/api/v1/browser.py:286-305 | otherwise a run delivers a portrait of bytes that nobody judged |
| ProtocolTheorems.SubmitSendsCurrentCapture | backend/app/experiments/vlm/liveness.py:657-685 | what a submit posts is the stored portrait, a JPEG, of the stored capture under the stored decision, with evidence for each unless the image is torn |
| ProtocolTheorems.SupersededForever | backend/app/api/v1/browser.py:263-308 | a superseded capture is never current again |
| ProtocolTheorems.OutlivedRequestChangesNothing | backend/app/api/v1/browser.py:407-426 | no remaining step of a liveness or portrait request whose capture was superseded at any time, claims, failures and deaths inside its sections included, changes image, metadata, decision, portrait, authorization, status or callback |
| ProtocolTheorems.NewCaptureRevokes | backend/app/experiments/vlm/liveness.py:218-228 | after a new capture both current-checks are false, even if every removal fails or the worker dies among the removals; in either case artifacts whose removal succeeds are gone |
| ProtocolTheorems.StatusAgreement | backend/app/transactions/store.py:216-229 | with no lock held a non-terminal status says exactly which artifacts are current, unless it is behind a write whose worker died, and then exactly if it already is the status this write calls for; COMPLETED means acknowledged |
| SectionDeaths.StatusExactly | backend/app/api/v1/browser.py:292-586 | whatever deaths are allowed, the status agrees in every reachable state if and only if none falls between metadata, decision, portrait or authorization and the status |
| SectionDeaths.LagsBehind | backend/app/api/v1/browser.py:292-586 | for each of these deaths, a run with no other whose status does not agree |
| SectionDeaths.SendableExactly | backend/app/api/v1/browser.py:640-670 | whatever deaths are allowed, no submit is refused as not ready under PORTRAIT_READY or CALLBACK_FAILED if and only if none falls between metadata, decision or portrait and the status |
| SectionDeaths.AuthorizationExactly | backend/app/api/v1/browser.py:570-586 | whatever deaths are allowed, over timely runs without another capture and when the longest evaluation fits in a claim, an authorized capture stays authorized if and only if none falls between a portrait and its authorization |
| CachedPass.CachedPassExactly | backend/app/api/v1/browser.py:336-466 | whatever deaths are allowed, a cached pass served for the current capture is never followed by a portrait that is not ready if and only if none falls between an evaluation and its decision |
| CachedPass.Unbacked | backend/app/api/v1/browser.py:427-465 | otherwise a run that serves a pass without a decision |
| CachedPass.UnbackedUntilNextCapture | backend/app/api/v1/browser.py:336-529 | and then, over timely runs and when the longest evaluation fits in a claim, every later request is served that evaluation and no portrait until another capture is accepted |
| ProtocolTheorems.PromotionReadsBack | backend/app/experiments/vlm/liveness.py:533-577 | right after a promotion the read-side check holds if and only if the mapped outcome is PASS |
| ProtocolTheorems.AcknowledgedForever | backend/app/api/v1/browser.py:680-770 | over any run terminal statuses stay terminal, an acknowledged callback never changes and nothing is posted after it |
| ProtocolTheorems.StepFreezes | backend/app/integrations/callback.py:77-134 | one submit adds at most `max_retries + 1` posts, no other action adds any |
| ProtocolTheorems.CompletedYieldsOnlyToLimit | backend/app/transactions/store.py:69-75 | COMPLETED is not absorbing: over every action, it is replaced exactly by an attempt or upload, recorded or died while recording, with which the count reaches the limit |
| RunLaws.LastTerminalUpdateWins | backend/app/transactions/store.py:216-229 | after any status updates in any order the stored status is the last terminal one, or the last one if none is terminal |
| RunLaws.UploadsOnce | backend/app/integrations/attempts.py:147-222 | over every run an attempt that has uploaded never gets another capture accepted |
| RunLaws.StoredImagesAreValid | backend/app/api/v1/experiments.py:43-75 | in every reachable state the stored image starts as a JPEG and decodes, and every accepted capture names its attempt |
| RunLaws.EvaluationClaimExcludes | backend/app/experiments/vlm/liveness.py:243-307 | over every run until its lifetime ends or a request for its capture finishes, a granted evaluation claim stays and is granted to nobody else |
| RunLaws.PortraitClaimExcludes | backend/app/api/v1/browser.py:514-529 | likewise a portrait claim: no other request is told to process that capture |
| RunLaws.AuthorizedUntilNextCapture | backend/app/experiments/vlm/liveness.py:580-685 | over timely runs, when the longest evaluation fits in a claim and no worker dies between a second portrait and its authorization, an authorized capture stays authorized, and portrait requests reuse its portrait, if and only if no other capture is accepted |
| RunLaws.ReadyMeansSendable | backend/app/api/v1/browser.py:640-770 | in every reachable state with status PORTRAIT_READY or CALLBACK_FAILED a submit is not refused as not ready if and only if the status is not behind a write that calls for another; a configured submit then posts, or repeats the redirect of an acknowledged delivery, and a failed delivery leaves the portrait authorized and may be retried |
| AttemptAccounting.AttemptAccountingHolds | backend/app/integrations/attempts.py:147-222 | the count is the number of distinct consumed ids, uploads belong to them and do not repeat, accepted captures have distinct ids and number at most limit - 1 |
| AttemptAccounting.OvershootIsBounded | backend/app/api/v1/browser.py:119-126 | after a terminal status the count grows by at most the requests already past the unlocked check |
| Progress.EveryRequestCanFinish | backend/app/api/v1/browser.py:236-770 | in every reachable state, deaths included, every request in flight can run to its end whatever the provider answers, in at most eight undisturbed steps, three of them of the lock holder |
| Progress.EveryArrivalCanFinish | backend/app/api/v1/browser.py:119-126 | a valid request for an unfinished transaction is admitted at any time and can run to its end |
| SingleFlight.SingleFlightHolds | backend/app/api/v1/browser.py:336-373 | when the longest evaluation fits in a claim, no claim expires under its owner, one request at a time evaluates a capture and none while a reusable evaluation is stored |
| SingleFlight.ReusableForever | backend/app/experiments/vlm/liveness.py:358-387 | over timely runs, when the longest evaluation fits in a claim, a stored reusable evaluation is never replaced and its capture never evaluated again |
| SingleFlight.ClaimedExactlyWhileEvaluating | backend/app/api/v1/browser.py:336-426 | over timely runs in which no evaluation dies, when the longest one fits in a claim, a claim is on file exactly while a request evaluates its capture |
| ClaimExpiry.SingleFlightExactly | backend/app/experiments/vlm/liveness.py:243-307 | single flight over all timely runs if and only if `P*(r+1) + 0.5*(2^r - 1) + w <= T*(r+2) + 10` |
| ClaimExpiry.SingleFlightWithOneTimeout | backend/app/experiments/vlm/liveness.py:243-307 | with `P = T`, if and only if the delays and lock waits fit in `T + 10` |
| ClaimExpiry.LocalProviderOutlivesClaim | backend/app/providers/vision/registry.py:70-86 | settings of the local provider that meet the second condition and fail the first |
| ClaimExpiry.OwnerOvertaken | backend/app/experiments/vlm/liveness.py:248-254 | otherwise, for every valid upload, a run in which two timely requests evaluate one capture |
| Scenarios.CaptureNow | backend/app/api/v1/browser.py:263-308 | the four capture steps without interruption have the effect of the whole section |
| FaceBoxBinding.BoxIsCurrentExactly | backend/app/api/v1/browser.py:484-529 | the box used is the stored one of the processed capture if and only if one was stored and no capture was accepted in between, that of another capture if and only if one was stored and some capture was accepted, and otherwise the one sent with the request |
| FaceBoxBinding.BoxChoice | backend/app/api/v1/browser.py:484-495 | the box stored with the capture comes first, then the one sent with the request; a request without either ends there |
| FaceBoxBinding.StaleBoxUsed | backend/app/experiments/vlm/liveness.py:200-215 | for any two valid uploads of different attempts, a reachable state in which the second capture is processed with the box of the first |
| FaceBoxBinding.StaleBoxDelivered | backend/app/api/v1/browser.py:640-770 | that run continues to one post, acknowledged with a redirect, so sends do occur |
| FloodFill.ConnectedComponentMask | backend/app/portrait/matte.py:41-56 | terminates and returns exactly the pixels 4-reachable from the seed inside the mask, with one push for each |
| FloodFill.ComponentMonotone | backend/app/portrait/matte.py:41-56 | a larger mask has a larger component |
| Integrity.CoveragesMeet | backend/app/portrait/integrity.py:104-109 | two masks that each cover more than half of a region share a pixel of it |
| Integrity.ValidatePortraitMatte | backend/app/portrait/integrity.py:155-223 | component overlap never exceeds face retention, and the matte is accepted exactly when all four thresholds hold |
| Integrity.GateTable | backend/app/portrait/integrity.py:190-210 | reason by reason, the face region being halved: rejected as asymmetric if and only if the first three checks pass and a half is empty or holds less than 0.35 of the share of the other; accepted if and only if all four hold |
| Integrity.HalvesPartition | backend/app/portrait/integrity.py:195-198 | the halves share no pixel and their foreground counts add up to that of the face region |
| Integrity.RetentionsAreShares | backend/app/portrait/integrity.py:104-109 | face and head retention are the shares of pixels at one half or more in the two regions |
| Integrity.FaceRegion | backend/app/portrait/integrity.py:73-87 | a pixel of the frame is in the face region if and only if it lies between the rounded edges of the box |
| Integrity.HeadRegion | backend/app/portrait/integrity.py:90-101 | the head region is that of a box 30% wider on either side, 45% higher above and 20% below |
| Integrity.HeadHoldsFace | backend/app/portrait/integrity.py:90-101 | it contains the face region |
| Integrity.GateWithoutBox | backend/app/portrait/integrity.py:172-188 | without a box a matte is accepted if and only if at least 2% of a non-empty frame is foreground |
| MatteRefinement.RefineMatte | backend/app/portrait/matte.py:93-132 | frame and pixel set are kept and values in the unit range stay in it |
| MatteRefinement.TrustTable | backend/app/portrait/matte.py:76-117 | something is trusted if and only if the anchor is above 0.35 and its 4-connected component there holds the face, and then it is that component |
| MatteRefinement.RefinementTable | backend/app/portrait/matte.py:93-132 | pixel by pixel: beside the trusted component what is above 0.6 becomes 0 and the rest stays; in it everything from the face top downwards becomes at least 0.95 and what is above stays; without trust nothing changes |
| MatteRefinement.OnlyThePersonRemains | backend/app/portrait/matte.py:116-118 | every pixel still above 0.6 after a trusted refinement is 4-connected to the anchor above 0.35 |
| MatteRefinement.PrimaryForegroundKept | backend/app/portrait/matte.py:76-90 | refining an accepted matte lowers no pixel of its primary component |
| MatteRefinement.FaceRetentionAfterRefinement | backend/app/portrait/matte.py:111-130 | destructive refinement with a valid box and non-empty face region leaves face retention at least 0.55 |
| MatteRefinement.RefinementNeverLosesFaceRetention | backend/app/portrait/integrity.py:203-204 | so the refined form of an accepted matte is never rejected for low face retention |
| MatteRefinement.OverlapNeverFalls | backend/app/portrait/integrity.py:119-152 | when the region's centre is raw foreground, component overlap of an accepted matte never falls |
| MatteRefinement.RefineIdempotent | backend/app/portrait/matte.py:93-132 | with a face box a second refinement changes no pixel |
| MatteRefinement.ResolveFailsClosed | backend/app/portrait/processor.py:289-343 | when shapes agree a matte is used exactly if raw passes, and the one used passes, within the stated drops, with no primary pixel lowered |
| MatteRefinement.ResolutionTable | backend/app/portrait/processor.py:303-343 | which matte is used: refined if the shapes differ; otherwise none if raw fails, refined if and only if it passes within 0.15 of the retention and 0.25 of the balance of raw, and else raw |
| MatteRefinement.BystanderIsAbsent | backend/app/portrait/processor.py:326-329 | no refinement that is used keeps confident foreground that is not connected to the person |
| SolidMatte.BystanderIsRemoved | backend/app/portrait/processor.py:326-329 | for a concrete matte with a bystander at 0.9, the matte used has that pixel at 0 |
| SolidMatte.SolidIsAccepted | backend/app/portrait/integrity.py:155-223 | a solid matte around a face that fills the frame passes the gate, so the statements about accepted mattes are not empty |
| SolidMatte.SolidIsTrusted | backend/app/portrait/matte.py:93-117 | and its refinement takes the destructive path with the whole frame as support |
| MatteArrays.MaskBounds | backend/app/portrait/matte.py:59-73 | the bounding box of the true pixels, tight on every side |
| MatteArrays.TrustedSupportOf | backend/app/portrait/matte.py:102-117 | the component the refinement may trust, by the flood fill on arrays |
| MatteArrays.RefineMatteArray | backend/app/portrait/matte.py:93-132 | the array rewriting yields the refined matte |
| Crop.ForegroundBbox | backend/app/portrait/crop.py:52-62 | the tight box of the pixels above one half, none if there are none |
| Crop.FitToSource | backend/app/portrait/crop.py:101-121 | a frame that fits is kept, one that does not fills the source in one direction, and the 3:4 shape is within three units |
| Crop.DesiredFrame | backend/app/portrait/crop.py:80-101 | the 3:4 frame gives the head at most 52% of its height and the foreground at most 84% of its width, and is no larger than these or the smallest frame ask for |
| Crop.HeadLies | backend/app/portrait/crop.py:81-89 | with a face box the head spans the rows of the box and is centred on its middle column; without, it is the top 42% of the foreground |
| Crop.PlaceVertically | backend/app/portrait/crop.py:122-148 | the top starts above head and hair, is lowered only by the slack above the hair and no further than the shoulders need |
| Crop.PlaceHorizontally | backend/app/portrait/crop.py:150-179 | the left edge is the one closest to the face-centred position among those that stay inside and keep both margins |
| Crop.PassportCrop | backend/app/portrait/crop.py:65-179 | inside the source with positive size, hair pad above the foreground, shoulder margin or the hair limit, all foreground columns when both side margins fit, closest to the face, the top never above its anchor unless the frame has to fit, head and shoulder shares and no larger a frame than they ask for unless the source limits it, aspect within three units |
| Crop.MismatchGuardExact | backend/app/portrait/processor.py:159-182 | the guard fires exactly when the crop reaches past the matte, hence never when shapes agree |
| Connectivity.GatePromises | frontend/src/features/connectivity/useConnectivity.ts:57-136 | after any events: one probe at most, ready only from a probe begun after the last OFFLINE and not before the last ONLINE event, every unsuperseded ONLINE event checked or queued, `checking` means a current probe is running |
| Connectivity.ReadyOnlyBySupported | frontend/src/features/connectivity/useConnectivity.ts:89-110 | only the supported verdict of a probe that no OFFLINE event superseded turns the gate ready |
| Connectivity.ReadyExactly | frontend/src/features/connectivity/useConnectivity.ts:90-119 | the answer of a probe leaves the gate ready if and only if it is the supported verdict, no OFFLINE event came after the probe began and no recheck is queued |
| Connectivity.AnswerTable | frontend/src/features/connectivity/useConnectivity.ts:89-119 | what every answer does: with a recheck queued that check begins, otherwise a current answer shows the status that belongs to it and a superseded one changes nothing; ready once if and only if some current answer was supported |
| Connectivity.EventTable | frontend/src/features/connectivity/useConnectivity.ts:64-150 | what the other events do, with and without a probe in flight |
| Connectivity.QueuedCheckRuns | frontend/src/features/connectivity/useConnectivity.ts:111-119 | a queued recheck starts in the event that ends the probe it waited for |
| Connectivity.RetryIsAnsweredUnlessSuperseded | frontend/src/features/connectivity/useConnectivity.ts:148-150 | "Check again" is answered if and only if no superseded probe is in flight |
| Connectivity.ConnectivityHook.RunCheck | frontend/src/features/connectivity/useConnectivity.ts:64-90 | dropped while the slot is taken; otherwise at most one probe starts, in an epoch newer than every other, and nothing is ready |
| Connectivity.ConnectivityHook.ResumeCheck | frontend/src/features/connectivity/useConnectivity.ts:90-119 | keeps the invariant of the gate; ready if and only if the verdict is supported, current and not to be repeated; a queued recheck starts at once |
| Connectivity.ConnectivityHook.HandleOffline | frontend/src/features/connectivity/useConnectivity.ts:123-127 | keeps the invariant; no probe in flight can be applied any more and no recheck is left queued |
| Connectivity.ConnectivityHook.HandleOnline | frontend/src/features/connectivity/useConnectivity.ts:130-136 | keeps the invariant; never ready by itself, a check starts now or waits for the probe in flight |
| Connectivity.ConnectivityHook.Retry | frontend/src/features/connectivity/useConnectivity.ts:148-150 | keeps the invariant; never a second probe, never ready by itself |
| Sessions.IndexStore.StoreToken | backend/app/integrations/launch.py:198-229 | the token opens its transaction until it expires, every other token as before, and a list that held every token still does |
| Sessions.IndexStore.RevokeActiveLaunchTokens | backend/app/integrations/launch.py:253-262 | exactly the listed tokens are unknown afterwards, every other one is redeemed as before |
| Sessions.IndexStore.ReissueLaunch | backend/app/integrations/launch.py:183-195 | the new token is redeemed, the listed ones are unknown, others untouched; if every token was listed the new one is the only one |
| Sessions.ReissueDeathTable | backend/app/integrations/launch.py:183-262 | a death leaves the tokens dropped before it, and the new token only once it is stored |
| Sessions.IndexStore.RedeemLaunchToken | backend/app/integrations/browser_session.py:67-127 | a refused token is refused ever after, an admitted one is admitted again until it expires, no other is affected, and no terminal transaction is opened for capture |
| Sessions.RedeemTable | backend/app/integrations/browser_session.py:67-127 | unknown, expired or admitted, for capture unless the transaction is over; only an expired token is forgotten |
| Sessions.IndexStore.CreateSessionLocked | backend/app/integrations/browser_session.py:146-192 | the new session resolves until it expires; an active one becomes the only active one of its transaction, a terminal one displaces nobody |
| Sessions.OpeningTable | backend/app/integrations/browser_session.py:146-192 | an active session takes the place of the one its transaction points to, a terminal one is added beside it, every other record stays |
| Sessions.OpeningDeathTable | backend/app/integrations/browser_session.py:146-192 | a death leaves the writes before it and none after |
| Sessions.IndexStore.ResolveBrowserSession | backend/app/integrations/browser_session.py:195-213 | what fails to resolve never resolves later, what resolves keeps doing so until it expires, others are untouched |
| Sessions.ResolveTable | backend/app/integrations/browser_session.py:195-213 | a session resolves to its record if and only if it is stored and has not expired; only an expired one is forgotten |
| Sessions.IndexStore.CompleteLocked | backend/app/api/v1/browser.py:766-816 | no active session of the transaction is left, and its launch tokens open only terminal ones |
| SessionProtocol.OneActiveSession | backend/app/integrations/browser_session.py:130-192 | at most one active session record per transaction after any requests in any order, besides records whose worker died before it pointed to them, so that nobody was given the token |
| SessionProtocol.OrphanStays | backend/app/integrations/browser_session.py:146-192 | such a record does stay beside that of the next redemption |
| SessionProtocol.NewestRedemptionWins | backend/app/integrations/browser_session.py:181-192 | of the active sessions of a transaction, a new one leaves exactly the records whose token was never returned; every other resolves to nothing, now and ever after |
| SessionProtocol.ReissueExactly | backend/app/integrations/launch.py:162-262 | after any requests in any order: the new token of a reissue is the only stored one until the next reissue, if and only if every stored token of the transaction was on its list and no creation has a first token still to store |
| SessionProtocol.OrderlyReissueExactly | backend/app/integrations/launch.py:162-262 | when so far no launch was reissued during its creation and no creation or reissue died, if and only if the creation has left no first token at large |
| SessionProtocol.ReissueLosesItsToken | backend/app/integrations/launch.py:183-229 | a launch reissued during its creation: no first token is at large, and yet the next reissue leaves the earlier token redeemable |
| SessionProtocol.KeyKeepsTransaction | backend/app/integrations/launch.py:120-147 | an external key keeps the transaction it was launched with |
| SessionProtocol.OneLaunchPerKey | backend/app/integrations/launch.py:120-147 | after any requests in any order no two keys share a transaction, and a transaction has at most one creation in flight, that of its key |
| SessionProtocol.LaunchTable | backend/app/integrations/launch.py:120-147 | a launch of a key already taken changes nothing, any other takes the key for a new transaction; a request that has stored what it was to store is over |
| SessionProtocol.Lifetimes | backend/app/integrations/launch.py:207-229 | a token or session given out works exactly until its lifetime has passed |
| Sampling.GroupBy | backend/app/experiments/vlm/datasets/sampling.py:38-40 | groups hold the items of their key in order |
| Sampling.DiverseSample | backend/app/experiments/vlm/datasets/sampling.py:29-58 | a sub-multiset of length `min(k, n)` in which no group is two picks ahead of one that is not exhausted |
| Sampling.SplitDevHoldout | backend/app/experiments/vlm/datasets/sampling.py:61-84 | dev and holdout partition the items, share no key, and holdout holds exactly the chosen keys |
| Sampling.HoldoutSize | backend/app/experiments/vlm/datasets/sampling.py:75-76 | the holdout is the first groups of the shuffled list: the rounded share, at least one, at most all |
| Metrics.IntervalInvertsScoreTest | backend/app/experiments/vlm/metrics.py:21-29 | the Wilson interval holds exactly the proportions that the score test at `z` does not reject |
| Metrics.IntervalHoldsProportion | backend/app/experiments/vlm/metrics.py:21-29 | the interval holds `k/n` and lies in the unit range without its clamps |
| Report.ComputeMetrics | backend/app/experiments/vlm/metrics.py:127-193 | every total counts the records and is the sum of its column of class rows, and each numerator fits its denominator |
| Report.RecordTable | backend/app/experiments/vlm/metrics.py:32-76 | what each record counts as: an error is nothing else, and the rest is uncertain, or right if and only if the prediction is the class of its label |

## Left out

- FastAPI wiring, cookies, CSRF, JWT, logging, Prometheus metrics, configuration loading: plumbing around the core.
- Files, `flock`, fsync and path confinement: an atomic map and a lock; corrupt-file fallbacks such as blank attempts.
- Failure to remove a staged portrait candidate: candidates are always removed; a leftover one is of the same capture.
- The last clamps of `passport_crop` (backend/app/portrait/crop.py:167-179), apart from the one at the bottom edge:
  `Crop.PassportCrop` holds without them, so they never act.
- Provider HTTP, image decoding and encoding, segmentation and the blur after the matte is chosen: arbitrary results;
  whether an upload decodes is an arbitrary verdict on its bytes.
- Validation of reason codes and attempt results, of redirect URLs beyond being non-empty, and of image sizes and media
  types: rejected requests change nothing.
- Rounding of binary floating point in matte, crop and metrics: reals are exact; the metrics are unrounded.
- `wilson_interval` at a negative `z`: callers always pass 1.96.
- The REVIEW outcome: no rule of the module produces it.
- `GET /browser/portrait`: it checks and then reads without the lock, so no atomic claim about it holds.
- The test-only decision writer and the experiment endpoints: they bypass the locks and bindings by design.
- The switch that disables portrait processing, `processing.json` and the portrait metadata: not read by any guard.
- Idempotence of refinement without a face box: the seed is then the centre of a bounding box, which removing
  background can move; customer portraits always have a box.
- CSRF hashes and the `revoked` flag of session records: never set to true by this code.
- Capability issues and the stored policy decision of the connectivity hook: display data; evaluating the browser
  policy is part of the answer of a probe.
- The order of report rows and of sampled groups: statements hold for every order, the sorted one included.
- Latency statistics, confidence buckets, strategy comparison and seeded plain sampling: easy members only.
- `useCamera` and `useCaptureFlow`: a late result can meet a newer run in the same phase, so the wanted claim fails.
- Frame selection, reducers, browser detection and policy evaluation in the frontend: easy members only.
