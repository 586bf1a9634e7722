# Career Workbench: verified model

Career Workbench keeps a candidate's sources, facts, evidence, evaluations,
comparisons, applications and discovery leads as revisioned records. A command
reads some records, checks its guards and issues one atomic commit of inserts,
updates guarded by the revision read, and one event per mutation. This project
models that store, 35 commands over it, and the sequential algorithms the
commands rest on, and proves what holds over whole runs of interleaved commands.

## How the model is laid out

- `Domain`, `Store`, `Listing`: records, the revisioned store (a class, with its
  transaction specified on values), and lists of rows.
- `Lifecycle`: which changes each record may undergo, and how changes go together
  in one request. A `Licence` is the family a command belongs to.
- `ProfileCommands`, `OperationCommands`, `DiscoveryCommands`, `ApprovalCommands`,
  `ImportSelection`, `ImportCommands`: each command as a *plan*, a function from
  the rows it has read to the request it submits or the error it throws. Every
  plan is proved to submit only well-formed, lawful requests.
- `Runs`, `Workbench`, `Replays`, `Guarantees`: runs. In a run each row of a command's view
  was read at some earlier moment, possibly a different one for each row, with any
  commits in between; a view may leave rows out; a crash is a continuation that never
  comes. Keys are used by any calls: a commit under a key that has one is replayed, with
  the result of the first, and the call goes on with that result. A *serial* run is one in which every view is the current state. The theorems
  of `Guarantees` are about any *proper planner*, a function from calls and views to
  requests; `Guarantees.PlanIsProper` says that the commands (`Workbench.Plan`) are one.
- `Approvals`, `FactChains`, `Settlement`, `Revival`, `Freshness`, `Quotas`,
  `Locators`, `CascadeClosure`, `EvaluationOutcome`: the theorems about runs and
  about the commands with the most branching.
- `Scripts`, `ReplayScript`, `RevivalRace`, `FreshnessRace`, `FreshnessScript`,
  `DiscoveryScript`, `OverlappingRecordings`: runs written out call by call from the
  empty store, which show that what the theorems leave open does happen. The scripts are of any planner that plans their
  commands as the commands do; `Scripts.PlanAgrees` says that `Workbench.Plan` does.
- `Service`: `WorkbenchService` as a class whose methods read the store step by
  step, check, and commit. Each is proved to end exactly as its plan says, so the
  theorems about plans are theorems about the methods. "Ends as its plan says" in
  the table below means: the final store and the reply equal those of the plan run
  against the store as it was (`Service.Executed`).
- `Canonical`, `CanonicalText`, `CanonicalEquivalence`, `CanonicalTies`,
  `EffectText`: canonical JSON and approval digests.
- `Scenarios`, `ComparisonScores`, `StableSort`, `DuplicateKeys`, `Ids`,
  `UrlNormalization`, `EventStream`, `ScalarFacts`, `ImportConservation`: the
  sequential algorithms.

## What the model assumes

- The store commits atomically and serialises commits
  (packages/storage/src/workspace-store.ts:776-885). Its write lock, SQLite and
  files are below the model.
- Within one command, two reads of one row see one value.
- `list` is one query (packages/storage/src/workspace-store.ts:910-922), so what it
  returns is of one moment. Only `Revival.RevivedOnlyByRace` and
  `Guarantees.RevivalsWereRaces` use this, as the hypothesis `EvidenceListed`.
- SHA-256 has no collisions: a digest is represented by what was hashed.
  `EffectText.EffectTextInjective` shows why an effect can stand for the canonical
  text that is hashed.
- Two commands with one digest, of which one admits an evaluation, have the same kind
  and input, over which the digest is taken (`Workbench.DigestTells`). What a commit
  returns is taken to be the records that it writes, in order; a call goes on with what a
  commit has returned only where it admits or starts an operation or evaluation.
- Identities are numbers, of which only equality and order matter; the order
  stands for `localeCompare` on identities. A command's new identities are inputs. That
  the identity which a call draws for an evaluation is in the store only by its own
  commit is the hypothesis `DrawsFresh` of the theorems that need it.
- Clock readings are inputs, one for an expiry check and one for what is recorded.
- The checks of text bounds and patterns of a command, where they do not bear on
  any property, are one flag, `wellFormed`. So is the parsing of a URL.
- Evidence text is normalised by trimming, folding white space and lowering the
  case of the ASCII characters; no property depends on more than that it is a
  function. Rubric scoring (`calculateScore`) is an input: scores or an error.
- Characters are Unicode code points; where UTF-16 order matters (parameter names
  of URLs) it is written out.

## Where a promise fails, and exactly when it holds

- An `evaluate` call whose admitting commit is a replay goes on with the operation and
  the evaluation that the first call admitted, but names the identities it has drawn
  itself in its events and as the result (packages/application/src/workbench.ts:2188-2189,
  2355, 2399-2419). If its completion commits, the operation has a result that does not
  exist, and the log accounts for a record that does not exist and not for the one that
  changed: `ReplayScript.ReplayedAdmissionCompletes` is such a run of six calls, each on the
  current state. `Replays.RecordsHoldExactly` is the exact condition over runs, and
  `Replays.CompletionRecordsExactly` the one for a single completion.
- The repository's own contract for commands promises that one repeated under its key
  with identical content returns the original result (section 7.1, "Commands"). An
  `evaluate` call that repeats a successful one with nothing in between never does: it is
  refused and changes nothing (`EvaluationOutcome.RepeatedEvaluationIsRefused`), since the
  digest of its completion is taken over an identity drawn anew.
- `canonicalJson` sorts keys by `localeCompare`, which ties distinct keys such as
  the composed and decomposed spellings of a letter. `CanonicalTies.TiedKeysDiffer`
  is such an object; `CanonicalTies.CanonicalIffKeysTold` is the exact condition.
  The effect digests are not affected: their keys are fixed and told apart.
- Comparisons are kept fresh by the staleness cascade only if nothing relevant
  comes between the reads of a command and its commit:
  `Freshness.FreshnessKeptExactly` is the exact condition, step by step, and
  `Freshness.LiveComparisonsAreFresh` the case of commands run one at a time.
  `FreshnessScript.RaceHappens` is a run in which two calls break it.
- Rejected evidence stays out only if the acceptance of an item has listed the
  rejection. `RevivalRace.RejectedEvidenceRevived` is a run of four calls in which it
  comes back; `Revival.AcceptanceRevivesNothing` is the exact condition for a commit;
  `Revival.RevivedOnlyByRace` says that such a race is the only exception over a run,
  and `Revival.RejectionIsRemembered` that there is none when commands run one at a time.
- The discovery quotas and the uniqueness of URLs are kept by a recording exactly when
  its check still holds of the counts at its commit (`Quotas.QuotasKeptExactly`);
  `OverlappingRecordings.OverlapDuplicates` is a run in which two recordings overlap
  and leave two leads with one URL. The command itself checks more than is needed: it
  counts every external posting, not only those of discovery.
- The event stream resumes from the query's `after` before it looks at the
  `last-event-id` header, and the client's URL has `after`: its automatic reconnection
  repeats events (`EventStream.ReconnectionRepeats`). `EventStream.AutomaticReconnection`
  and `EventStream.ReconnectionContinues` are the exact conditions.
- A failed evaluation leaves its opportunity "evaluating"
  (packages/application/src/workbench.ts:3142-3206); `EvaluationOutcome` states it.
- `terminateOperation` never consults the operation graph of
  packages/domain/src/state-machines.ts:37-53: `DiscoveryScript.QueuedCanSucceed`
  is a run, and `OperationCommands.TerminationFollowsGraph` says exactly when the
  graph is kept to. The model follows the code.

## Model

| member | source | states |
|---|---|---|
| `Guarantees.EveryReachableState` | packages/application/src/workbench.ts:494-4991 | In every state that any interleaving of the calls of a proper planner can reach, crashes and repeated keys included: consumed approvals match their effects and were granted by the user, facts form acyclic chains, operations are dated exactly when settled, once-completed evaluations belong each to a succeeded operation of its own, and facts quote their sources |
| `Guarantees.EverySerialState` | packages/application/src/workbench.ts:1458-1689 | In every state reachable by commands run one at a time, live comparisons are fresh and all discovery quotas hold |
| `Guarantees.PlanIsProper` | packages/application/src/workbench.ts:494-4991 | The commands are a proper planner: sound, with every decision, proposal, correction, recording and quotation checked on the rows read, and no approval consumed that the call saw expired |
| `Guarantees.EveryStateOfTheCommands` | packages/application/src/workbench.ts:494-4991 | The same of the commands themselves |
| `Guarantees.RecordsOfTheCommands` | packages/application/src/workbench.ts:2160-2446 | Of the commands themselves: the log accounts for every revision and each once-completed evaluation is the one result of its operation, if and only if no completion has committed whose admitting commit was a replay |
| `Guarantees.SerialStatesOfTheCommands` | packages/application/src/workbench.ts:1458-1689 | Of the commands themselves: freshness and the discovery quotas in every state of a serial run |
| `Guarantees.RejectionsAreRemembered` | packages/application/src/workbench.ts:1957-2099 | With commands run one at a time, an item that shares its rejection identity with one already rejected is accepted later only if both are candidate facts and its fact is a proper descendant, by user corrections, of the rejected one's |
| `Guarantees.RevivalsWereRaces` | packages/application/src/workbench.ts:1957-2099 | However calls interleave, what was rejected comes back under the same identity only by a user correction, or by an acceptance whose list of the evidence is of a moment before the rejection was committed (a list being of one moment) |
| `Guarantees.RevivalsWereUnaware` | packages/application/src/workbench.ts:1957-2099 | The same with no assumption about lists: by a user correction, or by an acceptance that had not read the other item as rejected |
| `Guarantees.ConsumedUnexpired` | packages/application/src/workbench.ts:3956-4026 | Under any interleaving the call that consumes an approval has seen, by its clock, that the approval had not expired |
| `Guarantees.WorkIsChecked` | packages/application/src/workbench.ts:494-4991 | Whatever calls of a proper planner drive the store, the run is valid, and every decision, proposal, correction, recording and quotation in it was checked on the rows its call had read |
| `Workbench.Plan` | packages/application/src/workbench.ts:494-4991 | What any command submits from rows it may have read at different past moments updates each row once at the revision read, has one event per mutation, which names what it writes but for completions under a replayed admission, and is lawful for its family; 35 commands |
| `Workbench.PlanIsSound` | packages/application/src/workbench.ts:494-4991 | Every command submits only what can be applied to rows as it has read them, is lawful for its family and in shape, and is truthfully reported unless it completes under a replayed admission, or it submits nothing |
| `Workbench.WorkIsValid` | packages/application/src/workbench.ts:494-4991 | Every interleaving of calls of a sound planner is a valid run, so every theorem about runs applies to the commands |
| `Workbench.AdmissionsAreProper` | packages/application/src/workbench.ts:2188-2325 | An evaluation is only ever completed or failed from an admission that was committed, by its own call or by an earlier one under the same key and input, with a running operation and a running evaluation of that operation |
| `Workbench.ReplayedAdmission` | packages/application/src/workbench.ts:2271-2325 | What a call whose admitting commit is a replay goes on with is exactly the operation, evaluation and opportunity that an earlier call with the same input has committed |
| `Replays.NativeUnlessReplayed` | packages/application/src/workbench.ts:2188-2325 | A call goes on with an evaluation that is not the one it has drawn an identity for if and only if its admitting commit was a replay |
| `Replays.NamedUnlessReplayed` | packages/application/src/workbench.ts:2358-2446 | Under any interleaving a commit names the evaluation it completes as the result if and only if it is no completion under a replayed admission, and then its events name what it writes |
| `Replays.CompletionRecordsExactly` | packages/application/src/workbench.ts:2339-2446 | An undisturbed completion always commits; it leaves a log that accounts for the state if and only if the identities its call has drawn are those of the admission, and a right result if and only if the evaluation is |
| `Replays.RecordsHoldExactly` | packages/application/src/workbench.ts:2160-2446 | In each state of any interleaving, crashes and repeated keys included: the events of each identity carry revisions 1, 2, ..., n with n the stored revision, if and only if no completion under a replayed admission has committed before; and so for each once-completed evaluation being the one result of its operation |
| `ReplayScript.ReplayedAdmissionCompletes` | packages/application/src/workbench.ts:2188-2446 | It happens: one evaluation asked for twice under one key, a run of six calls, ends with a completed evaluation whose operation names another one that does not exist, and with events of that one |
| `Store.WorkspaceStore.Commit` | packages/storage/src/workspace-store.ts:776-885 | The in-place transaction equals the specified one: replay of the stored result or refusal by idempotency key, all mutations or none, then one event per mutation; a refusal leaves the store as it was |
| `Store.WorkspaceStore.Get` | packages/storage/src/workspace-store.ts:887-899 | The row of that table with that identity, or `entity_not_found` |
| `Store.RefusedPrefix` | packages/storage/src/workspace-store.ts:806-808 | A mutation that cannot be applied refuses the whole transaction, with its error |
| `Store.ApplyAllEffect` | packages/storage/src/workspace-store.ts:847-885 | Optimistic concurrency: mutations built from stale reads succeed only if every updated row is still exactly the row read; then they do exactly what was asked and no identity is written twice |
| `Store.CurrentRequestCommits` | packages/application/src/ports.ts:46-76 | A well-formed request on current rows with unused identities and key is never refused |
| `Store.RevisionDeterminesRecord` | packages/application/src/ports.ts:46-57 | No ABA: anywhere in a history, an identity and a revision determine the whole record |
| `Store.StaleViewBehind` | packages/application/src/ports.ts:78-105 | Rows read at any earlier moments, each at a different one, are the current rows or earlier revisions of them |
| `Store.ReceiptsPersist` | packages/storage/src/workspace-store.ts:790-805 | Once a key has committed, no later submission under it commits or changes anything, however much later |
| `Runs.ReceiptOrigin` | packages/storage/src/workspace-store.ts:790-839 | What is kept under a key is the digest and the result of the one commit that the key had |
| `Runs.StepOfRun` | packages/application/src/workbench.ts:391-404 | Over whole interleaved runs a submission that commits finds each row it updates as it was read, inserts only new rows and changes no other row; one that does not commit changes nothing |
| `Runs.RowsChangeLawfully` | packages/domain/src/state-machines.ts:8-107 | Between consecutive states of any run each row is new at revision 1, unchanged, or one revision further by a change that its life cycle allows |
| `Approvals.ConsumptionMatchesEffect` | packages/application/src/workbench.ts:3956-4125 | In every reachable state a comparison has `acceptedAt`, and a draft has left `staged`, only with a consumed approval that targets it; each consumed approval is approved by an interaction, is bound to its target and shows its effect past the approved revision; there is one per effect |
| `Approvals.AcceptedIffConsumed` | packages/application/src/workbench.ts:4504-4590 | A comparison is accepted, or a draft reviewed, if and only if a consumed approval targets it, and then exactly one does |
| `Approvals.EffectAtApprovedRevision` | packages/application/src/workbench.ts:3956-4026 | The commit that consumes an approval performs the very effect its digest names, on the row at exactly the approved revision, and touches nothing else, whatever was interleaved |
| `Approvals.ConsumedOnce` | packages/application/src/workbench.ts:4069-4124 | No approval is consumed by two commits of one run |
| `Approvals.StaysConsumed` | packages/domain/src/state-machines.ts:55-63 | A consumed approval stays consumed |
| `Approvals.ApprovalsAreGrantedByTheUser` | packages/application/src/workbench.ts:3815-3895 | For each approval that is approved or consumed the log holds the user's own event at revision 2 |
| `Approvals.ApplicationMoves` | packages/application/src/workbench.ts:4187-4313 | An application changes only by an event of the user, or in a commit that consumes an approval of exactly that change |
| `ApprovalCommands.RequireApprovedEffect` | packages/application/src/workbench.ts:3956-4026 | An approval is usable only if approved by an interaction, unexpired, at the expected revision, and bound by digest to this kind, target, revision and details; a lapsed one yields only its own expiry |
| `EffectText.EffectTextInjective` | packages/application/src/workbench.ts:406-418 | The canonical text under an effect digest determines the effect's kind, target, revision and details, so an approval of one never satisfies the check for another |
| `Service.WorkbenchService.ApprovedEffect` | packages/application/src/workbench.ts:3956-4026 | The method returns the approval, refuses, or records the lapse and refuses, exactly as specified, and changes nothing else |
| `Service.WorkbenchService.RequestApproval` | packages/application/src/workbench.ts:3667-3813 | Ends as its plan says: the target is at the expected revision in a state that the effect can start from, and the approval is bound to that revision and effect |
| `Service.WorkbenchService.DecideApproval` | packages/application/src/workbench.ts:3815-3895 | Ends as its plan says; a lapsed approval is recorded as expired, under a key of its own, and the decision refused |
| `Service.WorkbenchService.AcceptComparison` | packages/application/src/workbench.ts:4028-4125 | Ends as its plan says: acceptance and consumption in one commit, with the inputs still at their recorded revisions, or no change but the expiry of a lapsed approval |
| `Service.WorkbenchService.ReviewDraft` | packages/application/src/workbench.ts:4504-4590 | Ends as its plan says: sealing of the draft and consumption in one commit, or no change but the expiry of a lapsed approval |
| `Service.WorkbenchService.TransitionApplication` | packages/application/src/workbench.ts:4187-4313 | Ends as its plan says: an edge of the application graph, taken by the user directly or with an approval of exactly these details |
| `Service.WorkbenchService.MoveApplication` | packages/application/src/workbench.ts:4228-4244 | The application is moved if and only if it is at the expected revision and its graph has that edge, and then one revision further; otherwise the error is the one that the source throws |
| `Revival.RejectionIsRemembered` | packages/application/src/workbench.ts:2042-2099 | In every serial run what was rejected is not accepted under the same identity afterwards, corrections apart |
| `Revival.RevivedOnlyUnaware` | packages/application/src/workbench.ts:1957-2099 | Under any interleaving a rejected identity is accepted later only after a user correction of its fact, or by an acceptance that had not read the other item as rejected |
| `Revival.RevivedOnlyByRace` | packages/application/src/workbench.ts:2042-2076 | Where each list of evidence is of one moment, the acceptance that had not read the rejection had listed the evidence at a moment before the rejection was committed |
| `Revival.AcceptanceRevivesNothing` | packages/application/src/workbench.ts:2042-2076 | Under any interleaving a committed acceptance leaves no rejected, uncorrected item of its identity if and only if the check that it made on the rows it had read would still pass on the rows at its commit |
| `Revival.DecidedIsIdentified` | packages/application/src/workbench.ts:1990-2010 | In every reachable state an item that was decided has a rejection identity: its source is there |
| `RevivalRace.RejectedEvidenceRevived` | packages/application/src/workbench.ts:1957-2099 | The race happens: a run of four calls, two proposals of one claim, a rejection, and an acceptance on the list read before it, ends with a rejected identity accepted and nothing corrected |
| `Revival.AwareAcceptance` | packages/application/src/workbench.ts:2042-2076 | An acceptance that has read the rejection of its identity rests on a correction, though every row it read may since have been overtaken |
| `Revival.NotRevivedMeans` | packages/application/src/workbench.ts:2042-2076 | The scan over all evidence passes if and only if each rejected item differs in identity or is excused by a correction |
| `Revival.DecidedOnce` | packages/application/src/workbench.ts:1990-2010 | Under any interleaving an item that is accepted or rejected never changes again |
| `Revival.DecisionChecked` | packages/domain/src/evidence.ts:96-160 | An acceptance has checked the source, the fact and every rejected item on the rows it read |
| `Service.WorkbenchService.DecideEvidence` | packages/application/src/workbench.ts:1957-2040 | Ends as its plan says, with the checks in the order of the source |
| `Service.WorkbenchService.ProposeEvidence` | packages/application/src/workbench.ts:1894-1955 | Ends as its plan says |
| `Service.WorkbenchService.AssertRejectedEvidenceNotRevived` | packages/application/src/workbench.ts:2042-2076 | The loop over the evidence agrees with its specification |
| `Service.WorkbenchService.CorrectionDescendant` | packages/application/src/workbench.ts:2078-2099 | The loop with its cycle guard agrees with its specification |
| `FactChains.FactsFormChains` | packages/application/src/workbench.ts:1183-1244 | In every reachable state a fact is superseded if and only if a fact names it as predecessor, exactly one does, and that one is a confirmed user correction that a later commit recorded |
| `FactChains.ChainsAreAcyclic` | packages/application/src/workbench.ts:1183-1244 | No chain of corrections meets itself |
| `FactChains.OneLiveHead` | packages/application/src/workbench.ts:3310-3342 | Each fact lies below exactly one fact that nothing supersedes, along exactly one chain |
| `FactChains.CorrectionDescentIsAncestry` | packages/application/src/workbench.ts:2078-2099 | In reachable states the ancestry loop never fails and returns exactly "the rejected fact is a proper ancestor of the candidate" |
| `FactChains.DescendsIsAncestry` | packages/application/src/workbench.ts:2083-2097 | The loop never meets a fact twice, so its cycle guard never fires, from any fact of a reachable state |
| `Service.WorkbenchService.ConfirmFact` | packages/application/src/workbench.ts:1160-1296 | Ends as its plan says, for each of the four outcomes |
| `Service.WorkbenchService.GetCorrectable` | packages/application/src/workbench.ts:3309-3326 | Passes if and only if the fact is there, verified and at the expected revision, and the locator quotes a source of the candidate's own; then it returns the fact |
| `Service.WorkbenchService.CheckSources` | packages/domain/src/evidence.ts:65-94 | The loop over locators agrees with its specification |
| `CascadeClosure.CascadeIsClosure` | packages/application/src/workbench.ts:3343-3427 | The filters select exactly the dependency closure of a fact: completed evaluations through accepted evidence, then live comparisons and sealed artifacts |
| `CascadeClosure.CorrectionIsExact` | packages/application/src/workbench.ts:3298-3476 | A correction on current rows commits; it supersedes the fact, inserts the correction, makes stale exactly the dependents at one revision further with one event each, and leaves every other row alone |
| `CascadeClosure.NothingDependsAfterwards` | packages/application/src/workbench.ts:3343-3427 | Right after a correction nothing depends on the corrected fact |
| `Service.WorkbenchService.CorrectVerifiedFact` | packages/application/src/workbench.ts:3298-3476 | Ends as its plan says |
| `Service.WorkbenchService.CascadeMutations` | packages/application/src/workbench.ts:3328-3455 | The request supersedes the fact, inserts the correction, and revises exactly the records that depend on the fact |
| `Freshness.LiveComparisonsAreFresh` | packages/application/src/workbench.ts:3478-3543 | With commands run one at a time, each comparison that is not stale references completed evaluations at the recorded revisions with the recorded scores and dimension values, of succeeded operations of model sessions |
| `Freshness.FreshnessKeptExactly` | packages/application/src/workbench.ts:3343-3427 | Under any interleaving a commit keeps all live comparisons fresh if and only if nothing that matters came between its reads and itself: a correction overlooks no live comparison on an evaluation it takes, a proposal records only evaluations still at the revision read |
| `Freshness.OverlookedIsNotFresh` | packages/application/src/workbench.ts:3343-3381 | A live comparison that a correction has not listed, on an evaluation that the correction takes, is left on a stale evaluation (`FreshnessRace` meets these hypotheses) |
| `FreshnessRace.RaceLeavesStale` | packages/application/src/workbench.ts:3343-3427 | Whenever a proposal and a correction are planned on the same rows and the proposal uses an evaluation that depends on the fact, both commit and the comparison is left on a stale evaluation |
| `FreshnessScript.RaceHappens` | packages/application/src/workbench.ts:3343-3427 | The race happens: a run of 22 calls from the empty store, in which three evaluations on one fact are completed, and then a comparison and a correction planned on one fresh state both commit and leave a comparison on a stale evaluation |
| `Service.WorkbenchService.ProposeComparison` | packages/application/src/workbench.ts:3545-3661 | Ends as its plan says |
| `Scenarios.ScoreWithinValues` | packages/application/src/workbench.ts:3594-3606 | With weights totalling 10,000, for any number of dimensions, the rounded score lies between the smallest and the largest dimension value |
| `Scenarios.DominanceKeepsScore` | packages/application/src/workbench.ts:3594-3606 | An evaluation at least as good in every dimension never scores lower, under any weights |
| `Scenarios.RankIsRanked` | packages/application/src/workbench.ts:3607-3613 | The ranking is in order: higher score first, then smaller identity |
| `Scenarios.RankingUnique` | packages/application/src/workbench.ts:3607-3613 | There is only one such order of given evaluations |
| `Scenarios.RankIgnoresInputOrder` | packages/application/src/workbench.ts:3607-3613 | The ranking does not depend on the order of the input |
| `Scenarios.DominantRanksFirst` | packages/application/src/workbench.ts:3579-3621 | No weights rank a dominated evaluation ahead, except by the tie-break on identities |
| `ComparisonScores.ScenarioIsRight` | packages/application/src/workbench.ts:3579-3621 | A computed scenario gives each input its score, ranks exactly the inputs, and keeps each score within the values of its evaluation |
| `ComparisonScores.ScenarioIgnoresOrder` | packages/application/src/workbench.ts:3579-3621 | The same inputs and dimension keys in another order give the same scenario result or the same error |
| `ComparisonScores.ProposalIgnoresOrder` | packages/application/src/workbench.ts:3545-3661 | A comparison proposed over the same evaluations in another order has the same scenario results |
| `Settlement.EvaluationsYieldedOnce` | packages/application/src/workbench.ts:2339-2446 | In a reachable state each once-completed evaluation is the only result of its operation if and only if every commit before has named the evaluation it completed: a wrong result is never put right |
| `Settlement.EvaluationsConclude` | packages/application/src/workbench.ts:2339-2446 | In every reachable state `terminalAt` is set exactly on settled operations, and once-completed evaluations belong to succeeded operations, each to one of its own |
| `Settlement.OneEvaluationPerOperation` | packages/application/src/workbench.ts:2339-2446 | No operation yields two completed evaluations |
| `Settlement.SettledForGood` | packages/application/src/workbench.ts:2813-2918 | Settled operations keep state, time and results under any interleaving |
| `Settlement.CompletionFindsItsOperationRunning` | packages/application/src/workbench.ts:2339-2446 | The second commit of an evaluation goes through only if its operation and evaluation are still running exactly as admitted; otherwise it changes nothing |
| `Settlement.ReconciliationIsComplete` | packages/application/src/workbench.ts:2730-2811 | One reconciliation commit settles exactly the live operations as indeterminate and changes nothing else; a second one has nothing to do |
| `EvaluationOutcome.EvaluationSettles` | packages/application/src/workbench.ts:2160-2446 | An undisturbed evaluation under unused keys changes nothing, or ends with operation and evaluation settled together: completed as the one result, or failed with the opportunity left "evaluating" |
| `EvaluationOutcome.RepeatedEvaluationIsRefused` | packages/application/src/workbench.ts:2160-2446 | The same call again directly after success, under the same keys and input, never returns the first result: whatever identities it draws, it is refused and changes nothing |
| `Service.WorkbenchService.Evaluate` | packages/application/src/workbench.ts:2160-2446 | The method makes exactly the specified commits: admission, then, from what that commit has returned, replayed or not, completion or, if anything fails, failure |
| `Service.WorkbenchService.CompleteEvaluation` | packages/application/src/workbench.ts:2326-2446 | Ends as its plan says |
| `Service.WorkbenchService.AllAccepted` | packages/application/src/workbench.ts:2332-2339 | Reads every item of evidence and tells whether all are accepted, or that one is missing |
| `Service.WorkbenchService.FailOperation` | packages/application/src/workbench.ts:3142-3206 | Ends as its plan says |
| `Service.WorkbenchService.StartOperation` | packages/application/src/workbench.ts:2448-2654 | The method makes exactly the two specified commits: admission, then the start of the operation that the first commit has returned, replayed or not |
| `Service.WorkbenchService.StartAdmitted` | packages/application/src/workbench.ts:2612-2654 | Goes on from the record it is given without reading it again: it is started only if queued at revision 1, and if it is so still |
| `Service.WorkbenchService.TerminateOperation` | packages/application/src/workbench.ts:2813-2918 | Ends as its plan says |
| `Service.WorkbenchService.CheckResultIds` | packages/application/src/workbench.ts:2841-2884 | The loops over result identities agree with their specification for leads and for proposed facts |
| `Service.WorkbenchService.ReconcileInterruptedOperations` | packages/application/src/workbench.ts:2730-2811 | Ends as its plan says, with an early return when nothing is live |
| `Service.WorkbenchService.Authorize` | packages/application/src/workbench.ts:3093-3122 | The method agrees with its specification |
| `Service.WorkbenchService.LineageIncludesSession` | packages/application/src/workbench.ts:3124-3140 | The loop with its depth bound and cycle guard agrees with its specification |
| `OperationCommands.TerminationFollowsGraph` | packages/domain/src/state-machines.ts:37-53 | Settling an operation follows an edge of the operation graph if and only if it is not queued when it succeeds or fails and not waiting for the user when it succeeds |
| `DiscoveryScript.QueuedCanSucceed` | packages/application/src/workbench.ts:2824-2830 | A run of three calls, a search profile, the admission of an operation on it and its settlement, in which the operation goes from queued to succeeded, which is no edge of the graph |
| `OperationCommands.PlanRecordActivity` | packages/application/src/workbench.ts:2656-2728 | What it submits is sound: an activity never settles an operation |
| `OperationCommands.PlanRequestCancellation` | packages/application/src/workbench.ts:2920-3036 | What either request submits is sound: a request for cancellation changes no state |
| `OperationCommands.PlanRequestFollowup` | packages/application/src/workbench.ts:3038-3091 | What it submits is sound |
| `Quotas.QuotasHold` | packages/application/src/workbench.ts:1519-1573 | In every serial state each operation has at most 64 leads, 20 on one host and 8 MiB of current postings, the workspace at most 512 leads and 32 MiB of postings that discovery recorded, current or superseded, and no two leads have one URL, even as rediscovery moves leads between operations |
| `Quotas.QuotasKeptExactly` | packages/application/src/workbench.ts:1519-1573 | Under any interleaving a step keeps the quotas and the uniqueness of URLs if and only if it is not the commit of a recording, or the counts of the rows at its commit leave room for it and its URL is free there |
| `OverlappingRecordings.OverlapDuplicates` | packages/application/src/workbench.ts:1602-1660 | Two overlapping recordings of one URL: a run of five calls that leaves two leads with one URL |
| `Quotas.ShortlistedForGood` | packages/application/src/workbench.ts:1691-1823 | Under any interleaving a shortlisted lead never changes again, and a lead has a result opportunity exactly when shortlisted |
| `Quotas.LeadRequestRecords` | packages/application/src/workbench.ts:1602-1660 | A recording inserts one posting, and inserts or moves one lead, within the quotas of the rows it read |
| `Quotas.DiscoveredAfter` | packages/application/src/workbench.ts:1607-1641 | What a moved lead pointed at is superseded and still counted: discovery's sources grow by exactly the new posting |
| `Service.WorkbenchService.RecordDiscoveryLead` | packages/application/src/workbench.ts:1458-1689 | Ends as its plan says |
| `Service.WorkbenchService.CheckDiscovery` | packages/application/src/workbench.ts:1462-1500 | Passes if and only if the caller's own discovery operation is running, is not to be cancelled, and its search profile is active and as it was admitted |
| `Service.WorkbenchService.FindSamePosting` | packages/application/src/workbench.ts:1730-1751 | The search for an opportunity with the same posting agrees with its specification |
| `Service.WorkbenchService.TriageDiscoveryLead` | packages/application/src/workbench.ts:1691-1823 | Ends as its plan says |
| `Service.WorkbenchService.Shortlist` | packages/application/src/workbench.ts:1729-1789 | Ends as its plan says: the lead links to the one opportunity with its posting, found or created |
| `Locators.FactsQuoteTheirSources` | packages/application/src/workbench.ts:1128-1131 | In every reachable state the locators of each fact quote the immutable text of their sources exactly, and each verified fact has at least one, all in the candidate's own sources |
| `Locators.OffsetsQuote` | packages/application/src/workbench.ts:1037-1046 | Facts located by a running offset over newline-joined claims quote the joined text exactly, for any claims |
| `Locators.InitializationChecked` | packages/application/src/workbench.ts:644-697 | Set-up inserts only facts that quote the source it inserts with them |
| `Locators.ImportChecked` | packages/application/src/workbench.ts:4795-4808 | An import inserts only facts that quote a file it imports |
| `Service.WorkbenchService.AddCareerHistory` | packages/application/src/workbench.ts:955-1093 | Ends as its plan says |
| `Service.WorkbenchService.Join` | packages/application/src/workbench.ts:1006-1009 | The joined text of the claims |
| `Service.WorkbenchService.Locate` | packages/application/src/workbench.ts:1037-1062 | The loop with its running offset gives the specified facts |
| `ImportConservation.SelectionConserves` | apps/server/src/routes.ts:290-352 | Selection conserves mappings: the selected plan has each discovered identity as often as the discovered one |
| `ImportConservation.UnselectedSkipped` | apps/server/src/routes.ts:318-348 | In the manifest of a selected plan an unselected identity is only ever skipped |
| `ImportConservation.ManifestKeys` | packages/application/src/workbench.ts:4833-4991 | The manifest lists the identities of its plan, each once, in order |
| `ImportConservation.ImportCreatesFacts` | packages/application/src/workbench.ts:4795-4844 | An import creates exactly the facts of its plan, in order, each with the contents of its item |
| `ImportConservation.ImportCreatesApplications` | packages/application/src/workbench.ts:4845-4931 | An import creates exactly the applications of its plan, in order, each with its own opportunity |
| `ImportConservation.ImportOfSelection` | apps/server/src/routes.ts:290-356 | Selection and import together: each discovered identity is in the manifest as often as it was discovered, the unselected are skipped, and records are created for exactly the selected |
| `Service.WorkbenchService.ApplyCareerOpsImport` | packages/application/src/workbench.ts:4613-4991 | Ends as its plan says, in one commit |
| `Service.WorkbenchService.PushFacts` | packages/application/src/workbench.ts:4795-4844 | The loop that pushes facts agrees with its specification |
| `Service.WorkbenchService.PushApplications` | packages/application/src/workbench.ts:4845-4931 | The loop that pushes opportunities and applications agrees with its specification |
| `Service.WorkbenchService.PushFiles` | packages/application/src/workbench.ts:4706-4794 | The loop that pushes artifacts and sources agrees with its specification |
| `ScalarFacts.ProposalsQuoteTheDocument` | packages/career-ops-import/src/index.ts:479-555 | Whatever the parsed document, if its traversal does not fail, each proposal quotes its text exactly, no sensitive field is proposed, none is proposed twice with one value, and there are at most 256 |
| `ScalarFacts.FailsExactly` | packages/career-ops-import/src/index.ts:491-519 | The traversal fails if and only if some field that is not sensitive holds a number that is not finite, which canonical JSON refuses |
| `ScalarFacts.ProposalsApply` | packages/application/src/workbench.ts:4795-4808 | Applying such a proposal never fails on its locator |
| `ScalarFacts.Scanner.Visit` | packages/career-ops-import/src/index.ts:491-545 | The traversal agrees with its specification, failures included |
| `ScalarFacts.FindScalarFacts` | packages/career-ops-import/src/index.ts:479-555 | The method agrees with its specification, bound and failures included |
| `CanonicalEquivalence.CanonicalDistinguishes` | packages/domain/src/canonical.ts:3-29 | Equal canonical texts always come from values that are equal up to object key order |
| `CanonicalEquivalence.CanonicalDecidesEquivalence` | packages/domain/src/canonical.ts:3-29 | Where the collation tells the keys of each object apart, canonical texts are equal if and only if the values are equal up to object key order, at any depth |
| `CanonicalTies.CanonicalIffKeysTold` | packages/domain/src/canonical.ts:5-11 | The canonical text is the same for every key order if and only if the collation, or the enumeration of array indexes, tells the keys of each object apart |
| `CanonicalTies.TiedKeysDiffer` | packages/domain/src/canonical.ts:5-11 | A concrete failure: composed and decomposed spellings of one letter as keys give one object two canonical texts |
| `CanonicalText.TextInjective` | packages/domain/src/canonical.ts:27-29 | Serialised texts determine the value |
| `CanonicalText.TextUnambiguous` | packages/domain/src/canonical.ts:27-29 | No serialised text, however continued, can be read as two values |
| `DuplicateKeys.DuplicatesFoundExactly` | packages/contracts/src/validation.ts:15-58 | A document is refused for duplicates if and only if some object at some depth repeats a name (section 4 of RFC 8259), with exactly those names, and the stack ends empty |
| `DuplicateKeys.RunValue` | packages/contracts/src/validation.ts:15-41 | After any complete value the stack is what it was and the duplicates have grown by exactly the names it repeats |
| `DuplicateKeys.ParseWithoutDuplicateKeys` | packages/contracts/src/validation.ts:15-58 | The loop over callbacks gives the verdict of the scan: errors first, then duplicates |
| `Ids.TokenDecodes` | packages/application/src/ids.ts:24-32 | A token decodes to its counter, for every value and every padding |
| `Ids.IdsDiffer` | packages/application/src/ids.ts:61-73 | Two identities of one factory with equal text have equal counters, whatever their prefixes |
| `Ids.CharAtIsAlphabet` | packages/application/src/ids.ts:8 | The digits are those of the source's alphabet, in its order |
| `Ids.DeterministicToken` | packages/application/src/ids.ts:24-32 | The loop gives the specified token |
| `Ids.DeterministicIdFactory.Next` | packages/application/src/ids.ts:61-64 | Each identity differs from all that the factory issued before |
| `Ids.DeterministicIdFactory.Create` | packages/application/src/ids.ts:53-59 | A factory exists exactly for ten-character Crockford seeds |
| `UrlNormalization.NormalizationIdempotent` | packages/application/src/workbench.ts:436-469 | A normalised URL is accepted again and unchanged |
| `UrlNormalization.NormalizedIsNormal` | packages/application/src/workbench.ts:436-469 | An accepted URL ends with no fragment, no tracking or credential-like parameter, sorted parameters and no trailing slash beyond the root |
| `UrlNormalization.ParametersAreStableSort` | packages/application/src/workbench.ts:454-464 | The parameters are the stable sort by name of those kept, and nothing else is (section 6.2 of the WHATWG URL Standard) |
| `UrlNormalization.NormalizeDiscoveryUrl` | packages/application/src/workbench.ts:436-469 | The in-place edit gives the check and the parts that are specified |
| `UrlNormalization.DropTracking` | packages/application/src/workbench.ts:454-463 | The loop over keys listed beforehand deletes exactly the tracking parameters, or stops at a credential-like one |
| `EventStream.StreamIsExact` | apps/server/src/sse.ts:89-120 | However appends, ticks, failures and disconnection interleave with a suspended poll, what was written is exactly the events after the start cursor up to the current one, once each and in order |
| `EventStream.ReconnectionContinues` | apps/server/src/sse.ts:89-120 | Two connections have together written exactly the log's events from the first start cursor on, with no gap or repeat, if and only if the log has nothing between the cursor at which the first ended and the one at which the second starts |
| `EventStream.AutomaticReconnection` | apps/server/src/sse.ts:84-89 | A client that reconnects to the same URL with the last written identifier as header loses and repeats nothing if and only if the URL has no `after`, which overrides the header, or nothing was written before |
| `EventStream.ReconnectionRepeats` | apps/web/src/App.tsx:8895-8896 | The client's URL has `after`, so its reconnection repeats: after one event of `?after=0` the stream starts at 0 again and writes the event again |
| `EventStream.PollAdvances` | apps/server/src/sse.ts:104-117 | A poll that nothing interrupts writes the whole backlog or a full page of it, and leaves the rest |
| `EventStream.EventStream.BeginPoll` | apps/server/src/sse.ts:104-108 | Starts one poll at most: none while one is under way or the client is gone |
| `EventStream.EventStream.ResumePoll` | apps/server/src/sse.ts:108-117 | Writes the answer, moves the cursor, and clears the flag even when the query failed |
| `StableSort.StableSortUnique` | packages/application/src/workbench.ts:464 | A sorted sequence that keeps the order of equals is the only one |
| `StableSort.SortIsStable` | packages/application/src/workbench.ts:464 | Sorting keeps the elements that tie in their order |

## Left out

- Rubric scoring and rubric validation: `calculateScore` and `validateRubric` are not part of this model; scoring is an input that may fail.
- Freshness of evidence at evaluation: `evaluate` does not check again that the fact behind accepted evidence is current, so nothing of the kind is claimed.
- Staged drafts: the cascade makes only sealed artifacts stale, so nothing is claimed of staged ones.
- The early return of `startOperation` that only admits: it is the command `AdmitOperation` of `Workbench`, and `Service.WorkbenchService.StartOperation` is the call that also starts.
- Sources captured outside discovery: `captureSource` is not subject to the discovery quotas, and its sources do not count towards them.
- Agreement of the two import fingerprints: discovery orders files by code units and apply by locale, so agreement is not claimed.
- Locators whose end lies past the text: JavaScript's `slice` clamps, the model clamps too, so only the quotation is claimed, not the bound.
- Event payloads, event kinds, and profile and workspace revision counters inside payloads: no property rests on them.
- Command results: methods return success or the error. The records that a commit returns are kept with its key (`Store.Receipt`); a replay returns them as they were then.
- Creation times: lists are ordered by identity, not by creation time, which decides only which of several equal candidates is found first.
- Imperative form of `initializeWorkspace`, `captureSource`, `uploadCandidateSource`, `proposeProfileFact`, `upsertSearchProfile`, `captureOpportunity`, `createRubric`, `recordOperationActivity`, the cancellation and follow-up requests, `createApplication`, `updateOpportunitySignals`, `createCandidateArtifact` and `sealEvaluationReport`: these are straight-line and modelled as plans on values, so the order of their reads is not captured.
- Report and draft rendering: the sealed bytes are an input, and sealing returns their digest.
- Export, scrubbing, search, pagination and artifact reads: they change nothing and would add only easy members.
- `boundedSourceExcerpt` and the preview map of the server routes: small bookkeeping outside the import's conservation laws.
- Directory discovery, YAML parsing, tracker parsing and status mapping of Career Ops: the parsed tree and the discovered plan are inputs.
- The tokeniser of the JSON scanner: `DuplicateKeys` takes the callbacks that it makes for a value.
- NFKC and case folding beyond ASCII in evidence text: the model's normalisation is for ASCII text.
- Lone surrogates and the sign of zero in canonical JSON: strings are sequences of code points and numbers are shown numerals.
- URL parsing and serialisation: the parts of a parsed URL are the input.
- Fastify, HTTP, CSRF, headers, heartbeats, timers' periods, model sessions and the web interface: transport and libraries.
- What the client received of what was written: a reconnection is taken to name the identifier last written to it.
- Random identities: only the deterministic factory has a law to prove.
- `Workbench.Plan`: on a lapsed approval the plan is the request that records the expiry; that the command then throws is stated by the methods in `Service`, not by the plan.
