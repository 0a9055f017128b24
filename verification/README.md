# GuildMind storage, recovery and verdicts: a verified model

GuildMind keeps every model run as a hash-chained event stream in a local ledger, keeps
the run's artifacts in a content-addressed file store beside it, and lets only
audited, lease-protected operations touch either. This project models that storage
core, the fixture runner that drives it, the parser that admits patches, and the
two-phase evaluation that turns a candidate's answers into a verdict, and proves what
they promise for every input, every run, every interleaving and every crash point.

How the parts fit together:

- `Replay`, `ReplayLaws`: the event stream and its meaning, one transition per event.
  `Grammar` says without that machine which streams are accepted and which rows verify.
- `Ledger`, `Lifecycle`, `Plans`, `TerminalPlans`, `EvaluationPlans`, `Commands`: the rows
  the store keeps per run, the writes of each lifecycle operation, when exactly they are
  accepted, and safety over any sequence of operations. `Effects` says field by field
  what each operation leaves.
- `Roots`, `Keys`, `Store`: the ledger snapshot digest and the `EventStore` class, whose methods work on an open transaction that is installed whole
  or discarded.
- `Usage`, `Budget`: usage vectors, the ten limits and the in-memory budget authority.
- `Artifacts`, `ArtifactLaws`: publishers of the content-addressed store as interleaved
  small steps over a file system with a volatile and a durable part.
- `Audit`, `AuditLaws`, `Reaudit`: the reachability audit that may allow quarantine.
  `Closure`, `Inventory` and `Health` characterise the stores on which it does, and what
  it reports as an orphan; `Faults` says whom it blames for what.
- `Lease`, `LeaseLaws`, `LeaseGrants`: the maintenance lease over processes, forks and
  kernel locks, what it keeps apart and what it grants.
- `Publication`, `Progress`, `Fixtures`, `Endings`, `Runner`: the fixture runner, dying or
  failing at any of its calls, why the ledger refuses none of them, why it completes when
  none fails, and how a run that cannot complete ends. `Digests` shows that what it assumes
  of hashing and records can be met. `EndToEnd` joins a run's status to the candidate's
  answers.
- `Patch`, `PatchLaws`: the strict unified-diff parser and the language it accepts.
- `Json`, `JsonLaws`, `JsonText`, `Names`, `Wire`, `Bundles`, `Scorer`, `Host`,
  `VerdictLaws`, `RecordLaws`, `Responses`, `Vouching`: canonical JSON, the oracle loader,
  the scorer, the host's validation of the scorer's record, what a reported status means,
  what every response deserves, and what output can pass for a verdict. `Codecs` shows that
  what is assumed of the decoder can be met.

Content hashes are functions about which nothing is assumed unless a statement says so.
Where collisions matter, a statement takes injectivity as an explicit hypothesis; the
runner, whose digests are 64 hexadecimal characters and so cannot be injective, only asks
that the byte strings it may publish have different digests. Clocks, model answers,
evaluator results and decoders are parameters.

Where the code does not do what its name suggests, the model follows the code and says
when it does:

- A terminal reason padded with whitespace passes the recovery method's own check and
  is then refused, because the manifest stores it stripped and the event verbatim. The
  exact condition is in `Store.EventStore.RecoverRun`, the whole family of refused calls in
  `Commands.PaddedReasonIsRefused`, and `Commands.PaddedReasonExists` names an input. A returned model name behaves the same way (`Plans.RespondNeeds`).
- The loader declares room for 10,000 evaluation cases, but its identifier pattern has
  four digits, so no oracle with more than 9,999 loads (`Bundles.IdentifiersBoundTheCases`).
- The scorer escapes everything beyond the tilde when it hashes the binding and the host
  does not, so the two hashes agree exactly when every bound text is plain; the delete
  character is ASCII and still makes them differ (`RecordLaws.BindingHashesAgree`).

## Model

| member | source | states |
|---|---|---|
| Replay.VerifyEventChain | src/guildmind/runtime/replay.py:84-107 | The loop accepts exactly the streams of one run with sequence numbers in order, unused event IDs and each record naming the hash of the one before. |
| Replay.ReplayEvents | src/guildmind/runtime/replay.py:253-465 | The event loop computes the fold of the transition function over a well-chained stream, and rejects where the fold rejects. |
| ReplayLaws.AcceptedPrefixes | src/guildmind/runtime/replay.py:253-465 | Every nonempty prefix of an accepted stream is accepted. |
| ReplayLaws.ReplayIsOneStep | src/guildmind/storage/events.py:1184-1187 | Replaying a history with one more event is the stored state's step on that event: checking at each append is replaying everything. |
| ReplayLaws.TerminalStreamsAreSettled | src/guildmind/runtime/replay.py:272-465 | In any accepted stream recorded and absent artifacts are disjoint; a terminal one has no reservation and no outstanding budget step, and requiring termination adds only artifact accounting. |
| ReplayLaws.FinalCharge | src/guildmind/runtime/replay.py:218-250 | A terminal stream charges the reported usage, the whole maximum if the request's fate is unknown, and nothing if none was sent. |
| ReplayLaws.SucceededHistory | src/guildmind/runtime/replay.py:272-465 | A succeeded stream is one creation, start, request, response, passed evaluation and terminal event, with every artifact in its one place and nothing absent. |
| ReplayLaws.HeadDeterminesStream | src/guildmind/runtime/replay.py:84-107 | With an injective hash, equal head hashes force identical chained streams. |
| ReplayLaws.SemanticDigestFixesTheOutcome | src/guildmind/runtime/replay.py:468-488 | Accepted streams with the same semantic digest replay to the same state but for the run ID and the evaluation artifact's digest. |
| ReplayLaws.SameDigestExactlyWhenSameEvents | src/guildmind/runtime/replay.py:468-488 | With an injective hash, replayable streams have the same semantic digest exactly when their events differ in nothing but identities, times, chains and the evaluation envelope's digest, size and path. |
| Grammar.AcceptsExactlyLawfulStreams | src/guildmind/runtime/replay.py:253-465 | Replay accepts exactly the well-chained streams of one run in which each event may follow those before it, by rules on the events alone, and returns what those events say in every field. |
| Grammar.VerifiedRowsTellTheEvents | src/guildmind/storage/events.py:1281-1440 | A run's rows verify exactly when its revisions are allowed transitions, its stream is a lawful chain, and manifest and budget index say what the events say. |
| Ledger.EventIdsAreUnique | src/guildmind/storage/events.py:1165-1180 | The identifiers issued to two events are equal only for the same run and sequence number, whatever the run IDs look like. |
| Ledger.FoldIsTurns | src/guildmind/storage/events.py:1147-1204 | The fold of an issued stream is the fold of its bodies alone, so appending bodies one by one is replaying the stream. |
| Lifecycle.AppliedPlanVerifies | src/guildmind/storage/events.py:1407-1440 | After an operation's writes the run passes the whole-ledger validation exactly when status, artifacts, returned model and both budget columns agree with replay. |
| Lifecycle.SettledPlanIsSound | src/guildmind/storage/events.py:1221-1248 | Writes that pass keep the run sound: history append-only, identity fixed, revision below event count, charge and reservation within the limits. |
| Plans.StartSettles | src/guildmind/storage/events.py:535-561 | Under the method's own checks the start event is legal and its manifest agrees with replay. |
| Plans.RecordSettles | src/guildmind/storage/events.py:563-587 | Likewise for binding the task artifact. |
| Plans.RecordNeeds | src/guildmind/storage/events.py:563-587 | The event is legal only for a reference at its canonical path. |
| Plans.RequestSettles | src/guildmind/storage/events.py:589-633 | Likewise for sending the request with its reservation. |
| Plans.RequestNeeds | src/guildmind/storage/events.py:589-633 | What replay demands beyond the method's checks: a nonblank identifier, no earlier request, and a bound task artifact. |
| Plans.RespondSettles | src/guildmind/storage/events.py:635-690 | Likewise for the response, its reconciled budget and its patch. |
| Plans.RespondNeeds | src/guildmind/storage/events.py:635-690 | The converse: a model name stored stripped but recorded verbatim, or a patch off its canonical path, is refused. |
| Plans.RespondKeepsLimits | src/guildmind/storage/events.py:653-662 | Reconciling at most the maximum keeps the charge and what stays reserved within all ten limits. |
| Effects.StartLeaves | src/guildmind/storage/events.py:535-561 | The start event, the running status, the start time and nothing else. |
| Effects.RecordLeaves | src/guildmind/storage/events.py:563-587 | The recorded reference is bound in manifest and replay, and nothing else changes. |
| Effects.RequestLeaves | src/guildmind/storage/events.py:589-633 | The request with its maximum and a snapshot, the maximum reserved, nothing charged. |
| Effects.RespondLeaves | src/guildmind/storage/events.py:635-690 | The response, the patch and a snapshot; the usage charged, nothing reserved, model and patch bound. |
| Effects.EvaluateLeaves | src/guildmind/storage/events.py:717-813 | The evidence and then verdict, snapshot and terminal event; status, outcome and reason are the caller's in manifest and replay. |
| Effects.RecoverLeaves | src/guildmind/storage/events.py:834-939 | An infrastructure error at the later of the given time and the run's beginning, every unbound role absent as interrupted; an outstanding request is charged in full and gives the reason. |
| Effects.RefuseLeaves | src/guildmind/storage/events.py:956-1031 | A run exhausted for the given reason, charge and artifacts unchanged, nothing reserved, exactly the unbound roles absent as budget_exhausted. |
| EvaluationPlans.EvaluationSettles | src/guildmind/storage/events.py:717-813 | Under the method's checks every evidence event stands in its position, the verdict matches the status and the final stream closes. |
| EvaluationPlans.EvaluationNeeds | src/guildmind/storage/events.py:717-813 | The converse: canonical evidence paths, a hash for the result, and a terminal reason exactly when the run did not succeed are all necessary. |
| TerminalPlans.RecoverySettles | src/guildmind/storage/events.py:834-939 | From any sound unfinished run recovery's events are all legal and close the stream. |
| TerminalPlans.RecoveryNeeds | src/guildmind/storage/events.py:834-939 | The converse: unless a request is outstanding, recovery's writes agree with replay only for a trimmed reason. |
| TerminalPlans.RecoveryCharges | src/guildmind/storage/events.py:889-903 | Recovery moves the whole reservation into the charge or nothing at all: their sum is conserved. |
| TerminalPlans.RefusalSettles | src/guildmind/storage/events.py:956-1031 | From any sound unfinished run whose request was never sent, budget exhaustion closes the stream. |
| TerminalPlans.RefusalNeeds | src/guildmind/storage/events.py:956-1031 | The converse: its writes agree with replay only for a trimmed reason. |
| Commands.FreshRowsVerify | src/guildmind/storage/events.py:483-521 | A new run passes the whole-ledger validation exactly when its manifest has no artifacts and no returned model. |
| Commands.VisitedLedgersAreSound | src/guildmind/storage/events.py:483-1031 | Every ledger reached by any sequence of lifecycle calls is sound; a crash leaves one of these committed ledgers. |
| Commands.LedgersOnlyGrow | src/guildmind/storage/events.py:1926-1949 | Over any sequence of calls a run's events, revisions and artifacts only grow, its identity never changes, and a finished run never changes at all. |
| Commands.BudgetsRespectLimits | src/guildmind/storage/events.py:608-618 | In every reached ledger the charge plus the reservation exceeds none of the ten limits, and the reservation is the outstanding request's maximum or zero. |
| Commands.FinishedRunsAreChargedExactly | src/guildmind/storage/events.py:889-903 | Every finished run in a reached ledger has no reservation and is charged the reported usage, else the request's maximum, else nothing. |
| Commands.EveryRunCanBeRecovered | src/guildmind/storage/events.py:834-939 | In every reached ledger, for every unfinished run and nonblank trimmed reason, replay accepts all of recovery's events, the writes agree with it and can be carried out, and whatever rows carry them out are sound, finished, complete and closed to every operation. |
| Commands.RecoveredRunIsComplete | src/guildmind/runtime/replay.py:253-465 | A recovered run is sound, its stream is accepted as terminal and no operation, a second recovery included, can add to it. |
| Commands.FinishedRunsStayFinished | src/guildmind/storage/events.py:1926-1949 | A sound finished run has a complete stream, and no operation is enabled on it. |
| Commands.PaddedReasonIsRefused | src/guildmind/storage/events.py:834-939 | From any sound unfinished run without an outstanding request, recovery with any padded reason appends legal events but disagrees with replay: no rows that carry it out verify. |
| Roots.VerifiedRunRootsSha256 | src/guildmind/storage/events.py:229-254 | The loop over sorted roots refuses exactly the lists that name a run twice, and otherwise hashes the sorted identities. |
| Roots.DigestIgnoresOrder | src/guildmind/storage/events.py:229-254 | The digest depends on the collection of roots, not on their order. |
| Roots.DigestFixesTheLedger | src/guildmind/storage/events.py:229-254 | With injective hashes, verified ledgers with equal digests hold the same runs, manifests, revisions, streams and budgets. |
| Store.VerifyRun | src/guildmind/storage/events.py:1281-1332 | One run's rows are accepted exactly when manifest history, replay, artifacts, returned model and budget agree. |
| Store.VerifyTables | src/guildmind/storage/events.py:1104-1145 | The whole-ledger loop accepts exactly the ledgers whose every run verifies, and returns their roots in run order. |
| Store.EventIdsNeverCollide | src/guildmind/storage/events.py:1165-1204 | No two events of a sound ledger share an identifier, so the unique index never refuses an append. |
| Store.AdmittedLedgerIsTheAuditedOne | src/guildmind/storage/events.py:861-869 | A guarded operation that expects an audited ledger's digest gets past its checks only on a ledger with the same runs. |
| Store.EventStore.AppendLocked | src/guildmind/storage/events.py:1147-1204 | Appends exactly one issued, chained event when the stored state's step accepts it, and nothing otherwise. |
| Store.EventStore.SaveManifestLocked | src/guildmind/storage/events.py:1221-1248 | Adds one revision exactly when the transition is allowed, and changes nothing else. |
| Store.EventStore.Commit | src/guildmind/storage/events.py:1652-1690 | Installs the transaction exactly when the whole ledger verifies and the guard allows it; otherwise the ledger is unchanged. |
| Store.EventStore.CreateRun | src/guildmind/storage/events.py:483-521 | Succeeds exactly for a new pending manifest without artifacts or returned model, adds that run alone, and keeps the ledger sound; otherwise changes nothing. |
| Store.EventStore.StartRun | src/guildmind/storage/events.py:535-561 | Succeeds exactly when starting is enabled, performs exactly the start, and otherwise changes nothing. |
| Store.EventStore.RecordArtifact | src/guildmind/storage/events.py:563-587 | Succeeds exactly when binding is enabled, performs exactly it, and otherwise changes nothing. |
| Store.EventStore.StartModelRequest | src/guildmind/storage/events.py:589-633 | Succeeds exactly when the reservation is enabled, appends the returned events and reserves the maximum; otherwise changes nothing. |
| Store.EventStore.CompleteModelResponse | src/guildmind/storage/events.py:635-690 | Succeeds exactly when the response is enabled, binds patch and model and reconciles; otherwise changes nothing. |
| Store.EventStore.CompleteEvaluation | src/guildmind/storage/events.py:717-813 | Succeeds exactly when the verdict is enabled, commits evidence and terminal status together; otherwise changes nothing. |
| Store.EventStore.RecoverRun | src/guildmind/storage/events.py:834-939 | Succeeds exactly when the expected ledger is the stored one, the run exists, is finished or recoverable, and the guard allows both looks; a finished run is returned unchanged, and a failure changes nothing. |
| Store.EventStore.CompleteBudgetExhaustion | src/guildmind/storage/events.py:956-1031 | The same for a run that never sent its request; what it leaves is Effects.RefuseLeaves. |
| Usage.ExceededByName | src/guildmind/domain/models.py:112-148 | A cap's name is reported exactly when the usage fields it counts go beyond it: three disjoint input fields, and reasoning never beside output. |
| Budget.SumUsage | src/guildmind/runtime/budget.py:38-43 | The accumulating loop returns the sum of the usages. |
| Budget.BudgetAuthority.Reserve | src/guildmind/runtime/budget.py:70-79 | Accepts exactly a new nonempty identifier whose maximum keeps charge and open reservations within every limit, and names the exceeded limits when it refuses; a refusal changes nothing. |
| Budget.BudgetAuthority.Reconcile | src/guildmind/runtime/budget.py:81-91 | Accepts exactly a usage within its own reservation, charges it and closes the reservation; charge equals the sum of everything reconciled. |
| Budget.BudgetAuthority.Release | src/guildmind/runtime/budget.py:93-97 | Drops exactly the named reservation without a charge. |
| Budget.HeldWithout | src/guildmind/runtime/budget.py:62-64 | What all reservations hold together does not depend on the order they are summed in. |
| Budget.AcceptedReservationStands | src/guildmind/runtime/runner.py:188-207 | In step with the ledger, the authority's own acceptance condition for a new reservation holds exactly when the ledger accepts the request with the figures the authority then reports. |
| Budget.ReconciledFiguresStand | src/guildmind/storage/events.py:635-672 | The figures the authority reports after reconciling are the ones the ledger's response checks demand. |
| Artifacts.ReadVerified | src/guildmind/storage/artifacts.py:391-487 | Reading in chunks returns the contents exactly when size and digest match. |
| ArtifactLaws.CanonicalEntriesAreExact | src/guildmind/storage/artifacts.py:489-518 | Under any interleaving, deaths and power cuts a canonical entry is the one the store opened with or holds all the bytes of its digest. |
| ArtifactLaws.CanonicalEntriesAreNeverReplaced | src/guildmind/storage/artifacts.py:84-95 | Once a canonical entry is there it keeps its file and its bytes through any later steps, faults, deaths and write-backs; the entries the store opened with also through power cuts. |
| ArtifactLaws.OneWinner | src/guildmind/storage/artifacts.py:489-518 | At most one publisher of a digest wins the rename, and none where an entry stood already. |
| ArtifactLaws.ReturnedReferencesSurvive | src/guildmind/storage/artifacts.py:183-197 | A returned reference, the winner's or a deduplicating loser's, resolves to its full bytes then and after any later deaths and power cuts. |
| ArtifactLaws.LeftoverTemporaries | src/guildmind/storage/artifacts.py:489-518 | A temporary outside a running publisher was left by a dead one or kept beside an invalid canonical entry. |
| ArtifactLaws.PublishersSucceed | src/guildmind/storage/artifacts.py:227-302 | While no operation raises and the canonical entry is absent or valid, no step fails and the last one returns. |
| Audit.Drain | src/guildmind/storage/integrity.py:312-512 | The worklist loop computes the recursive trace over caches, hash budget and reference limit. |
| Audit.InventoryStore | src/guildmind/storage/integrity.py:1055-1149 | Scanning the store classifies every entry in order under the entry limit. |
| Audit.InventoryShard | src/guildmind/storage/integrity.py:1152-1254 | Each entry of a shard is a referenced file, an orphan, a temporary or noncanonical, and is hashed within the budget. |
| Audit.AuditArtifactStore | src/guildmind/storage/integrity.py:283-589 | The audit refuses exactly invalid root lists, and otherwise reports what trace, cross-checks and inventory find; a store root that is not intact never allows quarantine. |
| AuditLaws.OrphansAreNeverReferenced | src/guildmind/storage/integrity.py:283-589 | When quarantine is allowed, every reference in the full closure resolves exactly, and no reported orphan has the name of any of them. |
| AuditLaws.AllowedRecordsAreUnderstood | src/guildmind/storage/integrity.py:697-820 | Allowing quarantine means every bound artifact is intact, every structured record was read within its limit, is canonical and agrees with its manifest, and a run's task and evaluation records agree with each other. |
| AuditLaws.AllowedGraph | src/guildmind/storage/integrity.py:312-589 | Allowing quarantine means every root was followed, the worklist ended within its limits with everything settled, and every referenced digest was met at its canonical name. |
| Health.AllowedExactlyWhenHealthy | src/guildmind/storage/integrity.py:283-589 | Quarantine is allowed exactly when every reference of the closure is stored exactly, all records are canonical, understood and agreeing, nothing in the tree stops a scan, and roots, references, entries and hashed bytes keep the limits. |
| Health.StrayFilesAreReported | src/guildmind/storage/integrity.py:1152-1254 | A complete report has a finding for every plain unreferenced file of a shard: a temporary, or an orphan, valid exactly when its bytes hash to its name. |
| Health.ReportedOrphansAreFiles | src/guildmind/storage/integrity.py:1152-1254 | Whatever any report calls an orphan is a plain file of that shard of which the kind says the truth. |
| Faults.BrokenReferencesAreBlamed | src/guildmind/storage/integrity.py:827-1052 | In a complete report each bound reference is exact and understood, or its run and role are blamed for the first step of its path that fails, or for corruption. |
| Reaudit.CleaningIsSafe | src/guildmind/storage/integrity.py:1055-1254 | Removing every reported orphan leaves a store whose audit is complete, allows quarantine and traces the same artifacts. |
| LeaseLaws.ExclusiveIsAlone | src/guildmind/storage/maintenance.py:304-422 | Over every interleaving of acquire, nested acquire, close, fork and death, a live exclusive lease is the only live lease. |
| LeaseLaws.ReferencesCountLeases | src/guildmind/storage/maintenance.py:507-585 | The reference count is the number of unreleased lease objects, and the kernel lock is held while it is positive. |
| LeaseLaws.ChildrenSpareParents | src/guildmind/storage/maintenance.py:1043-1085 | A forked child's cleanup, close or exit never drops another process's lease or lock. |
| LeaseLaws.FenceHolds | src/guildmind/storage/maintenance.py:760-897 | If only exclusive holders change the marker, no shared lease is live while it exists, and a live lease can be entered once and closed. |
| LeaseGrants.LeasesAreGranted | src/guildmind/storage/maintenance.py:304-422 | In every reachable system a process without a lease gets the lock for a shared one exactly when no other process has an exclusive lease, and for an exclusive one exactly when none has any; then only the marker refuses it, and only a shared one. |
| LeaseGrants.NestedLeasesAreGranted | src/guildmind/storage/maintenance.py:304-422 | A process with a shared lease nests another one unless the marker is there. |
| LeaseGrants.GrantedLeasesAreLive | src/guildmind/storage/maintenance.py:304-422 | An acquisition that has the lock ends in a live lease of its mode, unless it is shared and the marker is there. |
| LeaseGrants.LiveLeasesLend | src/guildmind/storage/maintenance.py:161-302 | A live lease lends its descriptor unless an exclusive one is asked for and it is shared, and cannot be closed while it does. |
| LeaseGrants.SpentLeasesAreRefused | src/guildmind/storage/maintenance.py:424-585 | A released lease, or another process's, is neither entered nor lent; the released one can be closed again. |
| Patch.ParseHunk | src/guildmind/sandbox/local.py:189-232 | The hunk loop consumes exactly the lines the declared counts allow, and counts changes. |
| Patch.ParseUnifiedDiff | src/guildmind/sandbox/local.py:127-186 | The section loop returns the paths of the sections or rejects. |
| PatchLaws.AcceptsExactlyRenderedPatches | src/guildmind/sandbox/local.py:127-232 | Lines are accepted exactly when they render a nonempty list of sections with distinct allowed paths, at least one hunk and one change each, and bodies matching their declared counts. |
| PatchLaws.PrintedPatchesParse | src/guildmind/sandbox/local.py:127-232 | Printing such sections and parsing them returns their paths in order. |
| PatchLaws.AcceptedPathsAreFit | src/guildmind/sandbox/local.py:235-244 | Accepted paths are distinct, allowed and no more than the file limit; each is relative, and what lies between its slashes is never empty, a dot, two dots or Git's directory. |
| PatchLaws.ValidPathsAreRelative | src/guildmind/sandbox/local.py:235-244 | The accepted paths are exactly the nonempty relative ones in letters, digits and four marks whose components are file names other than Git's directory. |
| JsonLaws.CanonicalTextDecides | containers/evaluator/score.py:49-56 | In either escaping two finite values have the same canonical text exactly when they are equal: nested objects, numbers and escapes are never confused. |
| JsonText.TextsAgreeOnPlainValues | src/guildmind/domain/serialization.py:45-57 | The escaped and the unescaped text of a value coincide exactly when no key or string in it goes beyond the tilde. |
| JsonText.EitherTextDecides | containers/evaluator/score.py:49-56 | Texts of two values in different escapings are never the same unless the values are. |
| Codecs.FaithfulCodecsExist | containers/evaluator/score.py:34-56 | For any limits of a decoder there is a codec that meets what the statements below assume of one. |
| Bundles.LoadPythonCallBundle | src/guildmind/evaluation/protocol.py:41-149 | Returns the derived bundle exactly for an oracle with ordered identifiers, bounded arguments, returned outcomes and finite bounded values, and nothing otherwise. |
| Bundles.CollectCases | src/guildmind/evaluation/protocol.py:81-129 | The loop accepts exactly when every case is allowed at its place, rebuilds the oracle cases unchanged, and never sees an identifier twice. |
| Bundles.IdentifiersBoundTheCases | src/guildmind/evaluation/protocol.py:22-25 | No loaded oracle has more than 9,999 cases, one fewer than the declared maximum. |
| Bundles.ChallengesHideTheAnswers | src/guildmind/evaluation/protocol.py:110-149 | Oracles for one call that put the same questions have the same challenge, whatever they expect. |
| Wire.FinalRecordMeans | containers/evaluator/score.py:70-90 | A record is read exactly off lines that are other output, one marked line and blank lines. |
| Scorer.JudgeAll | containers/evaluator/score.py:254-314 | The loop with its failure counter computes the tally of the cases' verdicts, stopping at the first fault. |
| Scorer.ValidateProtocol | containers/evaluator/score.py:214-314 | The checks in their order, each blaming the evaluator or the candidate, and then the loop. |
| Scorer.Run | containers/evaluator/score.py:317-443 | The outcome of the declared environment, the printed line with the declared binding or the fallback of a fault, and the exit code. |
| Scorer.FallbacksAreDeclared | containers/evaluator/score.py:400-414 | In a complete environment a fault is reported under the declared binding exactly when the count is written in decimal digits only. |
| Host.DeclaredBindingIsReported | src/guildmind/evaluation/container.py:310-330 | With the variables the host declares, the scorer scores and reports under the host's own binding, a fault included. |
| VerdictLaws.FailureCountIsExact | containers/evaluator/score.py:254-314 | A response is scored exactly when no case is faulty, and then the failure count is the number of cases that raised or returned another value. |
| VerdictLaws.RightMeansTheExpectedValue | containers/evaluator/score.py:286-313 | A case is judged right exactly when the result is its identifier with the expected value; the comparison of texts is equality of values. |
| VerdictLaws.LoadedBundlesScore | containers/evaluator/score.py:222-307 | On a bundle the loader accepted the scorer never blames itself, counts every case, and finds no failure exactly in the one correct response. |
| Responses.AcceptableMeans | containers/evaluator/score.py:93-129 | A value is acceptable exactly when its numbers are finite and it nests no deeper than the limit. |
| Responses.CaseVerdict | containers/evaluator/score.py:254-314 | A case of a loaded oracle is right for exactly its value, wrong for any other result of the case that can be judged, and the candidate's fault for anything else. |
| Responses.OutcomesAreDeserved | containers/evaluator/score.py:214-314 | On a loaded bundle the outcome counts the cases that raised or returned another value when every result can be judged, and is the candidate's fault for any other output. |
| Responses.PrintedCounts | containers/evaluator/score.py:317-443 | The counts, flag and classification that the printed record gives each outcome. |
| RecordLaws.BindingHashesAgree | src/guildmind/evaluation/container.py:65-95 | The scorer's and the host's binding hashes agree exactly when every bound text is plain. |
| RecordLaws.PrintedRecordsValidate | src/guildmind/evaluation/container.py:594-695 | Every record the scorer can print is accepted by the host exactly when its binding hash is the host's. |
| RecordLaws.RecordsArriveIntact | src/guildmind/evaluation/container.py:531-559 | Behind any lines without the marker a printed record, whose count the decoder can read, is extracted unchanged exactly when the hashes agree, and the other lines are kept. |
| RecordLaws.StatusIsTheVerdict | src/guildmind/evaluation/container.py:515-528 | For a plain binding the granted status is the scorer's verdict; for one that is not plain it is never passed nor failed. |
| RecordLaws.PassedExactlyWhenCorrect | src/guildmind/evaluation/container.py:441-528 | End to end: the host reports passed exactly when the candidate's one final record returns every oracle value in order, and otherwise reports failed tests. |
| Vouching.StatusIsVouchedFor | src/guildmind/evaluation/container.py:515-695 | For any sandbox status, exit code and output, a candidate passes or fails its tests exactly when the scorer exited as it says and the whole output presents one record, for this very evaluation, whose counts and flags say so. |
| Publication.PerformedBinds | src/guildmind/storage/events.py:1922-1924 | Each lifecycle operation adds exactly the references it was given to its run's manifest and touches no other run. |
| Publication.PerformedKeepsBacked | src/guildmind/runtime/runner.py:183-270 | An operation that binds only published references keeps everything committed, nested references included, published. |
| Publication.EvidenceIsAsBound | src/guildmind/runtime/runner.py:237-264 | The evidence list of the record is the one its committed manifest binds, in the audit's order. |
| Progress.ReachedIsEnabled | src/guildmind/storage/events.py:535-813 | At every stage of a run the ledger accepts the runner's next call with its authority's figures, given what a caller can check beforehand. |
| Progress.CallsAdvance | src/guildmind/runtime/runner.py:178-285 | Each performed call takes the run from one stage to the next, and the last gives it the verdict's status. |
| Progress.RunnersCallsAreNeverRefused | src/guildmind/runtime/runner.py:178-285 | From any sound ledger, through creation and every later call, the next call of the runner's sequence is enabled; no accepted reservation is refused. |
| Progress.PlayedRunsFinish | src/guildmind/runtime/runner.py:265-285 | The whole sequence ends with the run in the verdict's terminal status. |
| Fixtures.WorkableRunsArePlayable | src/guildmind/runtime/runner.py:178-285 | Inputs a caller can check are enough for the whole sequence of calls: references, roles, outcome, status and reason are right by construction. |
| Digests.EveryRunCanBeToldApart | src/guildmind/storage/artifacts.py:183-197 | Whatever a run is given, there are 64-character hexadecimal digests and a way to write and read its records under which all it may publish is told apart. |
| Runner.FixtureRunner.Put | src/guildmind/storage/artifacts.py:183-197 | Publishing adds at most these bytes under their digest, returns a reference that resolves to them, keeps whatever is committed published even if the process dies inside it, and succeeds when nothing fails. |
| Runner.FixtureRunner.MaterializeTask | src/guildmind/runtime/fixture.py:44-105 | Returns exactly the record of the fixture, with everything it names published before it exists; when nothing fails, it is refused only for a frozen snapshot that differs. |
| Runner.FixtureRunner.AskModel | src/guildmind/runtime/runner.py:188-226 | The patch is published before it is bound, the run then has exactly its earlier artifacts and that patch, the reported usage is charged and nothing stays reserved. |
| Runner.FixtureRunner.Terminalize | src/guildmind/runtime/recovery.py:279-366 | Exception recovery performs exactly the recovery or refusal or changes nothing, keeps everything committed published, and when it returns the run is over: as it was, or exhausted, or an infrastructure error charged for an outstanding request. With no failing call it returns exactly when digest, guard and run admit it. |
| Runner.FixtureRunner.Run | src/guildmind/runtime/runner.py:125-331 | Wherever a run fails or dies, everything it committed is published; a finished one binds exactly its task and verdict records, with the status, outcome and reason of its evaluation, and they agree in all the audit compares; one that is given up is terminalized, for what stopped it, from the ledger it left. Without a failing call its inputs alone decide where it ends. |
| Endings.StoppedCanEnd | src/guildmind/storage/events.py:834-1031 | Wherever a running run stopped it can be recovered, and refused if its request was not sent. |
| EndToEnd.SucceededExactlyWhenCorrect | src/guildmind/runtime/runner.py:225-285 | A run committed with the verdict of a scored evaluation succeeded exactly when every oracle value was returned, and otherwise failed its tests. |
| EndToEnd.RunScored | src/guildmind/runtime/runner.py:125-331 | The same of the run of a fixture under that evaluation, which finishes when its inputs are workable and no call fails. |

## Left out

- SQLite: schema text, row encodings, row hashes, sidecars and connection settings. The rows of a run are one record, and a transaction is a copy that is installed or discarded.
- Read-only stores, database path identity and races against hostile processes.
- Pydantic parsing: records are given as decoded; only the ASCII whitespace characters count as whitespace when text is stripped.
- Floating-point rounding: the float usage dimensions are natural numbers.
- Datetimes are integers, ordered as the code compares them.
- Text fields with a fixed vocabulary (status, outcome, role) are read into that vocabulary; other event types replay the same way as the code's ignored ones.
- Store.EventStore.CreateRun: takes an already valid manifest, and the other methods already valid references, because the record types refuse to exist otherwise.
- ArtifactLaws.ReturnedReferencesSurvive: temporary names are fresh and never reused, cleanup's own unlink and directory sync do not fail, an entry that is being verified can be read, the hash is injective, the store opens at rest, and a power cut keeps exactly what was written back, which the kernel may do at any moment.
- ArtifactLaws.PublishersSucceed: is about each step; scheduling, and so that a publisher is ever given its next step, is not modelled.
- Directory walking with no-follow descriptors, exact-case entry checks and inode timestamps.
- Audit.AuditArtifactStore: the file system does not change during the scan and directories list in name order; findings carry no errno, detail text or observed hash; a file that cannot be read uses no hash budget; the checks of the root path are one flag.
- Health.AllowedExactlyWhenHealthy: takes a content hash of 64 hexadecimal characters and, like the orphan and blame statements, an order that lists exactly the bound roles; which of two limits a store beyond both is reported for is left to the scan.
- LeaseLaws.ExclusiveIsAlone: one state directory with stable path identities; a process does not fork while it is acquiring; borrowed descriptors are only counted.
- The quarantine move itself; only the marker, as the lease sees it, is part of this model.
- PatchLaws.AcceptsExactlyRenderedPatches: lines come already split, and the three header expressions are recognizers of which only their fixed prefixes are assumed; reading the patch file and applying it with git are left out.
- Strings with lone surrogates, which the loader refuses and which a candidate can only return as a value that differs from every loaded one.
- JSON decoding, UTF-8 and SHA-256 are parameters; RecordLaws.PassedExactlyWhenCorrect assumes that ASCII is its own encoding and that decoding canonical text gives back its value when the floats in it are shortest renderings and integers and nesting are within the decoder's limits.
- Scorer.Run: the text of error messages, any nonblank text here, and a count of so many decimal digits that the run time refuses to convert it, for which the fallback itself fails and prints nothing.
- Host: sandbox statuses of the candidate phase, diagnostics and evidence records.
- Runner.FixtureRunner.Run: one process writes the ledger; the maintenance lease around a run is modelled on its own; what recovery's guard decides is a parameter, so that an exception's recovery may still be refused.
- Runner.FixtureRunner.Terminalize: the fresh audit that recovery takes first is represented by the expected digest and the guard it passes on.
- The storage coordinator's report, campaign manifests, corpus loading, Docker, probes and the command line: derivations, validation and process control that add no harder property.
