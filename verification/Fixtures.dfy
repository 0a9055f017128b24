/** What one run of a fixture is given, and the records, ledger calls and byte strings
    that follow from it. */
module Fixtures {
  import opened Text
  import opened Usage
  import opened Events
  import opened Replay
  import opened Ledger
  import opened Lifecycle
  import opened Plans
  import opened EvaluationPlans
  import opened Commands
  import opened Publication
  import opened Progress
  import opened Effects
  import Audit
  import Budget
  import Store

  /** What became of a call: it returned, it raised, or the process died in it. */
  datatype Did<+T> = Done(value: T) | Raised | Dead

  datatype LocalStatus =
    | PassedTests | TestsFailed | InvalidPatch | PatchApplyFailed | LocalTimedOut | OutputExhausted | OomKilled | LocalFault

  function TerminalStatus(s: LocalStatus): RunStatus {
    match s
    case PassedTests => Succeeded
    case LocalTimedOut => TimedOut
    case LocalFault => InfrastructureError
    case _ => Failed
  }

  function OutcomeOf(s: LocalStatus): Outcome {
    match s
    case PassedTests => Passed
    case LocalFault => Errored
    case _ => NotPassed
  }

  function StatusText(s: LocalStatus): string {
    match s
    case PassedTests => "passed"
    case TestsFailed => "tests_failed"
    case InvalidPatch => "invalid_patch"
    case PatchApplyFailed => "patch_apply_failed"
    case LocalTimedOut => "timed_out"
    case OutputExhausted => "output_exhausted"
    case OomKilled => "oom_killed"
    case LocalFault => "infrastructure_error"
  }

  datatype Media = TaskMedia | EvaluationMedia | TreeMedia | TextMedia | PythonMedia | DiffMedia | BytesMedia

  function MediaType(m: Media): string {
    match m
    case TaskMedia => "application/vnd.guildmind.task+json"
    case EvaluationMedia => "application/vnd.guildmind.evaluation+json"
    case TreeMedia => "application/vnd.guildmind.tree+json"
    case TextMedia => "text/plain; charset=utf-8"
    case PythonMedia => "text/x-python"
    case DiffMedia => "text/x-diff; charset=utf-8"
    case BytesMedia => "application/octet-stream"
  }

  lemma MediaIsText(m: Media)
    ensures NonEmptyText(MediaType(m))
  {
    var t := MediaType(m);
    assert t[0] == 'a' || t[0] == 't';
    assert t[|t| - 1] in {'n', '8', 'm'};
  }

  const RESERVATION := "model-request-0001"

  /** A fixture as loaded: its identity and the bytes it publishes. */
  datatype Fixture = Fixture(
    taskId: string, contentHash: string, snapshot: Bytes, frozenSnapshot: Option<string>, problem: Bytes,
    visible: seq<Bytes>)

  datatype Reply = Reply(returnedModel: string, usage: BudgetUsage, patch: Bytes)

  /** What the evaluator reports, with its streams as stored. */
  datatype LocalResult = LocalResult(
    status: LocalStatus, stdout: Bytes, stderr: Bytes, candidate: Option<Bytes>, scorer: Option<Bytes>,
    resultSha256: string, remainder: string)

  /** What a run is given from outside: times, the model's maximum and answer, the
      evaluator's result, and what recovery expects. */
  datatype RunPlan = RunPlan(
    evaluatorVersion: string, environmentDigest: string, startedAt: int, finishedAt: int, recoveredAt: int,
    maximum: BudgetUsage, answer: Did<Reply>, result: Did<LocalResult>, expected: Option<string>, guard: Option<Store.Guard>)

  // ------------------------------------------------------------------ the records

  function Ref(x: Records, bytes: Bytes, media: Media): ArtifactRef {
    RefTo(x, bytes, MediaType(media))
  }

  function RefsTo(x: Records, files: seq<Bytes>): seq<ArtifactRef> {
    seq(|files|, i requires 0 <= i < |files| => Ref(x, files[i], PythonMedia))
  }

  lemma RefsToOneMore(x: Records, files: seq<Bytes>, i: nat)
    requires i < |files|
    ensures RefsTo(x, files[..i + 1]) == RefsTo(x, files[..i]) + [Ref(x, files[i], PythonMedia)]
  {}

  /** The record of the materialized task. */
  function TaskOf(x: Records, fixture: Fixture, plan: RunPlan): Audit.TaskRecord {
    Audit.TaskRecord(
      fixture.taskId, plan.environmentDigest, fixture.contentHash, Field.Text(plan.evaluatorVersion),
      Ref(x, fixture.problem, TextMedia), Ref(x, fixture.snapshot, TreeMedia), RefsTo(x, fixture.visible))
  }

  function TaskRefOf(x: Records, fixture: Fixture, plan: RunPlan): ArtifactRef {
    Ref(x, x.taskBytes(TaskOf(x, fixture, plan)), TaskMedia)
  }

  /** A frozen task names the snapshot that its files still have. */
  predicate FrozenAgrees(x: Records, fixture: Fixture) {
    fixture.frozenSnapshot.Some? ==> fixture.frozenSnapshot.value == x.hash(fixture.snapshot)
  }

  function OptionalRef(x: Records, bytes: Option<Bytes>): Option<ArtifactRef> {
    if bytes == None then None else Some(Ref(x, bytes.value, BytesMedia))
  }

  function TranscriptsOf(x: Records, local: LocalResult): Transcripts {
    Transcripts(
      Ref(x, local.stdout, TextMedia), Ref(x, local.stderr, TextMedia),
      OptionalRef(x, local.candidate), OptionalRef(x, local.scorer))
  }

  /** The record of the verdict on a patch. */
  function VerdictOf(
      x: Records, runId: string, task: Audit.TaskRecord, patch: ArtifactRef, local: LocalResult, evaluatorVersion: string)
    : Audit.EvaluationRecord
  {
    Audit.EvaluationRecord(
      runId, TerminalStatus(local.status), patch.sha256, task.contentHash, evaluatorVersion, EvidenceOf(TranscriptsOf(x, local)))
  }

  function PublishedOf(
      x: Records, runId: string, task: Audit.TaskRecord, patch: ArtifactRef, local: LocalResult, evaluatorVersion: string)
    : Published
  {
    var e := VerdictOf(x, runId, task, patch, local, evaluatorVersion);
    Published(TranscriptsOf(x, local), e, Ref(x, x.evaluationBytes(e), EvaluationMedia))
  }

  function ManifestOf(fixture: Fixture, runId: string, template: RunIdentity, plan: RunPlan): RunManifest {
    RunManifest(
      runId, template.(taskId := fixture.taskId, environmentDigest := plan.environmentDigest),
      None, Pending, None, None, None, map[])
  }

  // -------------------------------------------------------------------- the calls

  /** What the verdict's ledger call is given. */
  function VerdictInput(
      published: Published, local: LocalResult, finishedAt: int, used: BudgetUsage, reserved: BudgetUsage): EvaluationInput
  {
    var status := TerminalStatus(local.status);
    EvaluationInput(
      VerdictRoles(published), Some(OutcomeOf(local.status)), Field.Text(local.resultSha256), local.remainder, status,
      finishedAt, if status == Succeeded then None else Some(StatusText(local.status)), used, reserved)
  }

  /** The ledger calls of a run in which nothing fails. */
  function ScriptOf(x: Records, fixture: Fixture, runId: string, plan: RunPlan): Script
    requires plan.answer.Done? && plan.result.Done?
  {
    var reply, local := plan.answer.value, plan.result.value;
    var patch := Ref(x, reply.patch, DiffMedia);
    Script(
      plan.startedAt, TaskRefOf(x, fixture, plan), RESERVATION, plan.maximum, reply.returnedModel, reply.usage, patch,
      VerdictInput(
        PublishedOf(x, runId, TaskOf(x, fixture, plan), patch, local, plan.evaluatorVersion), local, plan.finishedAt,
        reply.usage, ZERO))
  }

  /** The scorer only runs after the candidate did. */
  predicate WholeTranscripts(local: LocalResult) {
    local.scorer.Some? ==> local.candidate.Some?
  }

  /** What a caller can check of a run's inputs: times in order, one model call within
      the limits and within its maximum, a trimmed model name and a hash of the result. */
  predicate Workable(m: RunManifest, plan: RunPlan) {
    && plan.answer.Done? && plan.result.Done? && m.identity.createdAt <= plan.startedAt <= plan.finishedAt
    && plan.maximum.modelCalls == 1 && Within(plan.maximum, m.identity.limits)
    && AtMost(plan.answer.value.usage, plan.maximum) && plan.answer.value.usage.modelCalls == 1
    && NonEmptyText(plan.answer.value.returnedModel) && IsSha256(plan.result.value.resultSha256)
    && WholeTranscripts(plan.result.value)
  }

  /** The reply is the one the calls are made for. */
  predicate Gives(x: Records, reply: Reply, s: Script) {
    && s.requestId == RESERVATION && reply.returnedModel == s.returnedModel && reply.usage == s.usage
    && AtMost(s.usage, s.maximum) && Ref(x, reply.patch, DiffMedia) == s.patch
  }

  /** The verdict's call is the last one of the script. */
  predicate Judges(
      x: Records, runId: string, task: Audit.TaskRecord, patch: ArtifactRef, plan: RunPlan, used: BudgetUsage,
      reserved: BudgetUsage, s: Script)
    requires plan.result.Done?
  {
    var local := plan.result.value;
    s.input == VerdictInput(
      PublishedOf(x, runId, task, patch, local, plan.evaluatorVersion), local, plan.finishedAt, used, reserved)
  }

  function RunVerdict(x: Records, fixture: Fixture, runId: string, plan: RunPlan): Audit.EvaluationRecord
    requires plan.answer.Done? && plan.result.Done?
  {
    VerdictOf(
      x, runId, TaskOf(x, fixture, plan), Ref(x, plan.answer.value.patch, DiffMedia), plan.result.value, plan.evaluatorVersion)
  }

  lemma StatusTextIsText(s: LocalStatus)
    ensures NonEmptyText(StatusText(s)) && !Blank(RESERVATION)
  {
    var t := StatusText(s);
    assert !IsSpace(t[0]) && !IsSpace(t[|t| - 1]) && !IsSpace(RESERVATION[0]);
  }

  lemma StatusFitsOutcome(s: LocalStatus)
    ensures IsTerminal(TerminalStatus(s)) && StatusMatchesOutcome(TerminalStatus(s), Some(OutcomeOf(s)))
  {}

  predicate AllCanonical(artifacts: map<Role, ArtifactRef>) {
    forall role :: role in artifacts ==> CanonicalReference(artifacts[role])
  }

  lemma VerdictRolesAreEvidence(p: Published)
    requires CanonicalReference(p.ref) && CanonicalReference(p.transcripts.stdout) && CanonicalReference(p.transcripts.stderr)
    requires p.transcripts.candidate.Some? ==> CanonicalReference(p.transcripts.candidate.value)
    requires p.transcripts.scorer.Some? ==> CanonicalReference(p.transcripts.scorer.value) && p.transcripts.candidate.Some?
    ensures EvidenceRoles(VerdictRoles(p).Keys) && AllCanonical(VerdictRoles(p))
  {}

  lemma RefIsCanonical(x: Records, contents: set<Bytes>, bytes: Bytes, media: Media)
    requires Faithful(x, contents)
    ensures CanonicalReference(Ref(x, bytes, media))
  {
    MediaIsText(media);
    RefIsValid(x, bytes, MediaType(media));
  }

  lemma PublishedRolesAreEvidence(x: Records, contents: set<Bytes>, local: LocalResult, p: Published)
    requires Faithful(x, contents) && WholeTranscripts(local) && p.transcripts == TranscriptsOf(x, local)
    requires p.ref == Ref(x, x.evaluationBytes(p.record), EvaluationMedia)
    ensures EvidenceRoles(VerdictRoles(p).Keys) && AllCanonical(VerdictRoles(p))
  {
    RefIsCanonical(x, contents, x.evaluationBytes(p.record), EvaluationMedia);
    RefIsCanonical(x, contents, local.stdout, TextMedia);
    RefIsCanonical(x, contents, local.stderr, TextMedia);
    if local.candidate.Some? { RefIsCanonical(x, contents, local.candidate.value, BytesMedia); }
    if local.scorer.Some? { RefIsCanonical(x, contents, local.scorer.value, BytesMedia); }
    VerdictRolesAreEvidence(p);
  }

  lemma VerdictFits(s: Script, p: Published, local: LocalResult, finishedAt: int)
    requires EvidenceRoles(VerdictRoles(p).Keys) && AllCanonical(VerdictRoles(p))
    requires s.input == VerdictInput(p, local, finishedAt, s.usage, ZERO)
    requires s.startedAt <= finishedAt && IsSha256(local.resultSha256)
    ensures FitVerdict(s)
  {
    StatusTextIsText(local.status);
    StatusFitsOutcome(local.status);
  }

  /** Workable inputs make a sequence of calls that the ledger accepts from creation to
      verdict: everything else the ledger asks for, the runner provides itself. */
  lemma WorkableRunsArePlayable(
      x: Records, contents: set<Bytes>, fixture: Fixture, runId: string, plan: RunPlan, m: RunManifest)
    requires Faithful(x, contents) && Workable(m, plan)
    ensures Playable(m, ScriptOf(x, fixture, runId, plan))
  {
    var local, s := plan.result.value, ScriptOf(x, fixture, runId, plan);
    var p := PublishedOf(x, runId, TaskOf(x, fixture, plan), s.patch, local, plan.evaluatorVersion);
    RefIsCanonical(x, contents, x.taskBytes(TaskOf(x, fixture, plan)), TaskMedia);
    RefIsCanonical(x, contents, plan.answer.value.patch, DiffMedia);
    PublishedRolesAreEvidence(x, contents, local, p);
    VerdictFits(s, p, local, plan.finishedAt);
    StatusTextIsText(PassedTests);
  }

  /** The run's inputs open it, and it has come to this stage. The quantifier keeps what
      that means folded until a proof mentions it. */
  ghost predicate OnCourse(hash: ContentHash, t: Tables, m: RunManifest, s: Script, k: Stage) {
    forall at {:trigger Stands(hash, t, m, s, at)} :: at == k ==> Openable(m, s) && Stands(hash, t, m, s, at)
  }

  /** The run's maximum fits its budget. */
  lemma PlayableIsCovered(m: RunManifest, s: Script)
    requires Playable(m, s)
    ensures Budget.Covered(ZERO, map[RESERVATION := s.maximum], m.identity.limits)
  {
    Budget.HeldAlone(RESERVATION, s.maximum);
    NothingAdded(s.maximum);
  }

  /** What a run's rows and its replayed events say of it are the verdict on this
      evaluation: who failed its tests failed, a timeout is one, a fault is the
      infrastructure's, and only a pass is a success. */
  predicate SaysOf(status: LocalStatus, m: RunManifest, s: ReplayState) {
    && (m.status == Succeeded <==> status == PassedTests)
    && (m.status == RunStatus.TimedOut <==> status == LocalTimedOut)
    && (m.status == RunStatus.InfrastructureError <==> status == LocalFault)
    && (m.status == Failed <==> status in {TestsFailed, InvalidPatch, PatchApplyFailed, OutputExhausted, OomKilled})
    && s.status == m.status && s.terminalReason == m.terminalReason
    && (s.outcome == Some(Passed) <==> status == PassedTests)
    && (s.outcome == Some(Errored) <==> status == LocalFault)
    && (s.outcome == Some(NotPassed) <==> status != PassedTests && status != LocalFault)
    && m.terminalReason == if status == PassedTests then None else Some(StatusText(status))
  }

  /** The run is stored with this verdict; folded like OnCourse. */
  ghost predicate VerdictStands(t: Tables, run: string, status: LocalStatus) {
    && run in t && Fold(run, t[run].events).Accepted?
    && forall s {:trigger SaysOf(status, t[run].row.manifest, s)} ::
         s == MachineOf(run, t[run]).state ==> SaysOf(status, t[run].row.manifest, s)
  }

  predicate VerdictOn(q: EvaluationInput, status: LocalStatus) {
    && q.status == TerminalStatus(status) && q.outcome == Some(OutcomeOf(status))
    && q.terminalReason == if q.status == Succeeded then None else Some(StatusText(status))
  }

  lemma VerdictInputIsOn(
      published: Published, local: LocalResult, finishedAt: int, used: BudgetUsage, reserved: BudgetUsage, q: EvaluationInput)
    requires q == VerdictInput(published, local, finishedAt, used, reserved)
    ensures VerdictOn(q, local.status) && q.artifacts == VerdictRoles(published)
    ensures q.status == TerminalStatus(local.status)
  {}

  lemma VerdictSays(q: EvaluationInput, status: LocalStatus, m: RunManifest, s: ReplayState)
    requires VerdictOn(q, status) && m.status == s.status == q.status && s.outcome == q.outcome
    requires m.terminalReason == s.terminalReason == q.terminalReason
    ensures SaysOf(status, m, s)
  {}

  /** Committing the input made for an evaluation stores its verdict. */
  lemma EvaluateStores(hash: ContentHash, t: Tables, u: Tables, run: string, q: EvaluationInput, status: LocalStatus)
    requires SoundLedger(hash, t) && Performed(hash, t, u, run, Evaluate(q)) && VerdictOn(q, status)
    ensures VerdictStands(u, run, status)
  {
    EvaluateLeaves(hash, t, u, run, q);
    VerdictSays(q, status, u[run].row.manifest, MachineOf(run, u[run]).state);
  }

  /** What one ledger call comes to: done, it adds what it brings and keeps everything
      committed published; the next call of a run on course is done. */
  lemma CallSettles(
      hash: ContentHash, x: Records, shelf: Shelf, t: Tables, u: Tables, m: RunManifest, had: map<Role, ArtifactRef>, s: Script,
      k: Stage, c: Command, done: bool)
    requires done <==> Store.Allowed(t, m.runId, c)
    requires if done then Performed(hash, t, u, m.runId, c) else u == t
    requires Has(t, m, had) && Backed(x, shelf, t) && ManifestBacked(x, shelf, Brings(c))
    ensures Backed(x, shelf, u) && (done ==> Has(u, m, had + Brings(c)))
    ensures done && c.Evaluate? ==> u[m.runId].row.manifest.status == c.input.status
    ensures OnCourse(hash, t, m, s, k) && c == CallAt(m, s, k) && Carried(m, s, k) ==> done
    ensures OnCourse(hash, t, m, s, k) && c == CallAt(m, s, k) && Carried(m, s, k) && k != Replied ==>
              OnCourse(hash, u, m, s, After(k))
  {
    if done { PerformedHas(hash, x, shelf, t, u, m, had, c); }
    if OnCourse(hash, t, m, s, k) && c == CallAt(m, s, k) && Carried(m, s, k) {
      CallStaysOnCourse(hash, t, u, m, s, k, c, done);
    }
  }

  /** The same of the verdict's call, which stores the verdict it was made for. */
  lemma VerdictSettles(
      hash: ContentHash, x: Records, shelf: Shelf, t: Tables, u: Tables, m: RunManifest, had: map<Role, ArtifactRef>, s: Script,
      q: EvaluationInput, done: bool, status: LocalStatus)
    requires SoundLedger(hash, t) && (done <==> Store.Allowed(t, m.runId, Evaluate(q)))
    requires if done then Performed(hash, t, u, m.runId, Evaluate(q)) else u == t
    requires Has(t, m, had) && Backed(x, shelf, t) && ManifestBacked(x, shelf, q.artifacts)
    ensures Backed(x, shelf, u) && (done ==> Has(u, m, had + q.artifacts) && u[m.runId].row.manifest.status == q.status)
    ensures OnCourse(hash, t, m, s, Replied) && q == s.input && Carried(m, s, Replied) ==> done
    ensures done && VerdictOn(q, status) ==> VerdictStands(u, m.runId, status)
  {
    CallSettles(hash, x, shelf, t, u, m, had, s, Replied, Evaluate(q), done);
    if done && VerdictOn(q, status) { EvaluateStores(hash, t, u, m.runId, q, status); }
  }

  lemma CallStaysOnCourse(
      hash: ContentHash, t: Tables, u: Tables, m: RunManifest, s: Script, k: Stage, c: Command, done: bool)
    requires done <==> Store.Allowed(t, m.runId, c)
    requires done ==> Performed(hash, t, u, m.runId, c)
    requires OnCourse(hash, t, m, s, k) && c == CallAt(m, s, k) && Carried(m, s, k)
    ensures done && (k != Replied ==> OnCourse(hash, u, m, s, After(k)))
  {
    assert Stands(hash, t, m, s, k);
    CallIsTaken(hash, t, u, m, s, k, done);
  }

  /** The calls from the request on are the script's. */
  predicate Performs(x: Records, fixture: Fixture, runId: string, plan: RunPlan, s: Script)
    requires plan.answer.Done? && plan.result.Done?
  {
    && s.maximum == plan.maximum && Gives(x, plan.answer.value, s)
    && Judges(x, runId, TaskOf(x, fixture, plan), Ref(x, plan.answer.value.patch, DiffMedia), plan,
              plan.answer.value.usage, ZERO, s)
  }

  // ------------------------------------------------------- inputs that stop a run

  /** The run opens, and its maximum is beyond its budget. */
  ghost predicate StopsUnsent(m: RunManifest, plan: RunPlan) {
    m.identity.createdAt <= plan.startedAt && !Budget.Covered(ZERO, map[RESERVATION := plan.maximum], m.identity.limits)
  }

  /** The run opens, and its one request is within its budget. */
  predicate Sendable(m: RunManifest, plan: RunPlan) {
    m.identity.createdAt <= plan.startedAt && plan.maximum.modelCalls == 1 && Within(plan.maximum, m.identity.limits)
  }

  /** The request is sent, and the model raises. */
  predicate StopsUnanswered(m: RunManifest, plan: RunPlan) {
    Sendable(m, plan) && plan.answer.Raised?
  }

  /** The model answers, and the evaluator raises. */
  predicate StopsUnjudged(m: RunManifest, plan: RunPlan) {
    && Sendable(m, plan) && plan.result.Raised? && plan.answer.Done?
    && AtMost(plan.answer.value.usage, plan.maximum) && plan.answer.value.usage.modelCalls == 1
    && NonEmptyText(plan.answer.value.returnedModel)
  }

  function Zeros(n: nat): (s: string)
    ensures |s| == n && forall i :: 0 <= i < n ==> s[i] == '0'
  {
    if n == 0 then "" else "0" + Zeros(n - 1)
  }

  /** The same run with some answer and some result, where it has none. */
  function Filled(plan: RunPlan): RunPlan {
    if plan.answer.Done? && plan.result.Done? then plan
    else
      plan.(answer := if plan.answer.Done? then plan.answer else Done(Reply("model", plan.maximum, [])),
            result := Done(LocalResult(PassedTests, [], [], None, None, Zeros(64), "")), finishedAt := plan.startedAt)
  }

  lemma FilledIsWorkable(m: RunManifest, plan: RunPlan)
    ensures StopsUnanswered(m, plan) || StopsUnjudged(m, plan) || Workable(m, plan) ==> Workable(m, Filled(plan))
  {
    var model := "model";
    assert model[0] == 'm' && model[|model| - 1] == 'l';
  }

  /** The calls of a run, in the terms of the runner's methods. */
  lemma CallsOf(x: Records, contents: set<Bytes>, fixture: Fixture, m: RunManifest, plan: RunPlan) returns (s: Script)
    requires Faithful(x, contents)
    ensures s.startedAt == plan.startedAt && s.task == TaskRefOf(x, fixture, plan)
    ensures s.maximum == plan.maximum && s.requestId == RESERVATION
    ensures m.identity.createdAt <= plan.startedAt ==> Openable(m, s)
    ensures StopsUnanswered(m, plan) || StopsUnjudged(m, plan) || Workable(m, plan) ==> Playable(m, s)
    ensures StopsUnjudged(m, plan) ==> Gives(x, plan.answer.value, s)
    ensures Workable(m, plan) ==> Performs(x, fixture, m.runId, plan, s)
  {
    var whole := Filled(plan);
    s := ScriptOf(x, fixture, m.runId, whole);
    FilledIsWorkable(m, plan);
    RefIsCanonical(x, contents, x.taskBytes(TaskOf(x, fixture, plan)), TaskMedia);
    if Workable(m, whole) { WorkableRunsArePlayable(x, contents, fixture, m.runId, whole, m); }
  }

  // ----------------------------------------------------------------- the contents

  function Given(bytes: Option<Bytes>): set<Bytes> {
    if bytes == None then {} else {bytes.value}
  }

  function TaskContents(x: Records, fixture: Fixture, plan: RunPlan): set<Bytes> {
    {fixture.snapshot, fixture.problem, x.taskBytes(TaskOf(x, fixture, plan))} + (set file | file in fixture.visible)
  }

  function VerdictContents(
      x: Records, runId: string, task: Audit.TaskRecord, patch: ArtifactRef, local: LocalResult, evaluatorVersion: string)
    : set<Bytes>
  {
    {local.stdout, local.stderr, x.evaluationBytes(VerdictOf(x, runId, task, patch, local, evaluatorVersion))}
    + Given(local.candidate) + Given(local.scorer)
  }

  /** Every byte string that a run of the fixture may publish. */
  function RunContents(x: Records, fixture: Fixture, runId: string, plan: RunPlan): set<Bytes> {
    TaskContents(x, fixture, plan)
    + (if plan.answer.Done? then {plan.answer.value.patch} else {})
    + (if plan.answer.Done? && plan.result.Done? then
         VerdictContents(
           x, runId, TaskOf(x, fixture, plan), Ref(x, plan.answer.value.patch, DiffMedia), plan.result.value,
           plan.evaluatorVersion)
       else {})
  }

  /** What of a run's contents is published when. */
  lemma RunContentsCover(x: Records, fixture: Fixture, runId: string, plan: RunPlan, contents: set<Bytes>)
    requires RunContents(x, fixture, runId, plan) <= contents
    ensures TaskContents(x, fixture, plan) <= contents
    ensures plan.answer.Done? ==> plan.answer.value.patch in contents
    ensures plan.answer.Done? && plan.result.Done? ==>
      VerdictContents(
        x, runId, TaskOf(x, fixture, plan), Ref(x, plan.answer.value.patch, DiffMedia), plan.result.value, plan.evaluatorVersion)
      <= contents
  {
    if plan.answer.Done? { assert plan.answer.value.patch in RunContents(x, fixture, runId, plan); }
  }
}
