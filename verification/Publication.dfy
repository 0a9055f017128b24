/** Published bytes, the references runs bind to them, and the rule that everything a
    committed manifest refers to, directly or through a record, is published. */
module Publication {
  import opened Text
  import opened Usage
  import opened Events
  import opened Replay
  import opened Ledger
  import opened Lifecycle
  import opened Plans
  import opened EvaluationPlans
  import opened Commands
  import Audit
  import AuditLaws

  type Bytes = Audit.Bytes

  /** The content hash, and how the two structured records are written and read. */
  datatype Records = Records(
    hash: Bytes -> string,
    taskBytes: Audit.TaskRecord -> Bytes, readTask: Bytes -> Option<Audit.TaskRecord>,
    evaluationBytes: Audit.EvaluationRecord -> Bytes, readEvaluation: Bytes -> Option<Audit.EvaluationRecord>)

  /** No two of these byte strings have the same digest. */
  ghost predicate ToldApart(x: Records, contents: set<Bytes>) {
    forall a, b :: a in contents && b in contents && x.hash(a) == x.hash(b) ==> a == b
  }

  /** Digests are 64 hexadecimal characters, the contents in play are told apart, and a
      record that is written is read back. Nothing is asked of other byte strings: with
      more of them than digests, some do collide. */
  ghost predicate Faithful(x: Records, contents: set<Bytes>) {
    && (forall b {:trigger IsSha256(x.hash(b))} :: IsSha256(x.hash(b)))
    && ToldApart(x, contents)
    && (forall t {:trigger x.readTask(x.taskBytes(t))} :: x.readTask(x.taskBytes(t)) == Some(t))
    && (forall e {:trigger x.readEvaluation(x.evaluationBytes(e))} :: x.readEvaluation(x.evaluationBytes(e)) == Some(e))
  }

  /** Everything published, by digest. */
  type Shelf = map<string, Bytes>

  function RefTo(x: Records, bytes: Bytes, mediaType: string): ArtifactRef {
    ArtifactRef(mediaType, |bytes|, x.hash(bytes), Audit.CanonicalPath(x.hash(bytes)))
  }

  lemma RefIsValid(x: Records, bytes: Bytes, mediaType: string)
    requires IsSha256(x.hash(bytes)) && NonEmptyText(mediaType)
    ensures CanonicalReference(RefTo(x, bytes, mediaType))
  {
    var r := RefTo(x, bytes, mediaType);
    assert IsHex(r.sha256[63]);
    assert r.storageRef == CanonicalRef(r.sha256);
    assert r.storageRef[0] == 's' && r.storageRef[|r.storageRef| - 1] == r.sha256[63];
  }

  /** The reference is well formed and resolves to exactly its bytes. */
  predicate Holds(x: Records, shelf: Shelf, r: ArtifactRef) {
    ValidRef(r) && r.sha256 in shelf && x.hash(shelf[r.sha256]) == r.sha256 && |shelf[r.sha256]| == r.sizeBytes
  }

  /** The bytes are on the shelf under their digest. */
  predicate Stored(x: Records, shelf: Shelf, bytes: Bytes) {
    x.hash(bytes) in shelf && shelf[x.hash(bytes)] == bytes
  }

  /** Every entry that matches its digest is one of these contents. Another entry, a
      damaged one, may be anything. */
  ghost predicate Shelved(x: Records, contents: set<Bytes>, shelf: Shelf) {
    forall d :: d in shelf && x.hash(shelf[d]) == d ==> shelf[d] in contents
  }

  /** No entry is damaged. */
  predicate Intact(x: Records, shelf: Shelf) {
    forall d :: d in shelf ==> x.hash(shelf[d]) == d
  }

  lemma StoredIsHeld(x: Records, shelf: Shelf, bytes: Bytes, mediaType: string)
    requires Stored(x, shelf, bytes) && IsSha256(x.hash(bytes)) && NonEmptyText(mediaType)
    ensures Holds(x, shelf, RefTo(x, bytes, mediaType))
  {
    RefIsValid(x, bytes, mediaType);
  }

  /** Among contents that are told apart, a valid entry under the digest of some bytes
      is those bytes. */
  lemma SameDigestSameBytes(x: Records, contents: set<Bytes>, shelf: Shelf, bytes: Bytes)
    requires ToldApart(x, contents) && Shelved(x, contents, shelf) && bytes in contents
    requires x.hash(bytes) in shelf && x.hash(shelf[x.hash(bytes)]) == x.hash(bytes)
    ensures Stored(x, shelf, bytes)
  {}

  lemma OneMoreShelved(x: Records, contents: set<Bytes>, shelf: Shelf, bytes: Bytes)
    requires Shelved(x, contents, shelf) && bytes in contents && x.hash(bytes) !in shelf
    ensures var later := shelf[x.hash(bytes) := bytes];
            && Shelved(x, contents, later) && Keeps(shelf, later) && Stored(x, later, bytes)
            && (Intact(x, shelf) ==> Intact(x, later))
  {}

  function TaskRefs(t: Audit.TaskRecord): seq<ArtifactRef> {
    [t.problemStatement, t.repositorySnapshot] + t.visibleTests
  }

  predicate AllHeld(x: Records, shelf: Shelf, refs: seq<ArtifactRef>) {
    forall i :: 0 <= i < |refs| ==> Holds(x, shelf, refs[i])
  }

  /** What the bytes bound in a role refer to in turn. */
  function Nested(x: Records, role: Role, bytes: Bytes): seq<ArtifactRef> {
    if role == TaskSpec && x.readTask(bytes).Some? then TaskRefs(x.readTask(bytes).value)
    else if role == Evaluation && x.readEvaluation(bytes).Some? then x.readEvaluation(bytes).value.evidence
    else []
  }

  predicate HeldThrough(x: Records, shelf: Shelf, role: Role, r: ArtifactRef) {
    Holds(x, shelf, r) && AllHeld(x, shelf, Nested(x, role, shelf[r.sha256]))
  }

  predicate ManifestBacked(x: Records, shelf: Shelf, artifacts: map<Role, ArtifactRef>) {
    forall role :: role in artifacts ==> HeldThrough(x, shelf, role, artifacts[role])
  }

  /** Every artifact of every committed manifest is published, and so is every
      artifact nested in its task or evaluation record. */
  predicate Backed(x: Records, shelf: Shelf, t: Tables) {
    forall run {:trigger ManifestBacked(x, shelf, t[run].row.manifest.artifacts)} ::
      run in t ==> ManifestBacked(x, shelf, t[run].row.manifest.artifacts)
  }

  /** Publication only adds: the store never replaces an entry. */
  predicate Keeps(shelf: Shelf, later: Shelf) {
    forall d :: d in shelf ==> d in later && later[d] == shelf[d]
  }

  lemma HeldThroughLater(x: Records, shelf: Shelf, later: Shelf, role: Role, r: ArtifactRef)
    requires Keeps(shelf, later) && HeldThrough(x, shelf, role, r)
    ensures HeldThrough(x, later, role, r)
  {
    var refs := Nested(x, role, shelf[r.sha256]);
    forall i | 0 <= i < |refs| ensures Holds(x, later, refs[i]) { assert Holds(x, shelf, refs[i]); }
  }

  lemma AllHeldLater(x: Records, shelf: Shelf, later: Shelf, refs: seq<ArtifactRef>)
    requires Keeps(shelf, later) && AllHeld(x, shelf, refs)
    ensures AllHeld(x, later, refs)
  {
    forall i | 0 <= i < |refs| ensures Holds(x, later, refs[i]) { assert Holds(x, shelf, refs[i]); }
  }

  lemma HoldsLater(x: Records, shelf: Shelf, later: Shelf, r: ArtifactRef)
    requires Keeps(shelf, later) && Holds(x, shelf, r)
    ensures Holds(x, later, r)
  {}

  lemma TaskRefsAreHeld(x: Records, shelf: Shelf, t: Audit.TaskRecord)
    requires Holds(x, shelf, t.problemStatement) && Holds(x, shelf, t.repositorySnapshot) && AllHeld(x, shelf, t.visibleTests)
    ensures AllHeld(x, shelf, TaskRefs(t))
  {}

  lemma BackedLater(x: Records, shelf: Shelf, later: Shelf, t: Tables)
    requires Keeps(shelf, later) && Backed(x, shelf, t)
    ensures Backed(x, later, t)
  {
    forall run | run in t ensures ManifestBacked(x, later, t[run].row.manifest.artifacts) {
      var artifacts := t[run].row.manifest.artifacts;
      assert ManifestBacked(x, shelf, artifacts);
      forall role | role in artifacts ensures HeldThrough(x, later, role, artifacts[role]) {
        HeldThroughLater(x, shelf, later, role, artifacts[role]);
      }
    }
  }

  // ------------------------------------------------------------ what commands bind

  /** The references a command adds to its run's manifest. */
  function Brings(c: Command): map<Role, ArtifactRef> {
    match c
    case Record(role, artifact) => map[role := artifact]
    case Respond(q) => map[Patch := q.patch]
    case Evaluate(q) => q.artifacts
    case _ => map[]
  }

  lemma PlansBring(v: RunRows, s: ReplayState, c: Command)
    requires Plannable(c)
    ensures PlanOf(v, s, c).manifest.artifacts == v.row.manifest.artifacts + Brings(c)
  {}

  /** A performed command adds exactly what it brings, and changes no other run. */
  lemma PerformedBinds(hash: ContentHash, t: Tables, u: Tables, run: string, c: Command)
    requires Performed(hash, t, u, run, c)
    ensures u[run].row.manifest.artifacts == t[run].row.manifest.artifacts + Brings(c)
    ensures u[run].row.manifest.identity == t[run].row.manifest.identity
    ensures u[run].row.manifest.runId == t[run].row.manifest.runId
    ensures c.Evaluate? ==> u[run].row.manifest.status == c.input.status
    ensures forall r :: r in u && r != run ==> r in t && u[r] == t[r]
  {
    var plan := PlanOf(t[run], MachineOf(run, t[run]).state, c);
    PlansBring(t[run], MachineOf(run, t[run]).state, c);
    PlansKeepIdentity(t[run], MachineOf(run, t[run]).state, c);
    assert u[run].row.manifest == plan.manifest;
  }

  /** The run's manifest gained these references and kept its identity. */
  predicate Gains(t: Tables, u: Tables, run: string, added: map<Role, ArtifactRef>) {
    && run in t && run in u && u[run].row.manifest.artifacts == t[run].row.manifest.artifacts + added
    && u[run].row.manifest.identity == t[run].row.manifest.identity
    && u[run].row.manifest.runId == t[run].row.manifest.runId
  }

  predicate OthersUntouched(t: Tables, u: Tables, run: string) {
    forall r :: r in u && r != run ==> r in t && u[r] == t[r]
  }

  lemma PerformedGains(hash: ContentHash, t: Tables, u: Tables, run: string, c: Command)
    requires Performed(hash, t, u, run, c)
    ensures Gains(t, u, run, Brings(c)) && OthersUntouched(t, u, run)
    ensures c.Evaluate? ==> u[run].row.manifest.status == c.input.status
  {
    PerformedBinds(hash, t, u, run, c);
  }

  lemma GainedIsBacked(x: Records, shelf: Shelf, t: Tables, u: Tables, run: string, added: map<Role, ArtifactRef>)
    requires Gains(t, u, run, added) && OthersUntouched(t, u, run)
    requires Backed(x, shelf, t) && ManifestBacked(x, shelf, added)
    ensures Backed(x, shelf, u)
  {
    assert ManifestBacked(x, shelf, t[run].row.manifest.artifacts);
  }

  /** A command that brings only published references keeps the rule. */
  lemma PerformedKeepsBacked(hash: ContentHash, x: Records, shelf: Shelf, t: Tables, u: Tables, run: string, c: Command)
    requires Performed(hash, t, u, run, c) && Backed(x, shelf, t) && ManifestBacked(x, shelf, Brings(c))
    ensures Backed(x, shelf, u) && Gains(t, u, run, Brings(c))
    ensures c.Evaluate? ==> u[run].row.manifest.status == c.input.status
  {
    PerformedGains(hash, t, u, run, c);
    GainedIsBacked(x, shelf, t, u, run, Brings(c));
  }

  /** The run's manifest is stored with this identity and exactly these artifacts. */
  predicate Has(t: Tables, m: RunManifest, artifacts: map<Role, ArtifactRef>) {
    && m.runId in t && t[m.runId].row.manifest.artifacts == artifacts
    && t[m.runId].row.manifest.identity == m.identity && t[m.runId].row.manifest.runId == m.runId
  }

  /** A performed command on the run adds what it brings to what the run has. */
  lemma PerformedHas(
      hash: ContentHash, x: Records, shelf: Shelf, t: Tables, u: Tables, m: RunManifest, had: map<Role, ArtifactRef>, c: Command)
    requires Performed(hash, t, u, m.runId, c) && Has(t, m, had)
    requires Backed(x, shelf, t) && ManifestBacked(x, shelf, Brings(c))
    ensures Backed(x, shelf, u) && Has(u, m, had + Brings(c))
    ensures c.Evaluate? ==> u[m.runId].row.manifest.status == c.input.status
  {
    PerformedKeepsBacked(hash, x, shelf, t, u, m.runId, c);
  }

  lemma CreatedKeepsBacked(hash: ContentHash, x: Records, shelf: Shelf, t: Tables, u: Tables, m: RunManifest)
    requires Created(hash, t, u, m) && CanCreate(t, m) && Backed(x, shelf, t)
    ensures Backed(x, shelf, u) && Has(u, m, map[])
  {
    forall r | r in u ensures ManifestBacked(x, shelf, u[r].row.manifest.artifacts) {
      if r != m.runId { assert r in t && u[r] == t[r]; }
    }
  }

  // -------------------------------------------------------------- the fresh record

  lemma TaskIsHeldThrough(x: Records, contents: set<Bytes>, shelf: Shelf, task: Audit.TaskRecord, r: ArtifactRef)
    requires Faithful(x, contents) && Holds(x, shelf, r) && Stored(x, shelf, x.taskBytes(task))
    requires r.sha256 == x.hash(x.taskBytes(task)) && AllHeld(x, shelf, TaskRefs(task))
    ensures HeldThrough(x, shelf, TaskSpec, r) && x.readTask(shelf[r.sha256]) == Some(task)
  {}

  lemma EvaluationIsHeldThrough(x: Records, contents: set<Bytes>, shelf: Shelf, e: Audit.EvaluationRecord, r: ArtifactRef)
    requires Faithful(x, contents) && Holds(x, shelf, r) && Stored(x, shelf, x.evaluationBytes(e))
    requires r.sha256 == x.hash(x.evaluationBytes(e)) && AllHeld(x, shelf, e.evidence)
    ensures HeldThrough(x, shelf, Evaluation, r) && x.readEvaluation(shelf[r.sha256]) == Some(e)
  {}

  lemma PlainIsHeldThrough(x: Records, shelf: Shelf, role: Role, r: ArtifactRef)
    requires Holds(x, shelf, r) && role != TaskSpec && role != Evaluation
    ensures HeldThrough(x, shelf, role, r)
  {}

  // --------------------------------------------------------------------- evidence

  /** The transcripts an evaluation binds: the two streams, and the containers' raw
      output when there is any. */
  datatype Transcripts = Transcripts(
    stdout: ArtifactRef, stderr: ArtifactRef, candidate: Option<ArtifactRef>, scorer: Option<ArtifactRef>)

  function Optionally(role: Role, r: Option<ArtifactRef>): map<Role, ArtifactRef> {
    if r == None then map[] else map[role := r.value]
  }

  function TranscriptRoles(t: Transcripts): map<Role, ArtifactRef> {
    map[Stdout := t.stdout, Stderr := t.stderr] + Optionally(CandidateStdout, t.candidate) + Optionally(ScorerStdout, t.scorer)
  }

  function EvidenceOf(t: Transcripts): seq<ArtifactRef> {
    [t.stdout, t.stderr] + (if t.candidate == None then [] else [t.candidate.value])
    + (if t.scorer == None then [] else [t.scorer.value])
  }

  /** The evidence a record lists is the evidence its manifest binds, in order. */
  lemma EvidenceIsAsBound(t: Transcripts, m: RunManifest, before: map<Role, ArtifactRef>, evaluation: ArtifactRef)
    requires m.artifacts == before + (TranscriptRoles(t) + map[Evaluation := evaluation])
    requires before.Keys == {TaskSpec, Patch}
    ensures EvidenceOf(t) == Audit.ExpectedEvidence(m)
    ensures m.artifacts[TaskSpec] == before[TaskSpec] && m.artifacts[Patch] == before[Patch]
    ensures m.artifacts[Evaluation] == evaluation
  {
    assert Audit.BoundTo(m, Stdout) == [t.stdout] && Audit.BoundTo(m, Stderr) == [t.stderr];
    assert Audit.BoundTo(m, CandidateStdout) == if t.candidate == None then [] else [t.candidate.value];
    assert Audit.BoundTo(m, ScorerStdout) == if t.scorer == None then [] else [t.scorer.value];
  }

  lemma WithCandidate(x: Records, shelf: Shelf, t: Transcripts, c: Option<ArtifactRef>)
    requires AllHeld(x, shelf, EvidenceOf(t)) && t.candidate == None && t.scorer == None
    requires c.Some? ==> Holds(x, shelf, c.value)
    ensures AllHeld(x, shelf, EvidenceOf(t.(candidate := c)))
  {
    assert EvidenceOf(t.(candidate := c)) == EvidenceOf(t) + if c == None then [] else [c.value];
  }

  lemma WithScorer(x: Records, shelf: Shelf, t: Transcripts, s: Option<ArtifactRef>)
    requires AllHeld(x, shelf, EvidenceOf(t)) && t.scorer == None && (s.Some? ==> Holds(x, shelf, s.value))
    ensures AllHeld(x, shelf, EvidenceOf(t.(scorer := s)))
  {
    assert EvidenceOf(t.(scorer := s)) == EvidenceOf(t) + if s == None then [] else [s.value];
  }

  /** A verdict as published: its transcripts, its record and the record's reference. */
  datatype Published = Published(transcripts: Transcripts, record: Audit.EvaluationRecord, ref: ArtifactRef)

  function VerdictRoles(p: Published): map<Role, ArtifactRef> {
    TranscriptRoles(p.transcripts) + map[Evaluation := p.ref]
  }

  predicate PublishedIn(x: Records, shelf: Shelf, p: Published) {
    && ManifestBacked(x, shelf, VerdictRoles(p)) && p.record.evidence == EvidenceOf(p.transcripts)
    && p.ref.sha256 in shelf && x.readEvaluation(shelf[p.ref.sha256]) == Some(p.record)
  }

  lemma PublishedIsBacked(x: Records, shelf: Shelf, p: Published)
    requires AllHeld(x, shelf, EvidenceOf(p.transcripts)) && p.record.evidence == EvidenceOf(p.transcripts)
    requires HeldThrough(x, shelf, Evaluation, p.ref) && x.readEvaluation(shelf[p.ref.sha256]) == Some(p.record)
    ensures PublishedIn(x, shelf, p)
  {
    TranscriptsAreBacked(x, shelf, p.transcripts);
    WithEvaluationIsBacked(x, shelf, p.transcripts, p.ref);
  }

  /** Everything the audit compares about a run's evaluation agrees, and the record it
      binds is the one published. */
  predicate Agrees(x: Records, shelf: Shelf, final: RunManifest, task: Audit.TaskRecord, e: Audit.EvaluationRecord) {
    && Evaluation in final.artifacts && final.artifacts[Evaluation].sha256 in shelf
    && x.readEvaluation(shelf[final.artifacts[Evaluation].sha256]) == Some(e)
    && AuditLaws.EvaluationFits(final, e) && e.taskHash == task.contentHash
  }

  /** Committing a published verdict to a run that has its task and patch. */
  lemma CommittedVerdictAgrees(
      x: Records, shelf: Shelf, m: RunManifest, final: RunManifest, had: map<Role, ArtifactRef>, task: Audit.TaskRecord, p: Published)
    requires PublishedIn(x, shelf, p) && had.Keys == {TaskSpec, Patch}
    requires final.artifacts == had + VerdictRoles(p) && final.runId == m.runId && final.status == p.record.runStatus
    requires p.record.runId == m.runId && p.record.patchHash == had[Patch].sha256 && p.record.taskHash == task.contentHash
    ensures Agrees(x, shelf, final, task, p.record) && TaskSpec in final.artifacts
    ensures final.artifacts[TaskSpec] == had[TaskSpec] && final.artifacts[Patch] == had[Patch]
  {
    EvidenceIsAsBound(p.transcripts, final, had, p.ref);
  }

  lemma TranscriptsAreBacked(x: Records, shelf: Shelf, t: Transcripts)
    requires AllHeld(x, shelf, EvidenceOf(t))
    ensures ManifestBacked(x, shelf, TranscriptRoles(t))
  {
    var refs := EvidenceOf(t);
    forall role | role in TranscriptRoles(t) ensures HeldThrough(x, shelf, role, TranscriptRoles(t)[role]) {
      var r := TranscriptRoles(t)[role];
      assert Holds(x, shelf, refs[0]) && Holds(x, shelf, refs[1]);
      if role == CandidateStdout { assert r == refs[2]; }
      if role == ScorerStdout { assert r == refs[|refs| - 1]; }
      PlainIsHeldThrough(x, shelf, role, r);
    }
  }

  lemma WithEvaluationIsBacked(x: Records, shelf: Shelf, t: Transcripts, evaluation: ArtifactRef)
    requires ManifestBacked(x, shelf, TranscriptRoles(t)) && HeldThrough(x, shelf, Evaluation, evaluation)
    ensures ManifestBacked(x, shelf, TranscriptRoles(t) + map[Evaluation := evaluation])
  {}

  // -------------------------------------------------------------- a completed run

  predicate TaskBound(x: Records, shelf: Shelf, r: ArtifactRef, task: Audit.TaskRecord) {
    r.sha256 in shelf && x.readTask(shelf[r.sha256]) == Some(task)
  }

  /** Every comparison the audit makes about a run's task and evaluation succeeds. */
  ghost predicate FullyEvidenced(x: Records, shelf: Shelf, final: RunManifest, task: Audit.TaskRecord, e: Audit.EvaluationRecord) {
    && TaskSpec in final.artifacts && TaskBound(x, shelf, final.artifacts[TaskSpec], task)
    && AuditLaws.TaskFits(final, task) && Agrees(x, shelf, final, task, e)
    && forall r, owner :: Audit.TaskEvaluationFindings(task, Audit.Judged(e, r, owner)) == []
  }

  /** The run is committed with this evaluation, and with the task it had. The
      quantifier keeps what that means folded until a proof mentions it. */
  ghost predicate Concluded(
      x: Records, shelf: Shelf, t: Tables, m: RunManifest, taskRef: ArtifactRef, task: Audit.TaskRecord, e: Audit.EvaluationRecord)
  {
    && m.runId in t
    && forall final {:trigger Agrees(x, shelf, final, task, e)} :: final == t[m.runId].row.manifest ==>
         && final.identity == m.identity && Agrees(x, shelf, final, task, e)
         && TaskSpec in final.artifacts && final.artifacts[TaskSpec] == taskRef
  }

  lemma SameVersionIsEvidenced(
      x: Records, shelf: Shelf, final: RunManifest, task: Audit.TaskRecord, e: Audit.EvaluationRecord, version: string)
    requires TaskSpec in final.artifacts && TaskBound(x, shelf, final.artifacts[TaskSpec], task)
    requires final.identity.taskId == task.taskId && final.identity.environmentDigest == task.imageDigest
    requires task.evaluatorVersion == Field.Text(version) && e.evaluatorVersion == version && !Blank(version)
    requires Agrees(x, shelf, final, task, e)
    ensures FullyEvidenced(x, shelf, final, task, e)
  {}

  /** A concluded run of a task that is still bound stands in every comparison. */
  lemma ConcludedIsEvidenced(
      x: Records, shelf: Shelf, t: Tables, m: RunManifest, taskRef: ArtifactRef, task: Audit.TaskRecord, e: Audit.EvaluationRecord,
      version: string)
    requires Concluded(x, shelf, t, m, taskRef, task, e) && TaskBound(x, shelf, taskRef, task)
    requires m.identity.taskId == task.taskId && m.identity.environmentDigest == task.imageDigest
    requires task.evaluatorVersion == Field.Text(version) && e.evaluatorVersion == version && !Blank(version)
    ensures m.runId in t && FullyEvidenced(x, shelf, t[m.runId].row.manifest, task, e)
    ensures t[m.runId].row.manifest.status == e.runStatus
  {
    var final := t[m.runId].row.manifest;
    assert Agrees(x, shelf, final, task, e);
    SameVersionIsEvidenced(x, shelf, final, task, e, version);
  }
}
