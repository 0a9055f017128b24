/** The records of the run ledger. A payload member is represented by what
    decoding it yields: a missing or null member, text, or anything else. Members
    with a fixed vocabulary are read into that vocabulary; None stands for a member
    that is missing or cannot be read (for a declared outcome: missing or null). */
module Events {
  import opened Text
  import opened Usage

  datatype Field = Absent | Text(text: string) | Malformed

  predicate NonBlank(f: Field) {
    f.Text? && !Blank(f.text)
  }

  predicate Sha256Field(f: Field) {
    f.Text? && IsSha256(f.text)
  }

  datatype RunStatus =
    | Pending | Running | Succeeded | Failed | Cancelled | TimedOut | BudgetExhausted | InfrastructureError

  predicate IsTerminal(s: RunStatus) {
    s != Pending && s != Running
  }

  /** The text of an artifact's role name, read: the seven roles replay knows, and
      any other nonblank text. */
  datatype Role =
    | TaskSpec | Patch | Stdout | Stderr | CandidateStdout | ScorerStdout | Evaluation
    | UnknownRole(name: string)

  datatype Outcome = Passed | NotPassed | Errored | UnknownOutcome(text: string)

  /** What run.created declares about the run. */
  datatype Creation = Creation(
    candidateId: Field, codeRevision: Field, experimentId: Field, requestedModel: Field, taskId: Field,
    environmentDigest: Field, genomeHash: Field, seed: Option<int>,
    modelParameters: Option<string>, limits: Option<BudgetLimits>)

  datatype ReferencePayload = ReferencePayload(
    mediaType: Field, sha256: Field, sizeBytes: Option<int>, storageRef: Field)

  datatype Body =
    | RunCreated(status: Option<RunStatus>, creation: Creation)
    | RunStarted(requestedModel: Field)
    | RequestStarted(requestId: Field, maximum: Option<BudgetUsage>)
    | ResponseCompleted(requestId: Field, actual: Option<BudgetUsage>, returnedModel: Field)
    | RequestAmbiguous(requestId: Field)
    | BudgetSnapshot(used: Option<BudgetUsage>, reserved: Option<BudgetUsage>)
    | ArtifactRecorded(role: Option<Role>, reference: ReferencePayload)
    | ArtifactNotProduced(role: Option<Role>, reason: Field)
    | EvaluationCompleted(outcome: Option<Outcome>, resultSha256: Field, remainder: string)
    | RunTerminal(status: Option<RunStatus>, evaluationOutcome: Option<Outcome>, terminalReason: Field, recovered: bool)
    | Unrecognized(eventType: string, payload: string)

  datatype Stamp = Stamp(monotonic: nat, occurredAt: int)

  datatype EventRecord = EventRecord(
    eventId: string, runId: string, sequence: nat, causalParents: seq<string>,
    stamp: Stamp, body: Body, previousHash: Option<string>)

  /** A content hash of event records; nothing is assumed of it here. */
  type ContentHash = EventRecord -> string

  ghost predicate InjectiveHash(hash: ContentHash) {
    forall a, b :: hash(a) == hash(b) ==> a == b
  }
}
