/** The writes of each lifecycle operation and the exact condition under which
    they go through. */
module Plans {
  import opened Text
  import opened Usage
  import opened Events
  import opened Replay
  import opened ReplayLaws
  import opened Ledger
  import opened Lifecycle

  lemma TurnsSingle(m: Machine, a: Body)
    ensures Turns(m, [a]) == Turn(m, m.state.eventCount, a)
  {
    assert [] + [a] == [a];
    TurnsOne(m, [], a);
  }

  lemma TurnsPair(m: Machine, a: Body, b: Body)
    ensures Turns(m, [a, b]) ==
            var x := Turn(m, m.state.eventCount, a);
            if x.Rejected? then Rejected else Turn(x.value, x.value.state.eventCount, b)
  {
    assert [a] + [b] == [a, b];
    TurnsSingle(m, a);
    TurnsOne(m, [a], b);
  }

  lemma TurnsTriple(m: Machine, a: Body, b: Body, c: Body)
    ensures Turns(m, [a, b, c]) ==
            var x := Turns(m, [a, b]);
            if x.Rejected? then Rejected else Turn(x.value, x.value.state.eventCount, c)
  {
    assert [a, b] + [c] == [a, b, c];
    TurnsOne(m, [a, b], c);
  }

  function SnapshotBody(used: BudgetUsage, reserved: BudgetUsage): Body {
    BudgetSnapshot(Some(used), Some(reserved))
  }

  /** The machine after a reference has been recorded. */
  function Recorded(m: Machine, role: Role, sha256: string): Machine {
    Counted(m.(state := m.state.(artifacts := m.state.artifacts[role := sha256])))
  }

  lemma RecordTurn(m: Machine, sequence: nat, role: Role, r: ArtifactRef)
    requires m.created && m.pending == None && m.state.status == Running && ValidRef(r)
    requires role in EXPECTED_ARTIFACTS + OPTIONAL_ARTIFACTS
    requires role !in m.state.artifacts && role !in m.state.absent
    requires InPosition(m.state.artifacts.Keys, role)
    requires m.state.requestState == if role == TaskSpec then NotStarted else Completed
    ensures Turn(m, sequence, RecordedBody(role, r)) ==
            if CanonicalReference(r) then Accepted(Recorded(m, role, r.sha256)) else Rejected
  {
    CanonicalReferencesReplay(r);
  }

  // ----------------------------------------------------------------- start_run

  function StartPlan(v: RunRows, startedAt: int, requestedModel: string): Plan {
    Plan([RunStarted(Text(requestedModel))],
         v.row.manifest.(status := Running, startedAt := Some(startedAt)), true,
         v.budget.used, v.budget.reserved)
  }

  predicate CanStart(v: RunRows, startedAt: int, requestedModel: string) {
    && v.row.manifest.status == Pending
    && requestedModel == v.row.manifest.identity.requestedModel
    && v.row.manifest.identity.createdAt <= startedAt
  }

  lemma StartSettles(v: RunRows, m: Machine, startedAt: int, requestedModel: string)
    requires Basis(v, m) && CanStart(v, startedAt, requestedModel)
    ensures var plan := StartPlan(v, startedAt, requestedModel);
            Turns(m, plan.bodies).Accepted? && Settles(v, plan, Turns(m, plan.bodies).value)
  {
    NonEmptyIsNotBlank(requestedModel);
    var body := RunStarted(Text(requestedModel));
    TurnsSingle(m, body);
    assert Turn(m, m.state.eventCount, body) == Accepted(Counted(m.(state := m.state.(status := Running))));
  }

  // ----------------------------------------------------------- record_artifact

  function RecordPlan(v: RunRows, role: Role, artifact: ArtifactRef): Plan {
    Plan([RecordedBody(role, artifact)],
         v.row.manifest.(artifacts := v.row.manifest.artifacts[role := artifact]), true,
         v.budget.used, v.budget.reserved)
  }

  predicate CanRecord(v: RunRows, s: ReplayState, role: Role, artifact: ArtifactRef) {
    && role == TaskSpec && v.row.manifest.status == Running && s.requestState == NotStarted
    && role !in v.row.manifest.artifacts && CanonicalReference(artifact)
  }

  lemma RecordSettles(v: RunRows, m: Machine, artifact: ArtifactRef)
    requires Basis(v, m) && CanRecord(v, m.state, TaskSpec, artifact)
    ensures var plan := RecordPlan(v, TaskSpec, artifact);
            Turns(m, plan.bodies).Accepted? && Settles(v, plan, Turns(m, plan.bodies).value)
  {
    DigestsOfBinding(v.row.manifest.artifacts, TaskSpec, artifact);
    assert m.state.artifacts.Keys == {};
    TurnsSingle(m, RecordedBody(TaskSpec, artifact));
    RecordTurn(m, m.state.eventCount, TaskSpec, artifact);
  }

  /** With the method's own checks passed, only the reference's path is left. */
  lemma RecordNeeds(v: RunRows, m: Machine, artifact: ArtifactRef)
    requires Basis(v, m) && ValidRef(artifact) && Turns(m, RecordPlan(v, TaskSpec, artifact).bodies).Accepted?
    ensures CanonicalReference(artifact)
  {
    TurnsSingle(m, RecordedBody(TaskSpec, artifact));
    CanonicalReferencesReplay(artifact);
  }

  // ------------------------------------------------------- start_model_request

  function RequestPlan(
      v: RunRows, requestId: string, maximum: BudgetUsage, used: BudgetUsage, reserved: BudgetUsage): Plan
  {
    Plan([RequestStarted(Text(requestId), Some(maximum)), SnapshotBody(used, reserved)],
         v.row.manifest, false, used, reserved)
  }

  predicate CanRequest(
      v: RunRows, s: ReplayState, requestId: string, maximum: BudgetUsage, used: BudgetUsage, reserved: BudgetUsage)
  {
    && !Blank(requestId) && maximum.modelCalls == 1
    && v.row.manifest.status == Running && s.requestState == NotStarted && TaskSpec in v.row.manifest.artifacts
    && used == v.budget.used && reserved == Add(v.budget.reserved, maximum)
    && Within(Add(used, reserved), v.budget.limits)
  }

  lemma RequestTurns(m: Machine, requestId: string, maximum: BudgetUsage)
    requires m.created && m.pending == None && m.state.status == Running && m.state.requestState == NotStarted
    requires m.state.artifacts.Keys == {TaskSpec} && !Blank(requestId) && maximum.modelCalls == 1
    requires m.state.used == ZERO && m.state.reserved == ZERO
    ensures Turns(m, [RequestStarted(Text(requestId), Some(maximum)), SnapshotBody(ZERO, maximum)]) ==
            Accepted(Counted(Counted(Machine(
              m.state.(requestId := Some(requestId), requestMaximum := Some(maximum),
                       requestState := Started, reserved := maximum), true, None))))
  {
    TurnsPair(m, RequestStarted(Text(requestId), Some(maximum)), SnapshotBody(ZERO, maximum));
    SubtractUndoesAdd(ZERO, maximum);
  }

  lemma RequestSettles(
      v: RunRows, m: Machine, requestId: string, maximum: BudgetUsage, used: BudgetUsage, reserved: BudgetUsage)
    requires Basis(v, m) && CanRequest(v, m.state, requestId, maximum, used, reserved)
    ensures var plan := RequestPlan(v, requestId, maximum, used, reserved);
            Turns(m, plan.bodies).Accepted? && Settles(v, plan, Turns(m, plan.bodies).value)
  {
    DigestsOfBinding(v.row.manifest.artifacts, TaskSpec, v.row.manifest.artifacts[TaskSpec]);
    assert m.state.artifacts.Keys == {TaskSpec};
    SubtractUndoesAdd(ZERO, maximum);
    RequestTurns(m, requestId, maximum);
  }

  /** The reservation's own checks are not all of the condition: the event itself
      is refused for a blank identifier, a second request, or an unbound task. */
  lemma RequestNeeds(
      v: RunRows, m: Machine, requestId: string, maximum: BudgetUsage, used: BudgetUsage, reserved: BudgetUsage)
    requires Basis(v, m)
    requires Turns(m, RequestPlan(v, requestId, maximum, used, reserved).bodies).Accepted?
    ensures !Blank(requestId) && m.state.requestState == NotStarted && TaskSpec in v.row.manifest.artifacts
  {
    TurnsPair(m, RequestStarted(Text(requestId), Some(maximum)), SnapshotBody(used, reserved));
    assert ApplyRequest(m, RequestStarted(Text(requestId), Some(maximum))).Accepted?;
    assert TaskSpec in Digests(v.row.manifest.artifacts);
  }

  // --------------------------------------------------- complete_model_response

  datatype Response = Response(
    requestId: string, returnedModel: string, actual: BudgetUsage, patch: ArtifactRef,
    used: BudgetUsage, reserved: BudgetUsage)

  function ResponseBodies(q: Response): seq<Body> {
    [ResponseCompleted(Text(q.requestId), Some(q.actual), Text(q.returnedModel)),
     SnapshotBody(q.used, q.reserved), RecordedBody(Patch, q.patch)]
  }

  function ResponsePlan(v: RunRows, q: Response): Plan {
    Plan(ResponseBodies(q),
         v.row.manifest.(returnedModel := Some(Strip(q.returnedModel)),
                         artifacts := v.row.manifest.artifacts[Patch := q.patch]),
         true, q.used, q.reserved)
  }

  predicate CanRespond(v: RunRows, s: ReplayState, q: Response) {
    && s.requestState == Started && s.requestId == Some(q.requestId)
    && s.requestMaximum.Some? && AtMost(q.actual, s.requestMaximum.value) && q.actual.modelCalls == 1
    && q.used == Add(v.budget.used, q.actual)
    && Subtract(v.budget.reserved, s.requestMaximum.value) == Some(q.reserved)
    && NonEmptyText(q.returnedModel) && CanonicalReference(q.patch)
  }

  /** The machine between the response event and its budget snapshot. */
  function Answering(m: Machine, q: Response): Machine {
    Counted(Machine(
      m.state.(returnedModel := Some(q.returnedModel), requestState := Completed),
      true, Some(BudgetTransition(Reconcile, m.state.used, m.state.reserved, q.actual))))
  }

  function Responded(m: Machine, q: Response): Machine {
    var x := Answering(m, q);
    Counted(x.(state := x.state.(used := q.used, reserved := q.reserved), pending := None))
  }

  lemma AnswerTurn(m: Machine, q: Response)
    requires m.created && m.pending == None && m.state.status == Running
    requires m.state.requestState == Started && m.state.requestId == Some(q.requestId) && !Blank(q.requestId)
    requires m.state.requestMaximum.Some? && AtMost(q.actual, m.state.requestMaximum.value)
    requires q.actual.modelCalls == 1 && !Blank(q.returnedModel)
    ensures Turn(m, m.state.eventCount, ResponseBodies(q)[0]) == Accepted(Answering(m, q))
  {}

  lemma ReconcileTurn(m: Machine, q: Response)
    requires m.state.status == Running && m.state.used == ZERO && Some(m.state.reserved) == m.state.requestMaximum
    requires q.used == q.actual && q.reserved == ZERO
    ensures var x := Answering(m, q);
            Turn(x, x.state.eventCount, ResponseBodies(q)[1]) == Accepted(Responded(m, q))
  {
    SubtractUndoesAdd(ZERO, q.actual);
    SubtractUndoesAdd(ZERO, m.state.requestMaximum.value);
  }

  lemma RespondedState(v: RunRows, m: Machine, q: Response)
    requires Basis(v, m) && CanRespond(v, m.state, q)
    ensures m.state.status == Running && m.state.used == ZERO && Some(m.state.reserved) == m.state.requestMaximum
    ensures q.used == q.actual && q.reserved == ZERO && m.state.artifacts.Keys == {TaskSpec}
    ensures m.state.absent == map[] && !Blank(q.requestId)
  {
    SubtractUndoesAdd(ZERO, q.actual);
    SubtractUndoesAdd(ZERO, m.state.requestMaximum.value);
  }

  lemma RespondTurns(v: RunRows, m: Machine, q: Response)
    requires Basis(v, m) && CanRespond(v, m.state, q)
    ensures Turns(m, ResponseBodies(q)) == Accepted(Recorded(Responded(m, q), Patch, q.patch.sha256))
  {
    RespondedState(v, m, q);
    NonEmptyIsNotBlank(q.returnedModel);
    AnswerTurn(m, q);
    ReconcileTurn(m, q);
    var a, b, c := ResponseBodies(q)[0], ResponseBodies(q)[1], ResponseBodies(q)[2];
    TurnsPair(m, a, b);
    TurnsTriple(m, a, b, c);
    var x := Responded(m, q);
    RecordTurn(x, x.state.eventCount, Patch, q.patch);
  }

  lemma RespondedSettles(v: RunRows, m: Machine, q: Response)
    requires Basis(v, m) && m.state.requestState == Started && q.reserved == ZERO
    requires NonEmptyText(q.returnedModel) && CanonicalReference(q.patch)
    ensures Settles(v, ResponsePlan(v, q), Recorded(Responded(m, q), Patch, q.patch.sha256))
  {
    NonEmptyIsNotBlank(q.returnedModel);
    DigestsOfBinding(v.row.manifest.artifacts, Patch, q.patch);
    assert m.state.artifacts.Keys == {TaskSpec};
  }

  lemma RespondSettles(v: RunRows, m: Machine, q: Response)
    requires Basis(v, m) && CanRespond(v, m.state, q)
    ensures var plan := ResponsePlan(v, q);
            Turns(m, plan.bodies).Accepted? && Settles(v, plan, Turns(m, plan.bodies).value)
  {
    RespondedState(v, m, q);
    RespondTurns(v, m, q);
    RespondedSettles(v, m, q);
  }

  /** An unstripped model name, or a patch reference off its canonical path, fails
      only after the other checks: at the event, or against the stored manifest. */
  lemma RespondNeeds(v: RunRows, m: Machine, q: Response)
    requires Basis(v, m) && ValidRef(q.patch) && Strip(q.returnedModel) != ""
    requires Turns(m, ResponseBodies(q)).Accepted?
    requires Turns(m, ResponseBodies(q)).value.state.returnedModel == Some(Strip(q.returnedModel))
    ensures NonEmptyText(q.returnedModel) && CanonicalReference(q.patch)
  {
    var a, b, c := ResponseBodies(q)[0], ResponseBodies(q)[1], ResponseBodies(q)[2];
    TurnsTriple(m, a, b, c);
    TurnsPair(m, a, b);
    CanonicalReferencesReplay(q.patch);
    StripFacts(q.returnedModel);
  }

  lemma RespondKeepsLimits(v: RunRows, m: Machine, q: Response)
    requires Basis(v, m) && BudgetedWithin(v.budget) && CanRespond(v, m.state, q)
    ensures WithinLimits(ResponsePlan(v, q), v.budget.limits)
  {
    RespondedState(v, m, q);
    WithinIsDownwardClosed(Add(q.used, q.reserved), Add(v.budget.used, v.budget.reserved), v.budget.limits);
  }
}
