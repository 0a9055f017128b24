/** What each lifecycle operation leaves, read off the rows before and after it: the
    manifest field by field, the budget index, and the state its stream replays to. */
module Effects {
  import opened Text
  import opened Usage
  import opened Events
  import opened Replay
  import opened ReplayLaws
  import opened Ledger
  import opened Lifecycle
  import opened Plans
  import opened TerminalPlans
  import opened EvaluationPlans
  import opened Commands
  import opened Progress

  /** The stored rows of a run and the state their events replay to. */
  datatype Snapshot = Snapshot(manifest: RunManifest, budget: BudgetRow, replayed: ReplayState)

  function SnapshotOf(run: string, v: RunRows): Snapshot
    requires Fold(run, v.events).Accepted?
  {
    Snapshot(v.row.manifest, v.budget, MachineOf(run, v).state)
  }

  /** The stream has grown by events with exactly these payloads. */
  predicate Appends(v: RunRows, w: RunRows, bodies: seq<Body>) {
    Bodies(w.events) == Bodies(v.events) + bodies
  }

  /** The stream has grown, and the last events have these payloads. */
  ghost predicate Concludes(v: RunRows, w: RunRows, bodies: seq<Body>) {
    exists before :: Appends(v, w, before + bodies)
  }

  /** The stream's last event has this payload. */
  predicate EndsIn(w: RunRows, body: Body) {
    w.events != [] && w.events[|w.events| - 1].body == body
  }

  lemma LastOfAppended(v: RunRows, w: RunRows, bodies: seq<Body>)
    requires Appends(v, w, bodies) && bodies != []
    ensures EndsIn(w, bodies[|bodies| - 1])
  {
    var all := Bodies(w.events);
    assert all[|all| - 1] == bodies[|bodies| - 1];
  }

  /** The machines before and after a performed operation, and what its plan wrote. */
  lemma PerformedSteps(hash: ContentHash, t: Tables, u: Tables, run: string, c: Command) returns (m: Machine, n: Machine)
    requires SoundLedger(hash, t) && Performed(hash, t, u, run, c)
    ensures Sound(hash, run, t[run]) && Sound(hash, run, u[run])
    ensures m == MachineOf(run, t[run]) && Basis(t[run], m)
    ensures Fold(run, u[run].events).Accepted? && n == MachineOf(run, u[run])
    ensures var plan := PlanOf(t[run], m.state, c);
            && Turns(m, plan.bodies) == Accepted(n) && Wrote(t[run], u[run], plan)
            && Bodies(u[run].events) == Bodies(t[run].events) + plan.bodies
            && u[run].row.status == u[run].row.manifest.status
  {
    assert Sound(hash, run, t[run]);
    SoundRunsHaveABasis(hash, run, t[run]);
    PerformedMachine(hash, t, u, run, c);
    SoundState(hash, run, u[run]);
    m, n := MachineOf(run, t[run]), MachineOf(run, u[run]);
  }

  lemma StartTurn(m: Machine, body: Body, n: Machine)
    requires body.RunStarted? && Turns(m, [body]) == Accepted(n)
    ensures n.state == m.state.(status := Running, eventCount := m.state.eventCount + 1)
  {
    TurnsSingle(m, body);
  }

  lemma RecordedTurn(v: RunRows, m: Machine, r: ArtifactRef, n: Machine)
    requires Basis(v, m) && CanRecord(v, m.state, TaskSpec, r) && Turns(m, [RecordedBody(TaskSpec, r)]) == Accepted(n)
    ensures n.state == m.state.(artifacts := m.state.artifacts[TaskSpec := r.sha256], eventCount := m.state.eventCount + 1)
  {
    assert m.state.artifacts.Keys == {};
    TurnsSingle(m, RecordedBody(TaskSpec, r));
    RecordTurn(m, m.state.eventCount, TaskSpec, r);
  }

  /** Starting: the run is running since that time, and nothing else changes. */
  lemma StartLeaves(hash: ContentHash, t: Tables, u: Tables, run: string, startedAt: int, model: string)
    requires SoundLedger(hash, t) && Performed(hash, t, u, run, Command.Start(startedAt, model))
    ensures Fold(run, u[run].events).Accepted? && u[run].row.status == Running
    ensures Appends(t[run], u[run], [RunStarted(Text(model))])
    ensures var a, b := SnapshotOf(run, t[run]), SnapshotOf(run, u[run]);
            && a.manifest.status == Pending && a.manifest.identity.requestedModel == model
            && b.manifest == a.manifest.(status := Running, startedAt := Some(startedAt)) && b.budget == a.budget
            && b.replayed == a.replayed.(status := Running, eventCount := a.replayed.eventCount + 1)
  {
    var m, n := PerformedSteps(hash, t, u, run, Command.Start(startedAt, model));
    StartTurn(m, RunStarted(Text(model)), n);
  }

  /** Binding the task: that one reference is bound, in manifest and replay. */
  lemma RecordLeaves(hash: ContentHash, t: Tables, u: Tables, run: string, role: Role, artifact: ArtifactRef)
    requires SoundLedger(hash, t) && Performed(hash, t, u, run, Record(role, artifact))
    ensures Fold(run, u[run].events).Accepted? && Appends(t[run], u[run], [RecordedBody(role, artifact)])
    ensures var a, b := SnapshotOf(run, t[run]), SnapshotOf(run, u[run]);
            && role == TaskSpec && role !in a.manifest.artifacts
            && b.manifest == a.manifest.(artifacts := a.manifest.artifacts[role := artifact]) && b.budget == a.budget
            && b.replayed == a.replayed.(artifacts := a.replayed.artifacts[role := artifact.sha256],
                                         eventCount := a.replayed.eventCount + 1)
  {
    var m, n := PerformedSteps(hash, t, u, run, Record(role, artifact));
    RecordedTurn(t[run], m, artifact, n);
  }

  /** Sending the request: it is outstanding and reserves exactly its maximum. */
  lemma RequestLeaves(
      hash: ContentHash, t: Tables, u: Tables, run: string, id: string, maximum: BudgetUsage, used: BudgetUsage,
      reserved: BudgetUsage)
    requires SoundLedger(hash, t) && Performed(hash, t, u, run, Request(id, maximum, used, reserved))
    ensures Fold(run, u[run].events).Accepted?
    ensures Appends(t[run], u[run], [RequestStarted(Text(id), Some(maximum)), BudgetSnapshot(Some(ZERO), Some(maximum))])
    ensures var a, b := SnapshotOf(run, t[run]), SnapshotOf(run, u[run]);
            && a.replayed.requestState == NotStarted && b.manifest == a.manifest
            && b.budget == BudgetRow(a.budget.limits, ZERO, maximum)
            && b.replayed == a.replayed.(
                 requestId := Some(id), requestMaximum := Some(maximum), requestState := Started, reserved := maximum,
                 eventCount := a.replayed.eventCount + 2)
  {
    var m, n := PerformedSteps(hash, t, u, run, Request(id, maximum, used, reserved));
    SentFigures(t[run], m, id, maximum, used, reserved);
    RequestTurns(m, id, maximum);
  }

  lemma SentFigures(
      v: RunRows, m: Machine, id: string, maximum: BudgetUsage, used: BudgetUsage, reserved: BudgetUsage)
    requires Basis(v, m) && CanRequest(v, m.state, id, maximum, used, reserved)
    ensures used == ZERO && reserved == maximum && m.state.used == ZERO && m.state.reserved == ZERO
    ensures m.state.artifacts.Keys == {TaskSpec} && m.state.status == Running
  {
    StoredFigures(v, m);
    NothingAdded(maximum);
    assert Digests(v.row.manifest.artifacts).Keys == v.row.manifest.artifacts.Keys;
  }

  /** The response: exactly the reported usage is charged, nothing stays reserved, and
      model and patch are bound. */
  lemma RespondLeaves(hash: ContentHash, t: Tables, u: Tables, run: string, q: Response)
    requires SoundLedger(hash, t) && Performed(hash, t, u, run, Respond(q))
    ensures Fold(run, u[run].events).Accepted?
    ensures Appends(t[run], u[run], [ResponseCompleted(Text(q.requestId), Some(q.actual), Text(q.returnedModel)),
                                     BudgetSnapshot(Some(q.actual), Some(ZERO)), RecordedBody(Patch, q.patch)])
    ensures var a, b := SnapshotOf(run, t[run]), SnapshotOf(run, u[run]);
            && a.replayed.requestState == Started && a.replayed.requestId == Some(q.requestId)
            && b.manifest == a.manifest.(returnedModel := Some(q.returnedModel),
                                         artifacts := a.manifest.artifacts[Patch := q.patch])
            && b.budget == BudgetRow(a.budget.limits, q.actual, ZERO)
            && b.replayed == a.replayed.(
                 returnedModel := Some(q.returnedModel), requestState := Completed, used := q.actual, reserved := ZERO,
                 artifacts := a.replayed.artifacts[Patch := q.patch.sha256], eventCount := a.replayed.eventCount + 3)
  {
    var m, n := PerformedSteps(hash, t, u, run, Respond(q));
    RespondedState(t[run], m, q);
    RespondTurns(t[run], m, q);
    NonEmptyIsNotBlank(q.returnedModel);
  }

  /** The verdict: status, outcome and reason are the caller's in manifest and replay,
      and exactly the given evidence is added. */
  lemma EvaluateLeaves(hash: ContentHash, t: Tables, u: Tables, run: string, q: EvaluationInput)
    requires SoundLedger(hash, t) && Performed(hash, t, u, run, Evaluate(q))
    ensures Fold(run, u[run].events).Accepted? && u[run].row.status == q.status
    ensures Concludes(t[run], u[run], [
      EvaluationCompleted(q.outcome, q.resultSha256, q.remainder), BudgetSnapshot(Some(q.used), Some(ZERO)),
      RunTerminal(Some(q.status), q.outcome, OptionalText(q.terminalReason), false)])
    ensures var a, b := SnapshotOf(run, t[run]), SnapshotOf(run, u[run]);
            && b.manifest == a.manifest.(status := q.status, finishedAt := Some(q.finishedAt),
                                         terminalReason := q.terminalReason,
                                         artifacts := a.manifest.artifacts + q.artifacts)
            && b.budget == a.budget && a.budget.reserved == ZERO
            && b.replayed == a.replayed.(
                 status := q.status, outcome := q.outcome, terminalReason := q.terminalReason,
                 artifacts := Digests(a.manifest.artifacts + q.artifacts), eventCount := b.replayed.eventCount)
            && (q.status == Succeeded <==> q.terminalReason == None)
  {
    var c := Evaluate(q);
    var m, n := PerformedSteps(hash, t, u, run, c);
    var v := t[run];
    var roles := EvidenceOrder(q.artifacts.Keys);
    EvidenceComesInOrder(q.artifacts.Keys);
    assert forall r :: r in roles ==> r in RoleSet(roles);
    assert Appends(v, u[run], EvidenceBodies(roles, q.artifacts) + VerdictBodies(q));
    EvaluationStart(v, m, q);
    if q.terminalReason.Some? { NonEmptyIsNotBlank(q.terminalReason.value); }
    EvaluationTurns(m, v.row.manifest.artifacts, q);
    EvaluatedShape(m, v.row.manifest.artifacts, q);
    assert StripOptional(q.terminalReason) == q.terminalReason;
  }

  lemma EvaluatedShape(m: Machine, bound: map<Role, ArtifactRef>, q: EvaluationInput)
    requires EvaluationPlans.Answered(m, bound) && EvidenceRoles(q.artifacts.Keys)
    ensures var x := Evaluated(m, q);
            x.state == m.state.(status := q.status, outcome := q.outcome, terminalReason := q.terminalReason,
                                artifacts := Digests(bound + q.artifacts), eventCount := x.state.eventCount)
  {
    EvidencedArtifacts(m, bound, q);
  }

  // ------------------------------------------------------------ ending a run

  function Latest(a: int, b: int): int {
    if a >= b then a else b
  }

  /** When the run began as far as its manifest knows: its start, or its creation. */
  function Beginning(m: RunManifest): int {
    if m.startedAt.Some? then m.startedAt.value else m.identity.createdAt
  }

  /** An operation ended the run without a verdict: its status, the time and reason in
      the manifest, and every expected role it never bound absent for one reason. */
  predicate EndedWith(a: Snapshot, b: Snapshot, status: RunStatus, finishedAt: int, reason: string, absence: string) {
    && b.manifest == a.manifest.(status := status, terminalReason := Some(reason),
                                 finishedAt := Some(Latest(finishedAt, Beginning(a.manifest))))
    && b.replayed.status == status && b.replayed.terminalReason == Some(reason) && b.replayed.outcome == None
    && b.replayed.artifacts == a.replayed.artifacts
    && b.replayed.absent.Keys == EXPECTED_ARTIFACTS - a.replayed.artifacts.Keys
    && (forall role :: role in b.replayed.absent ==> b.replayed.absent[role] == absence)
  }

  lemma {:induction false} AbsentedReasons(m: Machine, roles: seq<Role>, reason: string)
    requires m.state.absent == map[]
    ensures forall r :: r in Absented(m, roles, reason).state.absent ==> Absented(m, roles, reason).state.absent[r] == reason
  {
    if roles != [] { AbsentedReasons(m, roles[..|roles| - 1], reason); }
  }

  lemma SettledAbsence(m: Machine, absence: string)
    requires Consistent(m) && m.created && m.pending == None && !IsTerminal(m.state.status) && Resting(m.state)
    ensures var s := Settled(m, absence).state;
            && s.absent.Keys == EXPECTED_ARTIFACTS - m.state.artifacts.Keys
            && forall r :: r in s.absent ==> s.absent[r] == absence
  {
    var roles := MissingRoles(m.state.artifacts.Keys);
    assert RoleSet(roles) == EXPECTED_ARTIFACTS - m.state.artifacts.Keys by {
      MissingRolesFacts(m.state.artifacts.Keys);
    }
    AbsentedAbsence(m, roles, absence, Absented(m, roles, absence));
    assert Settled(m, absence).state.absent == Absented(m, roles, absence).state.absent;
  }

  lemma AbsentedAbsence(m: Machine, roles: seq<Role>, absence: string, x: Machine)
    requires m.state.absent == map[] && x == Absented(m, roles, absence)
    ensures x.state.absent.Keys == RoleSet(roles) && forall r :: r in x.state.absent ==> x.state.absent[r] == absence
  {
    AbsentedFacts(m, roles, absence);
    AbsentedReasons(m, roles, absence);
  }

  lemma EndingShape(v: RunRows, m: Machine, w: RunRows, n: Machine, absence: string, status: RunStatus, finishedAt: int, reason: string)
    requires Basis(v, m) && !IsTerminal(v.row.manifest.status) && NonEmptyText(reason)
    requires n == Ended(Settled(m, absence), status, Some(reason))
    requires w.row.manifest == EndedManifest(v.row.manifest, status, finishedAt, reason)
    ensures EndedWith(
      Snapshot(v.row.manifest, v.budget, m.state), Snapshot(w.row.manifest, w.budget, n.state), status, finishedAt, reason, absence)
  {
    NonEmptyIsNotBlank(reason);
    SettledFacts(m, absence);
    SettledAbsence(m, absence);
  }

  /** Budget exhaustion: the run ends as such for the caller's reason, nothing more is
      charged and nothing stays reserved. */
  lemma RefuseLeaves(hash: ContentHash, t: Tables, u: Tables, run: string, finishedAt: int, reason: string)
    requires SoundLedger(hash, t) && Performed(hash, t, u, run, Refuse(finishedAt, reason))
    ensures Fold(run, u[run].events).Accepted? && u[run].row.status == BudgetExhausted
    ensures EndsIn(u[run], RunTerminal(Some(BudgetExhausted), None, Text(reason), false))
    ensures var a, b := SnapshotOf(run, t[run]), SnapshotOf(run, u[run]);
            && EndedWith(a, b, BudgetExhausted, finishedAt, reason, "budget_exhausted")
            && b.budget == BudgetRow(a.budget.limits, a.budget.used, ZERO)
            && b.replayed.used == a.budget.used && b.replayed.reserved == ZERO
            && b.replayed.requestState == NotStarted
  {
    var c := Refuse(finishedAt, reason);
    var m, n := PerformedSteps(hash, t, u, run, c);
    LastOfAppended(t[run], u[run], RefusalPlan(t[run], m.state, finishedAt, reason).bodies);
    StripFacts(reason);
    InterruptedIsText();
    NonEmptyIsNotBlank(reason);
    EndingTurns(m, "budget_exhausted", BudgetExhausted, reason, false);
    SettledFacts(m, "budget_exhausted");
    EndingShape(t[run], m, u[run], n, "budget_exhausted", BudgetExhausted, finishedAt, reason);
  }

  /** Recovery: an infrastructure error, with an outstanding request charged at its whole
      maximum and, then only, a reason of its own. */
  lemma RecoverLeaves(hash: ContentHash, t: Tables, u: Tables, run: string, finishedAt: int, reason: string)
    requires SoundLedger(hash, t) && Performed(hash, t, u, run, Recover(finishedAt, reason))
    ensures Fold(run, u[run].events).Accepted? && u[run].row.status == InfrastructureError
    ensures var a, b := SnapshotOf(run, t[run]), SnapshotOf(run, u[run]);
            var outstanding := a.replayed.requestState == Started;
            var ended := if outstanding then "ambiguous_model_request" else reason;
            && EndedWith(a, b, InfrastructureError, finishedAt, ended, "interrupted")
            && EndsIn(u[run], RunTerminal(Some(InfrastructureError), None, Text(ended), true))
            && b.budget == BudgetRow(a.budget.limits, Add(a.budget.used, a.budget.reserved), ZERO)
            && b.replayed.used == b.budget.used && b.replayed.reserved == ZERO
            && b.replayed.requestState == (if outstanding then Ambiguous else a.replayed.requestState)
  {
    var c := Recover(finishedAt, reason);
    var m, n := PerformedSteps(hash, t, u, run, c);
    var actual := RecoveryReason(m.state, reason);
    LastOfAppended(t[run], u[run], RecoveryPlan(t[run], m.state, finishedAt, reason).bodies);
    StripFacts(reason);
    AmbiguousReasonIsText();
    InterruptedIsText();
    NonEmptyIsNotBlank(actual);
    EndingTurns(m, "interrupted", InfrastructureError, actual, true);
    SettledFacts(m, "interrupted");
    AddZero(m.state.used);
    EndingShape(t[run], m, u[run], n, "interrupted", InfrastructureError, finishedAt, actual);
  }
}
