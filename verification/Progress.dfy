/** The fixture runner's own sequence of ledger calls, none of which a sound ledger
    refuses. */
module Progress {
  import opened Text
  import opened Usage
  import opened Events
  import opened Replay
  import opened ReplayLaws
  import opened Ledger
  import opened Lifecycle
  import opened Plans
  import opened EvaluationPlans
  import opened Commands

  /** What one run feeds the ledger after creating its manifest. */
  datatype Script = Script(
    startedAt: int, task: ArtifactRef, requestId: string, maximum: BudgetUsage, returnedModel: string,
    usage: BudgetUsage, patch: ArtifactRef, input: EvaluationInput)

  datatype Stage = Made | Begun | Tasked | Sent | Replied

  function ResponseOf(x: Script): Response {
    Response(x.requestId, x.returnedModel, x.usage, x.patch, x.usage, ZERO)
  }

  /** The call the runner makes at each stage, with its budget authority's figures. */
  function CallAt(m: RunManifest, x: Script, k: Stage): Command {
    match k
    case Made => Start(x.startedAt, m.identity.requestedModel)
    case Begun => Record(TaskSpec, x.task)
    case Tasked => Request(x.requestId, x.maximum, ZERO, x.maximum)
    case Sent => Respond(ResponseOf(x))
    case Replied => Evaluate(x.input)
  }

  /** The verdict is well formed, fits its status and carries the final figures. */
  predicate FitVerdict(x: Script) {
    var q := x.input;
    && IsTerminal(q.status) && EvidenceRoles(q.artifacts.Keys) && q.outcome.Some? && StatusMatchesOutcome(q.status, q.outcome)
    && q.used == x.usage && q.reserved == ZERO && (forall r :: r in q.artifacts ==> CanonicalReference(q.artifacts[r]))
    && Sha256Field(q.resultSha256) && x.startedAt <= q.finishedAt && (q.status == Succeeded <==> q.terminalReason == None)
    && (q.terminalReason.Some? ==> NonEmptyText(q.terminalReason.value))
  }

  /** What a caller can check before the run: times in order, one call within the
      limits, a trimmed model name, canonical references and a fitting verdict. */
  predicate Playable(m: RunManifest, x: Script) {
    && m.identity.createdAt <= x.startedAt && CanonicalReference(x.task) && CanonicalReference(x.patch)
    && !Blank(x.requestId) && x.maximum.modelCalls == 1 && Within(x.maximum, m.identity.limits)
    && AtMost(x.usage, x.maximum) && x.usage.modelCalls == 1 && NonEmptyText(x.returnedModel) && FitVerdict(x)
  }

  /** What the calls before the request need of it. */
  predicate Openable(m: RunManifest, x: Script) {
    m.identity.createdAt <= x.startedAt && CanonicalReference(x.task)
  }

  /** The call at this stage can be made. */
  predicate Ready(m: RunManifest, x: Script, k: Stage) {
    Openable(m, x) && Carried(m, x, k)
  }

  predicate Carried(m: RunManifest, x: Script, k: Stage) {
    k == Made || k == Begun || Playable(m, x)
  }

  /** How far the run has come. */
  predicate Reached(v: RunRows, s: ReplayState, m: RunManifest, x: Script, k: Stage) {
    var n := v.row.manifest;
    && n.identity == m.identity && v.budget.limits == m.identity.limits
    && (k == Made ==> n.status == Pending && n.artifacts == map[])
    && (k != Made ==> n.status == Running && n.startedAt == Some(x.startedAt))
    && match k
       case Made => s.requestState == NotStarted
       case Begun => s.requestState == NotStarted && n.artifacts == map[]
       case Tasked => s.requestState == NotStarted && n.artifacts.Keys == {TaskSpec}
       case Sent =>
         && s.requestState == Started && s.requestId == Some(x.requestId) && s.requestMaximum == Some(x.maximum)
         && n.artifacts.Keys == {TaskSpec}
       case Replied => s.requestState == Completed && n.artifacts.Keys == {TaskSpec, Patch} && v.budget.used == x.usage
  }

  // ------------------------------------------------------------------ enabledness

  /** Before the request is settled the stored figures are those of the request. */
  lemma StoredFigures(v: RunRows, m: Machine)
    requires Basis(v, m)
    ensures m.state.requestState == NotStarted ==> v.budget.used == ZERO && v.budget.reserved == ZERO
    ensures m.state.requestState == Started ==> v.budget.used == ZERO && Some(v.budget.reserved) == m.state.requestMaximum
    ensures m.state.requestState == Completed ==> v.budget.reserved == ZERO
  {}

  lemma NothingAdded(u: BudgetUsage)
    ensures Add(ZERO, u) == u && Add(u, ZERO) == u
  {
    AddZero(u);
  }

  lemma TaskedIsEnabled(v: RunRows, a: Machine, m: RunManifest, x: Script)
    requires Basis(v, a) && Reached(v, a.state, m, x, Tasked) && Playable(m, x)
    ensures CanRequest(v, a.state, x.requestId, x.maximum, ZERO, x.maximum)
  {
    StoredFigures(v, a);
    NothingAdded(x.maximum);
  }

  lemma SentIsEnabled(v: RunRows, a: Machine, m: RunManifest, x: Script)
    requires Basis(v, a) && Reached(v, a.state, m, x, Sent) && Playable(m, x)
    ensures CanRespond(v, a.state, ResponseOf(x))
  {
    StoredFigures(v, a);
    NothingAdded(x.usage);
    SubtractUndoesAdd(ZERO, x.maximum);
  }

  lemma RepliedIsEnabled(v: RunRows, a: Machine, m: RunManifest, x: Script)
    requires Basis(v, a) && Reached(v, a.state, m, x, Replied) && Playable(m, x)
    ensures CanEvaluate(v, a.state, x.input)
  {
    StoredFigures(v, a);
    assert x.input.artifacts.Keys !! {TaskSpec, Patch};
  }

  /** At every stage the ledger accepts the runner's next call. */
  lemma ReachedIsEnabled(v: RunRows, a: Machine, m: RunManifest, x: Script, k: Stage)
    requires Basis(v, a) && Reached(v, a.state, m, x, k) && Ready(m, x, k)
    ensures Enabled(v, a.state, CallAt(m, x, k))
  {
    match k
    case Made =>
    case Begun =>
    case Tasked => TaskedIsEnabled(v, a, m, x);
    case Sent => SentIsEnabled(v, a, m, x);
    case Replied => RepliedIsEnabled(v, a, m, x);
  }

  // --------------------------------------------------------------------- advancing

  function After(k: Stage): Stage {
    match k
    case Made => Begun
    case Begun => Tasked
    case Tasked => Sent
    case Sent => Replied
    case Replied => Replied
  }

  /** What a performed call makes of the stored state. */
  lemma PerformedMachine(hash: ContentHash, t: Tables, u: Tables, run: string, c: Command)
    requires Performed(hash, t, u, run, c) && Sound(hash, run, t[run])
    ensures Sound(hash, run, u[run]) && Fold(run, u[run].events).Accepted?
    ensures var plan := PlanOf(t[run], MachineOf(run, t[run]).state, c);
            && Turns(MachineOf(run, t[run]), plan.bodies) == Accepted(MachineOf(run, u[run]))
            && u[run].row.manifest == plan.manifest && u[run].budget == BudgetRow(t[run].budget.limits, plan.used, plan.reserved)
  {
    var plan := PlanOf(t[run], MachineOf(run, t[run]).state, c);
    PerformedRunIsSound(hash, run, t[run], u[run], c);
    AppliedFold(hash, run, t[run], u[run], plan);
    PlansKeepIdentity(t[run], MachineOf(run, t[run]).state, c);
  }

  lemma StartTurnKeepsRequest(a: Machine, body: Body, b: Machine)
    requires body.RunStarted? || body.ArtifactRecorded?
    requires Turns(a, [body]) == Accepted(b)
    ensures b.state.requestState == a.state.requestState
  {
    TurnsSingle(a, body);
  }

  lemma RequestTurnSends(v: RunRows, a: Machine, m: RunManifest, x: Script, b: Machine)
    requires Basis(v, a) && Reached(v, a.state, m, x, Tasked) && Playable(m, x)
    requires Turns(a, RequestPlan(v, x.requestId, x.maximum, ZERO, x.maximum).bodies) == Accepted(b)
    ensures b.state.requestState == Started && b.state.requestId == Some(x.requestId)
    ensures b.state.requestMaximum == Some(x.maximum)
  {
    assert a.state.artifacts.Keys == {TaskSpec};
    RequestTurns(a, x.requestId, x.maximum);
  }

  lemma ResponseTurnAnswers(v: RunRows, a: Machine, m: RunManifest, x: Script, b: Machine)
    requires Basis(v, a) && Reached(v, a.state, m, x, Sent) && Playable(m, x)
    requires Turns(a, ResponseBodies(ResponseOf(x))) == Accepted(b)
    ensures b.state.requestState == Completed
  {
    SentIsEnabled(v, a, m, x);
    RespondTurns(v, a, ResponseOf(x));
  }

  /** The rows hold what the plan wrote. */
  predicate Wrote(v: RunRows, w: RunRows, plan: Plan) {
    w.row.manifest == plan.manifest && w.budget == BudgetRow(v.budget.limits, plan.used, plan.reserved)
  }

  lemma StartAdvances(v: RunRows, a: Machine, w: RunRows, b: Machine, m: RunManifest, x: Script)
    requires Basis(v, a) && Reached(v, a.state, m, x, Made)
    requires var plan := StartPlan(v, x.startedAt, m.identity.requestedModel);
             Wrote(v, w, plan) && Turns(a, plan.bodies) == Accepted(b)
    ensures Reached(w, b.state, m, x, Begun)
  {
    StartTurnKeepsRequest(a, RunStarted(Text(m.identity.requestedModel)), b);
  }

  lemma RecordAdvances(v: RunRows, a: Machine, w: RunRows, b: Machine, m: RunManifest, x: Script)
    requires Basis(v, a) && Reached(v, a.state, m, x, Begun)
    requires var plan := RecordPlan(v, TaskSpec, x.task); Wrote(v, w, plan) && Turns(a, plan.bodies) == Accepted(b)
    ensures Reached(w, b.state, m, x, Tasked)
  {
    StartTurnKeepsRequest(a, RecordedBody(TaskSpec, x.task), b);
  }

  lemma RequestAdvances(v: RunRows, a: Machine, w: RunRows, b: Machine, m: RunManifest, x: Script)
    requires Basis(v, a) && Reached(v, a.state, m, x, Tasked) && Playable(m, x)
    requires var plan := RequestPlan(v, x.requestId, x.maximum, ZERO, x.maximum);
             Wrote(v, w, plan) && Turns(a, plan.bodies) == Accepted(b)
    ensures Reached(w, b.state, m, x, Sent)
  {
    RequestTurnSends(v, a, m, x, b);
  }

  lemma ResponseAdvances(v: RunRows, a: Machine, w: RunRows, b: Machine, m: RunManifest, x: Script)
    requires Basis(v, a) && Reached(v, a.state, m, x, Sent) && Playable(m, x)
    requires var plan := ResponsePlan(v, ResponseOf(x)); Wrote(v, w, plan) && Turns(a, plan.bodies) == Accepted(b)
    ensures Reached(w, b.state, m, x, Replied)
  {
    ResponseTurnAnswers(v, a, m, x, b);
  }

  /** A performed call takes the run to the next stage, and the last one ends it with
      the verdict's status. */
  lemma CallsAdvance(hash: ContentHash, t: Tables, u: Tables, m: RunManifest, x: Script, k: Stage)
    requires SoundLedger(hash, t) && Performed(hash, t, u, m.runId, CallAt(m, x, k)) && Ready(m, x, k)
    requires Reached(t[m.runId], MachineOf(m.runId, t[m.runId]).state, m, x, k)
    ensures Fold(m.runId, u[m.runId].events).Accepted?
    ensures k != Replied ==> Reached(u[m.runId], MachineOf(m.runId, u[m.runId]).state, m, x, After(k))
    ensures k == Replied ==> u[m.runId].row.manifest.status == x.input.status
  {
    assert Sound(hash, m.runId, t[m.runId]);
    PerformedMachine(hash, t, u, m.runId, CallAt(m, x, k));
    SoundRunsHaveABasis(hash, m.runId, t[m.runId]);
    var v, a, w, b := t[m.runId], MachineOf(m.runId, t[m.runId]), u[m.runId], MachineOf(m.runId, u[m.runId]);
    match k
    case Made => StartAdvances(v, a, w, b, m, x);
    case Begun => RecordAdvances(v, a, w, b, m, x);
    case Tasked => RequestAdvances(v, a, w, b, m, x);
    case Sent => ResponseAdvances(v, a, w, b, m, x);
    case Replied =>
  }

  // ----------------------------------------------------------------------- theorem

  function StageNumber(n: nat): Stage {
    if n == 0 then Made else if n == 1 then Begun else if n == 2 then Tasked else if n == 3 then Sent else Replied
  }

  /** The ledgers of a run from before its creation on, call after call. */
  ghost predicate Plays(hash: ContentHash, states: seq<Tables>, m: RunManifest, x: Script) {
    && 2 <= |states| <= 7 && SoundLedger(hash, states[0]) && ValidManifest(m) && CanCreate(states[0], m)
    && Created(hash, states[0], states[1], m)
    && forall i :: 2 <= i < |states| ==> Performed(hash, states[i - 1], states[i], m.runId, CallAt(m, x, StageNumber(i - 2)))
  }

  ghost predicate Stands(hash: ContentHash, t: Tables, m: RunManifest, x: Script, k: Stage) {
    && SoundLedger(hash, t) && m.runId in t && Fold(m.runId, t[m.runId].events).Accepted?
    && Reached(t[m.runId], MachineOf(m.runId, t[m.runId]).state, m, x, k)
  }

  lemma CreationStands(hash: ContentHash, t: Tables, u: Tables, m: RunManifest, x: Script)
    requires SoundLedger(hash, t) && CanCreate(t, m) && Created(hash, t, u, m)
    ensures Stands(hash, u, m, x, Made)
  {
    CreatedKeepsSound(hash, t, u, m);
    FreshRowsReplay(hash, u[m.runId], m);
    CreationTurn(m, m.runId);
  }

  lemma CallStands(hash: ContentHash, t: Tables, u: Tables, m: RunManifest, x: Script, k: Stage)
    requires Stands(hash, t, m, x, k) && k != Replied && Ready(m, x, k)
    requires Performed(hash, t, u, m.runId, CallAt(m, x, k))
    ensures Stands(hash, u, m, x, After(k))
  {
    PerformedKeepsSound(hash, t, u, m.runId, CallAt(m, x, k));
    CallsAdvance(hash, t, u, m, x, k);
  }

  lemma NextStageNumber(n: nat)
    requires n < 4
    ensures StageNumber(n) != Replied && StageNumber(n + 1) == After(StageNumber(n))
  {}

  lemma PlayedCall(hash: ContentHash, states: seq<Tables>, m: RunManifest, x: Script, i: nat)
    requires Plays(hash, states, m, x) && 2 <= i < |states|
    ensures Performed(hash, states[i - 1], states[i], m.runId, CallAt(m, x, StageNumber(i - 2)))
  {}

  lemma {:induction false} PlayedStands(hash: ContentHash, states: seq<Tables>, m: RunManifest, x: Script, i: nat)
    requires Plays(hash, states, m, x) && Playable(m, x) && 1 <= i < |states| && i <= 5
    ensures Stands(hash, states[i], m, x, StageNumber(i - 1))
  {
    if i == 1 {
      CreationStands(hash, states[0], states[1], m, x);
    } else {
      PlayedStands(hash, states, m, x, i - 1);
      PlayedCall(hash, states, m, x, i);
      NextStageNumber(i - 2);
      CallStands(hash, states[i - 1], states[i], m, x, StageNumber(i - 2));
    }
  }

  lemma StandingIsEnabled(hash: ContentHash, t: Tables, m: RunManifest, x: Script, k: Stage)
    requires Stands(hash, t, m, x, k) && Ready(m, x, k)
    ensures Enabled(t[m.runId], MachineOf(m.runId, t[m.runId]).state, CallAt(m, x, k))
  {
    assert Sound(hash, m.runId, t[m.runId]);
    SoundRunsHaveABasis(hash, m.runId, t[m.runId]);
    ReachedIsEnabled(t[m.runId], MachineOf(m.runId, t[m.runId]), m, x, k);
  }

  /** A call of the runner's that does what its command says is taken, and takes the run
      one stage further; the last one gives it the verdict's status. */
  lemma CallIsTaken(hash: ContentHash, t: Tables, u: Tables, m: RunManifest, x: Script, k: Stage, taken: bool)
    requires Stands(hash, t, m, x, k) && Ready(m, x, k)
    requires Enabled(t[m.runId], MachineOf(m.runId, t[m.runId]).state, CallAt(m, x, k)) ==> taken
    requires taken ==> Performed(hash, t, u, m.runId, CallAt(m, x, k))
    ensures taken && m.runId in u
    ensures k != Replied ==> Stands(hash, u, m, x, After(k))
    ensures k == Replied ==> u[m.runId].row.manifest.status == x.input.status
  {
    StandingIsEnabled(hash, t, m, x, k);
    if k == Replied {
      CallsAdvance(hash, t, u, m, x, k);
    } else {
      CallStands(hash, t, u, m, x, k);
    }
  }

  /** However far a run has come, the ledger does not refuse the runner's next call. In
      particular a reservation within the limits is never refused by the ledger's own
      budget checks. */
  lemma RunnersCallsAreNeverRefused(hash: ContentHash, states: seq<Tables>, m: RunManifest, x: Script)
    requires Plays(hash, states, m, x) && Playable(m, x) && |states| < 7
    ensures var t := states[|states| - 1];
            && m.runId in t && Fold(m.runId, t[m.runId].events).Accepted?
            && Enabled(t[m.runId], MachineOf(m.runId, t[m.runId]).state, CallAt(m, x, StageNumber(|states| - 2)))
  {
    PlayedStands(hash, states, m, x, |states| - 1);
    StandingIsEnabled(hash, states[|states| - 1], m, x, StageNumber(|states| - 2));
  }

  /** After the last call the run has the verdict's status. */
  lemma PlayedRunsFinish(hash: ContentHash, states: seq<Tables>, m: RunManifest, x: Script)
    requires Plays(hash, states, m, x) && Playable(m, x) && |states| == 7
    ensures m.runId in states[6] && states[6][m.runId].row.manifest.status == x.input.status
  {
    PlayedStands(hash, states, m, x, 5);
    PlayedCall(hash, states, m, x, 6);
    CallsAdvance(hash, states[5], states[6], m, x, Replied);
  }
}
