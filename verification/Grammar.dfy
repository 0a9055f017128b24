/** Which streams replay accepts, and to what state, said of the events alone: what
    each event may follow, without the machine that replays them. */
module Grammar {
  import opened Text
  import opened Usage
  import opened Events
  import opened Replay
  import opened ReplayLaws
  import opened Ledger

  // ---------------------------------------------------------- what has happened

  datatype Kind = OfStart | OfRequest | OfResponse | OfLoss | OfJudgment | OfClose | OfOther

  function KindOf(b: Body): Kind {
    match b
    case RunStarted(_) => OfStart
    case RequestStarted(_, _) => OfRequest
    case ResponseCompleted(_, _, _) => OfResponse
    case RequestAmbiguous(_) => OfLoss
    case EvaluationCompleted(_, _, _) => OfJudgment
    case RunTerminal(_, _, _, _) => OfClose
    case _ => OfOther
  }

  /** The last event of this kind. */
  function Last(p: seq<Body>, k: Kind): (b: Option<Body>)
    ensures b.Some? ==> KindOf(b.value) == k
  {
    if p == [] then None else if KindOf(p[|p| - 1]) == k then Some(p[|p| - 1]) else Last(p[..|p| - 1], k)
  }

  function Kept(p: seq<Body>): set<Role> {
    set i | 0 <= i < |p| && p[i].ArtifactRecorded? && p[i].role.Some? :: p[i].role.value
  }

  function Missing(p: seq<Body>): set<Role> {
    set i | 0 <= i < |p| && p[i].ArtifactNotProduced? && p[i].role.Some? :: p[i].role.value
  }

  /** What has been charged: the reported usage, the whole maximum of a lost request. */
  function Charged(p: seq<Body>): BudgetUsage {
    match Last(p, OfResponse)
    case Some(ResponseCompleted(_, Some(actual), _)) => actual
    case _ => if Last(p, OfLoss).Some? then Asked(p) else ZERO
  }

  /** What is held for a request whose fate is still open. */
  function Held(p: seq<Body>): BudgetUsage {
    if Last(p, OfResponse) == None && Last(p, OfLoss) == None then Asked(p) else ZERO
  }

  function Asked(p: seq<Body>): BudgetUsage {
    match Last(p, OfRequest)
    case Some(RequestStarted(_, Some(maximum))) => maximum
    case _ => ZERO
  }

  /** A request or its outcome calls for the budget at once. */
  predicate CallsForBudget(p: seq<Body>) {
    p != [] && KindOf(p[|p| - 1]) in {OfRequest, OfResponse, OfLoss}
  }

  // -------------------------------------------------------- what may come next

  predicate MayOpen(b: Body) {
    b.RunCreated? && b.status == Some(Pending)
    && var c := b.creation;
       && NonBlank(c.candidateId) && NonBlank(c.codeRevision) && NonBlank(c.experimentId)
       && NonBlank(c.requestedModel) && NonBlank(c.taskId)
       && c.environmentDigest.Text? && IsSha256Digest(c.environmentDigest.text)
       && (c.genomeHash == Absent || (c.genomeHash.Text? && IsSha256(c.genomeHash.text)))
       && c.seed.Some? && 0 <= c.seed.value && c.modelParameters.Some? && c.limits.Some?
  }

  predicate MayStart(p: seq<Body>, model: Field)
    requires p != []
  {
    Last(p, OfStart) == None && p[0].RunCreated? && model == p[0].creation.requestedModel
  }

  predicate MayRequest(p: seq<Body>, requestId: Field, maximum: Option<BudgetUsage>) {
    && Last(p, OfStart).Some? && Last(p, OfRequest) == None && Kept(p) == {TaskSpec}
    && NonBlank(requestId) && maximum.Some? && maximum.value.modelCalls == 1
  }

  /** The one request is open, and this is its identifier. */
  predicate IsOpen(p: seq<Body>, requestId: Field) {
    && Last(p, OfRequest).Some? && Last(p, OfResponse) == None && Last(p, OfLoss) == None
    && requestId == Last(p, OfRequest).value.requestId
  }

  predicate MayRespond(p: seq<Body>, requestId: Field, actual: Option<BudgetUsage>, model: Field) {
    IsOpen(p, requestId) && actual.Some? && actual.value.modelCalls == 1 && AtMost(actual.value, Asked(p)) && NonBlank(model)
  }

  /** With these roles recorded it is this one's turn. */
  predicate InTurn(kept: set<Role>, role: Role) {
    match role
    case TaskSpec => kept == {}
    case Patch => kept == {TaskSpec}
    case Stdout => kept == {TaskSpec, Patch}
    case Stderr => kept == {TaskSpec, Patch, Stdout}
    case CandidateStdout => kept == {TaskSpec, Patch, Stdout, Stderr}
    case ScorerStdout => kept == {TaskSpec, Patch, Stdout, Stderr, CandidateStdout}
    case Evaluation =>
      || kept == {TaskSpec, Patch, Stdout, Stderr}
      || kept == {TaskSpec, Patch, Stdout, Stderr, CandidateStdout}
      || kept == {TaskSpec, Patch, Stdout, Stderr, CandidateStdout, ScorerStdout}
    case UnknownRole(_) => false
  }

  predicate MayRecord(p: seq<Body>, role: Role, r: ReferencePayload) {
    && Last(p, OfStart).Some? && (if role == TaskSpec then Last(p, OfRequest) == None else Last(p, OfResponse).Some?)
    && role !in Missing(p) && InTurn(Kept(p), role)
    && NonBlank(r.mediaType) && r.sha256.Text? && IsSha256(r.sha256.text) && r.sizeBytes.Some? && 0 <= r.sizeBytes.value
    && r.storageRef.Text? && Strip(r.storageRef.text) == "sha256/" + r.sha256.text[..2] + "/" + r.sha256.text
  }

  predicate MayMiss(p: seq<Body>, role: Role, reason: Field) {
    role in {TaskSpec, Patch, Stdout, Stderr, Evaluation} && role !in Kept(p) && role !in Missing(p) && NonBlank(reason)
  }

  predicate MayJudge(p: seq<Body>, outcome: Option<Outcome>, result: Field) {
    && Evaluation in Kept(p) && Last(p, OfJudgment) == None
    && outcome in {Some(Passed), Some(NotPassed), Some(Errored)} && result.Text? && IsSha256(result.text)
  }

  function Judgment(p: seq<Body>): Option<Outcome> {
    match Last(p, OfJudgment)
    case Some(EvaluationCompleted(outcome, _, _)) => outcome
    case _ => None
  }

  /** The statuses a run can end in after such a judgment, or without one. */
  function Ends(outcome: Option<Outcome>): set<RunStatus> {
    match outcome
    case None => {Cancelled, BudgetExhausted, InfrastructureError}
    case Some(Passed) => {Succeeded}
    case Some(NotPassed) => {Failed, TimedOut}
    case Some(Errored) => {InfrastructureError}
    case Some(UnknownOutcome(_)) => {}
  }

  predicate MayClose(p: seq<Body>, status: RunStatus, outcome: Option<Outcome>, reason: Field) {
    && (Last(p, OfRequest).Some? ==> Last(p, OfResponse).Some? || Last(p, OfLoss).Some?)
    && outcome == Judgment(p) && status in Ends(outcome)
    && (if status == Succeeded then reason == Absent else NonBlank(reason))
    && (Last(p, OfLoss).Some? ==> status == InfrastructureError && reason == Text("ambiguous_model_request"))
  }

  /** The event may follow these. */
  predicate Follows(p: seq<Body>, b: Body) {
    if p == [] then MayOpen(b)
    else
      && Last(p, OfClose) == None && (CallsForBudget(p) ==> b.BudgetSnapshot?)
      && match b
         case RunCreated(_, _) => false
         case RunStarted(model) => MayStart(p, model)
         case RequestStarted(id, maximum) => MayRequest(p, id, maximum)
         case ResponseCompleted(id, actual, model) => MayRespond(p, id, actual, model)
         case RequestAmbiguous(id) => IsOpen(p, id)
         case BudgetSnapshot(used, reserved) => used == Some(Charged(p)) && reserved == Some(Held(p))
         case ArtifactRecorded(role, r) => role.Some? && MayRecord(p, role.value, r)
         case ArtifactNotProduced(role, reason) => role.Some? && MayMiss(p, role.value, reason)
         case EvaluationCompleted(outcome, result, _) => MayJudge(p, outcome, result)
         case RunTerminal(status, outcome, reason, _) => status.Some? && MayClose(p, status.value, outcome, reason)
         case Unrecognized(_, _) => false
  }

  predicate Lawful(p: seq<Body>) {
    forall i {:trigger p[..i]} :: 0 <= i < |p| ==> Follows(p[..i], p[i])
  }

  // --------------------------------------------------- the machine is a mirror

  function TextOf(f: Field): Option<string> {
    if f.Text? then Some(f.text) else None
  }

  function StatusTold(p: seq<Body>): RunStatus {
    match Last(p, OfClose)
    case Some(RunTerminal(Some(status), _, _, _)) => status
    case _ => if Last(p, OfStart).Some? then Running else Pending
  }

  function ReasonTold(p: seq<Body>): Option<string> {
    match Last(p, OfClose) case Some(RunTerminal(_, _, reason, _)) => TextOf(reason) case _ => None
  }

  function ModelTold(p: seq<Body>): Option<string> {
    match Last(p, OfResponse) case Some(ResponseCompleted(_, _, model)) => TextOf(model) case _ => None
  }

  predicate StatusMirrors(p: seq<Body>, s: ReplayState) {
    && s.status == StatusTold(p) && s.terminalReason == ReasonTold(p)
    && s.outcome == Judgment(p)
    && s.requestedModel == (if p != [] && p[0].RunCreated? then TextOf(p[0].creation.requestedModel) else None)
  }

  predicate RequestMirrors(p: seq<Body>, s: ReplayState) {
    && s.requestState == (if Last(p, OfRequest) == None then NotStarted
                          else if Last(p, OfResponse).Some? then Completed
                          else if Last(p, OfLoss).Some? then Ambiguous else Started)
    && s.requestId == (match Last(p, OfRequest) case Some(RequestStarted(id, _)) => TextOf(id) case _ => None)
    && s.requestMaximum == (match Last(p, OfRequest) case Some(RequestStarted(_, maximum)) => maximum case _ => None)
    && s.returnedModel == ModelTold(p)
    && s.artifacts.Keys == Kept(p) && s.absent.Keys == Missing(p) && s.eventCount == |p|
  }

  /** Each role is bound to the digest its event gave, or absent for that event's reason. */
  predicate ArtifactMirrors(b: Body, s: ReplayState) {
    && (b.ArtifactRecorded? && b.role.Some? ==> b.role.value in s.artifacts && Some(s.artifacts[b.role.value]) == TextOf(b.reference.sha256))
    && (b.ArtifactNotProduced? && b.role.Some? ==> b.role.value in s.absent && Some(s.absent[b.role.value]) == TextOf(b.reason))
  }

  predicate ArtifactsMirror(p: seq<Body>, s: ReplayState) {
    forall i {:trigger ArtifactMirrors(p[i], s)} :: 0 <= i < |p| ==> ArtifactMirrors(p[i], s)
  }

  /** The budget is settled, or the next snapshot will settle it to this. */
  predicate BudgetMirrors(p: seq<Body>, m: Machine) {
    if CallsForBudget(p) then
      && m.pending.Some?
      && (m.pending.value.kind == Reconcile ==> m.pending.value.amount == Charged(p))
    else m.pending == None && m.state.used == Charged(p) && m.state.reserved == Held(p)
  }

  /** The events so far hang together: an outcome has its request, and so on. */
  predicate Orderly(p: seq<Body>) {
    && (p != [] ==> p[0].RunCreated? && NonBlank(p[0].creation.requestedModel))
    && (Last(p, OfRequest).Some? ==> Last(p, OfStart).Some? && NonBlank(Last(p, OfRequest).value.requestId)
                                     && Last(p, OfRequest).value.maximum.Some?)
    && (Last(p, OfResponse).Some? ==> Last(p, OfRequest).Some? && Last(p, OfResponse).value.actual.Some? && Last(p, OfLoss) == None)
    && (Last(p, OfLoss).Some? ==> Last(p, OfRequest).Some?)
    && (Last(p, OfJudgment).Some? ==> Last(p, OfJudgment).value.outcome.Some?)
    && (Last(p, OfClose).Some? ==> Last(p, OfClose).value.status.Some? && IsTerminal(Last(p, OfClose).value.status.value))
    && (Kept(p) != {} ==> Last(p, OfStart).Some?)
  }

  ghost predicate Mirrors(p: seq<Body>, m: Machine) {
    && Consistent(m) && (m.created <==> p != []) && Orderly(p)
    && StatusMirrors(p, m.state) && RequestMirrors(p, m.state) && BudgetMirrors(p, m)
    && ArtifactsMirror(p, m.state)
  }

  lemma OneMore(p: seq<Body>, b: Body)
    ensures forall k :: Last(p + [b], k) == if KindOf(b) == k then Some(b) else Last(p, k)
    ensures Kept(p + [b]) == Kept(p) + (if b.ArtifactRecorded? && b.role.Some? then {b.role.value} else {})
    ensures Missing(p + [b]) == Missing(p) + (if b.ArtifactNotProduced? && b.role.Some? then {b.role.value} else {})
    ensures CallsForBudget(p + [b]) <==> KindOf(b) in {OfRequest, OfResponse, OfLoss}
    ensures p != [] ==> (p + [b])[0] == p[0]
  {
    var all := p + [b];
    assert all[..|p|] == p && all[|p|] == b;
    assert forall i :: 0 <= i < |p| ==> all[i] == p[i];
  }

  /** Whether replay takes the event next, and what it then shows. */
  ghost predicate Agrees(p: seq<Body>, m: Machine, sequence: nat, b: Body) {
    && (Turn(m, sequence, b).Accepted? <==> Follows(p, b))
    && (Turn(m, sequence, b).Accepted? ==> Mirrors(p + [b], Turn(m, sequence, b).value))
  }

  lemma ClosedAgrees(p: seq<Body>, m: Machine, sequence: nat, b: Body)
    requires Mirrors(p, m) && p != []
    requires Last(p, OfClose).Some? || (CallsForBudget(p) && !b.BudgetSnapshot?) || b.RunCreated? || b.Unrecognized?
    ensures Agrees(p, m, sequence, b)
  {}

  lemma OpeningAgrees(m: Machine, b: Body)
    requires Mirrors([], m)
    ensures Agrees([], m, 0, b)
  {
    OneMore([], b);
    assert m == Initial(m.state.runId);
    if b.RunCreated? && b.creation.environmentDigest.Text? && IsSha256Digest(b.creation.environmentDigest.text) {
      Sha256DigestIsNotBlank(b.creation.environmentDigest.text);
    }
    if Turn(m, 0, b).Accepted? { TurnKeepsConsistency(m, 0, b); }
    assert [] + [b] == [b];
  }

  /** Nothing is over, nothing is owed, and the event is none of the excluded. */
  ghost predicate Usual(p: seq<Body>, m: Machine, b: Body) {
    && Mirrors(p, m) && p != [] && Last(p, OfClose) == None && !b.RunCreated? && !b.Unrecognized?
    && (CallsForBudget(p) ==> b.BudgetSnapshot?)
  }

  lemma TurnMirrorsArtifact(m: Machine, sequence: nat, b: Body, earlier: Body)
    requires ApplyBody(m, sequence, b).Accepted?
    ensures var s := Counted(ApplyBody(m, sequence, b).value).state;
            ArtifactMirrors(b, s) && (ArtifactMirrors(earlier, m.state) ==> ArtifactMirrors(earlier, s))
  {}

  lemma ArtifactsStay(p: seq<Body>, m: Machine, sequence: nat, b: Body)
    requires ArtifactsMirror(p, m.state) && ApplyBody(m, sequence, b).Accepted?
    ensures ArtifactsMirror(p + [b], Counted(ApplyBody(m, sequence, b).value).state)
  {
    var all, s := p + [b], Counted(ApplyBody(m, sequence, b).value).state;
    forall i | 0 <= i < |all| ensures ArtifactMirrors(all[i], s) {
      TurnMirrorsArtifact(m, sequence, b, if i < |p| then p[i] else b);
      if i < |p| { assert ArtifactMirrors(p[i], m.state); }
    }
  }

  /** The event is taken exactly when it may follow, and what it leaves is mirrored. */
  lemma UsualAgrees(p: seq<Body>, m: Machine, sequence: nat, b: Body, v: Verdict<Machine>)
    requires Usual(p, m, b) && v == ApplyBody(m, sequence, b) && (v.Accepted? <==> Follows(p, b))
    requires v.Accepted? ==> Parts(p + [b], Counted(v.value))
    ensures Agrees(p, m, sequence, b)
  {
    assert !IsTerminal(m.state.status) && (m.pending.Some? ==> b.BudgetSnapshot?);
    if v.Accepted? {
      TurnKeepsConsistency(m, sequence, b);
      ArtifactsStay(p, m, sequence, b);
    }
  }

  predicate Parts(p: seq<Body>, m: Machine) {
    Orderly(p) && StatusMirrors(p, m.state) && RequestMirrors(p, m.state) && BudgetMirrors(p, m)
  }

  // ------------------------------------------------------------ event by event

  lemma StartAgrees(p: seq<Body>, m: Machine, b: Body)
    requires Usual(p, m, b) && b.RunStarted?
    ensures ApplyStarted(m, b).Accepted? <==> MayStart(p, b.requestedModel)
    ensures ApplyStarted(m, b).Accepted? ==> Parts(p + [b], Counted(ApplyStarted(m, b).value))
  {
    OneMore(p, b);
  }

  lemma RequestAgrees(p: seq<Body>, m: Machine, b: Body)
    requires Usual(p, m, b) && b.RequestStarted?
    ensures ApplyRequest(m, b).Accepted? <==> MayRequest(p, b.requestId, b.maximum)
    ensures ApplyRequest(m, b).Accepted? ==> Parts(p + [b], Counted(ApplyRequest(m, b).value))
  {
    OneMore(p, b);
  }

  lemma ResponseAgrees(p: seq<Body>, m: Machine, b: Body)
    requires Usual(p, m, b) && b.ResponseCompleted?
    ensures ApplyResponse(m, b).Accepted? <==> MayRespond(p, b.requestId, b.actual, b.returnedModel)
    ensures ApplyResponse(m, b).Accepted? ==> Parts(p + [b], Counted(ApplyResponse(m, b).value))
  {
    OneMore(p, b);
  }

  lemma LossAgrees(p: seq<Body>, m: Machine, b: Body)
    requires Usual(p, m, b) && b.RequestAmbiguous?
    ensures ApplyAmbiguous(m, b).Accepted? <==> IsOpen(p, b.requestId)
    ensures ApplyAmbiguous(m, b).Accepted? ==> Parts(p + [b], Counted(ApplyAmbiguous(m, b).value))
  {
    OneMore(p, b);
  }

  /** The charge and the reservation that the machine's next snapshot reports. */
  function Due(m: Machine): (BudgetUsage, BudgetUsage) {
    if m.pending == None then (m.state.used, m.state.reserved)
    else
      match m.pending.value.kind
      case Reserve => (ZERO, m.pending.value.amount)
      case Reconcile => (m.pending.value.amount, ZERO)
      case Ambiguously => (m.pending.value.reservedBefore, ZERO)
  }

  lemma SettledIsDue(m: Machine, used: Option<BudgetUsage>, reserved: Option<BudgetUsage>)
    requires m.pending == None
    ensures ApplySnapshot(m, used, reserved).Accepted? <==> used == Some(Due(m).0) && reserved == Some(Due(m).1)
  {}

  /** What a snapshot owed for this transition must report, and only that. */
  lemma OwedIsDue(m: Machine, t: BudgetTransition, used: BudgetUsage, reserved: BudgetUsage)
    requires m.pending == Some(t) && PendingBudget(m.state, t)
    ensures ApplySnapshot(m, Some(used), Some(reserved)).Accepted? <==> used == Due(m).0 && reserved == Due(m).1
  {
    assert AtMost(m.state.used, used);
    match t.kind {
      case Reserve => AddZeroOnce(t.amount);
      case Reconcile =>
        AddZeroOnce(t.amount);
        NothingRemains(t.reservedBefore);
      case Ambiguously => AddZeroOnce(t.reservedBefore);
    }
  }

  lemma AddZeroOnce(a: BudgetUsage)
    ensures Add(ZERO, a) == a
  {
    AddZero(a);
  }

  lemma NothingRemains(a: BudgetUsage)
    ensures Subtract(a, a) == Some(ZERO)
  {
    SubtractUndoesAdd(ZERO, a);
  }

  lemma SnapshotIsDue(m: Machine, used: Option<BudgetUsage>, reserved: Option<BudgetUsage>)
    requires m.pending.Some? ==> PendingBudget(m.state, m.pending.value)
    ensures ApplySnapshot(m, used, reserved).Accepted? <==> used == Some(Due(m).0) && reserved == Some(Due(m).1)
  {
    if m.pending == None {
      SettledIsDue(m, used, reserved);
    } else if used.Some? && reserved.Some? {
      OwedIsDue(m, m.pending.value, used.value, reserved.value);
    }
  }

  lemma DueIsTold(p: seq<Body>, m: Machine)
    requires Mirrors(p, m) && p != [] && Last(p, OfClose) == None
    ensures Due(m) == (Charged(p), Held(p))
  {
    if m.pending.Some? { assert PendingBudget(m.state, m.pending.value); }
  }

  /** The one charge and the one reservation a snapshot can report here. */
  lemma SnapshotIsFixed(p: seq<Body>, m: Machine, used: Option<BudgetUsage>, reserved: Option<BudgetUsage>)
    requires Mirrors(p, m) && p != [] && Last(p, OfClose) == None
    ensures ApplySnapshot(m, used, reserved).Accepted? <==> used == Some(Charged(p)) && reserved == Some(Held(p))
  {
    DueIsTold(p, m);
    SnapshotIsDue(m, used, reserved);
  }

  lemma SnapshotAgrees(p: seq<Body>, m: Machine, b: Body)
    requires Usual(p, m, b) && b.BudgetSnapshot?
    requires ApplySnapshot(m, b.used, b.reserved).Accepted? <==> b.used == Some(Charged(p)) && b.reserved == Some(Held(p))
    ensures ApplySnapshot(m, b.used, b.reserved).Accepted? ==> Parts(p + [b], Counted(ApplySnapshot(m, b.used, b.reserved).value))
  {
    OneMore(p, b);
  }

  lemma PositionAgrees(s: ReplayState, role: Role)
    requires ArtifactOrder(s)
    ensures role !in s.artifacts && InPosition(s.artifacts.Keys, role) <==> InTurn(s.artifacts.Keys, role)
  {
    var recorded := s.artifacts.Keys;
    if role == Evaluation && EVIDENCE_PREDECESSORS <= recorded && Evaluation !in recorded {
      assert Bound(s, ScorerStdout) ==> Bound(s, CandidateStdout);
      if ScorerStdout in recorded {
        assert recorded == {TaskSpec, Patch, Stdout, Stderr, CandidateStdout, ScorerStdout};
      } else if CandidateStdout in recorded {
        assert recorded == {TaskSpec, Patch, Stdout, Stderr, CandidateStdout};
      } else {
        assert recorded == {TaskSpec, Patch, Stdout, Stderr};
      }
    }
  }

  lemma ReferenceAgrees(r: ReferencePayload)
    ensures ValidReference(r) <==>
      && NonBlank(r.mediaType) && r.sha256.Text? && IsSha256(r.sha256.text) && r.sizeBytes.Some? && 0 <= r.sizeBytes.value
      && r.storageRef.Text? && Strip(r.storageRef.text) == "sha256/" + r.sha256.text[..2] + "/" + r.sha256.text
  {
    if r.storageRef.Text? { StripFacts(r.storageRef.text); }
  }

  lemma RecordIsTaken(p: seq<Body>, m: Machine, b: Body)
    requires Usual(p, m, b) && b.ArtifactRecorded?
    ensures ApplyRecorded(m, b).Accepted? <==> b.role.Some? && MayRecord(p, b.role.value, b.reference)
  {
    ReferenceAgrees(b.reference);
    if b.role.Some? { PositionAgrees(m.state, b.role.value); }
  }

  lemma RecordAgrees(p: seq<Body>, m: Machine, b: Body)
    requires Usual(p, m, b) && b.ArtifactRecorded? && ApplyRecorded(m, b).Accepted?
    ensures Parts(p + [b], Counted(ApplyRecorded(m, b).value))
  {
    OneMore(p, b);
  }

  lemma MissAgrees(p: seq<Body>, m: Machine, b: Body)
    requires Usual(p, m, b) && b.ArtifactNotProduced?
    ensures ApplyNotProduced(m, b).Accepted? <==> b.role.Some? && MayMiss(p, b.role.value, b.reason)
    ensures ApplyNotProduced(m, b).Accepted? ==> Parts(p + [b], Counted(ApplyNotProduced(m, b).value))
  {
    OneMore(p, b);
  }

  lemma JudgeIsTaken(p: seq<Body>, m: Machine, b: Body)
    requires Usual(p, m, b) && b.EvaluationCompleted?
    ensures ApplyEvaluated(m, b).Accepted? <==> MayJudge(p, b.outcome, b.resultSha256)
  {
    var s := m.state;
    assert Bound(s, Evaluation) <==> Evaluation in Kept(p);
    if Bound(s, Evaluation) {
      assert Bound(s, Stderr) && Bound(s, Stdout) && Bound(s, Patch);
      assert Evaluation in s.artifacts.Keys;
    }
  }

  lemma JudgeAgrees(p: seq<Body>, m: Machine, b: Body)
    requires Usual(p, m, b) && b.EvaluationCompleted? && ApplyEvaluated(m, b).Accepted?
    ensures Parts(p + [b], Counted(ApplyEvaluated(m, b).value))
  {
    OneMore(p, b);
  }

  lemma CloseIsTaken(p: seq<Body>, m: Machine, b: Body)
    requires Usual(p, m, b) && b.RunTerminal?
    ensures ApplyTerminal(m, b).Accepted? <==> b.status.Some? && MayClose(p, b.status.value, b.evaluationOutcome, b.terminalReason)
  {}

  lemma CloseAgrees(p: seq<Body>, m: Machine, b: Body)
    requires Usual(p, m, b) && b.RunTerminal? && ApplyTerminal(m, b).Accepted?
    ensures Parts(p + [b], Counted(ApplyTerminal(m, b).value))
  {
    OneMore(p, b);
  }

  lemma TurnAgrees(p: seq<Body>, m: Machine, sequence: nat, b: Body)
    requires Mirrors(p, m) && (p == [] ==> sequence == 0)
    ensures Agrees(p, m, sequence, b)
  {
    if p == [] {
      OpeningAgrees(m, b);
    } else if Last(p, OfClose).Some? || (CallsForBudget(p) && !b.BudgetSnapshot?) || b.RunCreated? || b.Unrecognized? {
      ClosedAgrees(p, m, sequence, b);
    } else {
      UsualEventAgrees(p, m, sequence, b);
    }
  }

  lemma UsualEventAgrees(p: seq<Body>, m: Machine, sequence: nat, b: Body)
    requires Usual(p, m, b)
    ensures Agrees(p, m, sequence, b)
  {
    var v := ApplyBody(m, sequence, b);
    match b {
      case RunStarted(_) => StartAgrees(p, m, b);
      case RequestStarted(_, _) => RequestAgrees(p, m, b);
      case ResponseCompleted(_, _, _) => ResponseAgrees(p, m, b);
      case RequestAmbiguous(_) => LossAgrees(p, m, b);
      case BudgetSnapshot(used, reserved) =>
        SnapshotIsFixed(p, m, used, reserved);
        SnapshotAgrees(p, m, b);
      case ArtifactRecorded(_, _) =>
        RecordIsTaken(p, m, b);
        if v.Accepted? { RecordAgrees(p, m, b); }
      case ArtifactNotProduced(_, _) => MissAgrees(p, m, b);
      case EvaluationCompleted(_, _, _) =>
        JudgeIsTaken(p, m, b);
        if v.Accepted? { JudgeAgrees(p, m, b); }
      case RunTerminal(_, _, _, _) =>
        CloseIsTaken(p, m, b);
        if v.Accepted? { CloseAgrees(p, m, b); }
    }
    UsualAgrees(p, m, sequence, b, v);
  }

  // ------------------------------------------------------------- whole streams

  function Told(events: seq<EventRecord>): seq<Body> {
    seq(|events|, i requires 0 <= i < |events| => events[i].body)
  }

  predicate OfOneRun(events: seq<EventRecord>, run: string) {
    forall i :: 0 <= i < |events| ==> events[i].runId == run
  }

  lemma LawfulOneMore(p: seq<Body>, b: Body)
    ensures Lawful(p + [b]) <==> Lawful(p) && Follows(p, b)
  {
    var all := p + [b];
    assert all[..|p|] == p && all[|p|] == b;
    forall i | 0 <= i < |p| ensures all[..i] == p[..i] && all[i] == p[i] {}
    if Lawful(all) {
      forall i | 0 <= i < |p| ensures Follows(p[..i], p[i]) { assert Follows(all[..i], all[i]); }
      assert Follows(all[..|p|], all[|p|]);
    }
    if Lawful(p) && Follows(p, b) {
      forall i | 0 <= i < |all| ensures Follows(all[..i], all[i]) {
        if i < |p| { assert Follows(p[..i], p[i]); }
      }
    }
  }

  lemma {:induction false} FoldIsLawful(run: string, events: seq<EventRecord>)
    requires events != [] ==> events[0].sequence == 0
    ensures Fold(run, events).Accepted? <==> OfOneRun(events, run) && Lawful(Told(events))
    ensures Fold(run, events).Accepted? ==> Mirrors(Told(events), Fold(run, events).value)
  {
    if events == [] {
      InitialIsConsistent(run);
    } else {
      var before, e := events[..|events| - 1], events[|events| - 1];
      FoldIsLawful(run, before);
      assert Told(events) == Told(before) + [e.body];
      LawfulOneMore(Told(before), e.body);
      assert OfOneRun(events, run) <==> OfOneRun(before, run) && e.runId == run by {
        assert events == before + [e];
      }
      if Fold(run, before).Accepted? {
        FoldIsConsistent(run, before);
        TurnAgrees(Told(before), Fold(run, before).value, e.sequence, e.body);
      }
    }
  }

  /** The events up to the last whose effect on the budget has been taken. */
  function Booked(p: seq<Body>): seq<Body> {
    if CallsForBudget(p) then p[..|p| - 1] else p
  }

  /** What the events of a stream say of the run, read off them directly. */
  ghost predicate Reads(p: seq<Body>, s: ReplayState) {
    && StatusMirrors(p, s) && RequestMirrors(p, s) && ArtifactsMirror(p, s)
    && s.used == Charged(Booked(p)) && s.reserved == Held(Booked(p))
  }

  lemma LawfulPrefix(p: seq<Body>)
    requires Lawful(p) && p != []
    ensures Follows(p[..|p| - 1], p[|p| - 1])
    ensures p[..|p| - 1] + [p[|p| - 1]] == p
  {}

  lemma OrderlyOneMore(p: seq<Body>, b: Body)
    requires Orderly(p) && Follows(p, b)
    ensures Orderly(p + [b])
  {
    OneMore(p, b);
    if p == [] { assert [] + [b] == [b]; }
  }

  lemma {:induction false} LawfulIsOrderly(p: seq<Body>)
    requires Lawful(p)
    ensures Orderly(p)
  {
    if p != [] {
      var front, b := p[..|p| - 1], p[|p| - 1];
      LawfulPrefix(p);
      LawfulOneMore(front, b);
      LawfulIsOrderly(front);
      OrderlyOneMore(front, b);
    }
  }

  /** A request, a response or a loss has not changed the figures yet. */
  lemma MirrorsRead(p: seq<Body>, m: Machine)
    requires Mirrors(p, m) && Lawful(p)
    ensures Reads(p, m.state)
  {
    if CallsForBudget(p) {
      var front, b := p[..|p| - 1], p[|p| - 1];
      LawfulPrefix(p);
      OneMore(front, b);
      LawfulOneMore(front, b);
      LawfulIsOrderly(front);
      assert PendingBudget(m.state, m.pending.value);
      FrontFigures(p, front, b, m.state, m.pending.value);
    }
  }

  lemma FrontFigures(p: seq<Body>, front: seq<Body>, b: Body, s: ReplayState, t: BudgetTransition)
    requires p == front + [b] && KindOf(b) in {OfRequest, OfResponse, OfLoss} && front != [] && Follows(front, b)
    requires forall k {:trigger Last(p, k)} :: Last(p, k) == if KindOf(b) == k then Some(b) else Last(front, k)
    requires RequestMirrors(p, s) && PendingBudget(s, t) && Orderly(front)
    ensures s.used == Charged(front) && s.reserved == Held(front)
  {
    assert Last(p, OfRequest) == if KindOf(b) == OfRequest then Some(b) else Last(front, OfRequest);
    assert Last(p, OfResponse) == if KindOf(b) == OfResponse then Some(b) else Last(front, OfResponse);
    assert Last(p, OfLoss) == if KindOf(b) == OfLoss then Some(b) else Last(front, OfLoss);
  }

  /** The stream is over, with every expected role recorded or declared missing. */
  predicate Complete(p: seq<Body>) {
    Last(p, OfClose).Some? && {TaskSpec, Patch, Stdout, Stderr, Evaluation} <= Kept(p) + Missing(p)
  }

  lemma ClosedOutIsComplete(p: seq<Body>, m: Machine)
    requires Mirrors(p, m)
    ensures ClosedOut(m) <==> Complete(p)
  {
    if Last(p, OfClose).Some? {
      assert IsTerminal(m.state.status);
      assert EXPECTED_ARTIFACTS == {TaskSpec, Patch, Stdout, Stderr, Evaluation};
    }
  }

  /** Replay accepts exactly the well-chained streams of one run in which each event
      may follow those before it, and returns what the events say. */
  lemma AcceptsExactlyLawfulStreams(hash: ContentHash, events: seq<EventRecord>, requireTerminal: bool)
    ensures Replayed(hash, events, requireTerminal).Accepted? <==>
            && events != [] && Chained(hash, events) && OfOneRun(events, events[0].runId) && Lawful(Told(events))
            && (requireTerminal ==> Complete(Told(events)))
    ensures Replayed(hash, events, requireTerminal).Accepted? ==>
              Reads(Told(events), Replayed(hash, events, requireTerminal).value)
              && Replayed(hash, events, requireTerminal).value.runId == events[0].runId
  {
    if events != [] && Chained(hash, events) {
      assert Linked(hash, events, 0);
      FoldIsLawful(events[0].runId, events);
      if Fold(events[0].runId, events).Accepted? {
        FoldIsConsistent(events[0].runId, events);
        MirrorsRead(Told(events), Fold(events[0].runId, events).value);
        ClosedOutIsComplete(Told(events), Fold(events[0].runId, events).value);
      }
    }
  }

  // ------------------------------------------------------------------ stored rows

  predicate BoundAs(b: Body, artifacts: map<Role, ArtifactRef>) {
    b.ArtifactRecorded? && b.role.Some? ==>
      b.role.value in artifacts && b.reference.sha256 == Text(artifacts[b.role.value].sha256)
  }

  /** The manifest binds exactly the recorded roles, each to the digest recorded. */
  predicate Binds(p: seq<Body>, artifacts: map<Role, ArtifactRef>) {
    artifacts.Keys == Kept(p) && forall i {:trigger BoundAs(p[i], artifacts)} :: 0 <= i < |p| ==> BoundAs(p[i], artifacts)
  }

  lemma BindsMeans(p: seq<Body>, s: ReplayState, artifacts: map<Role, ArtifactRef>)
    requires RequestMirrors(p, s) && ArtifactsMirror(p, s)
    ensures s.artifacts == Digests(artifacts) <==> Binds(p, artifacts)
  {
    if s.artifacts == Digests(artifacts) {
      assert artifacts.Keys == Digests(artifacts).Keys;
      forall i | 0 <= i < |p| ensures BoundAs(p[i], artifacts) { assert ArtifactMirrors(p[i], s); }
    }
    if Binds(p, artifacts) {
      assert s.artifacts.Keys == Digests(artifacts).Keys;
      forall role | role in s.artifacts ensures s.artifacts[role] == Digests(artifacts)[role] {
        assert role in Kept(p);
        var i :| 0 <= i < |p| && p[i].ArtifactRecorded? && p[i].role == Some(role);
        assert ArtifactMirrors(p[i], s) && BoundAs(p[i], artifacts);
      }
    }
  }

  /** The manifest and the budget index say what the events say. */
  ghost predicate RowsTell(p: seq<Body>, m: RunManifest, b: BudgetRow) {
    && p != [] && p[0] == CreationBody(m)
    && b == BudgetRow(m.identity.limits, Charged(Booked(p)), Held(Booked(p)))
    && m.status == StatusTold(p) && Binds(p, m.artifacts) && m.returnedModel == ModelTold(p)
    && (IsTerminal(m.status) ==> Complete(p) && m.terminalReason == ReasonTold(p))
  }

  lemma AgreementIsTold(p: seq<Body>, s: ReplayState, m: RunManifest, b: BudgetRow)
    requires Reads(p, s)
    ensures AgreesWithReplay(s, m, b) <==>
      && m.status == StatusTold(p) && Binds(p, m.artifacts) && m.returnedModel == ModelTold(p)
      && b.used == Charged(Booked(p)) && b.reserved == Held(Booked(p))
  {
    BindsMeans(p, s, m.artifacts);
  }

  lemma StateIsTold(hash: ContentHash, v: RunRows)
    requires BudgetLoads(v) && Replayed(hash, v.events, false).Accepted?
    ensures ValidatedState(hash, v).Accepted? <==>
      v.events[0].body == CreationBody(v.row.manifest)
      && AgreesWithReplay(Replayed(hash, v.events, false).value, v.row.manifest, v.budget)
  {}

  /** The stored rows of a run verify exactly when its history is one of allowed
      transitions, its stream is a lawful chain, and its rows say what the events say. */
  lemma VerifiedRowsTellTheEvents(hash: ContentHash, v: RunRows)
    ensures RunVerifies(hash, v) <==>
      && v.row.status == v.row.manifest.status && HistoryValid(v)
      && v.events != [] && Chained(hash, v.events) && OfOneRun(v.events, v.events[0].runId) && Lawful(Told(v.events))
      && RowsTell(Told(v.events), v.row.manifest, v.budget)
  {
    var p := Told(v.events);
    AcceptsExactlyLawfulStreams(hash, v.events, false);
    AcceptsExactlyLawfulStreams(hash, v.events, true);
    if Replayed(hash, v.events, false).Accepted? {
      var s := Replayed(hash, v.events, false).value;
      AgreementIsTold(p, s, v.row.manifest, v.budget);
      if BudgetLoads(v) { StateIsTold(hash, v); }
      assert s.terminalReason == ReasonTold(p);
    }
  }
}
