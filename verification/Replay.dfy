/** Deterministic replay of one run's event stream. */
module Replay {
  import opened Text
  import opened Usage
  import opened Events

  datatype Verdict<+T> = Accepted(value: T) | Rejected

  const EXPECTED_ARTIFACTS := {Evaluation, Stderr, Stdout, Patch, TaskSpec}
  const EVIDENCE_PREDECESSORS := {Stderr, Stdout, Patch, TaskSpec}
  const OPTIONAL_ARTIFACTS := {CandidateStdout, ScorerStdout}
  const AMBIGUOUS_REASON := "ambiguous_model_request"

  datatype RequestState = NotStarted | Started | Completed | Ambiguous

  datatype ReplayState = ReplayState(
    runId: string, status: RunStatus, used: BudgetUsage, reserved: BudgetUsage,
    artifacts: map<Role, string>, absent: map<Role, string>, outcome: Option<Outcome>,
    requestedModel: Option<string>, requestId: Option<string>, requestState: RequestState,
    requestMaximum: Option<BudgetUsage>, returnedModel: Option<string>,
    terminalReason: Option<string>, eventCount: nat)

  datatype TransitionKind = Reserve | Reconcile | Ambiguously

  datatype BudgetTransition = BudgetTransition(
    kind: TransitionKind, usedBefore: BudgetUsage, reservedBefore: BudgetUsage, amount: BudgetUsage)

  /** The variables the replay loop carries from event to event. */
  datatype Machine = Machine(state: ReplayState, created: bool, pending: Option<BudgetTransition>)

  function Initial(runId: string): Machine {
    Machine(
      ReplayState(runId, Pending, ZERO, ZERO, map[], map[], None, None, None, NotStarted, None, None, None, 0),
      false, None)
  }

  // ---------------------------------------------------------------- payloads

  predicate ValidCreation(c: Creation) {
    && NonBlank(c.candidateId) && NonBlank(c.codeRevision) && NonBlank(c.experimentId)
    && NonBlank(c.requestedModel) && NonBlank(c.taskId)
    && NonBlank(c.environmentDigest) && IsSha256Digest(c.environmentDigest.text)
    && (c.genomeHash.Absent? || Sha256Field(c.genomeHash))
    && c.seed.Some? && c.seed.value >= 0
    && c.modelParameters.Some? && c.limits.Some?
  }

  function CanonicalRef(sha256: string): string
    requires |sha256| >= 2
  {
    "sha256/" + sha256[..2] + "/" + sha256
  }

  predicate ValidReference(r: ReferencePayload) {
    && NonBlank(r.mediaType) && Sha256Field(r.sha256)
    && r.sizeBytes.Some? && r.sizeBytes.value >= 0
    && NonBlank(r.storageRef) && Strip(r.storageRef.text) == CanonicalRef(r.sha256.text)
  }

  // ------------------------------------------------------------- transitions

  predicate InPosition(recorded: set<Role>, role: Role) {
    match role
    case TaskSpec => recorded == {}
    case Patch => recorded == {TaskSpec}
    case Stdout => recorded == {Patch, TaskSpec}
    case Stderr => recorded == {Stdout, Patch, TaskSpec}
    case CandidateStdout => recorded == EVIDENCE_PREDECESSORS
    case ScorerStdout => recorded == EVIDENCE_PREDECESSORS + {CandidateStdout}
    case Evaluation =>
      EVIDENCE_PREDECESSORS <= recorded && recorded - EVIDENCE_PREDECESSORS <= OPTIONAL_ARTIFACTS
    case UnknownRole(_) => false
  }

  predicate StatusMatchesOutcome(status: RunStatus, outcome: Option<Outcome>) {
    match outcome
    case None => status in {Cancelled, BudgetExhausted, InfrastructureError}
    case Some(Passed) => status == Succeeded
    case Some(NotPassed) => status in {Failed, TimedOut}
    case Some(Errored) => status == InfrastructureError
    case Some(UnknownOutcome(_)) => false
  }

  function ApplySnapshot(m: Machine, used: Option<BudgetUsage>, reserved: Option<BudgetUsage>): Verdict<Machine> {
    if used == None || reserved == None || !AtMost(m.state.used, used.value) then Rejected
    else
      var consistent :=
        if m.pending == None then
          used.value == m.state.used && reserved.value == m.state.reserved
        else
          var t := m.pending.value;
          match t.kind
          case Reserve =>
            used.value == t.usedBefore && reserved.value == Add(t.reservedBefore, t.amount)
          case Reconcile =>
            && m.state.requestMaximum.Some?
            && used.value == Add(t.usedBefore, t.amount)
            && Subtract(t.reservedBefore, m.state.requestMaximum.value) == Some(reserved.value)
          case Ambiguously =>
            used.value == Add(t.usedBefore, t.reservedBefore) && reserved.value == ZERO;
      if consistent then
        Accepted(m.(state := m.state.(used := used.value, reserved := reserved.value), pending := None))
      else Rejected
  }

  function ApplyCreated(m: Machine, sequence: nat, b: Body): Verdict<Machine>
    requires b.RunCreated?
  {
    if m.created || sequence != 0 || b.status != Some(Pending) || !ValidCreation(b.creation) then Rejected
    else Accepted(m.(created := true, state := m.state.(requestedModel := Some(b.creation.requestedModel.text))))
  }

  function ApplyStarted(m: Machine, b: Body): Verdict<Machine>
    requires b.RunStarted?
  {
    if m.state.status != Pending || !NonBlank(b.requestedModel)
       || Some(b.requestedModel.text) != m.state.requestedModel then Rejected
    else Accepted(m.(state := m.state.(status := Running)))
  }

  function ApplyRequest(m: Machine, b: Body): Verdict<Machine>
    requires b.RequestStarted?
  {
    var s := m.state;
    if s.status != Running || s.requestState != NotStarted || s.artifacts.Keys != {TaskSpec}
       || !NonBlank(b.requestId) || b.maximum == None || b.maximum.value.modelCalls != 1 then Rejected
    else Accepted(Machine(
      s.(requestId := Some(b.requestId.text), requestMaximum := b.maximum, requestState := Started),
      m.created, Some(BudgetTransition(Reserve, s.used, s.reserved, b.maximum.value))))
  }

  function ApplyResponse(m: Machine, b: Body): Verdict<Machine>
    requires b.ResponseCompleted?
  {
    var s := m.state;
    if s.status != Running || s.requestState != Started
       || !NonBlank(b.requestId) || Some(b.requestId.text) != s.requestId
       || b.actual == None || b.actual.value.modelCalls != 1
       || s.requestMaximum == None || !AtMost(b.actual.value, s.requestMaximum.value)
       || !NonBlank(b.returnedModel) then Rejected
    else Accepted(Machine(
      s.(returnedModel := Some(b.returnedModel.text), requestState := Completed),
      m.created, Some(BudgetTransition(Reconcile, s.used, s.reserved, b.actual.value))))
  }

  function ApplyAmbiguous(m: Machine, b: Body): Verdict<Machine>
    requires b.RequestAmbiguous?
  {
    var s := m.state;
    if s.status != Running || s.requestState != Started
       || !NonBlank(b.requestId) || Some(b.requestId.text) != s.requestId then Rejected
    else Accepted(Machine(
      s.(requestState := Ambiguous), m.created,
      Some(BudgetTransition(Ambiguously, s.used, s.reserved, s.reserved))))
  }

  function ApplyRecorded(m: Machine, b: Body): Verdict<Machine>
    requires b.ArtifactRecorded?
  {
    var s := m.state;
    if s.status != Running || b.role == None
       || b.role.value in s.artifacts || b.role.value in s.absent
       || !ValidReference(b.reference)
       || !InPosition(s.artifacts.Keys, b.role.value)
       || (b.role.value == TaskSpec && s.requestState != NotStarted)
       || (b.role.value != TaskSpec && s.requestState != Completed) then Rejected
    else Accepted(m.(state := s.(artifacts := s.artifacts[b.role.value := b.reference.sha256.text])))
  }

  function ApplyNotProduced(m: Machine, b: Body): Verdict<Machine>
    requires b.ArtifactNotProduced?
  {
    var s := m.state;
    if b.role == None || !NonBlank(b.reason) || b.role.value !in EXPECTED_ARTIFACTS
       || b.role.value in s.artifacts || b.role.value in s.absent then Rejected
    else Accepted(m.(state := s.(absent := s.absent[b.role.value := b.reason.text])))
  }

  function ApplyEvaluated(m: Machine, b: Body): Verdict<Machine>
    requires b.EvaluationCompleted?
  {
    var s := m.state;
    if s.status != Running || s.requestState != Completed || s.outcome != None
       || !({Evaluation, Stderr, Stdout, Patch} <= s.artifacts.Keys)
       || b.outcome == None || b.outcome.value.UnknownOutcome?
       || !Sha256Field(b.resultSha256) then Rejected
    else Accepted(m.(state := s.(outcome := b.outcome)))
  }

  function ApplyTerminal(m: Machine, b: Body): Verdict<Machine>
    requires b.RunTerminal?
  {
    var s := m.state;
    if b.status == None then Rejected
    else
      var status := b.status.value;
      var reason := if b.terminalReason.Text? then Some(b.terminalReason.text) else None;
      if !IsTerminal(status) || s.requestState == Started
         || (status in {Succeeded, Failed, TimedOut} && s.outcome == None)
         || b.evaluationOutcome != s.outcome
         || !StatusMatchesOutcome(status, s.outcome)
         || (!b.terminalReason.Absent? && !NonBlank(b.terminalReason))
         || (status == Succeeded && reason.Some?)
         || (status != Succeeded && reason == None)
         || (s.requestState == Ambiguous &&
             (status != InfrastructureError || reason != Some(AMBIGUOUS_REASON))) then Rejected
      else Accepted(m.(state := s.(status := status, terminalReason := reason)))
  }

  function ApplyBody(m: Machine, sequence: nat, b: Body): Verdict<Machine> {
    if b.RunCreated? then ApplyCreated(m, sequence, b)
    else if !m.created then Rejected
    else match b
      case RunStarted(_) => ApplyStarted(m, b)
      case RequestStarted(_, _) => ApplyRequest(m, b)
      case ResponseCompleted(_, _, _) => ApplyResponse(m, b)
      case RequestAmbiguous(_) => ApplyAmbiguous(m, b)
      case BudgetSnapshot(used, reserved) => ApplySnapshot(m, used, reserved)
      case ArtifactRecorded(_, _) => ApplyRecorded(m, b)
      case ArtifactNotProduced(_, _) => ApplyNotProduced(m, b)
      case EvaluationCompleted(_, _, _) => ApplyEvaluated(m, b)
      case RunTerminal(_, _, _, _) => ApplyTerminal(m, b)
      case Unrecognized(_, _) => Rejected
  }

  function Counted(m: Machine): Machine {
    m.(state := m.state.(eventCount := m.state.eventCount + 1))
  }

  /** One turn of the replay loop on an event that belongs to the run. */
  function Turn(m: Machine, sequence: nat, b: Body): Verdict<Machine> {
    if IsTerminal(m.state.status) || (m.pending.Some? && !b.BudgetSnapshot?) then Rejected
    else
      var v := ApplyBody(m, sequence, b);
      if v.Rejected? then Rejected else Accepted(Counted(v.value))
  }

  function Step(m: Machine, e: EventRecord): Verdict<Machine> {
    if e.runId != m.state.runId then Rejected else Turn(m, e.sequence, e.body)
  }

  /** The replay loop over a whole stream. */
  function Fold(runId: string, events: seq<EventRecord>): Verdict<Machine> {
    if events == [] then Accepted(Initial(runId))
    else
      var before := Fold(runId, events[..|events| - 1]);
      if before.Rejected? then Rejected else Step(before.value, events[|events| - 1])
  }

  // -------------------------------------------------------------- hash chain

  /** Contiguous sequence numbers, unused event IDs, and each record naming its
      predecessor by identifier and content hash. */
  predicate Linked(hash: ContentHash, events: seq<EventRecord>, i: nat)
    requires i < |events|
  {
    && events[i].sequence == i
    && (forall j :: 0 <= j < i ==> events[j].eventId != events[i].eventId)
    && if i == 0 then events[0].previousHash == None && events[0].causalParents == []
       else
         && events[i].previousHash == Some(hash(events[i - 1]))
         && events[i].causalParents == [events[i - 1].eventId]
  }

  predicate Chained(hash: ContentHash, events: seq<EventRecord>) {
    forall i :: 0 <= i < |events| ==> Linked(hash, events, i)
  }

  method VerifyEventChain(hash: ContentHash, events: seq<EventRecord>) returns (ok: bool)
    ensures ok <==> Chained(hash, events)
  {
    var seen: set<string> := {};
    var i := 0;
    while i < |events|
      invariant 0 <= i <= |events|
      invariant forall j :: 0 <= j < i ==> Linked(hash, events, j)
      invariant seen == set j | 0 <= j < i :: events[j].eventId
    {
      var e := events[i];
      var linked :=
        && e.sequence == i
        && e.eventId !in seen
        && if i == 0 then e.previousHash == None && e.causalParents == []
           else e.previousHash == Some(hash(events[i - 1])) && e.causalParents == [events[i - 1].eventId];
      assert linked <==> Linked(hash, events, i);
      if !linked {
        return false;
      }
      seen := seen + {e.eventId};
      i := i + 1;
    }
    return true;
  }

  // ------------------------------------------------------------------ replay

  predicate FullyAccounted(s: ReplayState) {
    EXPECTED_ARTIFACTS <= s.artifacts.Keys + s.absent.Keys
  }

  /** What a caller that requires a terminal stream checks after the loop. */
  predicate ClosedOut(m: Machine) {
    && m.pending == None && IsTerminal(m.state.status) && m.state.reserved == ZERO
    && m.state.requestState != Started && FullyAccounted(m.state)
  }

  function Replayed(hash: ContentHash, events: seq<EventRecord>, requireTerminal: bool): Verdict<ReplayState> {
    if events == [] || !Chained(hash, events) then Rejected
    else
      var v := Fold(events[0].runId, events);
      if v.Rejected? || !v.value.created || (requireTerminal && !ClosedOut(v.value)) then Rejected
      else Accepted(v.value.state)
  }

  method ReplayEvents(hash: ContentHash, events: seq<EventRecord>, requireTerminal: bool)
    returns (r: Verdict<ReplayState>)
    ensures r == Replayed(hash, events, requireTerminal)
  {
    if events == [] {
      return Rejected;
    }
    var chained := VerifyEventChain(hash, events);
    if !chained {
      return Rejected;
    }
    var machine := Initial(events[0].runId);
    var i := 0;
    while i < |events|
      invariant 0 <= i <= |events|
      invariant Fold(events[0].runId, events[..i]) == Accepted(machine)
    {
      assert events[..i + 1][..i] == events[..i];
      var next := Step(machine, events[i]);
      if next.Rejected? {
        FoldRejectsExtensions(events[0].runId, events, i + 1);
        return Rejected;
      }
      machine := next.value;
      i := i + 1;
    }
    assert events[..i] == events;
    if !machine.created || (requireTerminal && !ClosedOut(machine)) {
      return Rejected;
    }
    return Accepted(machine.state);
  }

  /** A rejected prefix makes every longer stream rejected. */
  lemma {:induction false} FoldRejectsExtensions(runId: string, events: seq<EventRecord>, n: nat)
    requires n <= |events| && Fold(runId, events[..n]).Rejected?
    ensures Fold(runId, events).Rejected?
    decreases |events|
  {
    if n == |events| {
      assert events[..n] == events;
    } else {
      assert events[..|events| - 1][..n] == events[..n];
      FoldRejectsExtensions(runId, events[..|events| - 1], n);
    }
  }
}
