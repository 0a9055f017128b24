/** What replay guarantees of every stream it accepts, whoever wrote the stream. */
module ReplayLaws {
  import opened Text
  import opened Usage
  import opened Events
  import opened Replay

  // ------------------------------------------------------- the loop invariant

  predicate Bound(s: ReplayState, role: Role) {
    role in s.artifacts
  }

  /** The roles are bound in one order, with the two optional transcripts between
      the evaluation streams and the evaluation record. */
  predicate ArtifactOrder(s: ReplayState) {
    && s.artifacts.Keys <= EXPECTED_ARTIFACTS + OPTIONAL_ARTIFACTS
    && (Bound(s, Patch) ==> Bound(s, TaskSpec))
    && (Bound(s, Stdout) ==> Bound(s, Patch))
    && (Bound(s, Stderr) ==> Bound(s, Stdout))
    && (Bound(s, CandidateStdout) ==> Bound(s, Stderr))
    && (Bound(s, ScorerStdout) ==> Bound(s, CandidateStdout))
    && (Bound(s, Evaluation) ==> Bound(s, Stderr))
  }

  predicate RequestPhase(s: ReplayState) {
    && (s.requestState == NotStarted ==> s.artifacts.Keys <= {TaskSpec})
    && (s.requestState in {Started, Ambiguous} ==> s.artifacts.Keys == {TaskSpec})
    && (s.requestState == Completed ==> Bound(s, TaskSpec))
    && (s.requestState == NotStarted <==> s.requestMaximum == None)
    && (s.requestState == NotStarted <==> s.requestId == None)
    && (s.requestId.Some? ==> !Blank(s.requestId.value))
    && (s.requestMaximum.Some? ==> s.requestMaximum.value.modelCalls == 1)
    && (s.requestState == Completed <==> s.returnedModel.Some?)
    && (s.returnedModel.Some? ==> !Blank(s.returnedModel.value))
    && (s.outcome.Some? ==>
          s.requestState == Completed && Bound(s, Evaluation) && !s.outcome.value.UnknownOutcome?)
  }

  /** Once no transition is outstanding the budget is a function of the request. */
  predicate SettledBudget(s: ReplayState) {
    match s.requestState
    case NotStarted => s.used == ZERO && s.reserved == ZERO
    case Started => s.used == ZERO && Some(s.reserved) == s.requestMaximum
    case Completed =>
      && s.reserved == ZERO && s.used.modelCalls == 1
      && s.requestMaximum.Some? && AtMost(s.used, s.requestMaximum.value)
    case Ambiguous => s.reserved == ZERO && Some(s.used) == s.requestMaximum
  }

  predicate PendingBudget(s: ReplayState, t: BudgetTransition) {
    && s.used == ZERO && t.usedBefore == ZERO && t.reservedBefore == s.reserved
    && s.requestMaximum.Some?
    && match t.kind
       case Reserve => s.requestState == Started && s.reserved == ZERO && t.amount == s.requestMaximum.value
       case Reconcile =>
         && s.requestState == Completed && s.reserved == s.requestMaximum.value
         && t.amount.modelCalls == 1 && AtMost(t.amount, s.requestMaximum.value)
       case Ambiguously => s.requestState == Ambiguous && s.reserved == s.requestMaximum.value
  }

  predicate StatusPhase(m: Machine) {
    var s := m.state;
    && (s.status == Pending ==> s.requestState == NotStarted && s.artifacts == map[])
    && (s.status == Running ==> s.terminalReason == None)
    && (s.status == Pending ==> s.terminalReason == None)
    && (IsTerminal(s.status) ==>
          && m.pending == None && s.requestState != Started
          && StatusMatchesOutcome(s.status, s.outcome)
          && (s.status == Succeeded <==> s.terminalReason == None)
          && (s.terminalReason.Some? ==> !Blank(s.terminalReason.value))
          && (s.requestState == Ambiguous ==>
                s.status == InfrastructureError && s.terminalReason == Some(AMBIGUOUS_REASON)))
  }

  predicate Consistent(m: Machine) {
    var s := m.state;
    && ArtifactOrder(s) && RequestPhase(s) && StatusPhase(m)
    && s.absent.Keys <= EXPECTED_ARTIFACTS
    && s.artifacts.Keys !! s.absent.Keys
    && (if m.pending == None then SettledBudget(s) else PendingBudget(s, m.pending.value))
    && (m.created <==> s.eventCount > 0)
    && (!m.created ==> m == Initial(s.runId))
    && (m.created ==> s.requestedModel.Some? && !Blank(s.requestedModel.value))
  }

  /** Events that neither touch the budget nor the artifacts' order. */
  lemma StatusKeepsConsistency(m: Machine, sequence: nat, b: Body)
    requires Consistent(m) && ApplyBody(m, sequence, b).Accepted?
    requires !IsTerminal(m.state.status) && m.pending == None
    requires b.RunCreated? || b.RunStarted? || b.RunTerminal?
    ensures Consistent(Counted(ApplyBody(m, sequence, b).value))
  {}

  lemma RequestKeepsConsistency(m: Machine, sequence: nat, b: Body)
    requires Consistent(m) && ApplyBody(m, sequence, b).Accepted?
    requires !IsTerminal(m.state.status) && m.pending == None
    requires b.RequestStarted? || b.ResponseCompleted? || b.RequestAmbiguous?
    ensures Consistent(Counted(ApplyBody(m, sequence, b).value))
  {}

  lemma SnapshotSettles(m: Machine, used: Option<BudgetUsage>, reserved: Option<BudgetUsage>)
    requires Consistent(m) && m.created && ApplySnapshot(m, used, reserved).Accepted?
    ensures var n := ApplySnapshot(m, used, reserved).value;
            n.pending == None && SettledBudget(n.state)
  {}

  lemma SnapshotKeepsConsistency(m: Machine, sequence: nat, b: Body)
    requires Consistent(m) && ApplyBody(m, sequence, b).Accepted? && b.BudgetSnapshot?
    requires !IsTerminal(m.state.status)
    ensures Consistent(Counted(ApplyBody(m, sequence, b).value))
  {
    SnapshotSettles(m, b.used, b.reserved);
  }

  lemma RecordingKeepsOrder(m: Machine, b: Body)
    requires Consistent(m) && b.ArtifactRecorded? && ApplyRecorded(m, b).Accepted?
    ensures var s := ApplyRecorded(m, b).value.state;
            ArtifactOrder(s) && RequestPhase(s) && s.artifacts.Keys == m.state.artifacts.Keys + {b.role.value}
  {}

  lemma EvidenceKeepsConsistency(m: Machine, sequence: nat, b: Body)
    requires Consistent(m) && ApplyBody(m, sequence, b).Accepted?
    requires !IsTerminal(m.state.status) && m.pending == None
    requires b.ArtifactRecorded? || b.ArtifactNotProduced? || b.EvaluationCompleted?
    ensures Consistent(Counted(ApplyBody(m, sequence, b).value))
  {
    if b.ArtifactRecorded? {
      RecordingKeepsOrder(m, b);
    }
  }

  lemma BodyIsCounted(m: Machine, sequence: nat, b: Body)
    requires ApplyBody(m, sequence, b).Accepted?
    ensures var n := ApplyBody(m, sequence, b).value;
            n.created && n.state.runId == m.state.runId && n.state.eventCount == m.state.eventCount
  {}

  lemma BodyKeepsConsistency(m: Machine, sequence: nat, b: Body)
    requires Consistent(m) && ApplyBody(m, sequence, b).Accepted?
    requires !IsTerminal(m.state.status) && (m.pending.Some? ==> b.BudgetSnapshot?)
    ensures Consistent(Counted(ApplyBody(m, sequence, b).value))
  {
    if b.BudgetSnapshot? {
      SnapshotKeepsConsistency(m, sequence, b);
    } else if b.RunCreated? || b.RunStarted? || b.RunTerminal? {
      StatusKeepsConsistency(m, sequence, b);
    } else if b.RequestStarted? || b.ResponseCompleted? || b.RequestAmbiguous? {
      RequestKeepsConsistency(m, sequence, b);
    } else if b.ArtifactRecorded? || b.ArtifactNotProduced? || b.EvaluationCompleted? {
      EvidenceKeepsConsistency(m, sequence, b);
    }
  }

  lemma TurnKeepsConsistency(m: Machine, sequence: nat, b: Body)
    requires Consistent(m) && Turn(m, sequence, b).Accepted?
    ensures Consistent(Turn(m, sequence, b).value) && Turn(m, sequence, b).value.created
    ensures Turn(m, sequence, b).value.state.runId == m.state.runId
    ensures Turn(m, sequence, b).value.state.eventCount == m.state.eventCount + 1
  {
    BodyKeepsConsistency(m, sequence, b);
    BodyIsCounted(m, sequence, b);
  }

  lemma InitialIsConsistent(runId: string)
    ensures Consistent(Initial(runId))
  {}

  lemma {:induction false} FoldIsConsistent(runId: string, events: seq<EventRecord>)
    requires Fold(runId, events).Accepted?
    ensures var m := Fold(runId, events).value;
            && Consistent(m) && m.state.runId == runId
            && m.state.eventCount == |events| && (m.created <==> events != [])
  {
    if events == [] {
      InitialIsConsistent(runId);
    } else {
      var before := Fold(runId, events[..|events| - 1]);
      assert before.Accepted?;
      FoldIsConsistent(runId, events[..|events| - 1]);
      var e := events[|events| - 1];
      assert Fold(runId, events) == Step(before.value, e);
      TurnKeepsConsistency(before.value, e.sequence, e.body);
    }
  }

  // ------------------------------------------------------- replay is a fold

  lemma ChainedPrefix(hash: ContentHash, events: seq<EventRecord>, n: nat)
    requires n <= |events| && Chained(hash, events)
    ensures Chained(hash, events[..n])
  {
    forall i | 0 <= i < n ensures Linked(hash, events[..n], i) {
      assert Linked(hash, events, i);
    }
  }

  lemma ChainedExtension(hash: ContentHash, events: seq<EventRecord>, e: EventRecord)
    ensures Chained(hash, events + [e]) <==> Chained(hash, events) && Linked(hash, events + [e], |events|)
  {
    var all := events + [e];
    if Chained(hash, all) {
      ChainedPrefix(hash, all, |events|);
      assert all[..|events|] == events;
      assert Linked(hash, all, |events|);
    }
    if Chained(hash, events) && Linked(hash, all, |events|) {
      forall i | 0 <= i < |all| ensures Linked(hash, all, i) {
        if i < |events| { assert Linked(hash, events, i); }
      }
    }
  }

  /** Every nonempty prefix of an accepted stream is accepted. */
  lemma AcceptedPrefixes(hash: ContentHash, events: seq<EventRecord>, requireTerminal: bool, n: nat)
    requires Replayed(hash, events, requireTerminal).Accepted? && 1 <= n <= |events|
    ensures Replayed(hash, events[..n], false).Accepted?
  {
    ChainedPrefix(hash, events, n);
    if Fold(events[0].runId, events[..n]).Rejected? {
      FoldRejectsExtensions(events[0].runId, events, n);
    }
    FoldIsConsistent(events[0].runId, events[..n]);
  }

  /** Checking one event against the stored machine is the same as replaying the
      whole history with that event appended. */
  lemma ReplayIsOneStep(hash: ContentHash, events: seq<EventRecord>, e: EventRecord)
    requires events != []
    ensures Replayed(hash, events + [e], false) ==
            if Replayed(hash, events, false).Rejected? || !Linked(hash, events + [e], |events|) then Rejected
            else
              var next := Step(Fold(events[0].runId, events).value, e);
              if next.Rejected? then Rejected else Accepted(next.value.state)
  {
    ChainedExtension(hash, events, e);
    FoldExtension(events[0].runId, events, e);
  }

  lemma FoldExtension(runId: string, events: seq<EventRecord>, e: EventRecord)
    ensures Fold(runId, events + [e]) ==
            if Fold(runId, events).Rejected? then Rejected else Step(Fold(runId, events).value, e)
    ensures events != [] && Fold(runId, events).Accepted? ==> Fold(runId, events).value.created
    ensures Fold(runId, events + [e]).Accepted? ==> Fold(runId, events + [e]).value.created
  {
    var all := events + [e];
    assert all[..|all| - 1] == events;
    if Fold(runId, events).Accepted? {
      FoldIsConsistent(runId, events);
    }
    if Fold(runId, all).Accepted? {
      FoldIsConsistent(runId, all);
    }
  }

  // ----------------------------------------------------------- closed streams

  /** A terminal event leaves no reservation, no outstanding budget step and no
      artifact both recorded and absent; what the terminal check adds to replay is
      exactly that every expected artifact is accounted for. */
  lemma TerminalStreamsAreSettled(hash: ContentHash, events: seq<EventRecord>)
    requires Replayed(hash, events, false).Accepted?
    ensures var s := Replayed(hash, events, false).value;
            && s.artifacts.Keys !! s.absent.Keys
            && (IsTerminal(s.status) ==>
                  && Fold(events[0].runId, events).value.pending == None
                  && s.reserved == ZERO && SettledBudget(s)
                  && (Replayed(hash, events, true).Accepted? <==> FullyAccounted(s)))
            && (!IsTerminal(s.status) ==> Replayed(hash, events, true).Rejected?)
  {
    FoldIsConsistent(events[0].runId, events);
  }

  /** What the stream's response event reports. */
  function ReportedUsage(events: seq<EventRecord>): Option<BudgetUsage> {
    if events == [] then None
    else
      var last := events[|events| - 1].body;
      if last.ResponseCompleted? then last.actual else ReportedUsage(events[..|events| - 1])
  }

  predicate ChargesReport(m: Machine, reported: Option<BudgetUsage>) {
    if m.state.requestState != Completed then reported == None
    else Some(if m.pending == None then m.state.used else m.pending.value.amount) == reported
  }

  lemma TurnChargesReport(m: Machine, sequence: nat, b: Body, reported: Option<BudgetUsage>)
    requires Consistent(m) && ChargesReport(m, reported) && Turn(m, sequence, b).Accepted?
    ensures ChargesReport(Turn(m, sequence, b).value, if b.ResponseCompleted? then b.actual else reported)
  {}

  lemma {:induction false} FoldChargesReport(runId: string, events: seq<EventRecord>)
    requires Fold(runId, events).Accepted?
    ensures ChargesReport(Fold(runId, events).value, ReportedUsage(events))
  {
    if events != [] {
      var before := events[..|events| - 1];
      var e := events[|events| - 1];
      FoldChargesReport(runId, before);
      FoldIsConsistent(runId, before);
      TurnChargesReport(Fold(runId, before).value, e.sequence, e.body, ReportedUsage(before));
    }
  }

  /** What a finished run is charged: the usage its response reported, the whole
      maximum when the request's fate is unknown, and nothing when none was sent. */
  lemma FinalCharge(hash: ContentHash, events: seq<EventRecord>)
    requires Replayed(hash, events, false).Accepted?
    requires IsTerminal(Replayed(hash, events, false).value.status)
    ensures var s := Replayed(hash, events, false).value;
            && s.reserved == ZERO
            && match s.requestState
               case NotStarted => s.used == ZERO && ReportedUsage(events) == None
               case Completed => Some(s.used) == ReportedUsage(events)
               case Ambiguous => Some(s.used) == s.requestMaximum && ReportedUsage(events) == None
               case Started => false
  {
    FoldIsConsistent(events[0].runId, events);
    FoldChargesReport(events[0].runId, events);
  }

  // ------------------------------------------------------- the order of events

  datatype Milestone =
    | Opened | Began | Asked | Answered | Lost
    | Kept(role: Role) | Judged(outcome: Outcome) | Closed(status: RunStatus)

  function MilestoneOf(b: Body): seq<Milestone> {
    match b
    case RunCreated(_, _) => [Opened]
    case RunStarted(_) => [Began]
    case RequestStarted(_, _) => [Asked]
    case ResponseCompleted(_, _, _) => [Answered]
    case RequestAmbiguous(_) => [Lost]
    case ArtifactRecorded(Some(role), _) => [Kept(role)]
    case EvaluationCompleted(Some(outcome), _, _) => [Judged(outcome)]
    case RunTerminal(Some(status), _, _, _) => [Closed(status)]
    case _ => []
  }

  /** The stream without its budget snapshots and absence records. */
  function Milestones(events: seq<EventRecord>): seq<Milestone> {
    if events == [] then []
    else Milestones(events[..|events| - 1]) + MilestoneOf(events[|events| - 1].body)
  }

  function KeptIf(s: ReplayState, role: Role): seq<Milestone> {
    if Bound(s, role) then [Kept(role)] else []
  }

  function RequestWord(s: ReplayState): seq<Milestone> {
    match s.requestState
    case NotStarted => []
    case Started => [Asked]
    case Completed => [Asked, Answered]
    case Ambiguous => [Asked, Lost]
  }

  function EvidenceWord(s: ReplayState): seq<Milestone> {
    KeptIf(s, Patch) + KeptIf(s, Stdout) + KeptIf(s, Stderr)
    + KeptIf(s, CandidateStdout) + KeptIf(s, ScorerStdout) + KeptIf(s, Evaluation)
  }

  function OpeningWord(m: Machine, began: bool): seq<Milestone> {
    (if m.created then [Opened] else []) + (if began then [Began] else [])
    + KeptIf(m.state, TaskSpec) + RequestWord(m.state)
  }

  function VerdictWord(s: ReplayState): seq<Milestone> {
    (if s.outcome.Some? then [Judged(s.outcome.value)] else [])
    + (if IsTerminal(s.status) then [Closed(s.status)] else [])
  }

  /** The one order in which a stream can have reached this state. */
  function Word(m: Machine, began: bool): seq<Milestone> {
    OpeningWord(m, began) + EvidenceWord(m.state) + VerdictWord(m.state)
  }

  predicate BeganFits(m: Machine, began: bool) {
    && (m.state.status == Running ==> began)
    && (m.state.status == Pending ==> !began)
    && (m.state.artifacts != map[] || m.state.requestState != NotStarted ==> began)
  }

  ghost predicate Tells(w: seq<Milestone>, m: Machine) {
    BeganFits(m, Began in w) && w == Word(m, Began in w)
  }

  lemma RecordingExtendsWord(m: Machine, b: Body, began: bool)
    requires Consistent(m) && b.ArtifactRecorded? && ApplyRecorded(m, b).Accepted? && m.created
    requires BeganFits(m, began)
    ensures var n := ApplyRecorded(m, b).value;
            Word(n, began) == Word(m, began) + MilestoneOf(b) && BeganFits(n, began)
  {
    var n := ApplyRecorded(m, b).value;
    RecordingKeepsOrder(m, b);
    if b.role.value == TaskSpec {
      assert EvidenceWord(n.state) == [] && VerdictWord(n.state) == [];
      assert OpeningWord(n, began) == OpeningWord(m, began) + [Kept(TaskSpec)];
    } else {
      assert OpeningWord(n, began) == OpeningWord(m, began);
      assert EvidenceWord(n.state) == EvidenceWord(m.state) + [Kept(b.role.value)];
      assert VerdictWord(m.state) == [] == VerdictWord(n.state);
    }
  }

  lemma RequestExtendsWord(m: Machine, sequence: nat, b: Body, began: bool)
    requires Consistent(m) && ApplyBody(m, sequence, b).Accepted?
    requires !IsTerminal(m.state.status) && m.pending == None && BeganFits(m, began)
    requires b.RequestStarted? || b.ResponseCompleted? || b.RequestAmbiguous?
    ensures var n := ApplyBody(m, sequence, b).value;
            Word(n, began) == Word(m, began) + MilestoneOf(b) && BeganFits(n, began)
  {
    var n := ApplyBody(m, sequence, b).value;
    assert EvidenceWord(m.state) == [] == EvidenceWord(n.state);
    assert VerdictWord(m.state) == [] == VerdictWord(n.state);
    assert RequestWord(n.state) == RequestWord(m.state) + MilestoneOf(b);
    assert OpeningWord(n, began) == OpeningWord(m, began) + MilestoneOf(b);
  }

  lemma StatusExtendsWord(m: Machine, sequence: nat, b: Body, began: bool)
    requires Consistent(m) && ApplyBody(m, sequence, b).Accepted?
    requires !IsTerminal(m.state.status) && m.pending == None && BeganFits(m, began)
    requires b.RunCreated? || b.RunStarted?
    ensures var n := ApplyBody(m, sequence, b).value;
            && Word(n, began || b.RunStarted?) == Word(m, began) + MilestoneOf(b)
            && BeganFits(n, began || b.RunStarted?)
  {
    var n := ApplyBody(m, sequence, b).value;
    assert EvidenceWord(m.state) == [] == EvidenceWord(n.state);
    assert VerdictWord(m.state) == [] == VerdictWord(n.state);
    assert OpeningWord(n, began || b.RunStarted?) == OpeningWord(m, began) + MilestoneOf(b);
  }

  lemma VerdictExtendsWord(m: Machine, sequence: nat, b: Body, began: bool)
    requires Consistent(m) && ApplyBody(m, sequence, b).Accepted?
    requires !IsTerminal(m.state.status) && m.pending == None && BeganFits(m, began)
    requires b.RunTerminal? || b.EvaluationCompleted?
    ensures var n := ApplyBody(m, sequence, b).value;
            Word(n, began) == Word(m, began) + MilestoneOf(b) && BeganFits(n, began)
  {
    var n := ApplyBody(m, sequence, b).value;
    assert EvidenceWord(n.state) == EvidenceWord(m.state);
    assert OpeningWord(n, began) == OpeningWord(m, began);
    assert VerdictWord(n.state) == VerdictWord(m.state) + MilestoneOf(b);
  }

  lemma BodyExtendsWord(m: Machine, sequence: nat, b: Body, w: seq<Milestone>)
    requires Consistent(m) && Tells(w, m) && ApplyBody(m, sequence, b).Accepted?
    requires !IsTerminal(m.state.status) && (m.pending.Some? ==> b.BudgetSnapshot?)
    ensures Tells(w + MilestoneOf(b), ApplyBody(m, sequence, b).value)
  {
    var began := Began in w;
    assert Began in w + MilestoneOf(b) <==> began || b.RunStarted?;
    if b.RunCreated? || b.RunStarted? {
      StatusExtendsWord(m, sequence, b, began);
    } else if b.RunTerminal? || b.EvaluationCompleted? {
      VerdictExtendsWord(m, sequence, b, began);
    } else if b.RequestStarted? || b.ResponseCompleted? || b.RequestAmbiguous? {
      RequestExtendsWord(m, sequence, b, began);
    } else if b.ArtifactRecorded? {
      RecordingExtendsWord(m, b, began);
    } else {
      assert w + MilestoneOf(b) == w;
      assert Word(ApplyBody(m, sequence, b).value, began) == Word(m, began);
    }
  }

  lemma {:induction false} FoldTellsWord(runId: string, events: seq<EventRecord>)
    requires Fold(runId, events).Accepted?
    ensures Tells(Milestones(events), Fold(runId, events).value)
  {
    if events == [] {
      assert Word(Initial(runId), false) == [];
    } else {
      var before := Fold(runId, events[..|events| - 1]).value;
      var e := events[|events| - 1];
      FoldTellsWord(runId, events[..|events| - 1]);
      FoldIsConsistent(runId, events[..|events| - 1]);
      BodyExtendsWord(before, e.sequence, e.body, Milestones(events[..|events| - 1]));
      CountingKeepsWord(ApplyBody(before, e.sequence, e.body).value, Milestones(events));
    }
  }

  lemma CountingKeepsWord(m: Machine, w: seq<Milestone>)
    requires Tells(w, m)
    ensures Tells(w, Counted(m))
  {
    assert Word(Counted(m), Began in w) == Word(m, Began in w);
  }

  function OptionalEvidence(s: ReplayState): seq<Milestone> {
    if Bound(s, ScorerStdout) then [Kept(CandidateStdout), Kept(ScorerStdout)]
    else if Bound(s, CandidateStdout) then [Kept(CandidateStdout)]
    else []
  }

  /** A succeeded run has one start, request, response, passed evaluation and
      terminal event, with the task before the request and the evidence, in its
      fixed order, after the response; nothing else and nothing twice. */
  lemma SucceededHistory(hash: ContentHash, events: seq<EventRecord>)
    requires Replayed(hash, events, false).Accepted?
    requires Replayed(hash, events, false).value.status == Succeeded
    ensures var s := Replayed(hash, events, false).value;
            Milestones(events) ==
            [Opened, Began, Kept(TaskSpec), Asked, Answered, Kept(Patch), Kept(Stdout), Kept(Stderr)]
            + OptionalEvidence(s)
            + [Kept(Evaluation), Judged(Passed), Closed(Succeeded)]
    ensures Replayed(hash, events, false).value.absent == map[]
    ensures Replayed(hash, events, true).Accepted?
  {
    FoldIsConsistent(events[0].runId, events);
    FoldTellsWord(events[0].runId, events);
    SucceededWord(Fold(events[0].runId, events).value, Milestones(events));
  }

  lemma SucceededEvidence(m: Machine)
    requires Consistent(m) && m.state.status == Succeeded
    ensures var s := m.state;
            && m.pending == None && s.reserved == ZERO && m.created
            && s.outcome == Some(Passed) && s.requestState == Completed
            && EXPECTED_ARTIFACTS <= s.artifacts.Keys && s.absent == map[]
  {
    assert m.state.absent.Keys == {};
  }

  lemma SucceededWord(m: Machine, w: seq<Milestone>)
    requires Consistent(m) && Tells(w, m) && m.state.status == Succeeded
    ensures w == [Opened, Began, Kept(TaskSpec), Asked, Answered, Kept(Patch), Kept(Stdout), Kept(Stderr)]
                 + OptionalEvidence(m.state)
                 + [Kept(Evaluation), Judged(Passed), Closed(Succeeded)]
    ensures m.state.absent == map[] && ClosedOut(m)
  {
    SucceededEvidence(m);
    assert OpeningWord(m, true) == [Opened, Began, Kept(TaskSpec), Asked, Answered];
    assert EvidenceWord(m.state) ==
           [Kept(Patch), Kept(Stdout), Kept(Stderr)] + OptionalEvidence(m.state) + [Kept(Evaluation)];
    assert VerdictWord(m.state) == [Judged(Passed), Closed(Succeeded)];
  }

  // ----------------------------------------------------------- tamper evidence

  /** With an injective hash the head of a chain determines the whole stream. */
  lemma {:induction false} HeadDeterminesStream(hash: ContentHash, a: seq<EventRecord>, b: seq<EventRecord>)
    requires InjectiveHash(hash) && Chained(hash, a) && Chained(hash, b) && a != [] && b != []
    requires hash(a[|a| - 1]) == hash(b[|b| - 1])
    ensures a == b
    decreases |a|
  {
    assert Linked(hash, a, |a| - 1) && Linked(hash, b, |b| - 1);
    assert a[|a| - 1] == b[|b| - 1];
    if |a| > 1 {
      ChainedPrefix(hash, a, |a| - 1);
      ChainedPrefix(hash, b, |b| - 1);
      HeadDeterminesStream(hash, a[..|a| - 1], b[..|b| - 1]);
    }
    assert a == a[..|a| - 1] + [a[|a| - 1]];
    assert b == b[..|b| - 1] + [b[|b| - 1]];
  }

  // --------------------------------------------------------- semantic content

  /** An event without its run, identity and time; the evaluation envelope also
      loses its content identity, because it holds the run ID and wall time. */
  function Normalized(b: Body): Body {
    if b.ArtifactRecorded? && b.role == Some(Evaluation) then
      b.(reference := b.reference.(sha256 := Absent, sizeBytes := None, storageRef := Absent))
    else b
  }

  function SemanticContent(events: seq<EventRecord>): seq<Body> {
    if events == [] then []
    else SemanticContent(events[..|events| - 1]) + [Normalized(events[|events| - 1].body)]
  }

  lemma {:induction false} SemanticContentLength(events: seq<EventRecord>)
    ensures |SemanticContent(events)| == |events|
  {
    if events != [] { SemanticContentLength(events[..|events| - 1]); }
  }

  function SemanticDigest(hash: ContentHash, contentHash: seq<Body> -> string, events: seq<EventRecord>):
    Verdict<string>
  {
    if Replayed(hash, events, false).Rejected? then Rejected
    else Accepted(contentHash(SemanticContent(events)))
  }

  /** Equal but for the run's name and the evaluation envelope's digest. */
  predicate SameTreatment(a: ReplayState, b: ReplayState) {
    && a.artifacts.Keys == b.artifacts.Keys
    && a.artifacts - {Evaluation} == b.artifacts - {Evaluation}
    && a.(runId := b.runId, artifacts := b.artifacts) == b
  }

  predicate SameMachine(a: Machine, b: Machine) {
    SameTreatment(a.state, b.state) && a.created == b.created && a.pending == b.pending
  }

  lemma RecordingKeepsSameness(a: Machine, b: Machine, x: Body, y: Body)
    requires SameMachine(a, b) && Normalized(x) == Normalized(y) && x.ArtifactRecorded? && y.ArtifactRecorded?
    requires ApplyRecorded(a, x).Accepted? && ApplyRecorded(b, y).Accepted?
    ensures SameMachine(ApplyRecorded(a, x).value, ApplyRecorded(b, y).value)
  {
    assert x.role == y.role;
    var p, q := ApplyRecorded(a, x).value.state.artifacts, ApplyRecorded(b, y).value.state.artifacts;
    assert p.Keys == q.Keys;
    forall k | k in p && k != Evaluation ensures p[k] == q[k] {
      if k != x.role.value {
        assert k in a.state.artifacts - {Evaluation};
        assert (a.state.artifacts - {Evaluation})[k] == (b.state.artifacts - {Evaluation})[k];
      } else {
        assert x == y;
      }
    }
    assert p - {Evaluation} == q - {Evaluation};
  }

  lemma StepKeepsSameness(a: Machine, b: Machine, d: EventRecord, e: EventRecord)
    requires SameMachine(a, b) && Normalized(d.body) == Normalized(e.body)
    requires Step(a, d).Accepted? && Step(b, e).Accepted?
    ensures SameMachine(Step(a, d).value, Step(b, e).value)
  {
    if d.body.ArtifactRecorded? {
      RecordingKeepsSameness(a, b, d.body, e.body);
    }
  }

  lemma {:induction false} SameContentSameMachine(r: string, q: string, a: seq<EventRecord>, b: seq<EventRecord>)
    requires SemanticContent(a) == SemanticContent(b)
    requires Fold(r, a).Accepted? && Fold(q, b).Accepted?
    ensures SameMachine(Fold(r, a).value, Fold(q, b).value)
    decreases |a|
  {
    SemanticContentLength(a);
    SemanticContentLength(b);
    if a != [] {
      var a', b' := a[..|a| - 1], b[..|b| - 1];
      var x, y := a[|a| - 1], b[|b| - 1];
      assert SemanticContent(a') == SemanticContent(a)[..|a| - 1] && Normalized(x.body) == SemanticContent(a)[|a| - 1] by {
        SemanticContentLength(a');
      }
      assert SemanticContent(b') == SemanticContent(b)[..|b| - 1] && Normalized(y.body) == SemanticContent(b)[|b| - 1] by {
        SemanticContentLength(b');
      }
      SameContentSameMachine(r, q, a', b');
      StepKeepsSameness(Fold(r, a').value, Fold(q, b').value, x, y);
    }
  }

  /** Accepted streams with the same semantic digest replay to the same final
      state, whatever their run IDs, identifiers, timestamps and hash chains. */
  lemma SemanticDigestFixesTheOutcome(
      hash: ContentHash, contentHash: seq<Body> -> string, a: seq<EventRecord>, b: seq<EventRecord>)
    requires forall x, y :: contentHash(x) == contentHash(y) ==> x == y
    requires SemanticDigest(hash, contentHash, a).Accepted?
    requires SemanticDigest(hash, contentHash, a) == SemanticDigest(hash, contentHash, b)
    ensures SameTreatment(Replayed(hash, a, false).value, Replayed(hash, b, false).value)
  {
    SameContentSameMachine(a[0].runId, b[0].runId, a, b);
  }

  /** The same event, but for what it says of the evaluation envelope: its digest, its
      size and its path. */
  predicate SameBody(x: Body, y: Body) {
    x == y
    || (x.ArtifactRecorded? && y.ArtifactRecorded? && x.role == y.role == Some(Evaluation)
        && x.reference.mediaType == y.reference.mediaType)
  }

  predicate SameBodies(a: seq<EventRecord>, b: seq<EventRecord>) {
    |a| == |b| && forall i :: 0 <= i < |a| ==> SameBody(a[i].body, b[i].body)
  }

  lemma NormalizedMeans(x: Body, y: Body)
    ensures Normalized(x) == Normalized(y) <==> SameBody(x, y)
  {}

  lemma {:induction false} SameContent(a: seq<EventRecord>, b: seq<EventRecord>)
    ensures SemanticContent(a) == SemanticContent(b) <==> SameBodies(a, b)
    decreases |a|
  {
    SemanticContentLength(a);
    SemanticContentLength(b);
    if |a| == |b| && a != [] {
      var c, d := a[..|a| - 1], b[..|b| - 1];
      var x, y := a[|a| - 1].body, b[|b| - 1].body;
      SemanticContentLength(c);
      SemanticContentLength(d);
      SameContent(c, d);
      NormalizedMeans(x, y);
      LastOfEqual(SemanticContent(c), Normalized(x), SemanticContent(d), Normalized(y));
      if SameBodies(c, d) && SameBody(x, y) {
        forall i | 0 <= i < |a| ensures SameBody(a[i].body, b[i].body) {
          if i < |c| { assert SameBody(c[i].body, d[i].body); }
        }
      }
      if SameBodies(a, b) {
        forall i | 0 <= i < |c| ensures SameBody(c[i].body, d[i].body) { assert SameBody(a[i].body, b[i].body); }
      }
    }
  }

  lemma LastOfEqual<T>(s: seq<T>, x: T, t: seq<T>, y: T)
    requires |s| == |t|
    ensures s + [x] == t + [y] <==> s == t && x == y
  {
    if s + [x] == t + [y] {
      assert s == (s + [x])[..|s|] && t == (t + [y])[..|t|];
      assert (s + [x])[|s|] == x && (t + [y])[|t|] == y;
    }
  }

  /** Replayable streams have the same semantic digest exactly when their events are
      the same but for identities, times, hash chains and the evaluation envelope. */
  lemma SameDigestExactlyWhenSameEvents(
      hash: ContentHash, contentHash: seq<Body> -> string, a: seq<EventRecord>, b: seq<EventRecord>)
    requires forall x, y :: contentHash(x) == contentHash(y) ==> x == y
    requires Replayed(hash, a, false).Accepted? && Replayed(hash, b, false).Accepted?
    ensures SemanticDigest(hash, contentHash, a).Accepted? && SemanticDigest(hash, contentHash, b).Accepted?
    ensures SemanticDigest(hash, contentHash, a) == SemanticDigest(hash, contentHash, b) <==> SameBodies(a, b)
  {
    SameContent(a, b);
  }
}
