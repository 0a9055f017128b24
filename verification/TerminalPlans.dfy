/** The operations that end a run: recovery, budget refusal and evaluation. */
module TerminalPlans {
  import opened Text
  import opened Usage
  import opened Events
  import opened Replay
  import opened ReplayLaws
  import opened Ledger
  import opened Lifecycle
  import opened Plans

  // ------------------------------------------------------- artifacts not made

  function IfMissing(have: set<Role>, role: Role): seq<Role> {
    if role in have then [] else [role]
  }

  /** The expected roles a run never bound, in the sorted order of their names. */
  function MissingRoles(have: set<Role>): seq<Role> {
    IfMissing(have, Evaluation) + IfMissing(have, Stderr) + IfMissing(have, Stdout)
    + IfMissing(have, Patch) + IfMissing(have, TaskSpec)
  }

  function AbsenceBodies(roles: seq<Role>, reason: string): seq<Body> {
    seq(|roles|, i requires 0 <= i < |roles| => ArtifactNotProduced(Some(roles[i]), Text(reason)))
  }

  function Absented(m: Machine, roles: seq<Role>, reason: string): Machine {
    if roles == [] then m
    else
      var x := Absented(m, roles[..|roles| - 1], reason);
      Counted(x.(state := x.state.(absent := x.state.absent[roles[|roles| - 1] := reason])))
  }

  predicate Distinct(roles: seq<Role>) {
    forall i, j :: 0 <= i < j < |roles| ==> roles[i] != roles[j]
  }

  function RoleSet(roles: seq<Role>): set<Role> {
    set r | r in roles
  }

  lemma {:induction false} AbsentedFacts(m: Machine, roles: seq<Role>, reason: string)
    ensures var x := Absented(m, roles, reason);
            && x.state.absent.Keys == m.state.absent.Keys + RoleSet(roles)
            && x == m.(state := m.state.(absent := x.state.absent, eventCount := m.state.eventCount + |roles|))
  {
    if roles != [] {
      AbsentedFacts(m, roles[..|roles| - 1], reason);
      var last := roles[|roles| - 1];
      assert RoleSet(roles) == RoleSet(roles[..|roles| - 1]) + {last} by {
        assert roles == roles[..|roles| - 1] + [last];
      }
    }
  }

  lemma OneMoreAbsence(m: Machine, before: seq<Role>, last: Role, reason: string)
    requires m.created && m.pending == None && !IsTerminal(m.state.status) && !Blank(reason)
    requires last !in before && m.state.absent == map[] && last in EXPECTED_ARTIFACTS && last !in m.state.artifacts
    ensures var x := Absented(m, before, reason);
            Turn(x, x.state.eventCount, ArtifactNotProduced(Some(last), Text(reason))) ==
            Accepted(Absented(m, before + [last], reason))
  {
    AbsentedFacts(m, before, reason);
    assert (before + [last])[..|before|] == before;
  }

  lemma {:induction false} AbsenceTurns(m: Machine, roles: seq<Role>, reason: string)
    requires m.created && m.pending == None && !IsTerminal(m.state.status) && !Blank(reason)
    requires Distinct(roles) && m.state.absent == map[]
    requires forall r :: r in roles ==> r in EXPECTED_ARTIFACTS && r !in m.state.artifacts
    ensures Turns(m, AbsenceBodies(roles, reason)) == Accepted(Absented(m, roles, reason))
  {
    if roles != [] {
      var before, last := roles[..|roles| - 1], roles[|roles| - 1];
      AbsenceTurns(m, before, reason);
      AbsentedFacts(m, before, reason);
      assert AbsenceBodies(roles, reason)[..|roles| - 1] == AbsenceBodies(before, reason);
      assert last !in before && roles == before + [last];
      OneMoreAbsence(m, before, last, reason);
    }
  }

  lemma MissingRolesFacts(have: set<Role>)
    ensures Distinct(MissingRoles(have))
    ensures forall r :: r in MissingRoles(have) <==> r in EXPECTED_ARTIFACTS && r !in have
  {
    var a, b, c := IfMissing(have, Evaluation), IfMissing(have, Stderr), IfMissing(have, Stdout);
    var d, e := IfMissing(have, Patch), IfMissing(have, TaskSpec);
    DistinctConcat(a, b);
    DistinctConcat(a + b, c);
    DistinctConcat(a + b + c, d);
    DistinctConcat(a + b + c + d, e);
    forall r ensures r in MissingRoles(have) <==> r in EXPECTED_ARTIFACTS && r !in have {
      assert r in MissingRoles(have) <==> r in a || r in b || r in c || r in d || r in e;
    }
  }

  lemma DistinctConcat(a: seq<Role>, b: seq<Role>)
    requires Distinct(a) && |b| <= 1 && forall r :: r in b ==> r !in a
    ensures Distinct(a + b)
  {
    forall i, j | 0 <= i < j < |a + b| ensures (a + b)[i] != (a + b)[j] {
      assert a[i] in a;
    }
  }

  // ------------------------------------------------------------ closing a run

  lemma SnapshotTurn(m: Machine)
    requires m.created && m.pending == None && !IsTerminal(m.state.status)
    ensures Turn(m, m.state.eventCount, SnapshotBody(m.state.used, m.state.reserved)) == Accepted(Counted(m))
  {}

  /** The machine after an outstanding request was charged at its maximum. */
  function Charged(m: Machine): Machine {
    Counted(Counted(m.(state := m.state.(
      requestState := Ambiguous, used := Add(m.state.used, m.state.reserved), reserved := ZERO))))
  }

  lemma AmbiguousTurns(m: Machine, requestId: string)
    requires m.created && m.pending == None && m.state.status == Running && m.state.requestState == Started
    requires m.state.requestId == Some(requestId) && !Blank(requestId) && m.state.used == ZERO
    ensures Turns(m, [RequestAmbiguous(Text(requestId)), SnapshotBody(Add(m.state.used, m.state.reserved), ZERO)]) ==
            Accepted(Charged(m))
  {
    TurnsPair(m, RequestAmbiguous(Text(requestId)), SnapshotBody(Add(m.state.used, m.state.reserved), ZERO));
  }

  function Ended(m: Machine, status: RunStatus, reason: Option<string>): Machine {
    Counted(m.(state := m.state.(status := status, terminalReason := reason)))
  }

  lemma TerminalTurn(m: Machine, status: RunStatus, reason: Option<string>, recovered: bool)
    requires m.created && m.pending == None && !IsTerminal(m.state.status) && IsTerminal(status)
    requires m.state.requestState != Started && StatusMatchesOutcome(status, m.state.outcome)
    requires status == Succeeded <==> reason == None
    requires reason.Some? ==> !Blank(reason.value)
    requires m.state.requestState == Ambiguous ==> status == InfrastructureError && reason == Some(AMBIGUOUS_REASON)
    ensures Turn(m, m.state.eventCount, RunTerminal(Some(status), m.state.outcome, OptionalText(reason), recovered)) ==
            Accepted(Ended(m, status, reason))
  {}

  function FinishTime(m: RunManifest, finishedAt: int): int {
    var floor := if m.startedAt.Some? then m.startedAt.value else m.identity.createdAt;
    if finishedAt >= floor then finishedAt else floor
  }

  function EndedManifest(m: RunManifest, status: RunStatus, finishedAt: int, reason: string): RunManifest {
    m.(status := status, finishedAt := Some(FinishTime(m, finishedAt)), terminalReason := Some(Strip(reason)))
  }

  // ------------------------------------------------------------------ recovery

  function RecoveryReason(s: ReplayState, reason: string): string {
    if s.requestState == Started then AMBIGUOUS_REASON else reason
  }

  function SettlementBodies(s: ReplayState): seq<Body> {
    if s.requestState == Started && s.requestId.Some? then
      [RequestAmbiguous(Text(s.requestId.value)), SnapshotBody(Add(s.used, s.reserved), ZERO)]
    else [SnapshotBody(s.used, s.reserved)]
  }

  function RecoveredUsed(s: ReplayState): BudgetUsage {
    if s.requestState == Started then Add(s.used, s.reserved) else s.used
  }

  function RecoveredReserved(s: ReplayState): BudgetUsage {
    if s.requestState == Started then ZERO else s.reserved
  }

  function RecoveryPlan(v: RunRows, s: ReplayState, finishedAt: int, reason: string): Plan {
    Plan(AbsenceBodies(MissingRoles(s.artifacts.Keys), "interrupted")
         + SettlementBodies(s)
         + [RunTerminal(Some(InfrastructureError), None, Text(RecoveryReason(s, reason)), true)],
         EndedManifest(v.row.manifest, InfrastructureError, finishedAt, RecoveryReason(s, reason)), true,
         RecoveredUsed(s), RecoveredReserved(s))
  }

  /** With a nonblank reason, an unfinished run can be recovered exactly when its
      request is outstanding, which fixes the reason, or the reason is trimmed. */
  predicate CanRecover(s: ReplayState, reason: string) {
    !Blank(reason) && (s.requestState == Started || Trimmed(reason))
  }

  lemma AmbiguousReasonIsText()
    ensures NonEmptyText(AMBIGUOUS_REASON)
  {
    assert AMBIGUOUS_REASON[0] == 'a' && AMBIGUOUS_REASON[|AMBIGUOUS_REASON| - 1] == 't';
  }

  lemma InterruptedIsText()
    ensures !Blank("interrupted") && !Blank("budget_exhausted")
  {
    assert !IsSpace("interrupted"[0]) && !IsSpace("budget_exhausted"[0]);
  }

  /** The machine once the missing artifacts and the budget are accounted for. */
  function Settled(m: Machine, absence: string): Machine {
    var x := Absented(m, MissingRoles(m.state.artifacts.Keys), absence);
    if m.state.requestState == Started then Charged(x) else Counted(x)
  }

  lemma SettlementTurns(m: Machine, absence: string)
    requires Consistent(m) && m.created && m.pending == None && !IsTerminal(m.state.status) && Resting(m.state)
    requires !Blank(absence)
    ensures Turns(m, AbsenceBodies(MissingRoles(m.state.artifacts.Keys), absence) + SettlementBodies(m.state)) ==
            Accepted(Settled(m, absence))
  {
    var roles := MissingRoles(m.state.artifacts.Keys);
    MissingRolesFacts(m.state.artifacts.Keys);
    AbsenceTurns(m, roles, absence);
    AbsentedFacts(m, roles, absence);
    var x := Absented(m, roles, absence);
    TurnsConcat(m, AbsenceBodies(roles, absence), SettlementBodies(m.state));
    if m.state.requestState == Started {
      AmbiguousTurns(x, m.state.requestId.value);
    } else {
      TurnsSingle(x, SnapshotBody(m.state.used, m.state.reserved));
      SnapshotTurn(x);
    }
  }

  lemma SettledFacts(m: Machine, absence: string)
    requires Consistent(m) && m.created && m.pending == None && !IsTerminal(m.state.status) && Resting(m.state)
    ensures var s := Settled(m, absence).state;
            && Settled(m, absence).created && Settled(m, absence).pending == None
            && s.status == m.state.status && s.outcome == None && s.reserved == ZERO
            && s.artifacts == m.state.artifacts && s.returnedModel == m.state.returnedModel
            && s.requestState == (if m.state.requestState == Started then Ambiguous else m.state.requestState)
            && s.used == (if m.state.requestState == Started then Add(m.state.used, m.state.reserved) else m.state.used)
            && FullyAccounted(s)
  {
    MissingRolesFacts(m.state.artifacts.Keys);
    AbsentedFacts(m, MissingRoles(m.state.artifacts.Keys), absence);
  }

  lemma EndingTurns(m: Machine, absence: string, status: RunStatus, reason: string, recovered: bool)
    requires Consistent(m) && m.created && m.pending == None && !IsTerminal(m.state.status) && Resting(m.state)
    requires !Blank(absence) && !Blank(reason) && status in {InfrastructureError, BudgetExhausted}
    requires m.state.requestState == Started ==> status == InfrastructureError && reason == AMBIGUOUS_REASON
    ensures Turns(m, AbsenceBodies(MissingRoles(m.state.artifacts.Keys), absence) + SettlementBodies(m.state)
                     + [RunTerminal(Some(status), None, Text(reason), recovered)]) ==
            Accepted(Ended(Settled(m, absence), status, Some(reason)))
  {
    var bodies := AbsenceBodies(MissingRoles(m.state.artifacts.Keys), absence) + SettlementBodies(m.state);
    SettlementTurns(m, absence);
    SettledFacts(m, absence);
    var x := Settled(m, absence);
    TurnsOne(m, bodies, RunTerminal(Some(status), None, Text(reason), recovered));
    TerminalTurn(x, status, Some(reason), recovered);
  }

  lemma EndedManifestIsValid(m: RunManifest, status: RunStatus, finishedAt: int, reason: string)
    requires ValidManifest(m) && !IsTerminal(m.status) && !Blank(reason)
    requires status in {InfrastructureError, BudgetExhausted}
    ensures ValidManifest(EndedManifest(m, status, finishedAt, reason))
    ensures TransitionAllowed(m, EndedManifest(m, status, finishedAt, reason))
  {
    StripFacts(reason);
  }

  lemma EndedSettles(v: RunRows, m: Machine, absence: string, status: RunStatus, finishedAt: int, reason: string, plan: Plan)
    requires Basis(v, m) && !IsTerminal(m.state.status)
    requires NonEmptyText(reason) && status in {InfrastructureError, BudgetExhausted}
    requires m.state.requestState == Started ==> reason == AMBIGUOUS_REASON && status == InfrastructureError
    requires plan.bodies != [] && plan.saved && plan.manifest == EndedManifest(v.row.manifest, status, finishedAt, reason)
    requires plan.used == Settled(m, absence).state.used && plan.reserved == Settled(m, absence).state.reserved
    ensures Settles(v, plan, Ended(Settled(m, absence), status, Some(reason)))
  {
    NonEmptyIsNotBlank(reason);
    SettledFacts(m, absence);
    EndedManifestIsValid(v.row.manifest, status, finishedAt, reason);
  }

  lemma RecoverySettles(v: RunRows, m: Machine, finishedAt: int, reason: string)
    requires Basis(v, m) && !IsTerminal(v.row.manifest.status) && CanRecover(m.state, reason)
    ensures var plan := RecoveryPlan(v, m.state, finishedAt, reason);
            Turns(m, plan.bodies).Accepted? && Settles(v, plan, Turns(m, plan.bodies).value)
  {
    AmbiguousReasonIsText();
    InterruptedIsText();
    var actual := RecoveryReason(m.state, reason);
    StripFacts(actual);
    EndingTurns(m, "interrupted", InfrastructureError, actual, true);
    SettledFacts(m, "interrupted");
    EndedSettles(v, m, "interrupted", InfrastructureError, finishedAt, actual, RecoveryPlan(v, m.state, finishedAt, reason));
  }

  /** Recovery moves the whole reservation into the used budget, or nothing. */
  lemma RecoveryCharges(s: ReplayState)
    ensures Add(RecoveredUsed(s), RecoveredReserved(s)) == Add(s.used, s.reserved)
  {
    if s.requestState == Started {
      assert RecoveredUsed(s) == Add(s.used, s.reserved) && RecoveredReserved(s) == ZERO;
      AddZero(Add(s.used, s.reserved));
    } else {
      assert RecoveredUsed(s) == s.used && RecoveredReserved(s) == s.reserved;
    }
  }

  /** A padded reason is stored stripped in the manifest but verbatim in the event,
      so the comparison of the two refuses it. */
  lemma RecoveryNeeds(v: RunRows, m: Machine, finishedAt: int, reason: string)
    requires Basis(v, m) && !IsTerminal(v.row.manifest.status) && !Blank(reason)
    requires var plan := RecoveryPlan(v, m.state, finishedAt, reason);
             Turns(m, plan.bodies).Accepted? && Passes(v, plan, Turns(m, plan.bodies).value)
    ensures CanRecover(m.state, reason)
  {
    if m.state.requestState != Started {
      InterruptedIsText();
      EndingTurns(m, "interrupted", InfrastructureError, reason, true);
      StripFacts(reason);
    }
  }

  // ------------------------------------------------------------ budget refusal

  function RefusalPlan(v: RunRows, s: ReplayState, finishedAt: int, reason: string): Plan {
    Plan(AbsenceBodies(MissingRoles(s.artifacts.Keys), "budget_exhausted")
         + SettlementBodies(s)
         + [RunTerminal(Some(BudgetExhausted), None, Text(reason), false)],
         EndedManifest(v.row.manifest, BudgetExhausted, finishedAt, reason), true, s.used, s.reserved)
  }

  predicate CanRefuse(s: ReplayState, reason: string) {
    s.requestState == NotStarted && !Blank(reason) && Trimmed(reason)
  }

  lemma RefusalSettles(v: RunRows, m: Machine, finishedAt: int, reason: string)
    requires Basis(v, m) && !IsTerminal(v.row.manifest.status) && CanRefuse(m.state, reason)
    ensures var plan := RefusalPlan(v, m.state, finishedAt, reason);
            Turns(m, plan.bodies).Accepted? && Settles(v, plan, Turns(m, plan.bodies).value)
  {
    InterruptedIsText();
    StripFacts(reason);
    EndingTurns(m, "budget_exhausted", BudgetExhausted, reason, false);
    SettledFacts(m, "budget_exhausted");
    EndedSettles(v, m, "budget_exhausted", BudgetExhausted, finishedAt, reason, RefusalPlan(v, m.state, finishedAt, reason));
  }

  lemma RefusalNeeds(v: RunRows, m: Machine, finishedAt: int, reason: string)
    requires Basis(v, m) && !IsTerminal(v.row.manifest.status) && !Blank(reason) && m.state.requestState == NotStarted
    requires var plan := RefusalPlan(v, m.state, finishedAt, reason);
             Turns(m, plan.bodies).Accepted? && Passes(v, plan, Turns(m, plan.bodies).value)
    ensures CanRefuse(m.state, reason)
  {
    InterruptedIsText();
    StripFacts(reason);
    EndingTurns(m, "budget_exhausted", BudgetExhausted, reason, false);
  }
}
