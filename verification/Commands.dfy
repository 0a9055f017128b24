/** Every lifecycle operation seen as one transition of the ledger, and what any
    sequence of them, interrupted anywhere, leaves behind. */
module Commands {
  import opened Text
  import opened Usage
  import opened Events
  import opened Replay
  import opened ReplayLaws
  import opened Ledger
  import opened Lifecycle
  import opened Plans
  import opened TerminalPlans
  import opened EvaluationPlans

  datatype Command =
    | Start(startedAt: int, requestedModel: string)
    | Record(role: Role, artifact: ArtifactRef)
    | Request(requestId: string, maximum: BudgetUsage, used: BudgetUsage, reserved: BudgetUsage)
    | Respond(response: Response)
    | Evaluate(input: EvaluationInput)
    | Recover(finishedAt: int, reason: string)
    | Refuse(finishedAt: int, reason: string)

  /** The operation writes, and its writes commit. */
  predicate Enabled(v: RunRows, s: ReplayState, c: Command) {
    match c
    case Start(at, model) => CanStart(v, at, model)
    case Record(role, artifact) => CanRecord(v, s, role, artifact)
    case Request(id, maximum, used, reserved) => CanRequest(v, s, id, maximum, used, reserved)
    case Respond(q) => CanRespond(v, s, q)
    case Evaluate(q) => CanEvaluate(v, s, q)
    case Recover(_, reason) => !IsTerminal(v.row.manifest.status) && CanRecover(s, reason)
    case Refuse(_, reason) => !IsTerminal(v.row.manifest.status) && CanRefuse(s, reason)
  }

  predicate Plannable(c: Command) {
    c.Evaluate? ==> EvidenceRoles(c.input.artifacts.Keys)
  }

  function PlanOf(v: RunRows, s: ReplayState, c: Command): Plan
    requires Plannable(c)
  {
    match c
    case Start(at, model) => StartPlan(v, at, model)
    case Record(role, artifact) => RecordPlan(v, role, artifact)
    case Request(id, maximum, used, reserved) => RequestPlan(v, id, maximum, used, reserved)
    case Respond(q) => ResponsePlan(v, q)
    case Evaluate(q) => EvaluationPlan(v, q)
    case Recover(at, reason) => RecoveryPlan(v, s, at, reason)
    case Refuse(at, reason) => RefusalPlan(v, s, at, reason)
  }

  lemma PlansKeepIdentity(v: RunRows, s: ReplayState, c: Command)
    requires Plannable(c)
    ensures PlanOf(v, s, c).manifest.identity == v.row.manifest.identity
    ensures PlanOf(v, s, c).manifest.runId == v.row.manifest.runId
    ensures !PlanOf(v, s, c).saved ==> PlanOf(v, s, c).manifest == v.row.manifest
  {}

  lemma EnabledPlansSettle(v: RunRows, m: Machine, c: Command)
    requires Basis(v, m) && Enabled(v, m.state, c)
    ensures Plannable(c)
    ensures var plan := PlanOf(v, m.state, c);
            Turns(m, plan.bodies).Accepted? && Settles(v, plan, Turns(m, plan.bodies).value)
  {
    match c
    case Start(at, model) => StartSettles(v, m, at, model);
    case Record(role, artifact) => RecordSettles(v, m, artifact);
    case Request(id, maximum, used, reserved) => RequestSettles(v, m, id, maximum, used, reserved);
    case Respond(q) => RespondSettles(v, m, q);
    case Evaluate(q) => EvaluationSettles(v, m, q);
    case Recover(at, reason) => RecoverySettles(v, m, at, reason);
    case Refuse(at, reason) => RefusalSettles(v, m, at, reason);
  }

  lemma EnabledPlansKeepLimits(v: RunRows, m: Machine, c: Command)
    requires Basis(v, m) && BudgetedWithin(v.budget) && Enabled(v, m.state, c)
    ensures Plannable(c) && WithinLimits(PlanOf(v, m.state, c), v.budget.limits)
  {
    match c
    case Respond(q) => RespondKeepsLimits(v, m, q);
    case Recover(at, reason) =>
      RecoveryCharges(m.state);
      SameChargeKeepsLimits(PlanOf(v, m.state, c), v.budget);
    case Request(_, _, _, _) =>
    case _ => SameChargeKeepsLimits(PlanOf(v, m.state, c), v.budget);
  }

  // -------------------------------------------------------------- transitions

  ghost predicate Committed(hash: ContentHash, t: Tables, u: Tables, run: string, plan: Plan) {
    run in t && run in u && u == t[run := u[run]] && Applies(hash, run, t[run], u[run], plan)
  }

  ghost predicate Performed(hash: ContentHash, t: Tables, u: Tables, run: string, c: Command) {
    && run in t && Fold(run, t[run].events).Accepted?
    && Enabled(t[run], MachineOf(run, t[run]).state, c) && Plannable(c)
    && Committed(hash, t, u, run, PlanOf(t[run], MachineOf(run, t[run]).state, c))
  }

  predicate CanCreate(t: Tables, m: RunManifest) {
    m.runId !in t && ValidManifest(m) && m.status == Pending && m.artifacts == map[] && m.returnedModel == None
  }

  ghost predicate FreshRows(hash: ContentHash, w: RunRows, m: RunManifest) {
    && w.row == RunRow(Pending, 0, m) && w.history == [m] && w.budget == BudgetRow(m.identity.limits, ZERO, ZERO)
    && Bodies(w.events) == [CreationBody(m)] && Issued(hash, m.runId, w.events)
  }

  ghost predicate Created(hash: ContentHash, t: Tables, u: Tables, m: RunManifest) {
    m.runId in u && u == t[m.runId := u[m.runId]] && FreshRows(hash, u[m.runId], m)
  }

  lemma CreationTurn(m: RunManifest, run: string)
    requires ValidManifest(m)
    ensures Turns(Initial(run), [CreationBody(m)]).Accepted?
    ensures var x := Turns(Initial(run), [CreationBody(m)]).value;
            x.created && x.pending == None
            && x.state == Initial(run).state.(requestedModel := Some(m.identity.requestedModel), eventCount := 1)
  {
    ManifestsDeclareValidCreations(m);
    TurnsSingle(Initial(run), CreationBody(m));
  }

  lemma FreshRowsReplay(hash: ContentHash, w: RunRows, m: RunManifest)
    requires ValidManifest(m) && FreshRows(hash, w, m)
    ensures |w.events| == 1 && w.events[0].body == CreationBody(m) && w.events[0].runId == m.runId
    ensures Fold(m.runId, w.events) == Turns(Initial(m.runId), [CreationBody(m)])
    ensures Fold(m.runId, w.events).Accepted?
    ensures Replayed(hash, w.events, false) == Accepted(Fold(m.runId, w.events).value.state)
  {
    assert |Bodies(w.events)| == 1 && Bodies(w.events)[0] == w.events[0].body;
    IssuedIsChained(hash, m.runId, w.events);
    FoldIsTurns(hash, m.runId, w.events);
    CreationTurn(m, m.runId);
  }

  /** A fresh run's rows verify exactly when its manifest declares nothing replay
      has not seen. */
  lemma FreshRowsVerify(hash: ContentHash, w: RunRows, m: RunManifest)
    requires ValidManifest(m) && m.status == Pending && FreshRows(hash, w, m)
    ensures RunVerifies(hash, w) <==> m.artifacts == map[] && m.returnedModel == None
  {
    FreshRowsReplay(hash, w, m);
    CreationTurn(m, m.runId);
    assert Digests(m.artifacts).Keys == m.artifacts.Keys;
    assert Digests(m.artifacts) == map[] <==> m.artifacts == map[];
    ValidatedStateIs(hash, w, Fold(m.runId, w.events).value.state);
  }

  lemma CreatedMachineRests(m: RunManifest, run: string)
    requires ValidManifest(m)
    ensures Turns(Initial(run), [CreationBody(m)]).Accepted?
    ensures Resting(Turns(Initial(run), [CreationBody(m)]).value.state)
  {
    CreationTurn(m, run);
  }

  lemma FreshRunIsSound(hash: ContentHash, w: RunRows, m: RunManifest)
    requires ValidManifest(m) && m.status == Pending && m.artifacts == map[] && m.returnedModel == None
    requires FreshRows(hash, w, m)
    ensures Sound(hash, m.runId, w)
  {
    var x := Turns(Initial(m.runId), [CreationBody(m)]);
    FreshRowsVerify(hash, w, m);
    FreshRowsReplay(hash, w, m);
    CreatedMachineRests(m, m.runId);
    assert x.value.pending == None by { CreationTurn(m, m.runId); }
    assert Within(Add(ZERO, ZERO), m.identity.limits) by {
      AddZero(ZERO);
      NothingIsWithin(m.identity.limits);
    }
    assert RunVerifies(hash, w);
  }

  /** The writes of an enabled operation pass every check on the way to the commit
      and leave the run sound. */
  lemma PerformedRunIsSound(hash: ContentHash, run: string, v: RunRows, w: RunRows, c: Command)
    requires Sound(hash, run, v) && Enabled(v, MachineOf(run, v).state, c) && Plannable(c)
    requires Applies(hash, run, v, w, PlanOf(v, MachineOf(run, v).state, c))
    ensures Sound(hash, run, w)
  {
    var m := MachineOf(run, v);
    SoundRunsHaveABasis(hash, run, v);
    EnabledPlansSettle(v, m, c);
    EnabledPlansKeepLimits(v, m, c);
    PlansKeepIdentity(v, m.state, c);
    SettledPlanIsSound(hash, run, v, w, PlanOf(v, m.state, c));
  }

  // --------------------------------------------------------------------- runs

  datatype Action = Create(manifest: RunManifest) | Perform(run: string, command: Command)

  /** A call commits what it stands for, or it is refused or crashes before its
      commit and nothing of it remains. */
  ghost predicate Next(hash: ContentHash, t: Tables, u: Tables, a: Action) {
    || u == t
    || match a
       case Create(m) => CanCreate(t, m) && Created(hash, t, u, m)
       case Perform(run, c) => Performed(hash, t, u, run, c)
  }

  lemma OneSoundChange(hash: ContentHash, t: Tables, run: string, w: RunRows)
    requires SoundLedger(hash, t) && Sound(hash, run, w)
    ensures SoundLedger(hash, t[run := w])
  {
    var u := t[run := w];
    forall q | q in u ensures Sound(hash, q, u[q]) {
      if q != run {
        assert u[q] == t[q];
      } else {
        assert u[q] == w;
      }
    }
  }

  lemma PerformedKeepsSound(hash: ContentHash, t: Tables, u: Tables, run: string, c: Command)
    requires SoundLedger(hash, t) && Performed(hash, t, u, run, c)
    ensures SoundLedger(hash, u)
  {
    var v, w := t[run], u[run];
    assert Sound(hash, run, v);
    PerformedRunIsSound(hash, run, v, w, c);
    OneSoundChange(hash, t, run, w);
  }

  lemma CreatedKeepsSound(hash: ContentHash, t: Tables, u: Tables, m: RunManifest)
    requires SoundLedger(hash, t) && CanCreate(t, m) && Created(hash, t, u, m)
    ensures SoundLedger(hash, u)
  {
    FreshRunIsSound(hash, u[m.runId], m);
    OneSoundChange(hash, t, m.runId, u[m.runId]);
  }

  lemma NextKeepsSound(hash: ContentHash, t: Tables, u: Tables, a: Action)
    requires SoundLedger(hash, t) && Next(hash, t, u, a)
    ensures SoundLedger(hash, u)
  {
    if u != t {
      match a
      case Create(m) => CreatedKeepsSound(hash, t, u, m);
      case Perform(run, c) => PerformedKeepsSound(hash, t, u, run, c);
    }
  }

  /** Ledgers visited from the empty one, one action at a time. */
  ghost predicate Visits(hash: ContentHash, states: seq<Tables>, actions: seq<Action>) {
    && |states| == |actions| + 1 && states[0] == map[]
    && forall i :: 0 <= i < |actions| ==> Next(hash, states[i], states[i + 1], actions[i])
  }

  lemma {:induction false} VisitedLedgersAreSound(hash: ContentHash, states: seq<Tables>, actions: seq<Action>, i: nat)
    requires Visits(hash, states, actions) && i < |states|
    ensures SoundLedger(hash, states[i])
  {
    if i > 0 {
      VisitedLedgersAreSound(hash, states, actions, i - 1);
      NextKeepsSound(hash, states[i - 1], states[i], actions[i - 1]);
    }
  }

  // -------------------------------------------------------------- append only

  /** A run's later rows extend its earlier ones. */
  predicate Extends(v: RunRows, w: RunRows) {
    && |v.events| <= |w.events| && w.events[..|v.events|] == v.events
    && |v.history| <= |w.history| && w.history[..|v.history|] == v.history
    && w.row.manifest.identity == v.row.manifest.identity && w.budget.limits == v.budget.limits
    && (forall role :: role in v.row.manifest.artifacts ==>
          role in w.row.manifest.artifacts && w.row.manifest.artifacts[role] == v.row.manifest.artifacts[role])
    && (IsTerminal(v.row.manifest.status) ==> w == v)
  }

  lemma AppliedExtends(hash: ContentHash, run: string, v: RunRows, w: RunRows, plan: Plan)
    requires Applies(hash, run, v, w, plan) && !IsTerminal(v.row.manifest.status)
    requires if plan.saved then TransitionAllowed(v.row.manifest, plan.manifest) else plan.manifest == v.row.manifest
    ensures Extends(v, w)
  {}

  lemma EnabledRunsAreUnfinished(v: RunRows, m: Machine, c: Command)
    requires Basis(v, m) && Enabled(v, m.state, c)
    ensures !IsTerminal(v.row.manifest.status)
  {}

  lemma PerformedRunExtends(hash: ContentHash, run: string, v: RunRows, w: RunRows, c: Command)
    requires Sound(hash, run, v) && Enabled(v, MachineOf(run, v).state, c) && Plannable(c)
    requires Applies(hash, run, v, w, PlanOf(v, MachineOf(run, v).state, c))
    ensures Extends(v, w) && !IsTerminal(v.row.manifest.status)
  {
    var m := MachineOf(run, v);
    SoundRunsHaveABasis(hash, run, v);
    EnabledPlansSettle(v, m, c);
    EnabledRunsAreUnfinished(v, m, c);
    PlansKeepIdentity(v, m.state, c);
    AppliedExtends(hash, run, v, w, PlanOf(v, m.state, c));
  }

  lemma ExtendsItself(v: RunRows)
    ensures Extends(v, v)
  {
    assert v.events[..|v.events|] == v.events && v.history[..|v.history|] == v.history;
  }

  lemma OtherRunExtends(t: Tables, changed: string, w: RunRows, run: string)
    requires run in t && run != changed
    ensures run in t[changed := w] && Extends(t[run], t[changed := w][run])
  {
    ExtendsItself(t[run]);
  }

  lemma NextExtends(hash: ContentHash, t: Tables, u: Tables, a: Action, run: string)
    requires SoundLedger(hash, t) && Next(hash, t, u, a) && run in t
    ensures run in u && Extends(t[run], u[run])
  {
    if u == t {
      ExtendsItself(t[run]);
    } else if a.Create? {
      OtherRunExtends(t, a.manifest.runId, u[a.manifest.runId], run);
    } else if a.run != run {
      OtherRunExtends(t, a.run, u[a.run], run);
    } else {
      var v, w := t[run], u[run];
      assert Sound(hash, run, v);
      PerformedRunExtends(hash, run, v, w, a.command);
    }
  }

  lemma ExtendsIsTransitive(u: RunRows, v: RunRows, w: RunRows)
    requires Extends(u, v) && Extends(v, w)
    ensures Extends(u, w)
  {
    assert w.events[..|u.events|] == w.events[..|v.events|][..|u.events|];
    assert w.history[..|u.history|] == w.history[..|v.history|][..|u.history|];
  }

  /** Over any sequence of calls a run keeps its identity and its events, manifest
      revisions and artifacts only grow; once it is finished nothing changes. */
  lemma {:induction false} LedgersOnlyGrow(
      hash: ContentHash, states: seq<Tables>, actions: seq<Action>, i: nat, j: nat, run: string)
    requires Visits(hash, states, actions) && i <= j < |states| && run in states[i]
    ensures run in states[j] && Extends(states[i][run], states[j][run])
    decreases j - i
  {
    if i < j {
      LedgersOnlyGrow(hash, states, actions, i, j - 1, run);
      VisitedLedgersAreSound(hash, states, actions, j - 1);
      NextExtends(hash, states[j - 1], states[j], actions[j - 1], run);
      ExtendsIsTransitive(states[i][run], states[j - 1][run], states[j][run]);
    }
  }

  // ----------------------------------------------------------- what it amounts to

  /** In every committed state the charge and the reservation together respect all
      ten limits, and what is reserved is the outstanding request's maximum or nothing. */
  lemma BudgetsRespectLimits(hash: ContentHash, states: seq<Tables>, actions: seq<Action>, i: nat, run: string)
    requires Visits(hash, states, actions) && i < |states| && run in states[i]
    ensures var v := states[i][run];
            && ExceededLimits(Add(v.budget.used, v.budget.reserved), v.row.manifest.identity.limits) == []
            && Fold(run, v.events).Accepted?
            && var s := MachineOf(run, v).state;
               && (s.requestState == Started ==> Some(v.budget.reserved) == s.requestMaximum)
               && (s.requestState != Started ==> v.budget.reserved == ZERO)
  {
    VisitedLedgersAreSound(hash, states, actions, i);
    var v := states[i][run];
    SoundState(hash, run, v);
    SoundRunsHaveABasis(hash, run, v);
    ExceededNothing(Add(v.budget.used, v.budget.reserved), v.budget.limits);
  }

  /** The final budget of a finished run, read off its events. */
  lemma FinishedRunsAreChargedExactly(hash: ContentHash, states: seq<Tables>, actions: seq<Action>, i: nat, run: string)
    requires Visits(hash, states, actions) && i < |states| && run in states[i]
    requires IsTerminal(states[i][run].row.status)
    ensures var v := states[i][run];
            && Replayed(hash, v.events, true).Accepted?
            && v.budget.reserved == ZERO
            && var s := Replayed(hash, v.events, true).value;
               v.budget.used ==
                 if ReportedUsage(v.events).Some? then ReportedUsage(v.events).value
                 else if s.requestMaximum.Some? then s.requestMaximum.value
                 else ZERO
  {
    VisitedLedgersAreSound(hash, states, actions, i);
    var v := states[i][run];
    SoundState(hash, run, v);
    assert ValidatedState(hash, v).Accepted?;
    FinalCharge(hash, v.events);
    FoldIsConsistent(run, v.events);
  }

  lemma RecoveryLeaves(v: RunRows, m: Machine, finishedAt: int, reason: string)
    requires Basis(v, m) && CanRecover(m.state, reason) && !IsTerminal(v.row.manifest.status)
    ensures var plan := RecoveryPlan(v, m.state, finishedAt, reason);
            && plan.saved && plan.manifest.status == InfrastructureError && plan.reserved == ZERO
            && plan.used == Add(v.budget.used, v.budget.reserved)
            && plan.manifest.terminalReason == Some(RecoveryReason(m.state, reason))
  {
    AmbiguousReasonIsText();
    StripFacts(RecoveryReason(m.state, reason));
    AddZero(m.state.used);
  }

  /** A finished run's stream is complete and no operation is enabled on it. */
  lemma FinishedRunsStayFinished(hash: ContentHash, run: string, w: RunRows)
    requires Sound(hash, run, w) && IsTerminal(w.row.status)
    ensures Replayed(hash, w.events, true).Accepted?
    ensures forall c :: !Enabled(w, MachineOf(run, w).state, c)
  {
    SoundRunsHaveABasis(hash, run, w);
    assert TerminalStateValid(hash, w);
    forall c ensures !Enabled(w, MachineOf(run, w).state, c) {
      if Enabled(w, MachineOf(run, w).state, c) { EnabledRunsAreUnfinished(w, MachineOf(run, w), c); }
    }
  }

  /** What recovery leaves: an infrastructure error with an outstanding request
      charged at its full maximum and, in that case only, a reason of its own. */
  lemma RecoveredRows(hash: ContentHash, run: string, v: RunRows, m: Machine, w: RunRows, finishedAt: int, reason: string)
    requires Basis(v, m) && CanRecover(m.state, reason) && !IsTerminal(v.row.manifest.status)
    requires Applies(hash, run, v, w, RecoveryPlan(v, m.state, finishedAt, reason))
    ensures w.row.status == InfrastructureError && w.budget.reserved == ZERO
    ensures w.budget.used == Add(v.budget.used, v.budget.reserved)
    ensures w.row.manifest.terminalReason == Some(if m.state.requestState == Started then AMBIGUOUS_REASON else reason)
  {
    RecoveryLeaves(v, m, finishedAt, reason);
  }

  /** The rows stay sound, their stream is complete, and no operation is enabled. */
  ghost predicate ClosedForGood(hash: ContentHash, run: string, w: RunRows) {
    && Sound(hash, run, w) && IsTerminal(w.row.status) && Replayed(hash, w.events, true).Accepted?
    && forall c :: !Enabled(w, MachineOf(run, w).state, c)
  }

  lemma RecoveredRunIsSound(hash: ContentHash, run: string, v: RunRows, w: RunRows, finishedAt: int, reason: string)
    requires Sound(hash, run, v) && !IsTerminal(v.row.manifest.status) && CanRecover(MachineOf(run, v).state, reason)
    requires Applies(hash, run, v, w, RecoveryPlan(v, MachineOf(run, v).state, finishedAt, reason))
    ensures Sound(hash, run, w) && IsTerminal(w.row.status)
  {
    assert Sound(hash, run, w) by { PerformedRunIsSound(hash, run, v, w, Recover(finishedAt, reason)); }
    SoundRunsHaveABasis(hash, run, v);
    RecoveredRows(hash, run, v, MachineOf(run, v), w, finishedAt, reason);
  }

  /** A recovered run is sound, its stream is accepted as terminal, and no operation, a
      second recovery included, is enabled on it. */
  lemma RecoveredRunIsComplete(hash: ContentHash, run: string, v: RunRows, w: RunRows, finishedAt: int, reason: string)
    requires Sound(hash, run, v) && !IsTerminal(v.row.manifest.status) && CanRecover(MachineOf(run, v).state, reason)
    requires Applies(hash, run, v, w, RecoveryPlan(v, MachineOf(run, v).state, finishedAt, reason))
    ensures ClosedForGood(hash, run, w)
  {
    RecoveredRunIsSound(hash, run, v, w, finishedAt, reason);
    FinishedRunsStayFinished(hash, run, w);
  }

  /** From every reachable ledger an unfinished run can be recovered with a reason that
      is nonblank and trimmed: replay accepts recovery's events one after another, the
      writes agree with it, there are rows that carry them out, and any such rows are
      sound, finished and closed to every further operation. */
  lemma EveryRunCanBeRecovered(
      hash: ContentHash, states: seq<Tables>, actions: seq<Action>, i: nat, run: string, finishedAt: int, reason: string)
    requires Visits(hash, states, actions) && i < |states| && run in states[i]
    requires !IsTerminal(states[i][run].row.manifest.status) && !Blank(reason) && Trimmed(reason)
    ensures Fold(run, states[i][run].events).Accepted?
    ensures var v := states[i][run];
            var m := MachineOf(run, v);
            var plan := RecoveryPlan(v, m.state, finishedAt, reason);
            && Turns(m, plan.bodies).Accepted? && Settles(v, plan, Turns(m, plan.bodies).value)
            && (exists w :: Applies(hash, run, v, w, plan))
            && forall w :: Applies(hash, run, v, w, plan) ==> ClosedForGood(hash, run, w)
  {
    VisitedLedgersAreSound(hash, states, actions, i);
    var v := states[i][run];
    assert Sound(hash, run, v);
    var m := MachineOf(run, v);
    SoundRunsHaveABasis(hash, run, v);
    RecoverySettles(v, m, finishedAt, reason);
    var plan := RecoveryPlan(v, m.state, finishedAt, reason);
    var w := PlanIsCarriedOut(hash, run, v, plan);
    forall w | Applies(hash, run, v, w, plan) ensures ClosedForGood(hash, run, w) {
      RecoveredRunIsComplete(hash, run, v, w, finishedAt, reason);
    }
  }

  /** Recovery is not total. A reason padded with whitespace passes the method's own
      check and every event of the recovery is legal, but unless a request is
      outstanding the writes disagree with replay: no rows that carry them out verify. */
  lemma PaddedReasonIsRefused(hash: ContentHash, run: string, v: RunRows, finishedAt: int, reason: string)
    requires Sound(hash, run, v) && !IsTerminal(v.row.manifest.status)
    requires !Blank(reason) && !Trimmed(reason) && MachineOf(run, v).state.requestState != Started
    ensures var m := MachineOf(run, v);
            var plan := RecoveryPlan(v, m.state, finishedAt, reason);
            && Turns(m, plan.bodies).Accepted? && !Passes(v, plan, Turns(m, plan.bodies).value)
            && (exists w :: Applies(hash, run, v, w, plan))
            && forall w :: Applies(hash, run, v, w, plan) ==> !RunVerifies(hash, w)
  {
    var m := MachineOf(run, v);
    var plan := RecoveryPlan(v, m.state, finishedAt, reason);
    SoundRunsHaveABasis(hash, run, v);
    InterruptedIsText();
    EndingTurns(m, "interrupted", InfrastructureError, reason, true);
    if Passes(v, plan, Turns(m, plan.bodies).value) { RecoveryNeeds(v, m, finishedAt, reason); }
    EndedManifestIsValid(v.row.manifest, InfrastructureError, finishedAt, reason);
    var w := PlanIsCarriedOut(hash, run, v, plan);
    forall w | Applies(hash, run, v, w, plan) ensures !RunVerifies(hash, w) {
      AppliedPlanVerifies(hash, run, v, w, plan);
    }
  }

  /** A trailing space is padding. */
  lemma PaddedReasonExists()
    ensures !Blank("operator abort ") && !Trimmed("operator abort ")
  {
    var reason := "operator abort ";
    assert !IsSpace(reason[0]) && IsSpace(reason[|reason| - 1]);
  }
}
