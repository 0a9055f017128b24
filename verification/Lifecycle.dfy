/** The lifecycle operations on one run: what each may write, when it may write it,
    and why what it writes leaves the run's rows in agreement with replay. */
module Lifecycle {
  import opened Text
  import opened Usage
  import opened Events
  import opened Replay
  import opened ReplayLaws
  import opened Ledger

  // ------------------------------------------------------- the ledger invariant

  /** The states a committed, unfinished run can rest in. */
  predicate Resting(s: ReplayState) {
    !IsTerminal(s.status) ==>
      && s.outcome == None && s.absent == map[] && s.requestState != Ambiguous
      && (s.requestState == Completed ==> s.artifacts.Keys == {TaskSpec, Patch})
  }

  function MachineOf(run: string, v: RunRows): Machine
    requires Fold(run, v.events).Accepted?
  {
    Fold(run, v.events).value
  }

  ghost predicate Sound(hash: ContentHash, run: string, v: RunRows) {
    && RunVerifies(hash, v)
    && Issued(hash, run, v.events) && v.events != [] && v.row.manifest.runId == run
    && ValidManifest(v.row.manifest)
    && v.row.revision < |v.events|
    && Within(Add(v.budget.used, v.budget.reserved), v.budget.limits)
    && Fold(run, v.events).Accepted?
    && MachineOf(run, v).pending == None && Resting(MachineOf(run, v).state)
  }

  ghost predicate SoundLedger(hash: ContentHash, t: Tables) {
    forall run {:trigger Sound(hash, run, t[run])} :: run in t ==> Sound(hash, run, t[run])
  }

  lemma SoundState(hash: ContentHash, run: string, v: RunRows)
    requires Sound(hash, run, v)
    ensures var m := MachineOf(run, v);
            && Consistent(m) && m.created && m.state.eventCount == |v.events| && m.state.runId == run
            && ValidatedState(hash, v) == Accepted(m.state)
            && AgreesWithReplay(m.state, v.row.manifest, v.budget)
            && v.budget.limits == v.row.manifest.identity.limits && v.row.status == v.row.manifest.status
  {
    IssuedIsChained(hash, run, v.events);
    FoldIsConsistent(run, v.events);
    assert v.events[0].runId == run;
  }

  // ------------------------------------------------------------------- writes

  /** One transaction's writes: the event payloads in order, the manifest and
      whether it is a new revision, and the budget index. */
  datatype Plan = Plan(
    bodies: seq<Body>, manifest: RunManifest, saved: bool, used: BudgetUsage, reserved: BudgetUsage)

  ghost predicate Applies(hash: ContentHash, run: string, v: RunRows, w: RunRows, plan: Plan) {
    && |w.events| == |v.events| + |plan.bodies| && w.events[..|v.events|] == v.events
    && Bodies(w.events) == Bodies(v.events) + plan.bodies
    && Issued(hash, run, w.events)
    && w.budget == BudgetRow(v.budget.limits, plan.used, plan.reserved)
    && (if plan.saved then
          && w.row == RunRow(plan.manifest.status, v.row.revision + 1, plan.manifest)
          && w.history == v.history + [plan.manifest]
        else w.row == v.row && w.history == v.history)
  }

  /** The stream with these payloads appended, each as the successor of what is there. */
  function Appended(hash: ContentHash, run: string, events: seq<EventRecord>, bodies: seq<Body>): seq<EventRecord>
    decreases |bodies|
  {
    if bodies == [] then events
    else Appended(hash, run, events + [NextEvent(hash, run, events, Stamp(0, 0), bodies[0])], bodies[1..])
  }

  lemma {:induction false} AppendedIsIssued(hash: ContentHash, run: string, events: seq<EventRecord>, bodies: seq<Body>)
    requires Issued(hash, run, events)
    ensures var all := Appended(hash, run, events, bodies);
            && Issued(hash, run, all) && |all| == |events| + |bodies| && all[..|events|] == events
            && Bodies(all) == Bodies(events) + bodies
    decreases |bodies|
  {
    if bodies != [] {
      var e := NextEvent(hash, run, events, Stamp(0, 0), bodies[0]);
      IssuedExtension(hash, run, events, Stamp(0, 0), bodies[0]);
      AppendedIsIssued(hash, run, events + [e], bodies[1..]);
      var all := Appended(hash, run, events + [e], bodies[1..]);
      assert all[..|events|] == all[..|events| + 1][..|events|] == events;
      assert Bodies(events + [e]) == Bodies(events) + [bodies[0]];
      assert bodies == [bodies[0]] + bodies[1..];
    } else {
      assert events[..|events|] == events;
    }
  }

  /** Whatever a plan writes, there are rows that carry it out. */
  lemma PlanIsCarriedOut(hash: ContentHash, run: string, v: RunRows, plan: Plan) returns (w: RunRows)
    requires Issued(hash, run, v.events)
    ensures Applies(hash, run, v, w, plan)
  {
    AppendedIsIssued(hash, run, v.events, plan.bodies);
    w := v.(events := Appended(hash, run, v.events, plan.bodies),
            budget := BudgetRow(v.budget.limits, plan.used, plan.reserved));
    if plan.saved {
      w := w.(row := RunRow(plan.manifest.status, v.row.revision + 1, plan.manifest), history := v.history + [plan.manifest]);
    }
  }

  /** The checks that stand between staged writes and the commit. */
  predicate Passes(v: RunRows, plan: Plan, m: Machine) {
    && (if plan.saved then TransitionAllowed(v.row.manifest, plan.manifest) else plan.manifest == v.row.manifest)
    && AgreesWithReplay(m.state, plan.manifest, BudgetRow(v.budget.limits, plan.used, plan.reserved))
    && (IsTerminal(plan.manifest.status) ==>
          ClosedOut(m) && m.state.terminalReason == plan.manifest.terminalReason)
  }

  /** Passing writes that also leave the run resting and its manifest valid. */
  predicate Settles(v: RunRows, plan: Plan, m: Machine) {
    && Passes(v, plan, m)
    && plan.bodies != [] && ValidManifest(plan.manifest)
    && m.pending == None && Resting(m.state)
  }

  predicate WithinLimits(plan: Plan, limits: BudgetLimits) {
    Within(Add(plan.used, plan.reserved), limits)
  }

  function AfterPlan(run: string, v: RunRows, plan: Plan): Verdict<Machine>
    requires Fold(run, v.events).Accepted?
  {
    Turns(MachineOf(run, v), plan.bodies)
  }

  lemma AppliedFold(hash: ContentHash, run: string, v: RunRows, w: RunRows, plan: Plan)
    requires Sound(hash, run, v) && Applies(hash, run, v, w, plan)
    ensures Fold(run, w.events) == AfterPlan(run, v, plan)
  {
    FoldIsTurns(hash, run, v.events);
    FoldIsTurns(hash, run, w.events);
    TurnsConcat(Initial(run), Bodies(v.events), plan.bodies);
  }

  lemma AppliedReplay(hash: ContentHash, run: string, v: RunRows, w: RunRows, plan: Plan)
    requires Sound(hash, run, v) && Applies(hash, run, v, w, plan)
    requires AfterPlan(run, v, plan).Accepted?
    ensures var m := AfterPlan(run, v, plan).value;
            && Replayed(hash, w.events, false) == Accepted(m.state)
            && (Replayed(hash, w.events, true).Accepted? <==> ClosedOut(m))
            && w.events != [] && w.events[0] == v.events[0]
  {
    AppliedFold(hash, run, v, w, plan);
    IssuedIsChained(hash, run, w.events);
    FoldIsConsistent(run, w.events);
    assert w.events[0] == w.events[..|v.events|][0] == v.events[0];
  }

  lemma ValidatedStateIs(hash: ContentHash, w: RunRows, s: ReplayState)
    requires Replayed(hash, w.events, false) == Accepted(s) && BudgetLoads(w)
    requires w.events[0].body == CreationBody(w.row.manifest)
    ensures ValidatedState(hash, w) ==
            if AgreesWithReplay(s, w.row.manifest, w.budget) then Accepted(s) else Rejected
  {}

  lemma AppliedState(hash: ContentHash, run: string, v: RunRows, w: RunRows, plan: Plan)
    requires Sound(hash, run, v) && Applies(hash, run, v, w, plan)
    requires AfterPlan(run, v, plan).Accepted?
    requires plan.manifest.identity == v.row.manifest.identity && plan.manifest.runId == run
    requires if plan.saved then TransitionAllowed(v.row.manifest, plan.manifest) else plan.manifest == v.row.manifest
    ensures var s := AfterPlan(run, v, plan).value.state;
            && (ValidatedState(hash, w).Accepted? <==> AgreesWithReplay(s, plan.manifest, w.budget))
            && (ValidatedState(hash, w).Accepted? ==> ValidatedState(hash, w).value == s)
            && ManifestLoads(w) && HistoryValid(w) && w.row.manifest == plan.manifest
  {
    SoundState(hash, run, v);
    AppliedReplay(hash, run, v, w, plan);
    AppliedHistory(v, w, plan, hash, run);
    assert v.events[0].body == CreationBody(v.row.manifest);
    assert CreationBody(w.row.manifest) == CreationBody(v.row.manifest);
    assert BudgetLoads(w);
    ValidatedStateIs(hash, w, AfterPlan(run, v, plan).value.state);
  }

  /** Staged writes verify exactly when the appended events replay and the checks pass. */
  lemma AppliedPlanVerifies(hash: ContentHash, run: string, v: RunRows, w: RunRows, plan: Plan)
    requires Sound(hash, run, v) && Applies(hash, run, v, w, plan)
    requires AfterPlan(run, v, plan).Accepted?
    requires plan.manifest.identity == v.row.manifest.identity && plan.manifest.runId == run
    requires if plan.saved then TransitionAllowed(v.row.manifest, plan.manifest) else plan.manifest == v.row.manifest
    ensures RunVerifies(hash, w) <==> Passes(v, plan, AfterPlan(run, v, plan).value)
  {
    AppliedReplay(hash, run, v, w, plan);
    AppliedState(hash, run, v, w, plan);
  }

  lemma AppliedHistory(v: RunRows, w: RunRows, plan: Plan, hash: ContentHash, run: string)
    requires HistoryValid(v) && Applies(hash, run, v, w, plan)
    requires plan.manifest.runId == v.row.manifest.runId
    requires if plan.saved then TransitionAllowed(v.row.manifest, plan.manifest) else plan.manifest == v.row.manifest
    ensures HistoryValid(w)
    ensures w.row.revision < |w.history| && w.history[w.row.revision] == w.row.manifest
  {
    if plan.saved {
      forall i | 0 < i < |w.history| ensures RevisionFollows(w.history, i) {
        if i < |v.history| {
          assert RevisionFollows(v.history, i);
          assert w.history[i - 1] == v.history[i - 1] && w.history[i] == v.history[i];
        }
      }
    }
  }

  lemma SettledPlanIsSound(hash: ContentHash, run: string, v: RunRows, w: RunRows, plan: Plan)
    requires Sound(hash, run, v) && Applies(hash, run, v, w, plan)
    requires AfterPlan(run, v, plan).Accepted? && Settles(v, plan, AfterPlan(run, v, plan).value)
    requires plan.manifest.identity == v.row.manifest.identity && plan.manifest.runId == run
    requires WithinLimits(plan, v.budget.limits)
    ensures Sound(hash, run, w)
  {
    AppliedPlanVerifies(hash, run, v, w, plan);
    AppliedFold(hash, run, v, w, plan);
  }

  // ---------------------------------------------- what an operation starts from

  /** A run's rows seen against the machine its events replay to. */
  predicate Basis(v: RunRows, m: Machine) {
    && Consistent(m) && m.created && m.pending == None && Resting(m.state)
    && m.state.requestedModel == Some(v.row.manifest.identity.requestedModel)
    && AgreesWithReplay(m.state, v.row.manifest, v.budget)
    && ValidManifest(v.row.manifest)
  }

  predicate BudgetedWithin(b: BudgetRow) {
    Within(Add(b.used, b.reserved), b.limits)
  }

  lemma SameChargeKeepsLimits(plan: Plan, b: BudgetRow)
    requires BudgetedWithin(b) && Add(plan.used, plan.reserved) == Add(b.used, b.reserved)
    ensures WithinLimits(plan, b.limits)
  {}

  lemma SoundRunsHaveABasis(hash: ContentHash, run: string, v: RunRows)
    requires Sound(hash, run, v)
    ensures Basis(v, MachineOf(run, v)) && BudgetedWithin(v.budget)
  {
    SoundState(hash, run, v);
    CreationNamesTheModel(hash, run, v);
  }

  lemma CreationNamesTheModel(hash: ContentHash, run: string, v: RunRows)
    requires Sound(hash, run, v)
    ensures MachineOf(run, v).state.requestedModel == Some(v.row.manifest.identity.requestedModel)
  {
    SoundState(hash, run, v);
    IssuedIsChained(hash, run, v.events);
    assert v.events[0].body == CreationBody(v.row.manifest);
    FirstEventNamesTheModel(run, v.events);
  }

  lemma {:induction false} FirstEventNamesTheModel(run: string, events: seq<EventRecord>)
    requires events != [] && Fold(run, events).Accepted? && events[0].body.RunCreated?
    requires events[0].body.creation.requestedModel.Text?
    ensures Fold(run, events).value.state.requestedModel == Some(events[0].body.creation.requestedModel.text)
  {
    if |events| == 1 {
      assert events[..0] == [];
      assert Fold(run, events) == Step(Initial(run), events[0]);
    } else {
      var before := events[..|events| - 1];
      assert before[0] == events[0];
      FirstEventNamesTheModel(run, before);
      FoldIsConsistent(run, before);
      TurnKeepsTheModel(Fold(run, before).value, events[|events| - 1].sequence, events[|events| - 1].body);
    }
  }

  lemma TurnKeepsTheModel(m: Machine, sequence: nat, b: Body)
    requires m.created && Turn(m, sequence, b).Accepted?
    ensures Turn(m, sequence, b).value.state.requestedModel == m.state.requestedModel
  {}
}
