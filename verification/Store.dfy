/** The event store: one writer, whose transactions work on a copy of the tables
    that is validated as a whole and then installed or discarded. */
module Store {
  import opened Text
  import opened Usage
  import opened Events
  import opened Replay
  import opened ReplayLaws
  import opened Ledger
  import opened Lifecycle
  import opened Plans
  import opened TerminalPlans
  import opened EvaluationPlans
  import opened Commands
  import opened Keys
  import opened Roots

  datatype StoreError = InvalidArgument | UnknownRun | IntegrityFailure

  datatype Result<+T> = Ok(value: T) | Err(error: StoreError)

  datatype TerminalResult = TerminalResult(manifest: RunManifest, events: seq<EventRecord>)

  /** A caller's integrity check on the locked roots; the number tells its first
      call from its second, because what it inspects may change in between. */
  type Guard = (nat, seq<Root>) -> bool

  ghost predicate GuardAllows(guard: Option<Guard>, call: nat, h: Hashes, t: Tables) {
    guard.Some? ==> NoEmptyStream(t) && guard.value(call, RootsOf(h, t))
  }

  /** The ledger is the one the caller expects, and its guard agrees. */
  ghost predicate Admits(h: Hashes, t: Tables, expected: Option<string>, guard: Option<Guard>) {
    expected.Some? ==> NoEmptyStream(t) && RootsDigest(h, RootsOf(h, t)) == expected && GuardAllows(guard, 0, h, t)
  }

  predicate GuardArguments(reason: string, expected: Option<string>, guard: Option<Guard>) {
    !Blank(reason) && (expected.Some? ==> IsSha256(expected.value)) && (guard.Some? ==> expected.Some?)
  }

  /** The plan's events replay and every later check passes. */
  ghost predicate Lands(run: string, v: RunRows, plan: Plan) {
    && Fold(run, v.events).Accepted? && AfterPlan(run, v, plan).Accepted?
    && Passes(v, plan, AfterPlan(run, v, plan).value)
  }

  // ------------------------------------------------------------ about appending

  lemma AppendReplays(hash: ContentHash, run: string, events: seq<EventRecord>, stamp: Stamp, body: Body)
    requires Issued(hash, run, events) && Fold(run, events).Accepted?
    ensures var all := events + [NextEvent(hash, run, events, stamp, body)];
            && Issued(hash, run, all)
            && Fold(run, all) == Turn(Fold(run, events).value, Fold(run, events).value.state.eventCount, body)
            && (Replayed(hash, all, false).Accepted? <==> Fold(run, all).Accepted?)
  {
    var e := NextEvent(hash, run, events, stamp, body);
    IssuedExtension(hash, run, events, stamp, body);
    IssuedIsChained(hash, run, events + [e]);
    FoldIsConsistent(run, events);
    FoldExtension(run, events, e);
    IssuedNames(hash, run, events + [e], |events|);
    IssuedNames(hash, run, events + [e], 0);
  }

  lemma RejectedTurnsStayRejected(m: Machine, bodies: seq<Body>, n: nat)
    requires n <= |bodies| && Turns(m, bodies[..n]).Rejected?
    ensures Turns(m, bodies).Rejected?
  {
    TurnsConcat(m, bodies[..n], bodies[n..]);
    assert bodies == bodies[..n] + bodies[n..];
  }

  lemma BodiesExtension(events: seq<EventRecord>, e: EventRecord)
    ensures Bodies(events + [e]) == Bodies(events) + [e.body]
  {}

  lemma SoundLedgersVerify(hash: ContentHash, t: Tables)
    requires SoundLedger(hash, t)
    ensures LedgerVerifies(hash, t)
  {
    forall run | run in t ensures RunVerifies(hash, t[run]) && OwnRows(run, t[run]) {
      assert Sound(hash, run, t[run]);
      IssuedIsChained(hash, run, t[run].events);
    }
  }

  /** With one run changed, the ledger verifies exactly when that run does. */
  lemma OneRunVerifies(hash: ContentHash, t: Tables, run: string, w: RunRows)
    requires SoundLedger(hash, t) && OwnRows(run, w)
    ensures LedgerVerifies(hash, t[run := w]) <==> RunVerifies(hash, w)
  {
    SoundLedgersVerify(hash, t);
    var u := t[run := w];
    assert u[run] == w;
    forall q | q in u && q != run ensures RunVerifies(hash, u[q]) && OwnRows(q, u[q]) {
      assert u[q] == t[q];
    }
  }

  /** The unique index on event IDs can never refuse an append: no two events of
      the whole ledger share an identifier. */
  lemma EventIdsNeverCollide(hash: ContentHash, t: Tables, p: string, i: nat, q: string, j: nat)
    requires SoundLedger(hash, t) && p in t && q in t && i < |t[p].events| && j < |t[q].events|
    requires t[p].events[i].eventId == t[q].events[j].eventId
    ensures p == q && i == j
  {
    assert Sound(hash, p, t[p]) && Sound(hash, q, t[q]);
    IssuedIsChained(hash, p, t[p].events);
    IssuedIsChained(hash, q, t[q].events);
    EventIdsAreUnique(p, i, q, j);
  }

  // ----------------------------------------------------------- verification

  method ValidateManifestHistory(v: RunRows) returns (ok: bool)
    requires ManifestLoads(v)
    ensures ok <==> HistoryValid(v)
  {
    if |v.history| != v.row.revision + 1 {
      return false;
    }
    var i := 0;
    while i < |v.history|
      invariant 0 <= i <= |v.history|
      invariant forall j :: 0 <= j < i ==> v.history[j].runId == v.row.manifest.runId
      invariant forall j :: 0 < j < i ==> RevisionFollows(v.history, j)
    {
      if v.history[i].runId != v.row.manifest.runId {
        return false;
      }
      if i > 0 && !RevisionFollows(v.history, i) {
        return false;
      }
      i := i + 1;
    }
    return true;
  }

  method ValidatedStateOf(hash: ContentHash, v: RunRows) returns (state: Verdict<ReplayState>)
    ensures state == ValidatedState(hash, v)
  {
    var replayed := ReplayEvents(hash, v.events, false);
    if replayed.Rejected? || v.events[0].body != CreationBody(v.row.manifest) || !BudgetLoads(v)
       || !AgreesWithReplay(replayed.value, v.row.manifest, v.budget) {
      return Rejected;
    }
    return replayed;
  }

  method ValidateTerminalState(hash: ContentHash, v: RunRows) returns (ok: bool)
    ensures ok <==> TerminalStateValid(hash, v)
  {
    var state := ValidatedStateOf(hash, v);
    if state.Rejected? {
      return false;
    }
    var complete := ReplayEvents(hash, v.events, true);
    return complete.Accepted? && state.value.terminalReason == v.row.manifest.terminalReason;
  }

  method VerifyRun(hash: ContentHash, run: string, v: RunRows) returns (ok: bool)
    ensures ok <==> RunVerifies(hash, v) && OwnRows(run, v)
  {
    if !ManifestLoads(v) || !OwnRows(run, v) {
      return false;
    }
    var history := ValidateManifestHistory(v);
    if !history {
      return false;
    }
    var state := ValidatedStateOf(hash, v);
    if state.Rejected? {
      return false;
    }
    if IsTerminal(v.row.manifest.status) {
      ok := ValidateTerminalState(hash, v);
      return;
    }
    return true;
  }

  /** These runs are stored, and everything about them verifies. */
  predicate RunsVerify(hash: ContentHash, t: Tables, runs: seq<string>) {
    forall run :: run in runs ==> run in t && RunVerifies(hash, t[run]) && OwnRows(run, t[run])
  }

  lemma RunsVerifyExtension(hash: ContentHash, t: Tables, runs: seq<string>, run: string)
    requires RunsVerify(hash, t, runs) && run in t && RunVerifies(hash, t[run]) && OwnRows(run, t[run])
    ensures RunsVerify(hash, t, runs + [run])
  {}

  lemma VerifiedRunsHaveEvents(hash: ContentHash, t: Tables, runs: seq<string>)
    requires RunsVerify(hash, t, runs)
    ensures forall k :: k in runs ==> k in t && t[k].events != []
  {}

  lemma AllRunsVerify(hash: ContentHash, t: Tables)
    requires RunsVerify(hash, t, SortedKeys(t.Keys))
    ensures LedgerVerifies(hash, t) && NoEmptyStream(t)
  {
    SortedKeysFacts(t.Keys);
    VerifiedRunsHaveEvents(hash, t, SortedKeys(t.Keys));
    forall run | run in t ensures RunVerifies(hash, t[run]) && OwnRows(run, t[run]) {
      assert run in SortedKeys(t.Keys);
    }
  }

  /** One more verified root, and the roots so far stay those of the rows read. */
  method AddRoot(h: Hashes, t: Tables, ghost runs: seq<string>, roots: seq<Root>, run: string)
    returns (ok: bool, more: seq<Root>)
    requires RunsVerify(h.event, t, runs) && run in t
    requires (forall k :: k in runs ==> k in t && t[k].events != []) && roots == RootsAt(h, t, runs)
    ensures ok <==> RunVerifies(h.event, t[run]) && OwnRows(run, t[run])
    ensures ok ==> RunsVerify(h.event, t, runs + [run])
    ensures ok ==> (forall k :: k in runs + [run] ==> k in t && t[k].events != []) && more == RootsAt(h, t, runs + [run])
  {
    ok := VerifyRun(h.event, run, t[run]);
    if !ok {
      return false, roots;
    }
    RunsVerifyExtension(h.event, t, runs, run);
    VerifiedRunsHaveEvents(h.event, t, runs + [run]);
    RootsAtExtension(h, t, runs, run);
    more := roots + [RootOf(h, t[run])];
  }

  method VerifyTables(h: Hashes, t: Tables) returns (ok: bool, roots: seq<Root>)
    ensures ok <==> LedgerVerifies(h.event, t)
    ensures ok ==> NoEmptyStream(t) && roots == RootsOf(h, t)
  {
    roots := [];
    var rest := t.Keys;
    ghost var done: seq<string> := [];
    while rest != {}
      invariant rest <= t.Keys
      invariant SortedKeys(t.Keys) == done + SortedKeys(rest)
      invariant RunsVerify(h.event, t, done)
      invariant forall k :: k in done ==> k in t && t[k].events != []
      invariant roots == RootsAt(h, t, done)
      decreases |rest|
    {
      LeastExists(rest);
      var run :| run in rest && forall q :: q in rest && q != run ==> Before(run, q);
      assert IsLeast(run, rest);
      OneKeyOn(SortedKeys(t.Keys), done, rest, run);
      ok, roots := AddRoot(h, t, done, roots, run);
      if !ok {
        return;
      }
      done := done + [run];
      rest := rest - {run};
    }
    assert SortedKeys(t.Keys) == done;
    AllRunsVerify(h.event, t);
    ok := true;
  }

  // --------------------------------------------------------- enabled commands

  /** The operation is enabled on the run as it is stored. */
  predicate Allowed(t: Tables, run: string, c: Command) {
    run in t && Fold(run, t[run].events).Accepted? && Enabled(t[run], MachineOf(run, t[run]).state, c)
  }

  lemma AllowedPlansLand(hash: ContentHash, t: Tables, run: string, c: Command)
    requires SoundLedger(hash, t) && Allowed(t, run, c)
    ensures Plannable(c) && Lands(run, t[run], PlanOf(t[run], MachineOf(run, t[run]).state, c))
  {
    assert Sound(hash, run, t[run]);
    SoundRunsHaveABasis(hash, run, t[run]);
    EnabledPlansSettle(t[run], MachineOf(run, t[run]), c);
  }

  /** Building a changed manifest from a stored one. */
  lemma RebuiltFromValid(current: RunManifest, changed: RunManifest)
    requires ValidManifest(current) && changed.returnedModel == current.returnedModel
    requires changed.terminalReason == None || changed.terminalReason == current.terminalReason
    ensures Rebuilt(changed) == if ValidManifest(changed) then Some(changed) else None
  {
    if current.returnedModel.Some? { NonEmptyIsNotBlank(current.returnedModel.value); }
    if current.terminalReason.Some? { NonEmptyIsNotBlank(current.terminalReason.value); }
  }

  lemma StartRebuilds(v: RunRows, startedAt: int, requestedModel: string)
    requires ValidManifest(v.row.manifest) && v.row.manifest.status == Pending
    requires requestedModel == v.row.manifest.identity.requestedModel
    ensures var built := Rebuilt(v.row.manifest.(status := Running, startedAt := Some(startedAt)));
            && (built.Some? <==> CanStart(v, startedAt, requestedModel))
            && (built.Some? ==> built.value == StartPlan(v, startedAt, requestedModel).manifest)
  {
    RebuiltFromValid(v.row.manifest, v.row.manifest.(status := Running, startedAt := Some(startedAt)));
  }

  lemma RecordRebuilds(v: RunRows, artifact: ArtifactRef)
    requires ValidManifest(v.row.manifest) && ValidRef(artifact)
    ensures Rebuilt(v.row.manifest.(artifacts := v.row.manifest.artifacts[TaskSpec := artifact])) ==
            Some(RecordPlan(v, TaskSpec, artifact).manifest)
  {
    RebuiltFromValid(v.row.manifest, v.row.manifest.(artifacts := v.row.manifest.artifacts[TaskSpec := artifact]));
  }

  lemma RecordLandsWhenEnabled(hash: ContentHash, run: string, v: RunRows, artifact: ArtifactRef)
    requires Sound(hash, run, v) && ValidRef(artifact) && v.row.manifest.status == Running
    requires MachineOf(run, v).state.requestState == NotStarted && TaskSpec !in v.row.manifest.artifacts
    requires Lands(run, v, RecordPlan(v, TaskSpec, artifact))
    ensures Enabled(v, MachineOf(run, v).state, Record(TaskSpec, artifact))
  {
    assert CanonicalReference(artifact) by {
      SoundRunsHaveABasis(hash, run, v);
      RecordNeeds(v, MachineOf(run, v), artifact);
    }
  }

  /** A returned model is stripped when the manifest is built. */
  lemma ResponseRebuilds(v: RunRows, q: Response)
    requires ValidManifest(v.row.manifest) && ValidRef(q.patch)
    ensures var built := Rebuilt(v.row.manifest.(
              returnedModel := Some(q.returnedModel), artifacts := v.row.manifest.artifacts[Patch := q.patch]));
            && (built.Some? <==> Strip(q.returnedModel) != "")
            && (built.Some? ==> built.value == ResponsePlan(v, q).manifest)
  {
    StripFacts(q.returnedModel);
    if v.row.manifest.terminalReason.Some? { NonEmptyIsNotBlank(v.row.manifest.terminalReason.value); }
  }

  lemma EvaluationRebuilds(m: RunManifest, q: EvaluationInput)
    requires ValidManifest(m)
    ensures Rebuilt(m.(status := q.status, finishedAt := Some(q.finishedAt), terminalReason := q.terminalReason,
                       artifacts := m.artifacts + q.artifacts)) ==
            if ValidManifest(EvaluatedManifest(m, q)) then Some(EvaluatedManifest(m, q)) else None
  {
    if m.returnedModel.Some? { NonEmptyIsNotBlank(m.returnedModel.value); }
  }

  lemma EndingRebuilds(m: RunManifest, status: RunStatus, finishedAt: int, reason: string)
    requires ValidManifest(m) && !IsTerminal(m.status) && !Blank(reason)
    requires status in {InfrastructureError, BudgetExhausted}
    ensures Rebuilt(m.(status := status, finishedAt := Some(FinishTime(m, finishedAt)), terminalReason := Some(reason))) ==
            Some(EndedManifest(m, status, finishedAt, reason))
  {
    EndedManifestIsValid(m, status, finishedAt, reason);
    if m.returnedModel.Some? { NonEmptyIsNotBlank(m.returnedModel.value); }
  }

  /** What start_model_request checks of the stored run before it appends. */
  predicate RequestStands(v: RunRows, maximum: BudgetUsage, used: BudgetUsage, reserved: BudgetUsage) {
    && v.row.manifest.status == Running && used == v.budget.used && reserved == Add(v.budget.reserved, maximum)
    && ExceededLimits(Add(used, reserved), v.row.manifest.identity.limits) == []
  }

  lemma EnabledRequestStands(
      v: RunRows, s: ReplayState, requestId: string, maximum: BudgetUsage, used: BudgetUsage, reserved: BudgetUsage)
    requires v.budget.limits == v.row.manifest.identity.limits
    requires Enabled(v, s, Request(requestId, maximum, used, reserved))
    ensures RequestStands(v, maximum, used, reserved) && requestId != "" && maximum.modelCalls == 1
  {
    ExceededNothing(Add(used, reserved), v.row.manifest.identity.limits);
  }

  lemma RecoveryRebuilds(m: RunManifest, s: ReplayState, finishedAt: int, reason: string)
    requires ValidManifest(m) && !IsTerminal(m.status) && !Blank(reason)
    ensures var actual := RecoveryReason(s, reason);
            Rebuilt(m.(status := InfrastructureError, finishedAt := Some(FinishTime(m, finishedAt)),
                       terminalReason := Some(actual))) ==
            Some(EndedManifest(m, InfrastructureError, finishedAt, actual))
  {
    AmbiguousReasonIsText();
    NonEmptyIsNotBlank(AMBIGUOUS_REASON);
    EndingRebuilds(m, InfrastructureError, finishedAt, RecoveryReason(s, reason));
  }

  lemma RequestLandsWhenEnabled(
      hash: ContentHash, run: string, v: RunRows, requestId: string, maximum: BudgetUsage, used: BudgetUsage, reserved: BudgetUsage)
    requires Sound(hash, run, v) && maximum.modelCalls == 1 && RequestStands(v, maximum, used, reserved)
    requires Lands(run, v, RequestPlan(v, requestId, maximum, used, reserved))
    ensures Enabled(v, MachineOf(run, v).state, Request(requestId, maximum, used, reserved))
  {
    SoundRunsHaveABasis(hash, run, v);
    SoundState(hash, run, v);
    RequestNeeds(v, MachineOf(run, v), requestId, maximum, used, reserved);
    ExceededNothing(Add(used, reserved), v.row.manifest.identity.limits);
  }

  /** What complete_model_response checks of the stored run and its replayed state. */
  predicate ResponseStands(v: RunRows, s: ReplayState, q: Response) {
    && s.requestState == RequestState.Started && s.requestId == Some(q.requestId)
    && s.requestMaximum.Some? && AtMost(q.actual, s.requestMaximum.value) && q.actual.modelCalls == 1
    && q.used == Add(v.budget.used, q.actual)
    && Subtract(v.budget.reserved, s.requestMaximum.value) == Some(q.reserved)
    && Patch !in v.row.manifest.artifacts
  }

  lemma EnabledResponseStands(v: RunRows, m: Machine, q: Response)
    requires Basis(v, m) && Enabled(v, m.state, Respond(q))
    ensures ResponseStands(v, m.state, q) && Strip(q.returnedModel) != ""
  {
    NonEmptyIsNotBlank(q.returnedModel);
    assert Patch !in Digests(v.row.manifest.artifacts);
  }

  lemma ResponseLandsWhenEnabled(hash: ContentHash, run: string, v: RunRows, q: Response)
    requires Sound(hash, run, v) && ValidRef(q.patch) && ResponseStands(v, MachineOf(run, v).state, q)
    requires Strip(q.returnedModel) != "" && Lands(run, v, ResponsePlan(v, q))
    ensures Enabled(v, MachineOf(run, v).state, Respond(q))
  {
    SoundRunsHaveABasis(hash, run, v);
    RespondNeeds(v, MachineOf(run, v), q);
  }

  lemma EvaluationLandsWhenEnabled(hash: ContentHash, run: string, v: RunRows, q: EvaluationInput)
    requires Sound(hash, run, v) && EvaluationStands(v, MachineOf(run, v).state, q)
    requires forall r :: r in q.artifacts ==> ValidRef(q.artifacts[r])
    requires ValidManifest(EvaluatedManifest(v.row.manifest, q)) && Lands(run, v, EvaluationPlan(v, q))
    ensures Enabled(v, MachineOf(run, v).state, Evaluate(q))
  {
    SoundRunsHaveABasis(hash, run, v);
    EvaluationNeeds(v, MachineOf(run, v), q);
  }

  lemma RecoveryLandsWhenEnabled(hash: ContentHash, run: string, v: RunRows, finishedAt: int, reason: string)
    requires Sound(hash, run, v) && !IsTerminal(v.row.manifest.status) && !Blank(reason)
    requires Lands(run, v, RecoveryPlan(v, MachineOf(run, v).state, finishedAt, reason))
    ensures Enabled(v, MachineOf(run, v).state, Recover(finishedAt, reason))
  {
    var s := MachineOf(run, v).state;
    assert CanRecover(s, reason) by {
      SoundRunsHaveABasis(hash, run, v);
      RecoveryNeeds(v, MachineOf(run, v), finishedAt, reason);
    }
  }

  lemma RefusalLandsWhenEnabled(hash: ContentHash, run: string, v: RunRows, finishedAt: int, reason: string)
    requires Sound(hash, run, v) && !IsTerminal(v.row.manifest.status) && !Blank(reason)
    requires MachineOf(run, v).state.requestState == NotStarted
    requires Lands(run, v, RefusalPlan(v, MachineOf(run, v).state, finishedAt, reason))
    ensures Enabled(v, MachineOf(run, v).state, Refuse(finishedAt, reason))
  {
    SoundRunsHaveABasis(hash, run, v);
    RefusalNeeds(v, MachineOf(run, v), finishedAt, reason);
  }

  // ------------------------------------------------------------------ staging

  ghost predicate AppendsTo(hash: ContentHash, run: string, a: seq<EventRecord>, b: seq<EventRecord>, bodies: seq<Body>) {
    |b| == |a| + |bodies| && b[..|a|] == a && Bodies(b) == Bodies(a) + bodies && Issued(hash, run, b)
  }

  /** Only this run's event stream differs, by the appended payloads. */
  ghost predicate Grown(hash: ContentHash, run: string, t: Tables, u: Tables, bodies: seq<Body>) {
    && run in t && run in u && u == t[run := t[run].(events := u[run].events)]
    && AppendsTo(hash, run, t[run].events, u[run].events, bodies)
  }

  lemma GrownNot(hash: ContentHash, run: string, t: Tables)
    requires run in t && Issued(hash, run, t[run].events)
    ensures Grown(hash, run, t, t, [])
  {
    var v := t[run];
    assert v.events[..|v.events|] == v.events && Bodies(v.events) + [] == Bodies(v.events);
    assert v == v.(events := v.events) && t == t[run := v];
  }

  lemma AppendsOneMore(
      hash: ContentHash, run: string, a: seq<EventRecord>, b: seq<EventRecord>, c: seq<EventRecord>, bodies: seq<Body>, body: Body)
    requires AppendsTo(hash, run, a, b, bodies) && AppendsTo(hash, run, b, c, [body])
    ensures AppendsTo(hash, run, a, c, bodies + [body])
  {
    assert c[..|a|] == c[..|b|][..|a|];
    assert Bodies(a) + bodies + [body] == Bodies(a) + (bodies + [body]);
  }

  lemma GrownOneMore(hash: ContentHash, run: string, t: Tables, u: Tables, w: Tables, bodies: seq<Body>, body: Body)
    requires Grown(hash, run, t, u, bodies) && Grown(hash, run, u, w, [body])
    ensures Grown(hash, run, t, w, bodies + [body])
  {
    AppendsOneMore(hash, run, t[run].events, u[run].events, w[run].events, bodies, body);
    assert w == t[run := t[run].(events := w[run].events)];
  }

  /** The staged copy of the tables once a plan's writes are in. */
  function Staged(t: Tables, run: string, plan: Plan): Tables
    requires run in t
  {
    var v := t[run];
    var w := v.(budget := BudgetRow(v.budget.limits, plan.used, plan.reserved));
    t[run :=
      if plan.saved then
        w.(row := RunRow(plan.manifest.status, v.row.revision + 1, plan.manifest), history := v.history + [plan.manifest])
      else w]
  }

  lemma SavedThenUpdated(t: Tables, run: string, plan: Plan)
    requires run in t
    ensures var v := t[run];
            var saved :=
              if plan.saved then
                t[run := v.(row := RunRow(plan.manifest.status, v.row.revision + 1, plan.manifest),
                            history := v.history + [plan.manifest])]
              else t;
            saved[run := saved[run].(budget := BudgetRow(saved[run].budget.limits, plan.used, plan.reserved))]
              == Staged(t, run, plan)
  {}

  lemma StagedPlanApplies(hash: ContentHash, run: string, t: Tables, u: Tables, plan: Plan)
    requires Grown(hash, run, t, u, plan.bodies)
    ensures Committed(hash, t, Staged(u, run, plan), run, plan)
  {
    assert Staged(u, run, plan) == t[run := Staged(u, run, plan)[run]];
  }

  /** A staged plan lands exactly when the changed ledger verifies. */
  lemma CommittedVerifies(hash: ContentHash, t: Tables, u: Tables, run: string, plan: Plan)
    requires SoundLedger(hash, t) && Committed(hash, t, u, run, plan)
    requires plan.manifest.identity == t[run].row.manifest.identity && plan.manifest.runId == run
    requires if plan.saved then TransitionAllowed(t[run].row.manifest, plan.manifest) else plan.manifest == t[run].row.manifest
    requires Fold(run, t[run].events).Accepted? && AfterPlan(run, t[run], plan).Accepted?
    ensures LedgerVerifies(hash, u) <==> Lands(run, t[run], plan)
    ensures Lands(run, t[run], plan) && IsTerminal(plan.manifest.status) ==> TerminalStateValid(hash, u[run])
  {
    var v, w := t[run], u[run];
    assert Sound(hash, run, v);
    AppliedPlanVerifies(hash, run, v, w, plan);
    assert OwnRows(run, w) by {
      AppliedOwnRows(hash, run, v, w, plan);
    }
    OneRunVerifies(hash, t, run, w);
  }

  lemma AppliedOwnRows(hash: ContentHash, run: string, v: RunRows, w: RunRows, plan: Plan)
    requires v.row.manifest.runId == run == plan.manifest.runId && Applies(hash, run, v, w, plan)
    ensures OwnRows(run, w)
  {
    IssuedIsChained(hash, run, w.events);
  }

  function NewRows(m: RunManifest): RunRows {
    RunRows(RunRow(Pending, 0, m), [m], [], BudgetRow(m.identity.limits, ZERO, ZERO))
  }

  lemma FirstEventCreates(hash: ContentHash, t: Tables, u: Tables, m: RunManifest)
    requires Grown(hash, m.runId, t[m.runId := NewRows(m)], u, [CreationBody(m)])
    ensures Created(hash, t, u, m)
    ensures |u[m.runId].events| == 1 && u[m.runId].events == [u[m.runId].events[0]]
  {
    assert t[m.runId := NewRows(m)][m.runId] == NewRows(m);
    assert Bodies([]) + [CreationBody(m)] == [CreationBody(m)];
  }

  lemma AppendedSuffix(hash: ContentHash, run: string, v: RunRows, w: RunRows, plan: Plan)
    requires Applies(hash, run, v, w, plan)
    ensures w.events == v.events + w.events[|v.events|..]
  {}

  lemma EnabledEvaluationStands(v: RunRows, m: Machine, q: EvaluationInput)
    requires Basis(v, m) && Enabled(v, m.state, Evaluate(q))
    ensures EvaluationStands(v, m.state, q) && ValidManifest(EvaluatedManifest(v.row.manifest, q))
  {
    EvaluatedManifestIsAllowed(v.row.manifest, q);
  }

  /** A guarded operation that ends runs gets past its checks: the ledger is the
      expected one, and the run is finished already or the operation is enabled. */
  ghost predicate Proceeds(
      h: Hashes, t: Tables, run: string, c: Command, reason: string, expected: Option<string>, guard: Option<Guard>)
  {
    && GuardArguments(reason, expected, guard) && Admits(h, t, expected, guard)
    && run in t && (IsTerminal(t[run].row.manifest.status) || Allowed(t, run, c))
  }

  lemma FinishedRunsVerify(hash: ContentHash, run: string, v: RunRows)
    requires Sound(hash, run, v) && IsTerminal(v.row.manifest.status)
    ensures TerminalStateValid(hash, v)
  {}

  lemma CreatedRunVerifies(hash: ContentHash, t: Tables, u: Tables, m: RunManifest)
    requires SoundLedger(hash, t) && m.runId !in t && ValidManifest(m) && m.status == Pending
    requires Created(hash, t, u, m)
    ensures LedgerVerifies(hash, u) <==> CanCreate(t, m)
  {
    var w := u[m.runId];
    FreshRowsVerify(hash, w, m);
    FreshRowsReplay(hash, w, m);
    OneRunVerifies(hash, t, m.runId, w);
  }

  lemma OneLonger(bodies: seq<Body>, i: nat)
    requires i < |bodies|
    ensures bodies[..i + 1] == bodies[..i] + [bodies[i]]
  {}

  class EventStore {
    const hashes: Hashes
    const clock: nat -> Stamp
    var ticks: nat
    /** The committed tables. */
    var db: Tables
    /** The open transaction's tables. */
    var tx: Tables

    ghost predicate Valid()
      reads this`db
    {
      SoundLedger(hashes.event, db)
    }

    constructor (hashes: Hashes, clock: nat -> Stamp)
      ensures Valid() && db == map[]
      ensures this.hashes == hashes && this.clock == clock
    {
      this.hashes := hashes;
      this.clock := clock;
      ticks := 0;
      db := map[];
      tx := map[];
    }

    // ------------------------------------------------------ locked reads

    method VerifiedRootsLocked() returns (ok: bool, roots: seq<Root>)
      ensures ok <==> LedgerVerifies(hashes.event, tx)
      ensures ok ==> NoEmptyStream(tx) && roots == RootsOf(hashes, tx)
    {
      ok, roots := VerifyTables(hashes, tx);
    }

    method LoadManifestLocked(run: string) returns (r: Result<RunManifest>)
      ensures r.Ok? <==> run in tx && ManifestLoads(tx[run])
      ensures r.Ok? ==> r.value == tx[run].row.manifest
      ensures r == Err(UnknownRun) <==> run !in tx
    {
      if run !in tx {
        return Err(UnknownRun);
      }
      if !ManifestLoads(tx[run]) {
        return Err(IntegrityFailure);
      }
      return Ok(tx[run].row.manifest);
    }

    // ----------------------------------------------------- locked writes

    method AppendLocked(run: string, body: Body) returns (ok: bool)
      requires run in tx && Issued(hashes.event, run, tx[run].events) && Fold(run, tx[run].events).Accepted?
      modifies this`tx, this`ticks
      ensures ok <==> Turn(old(MachineOf(run, tx[run])), old(MachineOf(run, tx[run])).state.eventCount, body).Accepted?
      ensures !ok ==> tx == old(tx)
      ensures ok ==>
        && Grown(hashes.event, run, old(tx), tx, [body])
        && Fold(run, tx[run].events) ==
             Turn(old(MachineOf(run, tx[run])), old(MachineOf(run, tx[run])).state.eventCount, body)
    {
      var events := tx[run].events;
      var stamp := clock(ticks);
      ticks := ticks + 1;
      var event := NextEvent(hashes.event, run, events, stamp, body);
      AppendReplays(hashes.event, run, events, stamp, body);
      BodiesExtension(events, event);
      var replayed := ReplayEvents(hashes.event, events + [event], false);
      if replayed.Rejected? {
        return false;
      }
      tx := tx[run := tx[run].(events := events + [event])];
      return true;
    }

    method AppendAllLocked(run: string, bodies: seq<Body>) returns (ok: bool)
      requires run in tx && Issued(hashes.event, run, tx[run].events) && Fold(run, tx[run].events).Accepted?
      modifies this`tx, this`ticks
      ensures ok <==> Turns(old(MachineOf(run, tx[run])), bodies).Accepted?
      ensures ok ==> Grown(hashes.event, run, old(tx), tx, bodies)
    {
      ghost var machine := MachineOf(run, tx[run]);
      var i := 0;
      GrownNot(hashes.event, run, tx);
      while i < |bodies|
        invariant 0 <= i <= |bodies|
        invariant Grown(hashes.event, run, old(tx), tx, bodies[..i])
        invariant Fold(run, tx[run].events) == Turns(machine, bodies[..i])
        invariant Fold(run, tx[run].events).Accepted?
      {
        ghost var sofar := tx;
        OneLonger(bodies, i);
        TurnsOne(machine, bodies[..i], bodies[i]);
        var appended := AppendLocked(run, bodies[i]);
        if !appended {
          RejectedTurnsStayRejected(machine, bodies, i + 1);
          return false;
        }
        GrownOneMore(hashes.event, run, old(tx), sofar, tx, bodies[..i], bodies[i]);
        i := i + 1;
      }
      assert bodies[..i] == bodies;
      return true;
    }

    method SaveManifestLocked(run: string, manifest: RunManifest) returns (ok: bool)
      requires run in tx
      modifies this`tx
      ensures ok <==> ManifestLoads(old(tx[run])) && TransitionAllowed(old(tx[run].row.manifest), manifest)
      ensures tx ==
        if ok then
          var v := old(tx[run]);
          old(tx)[run := v.(row := RunRow(manifest.status, v.row.revision + 1, manifest), history := v.history + [manifest])]
        else old(tx)
    {
      var loaded := LoadManifestLocked(run);
      if loaded.Err? || !TransitionAllowed(loaded.value, manifest) {
        return false;
      }
      var v := tx[run];
      tx := tx[run := v.(row := RunRow(manifest.status, v.row.revision + 1, manifest), history := v.history + [manifest])];
      return true;
    }

    method UpdateBudgetLocked(run: string, used: BudgetUsage, reserved: BudgetUsage)
      requires run in tx
      modifies this`tx
      ensures tx == old(tx)[run := old(tx[run]).(budget := BudgetRow(old(tx[run].budget.limits), used, reserved))]
    {
      tx := tx[run := tx[run].(budget := BudgetRow(tx[run].budget.limits, used, reserved))];
    }

    // ------------------------------------------------------- transactions

    method Begin() returns (ok: bool)
      modifies this`tx
      ensures tx == db
      ensures ok <==> LedgerVerifies(hashes.event, db)
    {
      tx := db;
      var roots;
      ok, roots := VerifiedRootsLocked();
    }

    method Commit(guard: Option<Guard>) returns (ok: bool)
      modifies this`db
      ensures ok <==> LedgerVerifies(hashes.event, tx) && GuardAllows(guard, 1, hashes, tx)
      ensures db == if ok then tx else old(db)
    {
      var verified, roots := VerifiedRootsLocked();
      if !verified || (guard.Some? && !guard.value(1, roots)) {
        return false;
      }
      db := tx;
      return true;
    }

    method ValidateAndCommit(run: string, terminal: bool, guard: Option<Guard>) returns (ok: bool)
      requires run in tx
      modifies this`db
      ensures ok <==>
        && (terminal ==> TerminalStateValid(hashes.event, tx[run]))
        && LedgerVerifies(hashes.event, tx) && GuardAllows(guard, 1, hashes, tx)
      ensures db == if ok then tx else old(db)
    {
      if terminal {
        var closed := ValidateTerminalState(hashes.event, tx[run]);
        if !closed {
          return false;
        }
      }
      ok := Commit(guard);
    }

    /** The writes of one plan, staged. */
    method StageLocked(run: string, plan: Plan) returns (ok: bool)
      requires run in tx && Issued(hashes.event, run, tx[run].events) && Fold(run, tx[run].events).Accepted?
      requires ManifestLoads(tx[run])
      modifies this`tx, this`ticks
      ensures ok <==>
        && Turns(old(MachineOf(run, tx[run])), plan.bodies).Accepted?
        && (plan.saved ==> TransitionAllowed(old(tx[run].row.manifest), plan.manifest))
      ensures ok ==> Committed(hashes.event, old(tx), tx, run, plan)
    {
      var appended := AppendAllLocked(run, plan.bodies);
      if !appended {
        return false;
      }
      StagedPlanApplies(hashes.event, run, old(tx), tx, plan);
      SavedThenUpdated(tx, run, plan);
      if plan.saved {
        var saved := SaveManifestLocked(run, plan.manifest);
        if !saved {
          return false;
        }
      }
      UpdateBudgetLocked(run, plan.used, plan.reserved);
      return true;
    }

    /** The writes every lifecycle operation ends with, up to the commit. */
    method WriteAndCommit(run: string, plan: Plan, guard: Option<Guard>) returns (ok: bool)
      requires Valid() && tx == db && run in db
      requires plan.manifest.identity == db[run].row.manifest.identity && plan.manifest.runId == run
      requires !plan.saved ==> plan.manifest == db[run].row.manifest
      modifies this
      ensures ok <==> Lands(run, old(db[run]), plan) && GuardAllows(guard, 1, hashes, tx)
      ensures Lands(run, old(db[run]), plan) ==> Committed(hashes.event, old(db), tx, run, plan)
      ensures db == if ok then tx else old(db)
    {
      assert Sound(hashes.event, run, db[run]);
      var staged := StageLocked(run, plan);
      if !staged {
        return false;
      }
      CommittedVerifies(hashes.event, db, tx, run, plan);
      ok := ValidateAndCommit(run, IsTerminal(plan.manifest.status), guard);
    }

    /** A command's writes: committed when it is enabled, discarded otherwise. */
    method PerformLocked(run: string, ghost c: Command, plan: Plan, guard: Option<Guard>) returns (ok: bool)
      requires Valid() && tx == db && run in db && Fold(run, db[run].events).Accepted?
      requires Plannable(c) && plan == PlanOf(db[run], MachineOf(run, db[run]).state, c)
      requires Lands(run, db[run], plan) ==> Allowed(db, run, c)
      modifies this
      ensures Valid()
      ensures ok <==> Allowed(old(db), run, c) && GuardAllows(guard, 1, hashes, tx)
      ensures Allowed(old(db), run, c) ==> Performed(hashes.event, old(db), tx, run, c)
      ensures db == if ok then tx else old(db)
    {
      ghost var before := db;
      assert Sound(hashes.event, run, db[run]);
      PlansKeepIdentity(db[run], MachineOf(run, db[run]).state, c);
      if Allowed(db, run, c) { AllowedPlansLand(hashes.event, db, run, c); }
      ok := WriteAndCommit(run, plan, guard);
      if ok { PerformedKeepsSound(hashes.event, before, db, run, c); }
    }

    // ------------------------------------------------------------ lifecycle

    method CreateRun(manifest: RunManifest) returns (r: Result<EventRecord>)
      requires Valid() && ValidManifest(manifest)
      modifies this
      ensures Valid()
      ensures r.Ok? <==> CanCreate(old(db), manifest)
      ensures r.Ok? ==> Created(hashes.event, old(db), db, manifest) && db[manifest.runId].events == [r.value]
      ensures r.Err? ==> db == old(db)
    {
      if manifest.status != Pending {
        return Err(InvalidArgument);
      }
      var run := manifest.runId;
      ghost var before := db;
      SoundLedgersVerify(hashes.event, db);
      var begun := Begin();
      if !begun || run in tx {
        return Err(IntegrityFailure);
      }
      tx := tx[run := NewRows(manifest)];
      CreationTurn(manifest, run);
      TurnsSingle(Initial(run), CreationBody(manifest));
      var appended := AppendLocked(run, CreationBody(manifest));
      if !appended {
        return Err(IntegrityFailure);
      }
      FirstEventCreates(hashes.event, before, tx, manifest);
      CreatedRunVerifies(hashes.event, before, tx, manifest);
      var committed := Commit(None);
      if !committed {
        return Err(IntegrityFailure);
      }
      CreatedKeepsSound(hashes.event, before, db, manifest);
      return Ok(db[run].events[0]);
    }

    method StartRun(run: string, startedAt: int, requestedModel: string) returns (r: Result<RunManifest>)
      requires Valid()
      modifies this
      ensures Valid()
      ensures r.Ok? <==> Allowed(old(db), run, Start(startedAt, requestedModel))
      ensures r.Ok? ==> Performed(hashes.event, old(db), db, run, Start(startedAt, requestedModel))
      ensures r.Ok? ==> r.value == db[run].row.manifest
      ensures r.Err? ==> db == old(db)
    {
      SoundLedgersVerify(hashes.event, db);
      var begun := Begin();
      if !begun {
        return Err(IntegrityFailure);
      }
      var loaded := LoadManifestLocked(run);
      if loaded.Err? {
        return Err(loaded.error);
      }
      var current := loaded.value;
      if current.status != Pending || requestedModel != current.identity.requestedModel {
        return Err(IntegrityFailure);
      }
      assert Sound(hashes.event, run, db[run]);
      StartRebuilds(db[run], startedAt, requestedModel);
      var running := Rebuilt(current.(status := Running, startedAt := Some(startedAt)));
      if running == None {
        return Err(InvalidArgument);
      }
      var ok := PerformLocked(
        run, Start(startedAt, requestedModel),
        Plan([RunStarted(Text(requestedModel))], running.value, true, tx[run].budget.used, tx[run].budget.reserved), None);
      if !ok {
        return Err(IntegrityFailure);
      }
      return Ok(running.value);
    }

    /** Opens a transaction and replays one run. */
    method OpenLocked(run: string) returns (r: Result<ReplayState>)
      requires Valid()
      modifies this`tx
      ensures tx == db
      ensures r.Ok? <==> run in db
      ensures r.Ok? ==>
        && Sound(hashes.event, run, db[run]) && Basis(db[run], MachineOf(run, db[run]))
        && r.value == MachineOf(run, db[run]).state
    {
      SoundLedgersVerify(hashes.event, db);
      var begun := Begin();
      if !begun {
        return Err(IntegrityFailure);
      }
      r := ReplayLocked(run);
    }

    method ReplayLocked(run: string) returns (r: Result<ReplayState>)
      requires Valid() && tx == db
      ensures r.Ok? <==> run in db
      ensures r.Ok? ==>
        && Sound(hashes.event, run, db[run]) && Basis(db[run], MachineOf(run, db[run]))
        && r.value == MachineOf(run, db[run]).state
    {
      var loaded := LoadManifestLocked(run);
      if run in db {
        assert Sound(hashes.event, run, db[run]);
        SoundState(hashes.event, run, db[run]);
        SoundRunsHaveABasis(hashes.event, run, db[run]);
      }
      if loaded.Err? {
        return Err(loaded.error);
      }
      var state := ValidatedStateOf(hashes.event, tx[run]);
      if state.Rejected? {
        return Err(IntegrityFailure);
      }
      return Ok(state.value);
    }

    method RecordArtifact(run: string, name: Role, artifact: ArtifactRef) returns (r: Result<RunManifest>)
      requires Valid() && ValidRef(artifact)
      modifies this
      ensures Valid()
      ensures r.Ok? <==> Allowed(old(db), run, Record(name, artifact))
      ensures r.Ok? ==> Performed(hashes.event, old(db), db, run, Record(name, artifact))
      ensures r.Ok? ==> r.value == db[run].row.manifest
      ensures r.Err? ==> db == old(db)
    {
      if name != TaskSpec {
        return Err(InvalidArgument);
      }
      var replayed := OpenLocked(run);
      if replayed.Err? {
        return Err(replayed.error);
      }
      var current := tx[run].row.manifest;
      if current.status != Running || replayed.value.requestState != NotStarted {
        return Err(IntegrityFailure);
      }
      if name in current.artifacts {
        return Err(IntegrityFailure);
      }
      RecordRebuilds(db[run], artifact);
      var updated := Rebuilt(current.(artifacts := current.artifacts[name := artifact]));
      if updated == None {
        return Err(InvalidArgument);
      }
      var plan := Plan([RecordedBody(name, artifact)], updated.value, true, tx[run].budget.used, tx[run].budget.reserved);
      if Lands(run, db[run], plan) { RecordLandsWhenEnabled(hashes.event, run, db[run], artifact); }
      var ok := PerformLocked(run, Record(name, artifact), plan, None);
      if !ok {
        return Err(IntegrityFailure);
      }
      return Ok(updated.value);
    }

    method StartModelRequest(
        run: string, requestId: string, maximum: BudgetUsage, used: BudgetUsage, reserved: BudgetUsage)
      returns (r: Result<seq<EventRecord>>)
      requires Valid()
      modifies this
      ensures Valid()
      ensures r.Ok? <==> Allowed(old(db), run, Request(requestId, maximum, used, reserved))
      ensures r.Ok? ==> Performed(hashes.event, old(db), db, run, Request(requestId, maximum, used, reserved))
      ensures r.Ok? ==> run in db && run in old(db) && db[run].events == old(db[run].events) + r.value
      ensures r.Err? ==> db == old(db)
    {
      if requestId == "" {
        return Err(InvalidArgument);
      }
      if maximum.modelCalls != 1 {
        return Err(IntegrityFailure);
      }
      var replayed := OpenLocked(run);
      if replayed.Err? {
        return Err(replayed.error);
      }
      var v := tx[run];
      SoundState(hashes.event, run, v);
      if Allowed(db, run, Request(requestId, maximum, used, reserved)) {
        EnabledRequestStands(v, MachineOf(run, v).state, requestId, maximum, used, reserved);
      }
      if !RequestStands(v, maximum, used, reserved) {
        return Err(IntegrityFailure);
      }
      var plan := RequestPlan(v, requestId, maximum, used, reserved);
      if Lands(run, v, plan) { RequestLandsWhenEnabled(hashes.event, run, v, requestId, maximum, used, reserved); }
      var ok := PerformLocked(run, Request(requestId, maximum, used, reserved), plan, None);
      if !ok {
        return Err(IntegrityFailure);
      }
      AppendedSuffix(hashes.event, run, v, db[run], plan);
      return Ok(db[run].events[|v.events|..]);
    }

    method CompleteModelResponse(run: string, q: Response) returns (r: Result<RunManifest>)
      requires Valid() && ValidRef(q.patch)
      modifies this
      ensures Valid()
      ensures r.Ok? <==> Allowed(old(db), run, Respond(q))
      ensures r.Ok? ==> Performed(hashes.event, old(db), db, run, Respond(q))
      ensures r.Ok? ==> r.value == db[run].row.manifest
      ensures r.Err? ==> db == old(db)
    {
      var replayed := OpenLocked(run);
      if replayed.Err? {
        return Err(replayed.error);
      }
      var v, s := tx[run], replayed.value;
      if Allowed(db, run, Respond(q)) { EnabledResponseStands(v, MachineOf(run, v), q); }
      if !ResponseStands(v, s, q) {
        return Err(IntegrityFailure);
      }
      ResponseRebuilds(v, q);
      var updated := Rebuilt(v.row.manifest.(
        returnedModel := Some(q.returnedModel), artifacts := v.row.manifest.artifacts[Patch := q.patch]));
      if updated == None {
        return Err(InvalidArgument);
      }
      var plan := Plan(ResponseBodies(q), updated.value, true, q.used, q.reserved);
      if Lands(run, v, plan) { ResponseLandsWhenEnabled(hashes.event, run, v, q); }
      var ok := PerformLocked(run, Respond(q), plan, None);
      if !ok {
        return Err(IntegrityFailure);
      }
      return Ok(updated.value);
    }

    method CompleteEvaluation(run: string, q: EvaluationInput) returns (r: Result<TerminalResult>)
      requires Valid() && forall role :: role in q.artifacts ==> ValidRef(q.artifacts[role])
      modifies this
      ensures Valid()
      ensures r.Ok? <==> Allowed(old(db), run, Evaluate(q))
      ensures r.Ok? ==> Performed(hashes.event, old(db), db, run, Evaluate(q))
      ensures r.Ok? ==> r.value == TerminalResult(db[run].row.manifest, db[run].events)
      ensures r.Err? ==> db == old(db)
    {
      if !IsTerminal(q.status) || !EvidenceRoles(q.artifacts.Keys) {
        return Err(InvalidArgument);
      }
      var replayed := OpenLocked(run);
      if replayed.Err? {
        return Err(replayed.error);
      }
      var v, s := tx[run], replayed.value;
      if Allowed(db, run, Evaluate(q)) { EnabledEvaluationStands(v, MachineOf(run, v), q); }
      if !EvaluationStands(v, s, q) {
        return Err(IntegrityFailure);
      }
      EvaluationRebuilds(v.row.manifest, q);
      var final := Rebuilt(v.row.manifest.(
        status := q.status, finishedAt := Some(q.finishedAt), terminalReason := q.terminalReason,
        artifacts := v.row.manifest.artifacts + q.artifacts));
      if final == None {
        return Err(InvalidArgument);
      }
      var plan := Plan(EvaluationBodies(q), final.value, true, q.used, q.reserved);
      if Lands(run, v, plan) { EvaluationLandsWhenEnabled(hashes.event, run, v, q); }
      var ok := PerformLocked(run, Evaluate(q), plan, None);
      if !ok {
        return Err(IntegrityFailure);
      }
      return Ok(TerminalResult(db[run].row.manifest, db[run].events));
    }

    method AdmitLocked(expected: Option<string>, guard: Option<Guard>) returns (ok: bool)
      requires Valid() && tx == db
      ensures ok <==> Admits(hashes, db, expected, guard)
    {
      if expected == None {
        return true;
      }
      SoundLedgersVerify(hashes.event, db);
      var verified, roots := VerifiedRootsLocked();
      if !verified {
        return false;
      }
      var digest := VerifiedRunRootsSha256(hashes, roots);
      return digest == expected && (guard.Some? ==> guard.value(0, roots));
    }

    /** Opens a transaction, checks the expected ledger and replays one run. */
    method OpenGuarded(run: string, expected: Option<string>, guard: Option<Guard>) returns (r: Result<ReplayState>)
      requires Valid()
      modifies this`tx
      ensures tx == db
      ensures r.Ok? <==> Admits(hashes, db, expected, guard) && run in db
      ensures r.Ok? ==>
        && Sound(hashes.event, run, db[run]) && Basis(db[run], MachineOf(run, db[run]))
        && r.value == MachineOf(run, db[run]).state
    {
      SoundLedgersVerify(hashes.event, db);
      var begun := Begin();
      if !begun {
        return Err(IntegrityFailure);
      }
      var admitted := AdmitLocked(expected, guard);
      if !admitted {
        return Err(IntegrityFailure);
      }
      r := ReplayLocked(run);
    }

    /** Ending a run that is finished already reads and changes nothing. */
    method RepeatLocked(run: string, guard: Option<Guard>) returns (ok: bool)
      requires Valid() && tx == db && run in db && IsTerminal(db[run].row.manifest.status)
      modifies this`db
      ensures db == old(db)
      ensures ok <==> GuardAllows(guard, 1, hashes, tx)
    {
      assert Sound(hashes.event, run, db[run]);
      FinishedRunsVerify(hashes.event, run, db[run]);
      SoundLedgersVerify(hashes.event, db);
      var complete := ValidateTerminalState(hashes.event, tx[run]);
      if !complete {
        return false;
      }
      ok := Commit(guard);
    }

    /** Accounts for the missing artifacts and an outstanding request, and closes the run. */
    method RecoverLocked(run: string, s: ReplayState, finishedAt: int, reason: string, guard: Option<Guard>)
      returns (r: Result<TerminalResult>)
      requires Valid() && tx == db && run in db && !IsTerminal(db[run].row.manifest.status) && !Blank(reason)
      requires Sound(hashes.event, run, db[run]) && s == MachineOf(run, db[run]).state
      modifies this
      ensures Valid()
      ensures r.Ok? <==> Allowed(old(db), run, Recover(finishedAt, reason)) && GuardAllows(guard, 1, hashes, tx)
      ensures Allowed(old(db), run, Recover(finishedAt, reason)) ==>
        Performed(hashes.event, old(db), tx, run, Recover(finishedAt, reason))
      ensures db == if r.Ok? then tx else old(db)
      ensures r.Ok? ==> run in db && r.value == TerminalResult(db[run].row.manifest, db[run].events)
    {
      var v := tx[run];
      var current := v.row.manifest;
      var actual := RecoveryReason(s, reason);
      RecoveryRebuilds(current, s, finishedAt, reason);
      var final := Rebuilt(current.(
        status := InfrastructureError, finishedAt := Some(FinishTime(current, finishedAt)), terminalReason := Some(actual)));
      if final == None {
        return Err(InvalidArgument);
      }
      var bodies :=
        AbsenceBodies(MissingRoles(s.artifacts.Keys), "interrupted") + SettlementBodies(s)
        + [RunTerminal(Some(InfrastructureError), None, Text(actual), true)];
      var plan := Plan(bodies, final.value, true, RecoveredUsed(s), RecoveredReserved(s));
      if Lands(run, v, plan) { RecoveryLandsWhenEnabled(hashes.event, run, v, finishedAt, reason); }
      var ok := PerformLocked(run, Recover(finishedAt, reason), plan, guard);
      if !ok {
        return Err(IntegrityFailure);
      }
      return Ok(TerminalResult(final.value, db[run].events));
    }

    /** Ends an interrupted run without repeating external work. */
    method RecoverRun(run: string, finishedAt: int, reason: string, expected: Option<string>, guard: Option<Guard>)
      returns (r: Result<TerminalResult>)
      requires Valid()
      modifies this
      ensures Valid()
      ensures r.Ok? <==>
        Proceeds(hashes, old(db), run, Recover(finishedAt, reason), reason, expected, guard)
        && GuardAllows(guard, 1, hashes, tx)
      ensures Proceeds(hashes, old(db), run, Recover(finishedAt, reason), reason, expected, guard) ==>
        if IsTerminal(old(db)[run].row.manifest.status) then tx == old(db)
        else Performed(hashes.event, old(db), tx, run, Recover(finishedAt, reason))
      ensures db == if r.Ok? then tx else old(db)
      ensures r.Ok? ==> run in db && r.value == TerminalResult(db[run].row.manifest, db[run].events)
    {
      if !GuardArguments(reason, expected, guard) {
        return Err(InvalidArgument);
      }
      var replayed := OpenGuarded(run, expected, guard);
      if replayed.Err? {
        return Err(replayed.error);
      }
      var v := tx[run];
      if IsTerminal(v.row.manifest.status) {
        var repeated := RepeatLocked(run, guard);
        return if repeated then Ok(TerminalResult(v.row.manifest, v.events)) else Err(IntegrityFailure);
      }
      r := RecoverLocked(run, replayed.value, finishedAt, reason, guard);
    }

    /** Accounts for the missing artifacts of a run that never sent its request. */
    method ExhaustLocked(run: string, s: ReplayState, finishedAt: int, reason: string, guard: Option<Guard>)
      returns (r: Result<TerminalResult>)
      requires Valid() && tx == db && run in db && !IsTerminal(db[run].row.manifest.status) && !Blank(reason)
      requires Sound(hashes.event, run, db[run]) && s == MachineOf(run, db[run]).state
      modifies this
      ensures Valid()
      ensures r.Ok? <==> Allowed(old(db), run, Refuse(finishedAt, reason)) && GuardAllows(guard, 1, hashes, tx)
      ensures Allowed(old(db), run, Refuse(finishedAt, reason)) ==>
        Performed(hashes.event, old(db), tx, run, Refuse(finishedAt, reason))
      ensures db == if r.Ok? then tx else old(db)
      ensures r.Ok? ==> run in db && r.value == TerminalResult(db[run].row.manifest, db[run].events)
    {
      var v := tx[run];
      var current := v.row.manifest;
      SoundRunsHaveABasis(hashes.event, run, v);
      if s.requestState != NotStarted || v.budget.reserved != ZERO {
        return Err(IntegrityFailure);
      }
      EndingRebuilds(current, BudgetExhausted, finishedAt, reason);
      var final := Rebuilt(current.(
        status := BudgetExhausted, finishedAt := Some(FinishTime(current, finishedAt)), terminalReason := Some(reason)));
      if final == None {
        return Err(InvalidArgument);
      }
      var bodies :=
        AbsenceBodies(MissingRoles(s.artifacts.Keys), "budget_exhausted") + SettlementBodies(s)
        + [RunTerminal(Some(BudgetExhausted), None, Text(reason), false)];
      var plan := Plan(bodies, final.value, true, s.used, s.reserved);
      if Lands(run, v, plan) { RefusalLandsWhenEnabled(hashes.event, run, v, finishedAt, reason); }
      var ok := PerformLocked(run, Refuse(finishedAt, reason), plan, guard);
      if !ok {
        return Err(IntegrityFailure);
      }
      return Ok(TerminalResult(final.value, db[run].events));
    }

    /** Ends a run whose reservation was refused before anything was dispatched. */
    method CompleteBudgetExhaustion(
        run: string, finishedAt: int, reason: string, expected: Option<string>, guard: Option<Guard>)
      returns (r: Result<TerminalResult>)
      requires Valid()
      modifies this
      ensures Valid()
      ensures r.Ok? <==>
        Proceeds(hashes, old(db), run, Refuse(finishedAt, reason), reason, expected, guard)
        && GuardAllows(guard, 1, hashes, tx)
      ensures Proceeds(hashes, old(db), run, Refuse(finishedAt, reason), reason, expected, guard) ==>
        if IsTerminal(old(db)[run].row.manifest.status) then tx == old(db)
        else Performed(hashes.event, old(db), tx, run, Refuse(finishedAt, reason))
      ensures db == if r.Ok? then tx else old(db)
      ensures r.Ok? ==> run in db && r.value == TerminalResult(db[run].row.manifest, db[run].events)
    {
      if !GuardArguments(reason, expected, guard) {
        return Err(InvalidArgument);
      }
      var replayed := OpenGuarded(run, expected, guard);
      if replayed.Err? {
        return Err(replayed.error);
      }
      var v := tx[run];
      if IsTerminal(v.row.manifest.status) {
        var repeated := RepeatLocked(run, guard);
        return if repeated then Ok(TerminalResult(v.row.manifest, v.events)) else Err(IntegrityFailure);
      }
      r := ExhaustLocked(run, replayed.value, finishedAt, reason, guard);
    }
  }

  /** A recovery that expects the digest of an audited ledger proceeds only on a
      ledger with the same runs, however other writers raced it. */
  lemma AdmittedLedgerIsTheAuditedOne(
      h: Hashes, audited: Tables, t: Tables, run: string, c: Command, reason: string, guard: Option<Guard>)
    requires InjectiveHashes(h) && SoundLedger(h.event, audited) && SoundLedger(h.event, t)
    requires NoEmptyStream(audited)
    requires Proceeds(h, t, run, c, reason, RootsDigest(h, RootsOf(h, audited)), guard)
    ensures SameRuns(audited, t)
  {
    SoundLedgersVerify(h.event, audited);
    SoundLedgersVerify(h.event, t);
    LedgerRootsAscend(h, audited);
    DigestFixesTheLedger(h, audited, t);
  }
}
