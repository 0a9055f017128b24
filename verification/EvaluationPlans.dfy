/** Binding the evaluation evidence and closing the run with its verdict. */
module EvaluationPlans {
  import opened Text
  import opened Usage
  import opened Events
  import opened Replay
  import opened ReplayLaws
  import opened Ledger
  import opened Lifecycle
  import opened Plans
  import opened TerminalPlans

  datatype EvaluationInput = EvaluationInput(
    artifacts: map<Role, ArtifactRef>, outcome: Option<Outcome>, resultSha256: Field, remainder: string,
    status: RunStatus, finishedAt: int, terminalReason: Option<string>,
    used: BudgetUsage, reserved: BudgetUsage)

  const REQUIRED_EVIDENCE := {Evaluation, Stderr, Stdout}

  /** The roles a caller may pass: all the required ones, and a scorer transcript
      only together with the candidate's. */
  predicate EvidenceRoles(have: set<Role>) {
    && REQUIRED_EVIDENCE <= have && have <= REQUIRED_EVIDENCE + OPTIONAL_ARTIFACTS
    && (ScorerStdout in have ==> CandidateStdout in have)
  }

  function IfPresent(have: set<Role>, role: Role): seq<Role> {
    if role in have then [role] else []
  }

  function EvidenceOrder(have: set<Role>): seq<Role> {
    Transcripts(have) + [Evaluation]
  }

  function EvidenceBodies(roles: seq<Role>, artifacts: map<Role, ArtifactRef>): seq<Body>
    requires forall r :: r in roles ==> r in artifacts
  {
    seq(|roles|, i requires 0 <= i < |roles| => RecordedBody(roles[i], artifacts[roles[i]]))
  }

  function RecordedAll(m: Machine, roles: seq<Role>, artifacts: map<Role, ArtifactRef>): Machine
    requires forall r :: r in roles ==> r in artifacts
  {
    if roles == [] then m
    else
      var last := roles[|roles| - 1];
      Recorded(RecordedAll(m, roles[..|roles| - 1], artifacts), last, artifacts[last].sha256)
  }

  lemma {:induction false} RecordedAllFacts(m: Machine, roles: seq<Role>, artifacts: map<Role, ArtifactRef>)
    requires forall r :: r in roles ==> r in artifacts
    ensures var x := RecordedAll(m, roles, artifacts);
            && x == m.(state := m.state.(artifacts := x.state.artifacts, eventCount := m.state.eventCount + |roles|))
            && x.state.artifacts.Keys == m.state.artifacts.Keys + RoleSet(roles)
            && (forall r :: r in roles ==> x.state.artifacts[r] == artifacts[r].sha256)
            && (forall r :: r in m.state.artifacts && r !in roles ==> x.state.artifacts[r] == m.state.artifacts[r])
  {
    if roles != [] {
      var before, last := roles[..|roles| - 1], roles[|roles| - 1];
      RecordedAllFacts(m, before, artifacts);
      assert roles == before + [last];
      assert RoleSet(roles) == RoleSet(before) + {last};
    }
  }

  /** Each role comes when exactly its predecessors are bound. */
  predicate InOrder(bound: set<Role>, roles: seq<Role>) {
    forall i :: 0 <= i < |roles| ==>
      && roles[i] in EXPECTED_ARTIFACTS + OPTIONAL_ARTIFACTS - {TaskSpec}
      && roles[i] !in bound + RoleSet(roles[..i]) && InPosition(bound + RoleSet(roles[..i]), roles[i])
  }

  lemma InOrderPrefix(bound: set<Role>, roles: seq<Role>, last: Role)
    requires InOrder(bound, roles + [last])
    ensures InOrder(bound, roles)
    ensures last in EXPECTED_ARTIFACTS + OPTIONAL_ARTIFACTS - {TaskSpec}
    ensures last !in bound + RoleSet(roles) && InPosition(bound + RoleSet(roles), last)
  {
    var all := roles + [last];
    forall i | 0 <= i <= |roles| ensures all[..i] == roles[..i] {}
    assert roles[..|roles|] == roles && all[|roles|] == last;
    forall i | 0 <= i < |roles| ensures all[i] == roles[i] {}
  }

  lemma {:induction false} EvidenceTurns(m: Machine, roles: seq<Role>, artifacts: map<Role, ArtifactRef>)
    requires forall r :: r in roles ==> r in artifacts && CanonicalReference(artifacts[r])
    requires m.created && m.pending == None && m.state.status == Running && m.state.requestState == Completed
    requires m.state.absent == map[] && InOrder(m.state.artifacts.Keys, roles)
    ensures Turns(m, EvidenceBodies(roles, artifacts)) == Accepted(RecordedAll(m, roles, artifacts))
  {
    if roles != [] {
      var before, last := roles[..|roles| - 1], roles[|roles| - 1];
      assert roles == before + [last];
      InOrderPrefix(m.state.artifacts.Keys, before, last);
      EvidenceTurns(m, before, artifacts);
      RecordedAllFacts(m, before, artifacts);
      assert EvidenceBodies(roles, artifacts)[..|roles| - 1] == EvidenceBodies(before, artifacts);
      var x := RecordedAll(m, before, artifacts);
      RecordTurn(x, x.state.eventCount, last, artifacts[last]);
    }
  }

  /** Accepted payloads are well formed, wherever they stand in the list. */
  lemma {:induction false} AcceptedReferencesAreValid(m: Machine, bodies: seq<Body>, i: nat)
    requires Turns(m, bodies).Accepted? && i < |bodies|
    ensures bodies[i].ArtifactRecorded? ==> ValidReference(bodies[i].reference)
    ensures bodies[i].EvaluationCompleted? ==> Sha256Field(bodies[i].resultSha256)
    decreases |bodies|
  {
    if i < |bodies| - 1 {
      AcceptedReferencesAreValid(m, bodies[..|bodies| - 1], i);
    }
  }

  lemma RoleSetOfExtension(roles: seq<Role>, r: Role)
    ensures RoleSet(roles + [r]) == RoleSet(roles) + {r}
  {}

  lemma InOrderExtension(bound: set<Role>, roles: seq<Role>, r: Role)
    requires InOrder(bound, roles) && r in EXPECTED_ARTIFACTS + OPTIONAL_ARTIFACTS - {TaskSpec}
    requires r !in bound + RoleSet(roles) && InPosition(bound + RoleSet(roles), r)
    ensures InOrder(bound, roles + [r])
  {
    forall i | 0 <= i < |roles + [r]| ensures (roles + [r])[..i] == roles[..i] {}
    assert roles[..|roles|] == roles;
  }

  lemma StreamsComeInOrder()
    ensures InOrder({TaskSpec, Patch}, [Stdout, Stderr]) && RoleSet([Stdout, Stderr]) == {Stdout, Stderr}
  {
    var bound := {TaskSpec, Patch};
    assert InOrder(bound, []);
    assert [] + [Stdout] == [Stdout] && [Stdout] + [Stderr] == [Stdout, Stderr];
    assert bound + {Stdout} == {Stdout, Patch, TaskSpec};
    RoleSetOfExtension([], Stdout);
    RoleSetOfExtension([Stdout], Stderr);
    InOrderExtension(bound, [], Stdout);
    InOrderExtension(bound, [Stdout], Stderr);
  }

  function Transcripts(have: set<Role>): seq<Role> {
    [Stdout, Stderr] + IfPresent(have, CandidateStdout) + IfPresent(have, ScorerStdout)
  }

  lemma TranscriptsComeInOrder(have: set<Role>)
    requires EvidenceRoles(have)
    ensures InOrder({TaskSpec, Patch}, Transcripts(have))
    ensures RoleSet(Transcripts(have)) == have - {Evaluation}
  {
    var bound, roles := {TaskSpec, Patch}, [Stdout, Stderr];
    StreamsComeInOrder();
    if CandidateStdout in have {
      RoleSetOfExtension(roles, CandidateStdout);
      assert bound + {Stdout, Stderr} == EVIDENCE_PREDECESSORS;
      InOrderExtension(bound, roles, CandidateStdout);
      if ScorerStdout in have {
        roles := roles + [CandidateStdout];
        RoleSetOfExtension(roles, ScorerStdout);
        assert bound + {Stdout, Stderr, CandidateStdout} == EVIDENCE_PREDECESSORS + {CandidateStdout};
        InOrderExtension(bound, roles, ScorerStdout);
        assert Transcripts(have) == roles + [ScorerStdout];
        assert have == {Stdout, Stderr, CandidateStdout, ScorerStdout, Evaluation};
      } else {
        assert Transcripts(have) == roles + [CandidateStdout];
        assert have == {Stdout, Stderr, CandidateStdout, Evaluation};
      }
    } else {
      assert Transcripts(have) == roles;
      assert have == {Stdout, Stderr, Evaluation};
    }
  }

  lemma EvidenceComesInOrder(have: set<Role>)
    requires EvidenceRoles(have)
    ensures InOrder({TaskSpec, Patch}, EvidenceOrder(have))
    ensures RoleSet(EvidenceOrder(have)) == have
  {
    TranscriptsComeInOrder(have);
    RoleSetOfExtension(Transcripts(have), Evaluation);
    assert {TaskSpec, Patch} + (have - {Evaluation}) >= EVIDENCE_PREDECESSORS;
    InOrderExtension({TaskSpec, Patch}, Transcripts(have), Evaluation);
  }

  // ---------------------------------------------------------------- the writes

  function VerdictBodies(q: EvaluationInput): seq<Body> {
    [EvaluationCompleted(q.outcome, q.resultSha256, q.remainder), SnapshotBody(q.used, q.reserved),
     RunTerminal(Some(q.status), q.outcome, OptionalText(q.terminalReason), false)]
  }

  function EvaluationBodies(q: EvaluationInput): seq<Body>
    requires EvidenceRoles(q.artifacts.Keys)
  {
    EvidenceComesInOrder(q.artifacts.Keys);
    assert forall r :: r in EvidenceOrder(q.artifacts.Keys) ==> r in RoleSet(EvidenceOrder(q.artifacts.Keys));
    EvidenceBodies(EvidenceOrder(q.artifacts.Keys), q.artifacts) + VerdictBodies(q)
  }

  function EvaluatedManifest(m: RunManifest, q: EvaluationInput): RunManifest {
    m.(status := q.status, finishedAt := Some(q.finishedAt), terminalReason := StripOptional(q.terminalReason),
       artifacts := m.artifacts + q.artifacts)
  }

  function EvaluationPlan(v: RunRows, q: EvaluationInput): Plan
    requires EvidenceRoles(q.artifacts.Keys)
  {
    Plan(EvaluationBodies(q), EvaluatedManifest(v.row.manifest, q), true, q.used, q.reserved)
  }

  /** What the method checks itself before it stages anything. */
  predicate EvaluationStands(v: RunRows, s: ReplayState, q: EvaluationInput) {
    && IsTerminal(q.status) && EvidenceRoles(q.artifacts.Keys)
    && v.row.manifest.status == Running && s.requestState == Completed
    && q.outcome.Some? && StatusMatchesOutcome(q.status, q.outcome)
    && q.used == v.budget.used && q.reserved == v.budget.reserved && q.reserved == ZERO
    && q.artifacts.Keys !! v.row.manifest.artifacts.Keys
  }

  predicate CanEvaluate(v: RunRows, s: ReplayState, q: EvaluationInput) {
    && EvaluationStands(v, s, q)
    && (forall r :: r in q.artifacts ==> CanonicalReference(q.artifacts[r]))
    && Sha256Field(q.resultSha256)
    && v.row.manifest.startedAt.Some? && v.row.manifest.startedAt.value <= q.finishedAt
    && (q.status == Succeeded <==> q.terminalReason == None)
    && (q.terminalReason.Some? ==> NonEmptyText(q.terminalReason.value))
  }

  function WithVerdict(x: Machine, q: EvaluationInput): Machine {
    Counted(x.(state := x.state.(outcome := q.outcome)))
  }

  lemma VerdictTurns(x: Machine, q: EvaluationInput)
    requires x.created && x.pending == None && x.state.status == Running && x.state.requestState == Completed
    requires x.state.outcome == None && {Evaluation, Stderr, Stdout, Patch} <= x.state.artifacts.Keys
    requires IsTerminal(q.status) && q.outcome.Some? && StatusMatchesOutcome(q.status, q.outcome)
    requires Sha256Field(q.resultSha256) && q.used == x.state.used && q.reserved == x.state.reserved
    requires q.status == Succeeded <==> q.terminalReason == None
    requires q.terminalReason.Some? ==> !Blank(q.terminalReason.value)
    ensures Turns(x, VerdictBodies(q)) == Accepted(Ended(Counted(WithVerdict(x, q)), q.status, q.terminalReason))
  {
    var a, b, c := VerdictBodies(q)[0], VerdictBodies(q)[1], VerdictBodies(q)[2];
    TurnsTriple(x, a, b, c);
    TurnsPair(x, a, b);
    assert Turn(x, x.state.eventCount, a) == Accepted(WithVerdict(x, q));
    SnapshotTurn(WithVerdict(x, q));
    TerminalTurn(Counted(WithVerdict(x, q)), q.status, q.terminalReason, false);
  }

  /** The machine once every piece of evidence is bound. */
  function Evidenced(m: Machine, q: EvaluationInput): Machine
    requires EvidenceRoles(q.artifacts.Keys)
  {
    EvidenceComesInOrder(q.artifacts.Keys);
    assert forall r :: r in EvidenceOrder(q.artifacts.Keys) ==> r in RoleSet(EvidenceOrder(q.artifacts.Keys));
    RecordedAll(m, EvidenceOrder(q.artifacts.Keys), q.artifacts)
  }

  function Evaluated(m: Machine, q: EvaluationInput): Machine
    requires EvidenceRoles(q.artifacts.Keys)
  {
    Ended(Counted(WithVerdict(Evidenced(m, q), q)), q.status, q.terminalReason)
  }

  /** Where an evaluated run stands when the evidence arrives. */
  predicate Answered(m: Machine, bound: map<Role, ArtifactRef>) {
    && m.created && m.pending == None && m.state.status == Running && m.state.requestState == Completed
    && m.state.outcome == None && m.state.absent == map[] && m.state.reserved == ZERO
    && m.state.artifacts == Digests(bound) && bound.Keys == {TaskSpec, Patch}
  }

  lemma EvaluationStart(v: RunRows, m: Machine, q: EvaluationInput)
    requires Basis(v, m) && EvaluationStands(v, m.state, q)
    ensures Answered(m, v.row.manifest.artifacts)
    ensures q.used == m.state.used && q.reserved == m.state.reserved
  {
    assert Digests(v.row.manifest.artifacts).Keys == v.row.manifest.artifacts.Keys;
  }

  lemma CombinedDigests(bound: map<Role, ArtifactRef>, evidence: map<Role, ArtifactRef>, x: map<Role, string>)
    requires x.Keys == bound.Keys + evidence.Keys
    requires forall r :: r in evidence ==> x[r] == evidence[r].sha256
    requires forall r :: r in bound && r !in evidence ==> x[r] == bound[r].sha256
    ensures x == Digests(bound + evidence)
  {}

  lemma RecordedAllArtifacts(m: Machine, bound: map<Role, ArtifactRef>, roles: seq<Role>, evidence: map<Role, ArtifactRef>)
    requires m.state.artifacts == Digests(bound) && RoleSet(roles) == evidence.Keys
    requires forall r :: r in roles <==> r in evidence
    ensures RecordedAll(m, roles, evidence).state.artifacts == Digests(bound + evidence)
    ensures var x := RecordedAll(m, roles, evidence);
            x == m.(state := m.state.(artifacts := x.state.artifacts, eventCount := x.state.eventCount))
  {
    RecordedAllFacts(m, roles, evidence);
    var x := RecordedAll(m, roles, evidence).state.artifacts;
    assert m.state.artifacts.Keys == bound.Keys;
    assert x.Keys == bound.Keys + evidence.Keys;
    CombinedDigests(bound, evidence, x);
  }

  lemma EvidencedArtifacts(m: Machine, bound: map<Role, ArtifactRef>, q: EvaluationInput)
    requires m.state.artifacts == Digests(bound) && EvidenceRoles(q.artifacts.Keys)
    ensures Evidenced(m, q).state.artifacts == Digests(bound + q.artifacts)
    ensures var x := Evidenced(m, q);
            x == m.(state := m.state.(artifacts := x.state.artifacts, eventCount := x.state.eventCount))
  {
    var roles := EvidenceOrder(q.artifacts.Keys);
    EvidenceComesInOrder(q.artifacts.Keys);
    assert forall r :: r in roles <==> r in RoleSet(roles);
    RecordedAllArtifacts(m, bound, roles, q.artifacts);
  }

  lemma EvidencedTurns(m: Machine, bound: map<Role, ArtifactRef>, q: EvaluationInput)
    requires Answered(m, bound) && EvidenceRoles(q.artifacts.Keys)
    requires forall r :: r in q.artifacts ==> CanonicalReference(q.artifacts[r])
    ensures Turns(m, EvaluationBodies(q)) == Turns(Evidenced(m, q), VerdictBodies(q))
  {
    var roles := EvidenceOrder(q.artifacts.Keys);
    EvidenceComesInOrder(q.artifacts.Keys);
    assert forall r :: r in roles ==> r in RoleSet(roles);
    assert m.state.artifacts.Keys == {TaskSpec, Patch};
    EvidenceTurns(m, roles, q.artifacts);
    TurnsConcat(m, EvidenceBodies(roles, q.artifacts), VerdictBodies(q));
  }

  lemma EvaluationTurns(m: Machine, bound: map<Role, ArtifactRef>, q: EvaluationInput)
    requires Answered(m, bound) && q.used == m.state.used && q.reserved == m.state.reserved
    requires EvidenceRoles(q.artifacts.Keys) && (forall r :: r in q.artifacts ==> CanonicalReference(q.artifacts[r]))
    requires IsTerminal(q.status) && q.outcome.Some? && StatusMatchesOutcome(q.status, q.outcome)
    requires Sha256Field(q.resultSha256) && (q.status == Succeeded <==> q.terminalReason == None)
    requires q.terminalReason.Some? ==> !Blank(q.terminalReason.value)
    ensures Turns(m, EvaluationBodies(q)) == Accepted(Evaluated(m, q))
  {
    EvidencedTurns(m, bound, q);
    EvidencedArtifacts(m, bound, q);
    assert (bound + q.artifacts).Keys >= {Evaluation, Stderr, Stdout, Patch};
    VerdictTurns(Evidenced(m, q), q);
  }

  lemma EvaluatedFacts(m: Machine, bound: map<Role, ArtifactRef>, q: EvaluationInput)
    requires Answered(m, bound) && EvidenceRoles(q.artifacts.Keys)
    ensures Evaluated(m, q).pending == None
    ensures var s := Evaluated(m, q).state;
            && s.artifacts == Digests(bound + q.artifacts)
            && s.status == q.status && s.used == m.state.used && s.reserved == ZERO
            && s.returnedModel == m.state.returnedModel && s.requestState == Completed
            && s.terminalReason == q.terminalReason && FullyAccounted(s)
  {
    EvidencedArtifacts(m, bound, q);
    assert (bound + q.artifacts).Keys >= EXPECTED_ARTIFACTS;
  }

  lemma EvaluatedManifestIsAllowed(m: RunManifest, q: EvaluationInput)
    requires ValidManifest(m) && m.status == Running && IsTerminal(q.status)
    requires q.artifacts.Keys !! m.artifacts.Keys && (forall r :: r in q.artifacts ==> ValidRef(q.artifacts[r]))
    requires m.startedAt.Some? && m.startedAt.value <= q.finishedAt
    requires q.status == Succeeded <==> q.terminalReason == None
    requires q.terminalReason.Some? ==> NonEmptyText(q.terminalReason.value)
    ensures ValidManifest(EvaluatedManifest(m, q)) && TransitionAllowed(m, EvaluatedManifest(m, q))
    ensures EvaluatedManifest(m, q).terminalReason == q.terminalReason
  {
    if q.terminalReason.Some? { NonEmptyIsNotBlank(q.terminalReason.value); }
  }

  lemma EvaluationSettles(v: RunRows, m: Machine, q: EvaluationInput)
    requires Basis(v, m) && CanEvaluate(v, m.state, q)
    ensures var plan := EvaluationPlan(v, q);
            Turns(m, plan.bodies).Accepted? && Settles(v, plan, Turns(m, plan.bodies).value)
  {
    EvaluationStart(v, m, q);
    EvaluatedManifestIsAllowed(v.row.manifest, q);
    if q.terminalReason.Some? { NonEmptyIsNotBlank(q.terminalReason.value); }
    EvaluationTurns(m, v.row.manifest.artifacts, q);
    EvaluatedFacts(m, v.row.manifest.artifacts, q);
    EvaluatedSettles(v, Evaluated(m, q), q);
  }

  lemma EvaluatedSettles(v: RunRows, x: Machine, q: EvaluationInput)
    requires EvidenceRoles(q.artifacts.Keys) && IsTerminal(q.status)
    requires var after := EvaluatedManifest(v.row.manifest, q);
             && ValidManifest(after) && TransitionAllowed(v.row.manifest, after)
             && after.terminalReason == x.state.terminalReason && x.state.artifacts == Digests(after.artifacts)
             && after.returnedModel == x.state.returnedModel
    requires x.pending == None && x.state.status == q.status && x.state.requestState == Completed
    requires x.state.used == q.used && x.state.reserved == ZERO == q.reserved && FullyAccounted(x.state)
    ensures Settles(v, EvaluationPlan(v, q), x)
  {}

  lemma EvidenceAt(roles: seq<Role>, r: Role) returns (i: nat)
    requires r in RoleSet(roles)
    ensures i < |roles| && roles[i] == r
  {
    i :| 0 <= i < |roles| && roles[i] == r;
  }

  lemma EvidenceBodyAt(q: EvaluationInput, roles: seq<Role>, i: nat)
    requires EvidenceRoles(q.artifacts.Keys) && roles == EvidenceOrder(q.artifacts.Keys) && i < |roles|
    ensures roles[i] in q.artifacts && i < |EvaluationBodies(q)|
    ensures EvaluationBodies(q)[i] == RecordedBody(roles[i], q.artifacts[roles[i]])
  {
    EvidenceComesInOrder(q.artifacts.Keys);
    assert roles[i] in RoleSet(roles);
  }

  lemma RoleNeedsCanonicalPath(m: Machine, q: EvaluationInput, bodies: seq<Body>, r: Role)
    requires EvidenceRoles(q.artifacts.Keys) && r in q.artifacts && ValidRef(q.artifacts[r])
    requires bodies == EvaluationBodies(q) && Turns(m, bodies).Accepted?
    ensures CanonicalReference(q.artifacts[r])
  {
    EvidenceComesInOrder(q.artifacts.Keys);
    var i := EvidenceAt(EvidenceOrder(q.artifacts.Keys), r);
    EvidenceBodyAt(q, EvidenceOrder(q.artifacts.Keys), i);
    AcceptedReferencesAreValid(m, bodies, i);
    CanonicalReferencesReplay(q.artifacts[r]);
  }

  lemma VerdictNeedsHash(m: Machine, q: EvaluationInput, bodies: seq<Body>)
    requires EvidenceRoles(q.artifacts.Keys) && bodies == EvaluationBodies(q) && Turns(m, bodies).Accepted?
    ensures Sha256Field(q.resultSha256)
  {
    var n := |EvidenceOrder(q.artifacts.Keys)|;
    assert bodies[n] == VerdictBodies(q)[0];
    AcceptedReferencesAreValid(m, bodies, n);
  }

  lemma EvidenceNeedsCanonicalPaths(m: Machine, q: EvaluationInput)
    requires EvidenceRoles(q.artifacts.Keys) && (forall r :: r in q.artifacts ==> ValidRef(q.artifacts[r]))
    requires Turns(m, EvaluationBodies(q)).Accepted?
    ensures forall r :: r in q.artifacts ==> CanonicalReference(q.artifacts[r])
    ensures Sha256Field(q.resultSha256)
  {
    forall r | r in q.artifacts ensures CanonicalReference(q.artifacts[r]) {
      RoleNeedsCanonicalPath(m, q, EvaluationBodies(q), r);
    }
    VerdictNeedsHash(m, q, EvaluationBodies(q));
  }

  /** The rest of the condition comes out of validating the final manifest, of
      replaying the evidence, and of comparing the stored terminal reason. */
  lemma EvaluationNeeds(v: RunRows, m: Machine, q: EvaluationInput)
    requires Basis(v, m) && EvaluationStands(v, m.state, q)
    requires forall r :: r in q.artifacts ==> ValidRef(q.artifacts[r])
    requires ValidManifest(EvaluatedManifest(v.row.manifest, q))
    requires Turns(m, EvaluationBodies(q)).Accepted?
    requires Turns(m, EvaluationBodies(q)).value.state.terminalReason == StripOptional(q.terminalReason)
    ensures CanEvaluate(v, m.state, q)
  {
    EvidenceNeedsCanonicalPaths(m, q);
    LastTurnKeepsTheReason(m, EvaluationBodies(q), q);
    if q.terminalReason.Some? { StripFacts(q.terminalReason.value); }
  }

  lemma LastTurnKeepsTheReason(m: Machine, bodies: seq<Body>, q: EvaluationInput)
    requires bodies != [] && Turns(m, bodies).Accepted?
    requires bodies[|bodies| - 1] == RunTerminal(Some(q.status), q.outcome, OptionalText(q.terminalReason), false)
    ensures Turns(m, bodies).value.state.terminalReason == q.terminalReason
  {}
}
