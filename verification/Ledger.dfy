/** The rows the event store keeps for each run, and when they agree with replay. */
module Ledger {
  import opened Text
  import opened Usage
  import opened Events
  import opened Replay
  import opened ReplayLaws

  // --------------------------------------------------------------- manifests

  datatype ArtifactRef = ArtifactRef(mediaType: string, sizeBytes: nat, sha256: string, storageRef: string)

  datatype RunIdentity = RunIdentity(
    experimentId: string, taskId: string, candidateId: string, genomeHash: Option<string>,
    requestedModel: string, modelParameters: string, seed: nat, environmentDigest: string,
    codeRevision: string, limits: BudgetLimits, createdAt: int)

  datatype RunManifest = RunManifest(
    runId: string, identity: RunIdentity, returnedModel: Option<string>, status: RunStatus,
    startedAt: Option<int>, finishedAt: Option<int>, terminalReason: Option<string>,
    artifacts: map<Role, ArtifactRef>)

  predicate NonEmptyText(s: string) {
    s != "" && Trimmed(s)
  }

  predicate NonEmptyOptional(s: Option<string>) {
    s.Some? ==> NonEmptyText(s.value)
  }

  predicate ValidRef(r: ArtifactRef) {
    NonEmptyText(r.mediaType) && IsSha256(r.sha256) && NonEmptyText(r.storageRef)
  }

  predicate ValidIdentity(i: RunIdentity) {
    && NonEmptyText(i.experimentId) && NonEmptyText(i.taskId) && NonEmptyText(i.candidateId)
    && (i.genomeHash.Some? ==> IsSha256(i.genomeHash.value))
    && NonEmptyText(i.requestedModel) && IsSha256Digest(i.environmentDigest) && NonEmptyText(i.codeRevision)
  }

  predicate ValidLifecycle(m: RunManifest) {
    && (m.startedAt.Some? ==> m.identity.createdAt <= m.startedAt.value)
    && (m.finishedAt.Some? ==> m.identity.createdAt <= m.finishedAt.value)
    && (m.startedAt.Some? && m.finishedAt.Some? ==> m.startedAt.value <= m.finishedAt.value)
    && match m.status
       case Pending => m.startedAt == None && m.finishedAt == None && m.terminalReason == None
       case Running => m.startedAt.Some? && m.finishedAt == None && m.terminalReason == None
       case Succeeded => m.startedAt.Some? && m.finishedAt.Some? && m.terminalReason == None
       case _ => m.finishedAt.Some? && m.terminalReason.Some?
  }

  predicate ValidManifest(m: RunManifest) {
    && NonEmptyText(m.runId) && ValidIdentity(m.identity) && NonEmptyOptional(m.returnedModel)
    && NonEmptyOptional(m.terminalReason)
    && (forall role :: role in m.artifacts ==> ValidRef(m.artifacts[role]))
    && ValidLifecycle(m)
  }

  function StripOptional(s: Option<string>): Option<string> {
    if s == None then None else Some(Strip(s.value))
  }

  /** Building a changed manifest strips its text fields and validates the result. */
  function Rebuilt(m: RunManifest): Option<RunManifest> {
    var stripped := m.(returnedModel := StripOptional(m.returnedModel), terminalReason := StripOptional(m.terminalReason));
    if ValidManifest(stripped) then Some(stripped) else None
  }

  predicate TransitionAllowed(current: RunManifest, proposed: RunManifest) {
    && current.runId == proposed.runId && current.identity == proposed.identity
    && !IsTerminal(current.status)
    && !(current.status == Pending && proposed.status == Succeeded)
    && !(current.status == Running && proposed.status == Pending)
    && (current.startedAt.Some? ==> proposed.startedAt == current.startedAt)
    && (current.returnedModel.Some? ==> proposed.returnedModel == current.returnedModel)
    && forall role :: role in current.artifacts ==>
         role in proposed.artifacts && proposed.artifacts[role] == current.artifacts[role]
  }

  function OptionalText(s: Option<string>): Field {
    if s == None then Absent else Text(s.value)
  }

  function CreationBody(m: RunManifest): Body {
    RunCreated(Some(Pending), Creation(
      Text(m.identity.candidateId), Text(m.identity.codeRevision), Text(m.identity.experimentId),
      Text(m.identity.requestedModel), Text(m.identity.taskId), Text(m.identity.environmentDigest),
      OptionalText(m.identity.genomeHash), Some(m.identity.seed), Some(m.identity.modelParameters),
      Some(m.identity.limits)))
  }

  function ReferenceOf(r: ArtifactRef): ReferencePayload {
    ReferencePayload(Text(r.mediaType), Text(r.sha256), Some(r.sizeBytes), Text(r.storageRef))
  }

  function RecordedBody(role: Role, r: ArtifactRef): Body {
    ArtifactRecorded(Some(role), ReferenceOf(r))
  }

  lemma NonEmptyIsNotBlank(s: string)
    requires NonEmptyText(s)
    ensures !Blank(s) && Strip(s) == s
  {
    StripFacts(s);
  }

  lemma ManifestsDeclareValidCreations(m: RunManifest)
    requires ValidManifest(m)
    ensures ValidCreation(CreationBody(m).creation)
  {
    NonEmptyIsNotBlank(m.identity.candidateId);
    NonEmptyIsNotBlank(m.identity.codeRevision);
    NonEmptyIsNotBlank(m.identity.experimentId);
    NonEmptyIsNotBlank(m.identity.requestedModel);
    NonEmptyIsNotBlank(m.identity.taskId);
    Sha256DigestIsNotBlank(m.identity.environmentDigest);
  }

  /** A reference whose storage path is the canonical one for its digest. */
  predicate CanonicalReference(r: ArtifactRef) {
    ValidRef(r) && r.storageRef == CanonicalRef(r.sha256)
  }

  lemma CanonicalReferencesReplay(r: ArtifactRef)
    requires ValidRef(r)
    ensures ValidReference(ReferenceOf(r)) <==> CanonicalReference(r)
  {
    NonEmptyIsNotBlank(r.mediaType);
    NonEmptyIsNotBlank(r.storageRef);
  }

  // --------------------------------------------------------------------- rows

  datatype RunRow = RunRow(status: RunStatus, revision: nat, manifest: RunManifest)

  datatype BudgetRow = BudgetRow(limits: BudgetLimits, used: BudgetUsage, reserved: BudgetUsage)

  /** What the four tables hold under one run ID: its row, its manifest revisions,
      its events in sequence order and its budget index. */
  datatype RunRows = RunRows(
    row: RunRow, history: seq<RunManifest>, events: seq<EventRecord>, budget: BudgetRow)

  type Tables = map<string, RunRows>

  function Digests(artifacts: map<Role, ArtifactRef>): map<Role, string> {
    map role | role in artifacts :: artifacts[role].sha256
  }

  lemma DigestsOfBinding(artifacts: map<Role, ArtifactRef>, role: Role, r: ArtifactRef)
    ensures Digests(artifacts[role := r]) == Digests(artifacts)[role := r.sha256]
    ensures Digests(artifacts).Keys == artifacts.Keys
  {}

  /** Loading a manifest checks its index column and its latest revision. */
  predicate ManifestLoads(v: RunRows) {
    && v.row.status == v.row.manifest.status
    && v.row.revision < |v.history| && v.history[v.row.revision] == v.row.manifest
  }

  predicate BudgetLoads(v: RunRows) {
    ManifestLoads(v) && v.budget.limits == v.row.manifest.identity.limits
  }

  predicate AgreesWithReplay(s: ReplayState, m: RunManifest, b: BudgetRow) {
    && s.status == m.status && s.used == b.used && s.reserved == b.reserved
    && s.artifacts == Digests(m.artifacts) && s.returnedModel == m.returnedModel
  }

  function ValidatedState(hash: ContentHash, v: RunRows): Verdict<ReplayState> {
    var r := Replayed(hash, v.events, false);
    if r.Rejected? || v.events[0].body != CreationBody(v.row.manifest) || !BudgetLoads(v)
       || !AgreesWithReplay(r.value, v.row.manifest, v.budget) then Rejected
    else r
  }

  predicate TerminalStateValid(hash: ContentHash, v: RunRows) {
    && ValidatedState(hash, v).Accepted?
    && Replayed(hash, v.events, true).Accepted?
    && ValidatedState(hash, v).value.terminalReason == v.row.manifest.terminalReason
  }

  predicate RevisionFollows(history: seq<RunManifest>, i: nat)
    requires 0 < i < |history|
  {
    TransitionAllowed(history[i - 1], history[i])
  }

  predicate HistoryValid(v: RunRows) {
    && |v.history| == v.row.revision + 1
    && (forall i :: 0 <= i < |v.history| ==> v.history[i].runId == v.row.manifest.runId)
    && (forall i :: 0 < i < |v.history| ==> RevisionFollows(v.history, i))
    && v.history[v.row.revision] == v.row.manifest
  }

  /** Everything the whole-ledger verification checks of one run. */
  predicate RunVerifies(hash: ContentHash, v: RunRows) {
    && ManifestLoads(v) && HistoryValid(v)
    && ValidatedState(hash, v).Accepted?
    && (IsTerminal(v.row.manifest.status) ==> TerminalStateValid(hash, v))
  }

  /** The manifest and the events stored under a run ID carry that ID. */
  predicate OwnRows(run: string, v: RunRows) {
    v.row.manifest.runId == run && forall i :: 0 <= i < |v.events| ==> v.events[i].runId == run
  }

  predicate LedgerVerifies(hash: ContentHash, t: Tables) {
    forall run :: run in t ==> RunVerifies(hash, t[run]) && OwnRows(run, t[run])
  }

  // -------------------------------------------------------------- event records

  function EventIdOf(run: string, sequence: nat): string {
    run + ":event:" + PadTo(8, Decimal(sequence))
  }

  lemma DigitsFollowTheLastColon(x: string, a: string, y: string, b: string)
    requires x != "" && x[|x| - 1] == ':' && x + a == y + b
    requires forall i :: 0 <= i < |b| ==> IsDigit(b[i])
    ensures |x| <= |y|
  {
    forall k | |y| <= k < |y + b| ensures IsDigit((y + b)[k]) {
      assert (y + b)[k] == b[k - |y|];
    }
    assert (x + a)[|x| - 1] == ':';
  }

  /** No two events of any runs are given the same identifier. */
  lemma EventIdsAreUnique(r: string, i: nat, q: string, j: nat)
    requires EventIdOf(r, i) == EventIdOf(q, j)
    ensures r == q && i == j
  {
    var a, b := PadTo(8, Decimal(i)), PadTo(8, Decimal(j));
    var x, y := r + ":event:", q + ":event:";
    assert x + a == EventIdOf(r, i) && y + b == EventIdOf(q, j);
    assert x[|x| - 1] == ':' && y[|y| - 1] == ':';
    DigitsFollowTheLastColon(x, a, y, b);
    DigitsFollowTheLastColon(y, b, x, a);
    assert (x + a)[|x|..] == a && (y + b)[|y|..] == b && (x + a)[..|x|] == x && (y + b)[..|y|] == y;
    assert r == x[..|r|] && q == y[..|q|];
    NumberOfPadded(8, Decimal(i));
    NumberOfPadded(8, Decimal(j));
    NumberOfDecimal(i);
    NumberOfDecimal(j);
  }

  function NextEvent(hash: ContentHash, run: string, events: seq<EventRecord>, stamp: Stamp, body: Body): EventRecord {
    if events == [] then EventRecord(EventIdOf(run, 0), run, 0, [], stamp, body, None)
    else
      var last := events[|events| - 1];
      EventRecord(EventIdOf(run, last.sequence + 1), run, last.sequence + 1, [last.eventId], stamp, body, Some(hash(last)))
  }

  /** The events were all appended by the store: each is the successor of its prefix. */
  ghost predicate Issued(hash: ContentHash, run: string, events: seq<EventRecord>) {
    forall i :: 0 <= i < |events| ==> IssuedAt(hash, run, events, i)
  }

  predicate IssuedAt(hash: ContentHash, run: string, events: seq<EventRecord>, i: nat)
    requires i < |events|
  {
    events[i].sequence == i && events[i] == NextEvent(hash, run, events[..i], events[i].stamp, events[i].body)
  }

  lemma IssuedPrefix(hash: ContentHash, run: string, events: seq<EventRecord>, n: nat)
    requires Issued(hash, run, events) && n <= |events|
    ensures Issued(hash, run, events[..n])
  {
    forall i | 0 <= i < n ensures IssuedAt(hash, run, events[..n], i) {
      assert IssuedAt(hash, run, events, i);
      assert events[..n][..i] == events[..i];
    }
  }

  lemma IssuedNames(hash: ContentHash, run: string, events: seq<EventRecord>, i: nat)
    requires Issued(hash, run, events) && i < |events|
    ensures events[i].runId == run && events[i].eventId == EventIdOf(run, i) && events[i].sequence == i
    ensures i > 0 ==>
      events[i].causalParents == [events[i - 1].eventId] && events[i].previousHash == Some(hash(events[i - 1]))
    ensures i == 0 ==> events[0].causalParents == [] && events[0].previousHash == None
  {
    assert IssuedAt(hash, run, events, i);
    if i > 0 {
      assert IssuedAt(hash, run, events, i - 1);
      assert events[..i][i - 1] == events[i - 1];
    }
  }

  lemma IssuedIsChained(hash: ContentHash, run: string, events: seq<EventRecord>)
    requires Issued(hash, run, events)
    ensures Chained(hash, events)
    ensures forall i :: 0 <= i < |events| ==> events[i].runId == run && events[i].eventId == EventIdOf(run, i)
  {
    forall i | 0 <= i < |events| ensures events[i].runId == run && events[i].eventId == EventIdOf(run, i) {
      IssuedNames(hash, run, events, i);
    }
    forall i | 0 <= i < |events| ensures Linked(hash, events, i) {
      IssuedNames(hash, run, events, i);
      forall j | 0 <= j < i ensures events[j].eventId != events[i].eventId {
        if events[j].eventId == events[i].eventId { EventIdsAreUnique(run, j, run, i); }
      }
    }
  }

  lemma IssuedExtension(hash: ContentHash, run: string, events: seq<EventRecord>, stamp: Stamp, body: Body)
    requires Issued(hash, run, events)
    ensures Issued(hash, run, events + [NextEvent(hash, run, events, stamp, body)])
  {
    var all := events + [NextEvent(hash, run, events, stamp, body)];
    forall i | 0 <= i < |all| ensures IssuedAt(hash, run, all, i) {
      if i < |events| {
        assert all[..i] == events[..i];
        assert IssuedAt(hash, run, events, i);
      } else {
        assert all[..i] == events;
        if events != [] { IssuedNames(hash, run, events, |events| - 1); }
      }
    }
  }

  // ----------------------------------------------------------- runs of events

  function Bodies(events: seq<EventRecord>): seq<Body> {
    seq(|events|, i requires 0 <= i < |events| => events[i].body)
  }

  /** Replay turns over bodies appended to a machine. */
  function Turns(m: Machine, bodies: seq<Body>): Verdict<Machine> {
    if bodies == [] then Accepted(m)
    else
      var before := Turns(m, bodies[..|bodies| - 1]);
      if before.Rejected? then Rejected
      else Turn(before.value, before.value.state.eventCount, bodies[|bodies| - 1])
  }

  lemma TurnsOne(m: Machine, bodies: seq<Body>, b: Body)
    ensures Turns(m, bodies + [b]) ==
            if Turns(m, bodies).Rejected? then Rejected
            else Turn(Turns(m, bodies).value, Turns(m, bodies).value.state.eventCount, b)
  {
    assert (bodies + [b])[..|bodies|] == bodies;
  }

  lemma {:induction false} TurnsConcat(m: Machine, a: seq<Body>, b: seq<Body>)
    ensures Turns(m, a + b) == if Turns(m, a).Rejected? then Rejected else Turns(Turns(m, a).value, b)
    decreases |b|
  {
    if b == [] {
      assert a + b == a;
    } else {
      var b' := b[..|b| - 1];
      TurnsConcat(m, a, b');
      assert (a + b)[..|a + b| - 1] == a + b';
    }
  }

  /** Folding a stream is turning over its bodies. */
  lemma {:induction false} FoldIsTurns(hash: ContentHash, run: string, events: seq<EventRecord>)
    requires Issued(hash, run, events)
    ensures Fold(run, events) == Turns(Initial(run), Bodies(events))
  {
    if events != [] {
      var before := events[..|events| - 1];
      IssuedPrefix(hash, run, events, |events| - 1);
      FoldIsTurns(hash, run, before);
      IssuedIsChained(hash, run, events);
      assert Bodies(events)[..|events| - 1] == Bodies(before);
      IssuedNames(hash, run, events, |events| - 1);
      if Fold(run, before).Accepted? {
        FoldIsConsistent(run, before);
      }
    }
  }
}
