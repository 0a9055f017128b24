/** Why an audit that allows quarantine can be acted on. */
module AuditLaws {
  import opened Text
  import opened Usage
  import opened Events
  import opened Ledger
  import opened Keys
  import opened Roots
  import opened Audit
  import A = Artifacts

  // --------------------------------------------------------------- the closure

  function Stored(env: Env, digest: string): Option<Bytes> {
    match Located(env.tree, digest)
    case Readable(bytes) => Some(bytes)
    case Blocked(_) => None
  }

  /** What a structured artifact refers to, if its stored bytes can be read as one. */
  function StructuredReferences(env: Env, structure: Structure, digest: string): seq<ArtifactRef> {
    var stored := Stored(env, digest);
    if stored == None || structure == Plain then []
    else if structure == TaskRole then
      var task := env.readTask(stored.value);
      if task == None then [] else [task.value.problemStatement, task.value.repositorySnapshot] + task.value.visibleTests
    else
      var e := env.readEvaluation(stored.value);
      if e == None then [] else e.value.evidence
  }

  /** A manifest of these runs refers to the artifact, or a task or evaluation
      record that a manifest refers to does. */
  ghost predicate Refers(env: Env, roots: seq<Root>, r: ArtifactRef) {
    exists i, role :: 0 <= i < |roots| && ReferredBy(env, roots[i].manifest, role, r)
  }

  predicate ReferredBy(env: Env, m: RunManifest, role: Role, r: ArtifactRef) {
    role in m.artifacts &&
    (r == m.artifacts[role] || r in StructuredReferences(env, StructureOf(role), m.artifacts[role].sha256))
  }

  /** The reference resolves to all and only its bytes. */
  predicate Exact(env: Env, r: ArtifactRef) {
    && r.storageRef == CanonicalPath(r.sha256)
    && Stored(env, r.sha256).Some? && |Stored(env, r.sha256).value| == r.sizeBytes
    && env.hash(Stored(env, r.sha256).value) == r.sha256
    && r.sizeBytes <= MAX_ARTIFACT_BYTES
  }

  // -------------------------------------------------------------- the worklist

  predicate NoOrphanKinds(fs: seq<Finding>) {
    forall i :: 0 <= i < |fs| ==> !IsOrphanKind(fs[i].kind)
  }

  /** Cached results say what the file system says. */
  ghost predicate CacheInv(env: Env, st: State) {
    (forall key :: key in st.cache ==> CacheEntry(env, key, st.cache[key])) && Owned(st.builders)
  }

  predicate Owned(builders: map<string, Builder>) {
    forall d :: d in builders ==> builders[d].owners != {}
  }

  predicate CacheEntry(env: Env, key: Key, result: ReadResult) {
    match result
    case ReadFailed(kind) => !IsOrphanKind(kind)
    case ReadOk(data, size) =>
      && Exact(env, ArtifactRef("", key.size, key.sha256, key.storageRef))
      && size == key.size && (data.Some? ==> data == Stored(env, key.sha256) && size <= MAX_STRUCTURED_BYTES)
  }

  lemma ReadsAreFaithful(env: Env, r: ArtifactRef, capture: bool, used: nat)
    ensures CacheEntry(env, Key(r.sha256, r.sizeBytes, r.storageRef), ReadReference(env, r, capture, used).result)
    ensures capture && ReadReference(env, r, capture, used).result.ReadOk? ==>
      ReadReference(env, r, capture, used).result.data.Some?
  {}

  /** The state a visit has reached when it looks at what it read. */
  function Looked(env: Env, st: State, n: Node): State {
    Fetched(env, Entered(st, n), n).state
  }

  lemma EnteredFacts(st: State, n: Node)
    ensures var e := Entered(st, n);
            && e.builders.Keys == st.builders.Keys + {n.reference.sha256} && st.findings <= e.findings
            && e == st.(builders := e.builders, findings := e.findings) && (Owned(st.builders) ==> Owned(e.builders))
            && (NoOrphanKinds(st.findings) ==> NoOrphanKinds(e.findings))
  {}

  function KeyOf(n: Node): Key {
    Key(n.reference.sha256, n.reference.sizeBytes, n.reference.storageRef)
  }

  lemma FetchedFacts(env: Env, st: State, n: Node)
    requires CacheInv(env, st)
    ensures var f := Fetched(env, st, n).state;
            && CacheInv(env, f) && f == st.(cache := f.cache, used := f.used)
            && KeyOf(n) in f.cache && ResultFor(f, n) == f.cache[KeyOf(n)]
            && (n.structure != Plain && ResultFor(f, n).ReadOk? ==> ResultFor(f, n).data.Some?)
  {
    ReadsAreFaithful(env, n.reference, n.structure != Plain, st.used);
  }

  lemma LookingFacts(env: Env, st: State, n: Node)
    requires CacheInv(env, st)
    ensures var l := Looked(env, st, n);
            && CacheInv(env, l) && CacheEntry(env, KeyOf(n), ResultFor(l, n))
            && l.builders.Keys == st.builders.Keys + {n.reference.sha256} && (Owned(st.builders) ==> Owned(l.builders))
            && st.findings <= l.findings && (NoOrphanKinds(st.findings) ==> NoOrphanKinds(l.findings))
            && (n.structure != Plain && ResultFor(l, n).ReadOk? ==> ResultFor(l, n).data.Some?)
  {
    EnteredFacts(st, n);
    assert CacheInv(env, Entered(st, n));
    FetchedFacts(env, Entered(st, n), n);
    var l := Looked(env, st, n);
    assert CacheEntry(env, KeyOf(n), l.cache[KeyOf(n)]);
  }

  /** A structured node was read as its kind of record, from its canonical bytes,
      and agrees with the manifest that names it. */
  predicate Understood(env: Env, n: Node) {
    n.structure != Plain ==>
      && Stored(env, n.reference.sha256).Some?
      && var data := Stored(env, n.reference.sha256).value;
         if n.structure == TaskRole then
           && n.reference.mediaType == env.taskMedia
           && env.readTask(data).Some? && env.taskBytes(env.readTask(data).value) == Some(data)
           && TaskFits(n.manifest, env.readTask(data).value)
         else
           && n.reference.mediaType == env.evaluationMedia
           && env.readEvaluation(data).Some? && env.evaluationBytes(env.readEvaluation(data).value) == Some(data)
           && EvaluationFits(n.manifest, env.readEvaluation(data).value)
  }

  predicate Bounded(n: Node) {
    n.structure != Plain ==> n.reference.sizeBytes <= MAX_STRUCTURED_BYTES
  }

  predicate TaskFits(m: RunManifest, task: TaskRecord) {
    && task.taskId == m.identity.taskId && task.imageDigest == m.identity.environmentDigest
    && !InvalidVersion(task.evaluatorVersion)
  }

  predicate EvaluationFits(m: RunManifest, e: EvaluationRecord) {
    && e.runId == m.runId && e.runStatus == m.status
    && (Patch in m.artifacts ==> e.patchHash == m.artifacts[Patch].sha256)
    && e.evidence == ExpectedEvidence(m)
  }

  function ChildNodes(env: Env, n: Node): seq<Node> {
    var stored := Stored(env, n.reference.sha256);
    if stored == None || n.structure == Plain then []
    else if n.structure == TaskRole then
      var task := env.readTask(stored.value);
      if task == None then [] else TaskNodes(n.manifest, task.value)
    else
      var e := env.readEvaluation(stored.value);
      if e == None then [] else EvaluationNodes(n.manifest, e.value)
  }

  /** What remains of a visit once the reference has been read. */
  function Concluded(env: Env, l: State, n: Node): Visited {
    match ResultFor(l, n)
    case ReadFailed(kind) => Visited(l.(findings := l.findings + [Blame(n).(kind := kind)]), [])
    case ReadOk(data, size) =>
      var marked := MarkVerified(l, n.reference.sha256, size);
      if n.structure == Plain then Visited(marked, [])
      else if data == None then Visited(marked.(findings := marked.findings + [Blame(n)]), [])
      else if n.structure == TaskRole then FollowTask(env, marked, n, data.value)
      else FollowEvaluation(env, marked, n, data.value)
  }

  lemma VisitIsConcluded(env: Env, st: State, n: Node)
    ensures Visit(env, st, n) == Concluded(env, Looked(env, st, n), n)
  {}

  /** Later findings are added behind earlier ones and report no orphan. */
  predicate Adds(before: seq<Finding>, after: seq<Finding>) {
    before <= after && (NoOrphanKinds(before) ==> NoOrphanKinds(after))
  }

  lemma AddingBlame(fs: seq<Finding>, bad: bool, n: Node)
    ensures Adds(fs, fs + BlameIf(bad, n))
  {}

  lemma FollowTaskFacts(env: Env, l: State, n: Node, data: Bytes)
    ensures var v := FollowTask(env, l, n, data).state;
            v.cache == l.cache && v.builders == l.builders && Adds(l.findings, v.findings)
  {
    AddingBlame(l.findings, true, n);
    var task := env.readTask(data);
    if task.Some? {
      var bad := InvalidVersion(task.value.evaluatorVersion);
      AddingBlame(l.findings, bad, n);
      AddingBlame(l.findings + BlameIf(bad, n), task.value.taskId != n.manifest.identity.taskId
                  || task.value.imageDigest != n.manifest.identity.environmentDigest, n);
    }
  }

  lemma ThreeAdds(fs: seq<Finding>, x: bool, y: bool, z: bool, n: Node)
    ensures Adds(fs, fs + (BlameIf(x, n) + BlameIf(y, n) + BlameIf(z, n)))
  {
    var a := fs + BlameIf(x, n);
    var b := a + BlameIf(y, n);
    AddingBlame(fs, x, n);
    AddingBlame(a, y, n);
    AddingBlame(b, z, n);
    assert fs + (BlameIf(x, n) + BlameIf(y, n) + BlameIf(z, n)) == b + BlameIf(z, n);
  }

  lemma CrosscheckAdds(fs: seq<Finding>, m: RunManifest, e: EvaluationRecord, n: Node)
    ensures Adds(fs, fs + CrosscheckEvaluation(m, e, n))
  {
    ThreeAdds(fs, e.runId != m.runId, e.runStatus != m.status || (Patch in m.artifacts && e.patchHash != m.artifacts[Patch].sha256),
              e.evidence != ExpectedEvidence(m), n);
  }

  lemma FollowEvaluationFacts(env: Env, l: State, n: Node, data: Bytes)
    ensures var v := FollowEvaluation(env, l, n, data).state;
            v.cache == l.cache && v.builders == l.builders && Adds(l.findings, v.findings)
  {
    AddingBlame(l.findings, true, n);
    var e := env.readEvaluation(data);
    if e.Some? { CrosscheckAdds(l.findings, n.manifest, e.value, n); }
  }

  lemma ConcludedFacts(env: Env, l: State, n: Node)
    requires ResultFor(l, n).ReadFailed? ==> !IsOrphanKind(ResultFor(l, n).kind)
    ensures var v := Concluded(env, l, n).state;
            && v.cache == l.cache && v.builders.Keys == l.builders.Keys && Adds(l.findings, v.findings)
            && (Owned(l.builders) ==> Owned(v.builders))
  {
    var r := ResultFor(l, n);
    if r.ReadOk? {
      var marked := MarkVerified(l, n.reference.sha256, r.size);
      assert marked.builders.Keys == l.builders.Keys && marked.findings == l.findings && marked.cache == l.cache;
      assert Owned(l.builders) ==> Owned(marked.builders);
      AddingBlame(l.findings, true, n);
      if r.data.Some? {
        FollowTaskFacts(env, marked, n, r.data.value);
        FollowEvaluationFacts(env, marked, n, r.data.value);
      }
    }
  }

  lemma VisitFacts(env: Env, st: State, n: Node)
    requires CacheInv(env, st)
    ensures var v := Visit(env, st, n);
            && CacheInv(env, v.state) && st.findings <= v.state.findings
            && v.state.builders.Keys == st.builders.Keys + {n.reference.sha256}
            && (NoOrphanKinds(st.findings) ==> NoOrphanKinds(v.state.findings))
            && (Owned(st.builders) ==> Owned(v.state.builders))
  {
    LookingFacts(env, st, n);
    VisitIsConcluded(env, st, n);
    ConcludedFacts(env, Looked(env, st, n), n);
  }

  lemma LastIsHarmful(fs: seq<Finding>, f: Finding)
    requires !Harmless(f)
    ensures !AllHarmless(fs + [f])
  {
    assert (fs + [f])[|fs|] == f;
  }

  lemma BlamelessPart(fs: seq<Finding>, bad: bool, n: Node)
    ensures AllHarmless(fs + BlameIf(bad, n)) <==> AllHarmless(fs) && !bad
  {
    assert !Harmless(Blame(n));
    if bad { LastIsHarmful(fs, Blame(n)); } else { assert fs + [] == fs; }
  }

  lemma ThreeBlames(f: seq<Finding>, x: bool, y: bool, z: bool, n: Node)
    ensures AllHarmless(f + (BlameIf(x, n) + BlameIf(y, n) + BlameIf(z, n))) <==> AllHarmless(f) && !x && !y && !z
  {
    BlamelessPart(f, x, n);
    BlamelessPart(f + BlameIf(x, n), y, n);
    BlamelessPart(f + BlameIf(x, n) + BlameIf(y, n), z, n);
    assert f + (BlameIf(x, n) + BlameIf(y, n) + BlameIf(z, n)) == f + BlameIf(x, n) + BlameIf(y, n) + BlameIf(z, n);
  }

  lemma HarmlessTask(env: Env, l: State, n: Node, data: Bytes)
    requires n.structure == TaskRole && Stored(env, n.reference.sha256) == Some(data)
    requires AllHarmless(FollowTask(env, l, n, data).state.findings)
    ensures Understood(env, n) && FollowTask(env, l, n, data).children == ChildNodes(env, n)
  {
    LastIsHarmful(l.findings, Blame(n));
    var task := env.readTask(data);
    if task.Some? {
      var a := l.findings + BlameIf(InvalidVersion(task.value.evaluatorVersion), n);
      BlamelessPart(l.findings, InvalidVersion(task.value.evaluatorVersion), n);
      BlamelessPart(a, task.value.taskId != n.manifest.identity.taskId
                       || task.value.imageDigest != n.manifest.identity.environmentDigest, n);
    }
  }

  lemma HarmlessEvaluation(env: Env, l: State, n: Node, data: Bytes)
    requires n.structure == EvaluationRole && Stored(env, n.reference.sha256) == Some(data)
    requires AllHarmless(FollowEvaluation(env, l, n, data).state.findings)
    ensures Understood(env, n) && FollowEvaluation(env, l, n, data).children == ChildNodes(env, n)
  {
    LastIsHarmful(l.findings, Blame(n));
    var e := env.readEvaluation(data);
    if e.Some? {
      var m := n.manifest;
      var x := e.value.runId != m.runId;
      var y := e.value.runStatus != m.status || (Patch in m.artifacts && e.value.patchHash != m.artifacts[Patch].sha256);
      var z := e.value.evidence != ExpectedEvidence(m);
      ThreeBlames(l.findings, x, y, z, n);
      assert l.findings + CrosscheckEvaluation(m, e.value, n) == l.findings + (BlameIf(x, n) + BlameIf(y, n) + BlameIf(z, n));
    }
  }

  /** A visit that blames nothing read the reference, understood it, and queued
      everything it refers to. */
  lemma HarmlessVisit(env: Env, st: State, n: Node)
    requires CacheInv(env, st) && AllHarmless(Visit(env, st, n).state.findings)
    ensures Exact(env, n.reference) && Understood(env, n) && Bounded(n)
    ensures Visit(env, st, n).children == ChildNodes(env, n)
  {
    LookingFacts(env, st, n);
    VisitIsConcluded(env, st, n);
    var l := Looked(env, st, n);
    var r := ResultFor(l, n);
    if r.ReadFailed? {
      LastIsHarmful(l.findings, Blame(n).(kind := r.kind));
    } else {
      var marked := MarkVerified(l, n.reference.sha256, r.size);
      if n.structure == TaskRole {
        HarmlessTask(env, marked, n, r.data.value);
      } else if n.structure == EvaluationRole {
        HarmlessEvaluation(env, marked, n, r.data.value);
      }
    }
  }

  lemma DrainStep(env: Env, st: State, pending: seq<Node>, processed: nat)
    requires processed < MAX_REACHABLE_REFERENCES && pending != []
    ensures var v := Visit(env, st, pending[0]);
            Drained(env, st, pending, processed) == Drained(env, v.state, pending[1..] + v.children, processed + 1)
  {}

  predicate Grows(a: State, b: State) {
    && a.findings <= b.findings && a.builders.Keys <= b.builders.Keys
    && (NoOrphanKinds(a.findings) ==> NoOrphanKinds(b.findings)) && (Owned(a.builders) ==> Owned(b.builders))
  }

  lemma GrowsOn(a: State, b: State, c: State)
    requires Grows(a, b) && Grows(b, c)
    ensures Grows(a, c)
  {}

  lemma VisitGrows(env: Env, st: State, n: Node)
    requires CacheInv(env, st)
    ensures CacheInv(env, Visit(env, st, n).state) && Grows(st, Visit(env, st, n).state)
  {
    VisitFacts(env, st, n);
  }

  lemma DrainEnds(env: Env, st: State, pending: seq<Node>, processed: nat)
    requires processed <= MAX_REACHABLE_REFERENCES && (pending == [] || processed == MAX_REACHABLE_REFERENCES)
    ensures Grows(st, Drained(env, st, pending, processed))
    ensures AllHarmless(Drained(env, st, pending, processed).findings) ==> pending == []
  {
    LastIsHarmful(st.findings, REFERENCE_LIMIT);
  }

  predicate Traceable(env: Env, st: State, r: ArtifactRef) {
    r.sha256 in st.builders && Exact(env, r)
  }

  /** The node and everything it refers to are traced and intact. */
  predicate Settled(env: Env, st: State, n: Node) {
    && Traceable(env, st, n.reference) && Understood(env, n) && Bounded(n)
    && forall i :: 0 <= i < |ChildNodes(env, n)| ==> Traceable(env, st, ChildNodes(env, n)[i].reference)
  }

  lemma HarmlessPrefix(a: seq<Finding>, b: seq<Finding>)
    requires a <= b && AllHarmless(b)
    ensures AllHarmless(a)
  {
    forall i | 0 <= i < |a| ensures Harmless(a[i]) { assert a[i] == b[i]; }
  }

  predicate AllSettled(env: Env, st: State, nodes: seq<Node>) {
    forall i :: 0 <= i < |nodes| ==> Settled(env, st, nodes[i])
  }

  /** The head of the worklist is accounted for by what its visit queued. */
  predicate HeadSettled(env: Env, d: State, n: Node, children: seq<Node>) {
    Traceable(env, d, n.reference) && Understood(env, n) && Bounded(n) && children == ChildNodes(env, n)
  }

  lemma HarmlessHead(env: Env, st: State, n: Node, v: Visited, d: State)
    requires CacheInv(env, st) && v == Visit(env, st, n) && Grows(v.state, d) && AllHarmless(d.findings)
    ensures HeadSettled(env, d, n, v.children)
  {
    VisitFacts(env, st, n);
    HarmlessPrefix(v.state.findings, d.findings);
    HarmlessVisit(env, st, n);
  }

  /** One turn of the worklist, which ends in d. */
  lemma DrainFirst(env: Env, st: State, pending: seq<Node>, processed: nat, d: State) returns (next: State, children: seq<Node>)
    requires CacheInv(env, st) && processed < MAX_REACHABLE_REFERENCES && pending != []
    requires d == Drained(env, st, pending, processed)
    ensures CacheInv(env, next) && Grows(st, next) && d == Drained(env, next, pending[1..] + children, processed + 1)
    ensures Grows(next, d) && AllHarmless(d.findings) ==> HeadSettled(env, d, pending[0], children)
  {
    var v := Visit(env, st, pending[0]);
    next, children := v.state, v.children;
    VisitGrows(env, st, pending[0]);
    DrainStep(env, st, pending, processed);
    if Grows(next, d) && AllHarmless(d.findings) { HarmlessHead(env, st, pending[0], v, d); }
  }

  lemma SettledOn(env: Env, d: State, pending: seq<Node>, children: seq<Node>)
    requires pending != [] && HeadSettled(env, d, pending[0], children) && AllSettled(env, d, pending[1..] + children)
    ensures AllSettled(env, d, pending)
  {
    var rest := pending[1..] + children;
    forall i | 0 <= i < |children| ensures Traceable(env, d, children[i].reference) {
      assert rest[|pending| - 1 + i] == children[i];
    }
    forall i | 0 <= i < |pending| ensures Settled(env, d, pending[i]) {
      if i > 0 { assert rest[i - 1] == pending[i]; }
    }
  }

  ghost predicate DrainedWell(env: Env, d: State, pending: seq<Node>, processed: nat) {
    processed + |pending| <= MAX_REACHABLE_REFERENCES && AllSettled(env, d, pending)
  }

  /** What a worklist that ends in d has done: lost nothing, and, if it blames
      nothing, settled every node it was given within the reference limit. */
  ghost predicate Finishes(env: Env, st: State, pending: seq<Node>, processed: nat, d: State) {
    Grows(st, d) && (AllHarmless(d.findings) ==> DrainedWell(env, d, pending, processed))
  }

  lemma FinishesAtOnce(env: Env, st: State, pending: seq<Node>, processed: nat, d: State)
    requires processed <= MAX_REACHABLE_REFERENCES && (pending == [] || processed == MAX_REACHABLE_REFERENCES)
    requires d == Drained(env, st, pending, processed)
    ensures Finishes(env, st, pending, processed, d)
  {
    DrainEnds(env, st, pending, processed);
  }

  lemma FinishesAfter(env: Env, st: State, next: State, pending: seq<Node>, children: seq<Node>, processed: nat, d: State)
    requires pending != [] && Grows(st, next) && Finishes(env, next, pending[1..] + children, processed + 1, d)
    requires Grows(next, d) && AllHarmless(d.findings) ==> HeadSettled(env, d, pending[0], children)
    ensures Finishes(env, st, pending, processed, d)
  {
    GrowsOn(st, next, d);
    if AllHarmless(d.findings) { SettledOn(env, d, pending, children); }
  }

  lemma {:induction false} DrainFinishes(env: Env, st: State, pending: seq<Node>, processed: nat, d: State)
    requires CacheInv(env, st) && processed <= MAX_REACHABLE_REFERENCES && d == Drained(env, st, pending, processed)
    ensures Finishes(env, st, pending, processed, d)
    decreases MAX_REACHABLE_REFERENCES - processed
  {
    if pending == [] || processed == MAX_REACHABLE_REFERENCES {
      FinishesAtOnce(env, st, pending, processed, d);
    } else {
      var next, children := DrainFirst(env, st, pending, processed, d);
      DrainFinishes(env, next, pending[1..] + children, processed + 1, d);
      FinishesAfter(env, st, next, pending, children, processed, d);
    }
  }

  // ----------------------------------------------------------------- the scan

  /** A later state of the scan: nothing found is lost, counts only grow. */
  predicate Later(a: Scan, b: Scan) {
    a.findings <= b.findings && a.counter <= b.counter && a.used <= b.used && a.observed <= b.observed
  }

  /** Orphans are temporaries, or finalized names no reference has. */
  predicate OrphansUnowned(builders: map<string, Builder>, fs: seq<Finding>) {
    forall i :: 0 <= i < |fs| && IsOrphanKind(fs[i].kind) ==>
      fs[i].path.Leaf? && (TEMP_PREFIX <= fs[i].path.name || fs[i].path.name !in builders)
  }

  /** What is observed is a canonical name in its own shard. */
  predicate ObservedCanonical(observed: set<string>) {
    forall d :: d in observed ==> IsSha256(d) && !(TEMP_PREFIX <= d)
  }

  predicate ScanInv(builders: map<string, Builder>, s: Scan) {
    OrphansUnowned(builders, s.findings) && ObservedCanonical(s.observed)
  }

  lemma {:induction false} ListedFacts(builders: map<string, Builder>, entries: seq<Entry>, path: Path, s: Scan)
    ensures var l := Listed(entries, path, s).scan;
            Later(s, l) && (ScanInv(builders, s) ==> ScanInv(builders, l))
  {
    if entries != [] { ListedFacts(builders, entries[..|entries| - 1], path, s); }
  }

  lemma ShardEntryFacts(env: Env, builders: map<string, Builder>, prefix: string, e: Entry, s: Scan)
    ensures Later(s, ShardEntry(env, builders, prefix, e, s))
    ensures ScanInv(builders, s) ==> ScanInv(builders, ShardEntry(env, builders, prefix, e, s))
  {}

  lemma {:induction false} ShardEntriesFacts(env: Env, builders: map<string, Builder>, prefix: string, entries: seq<Entry>, s: Scan)
    ensures var l := ShardEntries(env, builders, prefix, entries, s);
            Later(s, l) && (ScanInv(builders, s) ==> ScanInv(builders, l))
  {
    if entries != [] {
      ShardEntriesFacts(env, builders, prefix, entries[..|entries| - 1], s);
      ShardEntryFacts(env, builders, prefix, entries[|entries| - 1],
                      ShardEntries(env, builders, prefix, entries[..|entries| - 1], s));
    }
  }

  lemma DirectoryFacts(builders: map<string, Builder>, l: Listing, path: Path, s: Scan)
    ensures var d := ScanDirectory(l, path, s).scan;
            Later(s, d) && (ScanInv(builders, s) ==> ScanInv(builders, d))
  {
    ListedFacts(builders, l.entries, path, s);
  }

  lemma ShardFacts(env: Env, builders: map<string, Builder>, prefix: string, s: Scan)
    ensures var l := Shard(env, builders, prefix, s);
            Later(s, l) && (ScanInv(builders, s) ==> ScanInv(builders, l))
  {
    var listed := ScanDirectory(ShardOf(env.tree, prefix), ShaEntry(prefix), s);
    DirectoryFacts(builders, ShardOf(env.tree, prefix), ShaEntry(prefix), s);
    if listed.entries.Some? { ShardEntriesFacts(env, builders, prefix, listed.entries.value, listed.scan); }
  }

  lemma PrefixEntryFacts(env: Env, builders: map<string, Builder>, e: Entry, s: Scan)
    ensures var l := PrefixEntry(env, builders, e, s);
            Later(s, l) && (ScanInv(builders, s) ==> ScanInv(builders, l))
  {
    ShardFacts(env, builders, e.name, s);
  }

  lemma {:induction false} PrefixEntriesFacts(env: Env, builders: map<string, Builder>, entries: seq<Entry>, s: Scan)
    ensures var l := PrefixEntries(env, builders, entries, s);
            Later(s, l) && (ScanInv(builders, s) ==> ScanInv(builders, l))
  {
    if entries != [] {
      PrefixEntriesFacts(env, builders, entries[..|entries| - 1], s);
      PrefixEntryFacts(env, builders, entries[|entries| - 1], PrefixEntries(env, builders, entries[..|entries| - 1], s));
    }
  }

  lemma TopLevelEntryFacts(env: Env, builders: map<string, Builder>, e: Entry, s: Scan)
    ensures var l := TopLevelEntry(env, builders, e, s);
            Later(s, l) && (ScanInv(builders, s) ==> ScanInv(builders, l))
  {
    var listed := ScanDirectory(env.tree.sha, TopEntry(e.name), s);
    DirectoryFacts(builders, env.tree.sha, TopEntry(e.name), s);
    if listed.entries.Some? { PrefixEntriesFacts(env, builders, listed.entries.value, listed.scan); }
  }

  lemma {:induction false} TopLevelEntriesFacts(env: Env, builders: map<string, Builder>, entries: seq<Entry>, s: Scan)
    ensures var l := TopLevelEntries(env, builders, entries, s);
            Later(s, l) && (ScanInv(builders, s) ==> ScanInv(builders, l))
  {
    if entries != [] {
      TopLevelEntriesFacts(env, builders, entries[..|entries| - 1], s);
      TopLevelEntryFacts(env, builders, entries[|entries| - 1], TopLevelEntries(env, builders, entries[..|entries| - 1], s));
    }
  }

  lemma InventoryFacts(env: Env, builders: map<string, Builder>, s: Scan)
    ensures var l := Inventoried(env, builders, s);
            Later(s, l) && (ScanInv(builders, s) ==> ScanInv(builders, l))
  {
    var listed := ScanDirectory(env.tree.root, Top, s);
    DirectoryFacts(builders, env.tree.root, Top, s);
    if listed.entries.Some? { TopLevelEntriesFacts(env, builders, listed.entries.value, listed.scan); }
  }

  // ------------------------------------------------------- what "allowed" means

  ghost predicate Allowed(env: Env, ordered: seq<Root>) {
    ReportOf(env, None, ordered).quarantineAllowed
  }

  lemma AllowedIsHarmless(env: Env, ordered: seq<Root>)
    ensures Allowed(env, ordered) <==>
            AllHarmless(FindingsOf(env, ordered)) && AllVerified(Traced(env, ordered).builders)
  {
    var fs := FindingsOf(env, ordered);
    if AllHarmless(fs) {
      forall i | 0 <= i < |fs| ensures fs[i].owners == {} && fs[i].kind != ScanError && fs[i].kind != LimitExceeded {
        assert Harmless(fs[i]);
      }
    }
    if Completes(fs) && Blameless(fs) {
      forall i | 0 <= i < |fs| ensures Harmless(fs[i]) {}
    }
  }

  function Nodes(env: Env, ordered: seq<Root>): seq<Node> {
    AllDirectNodes(env, Followed(ordered))
  }

  ghost function Worked(env: Env, ordered: seq<Root>): State {
    Drained(env, Start(ordered), Nodes(env, ordered), 0)
  }

  ghost function Surveyed(env: Env, ordered: seq<Root>): Scan {
    var st := Traced(env, ordered);
    Inventoried(env, st.builders, Scan(st.findings, 0, st.used, {}))
  }

  lemma StartHolds(env: Env, ordered: seq<Root>)
    ensures CacheInv(env, Start(ordered)) && NoOrphanKinds(Start(ordered).findings)
  {}

  lemma {:induction false} CrosscheckedRunsFacts(st: State, runs: seq<string>)
    ensures NoOrphanKinds(CrosscheckedRuns(st, runs))
  {
    if runs != [] {
      CrosscheckedRunsFacts(st, runs[..|runs| - 1]);
    }
  }

  lemma TracedFacts(env: Env, ordered: seq<Root>)
    ensures var st := Traced(env, ordered);
            && st.builders == Worked(env, ordered).builders && Worked(env, ordered).findings <= st.findings
            && NoOrphanKinds(st.findings) && Start(ordered).findings <= st.findings
  {
    var w := Worked(env, ordered);
    StartHolds(env, ordered);
    DrainFinishes(env, Start(ordered), Nodes(env, ordered), 0, w);
    CrosscheckedRunsFacts(w, SortedKeys(w.tasks.Keys * w.evaluations.Keys));
  }

  lemma SurveyFacts(env: Env, ordered: seq<Root>)
    ensures var st, scan := Traced(env, ordered), Surveyed(env, ordered);
            && st.findings <= scan.findings <= FindingsOf(env, ordered)
            && ScanInv(st.builders, scan)
  {
    TracedFacts(env, ordered);
    var st := Traced(env, ordered);
    InventoryFacts(env, st.builders, Scan(st.findings, 0, st.used, {}));
  }

  lemma {:induction false} UnobservedIsHarmful(builders: map<string, Builder>, observed: set<string>, digests: seq<string>)
    requires Owned(builders) && AllHarmless(Unobserved(builders, observed, digests))
    ensures forall d :: d in digests && d in builders ==> d in observed
  {
    if digests != [] {
      var d, before := digests[|digests| - 1], digests[..|digests| - 1];
      var found := Unobserved(builders, observed, before);
      assert digests == before + [d];
      HarmlessPrefix(found, Unobserved(builders, observed, digests));
      UnobservedIsHarmful(builders, observed, before);
      if d in builders && d !in observed {
        LastIsHarmful(found, Finding(CorruptReferenced, Leaf(A.PrefixOf(d), d), builders[d].owners));
      }
    }
  }

  lemma HarmlessSuffix(a: seq<Finding>, b: seq<Finding>)
    requires AllHarmless(a + b)
    ensures AllHarmless(a) && AllHarmless(b)
  {
    forall i | 0 <= i < |a| ensures Harmless(a[i]) { assert a[i] == (a + b)[i]; }
    forall i | 0 <= i < |b| ensures Harmless(b[i]) { assert b[i] == (a + b)[|a| + i]; }
  }

  /** An allowed audit followed every root, settled everything it reached within its
      limits, and met every referenced digest at its canonical name. */
  lemma AllowedGraph(env: Env, ordered: seq<Root>)
    requires Allowed(env, ordered)
    ensures |ordered| <= MAX_ROOTS && |Nodes(env, ordered)| <= MAX_REACHABLE_REFERENCES
    ensures AllSettled(env, Worked(env, ordered), Nodes(env, ordered))
    ensures forall d :: d in Worked(env, ordered).builders ==> d in Surveyed(env, ordered).observed
  {
    var w, scan := Worked(env, ordered), Surveyed(env, ordered);
    AllowedIsHarmless(env, ordered);
    StartHolds(env, ordered);
    TracedFacts(env, ordered);
    SurveyFacts(env, ordered);
    HarmlessPrefix(Start(ordered).findings, FindingsOf(env, ordered));
    HarmlessPrefix(w.findings, FindingsOf(env, ordered));
    assert |Start(ordered).findings| > 0 ==> Harmless(Start(ordered).findings[0]);
    DrainFinishes(env, Start(ordered), Nodes(env, ordered), 0, w);
    HarmlessSuffix(scan.findings, Unobserved(w.builders, scan.observed, SortedKeys(w.builders.Keys)));
    UnobservedIsHarmful(w.builders, scan.observed, SortedKeys(w.builders.Keys));
    SortedKeysFacts(w.builders.Keys);
  }

  lemma {:induction false} DirectNodeOf(env: Env, roots: seq<Root>, i: nat, role: Role) returns (k: nat)
    requires i < |roots| && role in roots[i].manifest.artifacts && Lists(env, roots[i].manifest.artifacts)
    ensures k < |AllDirectNodes(env, roots)|
    ensures var n := AllDirectNodes(env, roots)[k];
            n.reference == roots[i].manifest.artifacts[role] && n.structure == StructureOf(role) && n.manifest == roots[i].manifest
    decreases |roots|
  {
    var before := AllDirectNodes(env, roots[..|roots| - 1]);
    if i == |roots| - 1 {
      var m := roots[i].manifest;
      var j :| 0 <= j < |env.roleOrder(m.artifacts)| && env.roleOrder(m.artifacts)[j] == role;
      k := |before| + j;
      assert AllDirectNodes(env, roots)[k] == DirectNodes(env, m)[j];
    } else {
      k := DirectNodeOf(env, roots[..|roots| - 1], i, role);
      assert AllDirectNodes(env, roots)[k] == before[k];
    }
  }

  lemma ChildOf(env: Env, n: Node, r: ArtifactRef) returns (j: nat)
    requires r in StructuredReferences(env, n.structure, n.reference.sha256)
    ensures j < |ChildNodes(env, n)| && ChildNodes(env, n)[j].reference == r
  {
    var refs := StructuredReferences(env, n.structure, n.reference.sha256);
    var i :| 0 <= i < |refs| && refs[i] == r;
    j := i;
  }

  lemma BoundIsSettled(env: Env, ordered: seq<Root>, i: nat, role: Role) returns (n: Node)
    requires Allowed(env, ordered) && i < |ordered| && role in ordered[i].manifest.artifacts
    requires Lists(env, ordered[i].manifest.artifacts)
    ensures n.reference == ordered[i].manifest.artifacts[role] && n.structure == StructureOf(role)
    ensures Settled(env, Worked(env, ordered), n) && n.manifest == ordered[i].manifest
  {
    AllowedGraph(env, ordered);
    var k := DirectNodeOf(env, ordered, i, role);
    n := Nodes(env, ordered)[k];
  }

  lemma ReferredIsTraceable(env: Env, ordered: seq<Root>, r: ArtifactRef)
    requires Allowed(env, ordered) && Refers(env, ordered, r)
    requires forall i :: 0 <= i < |ordered| ==> Lists(env, ordered[i].manifest.artifacts)
    ensures Traceable(env, Worked(env, ordered), r)
  {
    var i, role :| 0 <= i < |ordered| && ReferredBy(env, ordered[i].manifest, role, r);
    var n := BoundIsSettled(env, ordered, i, role);
    ReferredByNode(env, Worked(env, ordered), n, r);
  }

  lemma ReferredByNode(env: Env, st: State, n: Node, r: ArtifactRef)
    requires Settled(env, st, n)
    requires r == n.reference || r in StructuredReferences(env, n.structure, n.reference.sha256)
    ensures Traceable(env, st, r)
  {
    if r != n.reference {
      var j := ChildOf(env, n, r);
    }
  }

  /** The soundness of quarantine: when it is allowed, everything a manifest, a
      task or an evaluation refers to is intact at its canonical path, and nothing
      reported as an orphan, temporary or finalized, has the name of any of it. */
  lemma OrphansAreNeverReferenced(env: Env, ordered: seq<Root>, r: ArtifactRef, i: nat)
    requires Allowed(env, ordered) && Refers(env, ordered, r)
    requires forall k :: 0 <= k < |ordered| ==> Lists(env, ordered[k].manifest.artifacts)
    requires i < |FindingsOf(env, ordered)| && IsOrphanKind(FindingsOf(env, ordered)[i].kind)
    ensures Exact(env, r)
    ensures FindingsOf(env, ordered)[i].path.Leaf? && FindingsOf(env, ordered)[i].path.name != r.sha256
  {
    var fs, scan := FindingsOf(env, ordered), Surveyed(env, ordered);
    ReferredIsTraceable(env, ordered, r);
    AllowedGraph(env, ordered);
    TracedFacts(env, ordered);
    SurveyFacts(env, ordered);
    UnobservedHasNoOrphans(Worked(env, ordered).builders, scan.observed, SortedKeys(Worked(env, ordered).builders.Keys));
    assert fs == scan.findings + Unobserved(Worked(env, ordered).builders, scan.observed,
                                            SortedKeys(Worked(env, ordered).builders.Keys));
    assert i < |scan.findings| && fs[i] == scan.findings[i];
  }

  lemma {:induction false} UnobservedHasNoOrphans(builders: map<string, Builder>, observed: set<string>, digests: seq<string>)
    ensures NoOrphanKinds(Unobserved(builders, observed, digests))
  {
    if digests != [] { UnobservedHasNoOrphans(builders, observed, digests[..|digests| - 1]); }
  }

  // ------------------------------------------- tasks against their evaluations

  /** The record the worklist keeps for a structured node is the one its bytes hold. */
  predicate Recorded(env: Env, st: State, n: Node) {
    var stored := Stored(env, n.reference.sha256);
    && (n.structure == TaskRole ==>
          && n.owner.runId in st.tasks && stored.Some? && env.readTask(stored.value) == Some(st.tasks[n.owner.runId]))
    && (n.structure == EvaluationRole ==>
          && n.owner.runId in st.evaluations && stored.Some? && env.readEvaluation(stored.value).Some?
          && st.evaluations[n.owner.runId] == Judged(env.readEvaluation(stored.value).value, n.reference, n.owner))
  }

  predicate AllRecorded(env: Env, st: State, nodes: seq<Node>) {
    forall i {:trigger Recorded(env, st, nodes[i])} :: 0 <= i < |nodes| ==> Recorded(env, st, nodes[i])
  }

  /** Structured nodes of one kind and one run are the same reference. */
  predicate Compatible(a: Node, b: Node) {
    a.structure == b.structure && a.structure != Plain && a.owner.runId == b.owner.runId ==>
      a.reference == b.reference && a.owner == b.owner
  }

  predicate AllCompatible(nodes: seq<Node>) {
    forall i, j {:trigger Compatible(nodes[i], nodes[j])} :: 0 <= i < |nodes| && 0 <= j < |nodes| ==> Compatible(nodes[i], nodes[j])
  }

  /** What reading a node leaves in the records kept for the runs. */
  predicate Keeps(env: Env, before: State, after: State, n: Node) {
    && Recorded(env, after, n)
    && (n.structure == TaskRole ==>
          after.evaluations == before.evaluations && after.tasks - {n.owner.runId} == before.tasks - {n.owner.runId})
    && (n.structure == EvaluationRole ==>
          after.tasks == before.tasks && after.evaluations - {n.owner.runId} == before.evaluations - {n.owner.runId})
    && (n.structure == Plain ==> after.tasks == before.tasks && after.evaluations == before.evaluations)
  }

  lemma HarmlessTaskKeeps(env: Env, l: State, n: Node, data: Bytes)
    requires n.structure == TaskRole && Stored(env, n.reference.sha256) == Some(data)
    requires AllHarmless(FollowTask(env, l, n, data).state.findings)
    ensures Keeps(env, l, FollowTask(env, l, n, data).state, n)
  {
    LastIsHarmful(l.findings, Blame(n));
  }

  lemma HarmlessEvaluationKeeps(env: Env, l: State, n: Node, data: Bytes)
    requires n.structure == EvaluationRole && Stored(env, n.reference.sha256) == Some(data)
    requires AllHarmless(FollowEvaluation(env, l, n, data).state.findings)
    ensures Keeps(env, l, FollowEvaluation(env, l, n, data).state, n)
  {
    LastIsHarmful(l.findings, Blame(n));
  }

  lemma LookingKeepsRecords(env: Env, st: State, n: Node)
    ensures Looked(env, st, n).tasks == st.tasks && Looked(env, st, n).evaluations == st.evaluations
  {}

  lemma HarmlessVisitKeeps(env: Env, st: State, n: Node)
    requires CacheInv(env, st) && AllHarmless(Visit(env, st, n).state.findings)
    ensures Keeps(env, st, Visit(env, st, n).state, n)
  {
    LookingFacts(env, st, n);
    LookingKeepsRecords(env, st, n);
    VisitIsConcluded(env, st, n);
    var l := Looked(env, st, n);
    var r := ResultFor(l, n);
    if r.ReadFailed? {
      LastIsHarmful(l.findings, Blame(n).(kind := r.kind));
    } else {
      var marked := MarkVerified(l, n.reference.sha256, r.size);
      if n.structure == TaskRole {
        HarmlessTaskKeeps(env, marked, n, r.data.value);
      } else if n.structure == EvaluationRole {
        HarmlessEvaluationKeeps(env, marked, n, r.data.value);
      }
    }
  }

  lemma OtherRecordStays<T>(before: map<string, T>, after: map<string, T>, written: string, run: string)
    requires after - {written} == before - {written} && run != written && run in before
    ensures run in after && after[run] == before[run]
  {
    assert run in before - {written} && (before - {written})[run] == before[run];
    assert run in after - {written} && (after - {written})[run] == after[run];
  }

  lemma RecordedStays(env: Env, before: State, after: State, n: Node, other: Node)
    requires Keeps(env, before, after, n) && Recorded(env, before, other) && Compatible(other, n)
    ensures Recorded(env, after, other)
  {
    if other.structure == n.structure && other.owner.runId != n.owner.runId {
      if n.structure == TaskRole {
        OtherRecordStays(before.tasks, after.tasks, n.owner.runId, other.owner.runId);
      } else if n.structure == EvaluationRole {
        OtherRecordStays(before.evaluations, after.evaluations, n.owner.runId, other.owner.runId);
      }
    }
  }

  lemma AllRecordedStays(env: Env, before: State, after: State, n: Node, done: seq<Node>)
    requires Keeps(env, before, after, n) && AllRecorded(env, before, done)
    requires forall i {:trigger Compatible(done[i], n)} :: 0 <= i < |done| ==> Compatible(done[i], n)
    ensures AllRecorded(env, after, done + [n])
  {
    var all := done + [n];
    forall i | 0 <= i < |all| ensures Recorded(env, after, all[i]) {
      if i < |done| {
        assert Recorded(env, before, done[i]) && Compatible(done[i], n);
        RecordedStays(env, before, after, n, done[i]);
      }
    }
  }

  predicate AllPlain(nodes: seq<Node>) {
    forall i :: 0 <= i < |nodes| ==> nodes[i].structure == Plain
  }

  lemma ChildrenArePlain(env: Env, n: Node)
    ensures AllPlain(ChildNodes(env, n))
  {}

  lemma PlainNodesAreCompatible(done: seq<Node>, pending: seq<Node>, children: seq<Node>)
    requires pending != [] && AllCompatible(done + pending) && AllPlain(children)
    ensures AllCompatible(done + [pending[0]] + (pending[1..] + children))
  {
    var given, all := done + pending, done + [pending[0]] + (pending[1..] + children);
    assert all == given + children;
    forall i, j | 0 <= i < |all| && 0 <= j < |all| ensures Compatible(all[i], all[j]) {
      if i < |given| && j < |given| {
        assert Compatible(given[i], given[j]);
      } else if i >= |given| {
        assert all[i] == children[i - |given|];
      } else {
        assert all[j] == children[j - |given|];
      }
    }
  }

  /** The worklist ends in d. The quantifier keeps the trace folded until a proof
      mentions it, and so does the next one with the visit. */
  ghost predicate Leads(env: Env, st: State, pending: seq<Node>, processed: nat, d: State) {
    && CacheInv(env, st) && processed <= MAX_REACHABLE_REFERENCES
    && forall k: nat {:trigger Drained(env, st, pending, k)} :: k == processed ==> d == Drained(env, st, pending, k)
  }

  ghost predicate Turned(env: Env, st: State, n: Node, next: State, children: seq<Node>) {
    forall k {:trigger Visit(env, st, k)} :: k == n ==> Visit(env, st, k) == Visited(next, children)
  }

  /** One harmless turn of the worklist: its node joins the recorded ones. */
  lemma HarmlessTurn(
      env: Env, st: State, done: seq<Node>, pending: seq<Node>, next: State, children: seq<Node>, rest: seq<Node>)
    requires CacheInv(env, st) && pending != [] && rest == pending[1..] + children && AllHarmless(next.findings)
    requires Turned(env, st, pending[0], next, children)
    requires AllRecorded(env, st, done) && AllCompatible(done + pending)
    ensures AllRecorded(env, next, done + [pending[0]]) && AllCompatible(done + [pending[0]] + rest)
  {
    assert Visit(env, st, pending[0]) == Visited(next, children);
    HarmlessVisit(env, st, pending[0]);
    HarmlessVisitKeeps(env, st, pending[0]);
    var given := done + pending;
    forall i | 0 <= i < |done| ensures Compatible(done[i], pending[0]) {
      assert Compatible(given[i], given[|done|]);
    }
    AllRecordedStays(env, st, next, pending[0], done);
    ChildrenArePlain(env, pending[0]);
    PlainNodesAreCompatible(done, pending, children);
  }

  lemma RecordedPart(env: Env, d: State, done: seq<Node>, pending: seq<Node>, more: seq<Node>, rest: seq<Node>)
    requires pending != [] && more == done + [pending[0]] && pending[1..] <= rest && AllRecorded(env, d, more + rest)
    ensures AllRecorded(env, d, done + pending)
  {
    var all, whole := done + pending, more + rest;
    forall i | 0 <= i < |all| ensures Recorded(env, d, all[i]) {
      assert whole[i] == all[i];
      assert Recorded(env, d, whole[i]);
    }
  }

  /** A worklist on its way to d, with the nodes it is done with recorded. */
  ghost predicate Recording(env: Env, st: State, done: seq<Node>, pending: seq<Node>, processed: nat, d: State) {
    Leads(env, st, pending, processed, d) && AllRecorded(env, st, done) && AllCompatible(done + pending)
  }

  /** What is found on the way is still found at the end. */
  lemma DrainIsBlamelessThroughout(env: Env, st: State, pending: seq<Node>, processed: nat, d: State)
    requires Leads(env, st, pending, processed, d) && AllHarmless(d.findings)
    ensures AllHarmless(st.findings)
  {
    assert d == Drained(env, st, pending, processed);
    DrainFinishes(env, st, pending, processed, d);
    HarmlessPrefix(st.findings, d.findings);
  }

  lemma DrainOne(env: Env, st: State, pending: seq<Node>, processed: nat, d: State)
    returns (next: State, children: seq<Node>, rest: seq<Node>)
    requires Leads(env, st, pending, processed, d) && processed < MAX_REACHABLE_REFERENCES && pending != []
    ensures Turned(env, st, pending[0], next, children) && rest == pending[1..] + children
    ensures Leads(env, next, rest, processed + 1, d)
  {
    var v := Visit(env, st, pending[0]);
    next, children, rest := v.state, v.children, pending[1..] + v.children;
    assert d == Drained(env, st, pending, processed);
    VisitGrows(env, st, pending[0]);
    DrainStep(env, st, pending, processed);
  }

  lemma RecordTurn(env: Env, st: State, done: seq<Node>, pending: seq<Node>, processed: nat, d: State)
    returns (next: State, rest: seq<Node>)
    requires Recording(env, st, done, pending, processed, d) && AllHarmless(d.findings)
    requires pending != [] && processed < MAX_REACHABLE_REFERENCES
    ensures Recording(env, next, done + [pending[0]], rest, processed + 1, d) && pending[1..] <= rest
  {
    var children;
    next, children, rest := DrainOne(env, st, pending, processed, d);
    DrainIsBlamelessThroughout(env, next, rest, processed + 1, d);
    HarmlessTurn(env, st, done, pending, next, children, rest);
  }

  lemma RecordEnd(env: Env, st: State, done: seq<Node>, pending: seq<Node>, processed: nat, d: State)
    requires Recording(env, st, done, pending, processed, d) && AllHarmless(d.findings)
    requires pending == [] || processed == MAX_REACHABLE_REFERENCES
    ensures AllRecorded(env, d, done + pending)
  {
    assert d == Drained(env, st, pending, processed);
    DrainEnds(env, st, pending, processed);
    assert done + pending == done;
  }

  /** When the worklist ends without blame, every node it was given is recorded. */
  lemma {:induction false} DrainRecords(env: Env, st: State, done: seq<Node>, pending: seq<Node>, processed: nat, d: State)
    requires Recording(env, st, done, pending, processed, d) && AllHarmless(d.findings)
    ensures AllRecorded(env, d, done + pending)
    decreases MAX_REACHABLE_REFERENCES - processed
  {
    if pending == [] || processed == MAX_REACHABLE_REFERENCES {
      RecordEnd(env, st, done, pending, processed, d);
    } else {
      var next, rest := RecordTurn(env, st, done, pending, processed, d);
      DrainRecords(env, next, done + [pending[0]], rest, processed + 1, d);
      RecordedPart(env, d, done, pending, done + [pending[0]], rest);
    }
  }

  /** The node a structured artifact of a manifest is followed by. */
  function BoundNode(m: RunManifest, role: Role): Node
    requires role in m.artifacts
  {
    Node(m.artifacts[role], Owner(m.runId, Bound(role)), StructureOf(role), m)
  }

  lemma {:induction false} DirectNodeIsBound(env: Env, roots: seq<Root>, k: nat) returns (i: nat)
    requires k < |AllDirectNodes(env, roots)|
    ensures i < |roots| && AllDirectNodes(env, roots)[k].owner.runId == roots[i].manifest.runId
    ensures var n, m := AllDirectNodes(env, roots)[k], roots[i].manifest;
            n.structure != Plain ==> exists role :: role in m.artifacts && n == BoundNode(m, role)
    decreases |roots|
  {
    var before := AllDirectNodes(env, roots[..|roots| - 1]);
    if k < |before| {
      i := DirectNodeIsBound(env, roots[..|roots| - 1], k);
    } else {
      i := |roots| - 1;
      var m := roots[i].manifest;
      var roles := env.roleOrder(m.artifacts);
      var role := roles[k - |before|];
      assert AllDirectNodes(env, roots)[k] == DirectNodes(env, m)[k - |before|];
      if role in m.artifacts { assert AllDirectNodes(env, roots)[k] == BoundNode(m, role); }
    }
  }

  lemma SameStructureSameRole(q: Role, r: Role)
    requires StructureOf(q) == StructureOf(r) && StructureOf(q) != Plain
    ensures q == r
  {}

  lemma DirectNodesAreCompatible(env: Env, roots: seq<Root>)
    requires DistinctRuns(roots)
    ensures AllCompatible(AllDirectNodes(env, roots))
  {
    var nodes := AllDirectNodes(env, roots);
    forall i, j | 0 <= i < |nodes| && 0 <= j < |nodes| ensures Compatible(nodes[i], nodes[j]) {
      if nodes[i].structure == nodes[j].structure && nodes[i].structure != Plain && nodes[i].owner.runId == nodes[j].owner.runId {
        var a := DirectNodeIsBound(env, roots, i);
        var b := DirectNodeIsBound(env, roots, j);
        assert a == b;
        var m := roots[a].manifest;
        var q :| q in m.artifacts && nodes[i] == BoundNode(m, q);
        var r :| r in m.artifacts && nodes[j] == BoundNode(m, r);
        SameStructureSameRole(q, r);
      }
    }
  }

  lemma ComparisonsBlame(task: TaskRecord, j: Judged)
    ensures AllHarmless(TaskEvaluationFindings(task, j)) ==> TaskEvaluationFindings(task, j) == []
  {
    var fs := TaskEvaluationFindings(task, j);
    if fs != [] { assert !Harmless(fs[0]); }
  }

  /** The comparison blames nothing only if it finds nothing for any run. */
  lemma {:induction false} HarmlessComparisons(st: State, runs: seq<string>)
    requires AllHarmless(CrosscheckedRuns(st, runs))
    ensures forall run :: run in runs && run in st.tasks && run in st.evaluations ==>
              TaskEvaluationFindings(st.tasks[run], st.evaluations[run]) == []
  {
    if runs != [] {
      var run, before := runs[|runs| - 1], runs[..|runs| - 1];
      var last :=
        if run in st.tasks && run in st.evaluations then TaskEvaluationFindings(st.tasks[run], st.evaluations[run]) else [];
      HarmlessSuffix(CrosscheckedRuns(st, before), last);
      HarmlessComparisons(st, before);
      if run in st.tasks && run in st.evaluations { ComparisonsBlame(st.tasks[run], st.evaluations[run]); }
      assert runs == before + [run];
    }
  }

  lemma AllowedComparisons(env: Env, ordered: seq<Root>, run: string)
    requires Allowed(env, ordered)
    ensures var w := Worked(env, ordered);
            run in w.tasks && run in w.evaluations ==> TaskEvaluationFindings(w.tasks[run], w.evaluations[run]) == []
  {
    var w := Worked(env, ordered);
    AllowedIsHarmless(env, ordered);
    SurveyFacts(env, ordered);
    HarmlessPrefix(Traced(env, ordered).findings, FindingsOf(env, ordered));
    var runs := SortedKeys(w.tasks.Keys * w.evaluations.Keys);
    HarmlessSuffix(w.findings, CrosscheckedRuns(w, runs));
    HarmlessComparisons(w, runs);
    SortedKeysFacts(w.tasks.Keys * w.evaluations.Keys);
  }

  lemma AllowedIsRecorded(env: Env, ordered: seq<Root>)
    requires Allowed(env, ordered) && DistinctRuns(ordered)
    ensures |ordered| <= MAX_ROOTS && AllRecorded(env, Worked(env, ordered), Nodes(env, ordered))
  {
    var w := Worked(env, ordered);
    AllowedIsHarmless(env, ordered);
    AllowedGraph(env, ordered);
    TracedFacts(env, ordered);
    SurveyFacts(env, ordered);
    HarmlessPrefix(w.findings, FindingsOf(env, ordered));
    StartHolds(env, ordered);
    DirectNodesAreCompatible(env, Followed(ordered));
    assert [] + Nodes(env, ordered) == Nodes(env, ordered);
    DrainRecords(env, Start(ordered), [], Nodes(env, ordered), 0, w);
  }

  lemma BoundIsRecorded(env: Env, ordered: seq<Root>, i: nat, role: Role)
    requires Allowed(env, ordered) && DistinctRuns(ordered) && i < |ordered| && role in ordered[i].manifest.artifacts
    requires Lists(env, ordered[i].manifest.artifacts) && StructureOf(role) != Plain
    ensures Recorded(env, Worked(env, ordered), BoundNode(ordered[i].manifest, role))
  {
    AllowedIsRecorded(env, ordered);
    var k := DirectNodeOf(env, ordered, i, role);
    var n := Nodes(env, ordered)[k];
    assert Recorded(env, Worked(env, ordered), n);
    var a := DirectNodeIsBound(env, ordered, k);
    var q :| q in ordered[a].manifest.artifacts && n == BoundNode(ordered[a].manifest, q);
    SameStructureSameRole(q, role);
  }

  /** The comparison of a run's two records finds nothing. */
  predicate RecordsAgree(env: Env, m: RunManifest) {
    TaskSpec in m.artifacts && Evaluation in m.artifacts ==>
      var t, e := Stored(env, m.artifacts[TaskSpec].sha256), Stored(env, m.artifacts[Evaluation].sha256);
      && t.Some? && e.Some? && env.readTask(t.value).Some? && env.readEvaluation(e.value).Some?
      && TaskEvaluationFindings(
           env.readTask(t.value).value,
           Judged(env.readEvaluation(e.value).value, m.artifacts[Evaluation], Owner(m.runId, Bound(Evaluation)))) == []
  }

  lemma AllowedRecordsAgree(env: Env, ordered: seq<Root>, i: nat)
    requires Allowed(env, ordered) && DistinctRuns(ordered) && i < |ordered|
    requires Lists(env, ordered[i].manifest.artifacts)
    ensures RecordsAgree(env, ordered[i].manifest)
  {
    var m := ordered[i].manifest;
    if TaskSpec in m.artifacts && Evaluation in m.artifacts {
      BoundIsRecorded(env, ordered, i, TaskSpec);
      BoundIsRecorded(env, ordered, i, Evaluation);
      AllowedComparisons(env, ordered, m.runId);
    }
  }

  /** Malformed, unreadable or disagreeing task and evaluation records forbid it: each
      was read, agrees with its manifest, and the two of a run agree with each other. */
  lemma AllowedRecordsAreUnderstood(env: Env, ordered: seq<Root>, i: nat, role: Role)
    requires Allowed(env, ordered) && i < |ordered| && role in ordered[i].manifest.artifacts
    requires Lists(env, ordered[i].manifest.artifacts)
    ensures Exact(env, ordered[i].manifest.artifacts[role])
    ensures Understood(env, BoundNode(ordered[i].manifest, role))
    ensures StructureOf(role) != Plain ==> ordered[i].manifest.artifacts[role].sizeBytes <= MAX_STRUCTURED_BYTES
    ensures DistinctRuns(ordered) ==> RecordsAgree(env, ordered[i].manifest)
  {
    var n := BoundIsSettled(env, ordered, i, role);
    if DistinctRuns(ordered) { AllowedRecordsAgree(env, ordered, i); }
  }
}
