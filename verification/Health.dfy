/** Exactly which stores an audit allows quarantine on, and exactly which files it
    reports as orphans. */
module Health {
  import opened Text
  import opened Usage
  import opened Events
  import opened Ledger
  import opened Keys
  import opened Roots
  import opened Audit
  import opened AuditLaws
  import opened Reaudit
  import opened Closure
  import opened Inventory
  import A = Artifacts

  // ------------------------------------------------------------- a healthy store

  function Digests(ms: seq<Mention>): set<string> {
    set i | 0 <= i < |ms| :: ms[i].reference.sha256
  }

  ghost predicate AllLists(env: Env, roots: seq<Root>) {
    forall i :: 0 <= i < |roots| ==> Lists(env, roots[i].manifest.artifacts)
  }

  /** The content hash names files as files are named. */
  ghost predicate HashNames(env: Env) {
    forall bytes :: IsSha256(env.hash(bytes))
  }

  /** The evaluation of a run is of its task, by the evaluator the task asks for. */
  predicate RecordsMatch(env: Env, m: RunManifest) {
    TaskSpec in m.artifacts && Evaluation in m.artifacts ==>
      var t, e := Stored(env, m.artifacts[TaskSpec].sha256), Stored(env, m.artifacts[Evaluation].sha256);
      && t.Some? && e.Some? && env.readTask(t.value).Some? && env.readEvaluation(e.value).Some?
      && var task, evaluation := env.readTask(t.value).value, env.readEvaluation(e.value).value;
         && evaluation.taskHash == task.contentHash
         && (NonBlank(task.evaluatorVersion) ==> evaluation.evaluatorVersion == task.evaluatorVersion.text)
  }

  ghost predicate RecordsFit(env: Env, m: RunManifest) {
    && RecordsMatch(env, m)
    && forall role :: role in m.artifacts ==> Understood(env, BoundNode(m, role)) && Bounded(BoundNode(m, role))
  }

  /** Everything the runs refer to is stored exactly, their records are in order, the
      tree holds nothing that stops a scan, and the limits are kept. */
  ghost predicate Healthy(env: Env, ordered: seq<Root>) {
    var mentions := Mentions(env, ordered);
    && (forall r :: Refers(env, ordered, r) ==> Exact(env, r))
    && (forall i :: 0 <= i < |ordered| ==> RecordsFit(env, ordered[i].manifest))
    && TreeFits(env.tree, Digests(mentions))
    && |ordered| <= MAX_ROOTS && |mentions| <= MAX_REACHABLE_REFERENCES
    && EntryCount(env.tree) <= MAX_INVENTORY_ENTRIES
    && Hashed(mentions) + StrayBytes(env.tree, Digests(mentions)) <= MAX_TOTAL_HASHED_BYTES
  }

  // --------------------------------------------------- nodes against references

  lemma {:induction false} DirectNodeBinds(env: Env, roots: seq<Root>, k: nat) returns (i: nat, role: Role)
    requires AllLists(env, roots) && k < |AllDirectNodes(env, roots)|
    ensures i < |roots| && role in roots[i].manifest.artifacts
    ensures AllDirectNodes(env, roots)[k] == BoundNode(roots[i].manifest, role)
    decreases |roots|
  {
    var before := AllDirectNodes(env, roots[..|roots| - 1]);
    if k < |before| {
      i, role := DirectNodeBinds(env, roots[..|roots| - 1], k);
    } else {
      i := |roots| - 1;
      var m := roots[i].manifest;
      role := env.roleOrder(m.artifacts)[k - |before|];
      assert role in env.roleOrder(m.artifacts);
      assert AllDirectNodes(env, roots)[k] == DirectNodes(env, m)[k - |before|];
    }
  }

  lemma {:induction false} ChildOfSome(env: Env, nodes: seq<Node>, k: nat) returns (i: nat, j: nat)
    requires k < |Children(env, nodes)|
    ensures i < |nodes| && j < |ChildNodes(env, nodes[i])| && Children(env, nodes)[k] == ChildNodes(env, nodes[i])[j]
  {
    var before := Children(env, nodes[..|nodes| - 1]);
    if k < |before| {
      i, j := ChildOfSome(env, nodes[..|nodes| - 1], k);
    } else {
      i, j := |nodes| - 1, k - |before|;
    }
  }

  lemma ChildIsReference(env: Env, n: Node, j: nat)
    requires j < |ChildNodes(env, n)|
    ensures ChildNodes(env, n)[j].structure == Plain
    ensures ChildNodes(env, n)[j].reference in StructuredReferences(env, n.structure, n.reference.sha256)
  {
    var refs := StructuredReferences(env, n.structure, n.reference.sha256);
    ChildrenArePlain(env, n);
    assert |refs| == |ChildNodes(env, n)| && ChildNodes(env, n)[j].reference == refs[j];
  }

  /** The node is for something that is referred to, and its record is a manifest's. */
  ghost predicate ForReference(env: Env, roots: seq<Root>, n: Node) {
    && Refers(env, roots, n.reference)
    && (n.structure != Plain ==>
          exists i, role :: 0 <= i < |roots| && role in roots[i].manifest.artifacts && n == BoundNode(roots[i].manifest, role))
  }

  lemma BoundIsForReference(env: Env, roots: seq<Root>, i: nat, role: Role)
    requires i < |roots| && role in roots[i].manifest.artifacts
    ensures ForReference(env, roots, BoundNode(roots[i].manifest, role))
  {
    assert ReferredBy(env, roots[i].manifest, role, BoundNode(roots[i].manifest, role).reference);
  }

  lemma ChildIsForReference(env: Env, roots: seq<Root>, i: nat, role: Role, j: nat)
    requires i < |roots| && role in roots[i].manifest.artifacts
    requires j < |ChildNodes(env, BoundNode(roots[i].manifest, role))|
    ensures ForReference(env, roots, ChildNodes(env, BoundNode(roots[i].manifest, role))[j])
  {
    var n := BoundNode(roots[i].manifest, role);
    ChildIsReference(env, n, j);
    assert ReferredBy(env, roots[i].manifest, role, ChildNodes(env, n)[j].reference);
  }

  lemma QueuedIsForReference(env: Env, roots: seq<Root>, nodes: seq<Node>, kids: seq<Node>, k: nat)
    requires AllLists(env, roots) && nodes == AllDirectNodes(env, roots) && kids == Children(env, nodes) && k < |kids|
    ensures ForReference(env, roots, kids[k])
  {
    var p, j := ChildOfSome(env, nodes, k);
    var i, role := DirectNodeBinds(env, roots, p);
    ChildIsForReference(env, roots, i, role, j);
  }

  lemma DirectIsForReference(env: Env, roots: seq<Root>, nodes: seq<Node>, k: nat)
    requires AllLists(env, roots) && nodes == AllDirectNodes(env, roots) && k < |nodes|
    ensures ForReference(env, roots, nodes[k])
  {
    var i, role := DirectNodeBinds(env, roots, k);
    BoundIsForReference(env, roots, i, role);
  }

  lemma ExpandedPart(env: Env, nodes: seq<Node>, kids: seq<Node>, k: nat)
    requires kids == Children(env, nodes) && k < |nodes| + |kids|
    ensures k < |Expanded(env, nodes)|
    ensures Expanded(env, nodes)[k] == if k < |nodes| then nodes[k] else kids[k - |nodes|]
  {}

  lemma ExpandedRefers(env: Env, roots: seq<Root>, nodes: seq<Node>, k: nat)
    requires AllLists(env, roots) && nodes == AllDirectNodes(env, roots) && k < |Expanded(env, nodes)|
    ensures ForReference(env, roots, Expanded(env, nodes)[k])
  {
    var kids := Children(env, nodes);
    ExpandedPart(env, nodes, kids, k);
    if k < |nodes| {
      DirectIsForReference(env, roots, nodes, k);
    } else {
      QueuedIsForReference(env, roots, nodes, kids, k - |nodes|);
    }
  }

  lemma HealthyNodesFit(env: Env, ordered: seq<Root>)
    requires AllLists(env, ordered) && Healthy(env, ordered)
    ensures AllFit(env, Expanded(env, AllDirectNodes(env, ordered)))
  {
    var nodes := AllDirectNodes(env, ordered);
    var all := Expanded(env, nodes);
    forall k | 0 <= k < |all| ensures Fits(env, all[k]) {
      ExpandedRefers(env, ordered, nodes, k);
      if all[k].structure != Plain {
        var i, role :| 0 <= i < |ordered| && role in ordered[i].manifest.artifacts && all[k] == BoundNode(ordered[i].manifest, role);
        assert RecordsFit(env, ordered[i].manifest);
      }
    }
  }

  lemma DigestsAreNamed(ms: seq<Mention>)
    ensures forall d :: d in Digests(ms) <==> Named(ms, d)
  {}

  // -------------------------------------------------------------- the references

  lemma StartIsClean(env: Env, ordered: seq<Root>)
    ensures Clean(env, Start(ordered), []) && CacheInv(env, Start(ordered))
  {}

  lemma TracedIsOwned(env: Env, ordered: seq<Root>)
    ensures Owned(Worked(env, ordered).builders) && Traced(env, ordered).builders == Worked(env, ordered).builders
    ensures Traced(env, ordered).used == Worked(env, ordered).used
    ensures NoOrphanKinds(Traced(env, ordered).findings)
  {
    TracedFacts(env, ordered);
    StartHolds(env, ordered);
    DrainFinishes(env, Start(ordered), Nodes(env, ordered), 0, Worked(env, ordered));
  }

  /** The worklist of a store that is allowed, or healthy, finds nothing and reads
      every mention. */
  lemma WorkedWell(env: Env, ordered: seq<Root>)
    requires AllLists(env, ordered) && |ordered| <= MAX_ROOTS
    requires AllHarmless(Worked(env, ordered).findings) || Healthy(env, ordered)
    ensures Worked(env, ordered).findings == [] && Clean(env, Worked(env, ordered), Mentions(env, ordered))
    ensures |Mentions(env, ordered)| <= MAX_REACHABLE_REFERENCES
    ensures Worked(env, ordered).builders.Keys == Digests(Mentions(env, ordered))
  {
    var w, nodes := Worked(env, ordered), AllDirectNodes(env, ordered);
    var ahead := Expanded(env, nodes);
    QueuedIsMentioned(env, ordered);
    assert [] + Mapped(ahead) == Mentions(env, ordered);
    if Healthy(env, ordered) { HealthyNodesFit(env, ordered); }
    StartIsClean(env, ordered);
    assert Promising(env, Start(ordered), [], nodes, w);
    DrainEndsWell(env, Start(ordered), [], nodes, w);
    DigestsAreNamed(Mentions(env, ordered));
  }

  lemma RecordsMatchWhenTheyAgree(env: Env, m: RunManifest)
    ensures RecordsAgree(env, m) <==> RecordsMatch(env, m)
  {}

  lemma RecordNodeIsBound(env: Env, ordered: seq<Root>, run: string, role: Role) returns (i: nat)
    requires StructureOf(role) != Plain && HasRecordNode(AllDirectNodes(env, ordered), run, StructureOf(role))
    ensures i < |ordered| && ordered[i].manifest.runId == run && role in ordered[i].manifest.artifacts
    ensures BoundNode(ordered[i].manifest, role) in AllDirectNodes(env, ordered)
  {
    var nodes := AllDirectNodes(env, ordered);
    var k :| 0 <= k < |nodes| && nodes[k].structure == StructureOf(role) && nodes[k].owner.runId == run;
    i := DirectNodeIsBound(env, ordered, k);
    var m := ordered[i].manifest;
    var q :| q in m.artifacts && nodes[k] == BoundNode(m, q);
    SameStructureSameRole(q, role);
  }

  lemma NodeIsRecorded(env: Env, st: State, nodes: seq<Node>, n: Node)
    requires AllRecorded(env, st, nodes) && n in nodes
    ensures Recorded(env, st, n)
  {
    var k :| 0 <= k < |nodes| && nodes[k] == n;
    assert Recorded(env, st, nodes[k]);
  }

  lemma ComparisonIsQuiet(env: Env, ordered: seq<Root>, w: State, run: string)
    requires DistinctRuns(ordered) && RecordsFrom(w, AllDirectNodes(env, ordered))
    requires AllRecorded(env, w, AllDirectNodes(env, ordered)) && run in w.tasks && run in w.evaluations
    requires forall i :: 0 <= i < |ordered| ==> RecordsFit(env, ordered[i].manifest)
    ensures TaskEvaluationFindings(w.tasks[run], w.evaluations[run]) == []
  {
    var nodes := AllDirectNodes(env, ordered);
    var i := RecordNodeIsBound(env, ordered, run, TaskSpec);
    var j := RecordNodeIsBound(env, ordered, run, Evaluation);
    assert i == j;
    var m := ordered[i].manifest;
    assert RecordsFit(env, m);
    RecordsMatchWhenTheyAgree(env, m);
    NodeIsRecorded(env, w, nodes, BoundNode(m, TaskSpec));
    NodeIsRecorded(env, w, nodes, BoundNode(m, Evaluation));
  }

  lemma {:induction false} QuietComparisons(st: State, runs: seq<string>)
    requires forall run :: run in st.tasks && run in st.evaluations ==> TaskEvaluationFindings(st.tasks[run], st.evaluations[run]) == []
    ensures CrosscheckedRuns(st, runs) == []
  {
    if runs != [] { QuietComparisons(st, runs[..|runs| - 1]); }
  }

  lemma HealthyIsRecorded(env: Env, ordered: seq<Root>)
    requires AllLists(env, ordered) && DistinctRuns(ordered) && Healthy(env, ordered)
    ensures AllRecorded(env, Worked(env, ordered), AllDirectNodes(env, ordered))
    ensures RecordsFrom(Worked(env, ordered), AllDirectNodes(env, ordered))
  {
    var w, nodes := Worked(env, ordered), AllDirectNodes(env, ordered);
    WorkedWell(env, ordered);
    StartHolds(env, ordered);
    DirectNodesAreCompatible(env, ordered);
    assert [] + nodes == nodes;
    DrainRecords(env, Start(ordered), [], nodes, 0, w);
    var every: string -> bool := d => true;
    assert Confined(env, Start(ordered), nodes, every, nodes);
    DrainIsConfined(env, Start(ordered), nodes, 0, w, every, nodes);
  }

  lemma HealthyTrace(env: Env, ordered: seq<Root>)
    requires AllLists(env, ordered) && DistinctRuns(ordered) && Healthy(env, ordered)
    ensures Traced(env, ordered) == Worked(env, ordered)
  {
    var w := Worked(env, ordered);
    HealthyIsRecorded(env, ordered);
    forall run | run in w.tasks && run in w.evaluations ensures TaskEvaluationFindings(w.tasks[run], w.evaluations[run]) == [] {
      ComparisonIsQuiet(env, ordered, w, run);
    }
    QuietComparisons(w, SortedKeys(w.tasks.Keys * w.evaluations.Keys));
    assert w.findings + [] == w.findings;
  }

  // ------------------------------------------------------------------ the scan

  lemma {:induction false} FoundIsThere(entries: seq<Entry>, name: string) returns (e: Entry)
    requires Find(entries, name).Some?
    ensures e in entries && e.name == name && e.kind == Find(entries, name).value
  {
    if entries[0].decodable && entries[0].name == name {
      e := entries[0];
    } else {
      e := FoundIsThere(entries[1..], name);
      assert e in entries[1..];
    }
  }

  lemma PrefixOfSha(d: string)
    requires IsSha256(d)
    ensures PrefixName(A.PrefixOf(d)) && A.PrefixOf(d) <= d && !(TEMP_PREFIX <= d)
  {
    assert TEMP_PREFIX[0] == '.' && !IsHex('.');
  }

  /** An exact reference is a file that stands at its canonical name. */
  lemma ExactStands(env: Env, r: ArtifactRef) returns (e: Entry)
    requires HashNames(env) && Exact(env, r)
    ensures Stands(env.tree, A.PrefixOf(r.sha256), e) && e.name == r.sha256 && e.kind.Regular? && e.kind.links == 1
    ensures CanonicalName(A.PrefixOf(r.sha256), r.sha256) && !(TEMP_PREFIX <= r.sha256)
  {
    var d := r.sha256;
    assert IsSha256(env.hash(Stored(env, d).value));
    PrefixOfSha(d);
    var top := FoundIsThere(env.tree.root.entries, SHA_NAME);
    assert IsSha(top);
    var folder := FoundIsThere(env.tree.sha.entries, A.PrefixOf(d));
    assert IsShard(folder);
    e := FoundIsThere(ShardOf(env.tree, A.PrefixOf(d)).entries, d);
  }

  lemma ExactIsObserved(env: Env, builders: map<string, Builder>, s: Scan, r: ArtifactRef)
    requires HashNames(env) && Exact(env, r) && r.sha256 in builders && Completes(Inventoried(env, builders, s).findings)
    ensures r.sha256 in Inventoried(env, builders, s).observed
  {
    var e := ExactStands(env, r);
    var a := FileIsScanned(env, builders, A.PrefixOf(r.sha256), e, s);
    assert r.sha256 in ShardEntry(env, builders, A.PrefixOf(r.sha256), e, a).observed;
  }

  /** The scan finds nothing wrong exactly when the tree fits and is within limits. */
  lemma SurveyReckons(env: Env, ordered: seq<Root>)
    requires AllHarmless(Traced(env, ordered).findings) && Traced(env, ordered).used <= MAX_TOTAL_HASHED_BYTES
    ensures var st := Traced(env, ordered);
            AllHarmless(Surveyed(env, ordered).findings) <==>
              && TreeFits(env.tree, st.builders.Keys) && EntryCount(env.tree) <= MAX_INVENTORY_ENTRIES
              && st.used + StrayBytes(env.tree, st.builders.Keys) <= MAX_TOTAL_HASHED_BYTES
  {
    var st := Traced(env, ordered);
    TracedIsOwned(env, ordered);
    InventoryReckons(env, st.builders, Scan(st.findings, 0, st.used, {}));
  }

  // ------------------------------------------------------------------ theorem

  lemma AllowedIsHealthy(env: Env, ordered: seq<Root>)
    requires AllLists(env, ordered) && DistinctRuns(ordered) && Allowed(env, ordered)
    ensures Healthy(env, ordered)
  {
    var w, st := Worked(env, ordered), Traced(env, ordered);
    AllowedIsHarmless(env, ordered);
    AllowedGraph(env, ordered);
    TracedIsOwned(env, ordered);
    TracedFacts(env, ordered);
    SurveyFacts(env, ordered);
    HarmlessPrefix(w.findings, FindingsOf(env, ordered));
    HarmlessPrefix(st.findings, FindingsOf(env, ordered));
    HarmlessPrefix(Surveyed(env, ordered).findings, FindingsOf(env, ordered));
    WorkedWell(env, ordered);
    SurveyReckons(env, ordered);
    forall r | Refers(env, ordered, r) ensures Exact(env, r) { ReferredIsTraceable(env, ordered, r); }
    forall i | 0 <= i < |ordered| ensures RecordsFit(env, ordered[i].manifest) { AllowedRecordsFit(env, ordered, i); }
  }

  lemma AllowedRecordsFit(env: Env, ordered: seq<Root>, i: nat)
    requires AllLists(env, ordered) && DistinctRuns(ordered) && Allowed(env, ordered) && i < |ordered|
    ensures RecordsFit(env, ordered[i].manifest)
  {
    var m := ordered[i].manifest;
    AllowedRecordsAgree(env, ordered, i);
    RecordsMatchWhenTheyAgree(env, m);
    forall role | role in m.artifacts ensures Understood(env, BoundNode(m, role)) && Bounded(BoundNode(m, role)) {
      AllowedRecordsAreUnderstood(env, ordered, i, role);
    }
  }

  lemma HealthyIsAllowed(env: Env, ordered: seq<Root>)
    requires AllLists(env, ordered) && DistinctRuns(ordered) && HashNames(env) && Healthy(env, ordered)
    ensures Allowed(env, ordered)
  {
    var w, scan := Worked(env, ordered), Surveyed(env, ordered);
    WorkedWell(env, ordered);
    HealthyTrace(env, ordered);
    SurveyReckons(env, ordered);
    HarmlessIsComplete(scan.findings);
    forall d | d in w.builders ensures d in scan.observed { BuilderIsObserved(env, ordered, d); }
    ObservedIsUnblamed(w.builders, scan.observed, SortedKeys(w.builders.Keys));
    assert FindingsOf(env, ordered) == scan.findings + [];
    AllowedIsHarmless(env, ordered);
  }

  lemma BuilderIsObserved(env: Env, ordered: seq<Root>, d: string)
    requires AllLists(env, ordered) && HashNames(env) && Healthy(env, ordered) && Completes(Surveyed(env, ordered).findings)
    requires Traced(env, ordered) == Worked(env, ordered) && d in Worked(env, ordered).builders
    ensures d in Surveyed(env, ordered).observed
  {
    var w, mentions, nodes := Worked(env, ordered), Mentions(env, ordered), AllDirectNodes(env, ordered);
    WorkedWell(env, ordered);
    QueuedIsMentioned(env, ordered);
    var k :| 0 <= k < |mentions| && mentions[k].reference.sha256 == d;
    assert mentions[k] == MentionOf(Expanded(env, nodes)[k]);
    ExpandedRefers(env, ordered, nodes, k);
    ExactIsObserved(env, w.builders, Scan(w.findings, 0, w.used, {}), mentions[k].reference);
  }

  /** Quarantine is allowed on exactly the healthy stores. */
  lemma AllowedExactlyWhenHealthy(env: Env, snapshot: Option<string>, ordered: seq<Root>)
    requires AllLists(env, ordered) && DistinctRuns(ordered) && HashNames(env)
    ensures ReportOf(env, snapshot, ordered).quarantineAllowed <==> Healthy(env, ordered)
    ensures Healthy(env, ordered) ==> ReportOf(env, snapshot, ordered).complete
  {
    if Allowed(env, ordered) { AllowedIsHealthy(env, ordered); }
    if Healthy(env, ordered) { HealthyIsAllowed(env, ordered); }
  }

  // ------------------------------------------------------------------- orphans

  /** No reference of the runs has this name. */
  ghost predicate Unreferenced(env: Env, ordered: seq<Root>, name: string) {
    forall r :: Refers(env, ordered, r) ==> r.sha256 != name
  }

  lemma FollowedRefers(env: Env, ordered: seq<Root>, r: ArtifactRef)
    requires Refers(env, Followed(ordered), r)
    ensures Refers(env, ordered, r)
  {
    var i, role :| 0 <= i < |Followed(ordered)| && ReferredBy(env, Followed(ordered)[i].manifest, role, r);
    assert Followed(ordered)[i] == ordered[i];
    assert ReferredBy(env, ordered[i].manifest, role, r);
  }

  lemma UnreferencedIsNotBuilt(env: Env, ordered: seq<Root>, name: string)
    requires AllLists(env, ordered) && Unreferenced(env, ordered, name)
    ensures name !in Traced(env, ordered).builders
  {
    var w, nodes := Worked(env, ordered), Nodes(env, ordered);
    var others: string -> bool := d => d != name;
    var all := Expanded(env, nodes);
    forall k | 0 <= k < |all| ensures others(all[k].reference.sha256) {
      ExpandedRefers(env, Followed(ordered), nodes, k);
      FollowedRefers(env, ordered, all[k].reference);
    }
    StartHolds(env, ordered);
    assert Confined(env, Start(ordered), nodes, others, nodes);
    DrainIsConfined(env, Start(ordered), nodes, 0, w, others, nodes);
    TracedIsOwned(env, ordered);
  }

  lemma SurveyIsComplete(env: Env, ordered: seq<Root>, snapshot: Option<string>)
    requires ReportOf(env, snapshot, ordered).complete
    ensures Completes(Surveyed(env, ordered).findings) && Surveyed(env, ordered).findings <= FindingsOf(env, ordered)
  {
    SurveyFacts(env, ordered);
    CompleteBefore(Surveyed(env, ordered).findings, FindingsOf(env, ordered));
  }

  /** A complete report has a finding for every plain file of a shard that no
      reference names: an orphan, valid exactly when the file holds what it is named
      for, or a temporary. */
  lemma StrayFilesAreReported(env: Env, snapshot: Option<string>, ordered: seq<Root>, prefix: string, e: Entry)
    requires AllLists(env, ordered) && ReportOf(env, snapshot, ordered).complete && Unreferenced(env, ordered, e.name)
    requires Stands(env.tree, prefix, e) && e.kind.Regular? && e.kind.links == 1
    ensures var findings := ReportOf(env, snapshot, ordered).findings;
            && (TEMP_PREFIX <= e.name ==> Finding(TempOrphan, Leaf(prefix, e.name), {}) in findings)
            && (!(TEMP_PREFIX <= e.name) && IsSha256(e.name) && prefix <= e.name ==>
                  && e.kind.contents.Known?
                  && var held := env.hash(e.kind.contents.bytes) == e.name;
                     Finding(if held then ValidFinalizedOrphan else CorruptFinalizedOrphan, Leaf(prefix, e.name), {}) in findings)
  {
    var st, r := Traced(env, ordered), Surveyed(env, ordered);
    UnreferencedIsNotBuilt(env, ordered, e.name);
    SurveyIsComplete(env, ordered, snapshot);
    var a := FileIsScanned(env, st.builders, prefix, e, Scan(st.findings, 0, st.used, {}));
    FileIsNoted(env, st.builders, prefix, e, a, FindingsOf(env, ordered));
  }

  lemma FileIsNoted(env: Env, builders: map<string, Builder>, prefix: string, e: Entry, a: Scan, fs: seq<Finding>)
    requires ShardEntry(env, builders, prefix, e, a).findings <= fs && Completes(fs)
    requires e.name !in builders && e.kind.Regular? && e.kind.links == 1
    ensures TEMP_PREFIX <= e.name ==> Finding(TempOrphan, Leaf(prefix, e.name), {}) in fs
    ensures !(TEMP_PREFIX <= e.name) && IsSha256(e.name) && prefix <= e.name ==>
              && e.kind.contents.Known?
              && var held := env.hash(e.kind.contents.bytes) == e.name;
                 Finding(if held then ValidFinalizedOrphan else CorruptFinalizedOrphan, Leaf(prefix, e.name), {}) in fs
  {
    var x := ShardEntry(env, builders, prefix, e, a);
    CompleteBefore(x.findings, fs);
    if |x.findings| > 0 { assert fs[|x.findings| - 1] == x.findings[|x.findings| - 1]; }
  }

  lemma NoOrphansIsExplained(env: Env, named: set<string>, fs: seq<Finding>)
    requires NoOrphanKinds(fs)
    ensures AllExplained(env, named, fs)
  {}

  lemma ExplainedJoin(env: Env, named: set<string>, a: seq<Finding>, b: seq<Finding>)
    requires AllExplained(env, named, a) && AllExplained(env, named, b)
    ensures AllExplained(env, named, a + b)
  {
    var all := a + b;
    forall i | 0 <= i < |all| ensures Explained(env, named, all[i]) {
      if i < |a| { assert Explained(env, named, a[i]); } else { assert Explained(env, named, b[i - |a|]); }
    }
  }

  /** Whatever a report calls an orphan is a plain file of that shard of which the
      kind says the truth. */
  lemma ReportedOrphansAreFiles(env: Env, snapshot: Option<string>, ordered: seq<Root>, f: Finding) returns (e: Entry)
    requires f in ReportOf(env, snapshot, ordered).findings && IsOrphanKind(f.kind)
    ensures f.path.Leaf? && e in ShardOf(env.tree, f.path.prefix).entries && e.name == f.path.name
    ensures e.kind.Regular? && e.kind.links == 1 && (f.kind == TempOrphan ==> TEMP_PREFIX <= e.name)
    ensures f.kind != TempOrphan ==> IsSha256(e.name) && f.path.prefix <= e.name && e.kind.contents.Known?
    ensures f.kind == ValidFinalizedOrphan ==> env.hash(e.kind.contents.bytes) == e.name
    ensures f.kind == CorruptFinalizedOrphan ==> env.hash(e.kind.contents.bytes) != e.name
  {
    var st, scan := Traced(env, ordered), Surveyed(env, ordered);
    var named, lost := st.builders.Keys, Unobserved(st.builders, scan.observed, SortedKeys(st.builders.Keys));
    TracedIsOwned(env, ordered);
    NoOrphansIsExplained(env, named, st.findings);
    InventoryReckons(env, st.builders, Scan(st.findings, 0, st.used, {}));
    UnobservedHasNoOrphans(st.builders, scan.observed, SortedKeys(st.builders.Keys));
    NoOrphansIsExplained(env, named, lost);
    ExplainedJoin(env, named, scan.findings, lost);
    var fs := FindingsOf(env, ordered);
    assert fs == scan.findings + lost;
    var i :| 0 <= i < |fs| && fs[i] == f;
    assert Explained(env, named, fs[i]);
    e :| e in ShardOf(env.tree, f.path.prefix).entries && e.name == f.path.name && Explains(env, named, f.path.prefix, e, f.kind);
  }
}
