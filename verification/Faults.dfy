/** What an audit says of a reference that is not stored as it claims: which flaw it
    reports, and whom it blames for it. */
module Faults {
  import opened Text
  import opened Usage
  import opened Events
  import opened Ledger
  import opened Keys
  import opened Roots
  import opened Audit
  import opened AuditLaws
  import opened Closure
  import opened Health
  import opened Inventory
  import A = Artifacts

  // ------------------------------------------------------------------ the flaw

  /** What stands at the three steps of a canonical path. */
  function Walk(t: Tree, digest: string): seq<Option<Kind>> {
    [Find(t.root.entries, SHA_NAME), Find(t.sha.entries, A.PrefixOf(digest)),
     Find(ShardOf(t, A.PrefixOf(digest)).entries, digest)]
  }

  /** The step is as it must be: two folders, and a plain file with one link. */
  predicate StepHolds(i: nat, k: Option<Kind>) {
    if i < 2 then k == Some(Folder) else k.Some? && k.value.Regular? && k.value.links == 1 && k.value.contents.Known?
  }

  function FlawOfStep(k: Option<Kind>, last: bool): FindingKind {
    if k == None then MissingReferenced
    else if k.value.SymbolicLink? then Symlink
    else if k.value.Unstatable? then CorruptReferenced
    else if !last || !k.value.Regular? then SpecialFile
    else if k.value.links != 1 then Hardlink
    else CorruptReferenced
  }

  /** The first step that fails, if any does. */
  predicate FailsAt(t: Tree, digest: string, i: nat) {
    i < 3 && !StepHolds(i, Walk(t, digest)[i]) && forall j :: 0 <= j < i ==> StepHolds(j, Walk(t, digest)[j])
  }

  /** The kind of finding that a reference deserves which is not exact: that of the first
      failing step of its path, and corruption if it leads to a file after all. */
  ghost predicate Deserves(env: Env, r: ArtifactRef, kind: FindingKind) {
    if r.storageRef == CanonicalPath(r.sha256) && exists i: nat :: FailsAt(env.tree, r.sha256, i) then
      exists i: nat :: FailsAt(env.tree, r.sha256, i) && kind == FlawOfStep(Walk(env.tree, r.sha256)[i], i == 2)
    else kind == CorruptReferenced
  }

  lemma LocatedWalks(t: Tree, digest: string)
    ensures Located(t, digest).Readable? ==> forall i: nat :: !FailsAt(t, digest, i)
    ensures Located(t, digest).Blocked? ==>
      exists i: nat :: FailsAt(t, digest, i) && Located(t, digest).kind == FlawOfStep(Walk(t, digest)[i], i == 2)
  {
    var w := Walk(t, digest);
    if Located(t, digest).Blocked? {
      var i: nat := if !StepHolds(0, w[0]) then 0 else if !StepHolds(1, w[1]) then 1 else 2;
      assert FailsAt(t, digest, i);
    }
  }

  /** A read that fails is out of bounds, or fails for what the reference deserves. */
  lemma FailedReadsTell(env: Env, r: ArtifactRef, capture: bool, used: nat)
    requires ReadReference(env, r, capture, used).result.ReadFailed?
    ensures var kind := ReadReference(env, r, capture, used).result.kind;
            kind == LimitExceeded || Deserves(env, r, kind)
  {
    LocatedWalks(env.tree, r.sha256);
  }

  // ----------------------------------------------------------------- the worklist

  function Unnamed(key: Key): ArtifactRef {
    ArtifactRef("", key.size, key.sha256, key.storageRef)
  }

  ghost predicate FailureTells(env: Env, key: Key, result: ReadResult) {
    result.ReadFailed? ==> result.kind == LimitExceeded || Deserves(env, Unnamed(key), result.kind)
  }

  ghost predicate CacheTells(env: Env, cache: map<Key, ReadResult>) {
    forall key :: key in cache ==> FailureTells(env, key, cache[key])
  }

  lemma FetchedTells(env: Env, st: State, n: Node)
    requires CacheTells(env, st.cache)
    ensures var f := Fetched(env, st, n).state;
            CacheTells(env, f.cache) && KeyOf(n) in f.cache && ResultFor(f, n) == f.cache[KeyOf(n)]
  {
    var reading := ReadReference(env, n.reference, n.structure != Plain, st.used);
    if reading.result.ReadFailed? {
      FailedReadsTell(env, n.reference, n.structure != Plain, st.used);
      assert Deserves(env, n.reference, reading.result.kind) <==> Deserves(env, Unnamed(KeyOf(n)), reading.result.kind);
    }
    assert FailureTells(env, KeyOf(n), reading.result);
  }

  /** The reference is as it claims, or its owner is blamed for its flaw; and a record that
      was read but not understood is blamed on its owner as corrupt. */
  ghost predicate Accounted(env: Env, n: Node, fs: seq<Finding>) {
    && (!Exact(env, n.reference) ==> exists kind :: Deserves(env, n.reference, kind) && Blame(n).(kind := kind) in fs)
    && (Exact(env, n.reference) && !Understood(env, n) ==> Blame(n) in fs)
  }

  lemma ReadIsExact(env: Env, st: State, n: Node)
    requires CacheInv(env, st) && KeyOf(n) in st.cache && ResultFor(st, n) == st.cache[KeyOf(n)] && ResultFor(st, n).ReadOk?
    ensures Exact(env, n.reference)
  {
    assert CacheEntry(env, KeyOf(n), st.cache[KeyOf(n)]);
  }

  lemma MisunderstoodTask(env: Env, l: State, n: Node, data: Bytes)
    requires n.structure == TaskRole && Stored(env, n.reference.sha256) == Some(data) && !Understood(env, n)
    ensures Blame(n) in FollowTask(env, l, n, data).state.findings
  {
    var fs := FollowTask(env, l, n, data).state.findings;
    if AllHarmless(l.findings) && AllHarmless(fs) { HarmlessTask(env, l, n, data); }
    var task := env.readTask(data);
    if n.reference.mediaType == env.taskMedia && task.Some? && env.taskBytes(task.value) == Some(data) {
      var bad := InvalidVersion(task.value.evaluatorVersion);
      assert bad ==> Blame(n) in BlameIf(bad, n);
    }
  }

  lemma MisunderstoodEvaluation(env: Env, l: State, n: Node, data: Bytes)
    requires n.structure == EvaluationRole && Stored(env, n.reference.sha256) == Some(data) && !Understood(env, n)
    ensures Blame(n) in FollowEvaluation(env, l, n, data).state.findings
  {
    var e := env.readEvaluation(data);
    if n.reference.mediaType == env.evaluationMedia && e.Some? && env.evaluationBytes(e.value) == Some(data) {
      assert Blame(n) in CrosscheckEvaluation(n.manifest, e.value, n);
    }
  }

  lemma ExactCanOnlyBeCorrupt(env: Env, r: ArtifactRef, kind: FindingKind)
    requires Exact(env, r) && Deserves(env, r, kind)
    ensures kind == CorruptReferenced
  {
    LocatedWalks(env.tree, r.sha256);
  }

  lemma VisitAccounts(env: Env, st: State, n: Node)
    requires CacheInv(env, st) && CacheTells(env, st.cache) && Completes(Visit(env, st, n).state.findings)
    ensures Accounted(env, n, Visit(env, st, n).state.findings)
  {
    LookingFacts(env, st, n);
    VisitIsConcluded(env, st, n);
    FetchedTells(env, Entered(st, n), n);
    var l := Looked(env, st, n);
    var r := ResultFor(l, n);
    if r.ReadFailed? {
      var f := Blame(n).(kind := r.kind);
      assert (l.findings + [f])[|l.findings|] == f;
      assert FailureTells(env, KeyOf(n), r);
      if Exact(env, n.reference) { ExactCanOnlyBeCorrupt(env, n.reference, r.kind); }
    } else {
      ReadIsExact(env, l, n);
      var marked := MarkVerified(l, n.reference.sha256, r.size);
      if !Understood(env, n) {
        if n.structure == TaskRole {
          MisunderstoodTask(env, marked, n, r.data.value);
        } else {
          MisunderstoodEvaluation(env, marked, n, r.data.value);
        }
      }
    }
  }

  lemma AccountedLater(env: Env, n: Node, fs: seq<Finding>, later: seq<Finding>)
    requires Accounted(env, n, fs) && fs <= later
    ensures Accounted(env, n, later)
  {
    assert forall f :: f in fs ==> f in later by {
      forall f | f in fs ensures f in later {
        var i :| 0 <= i < |fs| && fs[i] == f;
        assert later[i] == f;
      }
    }
  }

  ghost predicate AllAccounted(env: Env, nodes: seq<Node>, fs: seq<Finding>) {
    forall i {:trigger Accounted(env, nodes[i], fs)} :: 0 <= i < |nodes| ==> Accounted(env, nodes[i], fs)
  }

  lemma VisitKeepsTelling(env: Env, st: State, n: Node)
    requires CacheInv(env, st) && CacheTells(env, st.cache)
    ensures CacheTells(env, Visit(env, st, n).state.cache)
  {
    LookingFacts(env, st, n);
    VisitIsConcluded(env, st, n);
    FetchedTells(env, Entered(st, n), n);
    var l := Looked(env, st, n);
    var r := ResultFor(l, n);
    assert CacheEntry(env, KeyOf(n), r);
    ConcludedFacts(env, l, n);
  }

  lemma TurnAccounts(env: Env, st: State, n: Node, next: State, children: seq<Node>, fs: seq<Finding>)
    requires CacheInv(env, st) && CacheTells(env, st.cache) && Turned(env, st, n, next, children)
    requires next.findings <= fs && Completes(fs)
    ensures CacheTells(env, next.cache) && Accounted(env, n, fs)
  {
    assert Visit(env, st, n) == Visited(next, children);
    CompleteBefore(next.findings, fs);
    VisitAccounts(env, st, n);
    VisitKeepsTelling(env, st, n);
    AccountedLater(env, n, next.findings, fs);
  }

  lemma DrainFindsMore(env: Env, st: State, pending: seq<Node>, processed: nat, d: State)
    requires Leads(env, st, pending, processed, d)
    ensures st.findings <= d.findings
  {
    assert d == Drained(env, st, pending, processed);
    DrainFinishes(env, st, pending, processed, d);
  }

  lemma LimitsAreIncomplete(fs: seq<Finding>, f: Finding)
    requires f.kind == LimitExceeded
    ensures !Completes(fs + [f])
  {
    assert (fs + [f])[|fs|] == f;
  }

  lemma LimitIsIncomplete(env: Env, st: State, pending: seq<Node>, processed: nat, d: State)
    requires Leads(env, st, pending, processed, d) && Completes(d.findings)
    requires pending == [] || processed == MAX_REACHABLE_REFERENCES
    ensures pending == []
  {
    assert d == Drained(env, st, pending, processed);
    LimitsAreIncomplete(st.findings, REFERENCE_LIMIT);
  }

  /** A worklist that ends within its limits has accounted for every node. */
  lemma {:induction false} DrainAccounts(env: Env, st: State, pending: seq<Node>, processed: nat, d: State)
    requires Leads(env, st, pending, processed, d) && CacheTells(env, st.cache) && Completes(d.findings)
    ensures AllAccounted(env, pending, d.findings)
    decreases MAX_REACHABLE_REFERENCES - processed
  {
    if pending == [] || processed == MAX_REACHABLE_REFERENCES {
      LimitIsIncomplete(env, st, pending, processed, d);
    } else {
      var next, children, rest := DrainOne(env, st, pending, processed, d);
      DrainFindsMore(env, next, rest, processed + 1, d);
      TurnAccounts(env, st, pending[0], next, children, d.findings);
      DrainAccounts(env, next, rest, processed + 1, d);
      AccountedFirst(env, pending, children, rest, d.findings);
    }
  }

  lemma AccountedFirst(env: Env, pending: seq<Node>, children: seq<Node>, rest: seq<Node>, fs: seq<Finding>)
    requires pending != [] && rest == pending[1..] + children && Accounted(env, pending[0], fs) && AllAccounted(env, rest, fs)
    ensures AllAccounted(env, pending, fs)
  {
    forall i | 0 <= i < |pending| ensures Accounted(env, pending[i], fs) {
      if i > 0 { assert rest[i - 1] == pending[i] && Accounted(env, rest[i - 1], fs); }
    }
  }

  lemma {:induction false} DirectNodeFor(env: Env, roots: seq<Root>, i: nat, role: Role) returns (k: nat)
    requires AllLists(env, roots) && i < |roots| && role in roots[i].manifest.artifacts
    ensures k < |AllDirectNodes(env, roots)| && AllDirectNodes(env, roots)[k] == BoundNode(roots[i].manifest, role)
    decreases |roots|
  {
    var before := AllDirectNodes(env, roots[..|roots| - 1]);
    if i == |roots| - 1 {
      var m := roots[i].manifest;
      assert Lists(env, m.artifacts) && role in env.roleOrder(m.artifacts);
      var j :| 0 <= j < |env.roleOrder(m.artifacts)| && env.roleOrder(m.artifacts)[j] == role;
      k := |before| + j;
      assert AllDirectNodes(env, roots)[k] == DirectNodes(env, m)[j];
    } else {
      k := DirectNodeFor(env, roots[..|roots| - 1], i, role);
      assert AllDirectNodes(env, roots)[k] == before[k];
    }
  }

  lemma CompleteWork(env: Env, ordered: seq<Root>)
    requires Completes(FindingsOf(env, ordered))
    ensures |ordered| <= MAX_ROOTS && Worked(env, ordered).findings <= FindingsOf(env, ordered)
    ensures Completes(Worked(env, ordered).findings)
  {
    TracedFacts(env, ordered);
    SurveyFacts(env, ordered);
    CompleteBefore(Worked(env, ordered).findings, FindingsOf(env, ordered));
    CompleteBefore(Start(ordered).findings, FindingsOf(env, ordered));
    LimitsAreIncomplete([], ROOT_LIMIT);
  }

  lemma WorkAccounts(env: Env, ordered: seq<Root>, w: State, nodes: seq<Node>)
    requires w == Worked(env, ordered) && nodes == Nodes(env, ordered) && Completes(w.findings)
    ensures AllAccounted(env, nodes, w.findings)
  {
    StartHolds(env, ordered);
    DrainAccounts(env, Start(ordered), nodes, 0, w);
  }

  /** A complete report accounts for everything a manifest binds: it is stored as it
      claims and understood, or its run and role are blamed for what is wrong with it. */
  lemma BrokenReferencesAreBlamed(env: Env, snapshot: Option<string>, ordered: seq<Root>, i: nat, role: Role)
    requires AllLists(env, ordered) && ReportOf(env, snapshot, ordered).complete
    requires i < |ordered| && role in ordered[i].manifest.artifacts
    ensures Accounted(env, BoundNode(ordered[i].manifest, role), ReportOf(env, snapshot, ordered).findings)
  {
    CompleteWork(env, ordered);
    var k := DirectNodeFor(env, ordered, i, role);
    var nodes, found := AllDirectNodes(env, ordered), Worked(env, ordered).findings;
    WorkAccounts(env, ordered, Worked(env, ordered), nodes);
    assert Accounted(env, nodes[k], found);
    AccountedLater(env, nodes[k], found, FindingsOf(env, ordered));
  }
}
