/** Removing everything an audit reported as an orphan leaves a store that the same
    audit still finds complete, and still allows quarantine on. */
module Reaudit {
  import opened Usage
  import opened Events
  import opened Ledger
  import opened Keys
  import opened Roots
  import opened Audit
  import opened AuditLaws
  import A = Artifacts

  // ---------------------------------------------------------------- the removal

  predicate Reported(fs: seq<Finding>, path: Path) {
    exists i :: 0 <= i < |fs| && IsOrphanKind(fs[i].kind) && fs[i].path == path
  }

  function Remaining(fs: seq<Finding>, prefix: string, entries: seq<Entry>): seq<Entry> {
    if entries == [] then []
    else
      var e := entries[|entries| - 1];
      Remaining(fs, prefix, entries[..|entries| - 1]) + (if Reported(fs, Leaf(prefix, e.name)) then [] else [e])
  }

  function Cleaned(fs: seq<Finding>, t: Tree): Tree {
    t.(shards := map p | p in t.shards :: Listing(Remaining(fs, p, t.shards[p].entries), t.shards[p].listable))
  }

  // ------------------------------------------------------ references are untouched

  lemma {:induction false} FindAppend(entries: seq<Entry>, more: seq<Entry>, name: string)
    ensures Find(entries + more, name) == if Find(entries, name).Some? then Find(entries, name) else Find(more, name)
  {
    if entries == [] {
      assert entries + more == more;
    } else {
      FindAppend(entries[1..], more, name);
      assert (entries + more)[1..] == entries[1..] + more;
    }
  }

  lemma {:induction false} FindRemaining(fs: seq<Finding>, prefix: string, entries: seq<Entry>, name: string)
    requires !Reported(fs, Leaf(prefix, name))
    ensures Find(Remaining(fs, prefix, entries), name) == Find(entries, name)
  {
    if entries != [] {
      var before, e := entries[..|entries| - 1], entries[|entries| - 1];
      FindRemaining(fs, prefix, before, name);
      FindAppend(before, [e], name);
      assert before + [e] == entries;
      FindAppend(Remaining(fs, prefix, before), if Reported(fs, Leaf(prefix, e.name)) then [] else [e], name);
    }
  }

  lemma LocatedRemains(fs: seq<Finding>, t: Tree, digest: string)
    requires !Reported(fs, Leaf(A.PrefixOf(digest), digest))
    ensures Located(Cleaned(fs, t), digest) == Located(t, digest)
  {
    var p := A.PrefixOf(digest);
    if p in t.shards { FindRemaining(fs, p, t.shards[p].entries, digest); }
  }

  // ----------------------------------------------------- the worklist is unchanged

  lemma SameVisit(env: Env, g: Env, st: State, n: Node)
    requires g == env.(tree := g.tree) && Located(g.tree, n.reference.sha256) == Located(env.tree, n.reference.sha256)
    ensures Visit(g, st, n) == Visit(env, st, n)
  {
    var e := Entered(st, n);
    assert forall capture, used :: ReadReference(g, n.reference, capture, used) == ReadReference(env, n.reference, capture, used);
    assert Fetched(g, e, n) == Fetched(env, e, n);
  }

  ghost predicate SameLocations(env: Env, g: Env, digests: set<string>) {
    forall d :: d in digests ==> Located(g.tree, d) == Located(env.tree, d)
  }

  lemma SameEnd(env: Env, g: Env, st: State, pending: seq<Node>, processed: nat)
    requires processed <= MAX_REACHABLE_REFERENCES && (pending == [] || processed == MAX_REACHABLE_REFERENCES)
    ensures Drained(g, st, pending, processed) == Drained(env, st, pending, processed)
  {}

  /** The node about to be visited ends up among the builders. */
  lemma HeadIsBuilt(env: Env, st: State, n: Node, v: Visited, rest: seq<Node>, processed: nat, d: State)
    requires CacheInv(env, st) && processed <= MAX_REACHABLE_REFERENCES && v == Visit(env, st, n)
    requires d == Drained(env, v.state, rest, processed)
    ensures n.reference.sha256 in d.builders && CacheInv(env, v.state)
  {
    VisitFacts(env, st, n);
    DrainFinishes(env, v.state, rest, processed, d);
  }

  lemma DrainGoes(env: Env, st: State, pending: seq<Node>, processed: nat, v: Visited, rest: seq<Node>, d: State)
    requires processed < MAX_REACHABLE_REFERENCES && pending != [] && d == Drained(env, st, pending, processed)
    ensures v == Visit(env, st, pending[0]) && rest == pending[1..] + v.children ==> d == Drained(env, v.state, rest, processed + 1)
  {
    DrainStep(env, st, pending, processed);
  }

  lemma SameVisited(env: Env, g: Env, st: State, n: Node, v: Visited)
    requires g == env.(tree := g.tree) && Located(g.tree, n.reference.sha256) == Located(env.tree, n.reference.sha256)
    requires v == Visit(env, st, n)
    ensures v == Visit(g, st, n)
  {
    SameVisit(env, g, st, n);
  }

  /** Both worklists end in d. */
  ghost predicate Together(env: Env, g: Env, st: State, pending: seq<Node>, processed: nat, d: State) {
    processed <= MAX_REACHABLE_REFERENCES && d == Drained(env, st, pending, processed) == Drained(g, st, pending, processed)
  }

  /** One turn of the worklist, which the other takes with it. */
  lemma SameFirst(env: Env, g: Env, st: State, pending: seq<Node>, processed: nat, d: State)
    returns (next: State, rest: seq<Node>)
    requires g == env.(tree := g.tree) && CacheInv(env, st) && processed < MAX_REACHABLE_REFERENCES && pending != []
    requires d == Drained(env, st, pending, processed) && SameLocations(env, g, d.builders.Keys)
    ensures CacheInv(env, next) && d == Drained(env, next, rest, processed + 1)
    ensures Together(env, g, next, rest, processed + 1, d) ==> Together(env, g, st, pending, processed, d)
  {
    var v := Visit(env, st, pending[0]);
    next, rest := v.state, pending[1..] + v.children;
    DrainGoes(env, st, pending, processed, v, rest, d);
    HeadIsBuilt(env, st, pending[0], v, rest, processed + 1, d);
    SameVisited(env, g, st, pending[0], v);
    DrainGoes(g, st, pending, processed, v, rest, Drained(g, st, pending, processed));
  }

  lemma {:induction false} SameDrain(env: Env, g: Env, st: State, pending: seq<Node>, processed: nat, d: State)
    requires g == env.(tree := g.tree) && CacheInv(env, st) && processed <= MAX_REACHABLE_REFERENCES
    requires d == Drained(env, st, pending, processed) && SameLocations(env, g, d.builders.Keys)
    ensures Together(env, g, st, pending, processed, d)
    decreases MAX_REACHABLE_REFERENCES - processed
  {
    if pending == [] || processed == MAX_REACHABLE_REFERENCES {
      SameEnd(env, g, st, pending, processed);
    } else {
      var next, rest := SameFirst(env, g, st, pending, processed, d);
      SameDrain(env, g, next, rest, processed + 1, d);
    }
  }

  // ------------------------------------------------------------ counting entries

  predicate AllDecodable(entries: seq<Entry>) {
    forall i :: 0 <= i < |entries| ==> entries[i].decodable
  }

  /** A directory scan that finds nothing wrong has counted and kept every entry. */
  lemma {:induction false} HarmlessListing(entries: seq<Entry>, path: Path, s: Scan)
    requires AllHarmless(Listed(entries, path, s).scan.findings) && s.counter <= MAX_INVENTORY_ENTRIES
    ensures Listed(entries, path, s) == Scanned(s.(counter := s.counter + |entries|), Some(entries))
    ensures AllDecodable(entries) && s.counter + |entries| <= MAX_INVENTORY_ENTRIES
  {
    if entries != [] {
      var before, e := entries[..|entries| - 1], entries[|entries| - 1];
      var b := Listed(before, path, s);
      assert before + [e] == entries;
      HarmlessPrefix(b.scan.findings, Listed(entries, path, s).scan.findings);
      HarmlessListing(before, path, s);
      LastIsHarmful(b.scan.findings, Finding(LimitExceeded, path, {}));
      LastIsHarmful(b.scan.findings, Finding(ScanError, path, {}));
    }
  }

  lemma {:induction false} PlainListing(entries: seq<Entry>, path: Path, s: Scan)
    requires AllDecodable(entries) && s.counter + |entries| <= MAX_INVENTORY_ENTRIES
    ensures Listed(entries, path, s) == Scanned(s.(counter := s.counter + |entries|), Some(entries))
  {
    if entries != [] {
      var before, e := entries[..|entries| - 1], entries[|entries| - 1];
      assert before + [e] == entries;
      PlainListing(before, path, s);
    }
  }

  lemma {:induction false} RemainingFacts(fs: seq<Finding>, prefix: string, entries: seq<Entry>)
    ensures |Remaining(fs, prefix, entries)| <= |entries|
    ensures AllDecodable(entries) ==> AllDecodable(Remaining(fs, prefix, entries))
  {
    if entries != [] { RemainingFacts(fs, prefix, entries[..|entries| - 1]); }
  }

  // ---------------------------------------------------- scanning the cleaned store

  /** The second scan is no further along, finds nothing wrong, and misses nothing
      the first observed. */
  predicate Shadows(a: Scan, b: Scan) {
    b.counter <= a.counter <= MAX_INVENTORY_ENTRIES && AllHarmless(b.findings) && a.observed <= b.observed
  }

  lemma HarmlessNote(s: Scan, kind: FindingKind, path: Path, owners: set<Owner>)
    ensures AllHarmless(Noted(s, kind, path, owners).findings) <==>
            AllHarmless(s.findings) && Harmless(Finding(kind, path, owners))
  {
    HarmlessSuffixes(s.findings, Finding(kind, path, owners));
  }

  lemma HarmlessSuffixes(fs: seq<Finding>, f: Finding)
    ensures AllHarmless(fs + [f]) <==> AllHarmless(fs) && Harmless(f)
  {
    if AllHarmless(fs + [f]) {
      HarmlessSuffix(fs, [f]);
      assert Harmless([f][0]);
    }
  }

  function KeptEntry(env: Env, builders: map<string, Builder>, prefix: string, e: Entry, b: Scan, fs: seq<Finding>): Scan {
    if Reported(fs, Leaf(prefix, e.name)) then b else ShardEntry(env, builders, prefix, e, b)
  }

  lemma ReportedIsUnowned(builders: map<string, Builder>, fs: seq<Finding>, prefix: string, name: string)
    ensures OrphansUnowned(builders, fs) && Reported(fs, Leaf(prefix, name)) ==> name !in builders || TEMP_PREFIX <= name
  {}

  /** An entry that stays is classified as before; one that goes was not observed. */
  lemma EntryShadows(env: Env, builders: map<string, Builder>, prefix: string, e: Entry, a: Scan, b: Scan, fs: seq<Finding>)
    requires Shadows(a, b) && AllHarmless(ShardEntry(env, builders, prefix, e, a).findings)
    requires ShardEntry(env, builders, prefix, e, a).findings <= fs && OrphansUnowned(builders, fs)
    ensures Shadows(ShardEntry(env, builders, prefix, e, a), KeptEntry(env, builders, prefix, e, b, fs))
  {
    var x := ShardEntry(env, builders, prefix, e, a);
    if x.findings != a.findings {
      var last := x.findings[|x.findings| - 1];
      assert fs[|x.findings| - 1] == last && Harmless(last);
      if !Reported(fs, Leaf(prefix, e.name)) {
        assert !IsOrphanKind(last.kind);
        HarmlessSuffixes(b.findings, last);
      }
    }
    ReportedIsUnowned(builders, fs, prefix, e.name);
  }

  lemma {:induction false} EntriesShadow(
      env: Env, builders: map<string, Builder>, prefix: string, entries: seq<Entry>, a: Scan, b: Scan, fs: seq<Finding>)
    requires Shadows(a, b) && AllHarmless(ShardEntries(env, builders, prefix, entries, a).findings)
    requires ShardEntries(env, builders, prefix, entries, a).findings <= fs && OrphansUnowned(builders, fs)
    ensures Shadows(ShardEntries(env, builders, prefix, entries, a),
                    ShardEntries(env, builders, prefix, Remaining(fs, prefix, entries), b))
  {
    if entries != [] {
      var before, e := entries[..|entries| - 1], entries[|entries| - 1];
      var x := ShardEntries(env, builders, prefix, before, a);
      ShardEntryFacts(env, builders, prefix, e, x);
      HarmlessPrefix(x.findings, ShardEntries(env, builders, prefix, entries, a).findings);
      EntriesShadow(env, builders, prefix, before, a, b, fs);
      var kept := Remaining(fs, prefix, before);
      EntryShadows(env, builders, prefix, e, x, ShardEntries(env, builders, prefix, kept, b), fs);
      assert (kept + [e])[..|kept|] == kept;
      assert Remaining(fs, prefix, entries) == kept + (if Reported(fs, Leaf(prefix, e.name)) then [] else [e]);
      assert kept + [] == kept;
    }
  }

  lemma NotedShadows(a: Scan, b: Scan, kind: FindingKind, path: Path, owners: set<Owner>)
    requires Shadows(a, b) && AllHarmless(Noted(a, kind, path, owners).findings)
    ensures Shadows(Noted(a, kind, path, owners), Noted(b, kind, path, owners))
  {
    HarmlessNote(a, kind, path, owners);
    HarmlessNote(b, kind, path, owners);
  }

  lemma {:induction false} SameEntries(env: Env, g: Env, builders: map<string, Builder>, prefix: string, entries: seq<Entry>, s: Scan)
    requires g == env.(tree := g.tree)
    ensures ShardEntries(g, builders, prefix, entries, s) == ShardEntries(env, builders, prefix, entries, s)
  {
    if entries != [] { SameEntries(env, g, builders, prefix, entries[..|entries| - 1], s); }
  }

  /** The audit's world, before and after the removal of what it reported. */
  ghost predicate CleanedEnv(env: Env, g: Env, builders: map<string, Builder>, fs: seq<Finding>) {
    g == env.(tree := Cleaned(fs, env.tree)) && OrphansUnowned(builders, fs)
  }

  lemma DirectoryShadows(l: Listing, path: Path, a: Scan, b: Scan)
    requires Shadows(a, b) && AllHarmless(ScanDirectory(l, path, a).scan.findings)
    ensures l.listable && AllDecodable(l.entries) && a.counter + |l.entries| <= MAX_INVENTORY_ENTRIES
    ensures ScanDirectory(l, path, a) == Scanned(a.(counter := a.counter + |l.entries|), Some(l.entries))
    ensures ScanDirectory(l, path, b) == Scanned(b.(counter := b.counter + |l.entries|), Some(l.entries))
  {
    HarmlessNote(a, ScanError, path, {});
    if l.listable {
      HarmlessListing(l.entries, path, a);
      PlainListing(l.entries, path, b);
    }
  }

  lemma ShardShadows(env: Env, g: Env, builders: map<string, Builder>, prefix: string, a: Scan, b: Scan, fs: seq<Finding>)
    requires Shadows(a, b) && CleanedEnv(env, g, builders, fs)
    requires AllHarmless(Shard(env, builders, prefix, a).findings) && Shard(env, builders, prefix, a).findings <= fs
    ensures Shadows(Shard(env, builders, prefix, a), Shard(g, builders, prefix, b))
  {
    var l := ShardOf(env.tree, prefix);
    var listed := ScanDirectory(l, ShaEntry(prefix), a);
    if listed.entries.Some? { ShardEntriesFacts(env, builders, prefix, listed.entries.value, listed.scan); }
    HarmlessPrefix(listed.scan.findings, Shard(env, builders, prefix, a).findings);
    DirectoryShadows(l, ShaEntry(prefix), a, b);
    var kept := Remaining(fs, prefix, l.entries);
    RemainingFacts(fs, prefix, l.entries);
    PlainListing(kept, ShaEntry(prefix), b);
    assert ShardOf(g.tree, prefix) == Listing(kept, true);
    var a', b' := a.(counter := a.counter + |l.entries|), b.(counter := b.counter + |kept|);
    EntriesShadow(env, builders, prefix, l.entries, a', b', fs);
    SameEntries(env, g, builders, prefix, kept, b');
  }

  lemma PrefixEntryShadows(env: Env, g: Env, builders: map<string, Builder>, e: Entry, a: Scan, b: Scan, fs: seq<Finding>)
    requires Shadows(a, b) && CleanedEnv(env, g, builders, fs)
    requires AllHarmless(PrefixEntry(env, builders, e, a).findings) && PrefixEntry(env, builders, e, a).findings <= fs
    ensures Shadows(PrefixEntry(env, builders, e, a), PrefixEntry(g, builders, e, b))
  {
    var path := ShaEntry(e.name);
    if e.kind.Unstatable? {
      NotedShadows(a, b, ScanError, path, {});
    } else if e.kind.SymbolicLink? {
      NotedShadows(a, b, Symlink, path, OwnersUnder(builders, e.name));
    } else if !PrefixName(e.name) || !e.kind.Folder? {
      NotedShadows(a, b, Misplaced(e.kind), path, {});
    } else {
      ShardShadows(env, g, builders, e.name, a, b, fs);
    }
  }

  lemma {:induction false} PrefixEntriesShadow(
      env: Env, g: Env, builders: map<string, Builder>, entries: seq<Entry>, a: Scan, b: Scan, fs: seq<Finding>)
    requires Shadows(a, b) && CleanedEnv(env, g, builders, fs)
    requires AllHarmless(PrefixEntries(env, builders, entries, a).findings)
    requires PrefixEntries(env, builders, entries, a).findings <= fs
    ensures Shadows(PrefixEntries(env, builders, entries, a), PrefixEntries(g, builders, entries, b))
  {
    if entries != [] {
      var before, e := entries[..|entries| - 1], entries[|entries| - 1];
      var x := PrefixEntries(env, builders, before, a);
      PrefixEntryFacts(env, builders, e, x);
      HarmlessPrefix(x.findings, PrefixEntries(env, builders, entries, a).findings);
      PrefixEntriesShadow(env, g, builders, before, a, b, fs);
      PrefixEntryShadows(env, g, builders, e, x, PrefixEntries(g, builders, before, b), fs);
    }
  }

  lemma ShaShadows(env: Env, g: Env, builders: map<string, Builder>, e: Entry, a: Scan, b: Scan, fs: seq<Finding>)
    requires Shadows(a, b) && CleanedEnv(env, g, builders, fs) && e.name == SHA_NAME && e.kind.Folder?
    requires AllHarmless(TopLevelEntry(env, builders, e, a).findings) && TopLevelEntry(env, builders, e, a).findings <= fs
    ensures Shadows(TopLevelEntry(env, builders, e, a), TopLevelEntry(g, builders, e, b))
  {
    var l, path := env.tree.sha, TopEntry(e.name);
    var listed := ScanDirectory(l, path, a);
    if listed.entries.Some? { PrefixEntriesFacts(env, builders, listed.entries.value, listed.scan); }
    HarmlessPrefix(listed.scan.findings, TopLevelEntry(env, builders, e, a).findings);
    DirectoryShadows(l, path, a, b);
    PrefixEntriesShadow(env, g, builders, l.entries, a.(counter := a.counter + |l.entries|), b.(counter := b.counter + |l.entries|), fs);
  }

  lemma TopLevelEntryShadows(env: Env, g: Env, builders: map<string, Builder>, e: Entry, a: Scan, b: Scan, fs: seq<Finding>)
    requires Shadows(a, b) && CleanedEnv(env, g, builders, fs)
    requires AllHarmless(TopLevelEntry(env, builders, e, a).findings) && TopLevelEntry(env, builders, e, a).findings <= fs
    ensures Shadows(TopLevelEntry(env, builders, e, a), TopLevelEntry(g, builders, e, b))
  {
    var path := TopEntry(e.name);
    if e.kind.Unstatable? {
      NotedShadows(a, b, ScanError, path, {});
    } else if e.name != SHA_NAME {
      NotedShadows(a, b, if e.kind.SymbolicLink? then Symlink else Misplaced(e.kind), path, {});
    } else if e.kind.SymbolicLink? {
      NotedShadows(a, b, Symlink, path, OwnersUnder(builders, ""));
    } else if !e.kind.Folder? {
      NotedShadows(a, b, NoncanonicalEntry, path, {});
    } else {
      ShaShadows(env, g, builders, e, a, b, fs);
    }
  }

  lemma {:induction false} TopLevelEntriesShadow(
      env: Env, g: Env, builders: map<string, Builder>, entries: seq<Entry>, a: Scan, b: Scan, fs: seq<Finding>)
    requires Shadows(a, b) && CleanedEnv(env, g, builders, fs)
    requires AllHarmless(TopLevelEntries(env, builders, entries, a).findings)
    requires TopLevelEntries(env, builders, entries, a).findings <= fs
    ensures Shadows(TopLevelEntries(env, builders, entries, a), TopLevelEntries(g, builders, entries, b))
  {
    if entries != [] {
      var before, e := entries[..|entries| - 1], entries[|entries| - 1];
      var x := TopLevelEntries(env, builders, before, a);
      TopLevelEntryFacts(env, builders, e, x);
      HarmlessPrefix(x.findings, TopLevelEntries(env, builders, entries, a).findings);
      TopLevelEntriesShadow(env, g, builders, before, a, b, fs);
      TopLevelEntryShadows(env, g, builders, e, x, TopLevelEntries(g, builders, before, b), fs);
    }
  }

  lemma InventoryShadows(env: Env, g: Env, builders: map<string, Builder>, a: Scan, b: Scan, fs: seq<Finding>)
    requires Shadows(a, b) && CleanedEnv(env, g, builders, fs)
    requires AllHarmless(Inventoried(env, builders, a).findings) && Inventoried(env, builders, a).findings <= fs
    ensures Shadows(Inventoried(env, builders, a), Inventoried(g, builders, b))
  {
    var l := env.tree.root;
    var listed := ScanDirectory(l, Top, a);
    if listed.entries.Some? { TopLevelEntriesFacts(env, builders, listed.entries.value, listed.scan); }
    HarmlessPrefix(listed.scan.findings, Inventoried(env, builders, a).findings);
    DirectoryShadows(l, Top, a, b);
    TopLevelEntriesShadow(env, g, builders, l.entries, a.(counter := a.counter + |l.entries|), b.(counter := b.counter + |l.entries|), fs);
  }

  // -------------------------------------------------------------------- theorem

  lemma {:induction false} ObservedIsUnblamed(builders: map<string, Builder>, observed: set<string>, digests: seq<string>)
    requires forall d :: d in digests && d in builders ==> d in observed
    ensures Unobserved(builders, observed, digests) == []
  {
    if digests != [] {
      assert digests == digests[..|digests| - 1] + [digests[|digests| - 1]];
      ObservedIsUnblamed(builders, observed, digests[..|digests| - 1]);
    }
  }

  lemma ReportedOrphansAreUnowned(env: Env, ordered: seq<Root>)
    ensures OrphansUnowned(Worked(env, ordered).builders, FindingsOf(env, ordered))
  {
    var w, scan := Worked(env, ordered), Surveyed(env, ordered);
    TracedFacts(env, ordered);
    SurveyFacts(env, ordered);
    UnobservedHasNoOrphans(w.builders, scan.observed, SortedKeys(w.builders.Keys));
    var fs := FindingsOf(env, ordered);
    assert fs == scan.findings + Unobserved(w.builders, scan.observed, SortedKeys(w.builders.Keys));
    forall i | 0 <= i < |fs| && IsOrphanKind(fs[i].kind)
      ensures fs[i].path.Leaf? && (TEMP_PREFIX <= fs[i].path.name || fs[i].path.name !in w.builders)
    {
      assert i < |scan.findings| && fs[i] == scan.findings[i];
    }
  }

  lemma ReferencedNamesAreNotReported(env: Env, ordered: seq<Root>, d: string)
    requires Allowed(env, ordered) && d in Worked(env, ordered).builders
    ensures !Reported(FindingsOf(env, ordered), Leaf(A.PrefixOf(d), d))
  {
    AllowedGraph(env, ordered);
    TracedFacts(env, ordered);
    SurveyFacts(env, ordered);
    ReportedOrphansAreUnowned(env, ordered);
  }

  /** Following the references of the cleaned store goes exactly as before. */
  lemma SameTrace(env: Env, g: Env, ordered: seq<Root>)
    requires Allowed(env, ordered) && g == env.(tree := Cleaned(FindingsOf(env, ordered), env.tree))
    ensures Traced(g, ordered) == Traced(env, ordered)
  {
    var w := Worked(env, ordered);
    forall d | d in w.builders.Keys ensures Located(g.tree, d) == Located(env.tree, d) {
      ReferencedNamesAreNotReported(env, ordered, d);
      LocatedRemains(FindingsOf(env, ordered), env.tree, d);
    }
    StartHolds(env, ordered);
    SameNodes(env, g, Followed(ordered));
    SameDrain(env, g, Start(ordered), Nodes(env, ordered), 0, w);
  }

  lemma {:induction false} SameNodes(env: Env, g: Env, roots: seq<Root>)
    requires g == env.(tree := g.tree)
    ensures AllDirectNodes(g, roots) == AllDirectNodes(env, roots)
  {
    if roots != [] {
      SameNodes(env, g, roots[..|roots| - 1]);
      assert DirectNodes(g, roots[|roots| - 1].manifest) == DirectNodes(env, roots[|roots| - 1].manifest);
    }
  }

  lemma SurveyShadows(env: Env, g: Env, ordered: seq<Root>)
    requires Allowed(env, ordered) && g == env.(tree := Cleaned(FindingsOf(env, ordered), env.tree))
    ensures Shadows(Surveyed(env, ordered), Surveyed(g, ordered))
  {
    var fs, st := FindingsOf(env, ordered), Traced(env, ordered);
    SameTrace(env, g, ordered);
    AllowedIsHarmless(env, ordered);
    SurveyFacts(env, ordered);
    TracedFacts(env, ordered);
    ReportedOrphansAreUnowned(env, ordered);
    HarmlessPrefix(st.findings, fs);
    HarmlessPrefix(Surveyed(env, ordered).findings, fs);
    var start := Scan(st.findings, 0, st.used, {});
    InventoryShadows(env, g, st.builders, start, start, fs);
  }

  /** The audit of the cleaned store is complete and allows quarantine again. */
  lemma CleaningIsSafe(env: Env, g: Env, ordered: seq<Root>)
    requires Allowed(env, ordered) && g == env.(tree := Cleaned(FindingsOf(env, ordered), env.tree))
    ensures Allowed(g, ordered) && ReportOf(g, None, ordered).complete
    ensures ReportOf(g, None, ordered).builders == ReportOf(env, None, ordered).builders
  {
    var builders, scan := Traced(env, ordered).builders, Surveyed(g, ordered);
    SameTrace(env, g, ordered);
    SurveyShadows(env, g, ordered);
    AllowedGraph(env, ordered);
    TracedFacts(env, ordered);
    ObservedIsUnblamed(builders, scan.observed, SortedKeys(builders.Keys));
    assert FindingsOf(g, ordered) == scan.findings + [];
    AllowedIsHarmless(env, ordered);
    AllowedIsHarmless(g, ordered);
  }
}
