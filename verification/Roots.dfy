/** The ledger snapshot: one root per run, and the digest that commits to them. */
module Roots {
  import opened Usage
  import opened Events
  import opened Replay
  import opened ReplayLaws
  import opened Ledger
  import opened Keys

  // --------------------------------------------------------------------- roots

  datatype Root = Root(manifest: RunManifest, revision: nat, manifestSha256: string, eventCount: nat, head: string)

  datatype RootIdentity = RootIdentity(
    eventCount: nat, head: string, revision: nat, manifestSha256: string, runId: string)

  /** The content hashes the store is configured with. */
  datatype Hashes = Hashes(event: ContentHash, manifest: RunManifest -> string, roots: seq<RootIdentity> -> string)

  ghost predicate InjectiveHashes(h: Hashes) {
    && InjectiveHash(h.event)
    && (forall a, b :: h.manifest(a) == h.manifest(b) ==> a == b)
    && (forall a, b :: h.roots(a) == h.roots(b) ==> a == b)
  }

  function RootOf(h: Hashes, v: RunRows): Root
    requires v.events != []
  {
    Root(v.row.manifest, v.row.revision, h.manifest(v.row.manifest), |v.events|, h.event(v.events[|v.events| - 1]))
  }

  ghost function RootsAt(h: Hashes, t: Tables, keys: seq<string>): seq<Root>
    requires forall k :: k in keys ==> k in t && t[k].events != []
  {
    seq(|keys|, i requires 0 <= i < |keys| => RootOf(h, t[keys[i]]))
  }

  lemma RootsAtExtension(h: Hashes, t: Tables, keys: seq<string>, k: string)
    requires forall q :: q in keys + [k] ==> q in t && t[q].events != []
    requires forall q :: q in keys ==> q in t && t[q].events != []
    requires k in t && t[k].events != []
    ensures RootsAt(h, t, keys + [k]) == RootsAt(h, t, keys) + [RootOf(h, t[k])]
  {}

  predicate NoEmptyStream(t: Tables) {
    forall k :: k in t ==> t[k].events != []
  }

  ghost function RootsOf(h: Hashes, t: Tables): seq<Root>
    requires NoEmptyStream(t)
  {
    SortedKeysFacts(t.Keys);
    RootsAt(h, t, SortedKeys(t.Keys))
  }

  function IdentityOf(r: Root): RootIdentity {
    RootIdentity(r.eventCount, r.head, r.revision, r.manifestSha256, r.manifest.runId)
  }

  function Identities(roots: seq<Root>): seq<RootIdentity> {
    seq(|roots|, i requires 0 <= i < |roots| => IdentityOf(roots[i]))
  }

  // ------------------------------------------------------------------- sorting

  predicate Precedes(a: Root, b: Root) {
    Before(a.manifest.runId, b.manifest.runId)
  }

  predicate Ascending(s: seq<Root>) {
    forall i, j :: 0 <= i < j < |s| ==> !Precedes(s[j], s[i])
  }

  predicate StrictlyAscending(s: seq<Root>) {
    forall i, j :: 0 <= i < j < |s| ==> Precedes(s[i], s[j])
  }

  function InsertRoot(r: Root, s: seq<Root>): seq<Root> {
    if s == [] || !Precedes(s[0], r) then [r] + s else [s[0]] + InsertRoot(r, s[1..])
  }

  /** A stable sort by run ID. */
  function SortRoots(s: seq<Root>): seq<Root> {
    if s == [] then [] else InsertRoot(s[0], SortRoots(s[1..]))
  }

  lemma {:induction false} InsertRootFacts(r: Root, s: seq<Root>)
    requires Ascending(s)
    ensures Ascending(InsertRoot(r, s)) && multiset(InsertRoot(r, s)) == multiset([r]) + multiset(s)
  {
    if s == [] || !Precedes(s[0], r) {
      var all := [r] + s;
      forall i, j | 0 <= i < j < |all| ensures !Precedes(all[j], all[i]) {
        if i == 0 && Precedes(all[j], r) {
          if j > 1 {
            assert !Precedes(s[j - 1], s[0]);
            BeforeIsAnOrder(s[j - 1].manifest.runId, s[0].manifest.runId);
            if Precedes(s[0], s[j - 1]) { BeforeIsTransitive(s[0].manifest.runId, s[j - 1].manifest.runId, r.manifest.runId); }
          }
        }
      }
    } else {
      var rest := InsertRoot(r, s[1..]);
      InsertRootFacts(r, s[1..]);
      assert s == [s[0]] + s[1..];
      var all := [s[0]] + rest;
      forall i, j | 0 <= i < j < |all| ensures !Precedes(all[j], all[i]) {
        if i == 0 {
          assert all[j] in multiset(rest);
          BeforeIsAnOrder(s[0].manifest.runId, r.manifest.runId);
        }
      }
    }
  }

  lemma {:induction false} SortRootsFacts(s: seq<Root>)
    ensures Ascending(SortRoots(s)) && multiset(SortRoots(s)) == multiset(s)
  {
    if s != [] {
      SortRootsFacts(s[1..]);
      InsertRootFacts(s[0], SortRoots(s[1..]));
      assert s == [s[0]] + s[1..];
    }
  }

  /** No two roots name the same run. */
  predicate DistinctRuns(s: seq<Root>) {
    forall i, j :: 0 <= i < j < |s| ==> s[i].manifest.runId != s[j].manifest.runId
  }

  function RunsNamed(s: seq<Root>): set<string> {
    set r | r in s :: r.manifest.runId
  }

  lemma FirstRun(s: seq<Root>)
    requires s != []
    ensures RunsNamed(s) == {s[0].manifest.runId} + RunsNamed(s[1..])
    ensures DistinctRuns(s) <==> DistinctRuns(s[1..]) && s[0].manifest.runId !in RunsNamed(s[1..])
  {
    var rest := s[1..];
    assert s == [s[0]] + rest;
    if DistinctRuns(s) {
      forall i, j | 0 <= i < j < |rest| ensures rest[i].manifest.runId != rest[j].manifest.runId {
        assert s[i + 1] == rest[i] && s[j + 1] == rest[j];
      }
      forall i | 0 <= i < |rest| ensures rest[i].manifest.runId != s[0].manifest.runId {
        assert s[i + 1] == rest[i];
      }
    }
    if DistinctRuns(rest) && s[0].manifest.runId !in RunsNamed(rest) {
      forall i, j | 0 <= i < j < |s| ensures s[i].manifest.runId != s[j].manifest.runId {
        assert s[j] == rest[j - 1] && rest[j - 1] in rest;
      }
    }
  }

  lemma {:induction false} DistinctRunsByCount(s: seq<Root>)
    ensures |RunsNamed(s)| <= |s| && (DistinctRuns(s) <==> |RunsNamed(s)| == |s|)
  {
    if s == [] {
      assert RunsNamed(s) == {};
    } else {
      FirstRun(s);
      DistinctRunsByCount(s[1..]);
      if s[0].manifest.runId in RunsNamed(s[1..]) {
        assert RunsNamed(s) == RunsNamed(s[1..]);
      }
    }
  }

  lemma DistinctRunsIgnoresOrder(a: seq<Root>, b: seq<Root>)
    requires multiset(a) == multiset(b)
    ensures DistinctRuns(a) <==> DistinctRuns(b)
  {
    DistinctRunsByCount(a);
    DistinctRunsByCount(b);
    assert |a| == |multiset(a)| == |multiset(b)| == |b|;
    assert forall r :: r in a <==> r in multiset(a);
    assert forall r :: r in b <==> r in multiset(b);
    assert RunsNamed(a) == RunsNamed(b);
  }

  lemma SortedDistinctRunsAscend(s: seq<Root>)
    requires Ascending(s) && DistinctRuns(s)
    ensures StrictlyAscending(s)
  {
    forall i, j | 0 <= i < j < |s| ensures Precedes(s[i], s[j]) {
      BeforeIsAnOrder(s[i].manifest.runId, s[j].manifest.runId);
    }
  }

  lemma FirstOfAscending(a: seq<Root>, b: seq<Root>)
    requires StrictlyAscending(a) && StrictlyAscending(b) && multiset(a) == multiset(b) && a != []
    ensures b != [] && a[0] == b[0]
  {
    assert a[0] in multiset(b);
    var i :| 0 <= i < |b| && b[i] == a[0];
    assert b[0] in multiset(a);
    var j :| 0 <= j < |a| && a[j] == b[0];
    BeforeIsAnOrder(a[0].manifest.runId, b[0].manifest.runId);
  }

  lemma {:induction false} AscendingIsUnique(a: seq<Root>, b: seq<Root>)
    requires StrictlyAscending(a) && StrictlyAscending(b) && multiset(a) == multiset(b)
    ensures a == b
  {
    if a == [] {
      assert |b| == |multiset(b)| == 0;
    } else {
      FirstOfAscending(a, b);
      assert a == [a[0]] + a[1..] && b == [b[0]] + b[1..];
      assert multiset(a[1..]) == multiset(a) - multiset{a[0]};
      assert multiset(b[1..]) == multiset(b) - multiset{b[0]};
      AscendingIsUnique(a[1..], b[1..]);
    }
  }

  // -------------------------------------------------------------------- digest

  function RootsDigest(h: Hashes, roots: seq<Root>): Option<string> {
    if DistinctRuns(roots) then Some(h.roots(Identities(SortRoots(roots)))) else None
  }

  method VerifiedRunRootsSha256(h: Hashes, roots: seq<Root>) returns (digest: Option<string>)
    ensures digest == RootsDigest(h, roots)
  {
    var ordered := SortRoots(roots);
    SortRootsFacts(roots);
    DistinctRunsIgnoresOrder(roots, ordered);
    var identities: seq<RootIdentity> := [];
    var previous: Option<string> := None;
    var i := 0;
    while i < |ordered|
      invariant 0 <= i <= |ordered|
      invariant identities == Identities(ordered[..i])
      invariant previous == if i == 0 then None else Some(ordered[i - 1].manifest.runId)
      invariant DistinctRuns(ordered[..i])
    {
      var runId := ordered[i].manifest.runId;
      if Some(runId) == previous {
        assert ordered[i - 1].manifest.runId == ordered[i].manifest.runId;
        return None;
      }
      OneMoreRun(ordered, i);
      previous := Some(runId);
      identities := identities + [IdentityOf(ordered[i])];
      i := i + 1;
    }
    assert ordered[..i] == ordered;
    return Some(h.roots(identities));
  }

  lemma OneMoreRun(s: seq<Root>, i: nat)
    requires Ascending(s) && i < |s| && DistinctRuns(s[..i])
    requires i > 0 ==> s[i - 1].manifest.runId != s[i].manifest.runId
    ensures DistinctRuns(s[..i + 1])
  {
    var before, all := s[..i], s[..i + 1];
    forall a, b | 0 <= a < b < |all| ensures all[a].manifest.runId != all[b].manifest.runId {
      if b == i {
        AdjacentRunsDiffer(s, a, i);
      } else {
        assert before[a] == all[a] && before[b] == all[b];
      }
    }
  }

  lemma AdjacentRunsDiffer(s: seq<Root>, j: nat, i: nat)
    requires Ascending(s) && 0 <= j < i < |s| && s[i - 1].manifest.runId != s[i].manifest.runId
    ensures s[j].manifest.runId != s[i].manifest.runId
  {
    BeforeIsAnOrder(s[i - 1].manifest.runId, s[i].manifest.runId);
  }

  /** The digest commits to the set of roots, not to the order they come in. */
  lemma DigestIgnoresOrder(h: Hashes, a: seq<Root>, b: seq<Root>)
    requires multiset(a) == multiset(b)
    ensures RootsDigest(h, a) == RootsDigest(h, b)
  {
    DistinctRunsIgnoresOrder(a, b);
    SortRootsFacts(a);
    SortRootsFacts(b);
    if DistinctRuns(a) {
      DistinctRunsIgnoresOrder(a, SortRoots(a));
      DistinctRunsIgnoresOrder(b, SortRoots(b));
      SortedDistinctRunsAscend(SortRoots(a));
      SortedDistinctRunsAscend(SortRoots(b));
      AscendingIsUnique(SortRoots(a), SortRoots(b));
    }
  }

  lemma LedgerRootsAscend(h: Hashes, t: Tables)
    requires LedgerVerifies(h.event, t)
    ensures NoEmptyStream(t)
    ensures StrictlyAscending(RootsOf(h, t)) && DistinctRuns(RootsOf(h, t))
    ensures SortRoots(RootsOf(h, t)) == RootsOf(h, t)
  {
    var roots := RootsOf(h, t);
    SortedKeysFacts(t.Keys);
    forall i | 0 <= i < |roots| ensures roots[i].manifest.runId == SortedKeys(t.Keys)[i] {
      assert SortedKeys(t.Keys)[i] in t;
    }
    forall i, j | 0 <= i < j < |roots| ensures roots[i].manifest.runId != roots[j].manifest.runId {
      BeforeIsAnOrder(roots[i].manifest.runId, roots[j].manifest.runId);
    }
    SortRootsFacts(roots);
    DistinctRunsIgnoresOrder(roots, SortRoots(roots));
    SortedDistinctRunsAscend(SortRoots(roots));
    AscendingIsUnique(SortRoots(roots), roots);
  }

  /** Everything about a run but its superseded manifest revisions. */
  predicate SameRun(v: RunRows, w: RunRows) {
    v.row == w.row && v.events == w.events && v.budget == w.budget
  }

  predicate SameRuns(t: Tables, u: Tables) {
    t.Keys == u.Keys && forall run :: run in t ==> SameRun(t[run], u[run])
  }

  lemma SameRootSameRun(h: Hashes, v: RunRows, w: RunRows)
    requires InjectiveHashes(h) && RunVerifies(h.event, v) && RunVerifies(h.event, w)
    requires IdentityOf(RootOf(h, v)) == IdentityOf(RootOf(h, w))
    ensures SameRun(v, w)
  {
    HeadDeterminesStream(h.event, v.events, w.events);
  }

  lemma RootOfRun(h: Hashes, t: Tables, run: string) returns (i: nat)
    requires LedgerVerifies(h.event, t) && run in t && NoEmptyStream(t)
    ensures i < |RootsOf(h, t)| && RootsOf(h, t)[i] == RootOf(h, t[run])
  {
    SortedKeysFacts(t.Keys);
    i :| 0 <= i < |SortedKeys(t.Keys)| && SortedKeys(t.Keys)[i] == run;
  }

  lemma RootsNameRuns(h: Hashes, t: Tables, i: nat)
    requires LedgerVerifies(h.event, t) && NoEmptyStream(t) && i < |RootsOf(h, t)|
    ensures var run := RootsOf(h, t)[i].manifest.runId;
            run in t && RootsOf(h, t)[i] == RootOf(h, t[run])
  {
    SortedKeysFacts(t.Keys);
    assert SortedKeys(t.Keys)[i] in t;
  }

  lemma SharedRun(h: Hashes, t: Tables, u: Tables, run: string)
    requires InjectiveHashes(h) && LedgerVerifies(h.event, t) && LedgerVerifies(h.event, u)
    requires NoEmptyStream(t) && NoEmptyStream(u)
    requires Identities(RootsOf(h, t)) == Identities(RootsOf(h, u)) && run in t
    ensures run in u && SameRun(t[run], u[run])
  {
    var i := RootOfRun(h, t, run);
    assert Identities(RootsOf(h, t))[i] == Identities(RootsOf(h, u))[i];
    RootsNameRuns(h, u, i);
    SameRootSameRun(h, t[run], u[run]);
  }

  lemma SharedRuns(h: Hashes, t: Tables, u: Tables)
    requires InjectiveHashes(h) && LedgerVerifies(h.event, t) && LedgerVerifies(h.event, u)
    requires NoEmptyStream(t) && NoEmptyStream(u)
    requires Identities(RootsOf(h, t)) == Identities(RootsOf(h, u))
    ensures SameRuns(t, u)
  {
    forall run | run in t ensures run in u && SameRun(t[run], u[run]) {
      SharedRun(h, t, u, run);
    }
    forall run | run in u ensures run in t {
      SharedRun(h, u, t, run);
    }
    assert t.Keys == u.Keys;
  }

  /** With injective hashes, ledgers with the same snapshot digest hold the same
      runs with the same manifests, event streams and budgets. */
  lemma DigestFixesTheLedger(h: Hashes, t: Tables, u: Tables)
    requires InjectiveHashes(h) && LedgerVerifies(h.event, t) && LedgerVerifies(h.event, u)
    requires NoEmptyStream(t) && NoEmptyStream(u)
    requires RootsDigest(h, RootsOf(h, t)) == RootsDigest(h, RootsOf(h, u))
    ensures SameRuns(t, u)
  {
    LedgerRootsAscend(h, t);
    LedgerRootsAscend(h, u);
    SharedRuns(h, t, u);
  }
}
