/** What following the references of the runs comes to when nothing is wrong with
    them: every mention is visited once, in order, and each artifact is hashed when it
    is first mentioned, and once more if its contents are first wanted later. */
module Closure {
  import opened Text
  import opened Usage
  import opened Events
  import opened Ledger
  import opened Keys
  import opened Roots
  import opened Audit
  import opened AuditLaws
  import A = Artifacts

  // ------------------------------------------------------------------ mentions

  /** One place where an artifact is referred to; a structured one is read for what
      it refers to in turn. */
  datatype Mention = Mention(reference: ArtifactRef, structured: bool)

  function Plainly(refs: seq<ArtifactRef>): seq<Mention> {
    seq(|refs|, i requires 0 <= i < |refs| => Mention(refs[i], false))
  }

  /** What a manifest binds, in the order of these roles. */
  function Bindings(m: RunManifest, roles: seq<Role>): seq<Mention> {
    if roles == [] then []
    else
      var role := roles[|roles| - 1];
      Bindings(m, roles[..|roles| - 1])
      + (if role in m.artifacts then [Mention(m.artifacts[role], role == TaskSpec || role == Evaluation)] else [])
  }

  /** What the records it binds refer to. */
  function Insides(env: Env, m: RunManifest, roles: seq<Role>): seq<Mention> {
    if roles == [] then []
    else
      var role := roles[|roles| - 1];
      Insides(env, m, roles[..|roles| - 1])
      + (if role in m.artifacts then
           Plainly(StructuredReferences(env, StructureOf(role), m.artifacts[role].sha256))
         else [])
  }

  function AllBindings(env: Env, roots: seq<Root>): seq<Mention> {
    if roots == [] then []
    else
      var m := roots[|roots| - 1].manifest;
      AllBindings(env, roots[..|roots| - 1]) + Bindings(m, env.roleOrder(m.artifacts))
  }

  function AllInsides(env: Env, roots: seq<Root>): seq<Mention> {
    if roots == [] then []
    else
      var m := roots[|roots| - 1].manifest;
      AllInsides(env, roots[..|roots| - 1]) + Insides(env, m, env.roleOrder(m.artifacts))
  }

  /** Every mention these runs make, directly or in a record. */
  function Mentions(env: Env, roots: seq<Root>): seq<Mention> {
    AllBindings(env, roots) + AllInsides(env, roots)
  }

  predicate Named(ms: seq<Mention>, digest: string) {
    exists i :: 0 <= i < |ms| && ms[i].reference.sha256 == digest
  }

  predicate Opened(ms: seq<Mention>, digest: string) {
    exists i :: 0 <= i < |ms| && ms[i].reference.sha256 == digest && ms[i].structured
  }

  /** Earlier mentions have not read all that this one needs. */
  predicate Fresh(earlier: seq<Mention>, m: Mention) {
    !Named(earlier, m.reference.sha256) || (m.structured && !Opened(earlier, m.reference.sha256))
  }

  function Hashed(ms: seq<Mention>): nat {
    if ms == [] then 0
    else
      var before, m := ms[..|ms| - 1], ms[|ms| - 1];
      Hashed(before) + (if Fresh(before, m) then m.reference.sizeBytes else 0)
  }

  lemma HashedOneMore(ms: seq<Mention>, m: Mention)
    ensures Hashed(ms + [m]) == Hashed(ms) + (if Fresh(ms, m) then m.reference.sizeBytes else 0)
  {
    assert (ms + [m])[..|ms|] == ms;
  }

  lemma {:induction false} HashedGrows(ms: seq<Mention>, more: seq<Mention>)
    ensures Hashed(ms) <= Hashed(ms + more)
  {
    if more == [] {
      assert ms + more == ms;
    } else {
      HashedGrows(ms, more[..|more| - 1]);
      assert (ms + more)[..|ms + more| - 1] == ms + more[..|more| - 1];
    }
  }

  lemma NamedOneMore(ms: seq<Mention>, m: Mention, digest: string)
    ensures Named(ms + [m], digest) <==> Named(ms, digest) || m.reference.sha256 == digest
    ensures Opened(ms + [m], digest) <==> Opened(ms, digest) || (m.reference.sha256 == digest && m.structured)
  {
    var all := ms + [m];
    assert all[|ms|] == m;
    if Named(ms, digest) {
      var i :| 0 <= i < |ms| && ms[i].reference.sha256 == digest;
      assert all[i] == ms[i];
    }
    if Opened(ms, digest) {
      var i :| 0 <= i < |ms| && ms[i].reference.sha256 == digest && ms[i].structured;
      assert all[i] == ms[i];
    }
  }

  // --------------------------------------------- the mentions are what is queued

  function MentionOf(n: Node): Mention {
    Mention(n.reference, n.structure != Plain)
  }

  function Mapped(nodes: seq<Node>): seq<Mention> {
    seq(|nodes|, i requires 0 <= i < |nodes| => MentionOf(nodes[i]))
  }

  function Children(env: Env, nodes: seq<Node>): seq<Node> {
    if nodes == [] then [] else Children(env, nodes[..|nodes| - 1]) + ChildNodes(env, nodes[|nodes| - 1])
  }

  /** These nodes, and all that they will queue. */
  function Expanded(env: Env, nodes: seq<Node>): seq<Node> {
    nodes + Children(env, nodes)
  }

  lemma Regrouped<T>(a: seq<T>, b: seq<T>, c: seq<T>)
    ensures a + b + c == a + (b + c)
  {}

  lemma ChildrenOneMore(env: Env, nodes: seq<Node>, n: Node, own: seq<Node>)
    requires own == ChildNodes(env, n)
    ensures Children(env, nodes + [n]) == Children(env, nodes) + own
  {
    assert (nodes + [n])[..|nodes|] == nodes;
  }

  lemma {:induction false} ChildrenJoin(env: Env, a: seq<Node>, b: seq<Node>)
    ensures Children(env, a + b) == Children(env, a) + Children(env, b)
  {
    if b == [] {
      assert a + b == a;
    } else {
      ChildrenJoin(env, a, b[..|b| - 1]);
      JoinedStep(env, a, b[..|b| - 1], b[|b| - 1]);
      assert b[..|b| - 1] + [b[|b| - 1]] == b;
    }
  }

  lemma JoinedStep(env: Env, a: seq<Node>, b: seq<Node>, n: Node)
    requires Children(env, a + b) == Children(env, a) + Children(env, b)
    ensures Children(env, a + (b + [n])) == Children(env, a) + Children(env, b + [n])
  {
    var own := ChildNodes(env, n);
    ChildrenOneMore(env, a + b, n, own);
    ChildrenOneMore(env, b, n, own);
    Regrouped(a, b, [n]);
    Regrouped(Children(env, a), Children(env, b), own);
  }

  lemma {:induction false} PlainNodesHaveNone(env: Env, nodes: seq<Node>)
    requires AllPlain(nodes)
    ensures Children(env, nodes) == []
  {
    if nodes != [] { PlainNodesHaveNone(env, nodes[..|nodes| - 1]); }
  }

  lemma ChildrenOfTurn(env: Env, n: Node, tail: seq<Node>, own: seq<Node>)
    requires own == ChildNodes(env, n)
    ensures Children(env, [n] + tail) == own + Children(env, tail + own)
    ensures Children(env, tail + own) == Children(env, tail)
  {
    ChildrenJoin(env, [n], tail);
    ChildrenJoin(env, tail, own);
    ChildrenArePlain(env, n);
    PlainNodesHaveNone(env, own);
    ChildrenOneMore(env, [], n, own);
    assert [] + [n] == [n] && [] + own == own;
  }

  lemma ExpandedTurn(env: Env, pending: seq<Node>, own: seq<Node>, rest: seq<Node>)
    requires pending != [] && own == ChildNodes(env, pending[0]) && rest == pending[1..] + own
    ensures Expanded(env, pending) == [pending[0]] + Expanded(env, rest)
  {
    ChildrenOfTurn(env, pending[0], pending[1..], own);
    assert pending == [pending[0]] + pending[1..];
    Regrouped(pending[1..], own, Children(env, rest));
    Regrouped([pending[0]], pending[1..], own + Children(env, rest));
  }

  lemma ChildNodesAreMentioned(env: Env, n: Node)
    ensures Mapped(ChildNodes(env, n)) == Plainly(StructuredReferences(env, n.structure, n.reference.sha256))
  {}

  lemma MappedJoin(a: seq<Node>, b: seq<Node>)
    ensures Mapped(a + b) == Mapped(a) + Mapped(b)
  {}

  /** The nodes of these roles of a manifest. */
  function RoleNodes(m: RunManifest, roles: seq<Role>): seq<Node>
    requires forall i :: 0 <= i < |roles| ==> roles[i] in m.artifacts
  {
    seq(|roles|, i requires 0 <= i < |roles| => BoundNode(m, roles[i]))
  }

  lemma RoleIsMentioned(env: Env, m: RunManifest, before: seq<Role>, role: Role, nodes: seq<Node>)
    requires role in m.artifacts
    requires Mapped(nodes) == Bindings(m, before) && Mapped(Children(env, nodes)) == Insides(env, m, before)
    ensures Mapped(nodes + [BoundNode(m, role)]) == Bindings(m, before + [role])
    ensures Mapped(Children(env, nodes + [BoundNode(m, role)])) == Insides(env, m, before + [role])
  {
    var n := BoundNode(m, role);
    var own := ChildNodes(env, n);
    assert (before + [role])[..|before|] == before;
    MappedJoin(nodes, [n]);
    assert Mapped([n]) == [MentionOf(n)];
    ChildNodesAreMentioned(env, n);
    ChildrenOneMore(env, nodes, n, own);
    MappedJoin(Children(env, nodes), own);
  }

  lemma {:induction false} RolesAreMentioned(env: Env, m: RunManifest, roles: seq<Role>)
    requires forall i :: 0 <= i < |roles| ==> roles[i] in m.artifacts
    ensures Mapped(RoleNodes(m, roles)) == Bindings(m, roles)
    ensures Mapped(Children(env, RoleNodes(m, roles))) == Insides(env, m, roles)
  {
    if roles != [] {
      var before, role := roles[..|roles| - 1], roles[|roles| - 1];
      RolesAreMentioned(env, m, before);
      RoleIsMentioned(env, m, before, role, RoleNodes(m, before));
      assert RoleNodes(m, roles) == RoleNodes(m, before) + [BoundNode(m, role)];
      assert before + [role] == roles;
    }
  }

  lemma {:induction false} DirectNodesAreMentioned(env: Env, roots: seq<Root>)
    requires forall i :: 0 <= i < |roots| ==> Lists(env, roots[i].manifest.artifacts)
    ensures Mapped(AllDirectNodes(env, roots)) == AllBindings(env, roots)
    ensures Mapped(Children(env, AllDirectNodes(env, roots))) == AllInsides(env, roots)
  {
    if roots != [] {
      var before, m := roots[..|roots| - 1], roots[|roots| - 1].manifest;
      var roles := env.roleOrder(m.artifacts);
      DirectNodesAreMentioned(env, before);
      forall i | 0 <= i < |roles| ensures roles[i] in m.artifacts {}
      RolesAreMentioned(env, m, roles);
      assert DirectNodes(env, m) == RoleNodes(m, roles);
      MappedJoin(AllDirectNodes(env, before), DirectNodes(env, m));
      ChildrenJoin(env, AllDirectNodes(env, before), DirectNodes(env, m));
      MappedJoin(Children(env, AllDirectNodes(env, before)), Children(env, DirectNodes(env, m)));
    }
  }

  lemma QueuedIsMentioned(env: Env, roots: seq<Root>)
    requires forall i :: 0 <= i < |roots| ==> Lists(env, roots[i].manifest.artifacts)
    ensures Mapped(Expanded(env, AllDirectNodes(env, roots))) == Mentions(env, roots)
    ensures |Expanded(env, AllDirectNodes(env, roots))| == |Mentions(env, roots)|
  {
    var nodes := AllDirectNodes(env, roots);
    DirectNodesAreMentioned(env, roots);
    MappedJoin(nodes, Children(env, nodes));
  }

  // ------------------------------------------------------------- one quiet visit

  predicate Fits(env: Env, n: Node) {
    Exact(env, n.reference) && Understood(env, n) && Bounded(n)
  }

  function Weight(env: Env, digest: string): nat {
    var stored := Stored(env, digest);
    if stored.Some? then |stored.value| else 0
  }

  /** A builder that agrees with the stored file and was read. */
  predicate Built(env: Env, digest: string, b: Builder) {
    b.verified && b.size == Weight(env, digest) && b.storageRef == CanonicalPath(digest)
  }

  ghost predicate BuildersAre(env: Env, builders: map<string, Builder>, done: seq<Mention>) {
    && (forall d :: d in builders <==> Named(done, d))
    && (forall d :: d in builders ==> Built(env, d, builders[d]))
  }

  function KeyTo(env: Env, digest: string): Key {
    Key(digest, Weight(env, digest), CanonicalPath(digest))
  }

  function Kept(env: Env, done: seq<Mention>, digest: string): ReadResult {
    ReadOk(if Opened(done, digest) then Stored(env, digest) else None, Weight(env, digest))
  }

  predicate EntryIs(env: Env, done: seq<Mention>, key: Key, result: ReadResult) {
    && Named(done, key.sha256) && Stored(env, key.sha256).Some?
    && key == KeyTo(env, key.sha256) && result == Kept(env, done, key.sha256)
  }

  ghost predicate CacheIs(env: Env, cache: map<Key, ReadResult>, done: seq<Mention>) {
    && (forall key :: key in cache ==> EntryIs(env, done, key, cache[key]))
    && (forall d :: Named(done, d) ==> KeyTo(env, d) in cache)
  }

  /** The state of a worklist that has visited these mentions and found nothing. */
  ghost predicate Clean(env: Env, st: State, done: seq<Mention>) {
    && BuildersAre(env, st.builders, done) && CacheIs(env, st.cache, done)
    && st.used == Hashed(done) <= MAX_TOTAL_HASHED_BYTES
  }

  lemma EnteredIsQuiet(env: Env, st: State, n: Node)
    requires Exact(env, n.reference)
    requires n.reference.sha256 in st.builders ==> Built(env, n.reference.sha256, st.builders[n.reference.sha256])
    ensures var e, d := Entered(st, n), n.reference.sha256;
            && d in e.builders && e.builders == st.builders[d := e.builders[d]] && e == st.(builders := e.builders)
            && e.builders[d].size == Weight(env, d) && e.builders[d].storageRef == CanonicalPath(d)
  {
    assert st.findings + [] == st.findings;
  }

  lemma CacheOneMore(env: Env, cache: map<Key, ReadResult>, done: seq<Mention>, m: Mention)
    requires CacheIs(env, cache, done) && Exact(env, m.reference)
    ensures var d := m.reference.sha256;
            && CacheIs(env, cache[KeyTo(env, d) := Kept(env, done + [m], d)], done + [m])
            && (KeyTo(env, d) in cache <==> Named(done, d))
            && (KeyTo(env, d) in cache ==> cache[KeyTo(env, d)] == Kept(env, done, d))
  {
    var d, all := m.reference.sha256, done + [m];
    var next := cache[KeyTo(env, d) := Kept(env, all, d)];
    NamedOneMore(done, m, d);
    forall key | key in next ensures EntryIs(env, all, key, next[key]) {
      NamedOneMore(done, m, key.sha256);
      if key != KeyTo(env, d) { assert EntryIs(env, done, key, cache[key]); }
    }
    forall x | Named(all, x) ensures KeyTo(env, x) in next { NamedOneMore(done, m, x); }
    if KeyTo(env, d) in cache { assert EntryIs(env, done, KeyTo(env, d), cache[KeyTo(env, d)]); }
  }

  /** Reading a fitting reference, or finding it read. */
  lemma FetchedIsQuiet(env: Env, st: State, n: Node, done: seq<Mention>)
    requires CacheIs(env, st.cache, done) && st.used == Hashed(done)
    requires Exact(env, n.reference) && Bounded(n) && Hashed(done + [MentionOf(n)]) <= MAX_TOTAL_HASHED_BYTES
    ensures var f := Fetched(env, st, n).state;
            && f == st.(cache := f.cache, used := f.used) && CacheIs(env, f.cache, done + [MentionOf(n)])
            && f.used == Hashed(done + [MentionOf(n)])
            && ResultFor(f, n) == Kept(env, done + [MentionOf(n)], n.reference.sha256)
  {
    var d, m := n.reference.sha256, MentionOf(n);
    CacheOneMore(env, st.cache, done, m);
    HashedOneMore(done, m);
    NamedOneMore(done, m, d);
    assert KeyOf(n) == KeyTo(env, d);
    if KeyTo(env, d) in st.cache && !Fresh(done, m) {
      assert st.cache[KeyTo(env, d) := Kept(env, done + [m], d)] == st.cache;
    }
  }

  lemma MarkedIsBuilt(env: Env, st: State, e: State, d: string, done: seq<Mention>, m: Mention)
    requires BuildersAre(env, st.builders, done) && d == m.reference.sha256
    requires d in e.builders && e.builders == st.builders[d := e.builders[d]]
    requires e.builders[d].storageRef == CanonicalPath(d)
    ensures BuildersAre(env, MarkVerified(e, d, Weight(env, d)).builders, done + [m])
  {
    var marked := MarkVerified(e, d, Weight(env, d)).builders;
    forall x ensures x in marked <==> Named(done + [m], x) { NamedOneMore(done, m, x); }
    forall x | x in marked ensures Built(env, x, marked[x]) {
      if x != d { assert x in st.builders && marked[x] == st.builders[x]; }
    }
  }

  lemma TaskIsQuiet(env: Env, l: State, n: Node, data: Bytes)
    requires n.structure == TaskRole && Stored(env, n.reference.sha256) == Some(data) && Understood(env, n)
    ensures FollowTask(env, l, n, data) ==
            Visited(l.(tasks := l.tasks[n.owner.runId := env.readTask(data).value]), ChildNodes(env, n))
  {
    assert l.findings + [] + [] == l.findings;
  }

  lemma EvaluationIsQuiet(env: Env, l: State, n: Node, data: Bytes)
    requires n.structure == EvaluationRole && Stored(env, n.reference.sha256) == Some(data) && Understood(env, n)
    ensures FollowEvaluation(env, l, n, data) ==
            Visited(l.(evaluations := l.evaluations[n.owner.runId := Judged(env.readEvaluation(data).value, n.reference, n.owner)]),
                    ChildNodes(env, n))
  {
    assert l.findings + ([] + [] + []) == l.findings;
  }

  /** What a visit concludes from a reference that could be read. */
  lemma ConcludedIsQuiet(env: Env, l: State, n: Node)
    requires Fits(env, n) && ResultFor(l, n).ReadOk? && ResultFor(l, n).size == Weight(env, n.reference.sha256)
    requires n.structure != Plain ==> ResultFor(l, n).data == Stored(env, n.reference.sha256)
    ensures var v, marked := Concluded(env, l, n), MarkVerified(l, n.reference.sha256, Weight(env, n.reference.sha256));
            && v.children == ChildNodes(env, n) && v.state.findings == l.findings && v.state.builders == marked.builders
            && v.state.cache == l.cache && v.state.used == l.used
  {
    var marked := MarkVerified(l, n.reference.sha256, Weight(env, n.reference.sha256));
    assert marked == l.(builders := marked.builders);
    if n.structure == TaskRole {
      TaskIsQuiet(env, marked, n, ResultFor(l, n).data.value);
    } else if n.structure == EvaluationRole {
      EvaluationIsQuiet(env, marked, n, ResultFor(l, n).data.value);
    }
  }

  lemma QuietVisit(env: Env, st: State, n: Node, done: seq<Mention>)
    requires Clean(env, st, done) && Fits(env, n) && Hashed(done + [MentionOf(n)]) <= MAX_TOTAL_HASHED_BYTES
    ensures var v := Visit(env, st, n);
            && Clean(env, v.state, done + [MentionOf(n)]) && v.state.findings == st.findings
            && v.children == ChildNodes(env, n)
  {
    var d, m, e := n.reference.sha256, MentionOf(n), Entered(st, n);
    EnteredIsQuiet(env, st, n);
    FetchedIsQuiet(env, e, n, done);
    var l := Looked(env, st, n);
    NamedOneMore(done, m, d);
    VisitIsConcluded(env, st, n);
    ConcludedIsQuiet(env, l, n);
    MarkedIsBuilt(env, st, l, d, done, m);
  }

  /** Only a visit within the budget blames nothing. */
  lemma QuietVisitIsAffordable(env: Env, st: State, n: Node, done: seq<Mention>)
    requires Clean(env, st, done) && CacheInv(env, st) && AllHarmless(Visit(env, st, n).state.findings)
    ensures Fits(env, n) && Hashed(done + [MentionOf(n)]) <= MAX_TOTAL_HASHED_BYTES
  {
    HarmlessVisit(env, st, n);
    var d, m, e := n.reference.sha256, MentionOf(n), Entered(st, n);
    EnteredIsQuiet(env, st, n);
    CacheOneMore(env, st.cache, done, m);
    HashedOneMore(done, m);
    assert KeyOf(n) == KeyTo(env, d);
    VisitIsConcluded(env, st, n);
    var l := Looked(env, st, n);
    if ResultFor(l, n).ReadFailed? { LastIsHarmful(l.findings, Blame(n).(kind := ResultFor(l, n).kind)); }
  }

  // ------------------------------------------------------------ the whole worklist

  predicate AllFit(env: Env, nodes: seq<Node>) {
    forall i {:trigger Fits(env, nodes[i])} :: 0 <= i < |nodes| ==> Fits(env, nodes[i])
  }

  lemma AllFitTurn(env: Env, n: Node, ahead: seq<Node>)
    ensures AllFit(env, [n] + ahead) <==> Fits(env, n) && AllFit(env, ahead)
  {
    var all := [n] + ahead;
    if AllFit(env, all) {
      assert Fits(env, all[0]);
      forall i | 0 <= i < |ahead| ensures Fits(env, ahead[i]) { assert Fits(env, all[i + 1]); }
    }
    if Fits(env, n) && AllFit(env, ahead) {
      forall i | 0 <= i < |all| ensures Fits(env, all[i]) {
        if i > 0 { assert Fits(env, ahead[i - 1]); }
      }
    }
  }

  lemma MappedTurn(done: seq<Mention>, n: Node, ahead: seq<Node>)
    ensures done + Mapped([n] + ahead) == done + [MentionOf(n)] + Mapped(ahead)
  {}

  /** What lies ahead of a worklist can all be read and understood within the limits. */
  ghost predicate Sufficient(env: Env, done: seq<Mention>, ahead: seq<Node>) {
    && AllFit(env, ahead) && |done| + |ahead| <= MAX_REACHABLE_REFERENCES
    && Hashed(done + Mapped(ahead)) <= MAX_TOTAL_HASHED_BYTES
  }

  lemma SufficientTurn(env: Env, done: seq<Mention>, n: Node, ahead: seq<Node>)
    ensures done + Mapped([n] + ahead) == done + [MentionOf(n)] + Mapped(ahead)
    ensures Sufficient(env, done, [n] + ahead) <==> Fits(env, n) && Sufficient(env, done + [MentionOf(n)], ahead)
    ensures Sufficient(env, done, [n] + ahead) ==> Hashed(done + [MentionOf(n)]) <= MAX_TOTAL_HASHED_BYTES
  {
    AllFitTurn(env, n, ahead);
    MappedTurn(done, n, ahead);
    HashedGrows(done + [MentionOf(n)], Mapped(ahead));
  }

  /** A worklist on its way to d which nothing went wrong with so far, and for which
      nothing goes wrong later or everything ahead is in order. */
  ghost predicate Promising(env: Env, st: State, done: seq<Mention>, pending: seq<Node>, d: State) {
    && Leads(env, st, pending, |done|, d) && Clean(env, st, done)
    && (AllHarmless(d.findings) || Sufficient(env, done, Expanded(env, pending)))
  }

  /** How such a worklist ends. */
  ghost predicate EndsWell(env: Env, st: State, done: seq<Mention>, ahead: seq<Node>, d: State) {
    Sufficient(env, done, ahead) && Clean(env, d, done + Mapped(ahead)) && d.findings == st.findings
  }

  lemma PromisingEnd(env: Env, st: State, done: seq<Mention>, pending: seq<Node>, d: State)
    requires Promising(env, st, done, pending, d) && (pending == [] || |done| == MAX_REACHABLE_REFERENCES)
    ensures EndsWell(env, st, done, Expanded(env, pending), d)
  {
    assert d == Drained(env, st, pending, |done|);
    DrainEnds(env, st, pending, |done|);
    assert |Expanded(env, pending)| >= |pending|;
    assert pending == [] && Expanded(env, pending) == [];
    assert done + Mapped([]) == done;
  }

  lemma TurnIsAffordable(
      env: Env, st: State, done: seq<Mention>, pending: seq<Node>, d: State, next: State, children: seq<Node>, rest: seq<Node>)
    requires Promising(env, st, done, pending, d) && pending != []
    requires Turned(env, st, pending[0], next, children) && Leads(env, next, rest, |done| + 1, d)
    ensures Fits(env, pending[0]) && Hashed(done + [MentionOf(pending[0])]) <= MAX_TOTAL_HASHED_BYTES
  {
    var n := pending[0];
    if AllHarmless(d.findings) {
      DrainIsBlamelessThroughout(env, next, rest, |done| + 1, d);
      assert Visit(env, st, n) == Visited(next, children);
      QuietVisitIsAffordable(env, st, n, done);
    } else {
      var ahead := Expanded(env, pending);
      assert ahead[0] == n && ahead == [n] + ahead[1..];
      SufficientTurn(env, done, n, ahead[1..]);
    }
  }

  lemma TurnIsQuiet(env: Env, st: State, done: seq<Mention>, n: Node, next: State, children: seq<Node>)
    requires Clean(env, st, done) && Fits(env, n) && Hashed(done + [MentionOf(n)]) <= MAX_TOTAL_HASHED_BYTES
    requires Turned(env, st, n, next, children)
    ensures Clean(env, next, done + [MentionOf(n)]) && next.findings == st.findings && children == ChildNodes(env, n)
  {
    assert Visit(env, st, n) == Visited(next, children);
    QuietVisit(env, st, n, done);
  }

  lemma PromisingTurn(env: Env, st: State, done: seq<Mention>, pending: seq<Node>, d: State)
    returns (next: State, rest: seq<Node>)
    requires Promising(env, st, done, pending, d) && pending != [] && |done| < MAX_REACHABLE_REFERENCES
    ensures Promising(env, next, done + [MentionOf(pending[0])], rest, d)
    ensures Fits(env, pending[0]) && next.findings == st.findings
    ensures Expanded(env, pending) == [pending[0]] + Expanded(env, rest)
  {
    var children;
    next, children, rest := DrainOne(env, st, pending, |done|, d);
    TurnIsAffordable(env, st, done, pending, d, next, children, rest);
    TurnIsQuiet(env, st, done, pending[0], next, children);
    ExpandedTurn(env, pending, children, rest);
    SufficientTurn(env, done, pending[0], Expanded(env, rest));
  }

  lemma EndsWellToo(env: Env, st: State, next: State, done: seq<Mention>, n: Node, ahead: seq<Node>, d: State)
    requires Fits(env, n) && next.findings == st.findings && EndsWell(env, next, done + [MentionOf(n)], ahead, d)
    ensures EndsWell(env, st, done, [n] + ahead, d)
  {
    SufficientTurn(env, done, n, ahead);
  }

  lemma {:induction false} DrainEndsWell(env: Env, st: State, done: seq<Mention>, pending: seq<Node>, d: State)
    requires Promising(env, st, done, pending, d)
    ensures EndsWell(env, st, done, Expanded(env, pending), d)
    decreases MAX_REACHABLE_REFERENCES - |done|
  {
    if pending == [] || |done| == MAX_REACHABLE_REFERENCES {
      PromisingEnd(env, st, done, pending, d);
    } else {
      var next, rest := PromisingTurn(env, st, done, pending, d);
      DrainEndsWell(env, next, done + [MentionOf(pending[0])], rest, d);
      EndsWellToo(env, st, next, done, pending[0], Expanded(env, rest), d);
    }
  }

  // ---------------------------------------- what the worklist is confined to

  /** A worklist that has met and will meet no digest but these, and no record but
      those of these nodes. */
  ghost predicate Confined(env: Env, st: State, pending: seq<Node>, digests: string -> bool, given: seq<Node>) {
    && (forall d :: d in st.builders ==> digests(d)) && WithinDigests(Expanded(env, pending), digests)
    && RecordsFrom(st, given) && WithinNodes(pending, given)
  }

  ghost predicate WithinDigests(nodes: seq<Node>, digests: string -> bool) {
    forall i :: 0 <= i < |nodes| ==> digests(nodes[i].reference.sha256)
  }

  predicate WithinNodes(nodes: seq<Node>, given: seq<Node>) {
    forall i :: 0 <= i < |nodes| && nodes[i].structure != Plain ==> nodes[i] in given
  }

  predicate HasRecordNode(given: seq<Node>, run: string, structure: Structure) {
    exists i :: 0 <= i < |given| && given[i].structure == structure && given[i].owner.runId == run
  }

  predicate RecordsFrom(st: State, given: seq<Node>) {
    && (forall run :: run in st.tasks ==> HasRecordNode(given, run, TaskRole))
    && (forall run :: run in st.evaluations ==> HasRecordNode(given, run, EvaluationRole))
  }

  lemma ConcludedIsConfined(env: Env, l: State, n: Node)
    requires ResultFor(l, n).ReadOk? && ResultFor(l, n).data.Some? ==> ResultFor(l, n).data == Stored(env, n.reference.sha256)
    ensures var v := Concluded(env, l, n);
            && (v.children == [] || v.children == ChildNodes(env, n))
            && v.state.tasks.Keys <= l.tasks.Keys + (if n.structure == TaskRole then {n.owner.runId} else {})
            && v.state.evaluations.Keys <= l.evaluations.Keys + (if n.structure == EvaluationRole then {n.owner.runId} else {})
  {}

  lemma VisitIsConfined(env: Env, st: State, n: Node)
    requires CacheInv(env, st)
    ensures var v := Visit(env, st, n);
            && (v.children == [] || v.children == ChildNodes(env, n))
            && v.state.builders.Keys == st.builders.Keys + {n.reference.sha256}
            && v.state.tasks.Keys <= st.tasks.Keys + (if n.structure == TaskRole then {n.owner.runId} else {})
            && v.state.evaluations.Keys <= st.evaluations.Keys + (if n.structure == EvaluationRole then {n.owner.runId} else {})
  {
    VisitFacts(env, st, n);
    LookingFacts(env, st, n);
    LookingKeepsRecords(env, st, n);
    VisitIsConcluded(env, st, n);
    ConcludedIsConfined(env, Looked(env, st, n), n);
  }

  lemma RecordsFromOneMore(st: State, next: State, n: Node, given: seq<Node>)
    requires RecordsFrom(st, given) && (n.structure != Plain ==> n in given)
    requires next.tasks.Keys <= st.tasks.Keys + (if n.structure == TaskRole then {n.owner.runId} else {})
    requires next.evaluations.Keys <= st.evaluations.Keys + (if n.structure == EvaluationRole then {n.owner.runId} else {})
    ensures RecordsFrom(next, given)
  {
    forall run | run in next.tasks ensures HasRecordNode(given, run, TaskRole) {
      assert run in next.tasks.Keys;
    }
    forall run | run in next.evaluations ensures HasRecordNode(given, run, EvaluationRole) {
      assert run in next.evaluations.Keys;
    }
  }

  lemma PendingIsConfined(env: Env, pending: seq<Node>, own: seq<Node>, children: seq<Node>, digests: string -> bool)
    requires pending != [] && own == ChildNodes(env, pending[0]) && (children == [] || children == own)
    requires WithinDigests(Expanded(env, pending), digests)
    ensures WithinDigests(Expanded(env, pending[1..] + children), digests)
  {
    var n, tail := pending[0], pending[1..];
    var all, fewer := Expanded(env, tail + own), Expanded(env, tail);
    ExpandedTurn(env, pending, own, tail + own);
    ChildrenOfTurn(env, n, tail, own);
    var whole := Expanded(env, pending);
    forall i | 0 <= i < |all| ensures digests(all[i].reference.sha256) { assert whole[i + 1] == all[i]; }
    forall i | 0 <= i < |fewer| ensures digests(fewer[i].reference.sha256) {
      assert fewer[i] == all[if i < |tail| then i else i + |own|];
    }
    assert tail + [] == tail;
  }

  lemma ConfinedTurn(
      env: Env, st: State, pending: seq<Node>, next: State, children: seq<Node>, digests: string -> bool, given: seq<Node>)
    requires CacheInv(env, st) && pending != [] && Confined(env, st, pending, digests, given)
    requires Turned(env, st, pending[0], next, children)
    ensures Confined(env, next, pending[1..] + children, digests, given)
  {
    var n := pending[0];
    assert Visit(env, st, n) == Visited(next, children);
    VisitIsConfined(env, st, n);
    RecordsFromOneMore(st, next, n, given);
    PendingIsConfined(env, pending, ChildNodes(env, n), children, digests);
    ChildrenArePlain(env, n);
    assert Expanded(env, pending)[0] == n;
    forall d | d in next.builders ensures digests(d) {
      assert d in next.builders.Keys;
    }
  }

  lemma ConfinedEnd(env: Env, st: State, pending: seq<Node>, processed: nat, d: State)
    requires Leads(env, st, pending, processed, d) && (pending == [] || processed == MAX_REACHABLE_REFERENCES)
    ensures d == st.(findings := d.findings)
  {
    assert d == Drained(env, st, pending, processed);
  }

  lemma {:induction false} DrainIsConfined(
      env: Env, st: State, pending: seq<Node>, processed: nat, d: State, digests: string -> bool, given: seq<Node>)
    requires Leads(env, st, pending, processed, d) && Confined(env, st, pending, digests, given)
    ensures RecordsFrom(d, given) && forall x :: x in d.builders ==> digests(x)
    decreases MAX_REACHABLE_REFERENCES - processed
  {
    if pending == [] || processed == MAX_REACHABLE_REFERENCES {
      ConfinedEnd(env, st, pending, processed, d);
    } else {
      var next, children, rest := DrainOne(env, st, pending, processed, d);
      ConfinedTurn(env, st, pending, next, children, digests, given);
      DrainIsConfined(env, next, rest, processed + 1, d, digests, given);
    }
  }
}
