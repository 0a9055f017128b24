/** The reachability audit: which stored files the ledger's runs refer to, directly
    or through a structured artifact, and whether the rest may be quarantined. The
    file system does not change while it is scanned, and directories list their
    entries in name order. */
module Audit {
  import opened Text
  import opened Usage
  import opened Events
  import opened Ledger
  import opened Keys
  import opened Roots
  import A = Artifacts

  type Bytes = A.Bytes

  const MAX_ROOTS: nat := 4096
  const MAX_REACHABLE_REFERENCES: nat := 16384
  const MAX_INVENTORY_ENTRIES: nat := 65536
  const MAX_ARTIFACT_BYTES: nat := 268435456
  const MAX_STRUCTURED_BYTES: nat := 8388608
  const MAX_TOTAL_HASHED_BYTES: nat := 1073741824
  const TASK_MEDIA_TYPE := "application/vnd.guildmind.task+json"
  const EVALUATION_MEDIA_TYPE := "application/vnd.guildmind.evaluation+json"
  const TEMP_PREFIX := ".artifact-"
  const SHA_NAME := "sha256"

  // --------------------------------------------------------------- file system

  /** The bytes of a file, or only its size when it cannot be opened or read. */
  datatype Contents = Known(bytes: Bytes) | Unreadable(size: nat)

  /** What lstat says of an entry. */
  datatype Kind = Regular(contents: Contents, links: nat) | Folder | SymbolicLink | Special | Unstatable

  function SizeOf(c: Contents): nat {
    match c
    case Known(bytes) => |bytes|
    case Unreadable(size) => size
  }

  datatype Entry = Entry(name: string, decodable: bool, kind: Kind)

  datatype Listing = Listing(entries: seq<Entry>, listable: bool)

  datatype Tree = Tree(root: Listing, sha: Listing, shards: map<string, Listing>)

  function ShardOf(t: Tree, prefix: string): Listing {
    if prefix in t.shards then t.shards[prefix] else Listing([], false)
  }

  function Find(entries: seq<Entry>, name: string): Option<Kind> {
    if entries == [] then None
    else if entries[0].decodable && entries[0].name == name then Some(entries[0].kind)
    else Find(entries[1..], name)
  }

  // ------------------------------------------------------------------- records

  datatype TaskRecord = TaskRecord(
    taskId: string, imageDigest: string, contentHash: string, evaluatorVersion: Field,
    problemStatement: ArtifactRef, repositorySnapshot: ArtifactRef, visibleTests: seq<ArtifactRef>)

  datatype EvaluationRecord = EvaluationRecord(
    runId: string, runStatus: RunStatus, patchHash: string, taskHash: string, evaluatorVersion: string,
    evidence: seq<ArtifactRef>)

  /** Everything the audit reads from outside: the store, the content hash, how the
      two structured records are named, read and canonically written, and the order of
      role names. */
  datatype Env = Env(
    tree: Tree, hash: Bytes -> string, taskMedia: string, evaluationMedia: string,
    readTask: Bytes -> Option<TaskRecord>, taskBytes: TaskRecord -> Option<Bytes>,
    readEvaluation: Bytes -> Option<EvaluationRecord>, evaluationBytes: EvaluationRecord -> Option<Bytes>,
    roleOrder: map<Role, ArtifactRef> -> seq<Role>)

  ghost predicate Lists(env: Env, artifacts: map<Role, ArtifactRef>) {
    forall role :: role in env.roleOrder(artifacts) <==> role in artifacts
  }

  // ------------------------------------------------------------------ findings

  datatype FindingKind =
    | MissingReferenced | CorruptReferenced | ValidFinalizedOrphan | CorruptFinalizedOrphan | TempOrphan
    | NoncanonicalEntry | Hardlink | Symlink | SpecialFile | ScanError | LimitExceeded

  datatype OwnerPath = Bound(role: Role) | ProblemStatement | RepositorySnapshot | VisibleTest(index: nat) | Evidence(index: nat)

  datatype Owner = Owner(runId: string, path: OwnerPath)

  datatype Path = Top | TopEntry(name: string) | ShaEntry(name: string) | Leaf(prefix: string, name: string)

  datatype Finding = Finding(kind: FindingKind, path: Path, owners: set<Owner>)

  /** A finding that neither leaves the scan incomplete nor blames a reference. */
  predicate Harmless(f: Finding) {
    f.owners == {} && f.kind != ScanError && f.kind != LimitExceeded
  }

  predicate AllHarmless(fs: seq<Finding>) {
    forall i :: 0 <= i < |fs| ==> Harmless(fs[i])
  }

  predicate IsOrphanKind(k: FindingKind) {
    k in {ValidFinalizedOrphan, CorruptFinalizedOrphan, TempOrphan}
  }

  // ---------------------------------------------------------------- one read

  datatype ReadResult = ReadOk(data: Option<Bytes>, size: nat) | ReadFailed(kind: FindingKind)

  datatype Reading = Reading(result: ReadResult, used: nat)

  function CanonicalPath(digest: string): string {
    "sha256/" + A.PrefixOf(digest) + "/" + digest
  }

  /** The canonical entry of a digest, through two real directories. */
  function Located(t: Tree, digest: string): ReadableOr {
    match Find(t.root.entries, SHA_NAME)
    case None => Blocked(MissingReferenced)
    case Some(Unstatable) => Blocked(CorruptReferenced)
    case Some(SymbolicLink) => Blocked(Symlink)
    case Some(Folder) =>
      (match Find(t.sha.entries, A.PrefixOf(digest))
       case None => Blocked(MissingReferenced)
       case Some(Unstatable) => Blocked(CorruptReferenced)
       case Some(SymbolicLink) => Blocked(Symlink)
       case Some(Folder) =>
         (match Find(ShardOf(t, A.PrefixOf(digest)).entries, digest)
          case None => Blocked(MissingReferenced)
          case Some(Unstatable) => Blocked(CorruptReferenced)
          case Some(SymbolicLink) => Blocked(Symlink)
          case Some(Regular(contents, links)) =>
            if links != 1 then Blocked(Hardlink)
            else if contents.Unreadable? then Blocked(CorruptReferenced)
            else Readable(contents.bytes)
          case Some(_) => Blocked(SpecialFile))
       case Some(_) => Blocked(SpecialFile))
    case Some(_) => Blocked(SpecialFile)
  }

  datatype ReadableOr = Readable(bytes: Bytes) | Blocked(kind: FindingKind)

  function ReadReference(env: Env, r: ArtifactRef, capture: bool, used: nat): Reading {
    if r.storageRef != CanonicalPath(r.sha256) then Reading(ReadFailed(CorruptReferenced), used)
    else if r.sizeBytes > MAX_ARTIFACT_BYTES then Reading(ReadFailed(LimitExceeded), used)
    else if capture && r.sizeBytes > MAX_STRUCTURED_BYTES then Reading(ReadFailed(LimitExceeded), used)
    else
      match Located(env.tree, r.sha256)
      case Blocked(kind) => Reading(ReadFailed(kind), used)
      case Readable(bytes) =>
        if |bytes| != r.sizeBytes then Reading(ReadFailed(CorruptReferenced), used)
        else if used + |bytes| > MAX_TOTAL_HASHED_BYTES then Reading(ReadFailed(LimitExceeded), used)
        else if env.hash(bytes) != r.sha256 then Reading(ReadFailed(CorruptReferenced), used + |bytes|)
        else Reading(ReadOk(if capture then Some(bytes) else None, |bytes|), used + |bytes|)
  }

  // ----------------------------------------------------------------- worklist

  datatype Structure = Plain | TaskRole | EvaluationRole

  datatype Node = Node(reference: ArtifactRef, owner: Owner, structure: Structure, manifest: RunManifest)

  datatype Builder = Builder(
    size: nat, storageRef: string, mediaTypes: set<string>, owners: set<Owner>, verified: bool)

  datatype Key = Key(sha256: string, size: nat, storageRef: string)

  datatype Judged = Judged(evaluation: EvaluationRecord, reference: ArtifactRef, owner: Owner)

  datatype State = State(
    builders: map<string, Builder>, cache: map<Key, ReadResult>, used: nat, findings: seq<Finding>,
    tasks: map<string, TaskRecord>, evaluations: map<string, Judged>)

  datatype Visited = Visited(state: State, children: seq<Node>)

  function StructureOf(role: Role): Structure {
    if role == TaskSpec then TaskRole else if role == Evaluation then EvaluationRole else Plain
  }

  function DirectNodes(env: Env, m: RunManifest): seq<Node> {
    var roles := env.roleOrder(m.artifacts);
    seq(|roles|, i requires 0 <= i < |roles| =>
      if roles[i] in m.artifacts then
        Node(m.artifacts[roles[i]], Owner(m.runId, Bound(roles[i])), StructureOf(roles[i]), m)
      else Node(ArtifactRef("", 0, "", ""), Owner(m.runId, Bound(roles[i])), Plain, m))
  }

  function TaskNodes(m: RunManifest, task: TaskRecord): seq<Node> {
    [Node(task.problemStatement, Owner(m.runId, ProblemStatement), Plain, m),
     Node(task.repositorySnapshot, Owner(m.runId, RepositorySnapshot), Plain, m)]
    + seq(|task.visibleTests|, i requires 0 <= i < |task.visibleTests| =>
        Node(task.visibleTests[i], Owner(m.runId, VisibleTest(i)), Plain, m))
  }

  function EvaluationNodes(m: RunManifest, e: EvaluationRecord): seq<Node> {
    seq(|e.evidence|, i requires 0 <= i < |e.evidence| =>
      Node(e.evidence[i], Owner(m.runId, Evidence(i)), Plain, m))
  }

  function Blame(n: Node): Finding {
    Finding(CorruptReferenced, Leaf(A.PrefixOf(n.reference.sha256), n.reference.sha256), {n.owner})
  }

  function BlameIf(bad: bool, n: Node): seq<Finding> {
    if bad then [Blame(n)] else []
  }

  /** Entering the reference: one builder per digest, and a finding when two
      references to a digest disagree about its size or path. */
  function Entered(st: State, n: Node): State {
    var r := n.reference;
    if r.sha256 !in st.builders then
      st.(builders := st.builders[r.sha256 := Builder(r.sizeBytes, r.storageRef, {r.mediaType}, {n.owner}, false)])
    else
      var b := st.builders[r.sha256];
      st.(builders := st.builders[r.sha256 := b.(mediaTypes := b.mediaTypes + {r.mediaType}, owners := b.owners + {n.owner})],
          findings := st.findings + (
            if b.size != r.sizeBytes || b.storageRef != r.storageRef then
              [Blame(n).(owners := b.owners + {n.owner})]
            else []))
  }

  /** Reading through the cache, which a capturing visit cannot use when the bytes
      were not kept. */
  function Fetched(env: Env, st: State, n: Node): Visited {
    var r := n.reference;
    var key := Key(r.sha256, r.sizeBytes, r.storageRef);
    var capture := n.structure != Plain;
    if key in st.cache && !(capture && st.cache[key].ReadOk? && st.cache[key].data == None) then Visited(st, [])
    else
      var reading := ReadReference(env, r, capture, st.used);
      Visited(st.(cache := st.cache[key := reading.result], used := reading.used), [])
  }

  function ResultFor(st: State, n: Node): ReadResult {
    var key := Key(n.reference.sha256, n.reference.sizeBytes, n.reference.storageRef);
    if key in st.cache then st.cache[key] else ReadFailed(MissingReferenced)
  }

  predicate InvalidVersion(f: Field) {
    f == Malformed || (f.Text? && Blank(f.text))
  }

  function FollowTask(env: Env, st: State, n: Node, data: Bytes): Visited {
    if n.reference.mediaType != env.taskMedia then Visited(st.(findings := st.findings + [Blame(n)]), [])
    else
      match env.readTask(data)
      case None => Visited(st.(findings := st.findings + [Blame(n)]), [])
      case Some(task) =>
        if env.taskBytes(task) != Some(data) then Visited(st.(findings := st.findings + [Blame(n)]), [])
        else
          var mismatch := task.taskId != n.manifest.identity.taskId || task.imageDigest != n.manifest.identity.environmentDigest;
          Visited(
            st.(findings := st.findings + BlameIf(InvalidVersion(task.evaluatorVersion), n) + BlameIf(mismatch, n),
                tasks := st.tasks[n.owner.runId := task]),
            TaskNodes(n.manifest, task))
  }

  /** The evidence an evaluation of this run must list, in order. */
  function ExpectedEvidence(m: RunManifest): seq<ArtifactRef> {
    BoundTo(m, Stdout) + BoundTo(m, Stderr) + BoundTo(m, CandidateStdout) + BoundTo(m, ScorerStdout)
  }

  function BoundTo(m: RunManifest, role: Role): seq<ArtifactRef> {
    if role in m.artifacts then [m.artifacts[role]] else []
  }

  function CrosscheckEvaluation(m: RunManifest, e: EvaluationRecord, n: Node): seq<Finding> {
    BlameIf(e.runId != m.runId, n)
    + BlameIf(e.runStatus != m.status || (Patch in m.artifacts && e.patchHash != m.artifacts[Patch].sha256), n)
    + BlameIf(e.evidence != ExpectedEvidence(m), n)
  }

  function FollowEvaluation(env: Env, st: State, n: Node, data: Bytes): Visited {
    if n.reference.mediaType != env.evaluationMedia then Visited(st.(findings := st.findings + [Blame(n)]), [])
    else
      match env.readEvaluation(data)
      case None => Visited(st.(findings := st.findings + [Blame(n)]), [])
      case Some(e) =>
        if env.evaluationBytes(e) != Some(data) then Visited(st.(findings := st.findings + [Blame(n)]), [])
        else
          Visited(
            st.(findings := st.findings + CrosscheckEvaluation(n.manifest, e, n),
                evaluations := st.evaluations[n.owner.runId := Judged(e, n.reference, n.owner)]),
            EvaluationNodes(n.manifest, e))
  }

  function MarkVerified(st: State, digest: string, size: nat): State {
    if digest in st.builders then
      st.(builders := st.builders[digest := st.builders[digest].(size := size, verified := true)])
    else st
  }

  /** One turn of the worklist loop. */
  function Visit(env: Env, st0: State, n: Node): Visited {
    var st := Fetched(env, Entered(st0, n), n).state;
    match ResultFor(st, n)
    case ReadFailed(kind) => Visited(st.(findings := st.findings + [Blame(n).(kind := kind)]), [])
    case ReadOk(data, size) =>
      var marked := MarkVerified(st, n.reference.sha256, size);
      if n.structure == Plain then Visited(marked, [])
      else if data == None then Visited(marked.(findings := marked.findings + [Blame(n)]), [])
      else if n.structure == TaskRole then FollowTask(env, marked, n, data.value)
      else FollowEvaluation(env, marked, n, data.value)
  }

  const REFERENCE_LIMIT := Finding(LimitExceeded, Top, {})

  /** The worklist, until it is empty or the reference limit is reached. */
  function Drained(env: Env, st: State, pending: seq<Node>, processed: nat): State
    requires processed <= MAX_REACHABLE_REFERENCES
    decreases MAX_REACHABLE_REFERENCES - processed, |pending|
  {
    if pending == [] then st
    else if processed == MAX_REACHABLE_REFERENCES then st.(findings := st.findings + [REFERENCE_LIMIT])
    else
      var v := Visit(env, st, pending[0]);
      Drained(env, v.state, pending[1..] + v.children, processed + 1)
  }

  method Drain(env: Env, start: State, nodes: seq<Node>) returns (st: State)
    ensures st == Drained(env, start, nodes, 0)
  {
    st := start;
    var pending := nodes;
    var processed: nat := 0;
    while pending != []
      invariant processed <= MAX_REACHABLE_REFERENCES
      invariant Drained(env, start, nodes, 0) == Drained(env, st, pending, processed)
      decreases MAX_REACHABLE_REFERENCES - processed
    {
      if processed + 1 > MAX_REACHABLE_REFERENCES {
        return st.(findings := st.findings + [REFERENCE_LIMIT]);
      }
      var v := Visit(env, st, pending[0]);
      st := v.state;
      pending := pending[1..] + v.children;
      processed := processed + 1;
    }
  }

  // -------------------------------------------------- tasks against evaluations

  function TaskEvaluationFindings(task: TaskRecord, j: Judged): seq<Finding> {
    var blame := Finding(CorruptReferenced, Leaf(A.PrefixOf(j.reference.sha256), j.reference.sha256), {j.owner});
    (if j.evaluation.taskHash != task.contentHash then [blame] else [])
    + (if task.evaluatorVersion.Text? && !Blank(task.evaluatorVersion.text)
          && task.evaluatorVersion.text != j.evaluation.evaluatorVersion then [blame]
       else [])
  }

  ghost function CrosscheckedRuns(st: State, runs: seq<string>): seq<Finding> {
    if runs == [] then []
    else
      var run := runs[|runs| - 1];
      CrosscheckedRuns(st, runs[..|runs| - 1])
      + (if run in st.tasks && run in st.evaluations then TaskEvaluationFindings(st.tasks[run], st.evaluations[run]) else [])
  }

  ghost function Crosschecked(st: State): State {
    st.(findings := st.findings + CrosscheckedRuns(st, SortedKeys(st.tasks.Keys * st.evaluations.Keys)))
  }

  method CrosscheckTaskEvaluations(st: State) returns (checked: State)
    ensures checked == Crosschecked(st)
  {
    var rest := st.tasks.Keys * st.evaluations.Keys;
    ghost var all := SortedKeys(rest);
    ghost var done: seq<string> := [];
    var found: seq<Finding> := [];
    while rest != {}
      invariant rest <= st.tasks.Keys * st.evaluations.Keys
      invariant all == done + SortedKeys(rest)
      invariant found == CrosscheckedRuns(st, done)
      decreases |rest|
    {
      LeastExists(rest);
      var run :| run in rest && forall q :: q in rest && q != run ==> Before(run, q);
      assert IsLeast(run, rest);
      OneKeyOn(all, done, rest, run);
      assert (done + [run])[..|done|] == done;
      found := found + TaskEvaluationFindings(st.tasks[run], st.evaluations[run]);
      done := done + [run];
      rest := rest - {run};
    }
    assert all == done;
    return st.(findings := st.findings + found);
  }

  // ---------------------------------------------------------------- inventory

  datatype Scan = Scan(findings: seq<Finding>, counter: nat, used: nat, observed: set<string>)

  datatype Scanned = Scanned(scan: Scan, entries: Option<seq<Entry>>)

  function Noted(scan: Scan, kind: FindingKind, path: Path, owners: set<Owner>): Scan {
    scan.(findings := scan.findings + [Finding(kind, path, owners)])
  }

  /** Counting and decoding a directory's entries; over the limit nothing of the
      directory is kept. */
  function Listed(entries: seq<Entry>, path: Path, scan: Scan): Scanned {
    if entries == [] then Scanned(scan, Some([]))
    else
      var before := Listed(entries[..|entries| - 1], path, scan);
      var e := entries[|entries| - 1];
      if before.entries == None then before
      else
        var counted := before.scan.(counter := before.scan.counter + 1);
        if counted.counter > MAX_INVENTORY_ENTRIES then Scanned(Noted(counted, LimitExceeded, path, {}), None)
        else if !e.decodable then Scanned(Noted(counted, ScanError, path, {}), before.entries)
        else Scanned(counted, Some(before.entries.value + [e]))
  }

  function ScanDirectory(l: Listing, path: Path, scan: Scan): Scanned {
    if !l.listable then Scanned(Noted(scan, ScanError, path, {}), None) else Listed(l.entries, path, scan)
  }

  lemma {:induction false} OverLimitStays(entries: seq<Entry>, path: Path, scan: Scan, n: nat)
    requires n <= |entries| && Listed(entries[..n], path, scan).entries == None
    ensures Listed(entries, path, scan) == Listed(entries[..n], path, scan)
    decreases |entries|
  {
    if n == |entries| {
      assert entries[..n] == entries;
    } else {
      assert entries[..|entries| - 1][..n] == entries[..n];
      OverLimitStays(entries[..|entries| - 1], path, scan, n);
    }
  }

  method ScanEntries(l: Listing, path: Path, start: Scan) returns (r: Scanned)
    ensures r == ScanDirectory(l, path, start)
  {
    if !l.listable {
      return Scanned(Noted(start, ScanError, path, {}), None);
    }
    var scan, kept := start, [];
    var i := 0;
    while i < |l.entries|
      invariant 0 <= i <= |l.entries|
      invariant Listed(l.entries[..i], path, start) == Scanned(scan, Some(kept))
    {
      assert l.entries[..i + 1][..i] == l.entries[..i];
      scan := scan.(counter := scan.counter + 1);
      if scan.counter > MAX_INVENTORY_ENTRIES {
        OverLimitStays(l.entries, path, start, i + 1);
        return Scanned(Noted(scan, LimitExceeded, path, {}), None);
      }
      if !l.entries[i].decodable {
        scan := Noted(scan, ScanError, path, {});
      } else {
        kept := kept + [l.entries[i]];
      }
      i := i + 1;
    }
    assert l.entries[..i] == l.entries;
    return Scanned(scan, Some(kept));
  }

  function Misplaced(kind: Kind): FindingKind {
    if kind.Regular? || kind.Folder? then NoncanonicalEntry else SpecialFile
  }

  predicate CanonicalName(prefix: string, name: string) {
    IsSha256(name) && prefix <= name
  }

  function OwnersOf(builders: map<string, Builder>, name: string): set<Owner> {
    if name in builders then builders[name].owners else {}
  }

  function HashOrphan(env: Env, prefix: string, e: Entry, scan: Scan): Scan
    requires e.kind.Regular?
  {
    var path := Leaf(prefix, e.name);
    if SizeOf(e.kind.contents) > MAX_ARTIFACT_BYTES then Noted(scan, LimitExceeded, path, {})
    else
      match e.kind.contents
      case Unreadable(_) => Noted(scan, ScanError, path, {})
      case Known(bytes) =>
        if scan.used + |bytes| > MAX_TOTAL_HASHED_BYTES then Noted(scan, LimitExceeded, path, {})
        else
          Noted(scan.(used := scan.used + |bytes|),
                if env.hash(bytes) == e.name then ValidFinalizedOrphan else CorruptFinalizedOrphan, path, {})
  }

  function ShardEntry(env: Env, builders: map<string, Builder>, prefix: string, e: Entry, scan: Scan): Scan {
    var path := Leaf(prefix, e.name);
    if e.kind.Unstatable? then Noted(scan, ScanError, path, {})
    else if e.kind.SymbolicLink? then Noted(scan, Symlink, path, OwnersOf(builders, e.name))
    else if e.kind.Regular? && e.kind.links != 1 then Noted(scan, Hardlink, path, OwnersOf(builders, e.name))
    else if TEMP_PREFIX <= e.name then Noted(scan, if e.kind.Regular? then TempOrphan else SpecialFile, path, {})
    else if !CanonicalName(prefix, e.name) || !e.kind.Regular? then Noted(scan, Misplaced(e.kind), path, {})
    else if e.name in builders then scan.(observed := scan.observed + {e.name})
    else HashOrphan(env, prefix, e, scan)
  }

  function ShardEntries(env: Env, builders: map<string, Builder>, prefix: string, entries: seq<Entry>, scan: Scan): Scan {
    if entries == [] then scan
    else ShardEntry(env, builders, prefix, entries[|entries| - 1], ShardEntries(env, builders, prefix, entries[..|entries| - 1], scan))
  }

  function Shard(env: Env, builders: map<string, Builder>, prefix: string, scan: Scan): Scan {
    var listed := ScanDirectory(ShardOf(env.tree, prefix), ShaEntry(prefix), scan);
    if listed.entries == None then listed.scan
    else ShardEntries(env, builders, prefix, listed.entries.value, listed.scan)
  }

  method InventoryShard(env: Env, builders: map<string, Builder>, prefix: string, start: Scan) returns (scan: Scan)
    ensures scan == Shard(env, builders, prefix, start)
  {
    var listed := ScanEntries(ShardOf(env.tree, prefix), ShaEntry(prefix), start);
    scan := listed.scan;
    if listed.entries == None {
      return;
    }
    var entries := listed.entries.value;
    var i := 0;
    while i < |entries|
      invariant 0 <= i <= |entries|
      invariant scan == ShardEntries(env, builders, prefix, entries[..i], listed.scan)
    {
      assert entries[..i + 1][..i] == entries[..i];
      scan := ShardEntry(env, builders, prefix, entries[i], scan);
      i := i + 1;
    }
    assert entries[..i] == entries;
  }

  predicate PrefixName(name: string) {
    |name| == 2 && IsHex(name[0]) && IsHex(name[1])
  }

  function OwnersUnder(builders: map<string, Builder>, prefix: string): set<Owner> {
    set d, o | d in builders && prefix <= d && o in builders[d].owners :: o
  }

  function PrefixEntry(env: Env, builders: map<string, Builder>, e: Entry, scan: Scan): Scan {
    var path := ShaEntry(e.name);
    if e.kind.Unstatable? then Noted(scan, ScanError, path, {})
    else if e.kind.SymbolicLink? then Noted(scan, Symlink, path, OwnersUnder(builders, e.name))
    else if !PrefixName(e.name) || !e.kind.Folder? then Noted(scan, Misplaced(e.kind), path, {})
    else Shard(env, builders, e.name, scan)
  }

  function PrefixEntries(env: Env, builders: map<string, Builder>, entries: seq<Entry>, scan: Scan): Scan {
    if entries == [] then scan
    else PrefixEntry(env, builders, entries[|entries| - 1], PrefixEntries(env, builders, entries[..|entries| - 1], scan))
  }

  function TopLevelEntry(env: Env, builders: map<string, Builder>, e: Entry, scan: Scan): Scan {
    var path := TopEntry(e.name);
    if e.kind.Unstatable? then Noted(scan, ScanError, path, {})
    else if e.name != SHA_NAME then
      Noted(scan, if e.kind.SymbolicLink? then Symlink else Misplaced(e.kind), path, {})
    else if e.kind.SymbolicLink? then Noted(scan, Symlink, path, OwnersUnder(builders, ""))
    else if !e.kind.Folder? then Noted(scan, NoncanonicalEntry, path, {})
    else
      var listed := ScanDirectory(env.tree.sha, path, scan);
      if listed.entries == None then listed.scan
      else PrefixEntries(env, builders, listed.entries.value, listed.scan)
  }

  function TopLevelEntries(env: Env, builders: map<string, Builder>, entries: seq<Entry>, scan: Scan): Scan {
    if entries == [] then scan
    else TopLevelEntry(env, builders, entries[|entries| - 1], TopLevelEntries(env, builders, entries[..|entries| - 1], scan))
  }

  function Inventoried(env: Env, builders: map<string, Builder>, scan: Scan): Scan {
    var listed := ScanDirectory(env.tree.root, Top, scan);
    if listed.entries == None then listed.scan
    else TopLevelEntries(env, builders, listed.entries.value, listed.scan)
  }

  method InventoryPrefixes(env: Env, builders: map<string, Builder>, entries: seq<Entry>, start: Scan) returns (scan: Scan)
    ensures scan == PrefixEntries(env, builders, entries, start)
  {
    scan := start;
    var i := 0;
    while i < |entries|
      invariant 0 <= i <= |entries|
      invariant scan == PrefixEntries(env, builders, entries[..i], start)
    {
      assert entries[..i + 1][..i] == entries[..i];
      var e := entries[i];
      if !e.kind.Unstatable? && !e.kind.SymbolicLink? && PrefixName(e.name) && e.kind.Folder? {
        scan := InventoryShard(env, builders, e.name, scan);
      } else {
        scan := PrefixEntry(env, builders, e, scan);
      }
      i := i + 1;
    }
    assert entries[..i] == entries;
  }

  method InventoryStore(env: Env, builders: map<string, Builder>, start: Scan) returns (scan: Scan)
    ensures scan == Inventoried(env, builders, start)
  {
    var listed := ScanEntries(env.tree.root, Top, start);
    scan := listed.scan;
    if listed.entries == None {
      return;
    }
    var entries := listed.entries.value;
    var i := 0;
    while i < |entries|
      invariant 0 <= i <= |entries|
      invariant scan == TopLevelEntries(env, builders, entries[..i], listed.scan)
    {
      assert entries[..i + 1][..i] == entries[..i];
      var e := entries[i];
      if e.name == SHA_NAME && e.kind.Folder? {
        var sha := ScanEntries(env.tree.sha, TopEntry(e.name), scan);
        if sha.entries == None {
          scan := sha.scan;
        } else {
          scan := InventoryPrefixes(env, builders, sha.entries.value, sha.scan);
        }
      } else {
        scan := TopLevelEntry(env, builders, e, scan);
      }
      i := i + 1;
    }
    assert entries[..i] == entries;
  }

  // ------------------------------------------------------------------- the audit

  datatype Report = Report(
    snapshot: Option<string>, builders: map<string, Builder>, findings: seq<Finding>,
    complete: bool, quarantineAllowed: bool)

  predicate AllVerified(builders: map<string, Builder>) {
    forall d :: d in builders ==> builders[d].verified
  }

  predicate Completes(fs: seq<Finding>) {
    forall i :: 0 <= i < |fs| ==> fs[i].kind != ScanError && fs[i].kind != LimitExceeded
  }

  predicate Blameless(fs: seq<Finding>) {
    forall i :: 0 <= i < |fs| ==> fs[i].owners == {}
  }

  /** A digest some reference named, whose canonical entry the scan did not meet. */
  ghost function Unobserved(builders: map<string, Builder>, observed: set<string>, digests: seq<string>): seq<Finding> {
    if digests == [] then []
    else
      var d := digests[|digests| - 1];
      Unobserved(builders, observed, digests[..|digests| - 1])
      + (if d in builders && d !in observed then [Finding(CorruptReferenced, Leaf(A.PrefixOf(d), d), builders[d].owners)] else [])
  }

  method NoteUnobserved(builders: map<string, Builder>, observed: set<string>) returns (found: seq<Finding>)
    ensures found == Unobserved(builders, observed, SortedKeys(builders.Keys))
  {
    var rest := builders.Keys;
    ghost var all := SortedKeys(rest);
    ghost var done: seq<string> := [];
    found := [];
    while rest != {}
      invariant rest <= builders.Keys
      invariant all == done + SortedKeys(rest)
      invariant found == Unobserved(builders, observed, done)
      decreases |rest|
    {
      LeastExists(rest);
      var d :| d in rest && forall q :: q in rest && q != d ==> Before(d, q);
      assert IsLeast(d, rest);
      OneKeyOn(all, done, rest, d);
      assert (done + [d])[..|done|] == done;
      if d !in observed {
        found := found + [Finding(CorruptReferenced, Leaf(A.PrefixOf(d), d), builders[d].owners)];
      }
      done := done + [d];
      rest := rest - {d};
    }
    assert all == done;
  }

  predicate ValidRoot(h: Hashes, r: Root) {
    && r.eventCount >= 1 && r.revision < r.eventCount
    && IsSha256(r.manifestSha256) && r.manifestSha256 == h.manifest(r.manifest) && IsSha256(r.head)
  }

  predicate ValidRoots(h: Hashes, roots: seq<Root>) {
    DistinctRuns(roots) && forall i :: 0 <= i < |roots| ==> ValidRoot(h, roots[i])
  }

  function AllDirectNodes(env: Env, roots: seq<Root>): seq<Node> {
    if roots == [] then []
    else AllDirectNodes(env, roots[..|roots| - 1]) + DirectNodes(env, roots[|roots| - 1].manifest)
  }

  const ROOT_LIMIT := Finding(LimitExceeded, Top, {})
  const ROOT_IDENTITY := Finding(ScanError, Top, {})

  /** The roots that are followed, and the state the worklist starts from. */
  function Followed(ordered: seq<Root>): seq<Root> {
    if |ordered| > MAX_ROOTS then ordered[..MAX_ROOTS] else ordered
  }

  function Start(ordered: seq<Root>): State {
    State(map[], map[], 0, if |ordered| > MAX_ROOTS then [ROOT_LIMIT] else [], map[], map[])
  }

  ghost function Traced(env: Env, ordered: seq<Root>): State {
    Crosschecked(Drained(env, Start(ordered), AllDirectNodes(env, Followed(ordered)), 0))
  }

  ghost function FindingsOf(env: Env, ordered: seq<Root>): seq<Finding> {
    var st := Traced(env, ordered);
    var scan := Inventoried(env, st.builders, Scan(st.findings, 0, st.used, {}));
    scan.findings + Unobserved(st.builders, scan.observed, SortedKeys(st.builders.Keys))
  }

  ghost function ReportOf(env: Env, snapshot: Option<string>, ordered: seq<Root>): Report {
    var findings, builders := FindingsOf(env, ordered), Traced(env, ordered).builders;
    Report(snapshot, builders, findings, Completes(findings),
           Completes(findings) && Blameless(findings) && AllVerified(builders))
  }

  method AuditArtifactStore(h: Hashes, env: Env, roots: seq<Root>, rootIsIntact: bool) returns (report: Option<Report>)
    requires env.taskMedia == TASK_MEDIA_TYPE && env.evaluationMedia == EVALUATION_MEDIA_TYPE
    ensures report == None <==> !ValidRoots(h, SortRoots(roots))
    ensures report.Some? && !rootIsIntact ==> !report.value.complete && !report.value.quarantineAllowed
    ensures report.Some? && rootIsIntact ==>
      report == Some(ReportOf(env, RootsDigest(h, SortRoots(roots)), SortRoots(roots)))
  {
    var ordered := SortRoots(roots);
    if !ValidRoots(h, ordered) {
      return None;
    }
    var snapshot := VerifiedRunRootsSha256(h, ordered);
    if !rootIsIntact {
      return Some(Report(snapshot, map[], [ROOT_IDENTITY], false, false));
    }
    var followed := Followed(ordered);
    var nodes: seq<Node> := [];
    var i := 0;
    while i < |followed|
      invariant 0 <= i <= |followed|
      invariant nodes == AllDirectNodes(env, followed[..i])
    {
      assert followed[..i + 1][..i] == followed[..i];
      nodes := nodes + DirectNodes(env, followed[i].manifest);
      i := i + 1;
    }
    assert followed[..i] == followed;
    var drained := Drain(env, Start(ordered), nodes);
    var traced := CrosscheckTaskEvaluations(drained);
    var scan := InventoryStore(env, traced.builders, Scan(traced.findings, 0, traced.used, {}));
    var unobserved := NoteUnobserved(traced.builders, scan.observed);
    var findings := scan.findings + unobserved;
    var complete := Completes(findings);
    return Some(Report(snapshot, traced.builders, findings, complete,
                       complete && Blameless(findings) && AllVerified(traced.builders)));
  }
}
