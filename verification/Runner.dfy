/** The fixture runner: publication before commitment, one call at a time, with the
    process failing or dying before, during or after any of them. */
module Runner {
  import opened Usage
  import opened Events
  import opened Replay
  import opened Ledger
  import opened Plans
  import opened EvaluationPlans
  import opened Commands
  import opened Publication
  import opened Progress
  import opened Fixtures
  import opened Endings
  import Text
  import Lifecycle
  import Store
  import Budget
  import Audit
  import AuditLaws

  /** What happens to the next call: it works, it raises without effect, or the
      process dies before or after its effect. */
  datatype Fate = Works | Raises | DiesBefore | DiesAfter

  class FixtureRunner {
    const x: Records
    const store: Store.EventStore
    const fate: nat -> Fate
    /** The byte strings that may be published. */
    ghost const contents: set<Bytes>
    var shelf: Shelf
    var step: nat

    /** Whatever is committed is published. */
    ghost predicate Valid()
      reads this, store
    {
      store.Valid() && Faithful(x, contents) && Shelved(x, contents, shelf) && Backed(x, shelf, store.db)
    }

    /** No call fails or dies, and no published entry is damaged. */
    ghost predicate Smooth()
      reads this`shelf
    {
      (forall n :: fate(n).Works?) && Intact(x, shelf)
    }

    /** A smooth run that has come to this stage of its calls. */
    ghost predicate On(m: RunManifest, s: Script, k: Stage)
      reads this`shelf, store
    {
      Smooth() && OnCourse(store.hashes.event, store.db, m, s, k)
    }

    /** The ledger is the expected one, the run can be ended, and the guard agrees both
        times it is asked. */
    ghost predicate Admitted(
        t: Tables, next: Tables, run: string, refusal: bool, finishedAt: int, expected: Option<string>, guard: Option<Store.Guard>)
    {
      var c := Terminalization(refusal, finishedAt);
      && Store.Proceeds(store.hashes, t, run, c, if refusal then REFUSED else RUNNER_EXCEPTION, expected, guard)
      && Store.GuardAllows(guard, 1, store.hashes, next)
    }

    constructor (x: Records, store: Store.EventStore, fate: nat -> Fate, shelf: Shelf, ghost contents: set<Bytes>)
      requires store.Valid() && Faithful(x, contents) && Shelved(x, contents, shelf) && Backed(x, shelf, store.db)
      ensures Valid() && this.x == x && this.store == store && this.fate == fate && this.contents == contents
      ensures this.shelf == shelf
    {
      this.x := x;
      this.store := store;
      this.fate := fate;
      this.contents := contents;
      this.shelf := shelf;
      step := 0;
    }

    method Next() returns (f: Fate)
      modifies this`step
      ensures f == fate(old(step))
    {
      f := fate(step);
      step := step + 1;
    }

    // -------------------------------------------------------------- publication

    method Put(bytes: Bytes, media: Media) returns (r: Did<ArtifactRef>)
      requires Valid() && bytes in contents
      modifies this`shelf, this`step
      ensures Valid() && Keeps(old(shelf), shelf)
      ensures shelf == old(shelf) || shelf == old(shelf)[x.hash(bytes) := bytes]
      ensures r.Done? ==> r.value == Ref(x, bytes, media) && Holds(x, shelf, r.value) && Stored(x, shelf, bytes)
      ensures old(Smooth()) ==> r.Done? && Smooth()
    {
      var f := Next();
      if f.Raises? {
        return Raised;
      }
      if f.DiesBefore? {
        return Dead;
      }
      var digest := x.hash(bytes);
      if digest !in shelf {
        OneMoreShelved(x, contents, shelf, bytes);
        BackedLater(x, shelf, shelf[digest := bytes], store.db);
        shelf := shelf[digest := bytes];
      } else if x.hash(shelf[digest]) != digest || |shelf[digest]| != |bytes| {
        if x.hash(shelf[digest]) == digest { SameDigestSameBytes(x, contents, shelf, bytes); }
        return Raised;
      } else {
        SameDigestSameBytes(x, contents, shelf, bytes);
      }
      if f.DiesAfter? {
        return Dead;
      }
      MediaIsText(media);
      StoredIsHeld(x, shelf, bytes, MediaType(media));
      return Done(Ref(x, bytes, media));
    }

    // ------------------------------------------------------------ ledger commands

    method Create(m: RunManifest, ghost s: Script) returns (r: Did<()>)
      requires Valid() && ValidManifest(m)
      modifies this`step, store
      ensures Valid() && (r.Done? ==> Has(store.db, m, map[])) && (r.Raised? ==> store.db == old(store.db))
      ensures old(Smooth() && CanCreate(store.db, m)) && Openable(m, s) ==> r.Done? && On(m, s, Made)
    {
      var f := Next();
      if f.Raises? || f.DiesBefore? {
        return Halted(f);
      }
      ghost var before := store.db;
      var done := store.CreateRun(m);
      if done.Ok? {
        CreatedKeepsBacked(store.hashes.event, x, shelf, before, store.db, m);
        CreationStands(store.hashes.event, before, store.db, m, s);
      }
      r := Ended(f, done.Ok?);
    }

    method Start(m: RunManifest, ghost had: map<Role, ArtifactRef>, ghost s: Script, startedAt: int) returns (r: Did<()>)
      requires Valid() && Has(store.db, m, had)
      modifies this`step, store
      ensures Valid() && (r.Done? ==> Has(store.db, m, had))
      ensures old(On(m, s, Made)) && startedAt == s.startedAt ==> r.Done? && On(m, s, Begun)
    {
      var f := Next();
      if f.Raises? || f.DiesBefore? {
        return Halted(f);
      }
      ghost var before := store.db;
      ghost var c := Command.Start(startedAt, m.identity.requestedModel);
      var done := store.StartRun(m.runId, startedAt, m.identity.requestedModel);
      CallSettles(store.hashes.event, x, shelf, before, store.db, m, had, s, Made, c, done.Ok?);
      r := Ended(f, done.Ok?);
    }

    method Record(m: RunManifest, ghost had: map<Role, ArtifactRef>, ghost s: Script, task: ArtifactRef) returns (r: Did<()>)
      requires Valid() && Has(store.db, m, had)
      requires HeldThrough(x, shelf, TaskSpec, task)
      modifies this`step, store
      ensures Valid() && (r.Done? ==> Has(store.db, m, had + map[TaskSpec := task]))
      ensures old(On(m, s, Begun)) && task == s.task ==> r.Done? && On(m, s, Tasked)
    {
      var f := Next();
      if f.Raises? || f.DiesBefore? {
        return Halted(f);
      }
      ghost var before := store.db;
      ghost var c := Command.Record(TaskSpec, task);
      var done := store.RecordArtifact(m.runId, TaskSpec, task);
      CallSettles(store.hashes.event, x, shelf, before, store.db, m, had, s, Begun, c, done.Ok?);
      r := Ended(f, done.Ok?);
    }

    method Request(
        m: RunManifest, ghost had: map<Role, ArtifactRef>, ghost s: Script, maximum: BudgetUsage, used: BudgetUsage,
        reserved: BudgetUsage)
      returns (r: Did<()>)
      requires Valid() && Has(store.db, m, had)
      modifies this`step, store
      ensures Valid() && (r.Done? ==> Has(store.db, m, had))
      ensures old(On(m, s, Tasked)) && Playable(m, s)
              && Command.Request(RESERVATION, maximum, used, reserved) == CallAt(m, s, Tasked) ==>
                r.Done? && On(m, s, Sent)
    {
      var f := Next();
      if f.Raises? || f.DiesBefore? {
        return Halted(f);
      }
      ghost var before := store.db;
      ghost var c := Command.Request(RESERVATION, maximum, used, reserved);
      var done := store.StartModelRequest(m.runId, RESERVATION, maximum, used, reserved);
      CallSettles(store.hashes.event, x, shelf, before, store.db, m, had, s, Tasked, c, done.Ok?);
      r := Ended(f, done.Ok?);
    }

    method Respond(m: RunManifest, ghost had: map<Role, ArtifactRef>, ghost s: Script, q: Response) returns (r: Did<()>)
      requires Valid() && Has(store.db, m, had)
      requires HeldThrough(x, shelf, Patch, q.patch)
      modifies this`step, store
      ensures Valid() && (r.Done? ==> Has(store.db, m, had + map[Patch := q.patch]))
      ensures old(On(m, s, Sent)) && Carried(m, s, Sent) && q == ResponseOf(s) ==> r.Done? && On(m, s, Replied)
    {
      var f := Next();
      if f.Raises? || f.DiesBefore? {
        return Halted(f);
      }
      ghost var before := store.db;
      var done := store.CompleteModelResponse(m.runId, q);
      CallSettles(store.hashes.event, x, shelf, before, store.db, m, had, s, Sent, Command.Respond(q), done.Ok?);
      r := Ended(f, done.Ok?);
    }

    method Complete(
        m: RunManifest, ghost had: map<Role, ArtifactRef>, ghost s: Script, q: EvaluationInput, ghost status: LocalStatus)
      returns (r: Did<()>)
      requires Valid() && Has(store.db, m, had)
      requires ManifestBacked(x, shelf, q.artifacts)
      modifies this`step, store
      ensures Valid() && (r.Done? ==> Has(store.db, m, had + q.artifacts) && store.db[m.runId].row.manifest.status == q.status)
      ensures r.Done? && VerdictOn(q, status) ==> VerdictStands(store.db, m.runId, status)
      ensures old(On(m, s, Replied)) && Playable(m, s) && q == s.input ==> r.Done?
    {
      var f := Next();
      if f.Raises? || f.DiesBefore? {
        return Halted(f);
      }
      ghost var before := store.db;
      var done := store.CompleteEvaluation(m.runId, q);
      VerdictSettles(store.hashes.event, x, shelf, before, store.db, m, had, s, q, done.Ok?, status);
      r := Ended(f, done.Ok?);
    }

    /** What exception recovery does to a created run: the guarded terminalization, on
        the ledger whose digest the fresh audit took. */
    method Terminalize(run: string, refusal: bool, finishedAt: int, expected: Option<string>, guard: Option<Store.Guard>)
      returns (r: Did<()>)
      requires Valid()
      modifies this`step, store
      ensures Valid() && CleanedUp(store.hashes.event, old(store.db), store.db, run, refusal, finishedAt, r.Done?)
      ensures (forall n :: fate(n).Works?) ==>
        !r.Dead? && (r.Done? <==> Admitted(old(store.db), store.tx, run, refusal, finishedAt, expected, guard))
    {
      var f := Next();
      if f.Raises? || f.DiesBefore? {
        return Halted(f);
      }
      ghost var before := store.db;
      var done: Store.Result<Store.TerminalResult>;
      if refusal {
        done := store.CompleteBudgetExhaustion(run, finishedAt, REFUSED, expected, guard);
      } else {
        done := store.RecoverRun(run, finishedAt, RUNNER_EXCEPTION, expected, guard);
      }
      TerminalizationSettles(store.hashes.event, x, shelf, before, store.db, run, refusal, finishedAt, done.Ok?);
      r := Ended(f, done.Ok?);
    }

    // ------------------------------------------------------------------- phases

    /** Publishes everything the task record names, before the record exists. */
    method MaterializeTask(fixture: Fixture, plan: RunPlan) returns (r: Did<Audit.TaskRecord>)
      requires Valid() && TaskContents(x, fixture, plan) <= contents
      modifies this`shelf, this`step
      ensures Valid() && Keeps(old(shelf), shelf)
      ensures r.Done? ==> r.value == TaskOf(x, fixture, plan) && AllHeld(x, shelf, TaskRefs(r.value))
      ensures old(Smooth()) && FrozenAgrees(x, fixture) ==> r.Done? && Smooth()
    {
      var snapshot := Put(fixture.snapshot, TreeMedia);
      if !snapshot.Done? {
        return Same(snapshot);
      }
      if fixture.frozenSnapshot.Some? && fixture.frozenSnapshot.value != snapshot.value.sha256 {
        return Raised;
      }
      ghost var shelf1 := shelf;
      var problem := Put(fixture.problem, TextMedia);
      if !problem.Done? {
        return Same(problem);
      }
      HoldsLater(x, shelf1, shelf, snapshot.value);
      ghost var shelf2 := shelf;
      var visible := PutAll(fixture.visible);
      if !visible.Done? {
        return Same(visible);
      }
      HoldsLater(x, shelf2, shelf, problem.value);
      HoldsLater(x, shelf2, shelf, snapshot.value);
      var task := Audit.TaskRecord(
        fixture.taskId, plan.environmentDigest, fixture.contentHash, Field.Text(plan.evaluatorVersion),
        problem.value, snapshot.value, visible.value);
      TaskRefsAreHeld(x, shelf, task);
      return Done(task);
    }

    method PutAll(files: seq<Bytes>) returns (r: Did<seq<ArtifactRef>>)
      requires Valid() && forall i :: 0 <= i < |files| ==> files[i] in contents
      modifies this`shelf, this`step
      ensures Valid() && Keeps(old(shelf), shelf)
      ensures r.Done? ==> r.value == RefsTo(x, files) && AllHeld(x, shelf, r.value)
      ensures old(Smooth()) ==> r.Done? && Smooth()
    {
      var refs: seq<ArtifactRef> := [];
      var i := 0;
      while i < |files|
        invariant 0 <= i <= |files| && refs == RefsTo(x, files[..i])
        invariant Valid() && Keeps(old(shelf), shelf) && AllHeld(x, shelf, refs)
        invariant old(Smooth()) ==> Smooth()
        modifies this`shelf, this`step
      {
        ghost var before := shelf;
        var file := Put(files[i], PythonMedia);
        if !file.Done? {
          return Same(file);
        }
        AllHeldLater(x, before, shelf, refs);
        RefsToOneMore(x, files, i);
        refs := refs + [file.value];
        i := i + 1;
      }
      assert files[..i] == files;
      return Done(refs);
    }

    /** Publishes the task and what it names, then the record itself. */
    method PublishTask(fixture: Fixture, plan: RunPlan) returns (r: Did<ArtifactRef>)
      requires Valid() && TaskContents(x, fixture, plan) <= contents
      modifies this`shelf, this`step
      ensures Valid() && Keeps(old(shelf), shelf)
      ensures r.Done? ==>
        && r.value == TaskRefOf(x, fixture, plan) && HeldThrough(x, shelf, TaskSpec, r.value)
        && TaskBound(x, shelf, r.value, TaskOf(x, fixture, plan))
      ensures old(Smooth()) && FrozenAgrees(x, fixture) ==> r.Done? && Smooth()
    {
      var task := MaterializeTask(fixture, plan);
      if !task.Done? {
        return Same(task);
      }
      ghost var before := shelf;
      r := Put(x.taskBytes(task.value), TaskMedia);
      if r.Done? {
        AllHeldLater(x, before, shelf, TaskRefs(task.value));
        TaskIsHeldThrough(x, contents, shelf, task.value, r.value);
      }
    }

    /** Creating the run, starting it and binding its published task. */
    method OpenRun(m: RunManifest, ghost s: Script, startedAt: int, task: ArtifactRef) returns (created: bool, r: Did<()>)
      requires Valid() && ValidManifest(m) && HeldThrough(x, shelf, TaskSpec, task)
      modifies this`step, store
      ensures Valid() && (r.Done? ==> created && Has(store.db, m, map[TaskSpec := task]))
      ensures !created ==> r.Dead? || store.db == old(store.db)
      ensures old(Smooth() && CanCreate(store.db, m)) && Openable(m, s) && startedAt == s.startedAt && task == s.task ==>
                r.Done? && On(m, s, Tasked)
    {
      created := false;
      r := Create(m, s);
      if !r.Done? {
        return;
      }
      created := true;
      r := Start(m, map[], s, startedAt);
      if !r.Done? {
        return;
      }
      r := Record(m, map[], s, task);
      assert map[] + map[TaskSpec := task] == map[TaskSpec := task];
    }

    /** Reserving the request's maximum, then recording that it is sent. */
    method Dispatch(
        m: RunManifest, authority: Budget.BudgetAuthority, maximum: BudgetUsage, ghost had: map<Role, ArtifactRef>, ghost s: Script)
      returns (refused: bool, r: Did<()>)
      requires Valid() && authority.Valid() && Has(store.db, m, had)
      requires authority.limits == m.identity.limits && authority.used == ZERO && authority.reservations == map[]
      modifies this`step, store, authority
      ensures Valid() && authority.Valid() && (r.Done? ==> Has(store.db, m, had))
      ensures r.Done? ==> authority.used == ZERO && authority.reservations == map[RESERVATION := maximum]
      ensures refused <==> !Budget.Covered(ZERO, map[RESERVATION := maximum], m.identity.limits)
      ensures refused ==> r.Raised? && store.db == old(store.db)
      ensures old(On(m, s, Tasked)) && Playable(m, s) && maximum == s.maximum && s.requestId == RESERVATION ==>
                r.Done? && On(m, s, Sent)
    {
      var reserved;
      refused, reserved := ReserveFirst(authority, maximum);
      if Playable(m, s) { PlayableIsCovered(m, s); }
      if refused {
        return refused, Raised;
      }
      r := Request(m, had, s, maximum, authority.used, reserved);
    }

    method BindAnswer(
        m: RunManifest, authority: Budget.BudgetAuthority, maximum: BudgetUsage, reply: Reply,
        ghost had: map<Role, ArtifactRef>, ghost s: Script)
      returns (r: Did<ArtifactRef>)
      requires Valid() && authority.Valid() && Has(store.db, m, had) && reply.patch in contents
      requires authority.used == ZERO && authority.reservations == map[RESERVATION := maximum]
      modifies this`shelf, this`step, store, authority
      ensures Valid() && authority.Valid() && Keeps(old(shelf), shelf)
      ensures r.Done? ==>
        && r.value == Ref(x, reply.patch, DiffMedia) && Holds(x, shelf, r.value)
        && Has(store.db, m, had + map[Patch := r.value])
        && authority.used == reply.usage && authority.reservations == map[]
      ensures old(On(m, s, Sent)) && Playable(m, s) && maximum == s.maximum && Gives(x, reply, s) ==> r.Done? && On(m, s, Replied)
    {
      r := Put(reply.patch, DiffMedia);
      if !r.Done? {
        return;
      }
      PlainIsHeldThrough(x, shelf, Patch, r.value);
      var charged, reserved := ReconcileOnly(authority, maximum, reply.usage);
      if !charged {
        return Raised;
      }
      var bound := Respond(m, had, s, Response(RESERVATION, reply.returnedModel, reply.usage, r.value, authority.used, reserved));
      if !bound.Done? {
        return Same(bound);
      }
    }

    /** Reserving, dispatching, publishing the answer's patch, reconciling and binding
        it, under a budget authority of this run's own. The model itself may raise, or
        the process die under it. */
    method AskModel(m: RunManifest, plan: RunPlan, ghost had: map<Role, ArtifactRef>, ghost s: Script)
      returns (refused: bool, r: Did<ArtifactRef>, used: BudgetUsage, reserved: BudgetUsage)
      requires Valid() && Has(store.db, m, had)
      requires plan.answer.Done? ==> plan.answer.value.patch in contents
      modifies this`shelf, this`step, store
      ensures Valid() && Keeps(old(shelf), shelf)
      ensures r.Done? ==>
        && plan.answer.Done? && r.value == Ref(x, plan.answer.value.patch, DiffMedia) && Holds(x, shelf, r.value)
        && Has(store.db, m, had + map[Patch := r.value])
        && used == plan.answer.value.usage && reserved == ZERO
      ensures refused <==> !Budget.Covered(ZERO, map[RESERVATION := plan.maximum], m.identity.limits)
      ensures refused ==> r.Raised? && shelf == old(shelf) && store.db == old(store.db)
      ensures old(On(m, s, Tasked)) && Playable(m, s) && plan.maximum == s.maximum && s.requestId == RESERVATION ==>
        && (plan.answer.Raised? ==> r.Raised? && On(m, s, Sent))
        && (plan.answer.Done? && Gives(x, plan.answer.value, s) ==> r.Done? && On(m, s, Replied))
    {
      used, reserved := ZERO, ZERO;
      var authority := new Budget.BudgetAuthority(m.identity.limits);
      var sent;
      refused, sent := Dispatch(m, authority, plan.maximum, had, s);
      if !sent.Done? {
        return refused, Same(sent), used, reserved;
      }
      if !plan.answer.Done? {
        return false, Same(plan.answer), used, reserved;
      }
      r := BindAnswer(m, authority, plan.maximum, plan.answer.value, had, s);
      refused := false;
      used := authority.used;
      reserved := authority.Reserved();
    }

    method PutOptional(bytes: Option<Bytes>) returns (r: Did<Option<ArtifactRef>>)
      requires Valid() && Given(bytes) <= contents
      modifies this`shelf, this`step
      ensures Valid() && Keeps(old(shelf), shelf)
      ensures r.Done? ==> r.value == OptionalRef(x, bytes) && (r.value.Some? ==> Holds(x, shelf, r.value.value))
      ensures old(Smooth()) ==> r.Done? && Smooth()
    {
      if bytes == None {
        return Done(None);
      }
      assert bytes.value in Given(bytes);
      var put := Put(bytes.value, BytesMedia);
      return if put.Done? then Done(Some(put.value)) else Same(put);
    }

    method PutStreams(local: LocalResult) returns (r: Did<Transcripts>)
      requires Valid() && {local.stdout, local.stderr} <= contents
      modifies this`shelf, this`step
      ensures Valid() && Keeps(old(shelf), shelf)
      ensures r.Done? ==>
        && r.value == Transcripts(Ref(x, local.stdout, TextMedia), Ref(x, local.stderr, TextMedia), None, None)
        && AllHeld(x, shelf, EvidenceOf(r.value))
      ensures old(Smooth()) ==> r.Done? && Smooth()
    {
      assert local.stdout in {local.stdout, local.stderr} && local.stderr in {local.stdout, local.stderr};
      var stdout := Put(local.stdout, TextMedia);
      if !stdout.Done? {
        return Same(stdout);
      }
      ghost var before := shelf;
      var stderr := Put(local.stderr, TextMedia);
      if !stderr.Done? {
        return Same(stderr);
      }
      AllHeldLater(x, before, shelf, [stdout.value]);
      return Done(Transcripts(stdout.value, stderr.value, None, None));
    }

    /** Publishes the transcripts, in the order the evidence lists them. */
    method PutEvidence(local: LocalResult) returns (r: Did<Transcripts>)
      requires Valid() && {local.stdout, local.stderr} + Given(local.candidate) + Given(local.scorer) <= contents
      modifies this`shelf, this`step
      ensures Valid() && Keeps(old(shelf), shelf)
      ensures r.Done? ==> r.value == TranscriptsOf(x, local) && AllHeld(x, shelf, EvidenceOf(r.value))
      ensures old(Smooth()) ==> r.Done? && Smooth()
    {
      var streams := PutStreams(local);
      if !streams.Done? {
        return streams;
      }
      ghost var shelf1 := shelf;
      var candidate := PutOptional(local.candidate);
      if !candidate.Done? {
        return Same(candidate);
      }
      AllHeldLater(x, shelf1, shelf, EvidenceOf(streams.value));
      ghost var shelf2 := shelf;
      var scorer := PutOptional(local.scorer);
      if !scorer.Done? {
        return Same(scorer);
      }
      WithCandidate(x, shelf2, streams.value, candidate.value);
      var three := streams.value.(candidate := candidate.value);
      AllHeldLater(x, shelf2, shelf, EvidenceOf(three));
      WithScorer(x, shelf, three, scorer.value);
      return Done(streams.value.(candidate := candidate.value, scorer := scorer.value));
    }

    /** Publishes the evaluation record, which names only what is published already. */
    method PutEvaluation(e: Audit.EvaluationRecord) returns (r: Did<ArtifactRef>)
      requires Valid() && AllHeld(x, shelf, e.evidence) && x.evaluationBytes(e) in contents
      modifies this`shelf, this`step
      ensures Valid() && Keeps(old(shelf), shelf)
      ensures r.Done? ==>
        && r.value == Ref(x, x.evaluationBytes(e), EvaluationMedia)
        && HeldThrough(x, shelf, Evaluation, r.value) && x.readEvaluation(shelf[r.value.sha256]) == Some(e)
      ensures old(Smooth()) ==> r.Done? && Smooth()
    {
      ghost var before := shelf;
      r := Put(x.evaluationBytes(e), EvaluationMedia);
      if r.Done? {
        AllHeldLater(x, before, shelf, e.evidence);
        EvaluationIsHeldThrough(x, contents, shelf, e, r.value);
      }
    }

    /** Publishes everything the verdict rests on, and then its record. */
    method PutVerdict(
        runId: string, task: Audit.TaskRecord, patch: ArtifactRef, local: LocalResult, evaluatorVersion: string)
      returns (r: Did<Published>)
      requires Valid() && VerdictContents(x, runId, task, patch, local, evaluatorVersion) <= contents
      modifies this`shelf, this`step
      ensures Valid() && Keeps(old(shelf), shelf)
      ensures r.Done? ==>
        r.value == PublishedOf(x, runId, task, patch, local, evaluatorVersion) && PublishedIn(x, shelf, r.value)
      ensures old(Smooth()) ==> r.Done? && Smooth()
    {
      var evidence := PutEvidence(local);
      if !evidence.Done? {
        return Same(evidence);
      }
      var e := Audit.EvaluationRecord(
        runId, TerminalStatus(local.status), patch.sha256, task.contentHash, evaluatorVersion, EvidenceOf(evidence.value));
      ghost var before := shelf;
      var record := PutEvaluation(e);
      if !record.Done? {
        return Same(record);
      }
      AllHeldLater(x, before, shelf, e.evidence);
      var published := Published(evidence.value, e, record.value);
      PublishedIsBacked(x, shelf, published);
      return Done(published);
    }

    /** Commits a published verdict with the run's terminal status. */
    method CommitVerdict(
        m: RunManifest, ghost task: Audit.TaskRecord, published: Published, local: LocalResult, finishedAt: int,
        used: BudgetUsage, reserved: BudgetUsage, ghost had: map<Role, ArtifactRef>, ghost s: Script)
      returns (r: Did<()>)
      requires Valid() && Has(store.db, m, had) && had.Keys == {TaskSpec, Patch} && PublishedIn(x, shelf, published)
      requires published.record.runId == m.runId && published.record.runStatus == TerminalStatus(local.status)
      requires published.record.patchHash == had[Patch].sha256 && published.record.taskHash == task.contentHash
      modifies this`step, store
      ensures Valid()
      ensures r.Done? ==>
        Concluded(x, shelf, store.db, m, had[TaskSpec], task, published.record) && VerdictStands(store.db, m.runId, local.status)
      ensures old(On(m, s, Replied)) && Playable(m, s) && s.input == VerdictInput(published, local, finishedAt, used, reserved) ==>
                r.Done?
    {
      var q := VerdictInput(published, local, finishedAt, used, reserved);
      VerdictInputIsOn(published, local, finishedAt, used, reserved, q);
      r := Complete(m, had, s, q, local.status);
      if r.Done? {
        CommittedVerdictAgrees(x, shelf, m, store.db[m.runId].row.manifest, had, task, published);
      }
    }

    /** The evaluator runs on the published patch, after its bytes are verified. */
    method VerifyPatch(patch: ArtifactRef) returns (r: Did<()>)
      requires Valid()
      modifies this`step
      ensures Valid() && (r.Done? ==> Holds(x, shelf, patch))
      ensures Smooth() && Holds(x, shelf, patch) ==> r.Done?
    {
      var f := Next();
      if f.Raises? || f.DiesBefore? {
        return Halted(f);
      }
      r := Ended(f, Holds(x, shelf, patch));
    }

    /** Verifying the patch, evaluating it, and publishing the verdict. */
    method PrepareVerdict(
        runId: string, task: Audit.TaskRecord, patch: ArtifactRef, result: Did<LocalResult>, evaluatorVersion: string)
      returns (r: Did<Published>)
      requires Valid()
      requires result.Done? ==> VerdictContents(x, runId, task, patch, result.value, evaluatorVersion) <= contents
      modifies this`shelf, this`step
      ensures Valid() && Keeps(old(shelf), shelf)
      ensures r.Done? ==>
        && result.Done? && r.value == PublishedOf(x, runId, task, patch, result.value, evaluatorVersion)
        && PublishedIn(x, shelf, r.value)
      ensures old(Smooth() && Holds(x, shelf, patch)) && !result.Dead? ==> Smooth() && (if result.Done? then r.Done? else r.Raised?)
    {
      var verified := VerifyPatch(patch);
      if !verified.Done? {
        return Same(verified);
      }
      if !result.Done? {
        return Same(result);
      }
      r := PutVerdict(runId, task, patch, result.value, evaluatorVersion);
    }

    /** From the answer's patch to the committed verdict. */
    method Evaluate(
        m: RunManifest, task: Audit.TaskRecord, patch: ArtifactRef, plan: RunPlan, used: BudgetUsage, reserved: BudgetUsage,
        ghost had: map<Role, ArtifactRef>, ghost s: Script)
      returns (r: Did<Audit.EvaluationRecord>)
      requires Valid() && Has(store.db, m, had) && had.Keys == {TaskSpec, Patch} && had[Patch] == patch
      requires plan.result.Done? ==>
        VerdictContents(x, m.runId, task, patch, plan.result.value, plan.evaluatorVersion) <= contents
      modifies this`shelf, this`step, store
      ensures Valid() && Keeps(old(shelf), shelf)
      ensures r.Done? ==>
        && plan.result.Done? && r.value == VerdictOf(x, m.runId, task, patch, plan.result.value, plan.evaluatorVersion)
        && Concluded(x, shelf, store.db, m, had[TaskSpec], task, r.value)
        && VerdictStands(store.db, m.runId, plan.result.value.status)
      ensures old(On(m, s, Replied) && Holds(x, shelf, patch)) ==>
        && (plan.result.Raised? ==> r.Raised? && On(m, s, Replied))
        && (plan.result.Done? && Playable(m, s) && Judges(x, m.runId, task, patch, plan, used, reserved, s) ==> r.Done?)
    {
      var published := PrepareVerdict(m.runId, task, patch, plan.result, plan.evaluatorVersion);
      if !published.Done? {
        return Same(published);
      }
      var committed := CommitVerdict(m, task, published.value, plan.result.value, plan.finishedAt, used, reserved, had, s);
      if !committed.Done? {
        return Same(committed);
      }
      return Done(published.value.record);
    }

    /** From the bound task to the committed verdict. */
    method Proceed(m: RunManifest, fixture: Fixture, plan: RunPlan, ghost s: Script)
      returns (refused: bool, r: Did<Audit.EvaluationRecord>)
      requires Valid() && Has(store.db, m, map[TaskSpec := TaskRefOf(x, fixture, plan)])
      requires RunContents(x, fixture, m.runId, plan) <= contents
      modifies this`shelf, this`step, store
      ensures Valid() && Keeps(old(shelf), shelf)
      ensures r.Done? ==>
        && plan.answer.Done? && plan.result.Done? && r.value == RunVerdict(x, fixture, m.runId, plan)
        && Concluded(x, shelf, store.db, m, TaskRefOf(x, fixture, plan), TaskOf(x, fixture, plan), r.value)
        && VerdictStands(store.db, m.runId, plan.result.value.status)
      ensures refused <==> !Budget.Covered(ZERO, map[RESERVATION := plan.maximum], m.identity.limits)
      ensures refused ==> r.Raised? && shelf == old(shelf) && store.db == old(store.db)
      ensures old(On(m, s, Tasked)) && Playable(m, s) && plan.maximum == s.maximum && s.requestId == RESERVATION ==>
        && (plan.answer.Raised? ==> r.Raised? && On(m, s, Sent))
        && (plan.answer.Done? && Gives(x, plan.answer.value, s) && plan.result.Raised? ==> r.Raised? && On(m, s, Replied))
        && (plan.answer.Done? && plan.result.Done? && Performs(x, fixture, m.runId, plan, s) ==> r.Done?)
    {
      ghost var had := map[TaskSpec := TaskRefOf(x, fixture, plan)];
      RunContentsCover(x, fixture, m.runId, plan, contents);
      var patch, used, reserved;
      refused, patch, used, reserved := AskModel(m, plan, had, s);
      if !patch.Done? {
        return refused, Same(patch);
      }
      r := Evaluate(m, TaskOf(x, fixture, plan), patch.value, plan, used, reserved, had + map[Patch := patch.value], s);
    }

    /** Everything between the published task and the committed verdict. Without a
        failing call it gets as far as its inputs let it. */
    method Attempt(m: RunManifest, fixture: Fixture, plan: RunPlan)
      returns (created: bool, refused: bool, r: Did<Audit.EvaluationRecord>)
      requires Valid() && ValidManifest(m) && HeldThrough(x, shelf, TaskSpec, TaskRefOf(x, fixture, plan))
      requires RunContents(x, fixture, m.runId, plan) <= contents
      modifies this`shelf, this`step, store
      ensures Valid() && Keeps(old(shelf), shelf)
      ensures r.Done? ==>
        && plan.answer.Done? && plan.result.Done? && r.value == RunVerdict(x, fixture, m.runId, plan)
        && Concluded(x, shelf, store.db, m, TaskRefOf(x, fixture, plan), TaskOf(x, fixture, plan), r.value)
        && VerdictStands(store.db, m.runId, plan.result.value.status)
      ensures !created ==> r.Dead? || store.db == old(store.db)
      ensures r.Done? ==> created
      ensures refused ==> created && r.Raised? && !Budget.Covered(ZERO, map[RESERVATION := plan.maximum], m.identity.limits)
      ensures old(Smooth() && CanCreate(store.db, m)) ==>
        && (StopsUnsent(m, plan) ==> refused && StoppedAt(store.db, m.runId, NotStarted))
        && (StopsUnanswered(m, plan) ==> created && r.Raised? && !refused && StoppedAt(store.db, m.runId, Started))
        && (StopsUnjudged(m, plan) ==> created && r.Raised? && !refused && StoppedAt(store.db, m.runId, Completed))
        && (Workable(m, plan) ==> r.Done?)
    {
      ghost var s := CallsOf(x, contents, fixture, m, plan);
      refused := false;
      var began;
      created, began := OpenRun(m, s, plan.startedAt, TaskRefOf(x, fixture, plan));
      if !began.Done? {
        return created, false, Same(began);
      }
      refused, r := Proceed(m, fixture, plan, s);
      Stops(m, s);
      if Playable(m, s) { PlayableIsCovered(m, s); }
    }

    /** Where the run stands, in the ledger's terms. */
    lemma Stops(m: RunManifest, s: Script)
      ensures On(m, s, Tasked) ==> StoppedAt(store.db, m.runId, NotStarted)
      ensures On(m, s, Sent) ==> StoppedAt(store.db, m.runId, Started)
      ensures On(m, s, Replied) ==> StoppedAt(store.db, m.runId, Completed)
    {
      if On(m, s, Tasked) { CourseStops(store.hashes.event, store.db, m, s, Tasked); }
      if On(m, s, Sent) { CourseStops(store.hashes.event, store.db, m, s, Sent); }
      if On(m, s, Replied) { CourseStops(store.hashes.event, store.db, m, s, Replied); }
    }

    /** The attempt, and what becomes of a run that it leaves unfinished. */
    method Conduct(m: RunManifest, fixture: Fixture, plan: RunPlan) returns (end: RunEnd, ghost left: Tables)
      requires Valid() && ValidManifest(m) && HeldThrough(x, shelf, TaskSpec, TaskRefOf(x, fixture, plan))
      requires TaskBound(x, shelf, TaskRefOf(x, fixture, plan), TaskOf(x, fixture, plan))
      requires m.identity.taskId == fixture.taskId && m.identity.environmentDigest == plan.environmentDigest
      requires !Text.Blank(plan.evaluatorVersion) && RunContents(x, fixture, m.runId, plan) <= contents
      modifies this`shelf, this`step, store
      ensures Valid() && Keeps(old(shelf), shelf)
      ensures end.Finished? ==> FinishedWell(x, shelf, store.db, m.runId, fixture, plan, end.task, end.evaluation)
      ensures end.GaveUp? && !end.created ==> !end.refused && !end.terminalized && store.db == old(store.db)
      ensures end.GaveUp? && end.created ==>
        CleanedUp(store.hashes.event, left, store.db, m.runId, end.refused, plan.recoveredAt, end.terminalized)
      ensures end.GaveUp? && end.created && (forall n :: fate(n).Works?) ==>
        (end.terminalized <==> Admitted(left, store.tx, m.runId, end.refused, plan.recoveredAt, plan.expected, plan.guard))
      ensures end.GaveUp? && end.refused ==> !Budget.Covered(ZERO, map[RESERVATION := plan.maximum], m.identity.limits)
      ensures old(Smooth() && CanCreate(store.db, m)) ==> EndsFor(m, plan, end, left)
    {
      var created, refused, verdict := Attempt(m, fixture, plan);
      left := store.db;
      if verdict.Dead? {
        return Killed, left;
      }
      if verdict.Raised? {
        if refused || created {
          var ended := Terminalize(m.runId, refused, plan.recoveredAt, plan.expected, plan.guard);
          return if ended.Dead? then Killed else GaveUp(true, refused, ended.Done?), left;
        }
        return GaveUp(false, false, false), left;
      }
      VerdictFinishes(x, shelf, store.db, m, fixture, plan, verdict.value);
      return Finished(TaskOf(x, fixture, plan), verdict.value), left;
    }

    /** One run of the fixture, which may fail or die at any of its calls. Whatever it
        has committed when it ends is published, and a run it completes binds a task and
        an evaluation that agree in everything the audit compares. When nothing fails it
        ends as its inputs say, workable ones with the verdict's status. A run it gives up
        is, from the ledger it left, terminalized for what stopped it; if nothing was
        created nothing has changed. */
    method Run(fixture: Fixture, runId: string, template: RunIdentity, plan: RunPlan)
      returns (end: RunEnd, ghost left: Tables)
      requires Valid() && !Text.Blank(plan.evaluatorVersion) && RunContents(x, fixture, runId, plan) <= contents
      modifies this`shelf, this`step, store
      ensures Valid() && Keeps(old(shelf), shelf)
      ensures end.Finished? ==>
        && plan.answer.Done? && plan.result.Done? && end.task == TaskOf(x, fixture, plan)
        && end.evaluation == RunVerdict(x, fixture, runId, plan)
        && runId in store.db && FullyEvidenced(x, shelf, store.db[runId].row.manifest, end.task, end.evaluation)
        && VerdictStands(store.db, runId, plan.result.value.status)
      ensures end.GaveUp? && !end.created ==> !end.refused && !end.terminalized && store.db == old(store.db)
      ensures end.GaveUp? && end.created ==>
        CleanedUp(store.hashes.event, left, store.db, runId, end.refused, plan.recoveredAt, end.terminalized)
      ensures end.GaveUp? && end.created && (forall n :: fate(n).Works?) ==>
        (end.terminalized <==> Admitted(left, store.tx, runId, end.refused, plan.recoveredAt, plan.expected, plan.guard))
      ensures end.GaveUp? && end.refused ==> !Budget.Covered(ZERO, map[RESERVATION := plan.maximum], template.limits)
      ensures var m := ManifestOf(fixture, runId, template, plan);
        old(Smooth() && CanCreate(store.db, m)) && FrozenAgrees(x, fixture) ==> EndsFor(m, plan, end, left)
    {
      left := store.db;
      RunContentsCover(x, fixture, runId, plan, contents);
      var task := PublishTask(fixture, plan);
      if !task.Done? {
        return if task.Dead? then Killed else GaveUp(false, false, false), left;
      }
      var m := ManifestOf(fixture, runId, template, plan);
      if !ValidManifest(m) {
        return GaveUp(false, false, false), left;
      }
      end, left := Conduct(m, fixture, plan);
    }
  }

  /** A finished run: the records are those of its inputs, everything they name is
      published, they agree in all the audit compares, and the verdict is stored. */
  ghost predicate FinishedWell(
      x: Records, shelf: Shelf, t: Tables, run: string, fixture: Fixture, plan: RunPlan, task: Audit.TaskRecord,
      e: Audit.EvaluationRecord)
  {
    && plan.answer.Done? && plan.result.Done? && task == TaskOf(x, fixture, plan) && e == RunVerdict(x, fixture, run, plan)
    && run in t && FullyEvidenced(x, shelf, t[run].row.manifest, task, e)
    && VerdictStands(t, run, plan.result.value.status)
  }

  lemma VerdictFinishes(
      x: Records, shelf: Shelf, t: Tables, m: RunManifest, fixture: Fixture, plan: RunPlan, e: Audit.EvaluationRecord)
    requires plan.answer.Done? && plan.result.Done? && e == RunVerdict(x, fixture, m.runId, plan)
    requires Concluded(x, shelf, t, m, TaskRefOf(x, fixture, plan), TaskOf(x, fixture, plan), e)
    requires TaskBound(x, shelf, TaskRefOf(x, fixture, plan), TaskOf(x, fixture, plan)) && !Text.Blank(plan.evaluatorVersion)
    requires m.identity.taskId == fixture.taskId && m.identity.environmentDigest == plan.environmentDigest
    requires VerdictStands(t, m.runId, plan.result.value.status)
    ensures FinishedWell(x, shelf, t, m.runId, fixture, plan, TaskOf(x, fixture, plan), e)
  {
    ConcludedIsEvidenced(x, shelf, t, m, TaskRefOf(x, fixture, plan), TaskOf(x, fixture, plan), e, plan.evaluatorVersion);
  }

  /** How a run without a failing call ends, from its inputs: over its budget it stops with
      its request unsent, with a model that raises unanswered, with an evaluator that
      raises unjudged, and with workable inputs it finishes. */
  ghost predicate EndsFor(m: RunManifest, plan: RunPlan, end: RunEnd, left: Tables) {
    && (StopsUnsent(m, plan) ==> end.GaveUp? && end.created && end.refused && StoppedAt(left, m.runId, NotStarted))
    && (StopsUnanswered(m, plan) ==> end.GaveUp? && end.created && !end.refused && StoppedAt(left, m.runId, Started))
    && (StopsUnjudged(m, plan) ==> end.GaveUp? && end.created && !end.refused && StoppedAt(left, m.runId, Completed))
    && (Workable(m, plan) ==> end.Finished?)
  }

  /** How a run ends: committed; given up, whether or not it had been created, its
      reservation refused, and its terminalization carried out; or with the process. */
  datatype RunEnd =
    | Finished(task: Audit.TaskRecord, evaluation: Audit.EvaluationRecord)
    | GaveUp(created: bool, refused: bool, terminalized: bool)
    | Killed

  /** Reserving on an authority that has charged and reserved nothing: with a nonempty
      identifier, only the limits can refuse it. */
  method ReserveFirst(authority: Budget.BudgetAuthority, maximum: BudgetUsage) returns (refused: bool, reserved: BudgetUsage)
    requires authority.Valid() && authority.reservations == map[]
    modifies authority
    ensures authority.Valid() && authority.used == old(authority.used)
    ensures refused <==> !Budget.Covered(authority.used, map[RESERVATION := maximum], authority.limits)
    ensures !refused ==> authority.reservations == map[RESERVATION := maximum] && reserved == maximum
  {
    assert map[][RESERVATION := maximum] == map[RESERVATION := maximum];
    Budget.AffordingCovers(authority.used, authority.reservations, RESERVATION, maximum, authority.limits);
    var refusal := authority.Reserve(RESERVATION, maximum);
    refused, reserved := refusal.Some?, ZERO;
    if !refused {
      reserved := authority.Reserved();
      Budget.HeldAlone(RESERVATION, maximum);
    }
  }

  /** Reconciling the only reservation. */
  method ReconcileOnly(authority: Budget.BudgetAuthority, maximum: BudgetUsage, actual: BudgetUsage)
    returns (charged: bool, reserved: BudgetUsage)
    requires authority.Valid() && authority.used == ZERO && authority.reservations == map[RESERVATION := maximum]
    modifies authority
    ensures authority.Valid() && (charged <==> AtMost(actual, maximum))
    ensures charged ==> authority.used == actual && authority.reservations == map[] && reserved == ZERO
  {
    var refusal := authority.Reconcile(RESERVATION, actual);
    NothingAdded(actual);
    reserved := authority.Reserved();
    charged := refusal == None;
  }

  /** A call that never ran. */
  function Halted<T>(f: Fate): Did<T> {
    if f.Raises? then Raised else Dead
  }

  /** A call that ran, if the process lived to see it return. */
  function Ended(f: Fate, ok: bool): Did<()> {
    if f.DiesAfter? then Dead else if ok then Done(()) else Raised
  }

  /** How a call that did not return is passed on. */
  function Same<T, U>(d: Did<T>): Did<U>
    requires !d.Done?
  {
    if d.Raised? then Raised else Dead
  }
}
