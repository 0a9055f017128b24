/** What output, whatever printed it, the host takes for a verdict. */
module Vouching {
  import opened Usage
  import opened Text
  import opened Json
  import opened Names
  import opened Wire
  import opened Bundles
  import opened Scorer
  import opened VerdictLaws
  import opened Host
  import opened RecordLaws

  const RECORD_FIELDS := {
    SchemaVersion, Field.Protocol, TaskId, TaskContentHash, SourceSha256, PatchSha256, ChallengeSha256, OracleSha256,
    ResponseSha256, ImageDigest, LimitsSha256, Field.EvaluatorVersion, BindingSha256, ExpectedTests, Classification,
    Successful, TestsRun, Failures, Errors, Skipped}

  /** What a completion record for this evaluation says of it. */
  function Wanted(b: Binding, hash: string, f: Field): Option<Json> {
    match f
    case SchemaVersion => Some(Str("guildmind.evaluator-completion/v2"))
    case Protocol => Some(Str("python-call-v1"))
    case TaskId => Some(Str(b.taskId))
    case TaskContentHash => Some(Str(b.taskContentHash))
    case SourceSha256 => Some(Str(b.sourceSha256))
    case PatchSha256 => Some(Str(b.patchSha256))
    case ChallengeSha256 => Some(Str(b.challengeSha256))
    case OracleSha256 => Some(Str(b.oracleSha256))
    case ResponseSha256 => Some(Str(b.responseSha256))
    case ImageDigest => Some(Str(b.imageDigest))
    case LimitsSha256 => Some(Str(b.limitsSha256))
    case EvaluatorVersion => Some(Str(b.evaluatorVersion))
    case BindingSha256 => Some(Str(hash))
    case ExpectedTests => Some(Int(b.expectedTests))
    case _ => None
  }

  /** The object is a completion record for this evaluation and no other. */
  ghost predicate IsFor(c: Codec, b: Binding, raw: map<string, Json>) {
    forall f :: Wanted(b, HostBindingHash(c, b), f).Some? ==> Some(At(raw, f)) == Wanted(b, HostBindingHash(c, b), f)
  }

  predicate IsCount(j: Json, low: int, high: int) {
    j.Int? && low <= j.i <= high
  }

  predicate ReportsPassed(b: Binding, raw: map<string, Json>) {
    && HasExactly(raw, RECORD_FIELDS) && At(raw, Classification) == Str("passed") && At(raw, Successful) == Bool(true)
    && At(raw, TestsRun) == Int(b.expectedTests) && At(raw, Failures) == Int(0) && At(raw, Errors) == Int(0)
    && At(raw, Skipped) == Int(0) && b.expectedTests >= 0
  }

  predicate ReportsFailed(b: Binding, raw: map<string, Json>) {
    && HasExactly(raw, RECORD_FIELDS + (if Name(Message) in raw then {Message} else {}))
    && At(raw, Classification) == Str("candidate_failed") && At(raw, Successful) == Bool(false)
    && (At(raw, TestsRun) == Int(0) || At(raw, TestsRun) == Int(b.expectedTests))
    && IsCount(At(raw, Failures), 1, b.expectedTests) && At(raw, Errors) == Int(0) && At(raw, Skipped) == Int(0)
    && (At(raw, Message) == Null || (At(raw, Message).Str? && !Blank(At(raw, Message).s)))
  }

  predicate ReportsFault(b: Binding, raw: map<string, Json>) {
    && HasExactly(raw, RECORD_FIELDS + {Field.Error})
    && At(raw, Classification) == Str("evaluator_error") && At(raw, Successful) == Bool(false)
    && At(raw, TestsRun) == Int(0) && At(raw, Failures) == Int(0) && At(raw, Skipped) == Int(0)
    && At(raw, Errors).Int? && 0 < At(raw, Errors).i && b.expectedTests >= 0
    && At(raw, Field.Error).Str? && !Blank(At(raw, Field.Error).s)
  }

  // ------------------------------------------------------------- field by field

  lemma BindingSays(b: Binding, f: Field)
    requires f != SchemaVersion && f != BindingSha256
    ensures Wanted(b, "", f) == if f in BindingRecord(b) then Some(BindingRecord(b)[f]) else None
  {
    match f
    case Protocol =>
    case TaskId =>
    case TaskContentHash =>
    case SourceSha256 =>
    case PatchSha256 =>
    case ChallengeSha256 =>
    case OracleSha256 =>
    case ResponseSha256 =>
    case ImageDigest =>
    case LimitsSha256 =>
    case EvaluatorVersion =>
    case ExpectedTests =>
    case _ =>
  }

  lemma PayloadSays(b: Binding, hash: string, f: Field)
    ensures Wanted(b, hash, f) == if f in BasePayload(b, hash) then Some(BasePayload(b, hash)[f]) else None
  {
    var head := BindingRecord(b);
    ExtendedRecord(head, Str(hash), COMPLETION_SCHEMA, f);
    if f != SchemaVersion && f != BindingSha256 {
      BindingSays(b, f);
      assert Wanted(b, "", f) == Wanted(b, hash, f);
    }
  }

  lemma ExtendedRecord(head: Record, hash: Json, schema: Json, f: Field)
    ensures var r := head + map[BindingSha256 := hash, SchemaVersion := schema];
            && (f in r <==> f in head || f == BindingSha256 || f == SchemaVersion)
            && (f in r ==> r[f] == if f == SchemaVersion then schema else if f == BindingSha256 then hash else head[f])
  {}

  /** Comparing a member with a text, or a number with a number, is comparing for equality. */
  lemma BoundField(value: string -> real, found: Json, wanted: Json)
    requires wanted.Str? || (wanted.Int? && found.Int?)
    ensures LooselyEqual(value, found, wanted) <==> found == wanted
  {}

  lemma WantedIsScalar(b: Binding, hash: string, f: Field)
    ensures Wanted(b, hash, f).Some? && f != ExpectedTests ==> Wanted(b, hash, f).value.Str?
    ensures Wanted(b, hash, ExpectedTests) == Some(Int(b.expectedTests))
  {}

  /** What one field of the expected record asks of an object. */
  lemma FieldIsBound(value: string -> real, b: Binding, hash: string, raw: map<string, Json>, f: Field, expected: Record)
    requires At(raw, ExpectedTests).Int? && expected == BasePayload(b, hash)
    ensures f in expected <==> Wanted(b, hash, f).Some?
    ensures f in expected ==>
      (LooselyEqual(value, At(raw, f), expected[f]) <==> Some(At(raw, f)) == Wanted(b, hash, f))
  {
    PayloadSays(b, hash, f);
    WantedIsScalar(b, hash, f);
    if f in expected { BoundField(value, At(raw, f), expected[f]); }
  }

  lemma BoundMeans(c: Codec, b: Binding, raw: map<string, Json>)
    requires At(raw, ExpectedTests).Int?
    ensures Bound(c, b, raw) <==> IsFor(c, b, raw)
  {
    var hash := HostBindingHash(c, b);
    var expected := BasePayload(b, hash);
    if Bound(c, b, raw) {
      forall f | Wanted(b, hash, f).Some? ensures Some(At(raw, f)) == Wanted(b, hash, f) {
        FieldIsBound(c.value, b, hash, raw, f, expected);
      }
    }
    if IsFor(c, b, raw) {
      forall f | f in expected ensures LooselyEqual(c.value, At(raw, f), expected[f]) {
        FieldIsBound(c.value, b, hash, raw, f, expected);
      }
    }
  }

  // ------------------------------------------------------------------- verdicts

  predicate Reports(b: Binding, raw: map<string, Json>) {
    ReportsPassed(b, raw) || ReportsFailed(b, raw) || ReportsFault(b, raw)
  }

  /** What a record's classification asks of the rest of it. */
  predicate Tallies(b: Binding, raw: map<string, Json>) {
    HasExactly(raw, AllowedFields(raw)) && NaturalCounts(raw) && Consistent(raw, b.expectedTests)
  }

  lemma LabelsAreDistinct()
    ensures PASSED == Str("passed") && CANDIDATE_FAILED == Str("candidate_failed") && EVALUATOR_ERROR == Str("evaluator_error")
    ensures PASSED != CANDIDATE_FAILED && PASSED != EVALUATOR_ERROR && CANDIDATE_FAILED != EVALUATOR_ERROR
  {
    assert "passed"[0] == 'p' && "candidate_failed"[0] == 'c' && "evaluator_error"[0] == 'e';
  }

  lemma FieldsAreBase()
    ensures RECORD_FIELDS == BASE_FIELDS
  {}

  lemma TalliesMean(b: Binding, raw: map<string, Json>)
    requires At(raw, ExpectedTests) == Int(b.expectedTests)
    ensures Tallies(b, raw) <==> Reports(b, raw)
  {
    FieldsAreBase();
    LabelsAreDistinct();
    if At(raw, Classification) == PASSED {
      assert AllowedFields(raw) == BASE_FIELDS;
    } else if At(raw, Classification) == CANDIDATE_FAILED {
      assert AllowedFields(raw) == BASE_FIELDS + (if Name(Message) in raw then {Message} else {});
    } else if At(raw, Classification) == EVALUATOR_ERROR {
      assert AllowedFields(raw) == BASE_FIELDS + {Field.Error};
    }
  }

  lemma ExpectedIsWanted(c: Codec, b: Binding, raw: map<string, Json>)
    requires IsFor(c, b, raw)
    ensures At(raw, ExpectedTests) == Int(b.expectedTests)
  {
    assert Wanted(b, HostBindingHash(c, b), ExpectedTests) == Some(Int(b.expectedTests));
  }

  lemma ValidIsBoundAndTallied(c: Codec, b: Binding, raw: map<string, Json>)
    ensures ValidCompletion(c, b, raw) <==> Bound(c, b, raw) && Tallies(b, raw)
    ensures Tallies(b, raw) ==> At(raw, ExpectedTests).Int?
  {}

  /** The host accepts exactly the records for its own evaluation whose counts and flags
      tell one story. */
  lemma ValidCompletionMeans(c: Codec, b: Binding, raw: map<string, Json>)
    ensures ValidCompletion(c, b, raw) <==> IsFor(c, b, raw) && Reports(b, raw)
  {
    ValidIsBoundAndTallied(c, b, raw);
    if At(raw, ExpectedTests).Int? { BoundMeans(c, b, raw); }
    if IsFor(c, b, raw) {
      ExpectedIsWanted(c, b, raw);
      TalliesMean(b, raw);
    }
  }

  /** The output is text whose one marked line, with nothing but blank lines behind it,
      holds this object. */
  ghost predicate Presents(c: Codec, stdout: Bytes, raw: map<string, Json>) {
    && c.utf8(stdout)
    && exists noise, record, rest ::
         EndsWithRecord("GUILDMIND_EVALUATION_RESULT=", SplitLines(stdout), noise, record, rest) && c.loads(record) == Some(Obj(raw))
  }

  predicate Read(c: Codec, stdout: Bytes, raw: map<string, Json>) {
    && c.utf8(stdout) && FinalRecord(RESULT_PREFIX, SplitLines(stdout)).Some?
    && c.loads(FinalRecord(RESULT_PREFIX, SplitLines(stdout)).value) == Some(Obj(raw))
  }

  lemma ReadMeans(c: Codec, stdout: Bytes, raw: map<string, Json>)
    ensures Read(c, stdout, raw) <==> Presents(c, stdout, raw)
  {
    var lines := SplitLines(stdout);
    assert !IsSpace(RESULT_PREFIX[0]);
    if Read(c, stdout, raw) { FinalRecordMeans(RESULT_PREFIX, lines, FinalRecord(RESULT_PREFIX, lines).value); }
    if Presents(c, stdout, raw) {
      var noise, record, rest :| EndsWithRecord(RESULT_PREFIX, lines, noise, record, rest) && c.loads(record) == Some(Obj(raw));
      FinalRecordMeans(RESULT_PREFIX, lines, record);
    }
  }

  lemma UnreadIsNotExtracted(c: Codec, b: Binding, stdout: Bytes)
    requires forall raw :: !Read(c, stdout, raw)
    ensures ExtractCompletion(c, b, stdout).completion == None
  {
    if c.utf8(stdout) && FinalRecord(RESULT_PREFIX, SplitLines(stdout)).Some? {
      var found := c.loads(FinalRecord(RESULT_PREFIX, SplitLines(stdout)).value);
      if found.Some? && found.value.Obj? { assert Read(c, stdout, found.value.fields); }
    }
  }

  lemma ReadIsExtracted(c: Codec, b: Binding, stdout: Bytes, raw: map<string, Json>)
    requires Read(c, stdout, raw)
    ensures ExtractCompletion(c, b, stdout).completion == if ValidCompletion(c, b, raw) then Some(raw) else None
  {
    var lines := SplitLines(stdout);
    ExtractionShape(c, b, stdout, lines, FinalRecord(RESULT_PREFIX, lines).value, raw);
  }

  /** The output presents a record for this very evaluation. */
  ghost predicate Vouches(c: Codec, b: Binding, stdout: Bytes, raw: map<string, Json>) {
    Presents(c, stdout, raw) && IsFor(c, b, raw)
  }

  lemma ExtractedMeans(c: Codec, b: Binding, stdout: Bytes, raw: map<string, Json>)
    ensures ExtractCompletion(c, b, stdout).completion == Some(raw) <==> Vouches(c, b, stdout, raw) && Reports(b, raw)
  {
    if found :| Read(c, stdout, found) {
      ReadIsExtracted(c, b, stdout, found);
    } else {
      UnreadIsNotExtracted(c, b, stdout);
    }
    ReadMeans(c, stdout, raw);
    ValidCompletionMeans(c, b, raw);
  }

  lemma TrustedMeans(b: Binding, sandbox: SandboxStatus, exitCode: int, completion: Option<map<string, Json>>)
    requires completion.Some? ==> Reports(b, completion.value)
    ensures var status := TrustedStatus(sandbox, exitCode, completion);
            && (status == StatusPassed <==>
                  sandbox == Exited && exitCode == 0 && completion.Some? && ReportsPassed(b, completion.value))
            && (status == TestsFailed <==>
                  sandbox == Exited && exitCode == 1 && completion.Some? && ReportsFailed(b, completion.value))
  {
    LabelsAreDistinct();
  }

  lemma PassedOrFailedReports(b: Binding, raw: map<string, Json>)
    ensures ReportsPassed(b, raw) || ReportsFailed(b, raw) ==> Reports(b, raw)
  {}

  /** A candidate passes, or fails its tests, only by a scorer that exited as it says and
      whose whole output presents one record for this very evaluation that says so; whatever
      else is printed or happens is an infrastructure error. */
  lemma StatusIsVouchedFor(c: Codec, b: Binding, sandbox: SandboxStatus, exitCode: int, stdout: Bytes)
    ensures var status := TrustedStatus(sandbox, exitCode, ExtractCompletion(c, b, stdout).completion);
            && (status == StatusPassed <==>
                  sandbox == Exited && exitCode == 0 && exists raw :: Vouches(c, b, stdout, raw) && ReportsPassed(b, raw))
            && (status == TestsFailed <==>
                  sandbox == Exited && exitCode == 1 && exists raw :: Vouches(c, b, stdout, raw) && ReportsFailed(b, raw))
  {
    var completion := ExtractCompletion(c, b, stdout).completion;
    if completion.Some? { ExtractedMeans(c, b, stdout, completion.value); }
    TrustedMeans(b, sandbox, exitCode, completion);
    forall raw ensures completion == Some(raw) <==> Vouches(c, b, stdout, raw) && Reports(b, raw)
               ensures ReportsPassed(b, raw) || ReportsFailed(b, raw) ==> Reports(b, raw)
    {
      ExtractedMeans(c, b, stdout, raw);
      PassedOrFailedReports(b, raw);
    }
  }
}
