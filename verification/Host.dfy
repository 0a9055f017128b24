/** The host's side of a scored evaluation: finding the scorer's record in its
    output, validating it against the binding, and the status it grants. */
module Host {
  import opened Usage
  import opened Text
  import opened Json
  import opened Wire
  import opened Names
  import opened Bundles
  import opened Scorer

  datatype SandboxStatus = Exited | TimedOut | OutputExhausted | OomKilled | SandboxFault

  datatype Status = StatusPassed | TestsFailed | InfrastructureError

  function HostBindingHash(c: Codec, b: Binding): string {
    c.sha256(c.encode(Canonical(false, BindingJson(b))))
  }

  const BASE_FIELDS := {ChallengeSha256, Classification, EvaluatorVersion, Errors, BindingSha256, ExpectedTests, Failures,
                        ImageDigest, LimitsSha256, OracleSha256, PatchSha256, Field.Protocol, ResponseSha256, SchemaVersion,
                        Skipped, Successful, SourceSha256, TaskContentHash, TaskId, TestsRun}

  function AllowedFields(raw: map<string, Json>): set<Field> {
    BASE_FIELDS
    + (if At(raw, Classification) == CANDIDATE_FAILED && Name(Message) in raw then {Message} else {})
    + (if At(raw, Classification) == EVALUATOR_ERROR then {Field.Error} else {})
  }

  predicate Bound(c: Codec, b: Binding, raw: map<string, Json>) {
    var expected := BasePayload(b, HostBindingHash(c, b));
    forall f :: f in expected ==> LooselyEqual(c.value, At(raw, f), expected[f])
  }

  predicate Natural(j: Json) {
    j.Int? && j.i >= 0
  }

  predicate NaturalCounts(raw: map<string, Json>) {
    && Natural(At(raw, Errors)) && Natural(At(raw, ExpectedTests)) && Natural(At(raw, Failures))
    && Natural(At(raw, Skipped)) && Natural(At(raw, TestsRun))
  }

  /** The counts and the verdict flag fit the classification. */
  predicate Consistent(raw: map<string, Json>, expectedTests: int)
    requires NaturalCounts(raw)
  {
    var errors, failures, run := At(raw, Errors).i, At(raw, Failures).i, At(raw, TestsRun).i;
    var message, error := At(raw, Message), At(raw, Field.Error);
    && At(raw, Skipped).i == 0 && run <= expectedTests && failures <= expectedTests && At(raw, Successful).Bool?
    && if At(raw, Classification) == PASSED then
         At(raw, Successful).b && run == expectedTests && failures == 0 && errors == 0
       else if At(raw, Classification) == CANDIDATE_FAILED then
         !At(raw, Successful).b && failures > 0 && errors == 0 && (run == 0 || run == expectedTests)
         && (message == Null || (message.Str? && !Blank(message.s)))
       else
         At(raw, Classification) == EVALUATOR_ERROR && !At(raw, Successful).b && error.Str? && !Blank(error.s)
         && errors > 0 && failures == 0 && run == 0
  }

  predicate ValidCompletion(c: Codec, b: Binding, raw: map<string, Json>) {
    HasExactly(raw, AllowedFields(raw)) && Bound(c, b, raw) && NaturalCounts(raw) && Consistent(raw, b.expectedTests)
  }

  /** The validated record and the output without it. */
  datatype Extracted = Extracted(completion: Option<map<string, Json>>, cleanStdout: Bytes)

  function ExtractCompletion(c: Codec, b: Binding, stdout: Bytes): Extracted {
    if !c.utf8(stdout) then Extracted(None, "")
    else
      var lines := SplitLines(stdout);
      var clean := JoinLines(Unmarked(RESULT_PREFIX, lines));
      match FinalRecord(RESULT_PREFIX, lines)
      case None => Extracted(None, clean)
      case Some(encoded) =>
        match c.loads(encoded)
        case Some(Obj(raw)) => Extracted(if ValidCompletion(c, b, raw) then Some(raw) else None, clean)
        case _ => Extracted(None, clean)
  }

  function TrustedStatus(sandbox: SandboxStatus, exitCode: int, completion: Option<map<string, Json>>): Status {
    if sandbox != Exited || completion == None then InfrastructureError
    else
      var classification, successful := At(completion.value, Classification), At(completion.value, Successful);
      if exitCode == 0 && classification == PASSED && successful == Bool(true) then StatusPassed
      else if exitCode == 1 && classification == CANDIDATE_FAILED && successful == Bool(false) then TestsFailed
      else InfrastructureError
  }

  /** The variables the host declares to the scorer. */
  function EnvironmentOf(b: Binding): Environment {
    Environment(
      map[TaskId := b.taskId, PatchSha256 := b.patchSha256, ChallengeSha256 := b.challengeSha256,
          ResponseSha256 := b.responseSha256, OracleSha256 := b.oracleSha256, ImageDigest := b.imageDigest,
          EvaluatorVersion := b.evaluatorVersion, LimitsSha256 := b.limitsSha256, SourceSha256 := b.sourceSha256,
          TaskContentHash := b.taskContentHash],
      Some(Count(Some(b.expectedTests), b.expectedTests >= 0)))
  }

  lemma DeclaredBinding(b: Binding)
    ensures BindingIn(EnvironmentOf(b), b.expectedTests) == b && NAMES <= EnvironmentOf(b).variables.Keys
  {}

  /** What the host declares is what the scorer scores and reports under: the line it
      prints is the one for the binding, a fault included. */
  lemma DeclaredBindingIsReported(c: Codec, b: Binding, challenge: Bytes, oracle: Bytes, response: Bytes)
    requires b.expectedTests >= 0
    ensures ScoreIn(c, EnvironmentOf(b), challenge, oracle, response) == Score(c, b, challenge, oracle, response)
    ensures forall o :: Reported(EnvironmentOf(b), o) == b
  {
    DeclaredBinding(b);
  }

  /** The status of an evaluation whose scorer printed these lines before its record. */
  function ScoredStatus(c: Codec, b: Binding, bundle: Bundle, response: Bytes, noise: seq<Bytes>, text: string): Status {
    var o := Score(c, b, bundle.challengeBytes, bundle.oracleBytes, response);
    TrustedStatus(Exited, ExitCode(o), ExtractCompletion(c, b, ScorerOutput(c, b, o, noise, text)).completion)
  }

  function ScorerOutput(c: Codec, b: Binding, o: Outcome, noise: seq<Bytes>, text: string): Bytes {
    JoinLines(noise + [EmittedLine(c, b, o, text), ""])
  }
}
