/** The trusted scorer: reading a candidate's response, judging it case by case
    against the sealed oracle, and the record it prints. */
module Scorer {
  import opened Usage
  import opened Text
  import opened Json
  import opened Wire
  import opened Names
  import opened Bundles

  const CANDIDATE_PREFIX := "GUILDMIND_CANDIDATE_RESPONSE="
  const RESULT_PREFIX := "GUILDMIND_EVALUATION_RESULT="
  const RESPONSE_SCHEMA := Str("guildmind.python-call-response/v1")
  const COMPLETION_SCHEMA := Str("guildmind.evaluator-completion/v2")
  const RAISED := Str("raised")
  const PASSED := Str("passed")
  const CANDIDATE_FAILED := Str("candidate_failed")
  const EVALUATOR_ERROR := Str("evaluator_error")

  // ------------------------------------------------------------- plain equality

  predicate IsNumber(j: Json) {
    j.Bool? || j.Int? || j.Float?
  }

  function NumberValue(value: string -> real, j: Json): real
    requires IsNumber(j)
  {
    match j
    case Bool(b) => if b then 1.0 else 0.0
    case Int(i) => i as real
    case Float(text) => value(text)
  }

  /** The run-time's own equality, which does not tell 1, 1.0 and true apart. */
  predicate LooselyEqual(value: string -> real, a: Json, b: Json)
    decreases a
  {
    if IsNumber(a) && IsNumber(b) then NumberValue(value, a) == NumberValue(value, b)
    else if a.Arr? && b.Arr? then
      |a.items| == |b.items| && forall i :: 0 <= i < |a.items| ==> LooselyEqual(value, a.items[i], b.items[i])
    else if a.Obj? && b.Obj? then
      a.fields.Keys == b.fields.Keys
      && forall k :: k in a.fields ==> k in b.fields && LooselyEqual(value, a.fields[k], b.fields[k])
    else a == b
  }

  lemma {:induction false} LooselyEqualToItself(value: string -> real, j: Json)
    ensures LooselyEqual(value, j, j)
    decreases j
  {
    if j.Arr? {
      forall i | 0 <= i < |j.items| ensures LooselyEqual(value, j.items[i], j.items[i]) {
        LooselyEqualToItself(value, j.items[i]);
      }
    } else if j.Obj? {
      forall k | k in j.fields ensures LooselyEqual(value, j.fields[k], j.fields[k]) {
        LooselyEqualToItself(value, j.fields[k]);
      }
    }
  }

  // ----------------------------------------------------------------- one case

  datatype Verdict = Right | Wrong | BadCandidate | BadTrusted

  const RAISED_FIELDS := {CaseId, ErrorType, Kind}
  const RETURNED_FIELDS := {CaseId, Kind, Value}

  predicate TrustedCase(value: string -> real, challenge: Json, oracle: Json) {
    && challenge.Obj? && HasExactly(challenge.fields, CHALLENGE_FIELDS)
    && oracle.Obj? && HasExactly(oracle.fields, CASE_FIELDS)
    && LooselyEqual(value, ChallengeCase(oracle.fields), challenge)
    && Acceptable(At(challenge.fields, Args), 0) && Acceptable(At(challenge.fields, Kwargs), 0)
  }

  /** Comparing a returned value with the expected outcome. */
  function JudgeReturned(expected: Json, result: map<string, Json>): Verdict {
    if !IsOutcome(expected) || !Acceptable(At(expected.fields, Value), 0) then BadTrusted
    else if !Acceptable(At(result, Value), 0) then BadCandidate
    else if Canonical(true, At(result, Value)) == Canonical(true, At(expected.fields, Value)) then Right
    else Wrong
  }

  function JudgeCase(value: string -> real, challenge: Json, oracle: Json, result: Json): Verdict {
    if !TrustedCase(value, challenge, oracle) then BadTrusted
    else if !result.Obj? || !LooselyEqual(value, At(result.fields, CaseId), At(challenge.fields, CaseId)) then BadCandidate
    else if At(result.fields, Kind) == RAISED then
      if HasExactly(result.fields, RAISED_FIELDS) && At(result.fields, ErrorType).Str? then Wrong else BadCandidate
    else if At(result.fields, Kind) != RETURNED || !HasExactly(result.fields, RETURNED_FIELDS) then BadCandidate
    else JudgeReturned(At(oracle.fields, Field.Expected), result.fields)
  }

  // ------------------------------------------------------------------ all cases

  /** What the scorer found: counts, a faulty response, or a fault of its own. */
  datatype Outcome = Scored(testsRun: nat, failures: nat) | CandidateFault | EvaluatorFault

  function Verdicts(value: string -> real, cs: seq<Json>, os: seq<Json>, rs: seq<Json>): seq<Verdict>
    requires |cs| == |os| == |rs|
  {
    seq(|rs|, i requires 0 <= i < |rs| => JudgeCase(value, cs[i], os[i], rs[i]))
  }

  /** The outcome from case i on, with the failures found before it. */
  function Tally(vs: seq<Verdict>, i: nat, failures: nat): Outcome
    requires i <= |vs|
    decreases |vs| - i
  {
    if i == |vs| then Scored(|vs|, failures)
    else
      match vs[i]
      case BadTrusted => EvaluatorFault
      case BadCandidate => CandidateFault
      case Right => Tally(vs, i + 1, failures)
      case Wrong => Tally(vs, i + 1, failures + 1)
  }

  predicate TrustedHeads(challenge: Json, oracle: Json) {
    && challenge.Obj? && HasExactly(challenge.fields, {Cases, Entrypoint, Field.Protocol, SchemaVersion})
    && At(challenge.fields, SchemaVersion) == CHALLENGE_SCHEMA && At(challenge.fields, Field.Protocol) == PROTOCOL
    && oracle.Obj? && HasExactly(oracle.fields, {Cases, SchemaVersion})
    && At(oracle.fields, SchemaVersion) == ORACLE_SCHEMA
  }

  predicate ResponseHead(response: map<string, Json>, challengeSha256: string) {
    && HasExactly(response, {ChallengeSha256, Results, SchemaVersion})
    && At(response, SchemaVersion) == RESPONSE_SCHEMA && At(response, ChallengeSha256) == Str(challengeSha256)
  }

  predicate TrustedCounts(challenge: Json, oracle: Json, expectedTests: nat)
    requires challenge.Obj? && oracle.Obj?
  {
    var cs, os := At(challenge.fields, Cases), At(oracle.fields, Cases);
    cs.Arr? && os.Arr? && |cs.items| == expectedTests && |os.items| == expectedTests
  }

  function Validated(
      value: string -> real, challenge: Json, oracle: Json, response: map<string, Json>, challengeSha256: string,
      expectedTests: nat): Outcome
  {
    if !TrustedHeads(challenge, oracle) then EvaluatorFault
    else if !ResponseHead(response, challengeSha256) then CandidateFault
    else if !TrustedCounts(challenge, oracle, expectedTests) then EvaluatorFault
    else
      var rs := At(response, Results);
      if !rs.Arr? || |rs.items| != expectedTests then CandidateFault
      else Tally(Verdicts(value, At(challenge.fields, Cases).items, At(oracle.fields, Cases).items, rs.items), 0, 0)
  }

  method ValidateProtocol(
      value: string -> real, challenge: Json, oracle: Json, response: map<string, Json>, challengeSha256: string,
      expectedTests: nat) returns (o: Outcome)
    ensures o == Validated(value, challenge, oracle, response, challengeSha256, expectedTests)
  {
    if !TrustedHeads(challenge, oracle) {
      return EvaluatorFault;
    }
    if !ResponseHead(response, challengeSha256) {
      return CandidateFault;
    }
    if !TrustedCounts(challenge, oracle, expectedTests) {
      return EvaluatorFault;
    }
    var rs := At(response, Results);
    if !rs.Arr? || |rs.items| != expectedTests {
      return CandidateFault;
    }
    o := JudgeAll(value, At(challenge.fields, Cases).items, At(oracle.fields, Cases).items, rs.items);
  }

  /** One turn of the loop: the outcome a faulty case ends it with, or the failures
      to go on with. */
  method Judge(
      value: string -> real, cs: seq<Json>, os: seq<Json>, rs: seq<Json>, i: nat, failures: nat, ghost vs: seq<Verdict>)
    returns (end: Option<Outcome>, next: nat)
    requires |cs| == |os| == |rs| && i < |rs| && vs == Verdicts(value, cs, os, rs)
    ensures Tally(vs, i, failures) == if end.Some? then end.value else Tally(vs, i + 1, next)
  {
    end, next := None, failures;
    var v := JudgeCase(value, cs[i], os[i], rs[i]);
    assert vs[i] == v;
    match v {
      case BadTrusted => end := Some(EvaluatorFault);
      case BadCandidate => end := Some(CandidateFault);
      case Right =>
      case Wrong => next := failures + 1;
    }
  }

  /** The loop over the cases, counting failures. */
  method JudgeAll(value: string -> real, cs: seq<Json>, os: seq<Json>, rs: seq<Json>) returns (o: Outcome)
    requires |cs| == |os| == |rs|
    ensures o == Tally(Verdicts(value, cs, os, rs), 0, 0)
  {
    ghost var vs := Verdicts(value, cs, os, rs);
    ghost var judged := Tally(vs, 0, 0);
    var failures: nat := 0;
    var i := 0;
    while i < |rs|
      invariant 0 <= i <= |rs| == |vs| && judged == Tally(vs, i, failures)
    {
      var end;
      end, failures := Judge(value, cs, os, rs, i, failures, vs);
      if end.Some? {
        return end.value;
      }
      i := i + 1;
    }
    return Scored(|rs|, failures);
  }

  // ----------------------------------------------------------------- the record

  /** The control plane's binding, as the scorer is told it. */
  datatype Binding = Binding(
    taskId: string, patchSha256: string, challengeSha256: string, responseSha256: string, oracleSha256: string,
    imageDigest: string, expectedTests: int, evaluatorVersion: string, limitsSha256: string, sourceSha256: string,
    taskContentHash: string)

  function BindingRecord(b: Binding): Record {
    map[ChallengeSha256 := Str(b.challengeSha256), EvaluatorVersion := Str(b.evaluatorVersion),
        ExpectedTests := Int(b.expectedTests), ImageDigest := Str(b.imageDigest), LimitsSha256 := Str(b.limitsSha256),
        OracleSha256 := Str(b.oracleSha256), PatchSha256 := Str(b.patchSha256), Field.Protocol := PROTOCOL,
        ResponseSha256 := Str(b.responseSha256), SourceSha256 := Str(b.sourceSha256),
        TaskContentHash := Str(b.taskContentHash), TaskId := Str(b.taskId)]
  }

  function BindingJson(b: Binding): Json {
    Obj(Render(BindingRecord(b)))
  }

  function ScorerBindingHash(c: Codec, b: Binding): string {
    c.sha256(c.encode(Canonical(true, BindingJson(b))))
  }

  function BasePayload(b: Binding, bindingHash: string): Record {
    BindingRecord(b) + map[BindingSha256 := Str(bindingHash), SchemaVersion := COMPLETION_SCHEMA]
  }

  function Counts(classification: Json, errors: nat, failures: nat, successful: bool, testsRun: nat): Record {
    map[Classification := classification, Errors := Int(errors), Failures := Int(failures), Skipped := Int(0),
        Successful := Bool(successful), TestsRun := Int(testsRun)]
  }

  /** What is printed for an outcome; the text is the fault's message. */
  function Payload(c: Codec, b: Binding, o: Outcome, text: string): Record {
    BasePayload(b, ScorerBindingHash(c, b))
    + match o
      case Scored(run, failures) =>
        Counts(if failures == 0 then PASSED else CANDIDATE_FAILED, 0, failures, failures == 0, run)
      case CandidateFault => Counts(CANDIDATE_FAILED, 0, if b.expectedTests > 0 then b.expectedTests else 0, false, 0)[Message := Str(text)]
      case EvaluatorFault => Counts(EVALUATOR_ERROR, 1, 0, false, 0)[Field.Error := Str(text)]
  }

  function ExitCode(o: Outcome): int {
    match o
    case Scored(_, failures) => if failures == 0 then 0 else 1
    case CandidateFault => 1
    case EvaluatorFault => 2
  }

  function EmittedLine(c: Codec, b: Binding, o: Outcome, text: string): Bytes {
    RESULT_PREFIX + c.encode(Canonical(true, Obj(Render(Payload(c, b, o, text)))))
  }

  // ------------------------------------------------------------------- the run

  /** The environment is complete, and the files are the ones it declares. */
  predicate Declared(c: Codec, b: Binding, challenge: Bytes, oracle: Bytes, response: Bytes) {
    && b.taskId != "" && b.patchSha256 != "" && b.challengeSha256 != "" && b.responseSha256 != "" && b.oracleSha256 != ""
    && b.imageDigest != "" && b.evaluatorVersion != "" && b.limitsSha256 != "" && b.sourceSha256 != ""
    && b.taskContentHash != "" && b.expectedTests > 0
    && c.sha256(challenge) == b.challengeSha256 && c.sha256(oracle) == b.oracleSha256
    && c.sha256(response) == b.responseSha256
  }

  /** The response record, if the candidate's output ends in exactly one. */
  function CandidateResponse(c: Codec, data: Bytes): Option<map<string, Json>> {
    if !c.utf8(data) then None
    else
      match FinalRecord(CANDIDATE_PREFIX, SplitLines(data))
      case None => None
      case Some(record) =>
        match c.loads(record)
        case Some(Obj(fields)) => Some(fields)
        case _ => None
  }

  function Score(c: Codec, b: Binding, challenge: Bytes, oracle: Bytes, response: Bytes): Outcome {
    if !Declared(c, b, challenge, oracle, response) then EvaluatorFault
    else
      var ch, or := c.loads(challenge), c.loads(oracle);
      if ch == None || or == None then EvaluatorFault
      else
        match CandidateResponse(c, response)
        case None => CandidateFault
        case Some(fields) => Validated(c.value, ch.value, or.value, fields, b.challengeSha256, b.expectedTests)
  }

  // ------------------------------------------------------------- the environment

  /** What the integer conversion makes of the declared count, and whether the text is
      decimal digits only, which excludes a sign and spaces. */
  datatype Count = Count(parsed: Option<int>, decimal: bool)

  /** The declared variables, by the field of the record each fills. */
  datatype Environment = Environment(variables: map<Field, string>, count: Option<Count>)

  const NAMES := {TaskId, PatchSha256, ChallengeSha256, ResponseSha256, OracleSha256, ImageDigest, EvaluatorVersion,
                  LimitsSha256, SourceSha256, TaskContentHash}
  const UNKNOWN := "unknown"

  /** Every name is declared and not empty, and the count is positive. */
  predicate Complete(env: Environment) {
    && (forall f :: f in NAMES ==> f in env.variables && env.variables[f] != "")
    && env.count.Some? && env.count.value.parsed.Some? && env.count.value.parsed.value > 0
  }

  function Named(env: Environment, f: Field): string {
    if f in env.variables then env.variables[f] else UNKNOWN
  }

  function BindingIn(env: Environment, expectedTests: int): Binding {
    Binding(
      Named(env, TaskId), Named(env, PatchSha256), Named(env, ChallengeSha256), Named(env, ResponseSha256),
      Named(env, OracleSha256), Named(env, ImageDigest), expectedTests, Named(env, EvaluatorVersion),
      Named(env, LimitsSha256), Named(env, SourceSha256), Named(env, TaskContentHash))
  }

  /** The binding as the scorer is told it. */
  function Told(env: Environment): Binding
    requires Complete(env)
  {
    BindingIn(env, env.count.value.parsed.value)
  }

  /** The binding as a fault is reported: placeholders for missing names, and no tests
      unless the count is plain digits. */
  function Fallback(env: Environment): Binding {
    BindingIn(
      env, if env.count.Some? && env.count.value.decimal && env.count.value.parsed.Some? then env.count.value.parsed.value else 0)
  }

  function ScoreIn(c: Codec, env: Environment, challenge: Bytes, oracle: Bytes, response: Bytes): Outcome {
    if Complete(env) then Score(c, Told(env), challenge, oracle, response) else EvaluatorFault
  }

  /** The binding an outcome is reported under. */
  function Reported(env: Environment, o: Outcome): Binding {
    if Complete(env) && !o.EvaluatorFault? then Told(env) else Fallback(env)
  }

  /** A fault in a complete environment is reported under the declared binding exactly
      when the count is plain digits. */
  lemma FallbacksAreDeclared(env: Environment)
    requires Complete(env)
    ensures Fallback(env) == Told(env) <==> env.count.value.decimal
  {}

  method Run(c: Codec, env: Environment, challenge: Bytes, oracle: Bytes, response: Bytes, text: string)
    returns (o: Outcome, line: Bytes, exitCode: int)
    ensures o == ScoreIn(c, env, challenge, oracle, response)
    ensures line == EmittedLine(c, Reported(env, o), o, text) && exitCode == ExitCode(o)
  {
    o := EvaluatorFault;
    if Complete(env) && Declared(c, Told(env), challenge, oracle, response) {
      var ch, or := c.loads(challenge), c.loads(oracle);
      if ch.Some? && or.Some? {
        var b, fields := Told(env), CandidateResponse(c, response);
        if fields == None {
          o := CandidateFault;
        } else {
          o := ValidateProtocol(c.value, ch.value, or.value, fields.value, b.challengeSha256, b.expectedTests);
        }
      }
    }
    line := EmittedLine(c, Reported(env, o), o, text);
    exitCode := ExitCode(o);
  }
}
