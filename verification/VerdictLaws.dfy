/** What a reported verdict means, and that a sound record is never lost. */
module VerdictLaws {
  import opened Usage
  import opened Text
  import opened Json
  import opened JsonLaws
  import opened JsonText
  import opened Wire
  import opened Names
  import opened Bundles
  import opened Scorer
  import opened Host

  // -------------------------------------------------------------------- counting

  function WrongFrom(vs: seq<Verdict>, i: nat): set<nat> {
    set k: nat | i <= k < |vs| && vs[k] == Wrong
  }

  predicate Clean(vs: seq<Verdict>, i: nat) {
    forall k :: i <= k < |vs| ==> vs[k] == Right || vs[k] == Wrong
  }

  lemma FirstWrong(vs: seq<Verdict>, i: nat)
    requires i < |vs|
    ensures |WrongFrom(vs, i)| == |WrongFrom(vs, i + 1)| + if vs[i] == Wrong then 1 else 0
  {
    if vs[i] == Wrong {
      assert WrongFrom(vs, i) == WrongFrom(vs, i + 1) + {i};
    } else {
      assert WrongFrom(vs, i) == WrongFrom(vs, i + 1);
    }
  }

  /** A response is scored exactly when no case is faulty, and then the failure count
      is the number of cases that raised or returned another value. */
  lemma {:induction false} FailureCountIsExact(vs: seq<Verdict>, i: nat, failures: nat)
    requires i <= |vs|
    ensures Tally(vs, i, failures).Scored? <==> Clean(vs, i)
    ensures Clean(vs, i) ==> Tally(vs, i, failures) == Scored(|vs|, failures + |WrongFrom(vs, i)|)
    decreases |vs| - i
  {
    if i == |vs| {
      assert WrongFrom(vs, i) == {};
    } else {
      FirstWrong(vs, i);
      FailureCountIsExact(vs, i + 1, failures + if vs[i] == Wrong then 1 else 0);
      assert Clean(vs, i) <==> (vs[i] == Right || vs[i] == Wrong) && Clean(vs, i + 1);
    }
  }

  predicate AllRight(vs: seq<Verdict>) {
    forall k :: 0 <= k < |vs| ==> vs[k] == Right
  }

  lemma NoFailuresMeansAllRight(vs: seq<Verdict>)
    ensures Tally(vs, 0, 0) == Scored(|vs|, 0) <==> AllRight(vs)
  {
    FailureCountIsExact(vs, 0, 0);
    if AllRight(vs) {
      assert WrongFrom(vs, 0) == {};
    } else if Clean(vs, 0) {
      var k :| 0 <= k < |vs| && vs[k] != Right;
      assert k in WrongFrom(vs, 0);
    }
  }

  lemma {:induction false} NoTrustedFault(vs: seq<Verdict>, i: nat, failures: nat)
    requires i <= |vs| && forall k :: 0 <= k < |vs| ==> vs[k] != BadTrusted
    ensures Tally(vs, i, failures) != EvaluatorFault
    decreases |vs| - i
  {
    if i < |vs| {
      NoTrustedFault(vs, i + 1, failures + if vs[i] == Wrong then 1 else 0);
    }
  }

  // -------------------------------------------------------------------- one case

  function AnswerRecord(oracle: map<string, Json>): Record {
    var expected := At(oracle, Field.Expected);
    map[CaseId := At(oracle, CaseId), Kind := RETURNED,
        Value := if expected.Obj? then At(expected.fields, Value) else Null]
  }

  /** The only result that is right for a case: its identifier and its value. */
  function Answer(oracle: map<string, Json>): Json {
    Obj(Render(AnswerRecord(oracle)))
  }

  lemma ChallengeCaseFacts(raw: map<string, Json>)
    ensures ChallengeCase(raw).Obj?
    ensures var ch := ChallengeCase(raw).fields;
            && HasExactly(ch, CHALLENGE_FIELDS) && At(ch, Args) == At(raw, Args) && At(ch, Kwargs) == At(raw, Kwargs)
            && At(ch, CaseId) == At(raw, CaseId)
  {
    var r: Record := map[Args := At(raw, Args), CaseId := At(raw, CaseId), Kwargs := At(raw, Kwargs)];
    assert r.Keys == CHALLENGE_FIELDS;
    RenderHas(r, CHALLENGE_FIELDS);
    RenderAt(r, Args);
    RenderAt(r, Kwargs);
    RenderAt(r, CaseId);
  }

  /** The challenge case the loader derives never trips the scorer's checks. */
  lemma DerivedCaseIsTrusted(value: string -> real, index: nat, raw: Json)
    requires CaseAllowed(index, raw)
    ensures TrustedCase(value, ChallengeCase(raw.fields), raw)
  {
    ChallengeCaseFacts(raw.fields);
    LooselyEqualToItself(value, ChallengeCase(raw.fields));
  }

  /** An object with the right fields, identifier, kind and value is the answer. */
  predicate Answers(oracle: map<string, Json>, result: map<string, Json>) {
    && At(oracle, Field.Expected).Obj? && HasExactly(result, RETURNED_FIELDS)
    && At(result, CaseId) == At(oracle, CaseId) && At(result, Kind) == RETURNED
    && At(result, Value) == At(At(oracle, Field.Expected).fields, Value)
  }

  lemma AnswerAnswers(oracle: map<string, Json>)
    requires At(oracle, Field.Expected).Obj?
    ensures Answer(oracle).Obj? && Answers(oracle, Answer(oracle).fields)
  {
    var r := AnswerRecord(oracle);
    assert r.Keys == RETURNED_FIELDS;
    RenderHas(r, RETURNED_FIELDS);
    RenderAt(r, CaseId);
    RenderAt(r, Kind);
    RenderAt(r, Value);
  }

  lemma AnsweringIsTheAnswer(oracle: map<string, Json>, result: map<string, Json>)
    requires Answers(oracle, result)
    ensures Obj(result) == Answer(oracle)
  {
    var r := AnswerRecord(oracle);
    assert r.Keys == RETURNED_FIELDS;
    ExactObjectIsRendered(result, r);
  }

  lemma NumericAt(o: map<string, Json>, f: Field)
    requires Numeric(Obj(o))
    ensures Numeric(At(o, f))
  {}

  lemma ReturnedVerdict(expected: Json, result: map<string, Json>)
    requires IsOutcome(expected) && Acceptable(At(expected.fields, Value), 0) && Numeric(expected) && Numeric(Obj(result))
    ensures JudgeReturned(expected, result) == Right <==> At(result, Value) == At(expected.fields, Value)
    ensures JudgeReturned(expected, result) != BadTrusted
  {
    var x, y := At(result, Value), At(expected.fields, Value);
    NumericAt(result, Value);
    NumericAt(expected.fields, Value);
    AcceptableIsProper(y, 0);
    if Acceptable(x, 0) {
      AcceptableIsProper(x, 0);
      CanonicalTextDecides(true, x, y);
    }
  }

  /** What happens to a case once the challenge and the oracle are found sound. */
  function CandidateVerdict(value: string -> real, oracle: map<string, Json>, result: Json): Verdict {
    if !result.Obj? || !LooselyEqual(value, At(result.fields, CaseId), At(oracle, CaseId)) then BadCandidate
    else if At(result.fields, Kind) == RAISED then
      if HasExactly(result.fields, RAISED_FIELDS) && At(result.fields, ErrorType).Str? then Wrong else BadCandidate
    else if At(result.fields, Kind) != RETURNED || !HasExactly(result.fields, RETURNED_FIELDS) then BadCandidate
    else JudgeReturned(At(oracle, Field.Expected), result.fields)
  }

  lemma DerivedCaseVerdict(value: string -> real, index: nat, raw: Json, result: Json)
    requires CaseAllowed(index, raw)
    ensures JudgeCase(value, ChallengeCase(raw.fields), raw, result) == CandidateVerdict(value, raw.fields, result)
  {
    DerivedCaseIsTrusted(value, index, raw);
    ChallengeCaseFacts(raw.fields);
  }

  lemma TextsAreLooselyEqualOnlyToThemselves(value: string -> real, j: Json, s: string)
    ensures LooselyEqual(value, j, Str(s)) <==> j == Str(s)
  {}

  lemma RightMeansAnswering(value: string -> real, index: nat, raw: Json, result: map<string, Json>)
    requires CaseAllowed(index, raw) && Numeric(raw) && Numeric(Obj(result))
    ensures var v := CandidateVerdict(value, raw.fields, Obj(result));
            v != BadTrusted && (v == Right <==> Answers(raw.fields, result))
  {
    NumericAt(raw.fields, Field.Expected);
    TextsAreLooselyEqualOnlyToThemselves(value, At(result, CaseId), At(raw.fields, CaseId).s);
    ReturnedVerdict(At(raw.fields, Field.Expected), result);
  }

  /** A case is judged right exactly when the candidate returned the expected value. */
  lemma RightMeansTheExpectedValue(value: string -> real, index: nat, raw: Json, result: Json)
    requires CaseAllowed(index, raw) && Numeric(raw) && Numeric(result)
    ensures var v := JudgeCase(value, ChallengeCase(raw.fields), raw, result);
            v != BadTrusted && (v == Right <==> result == Answer(raw.fields))
  {
    DerivedCaseVerdict(value, index, raw, result);
    AnswerAnswers(raw.fields);
    if result.Obj? {
      RightMeansAnswering(value, index, raw, result.fields);
      if Answers(raw.fields, result.fields) { AnsweringIsTheAnswer(raw.fields, result.fields); }
    }
  }

  // ------------------------------------------------------------- a loaded bundle

  lemma RenderedIsProper(r: Record)
    requires forall f :: f in r ==> Proper(r[f])
    ensures Proper(Obj(Render(r)))
  {
    forall k | k in Render(r) ensures Proper(Render(r)[k]) {
      var f :| f in r && Name(f) == k;
      RenderAt(r, f);
    }
  }

  lemma AllowedFieldsAreProper(index: nat, raw: Json)
    requires CaseAllowed(index, raw) && Numeric(raw)
    ensures Proper(At(raw.fields, Args)) && Proper(At(raw.fields, Kwargs)) && Proper(At(raw.fields, CaseId))
    ensures Proper(At(raw.fields, Field.Expected))
  {
    NumericAt(raw.fields, Args);
    NumericAt(raw.fields, Kwargs);
    NumericAt(raw.fields, Field.Expected);
    AcceptableIsProper(At(raw.fields, Args), 0);
    AcceptableIsProper(At(raw.fields, Kwargs), 0);
    OutcomeIsProper(At(raw.fields, Field.Expected));
  }

  lemma CaseTextsAreProper(raw: map<string, Json>)
    requires Proper(At(raw, Args)) && Proper(At(raw, Kwargs)) && Proper(At(raw, CaseId)) && Proper(At(raw, Field.Expected))
    ensures Proper(OracleCase(raw)) && Proper(ChallengeCase(raw))
  {
    RenderedIsProper(OracleFields(raw));
    RenderedIsProper(ChallengeFields(raw));
  }

  lemma AllowedCaseIsProper(index: nat, raw: Json)
    requires CaseAllowed(index, raw) && Numeric(raw)
    ensures Proper(raw) && Proper(Stripped(raw))
  {
    AllowedFieldsAreProper(index, raw);
    CaseTextsAreProper(raw.fields);
    OracleCaseIsTheRawCase(index, raw);
  }

  lemma OutcomeIsProper(expected: Json)
    requires IsOutcome(expected) && Numeric(expected) && Acceptable(At(expected.fields, Value), 0)
    ensures Proper(expected)
  {
    var r: Record := map[Kind := RETURNED, Value := At(expected.fields, Value)];
    assert r.Keys == OUTCOME_FIELDS;
    ExactObjectIsRendered(expected.fields, r);
    NumericAt(expected.fields, Value);
    AcceptableIsProper(At(expected.fields, Value), 0);
    RenderedIsProper(r);
  }

  predicate NumericCases(cases: seq<Json>) {
    forall i {:trigger Numeric(cases[i])} :: 0 <= i < |cases| ==> Numeric(cases[i])
  }

  predicate DecodableCases(c: Codec, cases: seq<Json>, depth: nat) {
    forall i {:trigger Decodable(c, cases[i], depth)} :: 0 <= i < |cases| ==> Decodable(c, cases[i], depth)
  }

  lemma DecodableAt(c: Codec, o: map<string, Json>, f: Field, depth: nat)
    requires Decodable(c, Obj(o), depth)
    ensures depth > 0 && Decodable(c, At(o, f), depth - 1)
  {}

  /** The cases of a decoded oracle, two levels down. */
  lemma RawCasesAreDecodable(c: Codec, raw: Bytes)
    requires Faithful(c) && RawCases(c, raw).Some?
    ensures DecodableCases(c, RawCases(c, raw).value, c.depth - 2) && NumericCases(RawCases(c, raw).value)
  {
    var cases := RawCases(c, raw).value;
    DecodableAt(c, c.loads(raw).value.fields, Cases, c.depth);
    forall i | 0 <= i < |cases| ensures Numeric(cases[i]) { DecodableIsNumeric(c, cases[i], c.depth - 2); }
  }

  lemma RenderedIsDecodable(c: Codec, r: Record, depth: nat)
    requires depth > 0 && forall f :: f in r ==> Decodable(c, r[f], depth - 1)
    ensures Decodable(c, Obj(Render(r)), depth)
  {
    forall k | k in Render(r) ensures Decodable(c, Render(r)[k], depth - 1) {
      var f :| f in r && Name(f) == k;
      RenderAt(r, f);
    }
  }

  lemma StrippedIsDecodable(c: Codec, raw: Json, depth: nat)
    requires Decodable(c, raw, depth)
    ensures Decodable(c, Stripped(raw), depth)
  {
    if raw.Obj? {
      DecodableAt(c, raw.fields, Args, depth);
      DecodableAt(c, raw.fields, CaseId, depth);
      DecodableAt(c, raw.fields, Kwargs, depth);
      RenderedIsDecodable(c, ChallengeFields(raw.fields), depth);
    }
  }

  /** A case the records around it can be built on. */
  predicate Fit(c: Codec, j: Json) {
    2 <= c.depth && Proper(j) && Decodable(c, j, c.depth - 2)
  }

  predicate FitCases(c: Codec, cases: seq<Json>) {
    forall i {:trigger Fit(c, cases[i])} :: 0 <= i < |cases| ==> Fit(c, cases[i])
  }

  lemma AllowedCaseIsFit(c: Codec, index: nat, raw: Json)
    requires 2 <= c.depth && CaseAllowed(index, raw) && Numeric(raw) && Decodable(c, raw, c.depth - 2)
    ensures Fit(c, raw) && Fit(c, Stripped(raw))
  {
    AllowedCaseIsProper(index, raw);
    StrippedIsDecodable(c, raw, c.depth - 2);
  }

  lemma LoadedCasesAreFit(c: Codec, raw: Bytes, cases: seq<Json>)
    requires Faithful(c) && RawCases(c, raw) == Some(cases) && CasesAllowed(cases)
    ensures FitCases(c, cases) && FitCases(c, ChallengeCases(cases))
  {
    RawCasesAreDecodable(c, raw);
    forall i | 0 <= i < |cases| ensures Fit(c, cases[i]) && Fit(c, Stripped(cases[i])) {
      assert CaseAllowed(i + 1, cases[i]);
      AllowedCaseIsFit(c, i + 1, cases[i]);
    }
    var derived := ChallengeCases(cases);
    forall i | 0 <= i < |derived| ensures Fit(c, derived[i]) { assert derived[i] == Stripped(cases[i]); }
  }

  lemma FitListFits(c: Codec, cases: seq<Json>)
    requires FitCases(c, cases) && 2 <= c.depth
    ensures Proper(Arr(cases)) && Decodable(c, Arr(cases), c.depth - 1)
  {
    forall i | 0 <= i < |cases| ensures Proper(cases[i]) && Decodable(c, cases[i], c.depth - 2) {
      assert Fit(c, cases[i]);
    }
  }

  lemma TextDecodes(c: Codec, j: Json)
    requires Decodes(c) && Proper(j) && Decodable(c, j, c.depth)
    ensures c.loads(c.encode(Canonical(false, j))) == Some(j)
  {}

  lemma OracleDecodes(c: Codec, cases: seq<Json>)
    requires Decodes(c) && FitCases(c, cases)
    ensures c.loads(c.encode(Canonical(false, OracleOf(cases)))) == Some(OracleOf(cases))
  {
    FitListFits(c, cases);
    RenderedIsProper(OracleRecord(cases));
    RenderedIsDecodable(c, OracleRecord(cases), c.depth);
    TextDecodes(c, OracleOf(cases));
  }

  lemma EntrypointFits(c: Codec, call: Call)
    requires 2 <= c.depth
    ensures Proper(EntrypointOf(call)) && Decodable(c, EntrypointOf(call), c.depth - 1)
  {
    var r: Record := map[Callable := Str(call.callableName), Field.Module := Str(call.moduleName)];
    RenderedIsProper(r);
    RenderedIsDecodable(c, r, c.depth - 1);
  }

  lemma ChallengeIsProper(entrypoint: Json, cases: seq<Json>)
    requires Proper(entrypoint) && Proper(Arr(cases))
    ensures Proper(Obj(Render(ChallengeRecord(entrypoint, cases))))
  {
    RenderedIsProper(ChallengeRecord(entrypoint, cases));
  }

  lemma ChallengeIsDecodable(c: Codec, entrypoint: Json, cases: seq<Json>)
    requires 2 <= c.depth && Decodable(c, entrypoint, c.depth - 1) && Decodable(c, Arr(cases), c.depth - 1)
    ensures Decodable(c, Obj(Render(ChallengeRecord(entrypoint, cases))), c.depth)
  {
    RenderedIsDecodable(c, ChallengeRecord(entrypoint, cases), c.depth);
  }

  lemma ChallengeDecodes(c: Codec, call: Call, cases: seq<Json>)
    requires Decodes(c) && FitCases(c, cases)
    ensures c.loads(c.encode(Canonical(false, ChallengeOf(call, cases)))) == Some(ChallengeOf(call, cases))
  {
    FitListFits(c, cases);
    EntrypointFits(c, call);
    ChallengeIsProper(EntrypointOf(call), cases);
    ChallengeIsDecodable(c, EntrypointOf(call), cases);
    TextDecodes(c, ChallengeOf(call, cases));
  }

  /** The scorer decodes the very values the loader built. */
  lemma FilesDecode(c: Codec, call: Call, expectedCount: nat, b: Bundle)
    requires Faithful(c) && Loads(c, call, expectedCount, b)
    ensures c.loads(b.challengeBytes) == Some(b.challenge) && c.loads(b.oracleBytes) == Some(b.oracle)
  {
    var cases := RawCases(c, call.raw).value;
    LoadedCasesAreFit(c, call.raw, cases);
    OracleDecodes(c, cases);
    ChallengeDecodes(c, call, ChallengeCases(cases));
  }

  lemma ChallengeHead(entrypoint: Json, cases: seq<Json>)
    ensures var ch := Render(ChallengeRecord(entrypoint, cases));
            && HasExactly(ch, {Cases, Entrypoint, Field.Protocol, SchemaVersion}) && At(ch, Cases) == Arr(cases)
            && At(ch, SchemaVersion) == CHALLENGE_SCHEMA && At(ch, Field.Protocol) == PROTOCOL
  {
    var r := ChallengeRecord(entrypoint, cases);
    assert r.Keys == {Cases, Entrypoint, Field.Protocol, SchemaVersion};
    RenderHas(r, r.Keys);
    RenderAt(r, Cases);
    RenderAt(r, SchemaVersion);
    RenderAt(r, Field.Protocol);
  }

  lemma OracleHead(cases: seq<Json>)
    ensures var or := OracleOf(cases).fields;
            && HasExactly(or, {Cases, SchemaVersion}) && At(or, Cases) == Arr(cases) && At(or, SchemaVersion) == ORACLE_SCHEMA
  {
    var r := OracleRecord(cases);
    assert r.Keys == {Cases, SchemaVersion};
    RenderHas(r, r.Keys);
    RenderAt(r, Cases);
    RenderAt(r, SchemaVersion);
  }

  predicate ResultsFit(response: map<string, Json>, n: nat) {
    At(response, Results).Arr? && |At(response, Results).items| == n
  }

  /** Validating against a challenge and an oracle whose heads are in order. */
  lemma ValidatedShape(
      value: string -> real, ch: Json, or: Json, cs: seq<Json>, os: seq<Json>, response: map<string, Json>, sha: string)
    requires TrustedHeads(ch, or) && At(ch.fields, Cases) == Arr(cs) && At(or.fields, Cases) == Arr(os) && |cs| == |os|
    ensures Validated(value, ch, or, response, sha, |os|) ==
            if !ResponseHead(response, sha) || !ResultsFit(response, |os|) then CandidateFault
            else Tally(Verdicts(value, cs, os, At(response, Results).items), 0, 0)
  {}

  /** Scoring a response against a loaded bundle. */
  lemma ValidatedBundle(c: Codec, call: Call, cases: seq<Json>, response: map<string, Json>, sha: string)
    ensures Validated(c.value, ChallengeOf(call, ChallengeCases(cases)), OracleOf(cases), response, sha, |cases|) ==
            if !ResponseHead(response, sha) || !ResultsFit(response, |cases|) then CandidateFault
            else Tally(Verdicts(c.value, ChallengeCases(cases), cases, At(response, Results).items), 0, 0)
  {
    ChallengeHead(EntrypointOf(call), ChallengeCases(cases));
    OracleHead(cases);
    ValidatedShape(c.value, ChallengeOf(call, ChallengeCases(cases)), OracleOf(cases), ChallengeCases(cases), cases,
                   response, sha);
  }

  lemma DerivedVerdicts(c: Codec, cases: seq<Json>, rs: seq<Json>)
    requires CasesAllowed(cases) && NumericCases(cases) && NumericCases(rs) && |rs| == |cases|
    ensures var vs := Verdicts(c.value, ChallengeCases(cases), cases, rs);
            (forall i :: 0 <= i < |vs| ==> vs[i] != BadTrusted)
            && (AllRight(vs) <==> rs == ExpectedResults(cases))
  {
    var vs := Verdicts(c.value, ChallengeCases(cases), cases, rs);
    forall i | 0 <= i < |vs| ensures vs[i] != BadTrusted && (vs[i] == Right <==> rs[i] == ExpectedResults(cases)[i]) {
      assert CaseAllowed(i + 1, cases[i]);
      RightMeansTheExpectedValue(c.value, i + 1, cases[i], rs[i]);
    }
  }

  /** The results a correct candidate lists, in the oracle's order. */
  function ExpectedResults(cases: seq<Json>): seq<Json> {
    seq(|cases|, i requires 0 <= i < |cases| => if cases[i].Obj? then Answer(cases[i].fields) else Null)
  }

  function CorrectRecord(b: Bundle, cases: seq<Json>): Record {
    map[ChallengeSha256 := Str(b.challengeSha256), Results := Arr(ExpectedResults(cases)), SchemaVersion := RESPONSE_SCHEMA]
  }

  /** The one response record that passes. */
  function CorrectResponse(b: Bundle, cases: seq<Json>): map<string, Json> {
    Render(CorrectRecord(b, cases))
  }

  lemma CorrectResponseFacts(b: Bundle, cases: seq<Json>, response: map<string, Json>)
    ensures response == CorrectResponse(b, cases) <==>
            ResponseHead(response, b.challengeSha256) && At(response, Results) == Arr(ExpectedResults(cases))
  {
    var r := CorrectRecord(b, cases);
    assert r.Keys == {ChallengeSha256, Results, SchemaVersion};
    RenderHas(r, r.Keys);
    RenderAt(r, ChallengeSha256);
    RenderAt(r, Results);
    RenderAt(r, SchemaVersion);
    if ResponseHead(response, b.challengeSha256) && At(response, Results) == Arr(ExpectedResults(cases)) {
      ExactObjectIsRendered(response, r);
    }
  }

  lemma ResponsesAreNumeric(c: Codec, data: Bytes)
    requires Faithful(c) && CandidateResponse(c, data).Some?
    ensures Numeric(Obj(CandidateResponse(c, data).value))
    ensures At(CandidateResponse(c, data).value, Results).Arr? ==>
            NumericCases(At(CandidateResponse(c, data).value, Results).items)
  {
    var fields := CandidateResponse(c, data).value;
    DecodableIsNumeric(c, Obj(fields), c.depth);
    NumericAt(fields, Results);
  }

  /** The scorer does not blame itself, counts every case, and finds no failure
      exactly when the response is correct. */
  predicate Sound(o: Outcome, n: nat, correct: bool) {
    && o != EvaluatorFault && (o.Scored? ==> o.testsRun == n && o.failures <= n)
    && (o == Scored(n, 0) <==> correct)
  }

  lemma TallyIsSound(vs: seq<Verdict>, correct: bool)
    requires (forall i :: 0 <= i < |vs| ==> vs[i] != BadTrusted) && (AllRight(vs) <==> correct)
    ensures Sound(Tally(vs, 0, 0), |vs|, correct)
  {
    NoTrustedFault(vs, 0, 0);
    NoFailuresMeansAllRight(vs);
    FailureCountIsExact(vs, 0, 0);
    WrongsAreCases(vs);
  }

  /** What a response's record makes of a loaded bundle. */
  lemma RecordOutcome(c: Codec, call: Call, n: nat, b: Bundle, cases: seq<Json>, response: map<string, Json>)
    requires Faithful(c) && Loads(c, call, n, b) && RawCases(c, call.raw) == Some(cases)
    requires At(response, Results).Arr? ==> NumericCases(At(response, Results).items)
    ensures Sound(Validated(c.value, b.challenge, b.oracle, response, b.challengeSha256, n), n,
                  response == CorrectResponse(b, cases))
  {
    ValidatedBundle(c, call, cases, response, b.challengeSha256);
    CorrectResponseFacts(b, cases, response);
    RawCasesAreDecodable(c, call.raw);
    if ResponseHead(response, b.challengeSha256) && ResultsFit(response, n) {
      var rs := At(response, Results).items;
      DerivedVerdicts(c, cases, rs);
      TallyIsSound(Verdicts(c.value, ChallengeCases(cases), cases, rs), rs == ExpectedResults(cases));
    }
  }

  lemma WrongsAreCases(vs: seq<Verdict>)
    ensures |WrongFrom(vs, 0)| <= |vs|
  {
    CountBelow(WrongFrom(vs, 0), |vs|);
  }

  lemma {:induction false} CountBelow(s: set<nat>, n: nat)
    requires forall k :: k in s ==> k < n
    ensures |s| <= n
    decreases n
  {
    if n == 0 {
      assert s == {};
    } else {
      CountBelow(s - {n - 1}, n - 1);
      if n - 1 in s { assert s == (s - {n - 1}) + {n - 1}; } else { assert s == s - {n - 1}; }
    }
  }

  /** The binding describes this bundle and this response, and names everything. */
  predicate Describes(c: Codec, binding: Binding, b: Bundle, response: Bytes) {
    Declared(c, binding, b.challengeBytes, b.oracleBytes, response) && binding.expectedTests == b.caseCount
  }

  function Found(c: Codec, b: Bundle, found: Option<map<string, Json>>, sha: string, n: int): Outcome {
    if found == None || n < 0 then CandidateFault
    else Validated(c.value, b.challenge, b.oracle, found.value, sha, n)
  }

  lemma ScoreShape(c: Codec, binding: Binding, b: Bundle, response: Bytes)
    requires Declared(c, binding, b.challengeBytes, b.oracleBytes, response)
    requires c.loads(b.challengeBytes) == Some(b.challenge) && c.loads(b.oracleBytes) == Some(b.oracle)
    ensures Score(c, binding, b.challengeBytes, b.oracleBytes, response) ==
            Found(c, b, CandidateResponse(c, response), binding.challengeSha256, binding.expectedTests)
  {}

  lemma FoundOrFault(o: Outcome, n: nat, found: Option<map<string, Json>>, correct: map<string, Json>)
    requires if found == None then o == CandidateFault else Sound(o, n, found.value == correct)
    ensures Sound(o, n, found == Some(correct))
  {}

  lemma FoundIsSound(c: Codec, call: Call, n: nat, b: Bundle, cases: seq<Json>, found: Option<map<string, Json>>)
    requires Faithful(c) && Loads(c, call, n, b) && RawCases(c, call.raw) == Some(cases)
    requires found.Some? && At(found.value, Results).Arr? ==> NumericCases(At(found.value, Results).items)
    ensures Sound(Found(c, b, found, b.challengeSha256, n), n, found == Some(CorrectResponse(b, cases)))
  {
    if found.Some? { RecordOutcome(c, call, n, b, cases, found.value); }
    FoundOrFault(Found(c, b, found, b.challengeSha256, n), n, found, CorrectResponse(b, cases));
  }

  lemma BundleHashes(c: Codec, call: Call, n: nat, b: Bundle)
    requires Loads(c, call, n, b)
    ensures b.caseCount == n && b.challengeSha256 == c.sha256(b.challengeBytes)
  {}

  /** On a bundle the loader accepted, the scorer never blames itself, counts every
      case, and finds no failure exactly in the one correct response. */
  lemma LoadedBundlesScore(c: Codec, call: Call, n: nat, b: Bundle, cases: seq<Json>, binding: Binding, response: Bytes)
    requires Faithful(c) && Loads(c, call, n, b) && RawCases(c, call.raw) == Some(cases)
    requires Describes(c, binding, b, response)
    ensures Sound(Score(c, binding, b.challengeBytes, b.oracleBytes, response), n,
                  CandidateResponse(c, response) == Some(CorrectResponse(b, cases)))
  {
    FilesDecode(c, call, n, b);
    BundleHashes(c, call, n, b);
    if CandidateResponse(c, response).Some? { ResponsesAreNumeric(c, response); }
    FoundIsSound(c, call, n, b, cases, CandidateResponse(c, response));
    ScoreShape(c, binding, b, response);
  }
}
