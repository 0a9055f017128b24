/** What the scorer makes of any response to a loaded bundle, said of the response
    alone. */
module Responses {
  import opened Usage
  import opened Text
  import opened Json
  import opened JsonLaws
  import opened Wire
  import opened Names
  import opened Bundles
  import opened Scorer
  import opened VerdictLaws
  import opened RecordLaws

  // ------------------------------------------------------------- acceptable values

  /** No number in it is infinite. */
  predicate Finite(j: Json) {
    match j
    case Infinite(_) => false
    case Arr(items) => forall i :: 0 <= i < |items| ==> Finite(items[i])
    case Obj(fields) => forall k :: k in fields ==> Finite(fields[k])
    case _ => true
  }

  /** Lists and objects nest at most this deep. */
  predicate NestsWithin(j: Json, levels: nat) {
    match j
    case Arr(items) => forall i :: 0 <= i < |items| ==> levels > 0 && NestsWithin(items[i], levels - 1)
    case Obj(fields) => forall k :: k in fields ==> levels > 0 && NestsWithin(fields[k], levels - 1)
    case _ => true
  }

  /** A value is acceptable exactly when it is finite and its parts lie at most 32 levels
      down. */
  lemma {:induction false} AcceptableMeans(j: Json, depth: nat)
    requires depth <= 32
    ensures Acceptable(j, depth) <==> Finite(j) && NestsWithin(j, 32 - depth)
    decreases j
  {
    if j.Arr? {
      forall i | 0 <= i < |j.items| ensures PartAcceptable(j.items[i], depth) { PartMeans(j.items[i], j, depth); }
      ListMeans(j, depth);
    } else if j.Obj? {
      forall k | k in j.fields ensures PartAcceptable(j.fields[k], depth) { PartMeans(j.fields[k], j, depth); }
      ObjectMeans(j, depth);
    }
  }

  /** What is to be shown of a part of a value at this depth. */
  predicate PartAcceptable(j: Json, depth: nat)
    requires depth <= 32
  {
    Acceptable(j, depth + 1) <==> depth < 32 && Finite(j) && NestsWithin(j, 32 - depth - 1)
  }

  lemma {:induction false} PartMeans(part: Json, whole: Json, depth: nat)
    requires depth <= 32 && part < whole
    ensures PartAcceptable(part, depth)
    decreases whole, 0
  {
    if depth < 32 { AcceptableMeans(part, depth + 1); }
  }

  lemma ListMeans(j: Json, depth: nat)
    requires depth <= 32 && j.Arr? && forall i :: 0 <= i < |j.items| ==> PartAcceptable(j.items[i], depth)
    ensures Acceptable(j, depth) <==> Finite(j) && NestsWithin(j, 32 - depth)
  {}

  lemma ObjectMeans(j: Json, depth: nat)
    requires depth <= 32 && j.Obj? && forall k :: k in j.fields ==> PartAcceptable(j.fields[k], depth)
    ensures Acceptable(j, depth) <==> Finite(j) && NestsWithin(j, 32 - depth)
  {}

  // ---------------------------------------------------------------------- results

  function ReturningRecord(raw: map<string, Json>, value: Json): Record {
    map[CaseId := At(raw, CaseId), Kind := Str("returned"), Value := value]
  }

  function RaisingRecord(raw: map<string, Json>, error: string): Record {
    map[CaseId := At(raw, CaseId), ErrorType := Str(error), Kind := Str("raised")]
  }

  /** The result of a case that returned this value. */
  function Returning(raw: map<string, Json>, value: Json): Json {
    Obj(Render(ReturningRecord(raw, value)))
  }

  /** The result of a case that raised an error of this type. */
  function Raising(raw: map<string, Json>, error: string): Json {
    Obj(Render(RaisingRecord(raw, error)))
  }

  /** The value the oracle expects of an allowed case. */
  function Wanted(raw: map<string, Json>): Json {
    var expected := At(raw, Field.Expected);
    if expected.Obj? then At(expected.fields, Value) else Null
  }

  /** A result that can be judged: of this case, and returned within bounds or raised. */
  ghost predicate Judgeable(raw: map<string, Json>, result: Json) {
    || (exists error :: result == Raising(raw, error))
    || (exists value :: Finite(value) && NestsWithin(value, 32) && result == Returning(raw, value))
  }

  // ---------------------------------------------------------------------- one case

  lemma ReturningFacts(raw: map<string, Json>, value: Json)
    ensures Returning(raw, value).Obj?
    ensures var o := Returning(raw, value).fields;
            && HasExactly(o, RETURNED_FIELDS) && At(o, CaseId) == At(raw, CaseId) && At(o, Kind) == Str("returned")
            && At(o, Value) == value
  {
    var r := ReturningRecord(raw, value);
    assert r.Keys == RETURNED_FIELDS;
    RenderHas(r, RETURNED_FIELDS);
    RenderAt(r, CaseId);
    RenderAt(r, Kind);
    RenderAt(r, Value);
  }

  lemma RaisingFacts(raw: map<string, Json>, error: string)
    ensures Raising(raw, error).Obj?
    ensures var o := Raising(raw, error).fields;
            && HasExactly(o, RAISED_FIELDS) && At(o, CaseId) == At(raw, CaseId) && At(o, Kind) == Str("raised")
            && At(o, ErrorType) == Str(error)
  {
    var r := RaisingRecord(raw, error);
    assert r.Keys == RAISED_FIELDS;
    RenderHas(r, RAISED_FIELDS);
    RenderAt(r, CaseId);
    RenderAt(r, Kind);
    RenderAt(r, ErrorType);
  }

  lemma ReturnedIsReturning(raw: map<string, Json>, o: map<string, Json>)
    requires HasExactly(o, RETURNED_FIELDS) && At(o, CaseId) == At(raw, CaseId) && At(o, Kind) == Str("returned")
    ensures Obj(o) == Returning(raw, At(o, Value))
  {
    var r := ReturningRecord(raw, At(o, Value));
    assert r.Keys == RETURNED_FIELDS;
    ExactObjectIsRendered(o, r);
  }

  lemma RaisedIsRaising(raw: map<string, Json>, o: map<string, Json>)
    requires HasExactly(o, RAISED_FIELDS) && At(o, CaseId) == At(raw, CaseId) && At(o, Kind) == Str("raised")
    requires At(o, ErrorType).Str?
    ensures Obj(o) == Raising(raw, At(o, ErrorType).s)
  {
    var r := RaisingRecord(raw, At(o, ErrorType).s);
    assert r.Keys == RAISED_FIELDS;
    ExactObjectIsRendered(o, r);
  }

  lemma KindsDiffer()
    ensures Str("raised") != Str("returned")
  {
    assert |"raised"| == 6 && |"returned"| == 8;
  }

  lemma RaisingVerdict(value: string -> real, raw: map<string, Json>, error: string)
    requires At(raw, CaseId).Str?
    ensures CandidateVerdict(value, raw, Raising(raw, error)) == Wrong
  {
    RaisingFacts(raw, error);
    TextsAreLooselyEqualOnlyToThemselves(value, At(raw, CaseId), At(raw, CaseId).s);
  }

  lemma ReturningVerdict(value: string -> real, raw: map<string, Json>, v: Json)
    requires At(raw, CaseId).Str?
    ensures CandidateVerdict(value, raw, Returning(raw, v)) == JudgeReturned(At(raw, Field.Expected), Returning(raw, v).fields)
  {
    ReturningFacts(raw, v);
    KindsDiffer();
    TextsAreLooselyEqualOnlyToThemselves(value, At(raw, CaseId), At(raw, CaseId).s);
  }

  /** A returned value is compared with the oracle's, if it is within bounds. */
  lemma ReturnedValueVerdict(raw: map<string, Json>, v: Json, expected: Json)
    requires expected == At(raw, Field.Expected) && IsOutcome(expected) && Acceptable(At(expected.fields, Value), 0)
    requires Numeric(expected) && Numeric(v)
    ensures JudgeReturned(expected, Returning(raw, v).fields) ==
            if !Finite(v) || !NestsWithin(v, 32) then BadCandidate else if v == Wanted(raw) then Right else Wrong
  {
    ReturningFacts(raw, v);
    NumericAt(expected.fields, Value);
    AcceptableIsProper(At(expected.fields, Value), 0);
    AcceptableMeans(v, 0);
    if Acceptable(v, 0) {
      AcceptableIsProper(v, 0);
      CanonicalTextDecides(true, v, At(expected.fields, Value));
    }
  }

  lemma JudgedIsJudgeable(value: string -> real, raw: map<string, Json>, result: Json)
    requires At(raw, CaseId).Str? && CandidateVerdict(value, raw, result) != BadCandidate
    ensures result.Obj?
    ensures (exists error :: result == Raising(raw, error)) || (exists v :: result == Returning(raw, v))
  {
    var o := result.fields;
    TextsAreLooselyEqualOnlyToThemselves(value, At(o, CaseId), At(raw, CaseId).s);
    if At(o, Kind) == RAISED {
      RaisedIsRaising(raw, o);
    } else {
      ReturnedIsReturning(raw, o);
    }
  }

  /** One case of a loaded oracle: right for exactly its value, wrong for any other result
      of the case that can be judged, and the candidate's fault for anything else. */
  lemma CaseVerdict(value: string -> real, index: nat, raw: Json, result: Json)
    requires CaseAllowed(index, raw) && Numeric(raw) && Numeric(result)
    ensures JudgeCase(value, ChallengeCase(raw.fields), raw, result) ==
            if !Judgeable(raw.fields, result) then BadCandidate
            else if result == Returning(raw.fields, Wanted(raw.fields)) then Right
            else Wrong
  {
    var o := raw.fields;
    DerivedCaseVerdict(value, index, raw, result);
    NumericAt(o, Field.Expected);
    if error :| result == Raising(o, error) {
      RaisingCase(value, o, error, result);
    } else if v :| result == Returning(o, v) {
      ReturningCase(value, o, v, result);
    } else if CandidateVerdict(value, o, result) != BadCandidate {
      JudgedIsJudgeable(value, o, result);
    }
  }

  lemma RaisedIsNotReturned(raw: map<string, Json>, error: string, v: Json)
    ensures Raising(raw, error) != Returning(raw, v)
  {
    RaisingFacts(raw, error);
    ReturningFacts(raw, v);
    KindsDiffer();
  }

  lemma RaisingCase(value: string -> real, raw: map<string, Json>, error: string, result: Json)
    requires At(raw, CaseId).Str? && result == Raising(raw, error)
    ensures CandidateVerdict(value, raw, result) == Wrong && Judgeable(raw, result)
    ensures result != Returning(raw, Wanted(raw))
  {
    RaisingVerdict(value, raw, error);
    RaisedIsNotReturned(raw, error, Wanted(raw));
  }

  lemma ReturnedValueIsUnique(raw: map<string, Json>, v: Json, w: Json)
    requires Returning(raw, v) == Returning(raw, w)
    ensures v == w
  {
    ReturningFacts(raw, v);
    ReturningFacts(raw, w);
  }

  lemma ReturningCase(value: string -> real, raw: map<string, Json>, v: Json, result: Json)
    requires At(raw, CaseId).Str? && result == Returning(raw, v) && Numeric(result)
    requires var expected := At(raw, Field.Expected);
             IsOutcome(expected) && Acceptable(At(expected.fields, Value), 0) && Numeric(expected)
    requires forall error :: result != Raising(raw, error)
    ensures CandidateVerdict(value, raw, result) ==
            if !Judgeable(raw, result) then BadCandidate else if result == Returning(raw, Wanted(raw)) then Right else Wrong
  {
    ReturningFacts(raw, v);
    NumericAt(result.fields, Value);
    ReturningVerdict(value, raw, v);
    ReturnedValueVerdict(raw, v, At(raw, Field.Expected));
    forall w | result == Returning(raw, w) ensures w == v { ReturnedValueIsUnique(raw, v, w); }
  }

  // ------------------------------------------------------------------ all cases

  ghost predicate AllJudgeable(cases: seq<Json>, rs: seq<Json>) {
    |rs| == |cases| && forall i :: 0 <= i < |cases| ==> cases[i].Obj? && Judgeable(cases[i].fields, rs[i])
  }

  predicate Missed(cases: seq<Json>, rs: seq<Json>, i: nat) {
    i < |cases| && i < |rs| && cases[i].Obj? && rs[i] != Returning(cases[i].fields, Wanted(cases[i].fields))
  }

  /** The cases whose result is not the oracle's value. */
  function Misses(cases: seq<Json>, rs: seq<Json>): set<nat> {
    set i: nat | i < |cases| && Missed(cases, rs, i)
  }

  /** The response record that lists these results for this challenge. */
  function Reporting(challengeSha256: string, rs: seq<Json>): map<string, Json> {
    Render(map[ChallengeSha256 := Str(challengeSha256), Results := Arr(rs),
               SchemaVersion := Str("guildmind.python-call-response/v1")])
  }

  /** The outcome a response record deserves: if each of its results can be judged, all
      cases run and the misses counted, and otherwise the candidate's fault. */
  ghost function Deserved(cases: seq<Json>, challengeSha256: string, response: map<string, Json>): Outcome {
    if rs :| response == Reporting(challengeSha256, rs) && AllJudgeable(cases, rs) then Scored(|cases|, |Misses(cases, rs)|)
    else CandidateFault
  }

  lemma ReportingFacts(sha: string, rs: seq<Json>)
    ensures ResponseHead(Reporting(sha, rs), sha) && At(Reporting(sha, rs), Results) == Arr(rs)
  {
    var r: Record := map[ChallengeSha256 := Str(sha), Results := Arr(rs), SchemaVersion := RESPONSE_SCHEMA];
    assert r.Keys == {ChallengeSha256, Results, SchemaVersion};
    RenderHas(r, r.Keys);
    RenderAt(r, ChallengeSha256);
    RenderAt(r, Results);
    RenderAt(r, SchemaVersion);
  }

  lemma HeadedIsReporting(response: map<string, Json>, sha: string)
    requires ResponseHead(response, sha) && At(response, Results).Arr?
    ensures response == Reporting(sha, At(response, Results).items)
  {
    var r: Record := map[ChallengeSha256 := Str(sha), Results := At(response, Results), SchemaVersion := RESPONSE_SCHEMA];
    assert r.Keys == {ChallengeSha256, Results, SchemaVersion};
    ExactObjectIsRendered(response, r);
  }

  lemma VerdictsMeans(c: Codec, cases: seq<Json>, rs: seq<Json>, vs: seq<Verdict>, i: nat)
    requires CasesAllowed(cases) && NumericCases(cases) && NumericCases(rs) && |rs| == |cases| && i < |cases|
    requires vs == Verdicts(c.value, ChallengeCases(cases), cases, rs)
    ensures |vs| == |cases| && Told(cases, rs, vs, i)
  {
    assert CaseAllowed(i + 1, cases[i]) && Numeric(cases[i]) && Numeric(rs[i]);
    CaseVerdict(c.value, i + 1, cases[i], rs[i]);
  }

  /** The verdicts on judgeable results count the misses; an unjudgeable one is the
      candidate's fault. */
  lemma VerdictsCount(c: Codec, cases: seq<Json>, rs: seq<Json>)
    requires CasesAllowed(cases) && NumericCases(cases) && NumericCases(rs) && |rs| == |cases|
    ensures Tally(Verdicts(c.value, ChallengeCases(cases), cases, rs), 0, 0) ==
            if AllJudgeable(cases, rs) then Scored(|cases|, |Misses(cases, rs)|) else CandidateFault
  {
    var vs := Verdicts(c.value, ChallengeCases(cases), cases, rs);
    forall i: nat | i < |cases| ensures Told(cases, rs, vs, i) {
      VerdictsMeans(c, cases, rs, vs, i);
    }
    ToldVerdictsCount(cases, rs, vs);
  }

  /** The verdict on a result is the one it deserves. */
  ghost predicate Told(cases: seq<Json>, rs: seq<Json>, vs: seq<Verdict>, i: nat)
    requires i < |cases| == |rs| == |vs|
  {
    && cases[i].Obj? && vs[i] != BadTrusted
    && ((vs[i] == Right || vs[i] == Wrong) <==> Judgeable(cases[i].fields, rs[i]))
    && (vs[i] == Wrong <==> Judgeable(cases[i].fields, rs[i]) && Missed(cases, rs, i))
  }

  lemma ToldVerdictsCount(cases: seq<Json>, rs: seq<Json>, vs: seq<Verdict>)
    requires |cases| == |rs| == |vs| && forall i: nat {:trigger Told(cases, rs, vs, i)} :: i < |cases| ==> Told(cases, rs, vs, i)
    ensures Tally(vs, 0, 0) == if AllJudgeable(cases, rs) then Scored(|cases|, |Misses(cases, rs)|) else CandidateFault
  {
    forall i | 0 <= i < |vs| ensures vs[i] != BadTrusted { assert Told(cases, rs, vs, i); }
    NoTrustedFault(vs, 0, 0);
    FailureCountIsExact(vs, 0, 0);
    CleanMeansJudgeable(cases, rs, vs);
    if Clean(vs, 0) { WrongsAreMisses(cases, rs, vs); }
  }

  lemma CleanMeansJudgeable(cases: seq<Json>, rs: seq<Json>, vs: seq<Verdict>)
    requires |cases| == |rs| == |vs| && forall i: nat {:trigger Told(cases, rs, vs, i)} :: i < |cases| ==> Told(cases, rs, vs, i)
    ensures AllJudgeable(cases, rs) <==> Clean(vs, 0)
  {
    if AllJudgeable(cases, rs) {
      forall i | 0 <= i < |vs| ensures vs[i] == Right || vs[i] == Wrong { assert Told(cases, rs, vs, i); }
    }
    if Clean(vs, 0) {
      forall i | 0 <= i < |cases| ensures cases[i].Obj? && Judgeable(cases[i].fields, rs[i]) { assert Told(cases, rs, vs, i); }
    }
  }

  lemma WrongsAreMisses(cases: seq<Json>, rs: seq<Json>, vs: seq<Verdict>)
    requires |cases| == |rs| == |vs| && Clean(vs, 0) && forall i: nat {:trigger Told(cases, rs, vs, i)} :: i < |cases| ==> Told(cases, rs, vs, i)
    ensures WrongFrom(vs, 0) == Misses(cases, rs)
  {
    forall i: nat | i < |vs| ensures vs[i] == Wrong <==> Missed(cases, rs, i) { assert Told(cases, rs, vs, i); }
  }

  lemma DeservedOf(cases: seq<Json>, sha: string, response: map<string, Json>, rs: seq<Json>)
    requires response == Reporting(sha, rs)
    ensures Deserved(cases, sha, response) ==
            if AllJudgeable(cases, rs) then Scored(|cases|, |Misses(cases, rs)|) else CandidateFault
  {
    ReportingFacts(sha, rs);
    forall qs | response == Reporting(sha, qs) ensures qs == rs { ReportingFacts(sha, qs); }
  }

  lemma RecordDeserves(c: Codec, call: Call, n: nat, b: Bundle, cases: seq<Json>, response: map<string, Json>)
    requires Faithful(c) && Loads(c, call, n, b) && RawCases(c, call.raw) == Some(cases)
    requires At(response, Results).Arr? ==> NumericCases(At(response, Results).items)
    ensures Validated(c.value, b.challenge, b.oracle, response, b.challengeSha256, n) ==
            Deserved(cases, b.challengeSha256, response)
  {
    var sha := b.challengeSha256;
    ValidatedBundle(c, call, cases, response, sha);
    RawCasesAreDecodable(c, call.raw);
    if ResponseHead(response, sha) && At(response, Results).Arr? {
      var rs := At(response, Results).items;
      HeadedIsReporting(response, sha);
      DeservedOf(cases, sha, response, rs);
      if |rs| == n { VerdictsCount(c, cases, rs); }
    } else {
      forall rs ensures response != Reporting(sha, rs) { ReportingFacts(sha, rs); }
    }
  }

  /** On a loaded bundle the scorer's outcome is the one the candidate's output deserves:
      the misses of a record whose every result can be judged, and the candidate's fault
      for any other output. */
  lemma OutcomesAreDeserved(c: Codec, call: Call, n: nat, b: Bundle, cases: seq<Json>, binding: Binding, response: Bytes)
    requires Faithful(c) && Loads(c, call, n, b) && RawCases(c, call.raw) == Some(cases)
    requires Describes(c, binding, b, response)
    ensures Score(c, binding, b.challengeBytes, b.oracleBytes, response) ==
            var found := CandidateResponse(c, response);
            if found == None then CandidateFault else Deserved(cases, b.challengeSha256, found.value)
  {
    FilesDecode(c, call, n, b);
    BundleHashes(c, call, n, b);
    ScoreShape(c, binding, b, response);
    var found := CandidateResponse(c, response);
    if found.Some? {
      ResponsesAreNumeric(c, response);
      RecordDeserves(c, call, n, b, cases, found.value);
    }
  }

  /** What the printed record says of such an outcome. */
  lemma PrintedCounts(c: Codec, b: Binding, o: Outcome, text: string)
    requires Reachable(o, b.expectedTests) && !Blank(text) && !o.EvaluatorFault?
    ensures var raw := Render(Payload(c, b, o, text));
            && At(raw, TestsRun) == Int(if o.Scored? then o.testsRun else 0)
            && At(raw, Failures) == Int(if o.Scored? then o.failures else b.expectedTests)
            && At(raw, Successful) == Bool(o.Scored? && o.failures == 0)
            && At(raw, Errors) == Int(0) && At(raw, Skipped) == Int(0)
            && At(raw, Classification) == Str(if o.Scored? && o.failures == 0 then "passed" else "candidate_failed")
            && (At(raw, Message) == if o.Scored? then Null else Str(text))
  {
    PayloadParts(c, b, o, text);
    RecordReadsBack(Render(Payload(c, b, o, text)), b, ScorerBindingHash(c, b), o, text);
  }
}
