/** Every record the scorer prints for a matching binding reaches the host intact,
    and the status the host grants is the verdict the scorer reached. */
module RecordLaws {
  import opened Usage
  import opened Text
  import opened Json
  import opened JsonText
  import opened Wire
  import opened Names
  import opened Bundles
  import opened Scorer
  import opened Host
  import opened VerdictLaws

  // ------------------------------------------------------------- the binding hash

  lemma BindingIsProper(b: Binding)
    ensures Proper(BindingJson(b))
  {
    RenderedIsProper(BindingRecord(b));
  }

  ghost predicate InjectiveSha(c: Codec) {
    forall a, b :: c.sha256(a) == c.sha256(b) ==> a == b
  }

  /** The scorer and the host hash a binding alike exactly when it is plain text. */
  lemma BindingHashesAgree(c: Codec, b: Binding)
    requires Encodes(c)
    ensures Plain(BindingJson(b)) ==> ScorerBindingHash(c, b) == HostBindingHash(c, b)
    ensures InjectiveSha(c) && ScorerBindingHash(c, b) == HostBindingHash(c, b) ==> Plain(BindingJson(b))
  {
    BindingIsProper(b);
    TextsAgreeOnPlainValues(BindingJson(b));
  }

  // ------------------------------------------------------------------- the record

  /** An outcome the scorer can reach when this many tests are expected. */
  predicate Reachable(o: Outcome, expectedTests: int) {
    expectedTests > 0 && (o.Scored? ==> o.testsRun == expectedTests && o.failures <= expectedTests)
  }

  /** What the counts of an outcome are recorded as. */
  function Tail(o: Outcome, expectedTests: nat, text: string): Record {
    match o
    case Scored(run, failures) =>
      Counts(if failures == 0 then PASSED else CANDIDATE_FAILED, 0, failures, failures == 0, run)
    case CandidateFault => Counts(CANDIDATE_FAILED, 0, expectedTests, false, 0)[Message := Str(text)]
    case EvaluatorFault => Counts(EVALUATOR_ERROR, 1, 0, false, 0)[Field.Error := Str(text)]
  }

  lemma PayloadParts(c: Codec, b: Binding, o: Outcome, text: string)
    requires Reachable(o, b.expectedTests)
    ensures Payload(c, b, o, text) == BasePayload(b, ScorerBindingHash(c, b)) + Tail(o, b.expectedTests, text)
  {}

  const COUNT_FIELDS := {Classification, Errors, Failures, Skipped, Successful, TestsRun}

  lemma TailFields(o: Outcome, expectedTests: nat, text: string)
    ensures Tail(o, expectedTests, text).Keys ==
            COUNT_FIELDS + (if o.CandidateFault? then {Message} else {}) + (if o.EvaluatorFault? then {Field.Error} else {})
  {}

  lemma BaseFields(b: Binding, bindingHash: string)
    ensures BasePayload(b, bindingHash).Keys == BASE_FIELDS - COUNT_FIELDS
  {}

  lemma HalvesAreDisjoint(b: Binding, bindingHash: string, o: Outcome, expectedTests: nat, text: string)
    ensures BasePayload(b, bindingHash).Keys !! Tail(o, expectedTests, text).Keys
  {
    TailFields(o, expectedTests, text);
    BaseFields(b, bindingHash);
  }

  /** The object holds each of the record's fields, and no other. */
  ghost predicate Carries(raw: map<string, Json>, r: Record) {
    forall f: Field :: At(raw, f) == (if f in r then r[f] else Null) && (Name(f) in raw <==> f in r)
  }

  lemma RenderCarries(r: Record)
    ensures Carries(Render(r), r)
  {
    forall f: Field ensures At(Render(r), f) == (if f in r then r[f] else Null) && (Name(f) in Render(r) <==> f in r) {
      RenderAt(r, f);
    }
  }

  /** The counts a host reads back. */
  predicate Reads(raw: map<string, Json>, o: Outcome, n: nat, text: string) {
    && At(raw, Skipped) == Int(0)
    && At(raw, Message) == (if o.CandidateFault? then Str(text) else Null)
    && At(raw, Field.Error) == (if o.EvaluatorFault? then Str(text) else Null)
    && match o
       case Scored(run, failures) =>
         && At(raw, Classification) == (if failures == 0 then PASSED else CANDIDATE_FAILED) && At(raw, Errors) == Int(0)
         && At(raw, Failures) == Int(failures) && At(raw, Successful) == Bool(failures == 0) && At(raw, TestsRun) == Int(run)
       case CandidateFault =>
         && At(raw, Classification) == CANDIDATE_FAILED && At(raw, Errors) == Int(0) && At(raw, Failures) == Int(n)
         && At(raw, Successful) == Bool(false) && At(raw, TestsRun) == Int(0)
       case EvaluatorFault =>
         && At(raw, Classification) == EVALUATOR_ERROR && At(raw, Errors) == Int(1) && At(raw, Failures) == Int(0)
         && At(raw, Successful) == Bool(false) && At(raw, TestsRun) == Int(0)
  }

  lemma MergedTail(base: Record, tail: Record, f: Field)
    requires base.Keys !! tail.Keys && (f in tail || f !in base)
    ensures (if f in base + tail then (base + tail)[f] else Null) == (if f in tail then tail[f] else Null)
  {}

  const TAIL_FIELDS := COUNT_FIELDS + {Message, Field.Error}

  /** The object holds the tail's fields, and lacks the ones the tail lacks. */
  predicate TailCarried(raw: map<string, Json>, t: Record) {
    forall f: Field :: f in TAIL_FIELDS ==> At(raw, f) == if f in t then t[f] else Null
  }

  lemma TailIsCarried(raw: map<string, Json>, base: Record, t: Record)
    requires base.Keys == BASE_FIELDS - COUNT_FIELDS && t.Keys <= TAIL_FIELDS && Carries(raw, base + t)
    ensures TailCarried(raw, t)
  {
    forall f: Field | f in TAIL_FIELDS ensures At(raw, f) == if f in t then t[f] else Null {
      assert f !in BASE_FIELDS - COUNT_FIELDS;
      MergedTail(base, t, f);
    }
  }

  lemma CountsCarried(raw: map<string, Json>, t: Record, o: Outcome, n: nat, text: string)
    requires TailCarried(raw, t) && t == Tail(o, n, text)
    ensures At(raw, Classification) == t[Classification] && At(raw, Errors) == t[Errors] && At(raw, Failures) == t[Failures]
    ensures At(raw, Skipped) == t[Skipped] && At(raw, Successful) == t[Successful] && At(raw, TestsRun) == t[TestsRun]
    ensures At(raw, Message) == (if o.CandidateFault? then Str(text) else Null)
    ensures At(raw, Field.Error) == (if o.EvaluatorFault? then Str(text) else Null)
  {
    TailFields(o, n, text);
  }

  lemma TailReadsBack(raw: map<string, Json>, o: Outcome, n: nat, text: string)
    requires TailCarried(raw, Tail(o, n, text))
    ensures Reads(raw, o, n, text)
  {
    CountsCarried(raw, Tail(o, n, text), o, n, text);
  }

  lemma LabelsDiffer()
    ensures PASSED != CANDIDATE_FAILED && PASSED != EVALUATOR_ERROR && CANDIDATE_FAILED != EVALUATOR_ERROR
  {
    assert |"passed"| == 6 && |"candidate_failed"| == 16 && |"evaluator_error"| == 15;
  }

  lemma ReadingIsConsistent(raw: map<string, Json>, o: Outcome, n: nat, text: string)
    requires Reads(raw, o, n, text) && Reachable(o, n) && !Blank(text) && At(raw, ExpectedTests) == Int(n)
    ensures NaturalCounts(raw) && Consistent(raw, n)
  {
    LabelsDiffer();
  }

  // ------------------------------------------------------------- host validation

  lemma BaseIsBound(c: Codec, b: Binding, raw: map<string, Json>, base: Record, t: Record)
    requires base == BasePayload(b, HostBindingHash(c, b)) && base.Keys !! t.Keys && Carries(raw, base + t)
    ensures Bound(c, b, raw)
  {
    forall f | f in base ensures LooselyEqual(c.value, At(raw, f), base[f]) {
      assert f in base + t && (base + t)[f] == base[f];
      LooselyEqualToItself(c.value, base[f]);
    }
  }

  /** A record with another binding hash is not bound. */
  lemma OtherHashIsNotBound(c: Codec, b: Binding, raw: map<string, Json>, hash: string)
    requires At(raw, BindingSha256) == Str(hash) && Bound(c, b, raw)
    ensures hash == HostBindingHash(c, b)
  {
    var expected := BasePayload(b, HostBindingHash(c, b));
    assert BindingSha256 in expected && expected[BindingSha256] == Str(HostBindingHash(c, b));
    TextsAreLooselyEqualOnlyToThemselves(c.value, At(raw, BindingSha256), HostBindingHash(c, b));
  }

  function Extras(o: Outcome): set<Field> {
    (if o.CandidateFault? then {Message} else {}) + (if o.EvaluatorFault? then {Field.Error} else {})
  }

  lemma AllowedIsExtras(raw: map<string, Json>, o: Outcome, n: nat, text: string)
    requires Reads(raw, o, n, text) && (Name(Message) in raw <==> o.CandidateFault?)
    ensures AllowedFields(raw) == BASE_FIELDS + Extras(o)
  {
    LabelsDiffer();
  }

  lemma PayloadFields(base: Record, o: Outcome, n: nat, text: string)
    requires base.Keys == BASE_FIELDS - COUNT_FIELDS
    ensures (base + Tail(o, n, text)).Keys == BASE_FIELDS + Extras(o)
  {
    TailFields(o, n, text);
    assert COUNT_FIELDS <= BASE_FIELDS;
  }

  lemma MessageIsPresent(base: Record, o: Outcome, n: nat, text: string)
    requires base.Keys == BASE_FIELDS - COUNT_FIELDS
    ensures Message in base + Tail(o, n, text) <==> o.CandidateFault?
  {
    PayloadFields(base, o, n, text);
  }

  lemma FieldsAreExact(raw: map<string, Json>, base: Record, o: Outcome, n: nat, text: string)
    requires base.Keys == BASE_FIELDS - COUNT_FIELDS && raw == Render(base + Tail(o, n, text)) && Reads(raw, o, n, text)
    ensures HasExactly(raw, AllowedFields(raw))
  {
    MessageIsPresent(base, o, n, text);
    RenderAt(base + Tail(o, n, text), Message);
    AllowedIsExtras(raw, o, n, text);
    PayloadFields(base, o, n, text);
    RenderHas(base + Tail(o, n, text), BASE_FIELDS + Extras(o));
  }

  lemma HalvesReadBack(raw: map<string, Json>, base: Record, o: Outcome, n: nat, text: string)
    requires base.Keys == BASE_FIELDS - COUNT_FIELDS && raw == Render(base + Tail(o, n, text))
    ensures Carries(raw, base + Tail(o, n, text)) && Reads(raw, o, n, text) && HasExactly(raw, AllowedFields(raw))
  {
    RenderCarries(base + Tail(o, n, text));
    TailFields(o, n, text);
    TailIsCarried(raw, base, Tail(o, n, text));
    TailReadsBack(raw, o, n, text);
    FieldsAreExact(raw, base, o, n, text);
  }

  lemma BaseReadsBack(raw: map<string, Json>, b: Binding, hash: string, t: Record)
    requires Carries(raw, BasePayload(b, hash) + t) && BasePayload(b, hash).Keys !! t.Keys
    ensures At(raw, ExpectedTests) == Int(b.expectedTests) && At(raw, BindingSha256) == Str(hash)
  {
    assert ExpectedTests in BasePayload(b, hash) + t && BindingSha256 in BasePayload(b, hash) + t;
  }

  /** Everything but the hash and the binding itself is in order. */
  predicate WellReported(raw: map<string, Json>, o: Outcome, n: int, text: string, hash: string) {
    && n >= 0 && Reads(raw, o, n, text) && HasExactly(raw, AllowedFields(raw))
    && NaturalCounts(raw) && Consistent(raw, n) && At(raw, BindingSha256) == Str(hash)
  }

  lemma RecordReadsBack(raw: map<string, Json>, b: Binding, hash: string, o: Outcome, text: string)
    requires Reachable(o, b.expectedTests) && !Blank(text)
    requires raw == Render(BasePayload(b, hash) + Tail(o, b.expectedTests, text))
    ensures WellReported(raw, o, b.expectedTests, text, hash)
  {
    BaseFields(b, hash);
    HalvesReadBack(raw, BasePayload(b, hash), o, b.expectedTests, text);
    HalvesAreDisjoint(b, hash, o, b.expectedTests, text);
    BaseReadsBack(raw, b, hash, Tail(o, b.expectedTests, text));
    ReadingIsConsistent(raw, o, b.expectedTests, text);
  }

  /** A printed record is valid exactly when its binding hash is the host's. */
  lemma PrintedRecordsValidate(c: Codec, b: Binding, o: Outcome, text: string, hash: string)
    requires Reachable(o, b.expectedTests) && !Blank(text)
    ensures ValidCompletion(c, b, Render(BasePayload(b, hash) + Tail(o, b.expectedTests, text))) <==> hash == HostBindingHash(c, b)
  {
    var t := Tail(o, b.expectedTests, text);
    var raw := Render(BasePayload(b, hash) + t);
    RecordReadsBack(raw, b, hash, o, text);
    if hash == HostBindingHash(c, b) {
      RenderCarries(BasePayload(b, hash) + t);
      HalvesAreDisjoint(b, hash, o, b.expectedTests, text);
      BaseIsBound(c, b, raw, BasePayload(b, hash), t);
    }
    if Bound(c, b, raw) { OtherHashIsNotBound(c, b, raw, hash); }
  }

  // ------------------------------------------------------------------ extraction

  /** Texts, truth values and counts up to n. */
  predicate Scalars(r: Record, n: nat) {
    forall f :: f in r ==> r[f].Str? || r[f].Bool? || (r[f].Int? && 0 <= r[f].i <= n)
  }

  lemma BaseIsScalar(b: Binding, hash: string)
    requires b.expectedTests > 0
    ensures Scalars(BasePayload(b, hash), b.expectedTests)
  {}

  lemma TailIsScalar(o: Outcome, n: nat, text: string)
    requires Reachable(o, n)
    ensures Scalars(Tail(o, n, text), n)
  {}

  lemma ScalarIsDecodable(c: Codec, j: Json, n: nat, depth: nat)
    requires j.Str? || j.Bool? || (j.Int? && 0 <= j.i <= n)
    requires |Decimal(n)| <= c.digits
    ensures Proper(j) && Decodable(c, j, depth)
  {
    if j.Int? { SmallerNumbersAreNoLonger(j.i, n); }
  }

  lemma ScalarsAreDecodable(c: Codec, base: Record, t: Record, n: nat)
    requires Scalars(base, n) && Scalars(t, n) && |Decimal(n)| <= c.digits && 0 < c.depth
    ensures Proper(Obj(Render(base + t))) && Decodable(c, Obj(Render(base + t)), c.depth)
  {
    var r := base + t;
    forall f | f in r ensures Proper(r[f]) && Decodable(c, r[f], c.depth - 1) {
      assert r[f] == if f in t then t[f] else base[f];
      ScalarIsDecodable(c, r[f], n, c.depth - 1);
    }
    RenderedIsProper(r);
    RenderedIsDecodable(c, r, c.depth);
  }

  lemma PayloadIsDecodable(c: Codec, b: Binding, o: Outcome, text: string)
    requires Reachable(o, b.expectedTests) && |Decimal(b.expectedTests)| <= c.digits && 0 < c.depth
    ensures Proper(Obj(Render(Payload(c, b, o, text)))) && Decodable(c, Obj(Render(Payload(c, b, o, text))), c.depth)
  {
    PayloadParts(c, b, o, text);
    BaseIsScalar(b, ScorerBindingHash(c, b));
    TailIsScalar(o, b.expectedTests, text);
    ScalarsAreDecodable(c, BasePayload(b, ScorerBindingHash(c, b)), Tail(o, b.expectedTests, text), b.expectedTests);
  }

  function RecordText(c: Codec, b: Binding, o: Outcome, text: string): string {
    Canonical(true, Obj(Render(Payload(c, b, o, text))))
  }

  /** The printed line is ASCII, so it is one line and decodes to its record. */
  lemma LineIsOneLine(c: Codec, b: Binding, o: Outcome, text: string)
    requires Faithful(c) && Reachable(o, b.expectedTests) && |Decimal(b.expectedTests)| <= c.digits
    ensures EmittedLine(c, b, o, text) == RESULT_PREFIX + RecordText(c, b, o, text) && OneLine(EmittedLine(c, b, o, text))
    ensures c.loads(RecordText(c, b, o, text)) == Some(Obj(Render(Payload(c, b, o, text))))
  {
    PayloadIsDecodable(c, b, o, text);
    CanonicalIsPrintable(Obj(Render(Payload(c, b, o, text))));
    assert Printable(RecordText(c, b, o, text));
    PrefixIsOneLine(RecordText(c, b, o, text));
  }

  lemma PrefixIsOneLine(t: string)
    requires Printable(t)
    ensures OneLine(RESULT_PREFIX + t)
  {
    assert Printable(RESULT_PREFIX);
    PrintableParts(RESULT_PREFIX, t);
  }

  /** Lines a scorer may print before its record. */
  predicate Noise(noise: seq<Bytes>) {
    NoneMarked(RESULT_PREFIX, noise) && forall i :: 0 <= i < |noise| ==> OneLine(noise[i])
  }

  lemma OutputSplits(noise: seq<Bytes>, line: Bytes)
    requires Noise(noise) && OneLine(line)
    ensures SplitLines(JoinLines(noise + [line, ""])) == noise + [line, ""]
  {
    SplitJoinedLines(noise + [line, ""]);
  }

  lemma ExtractionShape(c: Codec, b: Binding, stdout: Bytes, lines: seq<Bytes>, record: Bytes, raw: map<string, Json>)
    requires c.utf8(stdout) && SplitLines(stdout) == lines && FinalRecord(RESULT_PREFIX, lines) == Some(record)
    requires c.loads(record) == Some(Obj(raw))
    ensures ExtractCompletion(c, b, stdout) ==
            Extracted(if ValidCompletion(c, b, raw) then Some(raw) else None, JoinLines(Unmarked(RESULT_PREFIX, lines)))
  {}

  /** Behind any unmarked lines, the record is extracted unchanged exactly when the two
      binding hashes agree, and the other lines are kept. The expected count must be one
      the decoder can read. */
  lemma RecordsArriveIntact(c: Codec, b: Binding, o: Outcome, noise: seq<Bytes>, text: string)
    requires Faithful(c) && Reachable(o, b.expectedTests) && !Blank(text) && Noise(noise)
    requires |Decimal(b.expectedTests)| <= c.digits
    requires c.utf8(ScorerOutput(c, b, o, noise, text))
    ensures ExtractCompletion(c, b, ScorerOutput(c, b, o, noise, text)) ==
            Extracted(if ScorerBindingHash(c, b) == HostBindingHash(c, b) then Some(Render(Payload(c, b, o, text))) else None,
                      JoinLines(noise + [""]))
  {
    var raw, record := Render(Payload(c, b, o, text)), RecordText(c, b, o, text);
    LineIsOneLine(c, b, o, text);
    OutputSplits(noise, EmittedLine(c, b, o, text));
    RecordIsFound(RESULT_PREFIX, noise, record);
    ExtractionShape(c, b, ScorerOutput(c, b, o, noise, text), noise + [EmittedLine(c, b, o, text), ""], record, raw);
    PayloadParts(c, b, o, text);
    PrintedRecordsValidate(c, b, o, text, ScorerBindingHash(c, b));
  }

  /** The status the host grants each outcome. */
  function StatusOf(o: Outcome): Status {
    match o
    case Scored(_, failures) => if failures == 0 then StatusPassed else TestsFailed
    case CandidateFault => TestsFailed
    case EvaluatorFault => InfrastructureError
  }

  lemma StatusFits(raw: map<string, Json>, o: Outcome, n: nat, text: string)
    requires Reads(raw, o, n, text)
    ensures TrustedStatus(Exited, ExitCode(o), Some(raw)) == StatusOf(o)
  {
    LabelsDiffer();
  }

  /** A plain binding's verdict is the host's status, behind any unmarked output; a
      binding that is not plain never passes. */
  lemma StatusIsTheVerdict(c: Codec, b: Binding, o: Outcome, noise: seq<Bytes>, text: string)
    requires Faithful(c) && Reachable(o, b.expectedTests) && !Blank(text) && Noise(noise)
    requires |Decimal(b.expectedTests)| <= c.digits
    requires c.utf8(ScorerOutput(c, b, o, noise, text))
    ensures var status := TrustedStatus(Exited, ExitCode(o), ExtractCompletion(c, b, ScorerOutput(c, b, o, noise, text)).completion);
            && (Plain(BindingJson(b)) ==> status == StatusOf(o))
            && (InjectiveSha(c) && !Plain(BindingJson(b)) ==> status == InfrastructureError)
  {
    var raw := Render(Payload(c, b, o, text));
    RecordsArriveIntact(c, b, o, noise, text);
    BindingHashesAgree(c, b);
    PayloadParts(c, b, o, text);
    RecordReadsBack(raw, b, ScorerBindingHash(c, b), o, text);
    StatusFits(raw, o, b.expectedTests, text);
  }

  lemma CaseCountIsReadable(c: Codec, call: Call, n: nat, bundle: Bundle)
    requires Decodes(c) && Loads(c, call, n, bundle)
    ensures |Decimal(n)| <= c.digits
  {
    IdentifiersBoundTheCases(c, call, n, bundle);
    SmallerNumbersAreNoLonger(n, 9_999);
    assert |Decimal(9)| == 1 && |Decimal(99)| == 2 && |Decimal(999)| == 3 && |Decimal(9_999)| == 4;
  }

  /** End to end: on a bundle the loader accepted and a plain binding for it, the host
      reports that the tests passed exactly when the candidate's one final record
      returns, case by case and in order, the oracle's values; otherwise it reports
      that they failed, and never blames the infrastructure. */
  lemma PassedExactlyWhenCorrect(
      c: Codec, call: Call, n: nat, bundle: Bundle, cases: seq<Json>, b: Binding, response: Bytes, noise: seq<Bytes>, text: string)
    requires Faithful(c) && Loads(c, call, n, bundle) && RawCases(c, call.raw) == Some(cases)
    requires Describes(c, b, bundle, response) && Plain(BindingJson(b)) && !Blank(text) && Noise(noise)
    requires var o := Score(c, b, bundle.challengeBytes, bundle.oracleBytes, response);
             c.utf8(ScorerOutput(c, b, o, noise, text))
    ensures ScoredStatus(c, b, bundle, response, noise, text) ==
            if CandidateResponse(c, response) == Some(CorrectResponse(bundle, cases)) then StatusPassed else TestsFailed
  {
    var o := Score(c, b, bundle.challengeBytes, bundle.oracleBytes, response);
    BundleHashes(c, call, n, bundle);
    CaseCountIsReadable(c, call, n, bundle);
    LoadedBundlesScore(c, call, n, bundle, cases, b, response);
    StatusIsTheVerdict(c, b, o, noise, text);
  }
}
