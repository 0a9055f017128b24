/** The sealed oracle: loading it, and deriving the challenge a candidate sees. */
module Bundles {
  import opened Usage
  import opened Text
  import opened Json
  import opened JsonLaws
  import opened Wire
  import opened Names

  const ORACLE_SCHEMA := Str("guildmind.python-call-oracle/v1")
  const CHALLENGE_SCHEMA := Str("guildmind.python-call-challenge/v1")
  const PROTOCOL := Str("python-call-v1")
  const RETURNED := Str("returned")
  const MAX_ORACLE_BYTES := 1_048_576
  const MAX_CASES := 10_000
  const MAX_ARGUMENTS := 64
  const MAX_JSON_DEPTH := 32

  /** Finite numbers and a bounded nesting depth. */
  predicate Acceptable(j: Json, depth: nat) {
    && depth <= MAX_JSON_DEPTH && !j.Infinite?
    && (j.Arr? ==> forall i :: 0 <= i < |j.items| ==> Acceptable(j.items[i], depth + 1))
    && (j.Obj? ==> forall k :: k in j.fields ==> Acceptable(j.fields[k], depth + 1))
  }

  lemma {:induction false} AcceptableIsProper(j: Json, depth: nat)
    requires Acceptable(j, depth) && Numeric(j)
    ensures Proper(j)
    decreases j
  {
    if j.Arr? {
      forall i | 0 <= i < |j.items| ensures Proper(j.items[i]) { AcceptableIsProper(j.items[i], depth + 1); }
    } else if j.Obj? {
      forall k | k in j.fields ensures Proper(j.fields[k]) { AcceptableIsProper(j.fields[k], depth + 1); }
    }
  }

  // ----------------------------------------------------------------------- cases

  const CASE_PREFIX := "case-"

  /** The identifier pattern: the prefix and exactly four digits. */
  predicate IsCaseId(s: string) {
    |s| == 9 && CASE_PREFIX <= s && forall i :: 5 <= i < |s| ==> IsDigit(s[i])
  }

  /** The identifier the case at this place, counted from one, must have. */
  function ExpectedId(index: nat): string {
    CASE_PREFIX + PadTo(4, Decimal(index))
  }

  lemma ExpectedIdsAreDistinct(a: nat, b: nat)
    requires ExpectedId(a) == ExpectedId(b)
    ensures a == b
  {
    var x, y := PadTo(4, Decimal(a)), PadTo(4, Decimal(b));
    assert x == ExpectedId(a)[5..] && y == ExpectedId(b)[5..];
    NumberOfPadded(4, Decimal(a));
    NumberOfPadded(4, Decimal(b));
    NumberOfDecimal(a);
    NumberOfDecimal(b);
  }

  predicate KeywordStart(c: char) {
    'A' <= c <= 'Z' || 'a' <= c <= 'z' || c == '_'
  }

  predicate IsKeyword(s: string) {
    s != "" && KeywordStart(s[0]) && forall i :: 0 <= i < |s| ==> KeywordStart(s[i]) || IsDigit(s[i])
  }

  const CASE_FIELDS := {CaseId, Args, Kwargs, Field.Expected}
  const CHALLENGE_FIELDS := {CaseId, Args, Kwargs}
  const OUTCOME_FIELDS := {Kind, Value}

  /** An expected outcome: a returned value. */
  predicate IsOutcome(j: Json) {
    j.Obj? && HasExactly(j.fields, OUTCOME_FIELDS) && At(j.fields, Kind) == RETURNED
  }

  /** A case the loader accepts at this place. */
  predicate CaseAllowed(index: nat, raw: Json) {
    && raw.Obj? && HasExactly(raw.fields, CASE_FIELDS)
    && var id, args, kwargs, expected := At(raw.fields, CaseId), At(raw.fields, Args), At(raw.fields, Kwargs),
                                         At(raw.fields, Field.Expected);
    && id.Str? && IsCaseId(id.s) && id.s == ExpectedId(index)
    && args.Arr? && |args.items| <= MAX_ARGUMENTS
    && kwargs.Obj? && |kwargs.fields| <= MAX_ARGUMENTS && (forall k :: k in kwargs.fields ==> IsKeyword(k))
    && IsOutcome(expected)
    && Acceptable(args, 0) && Acceptable(kwargs, 0) && Acceptable(At(expected.fields, Value), 0)
  }

  function OracleFields(raw: map<string, Json>): Record {
    map[Args := At(raw, Args), CaseId := At(raw, CaseId), Field.Expected := At(raw, Field.Expected),
        Kwargs := At(raw, Kwargs)]
  }

  function OracleCase(raw: map<string, Json>): Json {
    Obj(Render(OracleFields(raw)))
  }

  function ChallengeFields(raw: map<string, Json>): Record {
    map[Args := At(raw, Args), CaseId := At(raw, CaseId), Kwargs := At(raw, Kwargs)]
  }

  function ChallengeCase(raw: map<string, Json>): Json {
    Obj(Render(ChallengeFields(raw)))
  }

  /** Rebuilding an allowed case from its fields changes nothing. */
  lemma OracleCaseIsTheRawCase(index: nat, raw: Json)
    requires CaseAllowed(index, raw)
    ensures OracleCase(raw.fields) == raw
  {
    var r := OracleFields(raw.fields);
    assert r.Keys == CASE_FIELDS;
    ExactObjectIsRendered(raw.fields, r);
  }

  // ---------------------------------------------------------------------- bundle

  datatype Call = Call(callableName: string, moduleName: string, raw: Bytes)

  datatype Bundle = Bundle(
    challenge: Json, challengeBytes: Bytes, challengeSha256: string,
    oracle: Json, oracleBytes: Bytes, oracleSha256: string, caseCount: nat)

  function EntrypointOf(call: Call): Json {
    Obj(Render(map[Callable := Str(call.callableName), Field.Module := Str(call.moduleName)]))
  }

  function ChallengeRecord(entrypoint: Json, cases: seq<Json>): Record {
    map[Cases := Arr(cases), Entrypoint := entrypoint, Field.Protocol := PROTOCOL, SchemaVersion := CHALLENGE_SCHEMA]
  }

  function ChallengeOf(call: Call, cases: seq<Json>): Json {
    Obj(Render(ChallengeRecord(EntrypointOf(call), cases)))
  }

  function OracleRecord(cases: seq<Json>): Record {
    map[Cases := Arr(cases), SchemaVersion := ORACLE_SCHEMA]
  }

  function OracleOf(cases: seq<Json>): Json {
    Obj(Render(OracleRecord(cases)))
  }

  /** A case without its expected outcome; anything else is no case. */
  function Stripped(j: Json): Json {
    if j.Obj? then ChallengeCase(j.fields) else Null
  }

  function ChallengeCases(cases: seq<Json>): seq<Json> {
    seq(|cases|, i requires 0 <= i < |cases| => Stripped(cases[i]))
  }

  function BundleOf(c: Codec, call: Call, cases: seq<Json>): Bundle {
    var oracle, challenge := OracleOf(cases), ChallengeOf(call, ChallengeCases(cases));
    var oracleBytes, challengeBytes := c.encode(Canonical(false, oracle)), c.encode(Canonical(false, challenge));
    Bundle(challenge, challengeBytes, c.sha256(challengeBytes), oracle, oracleBytes, c.sha256(oracleBytes), |cases|)
  }

  predicate CasesAllowed(cases: seq<Json>) {
    forall i :: 0 <= i < |cases| ==> CaseAllowed(i + 1, cases[i])
  }

  /** The oracle file's cases, if it is an oracle at all. */
  function RawCases(c: Codec, raw: Bytes): Option<seq<Json>> {
    if |raw| > MAX_ORACLE_BYTES then None
    else
      var j := c.loads(raw);
      if j == None || !j.value.Obj? || !HasExactly(j.value.fields, {SchemaVersion, Cases}) then None
      else if At(j.value.fields, SchemaVersion) != ORACLE_SCHEMA || !At(j.value.fields, Cases).Arr? then None
      else Some(At(j.value.fields, Cases).items)
  }

  /** What an accepted oracle file is. */
  predicate Loads(c: Codec, call: Call, expectedCount: nat, b: Bundle) {
    var cases := RawCases(c, call.raw);
    cases.Some? && 0 < |cases.value| <= MAX_CASES && |cases.value| == expectedCount && CasesAllowed(cases.value)
    && b == BundleOf(c, call, cases.value)
  }

  function IssuedIds(n: nat): set<string> {
    if n == 0 then {} else IssuedIds(n - 1) + {ExpectedId(n)}
  }

  lemma {:induction false} NextIdIsNew(n: nat, index: nat)
    requires n < index
    ensures ExpectedId(index) !in IssuedIds(n)
  {
    if n > 0 {
      NextIdIsNew(n - 1, index);
      if ExpectedId(index) == ExpectedId(n) { ExpectedIdsAreDistinct(index, n); }
    }
  }

  lemma OneMoreAllowed(before: seq<Json>, x: Json)
    requires CasesAllowed(before) && CaseAllowed(|before| + 1, x)
    ensures CasesAllowed(before + [x])
  {}

  lemma OneMoreChallenge(before: seq<Json>, x: Json)
    ensures ChallengeCases(before + [x]) == ChallengeCases(before) + [Stripped(x)]
  {}

  /** The cases before i are allowed, and both lists hold them. */
  ghost predicate Collected(cases: seq<Json>, i: nat, oracleCases: seq<Json>, challengeCases: seq<Json>) {
    && i <= |cases| && CasesAllowed(cases[..i])
    && oracleCases == cases[..i] && challengeCases == ChallengeCases(cases[..i])
  }

  lemma CollectOne(cases: seq<Json>, i: nat, oracleCases: seq<Json>, challengeCases: seq<Json>)
    requires Collected(cases, i, oracleCases, challengeCases) && i < |cases|
    ensures CaseAllowed(i + 1, cases[i]) ==>
      Collected(cases, i + 1, oracleCases + [cases[i]], challengeCases + [Stripped(cases[i])])
  {
    assert cases[..i + 1] == cases[..i] + [cases[i]];
    OneMoreChallenge(cases[..i], cases[i]);
    if CaseAllowed(i + 1, cases[i]) { OneMoreAllowed(cases[..i], cases[i]); }
  }

  lemma AllCollected(cases: seq<Json>, oracleCases: seq<Json>, challengeCases: seq<Json>)
    requires Collected(cases, |cases|, oracleCases, challengeCases)
    ensures CasesAllowed(cases) && oracleCases == cases && challengeCases == ChallengeCases(cases)
  {
    assert cases[..|cases|] == cases;
  }

  /** The loop over the cases: both case lists, or nothing when one is refused. No
      identifier is ever seen twice. */
  method CollectCases(cases: seq<Json>) returns (allowed: bool, oracleCases: seq<Json>, challengeCases: seq<Json>)
    ensures allowed == CasesAllowed(cases)
    ensures allowed ==> oracleCases == cases && challengeCases == ChallengeCases(cases)
  {
    oracleCases, challengeCases := [], [];
    var seen: set<string> := {};
    var i := 0;
    while i < |cases|
      invariant 0 <= i <= |cases| && Collected(cases, i, oracleCases, challengeCases)
      invariant seen == IssuedIds(i)
    {
      var allowed := CaseAllowed(i + 1, cases[i]);
      if !allowed {
        return false, [], [];
      }
      var id := At(cases[i].fields, CaseId).s;
      NextIdIsNew(i, i + 1);
      if id in seen {
        assert false;
      }
      seen := seen + {id};
      OracleCaseIsTheRawCase(i + 1, cases[i]);
      CollectOne(cases, i, oracleCases, challengeCases);
      oracleCases := oracleCases + [OracleCase(cases[i].fields)];
      challengeCases := challengeCases + [ChallengeCase(cases[i].fields)];
      i := i + 1;
    }
    AllCollected(cases, oracleCases, challengeCases);
    return true, oracleCases, challengeCases;
  }

  method LoadPythonCallBundle(c: Codec, call: Call, expectedCount: nat) returns (b: Option<Bundle>)
    ensures b.Some? ==> Loads(c, call, expectedCount, b.value)
    ensures b == None ==> forall x :: !Loads(c, call, expectedCount, x)
  {
    var raw := RawCases(c, call.raw);
    if raw == None || raw.value == [] || |raw.value| > MAX_CASES || |raw.value| != expectedCount {
      return None;
    }
    var allowed, oracleCases, challengeCases := CollectCases(raw.value);
    if !allowed {
      return None;
    }
    var oracle, challenge := OracleOf(oracleCases), ChallengeOf(call, challengeCases);
    var oracleBytes, challengeBytes := c.encode(Canonical(false, oracle)), c.encode(Canonical(false, challenge));
    return Some(Bundle(challenge, challengeBytes, c.sha256(challengeBytes), oracle, oracleBytes, c.sha256(oracleBytes),
                       |oracleCases|));
  }

  /** The case limit is never the one that binds: the identifier pattern has room for
      9,999 cases only. */
  lemma IdentifiersBoundTheCases(c: Codec, call: Call, expectedCount: nat, b: Bundle)
    requires Loads(c, call, expectedCount, b)
    ensures b.caseCount <= 9_999
  {
    var cases := RawCases(c, call.raw).value;
    if |cases| == MAX_CASES {
      assert CaseAllowed(MAX_CASES, cases[MAX_CASES - 1]);
      FiveDigits();
    }
  }

  lemma FiveDigits()
    ensures |Decimal(MAX_CASES)| == 5
  {
    assert |Decimal(1)| == 1;
    assert |Decimal(10)| == 2;
    assert |Decimal(100)| == 3;
    assert |Decimal(1_000)| == 4;
  }

  /** The two cases put the same question. */
  predicate SameQuestion(a: Json, b: Json) {
    a.Obj? && b.Obj? && forall f :: f in {CaseId, Args, Kwargs} ==> At(a.fields, f) == At(b.fields, f)
  }

  lemma SameQuestionSameChallenge(a: Json, b: Json)
    requires SameQuestion(a, b)
    ensures Stripped(a) == Stripped(b)
  {
    assert ChallengeFields(a.fields) == ChallengeFields(b.fields);
  }

  lemma SameQuestionsSameCases(x: seq<Json>, y: seq<Json>)
    requires |x| == |y| && forall i :: 0 <= i < |x| ==> SameQuestion(x[i], y[i])
    ensures ChallengeCases(x) == ChallengeCases(y)
  {
    forall i | 0 <= i < |x| ensures Stripped(x[i]) == Stripped(y[i]) { SameQuestionSameChallenge(x[i], y[i]); }
  }

  lemma LoadedChallenge(c: Codec, call: Call, n: nat, b: Bundle, cases: seq<Json>, challenge: Json)
    requires Loads(c, call, n, b) && RawCases(c, call.raw) == Some(cases) && challenge == ChallengeOf(call, ChallengeCases(cases))
    ensures |cases| == n && b.challenge == challenge && b.challengeBytes == c.encode(Canonical(false, challenge))
    ensures b.challengeSha256 == c.sha256(b.challengeBytes)
  {}

  lemma SameEntrypoint(call: Call, other: Call, cases: seq<Json>)
    requires other.callableName == call.callableName && other.moduleName == call.moduleName
    ensures ChallengeOf(other, cases) == ChallengeOf(call, cases)
  {}

  /** The candidate learns nothing of the expected values: oracles for the same call that
      put the same questions have the same challenge, whatever they expect. */
  lemma ChallengesHideTheAnswers(c: Codec, call: Call, other: Call, n: nat, a: Bundle, b: Bundle, x: seq<Json>, y: seq<Json>)
    requires Loads(c, call, n, a) && RawCases(c, call.raw) == Some(x) && Loads(c, other, n, b) && RawCases(c, other.raw) == Some(y)
    requires other.callableName == call.callableName && other.moduleName == call.moduleName
    requires |x| == |y| && forall i :: 0 <= i < |x| ==> SameQuestion(x[i], y[i])
    ensures a.challengeBytes == b.challengeBytes && a.challengeSha256 == b.challengeSha256 && a.challenge == b.challenge
  {
    var challenge := ChallengeOf(call, ChallengeCases(x));
    SameQuestionsSameCases(x, y);
    SameEntrypoint(call, other, ChallengeCases(x));
    LoadedChallenge(c, call, n, a, x, challenge);
    LoadedChallenge(c, other, n, b, y, challenge);
  }
}
