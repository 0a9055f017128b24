/** That what the runner takes for granted can be had: whatever one run is given, there
    are digests of 64 hexadecimal characters, and ways to write and read its two records,
    under which everything it may publish is told apart. */
module Digests {
  import opened Text
  import opened Usage
  import opened Events
  import opened Ledger
  import opened Json
  import opened JsonLaws
  import opened JsonText
  import opened Publication
  import opened Fixtures
  import Audit

  // ------------------------------------------------------------------ hexadecimals

  function Pow16(k: nat): nat {
    if k == 0 then 1 else 16 * Pow16(k - 1)
  }

  /** The last k hexadecimal digits of a number. */
  function HexOf(n: nat, k: nat): (s: string)
    ensures |s| == k && forall i :: 0 <= i < |s| ==> IsHex(s[i])
  {
    if k == 0 then "" else HexOf(n / 16, k - 1) + [HexChar(n % 16)]
  }

  lemma {:induction false} HexOfDecides(m: nat, n: nat, k: nat)
    requires m < Pow16(k) && n < Pow16(k) && HexOf(m, k) == HexOf(n, k)
    ensures m == n
  {
    if k > 0 {
      var a, b := HexOf(m / 16, k - 1), HexOf(n / 16, k - 1);
      SamePrefix(a, b, [HexChar(m % 16)], [HexChar(n % 16)]);
      assert [HexChar(m % 16)][0] == [HexChar(n % 16)][0];
      HexCharInjective(m % 16, n % 16);
      HexOfDecides(m / 16, n / 16, k - 1);
    }
  }

  // ------------------------------------------------------------------------ digests

  /** Where a byte string first stands in a list, or the list's length. */
  function Place(list: seq<Bytes>, b: Bytes): (n: nat)
    ensures n <= |list| && (b in list <==> n < |list|) && (n < |list| ==> list[n] == b)
  {
    if list == [] || list[0] == b then 0 else 1 + Place(list[1..], b)
  }

  function Digest(list: seq<Bytes>, b: Bytes): string {
    HexOf(Place(list, b), 64)
  }

  lemma DigestsDiffer(list: seq<Bytes>, a: Bytes, b: Bytes)
    requires |list| <= Pow16(64) && a in list && b in list && Digest(list, a) == Digest(list, b)
    ensures a == b
  {
    HexOfDecides(Place(list, a), Place(list, b), 64);
  }

  lemma {:induction false} PlaceInLonger(list: seq<Bytes>, more: seq<Bytes>, b: Bytes)
    requires b in list
    ensures Place(list + more, b) == Place(list, b)
  {
    if list[0] != b {
      assert (list + more)[1..] == list[1..] + more;
      PlaceInLonger(list[1..], more, b);
    }
  }

  // ------------------------------------------------------------------ text as bytes

  function NibbleByte(d: nat): bv8
    requires d < 16
  {
    match d
    case 0 => 0 case 1 => 1 case 2 => 2 case 3 => 3 case 4 => 4 case 5 => 5 case 6 => 6 case 7 => 7
    case 8 => 8 case 9 => 9 case 10 => 10 case 11 => 11 case 12 => 12 case 13 => 13 case 14 => 14 case _ => 15
  }

  /** Printable text, two bytes a character. */
  function TextBytes(text: string): (b: Bytes)
    ensures |b| == 2 * |text|
  {
    if text == "" then [] else [NibbleByte(text[0] as nat / 16 % 16), NibbleByte(text[0] as nat % 16)] + TextBytes(text[1..])
  }

  lemma NibbleDecides(c: nat, d: nat)
    requires c < 16 && d < 16 && NibbleByte(c) == NibbleByte(d)
    ensures c == d
  {}

  lemma NibblesDecide(c: nat, d: nat)
    requires c < 256 && d < 256
    requires NibbleByte(c / 16 % 16) == NibbleByte(d / 16 % 16) && NibbleByte(c % 16) == NibbleByte(d % 16)
    ensures c == d
  {
    NibbleDecides(c / 16 % 16, d / 16 % 16);
    NibbleDecides(c % 16, d % 16);
  }

  lemma {:induction false} TextBytesDecide(a: string, b: string)
    requires Printable(a) && Printable(b) && TextBytes(a) == TextBytes(b)
    ensures a == b
  {
    if a != "" && b != "" {
      var x, y := TextBytes(a), TextBytes(b);
      assert x[0] == y[0] && x[1] == y[1];
      NibblesDecide(a[0] as nat, b[0] as nat);
      assert x[2..] == TextBytes(a[1..]) && y[2..] == TextBytes(b[1..]);
      TextBytesDecide(a[1..], b[1..]);
      assert a == [a[0]] + a[1..] && b == [b[0]] + b[1..];
    }
  }

  // ------------------------------------------------------------------------ records

  function RefJson(r: ArtifactRef): Json {
    Arr([Str(r.mediaType), Int(r.sizeBytes), Str(r.sha256), Str(r.storageRef)])
  }

  function RefsJson(refs: seq<ArtifactRef>): Json {
    Arr(seq(|refs|, i requires 0 <= i < |refs| => RefJson(refs[i])))
  }

  function FieldJson(f: Field): Json {
    match f
    case Absent => Null
    case Text(text) => Str(text)
    case Malformed => Bool(false)
  }

  function StatusJson(s: RunStatus): Json {
    match s
    case Pending => Int(0)
    case Running => Int(1)
    case Succeeded => Int(2)
    case Failed => Int(3)
    case Cancelled => Int(4)
    case TimedOut => Int(5)
    case BudgetExhausted => Int(6)
    case InfrastructureError => Int(7)
  }

  function TaskJson(t: Audit.TaskRecord): Json {
    Arr([Str(t.taskId), Str(t.imageDigest), Str(t.contentHash), FieldJson(t.evaluatorVersion), RefJson(t.problemStatement),
         RefJson(t.repositorySnapshot), RefsJson(t.visibleTests)])
  }

  function EvaluationJson(e: Audit.EvaluationRecord): Json {
    Arr([Str(e.runId), StatusJson(e.runStatus), Str(e.patchHash), Str(e.taskHash), Str(e.evaluatorVersion), RefsJson(e.evidence)])
  }

  lemma RefJsonDecides(q: ArtifactRef, r: ArtifactRef)
    requires RefJson(q) == RefJson(r)
    ensures q == r
  {
    var a, b := RefJson(q).items, RefJson(r).items;
    assert a[0] == b[0] && a[1] == b[1] && a[2] == b[2] && a[3] == b[3];
  }

  lemma RefsJsonDecides(q: seq<ArtifactRef>, r: seq<ArtifactRef>)
    requires RefsJson(q) == RefsJson(r)
    ensures q == r
  {
    var a, b := RefsJson(q).items, RefsJson(r).items;
    assert |q| == |a| == |b| == |r|;
    forall i | 0 <= i < |q| ensures q[i] == r[i] {
      assert a[i] == b[i];
      RefJsonDecides(q[i], r[i]);
    }
  }

  lemma TaskJsonDecides(t: Audit.TaskRecord, u: Audit.TaskRecord)
    requires TaskJson(t) == TaskJson(u)
    ensures t == u
  {
    var a, b := TaskJson(t).items, TaskJson(u).items;
    assert a[0] == b[0] && a[1] == b[1] && a[2] == b[2] && a[3] == b[3] && a[4] == b[4] && a[5] == b[5] && a[6] == b[6];
    RefJsonDecides(t.problemStatement, u.problemStatement);
    RefJsonDecides(t.repositorySnapshot, u.repositorySnapshot);
    RefsJsonDecides(t.visibleTests, u.visibleTests);
  }

  lemma EvaluationJsonDecides(d: Audit.EvaluationRecord, e: Audit.EvaluationRecord)
    requires EvaluationJson(d) == EvaluationJson(e)
    ensures d == e
  {
    var a, b := EvaluationJson(d).items, EvaluationJson(e).items;
    assert a[0] == b[0] && a[1] == b[1] && a[2] == b[2] && a[3] == b[3] && a[4] == b[4] && a[5] == b[5];
    RefsJsonDecides(d.evidence, e.evidence);
  }

  lemma RefsJsonIsProper(refs: seq<ArtifactRef>)
    ensures Proper(RefsJson(refs))
  {
    forall i | 0 <= i < |refs| ensures Proper(RefsJson(refs).items[i]) { assert Proper(RefJson(refs[i])); }
  }

  lemma RecordsAreProper(t: Audit.TaskRecord, e: Audit.EvaluationRecord)
    ensures Proper(TaskJson(t)) && Proper(EvaluationJson(e))
  {
    RefsJsonIsProper(t.visibleTests);
    RefsJsonIsProper(e.evidence);
  }

  function JsonBytes(j: Json): Bytes {
    TextBytes(Canonical(true, j))
  }

  lemma JsonBytesDecide(a: Json, b: Json)
    requires Proper(a) && Proper(b) && JsonBytes(a) == JsonBytes(b)
    ensures a == b
  {
    CanonicalIsPrintable(a);
    CanonicalIsPrintable(b);
    TextBytesDecide(Canonical(true, a), Canonical(true, b));
    CanonicalTextDecides(true, a, b);
  }

  function TaskBytes(t: Audit.TaskRecord): Bytes {
    JsonBytes(TaskJson(t))
  }

  function EvaluationBytes(e: Audit.EvaluationRecord): Bytes {
    JsonBytes(EvaluationJson(e))
  }

  lemma TaskBytesDecide(t: Audit.TaskRecord, u: Audit.TaskRecord, e: Audit.EvaluationRecord)
    requires TaskBytes(t) == TaskBytes(u)
    ensures t == u
  {
    RecordsAreProper(t, e);
    RecordsAreProper(u, e);
    JsonBytesDecide(TaskJson(t), TaskJson(u));
    TaskJsonDecides(t, u);
  }

  lemma EvaluationBytesDecide(d: Audit.EvaluationRecord, e: Audit.EvaluationRecord, t: Audit.TaskRecord)
    requires EvaluationBytes(d) == EvaluationBytes(e)
    ensures d == e
  {
    RecordsAreProper(t, d);
    RecordsAreProper(t, e);
    JsonBytesDecide(EvaluationJson(d), EvaluationJson(e));
    EvaluationJsonDecides(d, e);
  }

  /** Reading is the inverse of writing, where there is one. */
  ghost function ReadTask(b: Bytes): Option<Audit.TaskRecord> {
    if t :| TaskBytes(t) == b then Some(t) else None
  }

  ghost function ReadEvaluation(b: Bytes): Option<Audit.EvaluationRecord> {
    if e :| EvaluationBytes(e) == b then Some(e) else None
  }

  /** Canonical JSON, with digests that tell these byte strings apart. */
  ghost function RecordsOver(list: seq<Bytes>): Records {
    Records(b => Digest(list, b), TaskBytes, ReadTask, EvaluationBytes, ReadEvaluation)
  }

  function Members(list: seq<Bytes>): set<Bytes> {
    set b | b in list
  }

  lemma ReadsAreInverse(t: Audit.TaskRecord, e: Audit.EvaluationRecord)
    ensures ReadTask(TaskBytes(t)) == Some(t) && ReadEvaluation(EvaluationBytes(e)) == Some(e)
  {
    var u := ReadTask(TaskBytes(t));
    var d := ReadEvaluation(EvaluationBytes(e));
    TaskBytesDecide(t, u.value, e);
    EvaluationBytesDecide(e, d.value, t);
  }

  /** Any list of byte strings, no longer than there are digests, can be told apart. */
  lemma ListsCanBeToldApart(list: seq<Bytes>)
    requires |list| <= Pow16(64)
    ensures Faithful(RecordsOver(list), Members(list))
  {
    var x := RecordsOver(list);
    forall a, b | a in Members(list) && b in Members(list) && x.hash(a) == x.hash(b) ensures a == b {
      DigestsDiffer(list, a, b);
    }
    forall t ensures x.readTask(x.taskBytes(t)) == Some(t) {
      ReadsAreInverse(t, Audit.EvaluationRecord("", Pending, "", "", "", []));
    }
    forall e ensures x.readEvaluation(x.evaluationBytes(e)) == Some(e) {
      var r := ArtifactRef("", 0, "", "");
      ReadsAreInverse(Audit.TaskRecord("", "", "", Absent, r, r, []), e);
    }
    assert forall b :: IsSha256(x.hash(b));
  }

  // -------------------------------------------------------------------- a whole run

  function Present(bytes: Option<Bytes>): seq<Bytes> {
    if bytes == None then [] else [bytes.value]
  }

  /** What a run publishes that is not a record. */
  function PlainContents(fixture: Fixture, plan: RunPlan): seq<Bytes> {
    [fixture.snapshot, fixture.problem] + fixture.visible
    + (if plan.answer.Done? then [plan.answer.value.patch] else [])
    + (if plan.result.Done? then
         [plan.result.value.stdout, plan.result.value.stderr] + Present(plan.result.value.candidate)
         + Present(plan.result.value.scorer)
       else [])
  }

  /** The records a run publishes, written with these digests. */
  function RecordContents(x: Records, fixture: Fixture, runId: string, plan: RunPlan): seq<Bytes> {
    [x.taskBytes(TaskOf(x, fixture, plan))]
    + (if plan.answer.Done? && plan.result.Done? then [x.evaluationBytes(RunVerdict(x, fixture, runId, plan))] else [])
  }

  predicate SameDigests(x: Records, y: Records, list: seq<Bytes>) {
    forall b :: b in list ==> x.hash(b) == y.hash(b)
  }

  lemma LongerListsKeepDigests(list: seq<Bytes>, more: seq<Bytes>)
    ensures SameDigests(RecordsOver(list), RecordsOver(list + more), list)
  {
    forall b | b in list ensures RecordsOver(list).hash(b) == RecordsOver(list + more).hash(b) {
      PlaceInLonger(list, more, b);
    }
  }

  /** A run's records depend on the digests of its other contents alone. */
  lemma SameDigestsSameRecords(x: Records, y: Records, fixture: Fixture, runId: string, plan: RunPlan)
    requires SameDigests(x, y, PlainContents(fixture, plan))
    ensures TaskOf(x, fixture, plan) == TaskOf(y, fixture, plan)
    ensures plan.answer.Done? && plan.result.Done? ==>
              RunVerdict(x, fixture, runId, plan) == RunVerdict(y, fixture, runId, plan)
  {
    var list := PlainContents(fixture, plan);
    assert fixture.snapshot in list && fixture.problem in list;
    forall i | 0 <= i < |fixture.visible| ensures RefsTo(x, fixture.visible)[i] == RefsTo(y, fixture.visible)[i] {
      assert fixture.visible[i] in list;
    }
    if plan.answer.Done? && plan.result.Done? {
      var local := plan.result.value;
      assert plan.answer.value.patch in list && local.stdout in list && local.stderr in list;
      if local.candidate.Some? { assert local.candidate.value in list; }
      if local.scorer.Some? { assert local.scorer.value in list; }
    }
  }

  lemma ContentsAreListed(x: Records, fixture: Fixture, runId: string, plan: RunPlan)
    ensures RunContents(x, fixture, runId, plan) <=
              Members(PlainContents(fixture, plan) + RecordContents(x, fixture, runId, plan))
  {}

  /** Whatever a run is given, unless it has more files than there are digests, some
      digests and some way to write its records tell everything it may publish apart. */
  lemma EveryRunCanBeToldApart(fixture: Fixture, runId: string, plan: RunPlan) returns (x: Records, contents: set<Bytes>)
    requires |fixture.visible| + 9 <= Pow16(64)
    ensures Faithful(x, contents) && RunContents(x, fixture, runId, plan) <= contents
  {
    var plain := PlainContents(fixture, plan);
    var before := RecordsOver(plain);
    var list := plain + RecordContents(before, fixture, runId, plan);
    x, contents := RecordsOver(list), Members(list);
    LongerListsKeepDigests(plain, RecordContents(before, fixture, runId, plan));
    SameDigestsSameRecords(before, x, fixture, runId, plan);
    ContentsAreListed(x, fixture, runId, plan);
    ListsCanBeToldApart(list);
  }
}
