/** The field names of the evaluation protocol's records. */
module Names {
  import opened Json

  datatype Field =
    | Args | CaseId | Kwargs | Expected | Kind | Value | ErrorType | Cases | Entrypoint | Protocol
    | SchemaVersion | ChallengeSha256 | Results | Classification | EvaluatorVersion | Errors | BindingSha256
    | ExpectedTests | Failures | ImageDigest | LimitsSha256 | OracleSha256 | PatchSha256 | ResponseSha256
    | Skipped | Successful | SourceSha256 | TaskContentHash | TaskId | TestsRun | Message | Error | Callable
    | Module

  function Name(f: Field): string {
    match f
    case Args => "args"
    case CaseId => "case_id"
    case Kwargs => "kwargs"
    case Expected => "expected"
    case Kind => "kind"
    case Value => "value"
    case ErrorType => "error_type"
    case Cases => "cases"
    case Entrypoint => "entrypoint"
    case Protocol => "protocol"
    case SchemaVersion => "schema_version"
    case ChallengeSha256 => "challenge_sha256"
    case Results => "results"
    case Classification => "classification"
    case EvaluatorVersion => "evaluator_version"
    case Errors => "errors"
    case BindingSha256 => "evaluation_binding_sha256"
    case ExpectedTests => "expected_tests"
    case Failures => "failures"
    case ImageDigest => "image_digest"
    case LimitsSha256 => "limits_sha256"
    case OracleSha256 => "oracle_sha256"
    case PatchSha256 => "patch_sha256"
    case ResponseSha256 => "response_sha256"
    case Skipped => "skipped"
    case Successful => "successful"
    case SourceSha256 => "source_sha256"
    case TaskContentHash => "task_content_hash"
    case TaskId => "task_id"
    case TestsRun => "tests_run"
    case Message => "message"
    case Error => "error"
    case Callable => "callable"
    case Module => "module"
  }

  /** A name's length and first two characters tell it from the others. */
  function Signature(f: Field): (int, char, char) {
    match f
    case Args => (4, 'a', 'r')
    case CaseId => (7, 'c', 'a')
    case Kwargs => (6, 'k', 'w')
    case Expected => (8, 'e', 'x')
    case Kind => (4, 'k', 'i')
    case Value => (5, 'v', 'a')
    case ErrorType => (10, 'e', 'r')
    case Cases => (5, 'c', 'a')
    case Entrypoint => (10, 'e', 'n')
    case Protocol => (8, 'p', 'r')
    case SchemaVersion => (14, 's', 'c')
    case ChallengeSha256 => (16, 'c', 'h')
    case Results => (7, 'r', 'e')
    case Classification => (14, 'c', 'l')
    case EvaluatorVersion => (17, 'e', 'v')
    case Errors => (6, 'e', 'r')
    case BindingSha256 => (25, 'e', 'v')
    case ExpectedTests => (14, 'e', 'x')
    case Failures => (8, 'f', 'a')
    case ImageDigest => (12, 'i', 'm')
    case LimitsSha256 => (13, 'l', 'i')
    case OracleSha256 => (13, 'o', 'r')
    case PatchSha256 => (12, 'p', 'a')
    case ResponseSha256 => (15, 'r', 'e')
    case Skipped => (7, 's', 'k')
    case Successful => (10, 's', 'u')
    case SourceSha256 => (13, 's', 'o')
    case TaskContentHash => (17, 't', 'a')
    case TaskId => (7, 't', 'a')
    case TestsRun => (9, 't', 'e')
    case Message => (7, 'm', 'e')
    case Error => (5, 'e', 'r')
    case Callable => (8, 'c', 'a')
    case Module => (6, 'm', 'o')
  }

  lemma NameHasSignature(f: Field)
    ensures |Name(f)| > 1 && Signature(f) == (|Name(f)|, Name(f)[0], Name(f)[1])
  {}

  lemma SignaturesAreDistinct(f: Field, g: Field)
    requires Signature(f) == Signature(g)
    ensures f == g
  {}

  lemma NamesAreDistinct(f: Field, g: Field)
    requires Name(f) == Name(g)
    ensures f == g
  {
    NameHasSignature(f);
    NameHasSignature(g);
    SignaturesAreDistinct(f, g);
  }

  // ------------------------------------------------------------------- records

  type Record = map<Field, Json>

  function NamesOf(fields: set<Field>): set<string> {
    set f | f in fields :: Name(f)
  }

  /** The object a record is written as. */
  function Render(r: Record): map<string, Json> {
    NamesAreAllDistinct();
    map f | f in r :: Name(f) := r[f]
  }

  lemma NamesAreAllDistinct()
    ensures forall f: Field, g: Field :: Name(f) == Name(g) ==> f == g
  {
    forall f: Field, g: Field | Name(f) == Name(g) ensures f == g { NamesAreDistinct(f, g); }
  }

  /** What looking a field up in an object gives: null when it is missing. */
  function At(o: map<string, Json>, f: Field): Json {
    if Name(f) in o then o[Name(f)] else Null
  }

  predicate HasExactly(o: map<string, Json>, fields: set<Field>) {
    o.Keys == NamesOf(fields)
  }

  lemma RenderAt(r: Record, f: Field)
    ensures At(Render(r), f) == (if f in r then r[f] else Null) && (Name(f) in Render(r) <==> f in r)
  {
    NamesAreAllDistinct();
  }

  lemma RenderHas(r: Record, fields: set<Field>)
    ensures HasExactly(Render(r), fields) <==> r.Keys == fields
  {
    NamesAreAllDistinct();
    forall f ensures Name(f) in Render(r) <==> f in r { RenderAt(r, f); }
    assert Render(r).Keys == NamesOf(r.Keys);
    if NamesOf(r.Keys) == NamesOf(fields) {
      forall f ensures f in r.Keys <==> f in fields {
        assert Name(f) in NamesOf(r.Keys) <==> f in r.Keys;
        assert Name(f) in NamesOf(fields) <==> f in fields;
      }
    }
  }

  /** An object with exactly a record's fields and values is what the record is
      written as. */
  lemma ExactObjectIsRendered(o: map<string, Json>, r: Record)
    requires HasExactly(o, r.Keys) && forall f :: f in r ==> At(o, f) == r[f]
    ensures o == Render(r)
  {
    NamesAreAllDistinct();
    forall k ensures k in o <==> k in Render(r) {}
    forall k | k in o ensures o[k] == Render(r)[k] {
      var f :| f in r && Name(f) == k;
      RenderAt(r, f);
    }
  }
}
