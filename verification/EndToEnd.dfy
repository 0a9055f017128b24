/** From a candidate's answers to the status of its run. */
module EndToEnd {
  import opened Usage
  import opened Text
  import opened Json
  import opened JsonText
  import opened Wire
  import opened Bundles
  import opened Scorer
  import opened VerdictLaws
  import opened RecordLaws
  import Commands
  import Events
  import Ledger
  import Lifecycle
  import Replay
  import Host
  import F = Fixtures
  import R = Runner

  /** What an evaluator reports of a scored evaluation. */
  function LocalOf(s: Host.Status): F.LocalStatus {
    match s
    case StatusPassed => F.PassedTests
    case TestsFailed => F.TestsFailed
    case InfrastructureError => F.LocalFault
  }

  /** One scored evaluation: the sealed oracle, the candidate's raw output, and what the
      scorer printed around its record. */
  datatype Scoring = Scoring(
    c: Codec, call: Call, n: nat, bundle: Bundle, cases: seq<Json>, binding: Binding, response: Bytes, noise: seq<Bytes>,
    text: string)

  /** The oracle loads, a plain binding describes it, and the output is text. */
  ghost predicate Sealed(z: Scoring) {
    && Faithful(z.c) && Loads(z.c, z.call, z.n, z.bundle) && RawCases(z.c, z.call.raw) == Some(z.cases)
    && Describes(z.c, z.binding, z.bundle, z.response) && Plain(BindingJson(z.binding)) && !Blank(z.text) && Noise(z.noise)
    && z.c.utf8(Host.ScorerOutput(
         z.c, z.binding, Score(z.c, z.binding, z.bundle.challengeBytes, z.bundle.oracleBytes, z.response), z.noise, z.text))
  }

  /** The candidate's one final record returns, in order, the oracle's values. */
  predicate Correct(z: Scoring) {
    CandidateResponse(z.c, z.response) == Some(CorrectResponse(z.bundle, z.cases))
  }

  function StatusOf(z: Scoring): F.LocalStatus {
    LocalOf(Host.ScoredStatus(z.c, z.binding, z.bundle, z.response, z.noise, z.text))
  }

  /** The stored run says what the candidate did. */
  predicate Reflects(z: Scoring, m: Ledger.RunManifest, outcome: Option<Events.Outcome>) {
    && m.status == (if Correct(z) then Events.Succeeded else Events.Failed)
    && outcome == Some(if Correct(z) then Events.Passed else Events.NotPassed)
    && m.terminalReason == if Correct(z) then None else Some("tests_failed")
  }

  /** A run committed with the verdict of a scored evaluation succeeded exactly when
      every oracle value was returned, and otherwise failed. */
  lemma SucceededExactlyWhenCorrect(z: Scoring, t: Ledger.Tables, run: string)
    requires Sealed(z) && F.VerdictStands(t, run, StatusOf(z))
    ensures Reflects(z, t[run].row.manifest, Lifecycle.MachineOf(run, t[run]).state.outcome)
  {
    PassedExactlyWhenCorrect(z.c, z.call, z.n, z.bundle, z.cases, z.binding, z.response, z.noise, z.text);
    assert F.SaysOf(StatusOf(z), t[run].row.manifest, Lifecycle.MachineOf(run, t[run]).state);
  }

  /** A fixture run under that evaluation: finished, it says what the candidate did; new,
      with workable inputs and no failing call, it does finish. */
  method RunScored(
      runner: R.FixtureRunner, fixture: F.Fixture, runId: string, template: Ledger.RunIdentity, plan: F.RunPlan, ghost z: Scoring)
    returns (end: R.RunEnd)
    requires runner.Valid() && !Blank(plan.evaluatorVersion)
    requires F.RunContents(runner.x, fixture, runId, plan) <= runner.contents
    requires Sealed(z) && plan.result.Done? && plan.result.value.status == StatusOf(z)
    modifies runner`shelf, runner`step, runner.store
    ensures runner.Valid()
    ensures end.Finished? ==>
      && runId in runner.store.db && Replay.Fold(runId, runner.store.db[runId].events).Accepted?
      && Reflects(z, runner.store.db[runId].row.manifest, Lifecycle.MachineOf(runId, runner.store.db[runId]).state.outcome)
    ensures var m := F.ManifestOf(fixture, runId, template, plan);
      old(runner.Smooth() && Commands.CanCreate(runner.store.db, m)) && F.FrozenAgrees(runner.x, fixture) && F.Workable(m, plan)
      ==> end.Finished?
  {
    ghost var left;
    end, left := runner.Run(fixture, runId, template, plan);
    if end.Finished? { SucceededExactlyWhenCorrect(z, runner.store.db, runId); }
  }
}
