/** How a run that did not get its verdict ends: where it stopped, and what the guarded
    terminalization then makes of it. */
module Endings {
  import opened Text
  import opened Usage
  import opened Events
  import opened Replay
  import opened Ledger
  import opened Lifecycle
  import opened Commands
  import opened Publication
  import opened Progress
  import opened Fixtures
  import opened Effects
  import Store

  const RUNNER_EXCEPTION := "runner_exception"
  const REFUSED := "model_reservation_refused"

  function Terminalization(refusal: bool, finishedAt: int): Command {
    if refusal then Command.Refuse(finishedAt, REFUSED) else Command.Recover(finishedAt, RUNNER_EXCEPTION)
  }

  // ------------------------------------------------------------ where it stopped

  /** The run is running, and its request has got this far. */
  ghost predicate StoppedAt(t: Tables, run: string, r: RequestState) {
    && run in t && Fold(run, t[run].events).Accepted? && t[run].row.manifest.status == Running
    && MachineOf(run, t[run]).state.requestState == r
  }

  lemma CourseStops(hash: ContentHash, t: Tables, m: RunManifest, s: Script, k: Stage)
    requires OnCourse(hash, t, m, s, k)
    ensures k == Tasked ==> StoppedAt(t, m.runId, NotStarted)
    ensures k == Sent ==> StoppedAt(t, m.runId, Started)
    ensures k == Replied ==> StoppedAt(t, m.runId, Completed)
  {
    assert Stands(hash, t, m, s, k);
  }

  lemma ReasonsAreText()
    ensures !Blank(REFUSED) && Trimmed(REFUSED) && !Blank(RUNNER_EXCEPTION) && Trimmed(RUNNER_EXCEPTION)
  {
    assert REFUSED[0] == 'm' && REFUSED[|REFUSED| - 1] == 'd';
    assert RUNNER_EXCEPTION[0] == 'r' && RUNNER_EXCEPTION[|RUNNER_EXCEPTION| - 1] == 'n';
  }

  /** Wherever a run stopped it can be recovered, and refused if nothing was sent. */
  lemma StoppedCanEnd(t: Tables, run: string, r: RequestState, refusal: bool, finishedAt: int)
    requires StoppedAt(t, run, r) && (refusal ==> r == NotStarted)
    ensures Store.Allowed(t, run, Terminalization(refusal, finishedAt))
  {
    ReasonsAreText();
  }

  // ------------------------------------------------------------------ how it ends

  /** The run has ended without a verdict: exhausted if its reservation was refused, else
      as an infrastructure error, with a request of unknown fate charged in full. */
  predicate EndedFor(refusal: bool, a: Snapshot, b: Snapshot) {
    && b.manifest.artifacts == a.manifest.artifacts && b.budget.reserved == ZERO
    && b.replayed.status == b.manifest.status && b.replayed.outcome == None
    && if refusal then
         && b.manifest.status == BudgetExhausted && b.manifest.terminalReason == Some("model_reservation_refused")
         && b.budget.used == a.budget.used
       else
         && b.manifest.status == RunStatus.InfrastructureError
         && b.manifest.terminalReason ==
              Some(if a.replayed.requestState == Started then "ambiguous_model_request" else "runner_exception")
         && b.budget.used == Add(a.budget.used, a.budget.reserved)
  }

  /** Folded like OnCourse. */
  ghost predicate EndStands(t: Tables, u: Tables, run: string, refusal: bool) {
    && run in t && run in u && Fold(run, t[run].events).Accepted? && Fold(run, u[run].events).Accepted?
    && forall a, b {:trigger EndedFor(refusal, a, b)} ::
         a == SnapshotOf(run, t[run]) && b == SnapshotOf(run, u[run]) ==> EndedFor(refusal, a, b)
  }

  /** A guarded terminalization that may have been carried out, and was if it is done:
      then the run is over, as it was before or for this reason. */
  ghost predicate CleanedUp(hash: ContentHash, t: Tables, u: Tables, run: string, refusal: bool, finishedAt: int, done: bool) {
    && (u == t || Performed(hash, t, u, run, Terminalization(refusal, finishedAt)))
    && (done ==> run in t && run in u && IsTerminal(u[run].row.manifest.status))
    && (done && IsTerminal(t[run].row.manifest.status) ==> u == t)
    && (done && !IsTerminal(t[run].row.manifest.status) ==> EndStands(t, u, run, refusal))
  }

  lemma TerminalizationEnds(hash: ContentHash, t: Tables, u: Tables, run: string, refusal: bool, finishedAt: int)
    requires SoundLedger(hash, t) && Performed(hash, t, u, run, Terminalization(refusal, finishedAt))
    ensures run in t && run in u && EndStands(t, u, run, refusal) && IsTerminal(u[run].row.manifest.status)
  {
    assert Sound(hash, run, t[run]);
    if refusal {
      RefuseLeaves(hash, t, u, run, finishedAt, REFUSED);
    } else {
      RecoverLeaves(hash, t, u, run, finishedAt, RUNNER_EXCEPTION);
    }
  }

  /** What a guarded terminalization comes to: it finds the run finished, or it ends it. */
  lemma TerminalizationSettles(
      hash: ContentHash, x: Records, shelf: Shelf, t: Tables, u: Tables, run: string, refusal: bool, finishedAt: int, done: bool)
    requires SoundLedger(hash, t) && Backed(x, shelf, t)
    requires done ==> run in t
    requires if done && !IsTerminal(t[run].row.manifest.status) then
               Performed(hash, t, u, run, Terminalization(refusal, finishedAt))
             else u == t
    ensures Backed(x, shelf, u) && CleanedUp(hash, t, u, run, refusal, finishedAt, done)
  {
    if done && !IsTerminal(t[run].row.manifest.status) {
      PerformedKeepsBacked(hash, x, shelf, t, u, run, Terminalization(refusal, finishedAt));
      TerminalizationEnds(hash, t, u, run, refusal, finishedAt);
    }
  }
}
