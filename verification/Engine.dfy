/** The engine's layers between a run's end and the stored outcome: budgets, overrides, stale re-reads, the final write. */
module Engine {
  import opened Types
  import opened JobTable
  import opened JobInvariants
  import opened JobRuns
  import opened Coordinator
  import F = JobEffects
  import S = Store

  /** Why the job's own context ended. */
  datatype Cause = NoCause | UserCancelled | TooManyArtifacts

  /**
   What the engine observes around one execution: `limit` an exhausted budget, `unpaired` a supervised pairing that
   selected nothing, `marker` the confirmation marker as a fresh, stale or failed re-read shows it.
   */
  datatype Sight = Sight(limit: bool, unpaired: bool, marker: bool, shutdown: bool, cause: Cause)

  datatype Conclusion = Conclusion(status: JobStatus, message: Message, exitCode: Option<int>)

  /** The run was overridden from outside, as far as the re-read can tell. */
  predicate Overridden(sight: Sight) {
    !sight.marker && (sight.shutdown || sight.cause != NoCause)
  }

  /** What the budgets leave of the coordinator's answer. */
  function Budgeted(o: Outcome, sight: Sight): Outcome {
    var paired :=
      if sight.unpaired && o.Returned? && o.result.status == Succeeded then Returned(o.result.(status := Failed, message := NothingPaired)) else o;
    if sight.limit && paired.Returned? && paired.result.status !in {Succeeded, OutcomeUnknown}
    then Returned(paired.result.(status := Failed, message := ExecutionLimit))
    else paired
  }

  function ConcludeError(sight: Sight): Conclusion {
    if sight.marker then Conclusion(OutcomeUnknown, OutcomeIsUnknown, None)
    else if sight.shutdown then Conclusion(Interrupted, ShutdownInterrupted, None)
    else if sight.cause == UserCancelled then Conclusion(Cancelled, OperatorCancelled, None)
    else Conclusion(Failed, if sight.cause == TooManyArtifacts then ArtifactLimit else if sight.limit then ExecutionLimit else CouldNotRun, None)
  }

  function ConcludeResult(r: RunResult, sight: Sight): Conclusion {
    if sight.marker && r.status != Succeeded then Conclusion(OutcomeUnknown, OutcomeIsUnknown, Some(r.exitCode))
    else if sight.marker then Conclusion(r.status, r.message, Some(r.exitCode))
    else if sight.shutdown then Conclusion(Interrupted, ShutdownInterrupted, Some(r.exitCode))
    else if sight.cause == UserCancelled then Conclusion(Cancelled, OperatorCancelled, Some(r.exitCode))
    else if sight.cause == TooManyArtifacts then Conclusion(Failed, ArtifactLimit, Some(r.exitCode))
    else Conclusion(r.status, r.message, Some(r.exitCode))
  }

  function Conclude(o: Outcome, sight: Sight): Conclusion {
    match Budgeted(o, sight)
    case RunError => ConcludeError(sight)
    case Returned(r) => ConcludeResult(r, sight)
  }

  /** The coordinator's answer as it can reach the engine. */
  predicate Answer(o: Outcome) {
    o.Returned? ==> Terminal(o.result.status)
  }

  predicate ReportsSuccess(o: Outcome, sight: Sight) {
    o.Returned? && o.result.status == Succeeded && !sight.unpaired
  }

  // ---------------------------------------------------------------- what a run's end means, told from the answer and what was seen

  /** The worker's own report stands: it returned, and no budget or missing pairing rewrites it. */
  predicate ReportStands(o: Outcome, sight: Sight) {
    o.Returned? && (o.result.status in {Succeeded, OutcomeUnknown} || !sight.limit) && !(o.result.status == Succeeded && sight.unpaired)
  }

  predicate MeansSucceeded(o: Outcome, sight: Sight) {
    o.Returned? && o.result.status == Succeeded && !sight.unpaired && (sight.marker || (!sight.shutdown && sight.cause == NoCause))
  }

  predicate MeansUnknown(o: Outcome, sight: Sight) {
    if sight.marker then !(o.Returned? && o.result.status == Succeeded && !sight.unpaired)
    else !sight.shutdown && sight.cause == NoCause && o.Returned? && o.result.status == OutcomeUnknown
  }

  predicate MeansInterrupted(o: Outcome, sight: Sight) {
    !sight.marker && (sight.shutdown || (sight.cause == NoCause && !sight.limit && o.Returned? && o.result.status == Interrupted))
  }

  predicate MeansCancelled(o: Outcome, sight: Sight) {
    && !sight.marker && !sight.shutdown
    && (sight.cause == UserCancelled || (sight.cause == NoCause && !sight.limit && o.Returned? && o.result.status == Cancelled))
  }

  predicate MeansFailed(o: Outcome, sight: Sight) {
    && !sight.marker && !sight.shutdown
    && (|| sight.cause == TooManyArtifacts
        || (sight.cause == NoCause && (|| o.RunError?
                                       || o.result.status == Failed
                                       || (o.result.status == Succeeded && sight.unpaired)
                                       || (o.result.status in {Cancelled, Interrupted} && sight.limit))))
  }

  /** The stored message: the reason of an override or a rewrite, and otherwise what was reported. */
  predicate Explains(message: Message, o: Outcome, sight: Sight) {
    && (sight.marker && !MeansSucceeded(o, sight) ==> message == OutcomeIsUnknown)
    && (!sight.marker && sight.shutdown ==> message == ShutdownInterrupted)
    && (!sight.marker && !sight.shutdown && sight.cause == UserCancelled ==> message == OperatorCancelled)
    && (!sight.marker && !sight.shutdown && sight.cause == TooManyArtifacts ==> message == ArtifactLimit)
    && ((sight.marker ==> MeansSucceeded(o, sight)) && !Overridden(sight) ==>
          && (ReportStands(o, sight) ==> message == o.result.message)
          && (!ReportStands(o, sight) && sight.limit ==> message == ExecutionLimit)
          && (!ReportStands(o, sight) && !sight.limit ==> message == if o.RunError? then CouldNotRun else NothingPaired))
  }

  /** Exactly when each outcome is concluded, with which message and exit code. */
  lemma ConclusionExactly(o: Outcome, sight: Sight)
    requires Answer(o)
    ensures var c := Conclude(o, sight);
            && (c.status == Succeeded <==> MeansSucceeded(o, sight))
            && (c.status == OutcomeUnknown <==> MeansUnknown(o, sight))
            && (c.status == Interrupted <==> MeansInterrupted(o, sight))
            && (c.status == Cancelled <==> MeansCancelled(o, sight))
            && (c.status == Failed <==> MeansFailed(o, sight))
            && Terminal(c.status)
            && Explains(c.message, o, sight)
            && c.exitCode == (if o.RunError? then None else Some(o.result.exitCode))
  {
  }

  /** With nothing seen but the worker's answer, its result is concluded unchanged. */
  lemma PlainResultIsConcluded(r: RunResult)
    requires Terminal(r.status)
    ensures Conclude(Returned(r), Sight(false, false, false, false, NoCause)) == Conclusion(r.status, r.message, Some(r.exitCode))
  {
  }

  /** Success is concluded exactly when it was reported and not overridden, and nothing else adds it. */
  lemma ConclusionIsTerminal(o: Outcome, sight: Sight)
    requires Answer(o)
    ensures Terminal(Conclude(o, sight).status)
    ensures Conclude(o, sight).status == Succeeded <==> ReportsSuccess(o, sight) && !Overridden(sight)
    ensures Conclude(o, sight).status == OutcomeUnknown <==>
              || (sight.marker && !ReportsSuccess(o, sight))
              || (!sight.marker && !Overridden(sight) && o.Returned? && o.result.status == OutcomeUnknown)
  {
  }

  /** The final write. */
  function Conclusively(db: DB, id: JobId, c: Conclusion, now: Instant): Result<DB> {
    Finish(db, id, c.status, c.message, c.exitCode, now)
  }

  /**
   Once the marker is durable, the stored outcome is succeeded or unknown whatever the engine saw: it is succeeded
   exactly when success was reported and no shutdown, cancellation or artifact limit met a re-read that missed the marker.
   */
  lemma MarkedOutcome(db: DB, id: JobId, o: Outcome, sight: Sight, now: Instant)
    requires Answer(o) && id in db.jobs && Active(db.jobs[id].status) && db.jobs[id].marker.Some?
    ensures var r := Conclusively(db, id, Conclude(o, sight), now); var success := ReportsSuccess(o, sight) && !Overridden(sight);
            && (r.Ok? <==> !(success && db.jobs[id].status == AwaitingApproval))
            && (r.Ok? ==> r.value.jobs[id].status in {Succeeded, OutcomeUnknown} && (r.value.jobs[id].status == Succeeded <==> success))
  {
    ConclusionIsTerminal(o, sight);
    FinishFailsExactly(db, id, Conclude(o, sight), now);
    if Conclusively(db, id, Conclude(o, sight), now).Ok? {
      MarkedWrite(db, id, Conclude(o, sight), now);
    }
  }

  lemma MarkedWrite(db: DB, id: JobId, c: Conclusion, now: Instant)
    requires Terminal(c.status) && id in db.jobs && db.jobs[id].marker.Some? && Conclusively(db, id, c, now).Ok?
    ensures Conclusively(db, id, c, now).value.jobs[id].status == (if c.status == Succeeded then Succeeded else OutcomeUnknown)
  {
  }

  lemma FinishEdges(status: JobStatus)
    requires Terminal(status)
    ensures forall i :: 0 <= i < |FinishExpected(status)| ==> CanTransition(FinishExpected(status)[i], status)
  {
  }

  lemma FinishExpects(status: JobStatus, was: JobStatus)
    requires Active(was)
    ensures was in FinishExpected(status) <==> !(status == Succeeded && was == AwaitingApproval)
  {
    assert FinishExpected(status)[0] == Running;
    if status != Succeeded {
      assert FinishExpected(status)[1] == AwaitingApproval;
    }
  }

  /** The final write on a leased row fails exactly on an unknown outcome without a marker, or success while approval is awaited. */
  lemma FinishFailsExactly(db: DB, id: JobId, c: Conclusion, now: Instant)
    requires Terminal(c.status) && id in db.jobs && Active(db.jobs[id].status)
    ensures Conclusively(db, id, c, now).Err? <==>
              || (c.status == OutcomeUnknown && db.jobs[id].marker.None?)
              || (c.status == Succeeded && db.jobs[id].status == AwaitingApproval)
  {
    FinishEdges(c.status);
    FinishExpects(c.status, db.jobs[id].status);
  }

  lemma FinishedIsTerminal(db: DB, id: JobId, c: Conclusion, now: Instant)
    requires Terminal(c.status) && Conclusively(db, id, c, now).Ok?
    ensures id in Conclusively(db, id, c, now).value.jobs && Terminal(Conclusively(db, id, c, now).value.jobs[id].status)
  {
  }

  /** A worker that reports an unknown outcome with no marker leaves its job leased. */
  lemma UnmarkedUnknownIsNotFinished(db: DB, id: JobId, code: int, now: Instant)
    requires id in db.jobs && db.jobs[id].status == Running && db.jobs[id].marker.None?
    ensures Conclusively(db, id, Conclude(Returned(RunResult(OutcomeUnknown, NoMessage, code)), Sight(false, false, false, false, NoCause)), now) == Err(Invalid)
  {
  }

  // ---------------------------------------------------------------- what is stored

  /** The final write is refused: success while approval is awaited, or an unknown outcome of a row without a marker. */
  predicate NotStored(job: Job, o: Outcome, sight: Sight) {
    (MeansSucceeded(o, sight) && job.status == AwaitingApproval) || (MeansUnknown(o, sight) && job.marker.None?)
  }

  /** The row ends as the answer and what was seen mean it to. */
  predicate EndsAsMeant(job': Job, o: Outcome, sight: Sight) {
    && (job'.status == Succeeded <==> MeansSucceeded(o, sight))
    && (job'.status == Failed <==> MeansFailed(o, sight))
    && (job'.status == Cancelled <==> MeansCancelled(o, sight))
    && (job'.status == Interrupted <==> MeansInterrupted(o, sight))
    && (job'.status == OutcomeUnknown <==> MeansUnknown(o, sight))
    && Explains(job'.message, o, sight)
    && job'.exitCode == (if o.RunError? then None else Some(o.result.exitCode))
  }

  /** What becomes of a leased row: a marked one is unknown unless it succeeded, a withdrawn one is cancelled, any other ends as meant. */
  predicate Stored(job: Job, job': Job, withdrawn: bool, o: Outcome, sight: Sight, now: Instant) {
    if NotStored(job, o, sight) then job' == job
    else
      && job'.finished == Some(now) && job'.updated == now && job'.owner == "" && job'.marker == job.marker && SameIdentity(job, job')
      && if job.marker.Some? && !MeansSucceeded(o, sight) then
           job'.status == OutcomeUnknown && job'.message == OutcomeIsUnknown && job'.exitCode == None
         else if job.marker.None? && withdrawn then
           job'.status == Cancelled && job'.message == CancelRequestedOrDisabled && job'.exitCode == None
         else EndsAsMeant(job', o, sight)
  }

  lemma EndedAsMeant(job: Job, job': Job, c: Conclusion, withdrawn: bool, o: Outcome, sight: Sight, now: Instant)
    requires Answer(o) && c == Conclude(o, sight) && !NotStored(job, o, sight)
    requires F.FinishedRow(job, job', withdrawn, c.status, c.message, c.exitCode, now)
    ensures Stored(job, job', withdrawn, o, sight, now)
  {
    ConclusionExactly(o, sight);
  }

  lemma WriteRefusedExactly(job: Job, o: Outcome, sight: Sight)
    requires Answer(o) && Active(job.status)
    ensures NotStored(job, o, sight) <==> !F.MayFinish(job, Conclude(o, sight).status)
  {
    ConclusionExactly(o, sight);
  }

  /** For every answer and sight, what the final write leaves of a leased row; no other row is touched. */
  lemma OutcomeIsStored(db: DB, id: JobId, o: Outcome, sight: Sight, now: Instant)
    requires Answer(o) && id in db.jobs && Active(db.jobs[id].status)
    ensures var db' := Settle(db, Conclusively(db, id, Conclude(o, sight), now));
            && id in db'.jobs && Stored(db.jobs[id], db'.jobs[id], F.Withdrawn(db, db.jobs[id]), o, sight, now)
            && forall k :: k in db.jobs && k != id ==> k in db'.jobs && db'.jobs[k] == db.jobs[k]
  {
    var c := Conclude(o, sight);
    ConclusionExactly(o, sight);
    WriteRefusedExactly(db.jobs[id], o, sight);
    F.FinishWrites(db, id, c.status, c.message, c.exitCode, now);
    if F.MayFinish(db.jobs[id], c.status) {
      EndedAsMeant(db.jobs[id], Conclusively(db, id, c, now).value.jobs[id], c, F.Withdrawn(db, db.jobs[id]), o, sight, now);
    }
  }

  // ---------------------------------------------------------------- the engine's own code

  class Engine {
    const store: S.Store

    constructor (store: S.Store)
      ensures this.store == store
    {
      this.store := store;
    }

    /** executeWithBudgets, from the coordinator's answer to the deferred rewrite. */
    method ExecuteWithBudgets(answer: Outcome, sight: Sight) returns (result: Outcome)
      ensures result == Budgeted(answer, sight)
      // an error stays an error, and an exit code is kept
      ensures result.RunError? <==> answer.RunError?
      ensures result.Returned? ==> result.result.exitCode == answer.result.exitCode
      // success survives every budget unless a supervised pairing chose nothing; an unknown outcome survives them all
      ensures result.Returned? ==> (result.result.status == Succeeded <==> ReportsSuccess(answer, sight))
      ensures answer.Returned? && answer.result.status == OutcomeUnknown ==> result == answer
      // an exhausted budget turns every other result into its own failure, and no budget means no change
      ensures result.Returned? && sight.limit && result.result.status !in {Succeeded, OutcomeUnknown} ==>
                result.result.status == Failed && result.result.message == ExecutionLimit
      ensures !sight.limit && !(answer.Returned? && answer.result.status == Succeeded && sight.unpaired) ==> result == answer
    {
      result := answer;
      if result.Returned? && result.result.status == Succeeded && sight.unpaired {
        result := Returned(result.result.(status := Failed, message := NothingPaired));
      }
      if !sight.limit || (result.Returned? && result.result.status in {Succeeded, OutcomeUnknown}) {
        return;
      }
      if result.RunError? {
        return;
      }
      result := Returned(result.result.(status := Failed, message := ExecutionLimit));
    }

    /** runClaimed, from the end of the execution to the final write. */
    method RunClaimed(id: JobId, answer: Outcome, sight: Sight, now: Instant)
      requires Answer(answer)
      modifies store
      ensures store.db == Settle(old(store.db), Conclusively(old(store.db), id, Conclude(answer, sight), now))
      // a leased row ends as the answer and what was seen mean it to
      ensures id in old(store.db).jobs && Active(old(store.db).jobs[id].status) ==>
                && id in store.db.jobs
                && Stored(old(store.db).jobs[id], store.db.jobs[id], F.Withdrawn(old(store.db), old(store.db).jobs[id]), answer, sight, now)
    {
      if id in store.db.jobs && Active(store.db.jobs[id].status) {
        OutcomeIsStored(store.db, id, answer, sight, now);
      }
      var run := ExecuteWithBudgets(answer, sight);
      if run.RunError? {
        var status, message := Failed, CouldNotRun;
        if sight.marker {
          status, message := OutcomeUnknown, OutcomeIsUnknown;
        } else if sight.shutdown {
          status, message := Interrupted, ShutdownInterrupted;
        } else if sight.cause == UserCancelled {
          status, message := Cancelled, OperatorCancelled;
        } else if sight.cause == TooManyArtifacts {
          message := ArtifactLimit;
        } else if sight.limit {
          message := ExecutionLimit;
        }
        FinishJob(id, status, message, None, now);
        return;
      }
      var status, message := run.result.status, run.result.message;
      if sight.marker && status != Succeeded {
        status, message := OutcomeUnknown, OutcomeIsUnknown;
      }
      if sight.shutdown && !sight.marker {
        status, message := Interrupted, ShutdownInterrupted;
      } else if sight.cause == UserCancelled && !sight.marker {
        status, message := Cancelled, OperatorCancelled;
      } else if sight.cause == TooManyArtifacts && !sight.marker {
        status, message := Failed, ArtifactLimit;
      }
      FinishJob(id, status, message, Some(run.result.exitCode), now);
    }

    method FinishJob(id: JobId, status: JobStatus, message: Message, exitCode: Option<int>, now: Instant)
      modifies store
      ensures store.db == Settle(old(store.db), Finish(old(store.db), id, status, message, exitCode, now))
    {
      if id !in store.db.jobs || Terminal(store.db.jobs[id].status) {
        return;
      }
      var expected := [Running];
      if status != Succeeded {
        expected := expected + [AwaitingApproval];
      }
      assert expected == FinishExpected(status);
      var _ := store.SystemTransitionJob(id, expected, status, Update(message, exitCode, false), now);
    }
  }
}
