/** Why a row moves: for every statement exactly when it changes a row's status, what it records, and which job a claim starts. */
module JobEffects {
  import opened Types
  import opened JobTable
  import opened JobInvariants
  import opened JobRuns

  // ---------------------------------------------------------------- which job a claim starts

  /** The job may be started now: due, not expired, everything it uses enabled and its owner's, and nothing it uses leased. */
  ghost predicate Ready(db: DB, id: JobId, now: Instant)
    requires id in db.jobs
  {
    var job := db.jobs[id];
    && job.status == Queued && !job.cancel
    && job.due <= now && (job.expires.Some? ==> now < job.expires.value)
    && job.user in db.users && db.users[job.user].active
    && job.profile in db.profiles && db.profiles[job.profile].enabled && db.profiles[job.profile].user == job.user
    && job.source in db.sources && db.sources[job.source] == job.user
    && (job.booking.Some? ==>
          job.booking.value in db.bookings && db.bookings[job.booking.value].enabled && db.bookings[job.booking.value].profile == job.profile)
    && (forall k :: k in db.jobs && (db.jobs[k].status == Running || db.jobs[k].status == AwaitingApproval) ==>
          db.jobs[k].profile != job.profile && db.jobs[k].source != job.source)
  }

  lemma ClaimableIsReady(db: DB, id: JobId, now: Instant)
    requires id in db.jobs && Claimable(db, id, now)
    ensures Ready(db, id, now)
    ensures db.jobs[id].command == Book ==> exists s :: s in db.reservations && s.profile == db.jobs[id].profile && db.reservations[s] == Some(id)
  {
  }

  /** The claim also looks for the job's reservation, which a queued booking always holds. */
  lemma ReadyIsClaimable(db: DB, id: JobId, now: Instant)
    requires Wf(db) && id in db.jobs && Ready(db, id, now)
    ensures Claimable(db, id, now)
  {
    var job := db.jobs[id];
    if job.command == Book {
      assert Holds(job);
      assert db.reservations[SlotOf(job)] == Some(id);
    }
  }

  /** The ready job with the earliest due time, and of those the first queued. */
  ghost predicate NextToStart(db: DB, id: JobId, now: Instant)
    requires id in db.jobs
  {
    && Ready(db, id, now)
    && forall k :: k in db.jobs && Ready(db, k, now) ==> db.jobs[id].due < db.jobs[k].due || (db.jobs[id].due == db.jobs[k].due && id <= k)
  }

  lemma FirstCandidateIsNext(db: DB, id: JobId, now: Instant)
    requires Wf(db) && id in Candidates(db, now) && forall k :: k in Candidates(db, now) ==> DueBefore(db, id, k)
    ensures NextToStart(db, id, now)
  {
    ClaimableIsReady(db, id, now);
    forall k | k in db.jobs && Ready(db, k, now) ensures DueBefore(db, id, k) {
      ReadyIsClaimable(db, k, now);
    }
  }

  lemma NextIsOne(db: DB, a: JobId, b: JobId, now: Instant)
    requires a in db.jobs && b in db.jobs && NextToStart(db, a, now) && NextToStart(db, b, now)
    ensures a == b
  {
  }

  lemma ReadyIsCandidate(db: DB, id: JobId, now: Instant)
    requires Wf(db) && id in db.jobs && Ready(db, id, now)
    ensures id in Candidates(db, now)
  {
    ReadyIsClaimable(db, id, now);
  }

  lemma NoneReady(db: DB, now: Instant, id: JobId)
    requires Wf(db) && id in db.jobs && Candidates(db, now) == {}
    ensures !Ready(db, id, now)
  {
    if Ready(db, id, now) {
      ReadyIsCandidate(db, id, now);
    }
  }

  lemma OnlyTheFirstIsNext(db: DB, now: Instant, first: JobId, id: JobId)
    requires Wf(db) && id in db.jobs && first in Candidates(db, now) && forall k :: k in Candidates(db, now) ==> DueBefore(db, first, k)
    ensures NextToStart(db, id, now) <==> id == first
  {
    FirstCandidateIsNext(db, first, now);
    if NextToStart(db, id, now) {
      NextIsOne(db, id, first, now);
    }
  }

  predicate StartedBy(job: Job, job': Job, owner: string, now: Instant) {
    job' == job.(status := Running, owner := owner, updated := now, started := if job.started.Some? then job.started else Some(now))
  }

  lemma ClaimedRow(db: DB, owner: string, now: Instant, id: JobId) returns (first: Option<JobId>)
    requires owner != "" && id in db.jobs
    ensures first.None? ==> Candidates(db, now) == {}
    ensures first.Some? ==> first.value in Candidates(db, now) && forall k :: k in Candidates(db, now) ==> DueBefore(db, first.value, k)
    ensures var db' := Claim(db, owner, now).value;
            id in db'.jobs && db'.jobs[id] == if first == Some(id) then ClaimRow(db.jobs[id], owner, now) else ExpireRow(db.jobs[id], now)
  {
    ExpiryKeepsCandidates(db, now);
    var swept := Expire(db, now);
    first := None;
    if Candidates(swept, now) != {} {
      var k := FirstDue(swept, Candidates(swept, now));
      assert swept.jobs[k] == db.jobs[k];
      forall j | j in Candidates(db, now) ensures DueBefore(db, k, j) {
        assert DueBefore(swept, k, j);
      }
      first := Some(k);
    }
  }

  /** A claim starts exactly the next ready job, so none exactly if none is ready; every other row is left or expired. */
  lemma ClaimStartsTheNextReadyJob(db: DB, owner: string, now: Instant, id: JobId)
    requires Wf(db) && owner != "" && id in db.jobs
    ensures var db' := Claim(db, owner, now).value;
            && id in db'.jobs
            && (NextToStart(db, id, now) ==> StartedBy(db.jobs[id], db'.jobs[id], owner, now))
            && (!NextToStart(db, id, now) ==> db'.jobs[id] == ExpireRow(db.jobs[id], now))
  {
    var first := ClaimedRow(db, owner, now, id);
    if first.None? {
      NoneReady(db, now, id);
    } else {
      OnlyTheFirstIsNext(db, now, first.value, id);
    }
  }

  // ---------------------------------------------------------------- exactly when a status changes

  predicate Withdrawn(db: DB, job: Job) {
    job.cancel || !(job.user in db.users && db.users[job.user].active)
  }

  /** The final write takes the row to `to`: a marked job succeeds or is unknown, a withdrawn one is cancelled, others end as asked. */
  predicate FinishMoves(db: DB, job: Job, asked: JobStatus, to: JobStatus) {
    && Terminal(asked) && !(asked == Succeeded && job.status == AwaitingApproval)
    && if job.marker.Some? then to == (if asked == Succeeded then Succeeded else OutcomeUnknown)
       else asked != OutcomeUnknown && to == (if Withdrawn(db, job) then Cancelled else asked)
  }

  ghost predicate QueuedMoves(db: DB, op: Op, now: Instant, id: JobId, to: JobStatus)
    requires id in db.jobs
  {
    var job := db.jobs[id];
    match to
    case Running => op.ClaimOp? && op.owner != "" && NextToStart(db, id, now)
    case Failed => (op.ExpireOp? || (op.ClaimOp? && op.owner != "")) && job.expires.Some? && job.expires.value <= now
    case Cancelled =>
      || (op.CancelOp? && op.id == id && (op.actor == 0 || op.actor == job.user))
      || (op.SetAccountOp? && op.user == job.user && !op.active && op.user in db.users && !db.users[op.user].admin)
    case _ => false
  }

  predicate LeasedMoves(db: DB, op: Op, id: JobId, to: JobStatus)
    requires id in db.jobs
  {
    var job := db.jobs[id];
    match op
    case BeginApprovalOp(k, _) => k == id && job.status == Running && to == AwaitingApproval && !Withdrawn(db, job)
    case ResumeApprovedOp(k, _) => k == id && job.status == AwaitingApproval && to == Running && !Withdrawn(db, job)
    case FinishOp(k, asked, _, _) => k == id && FinishMoves(db, job, asked, to)
    case RecoverOp => to == if job.marker.Some? then OutcomeUnknown else Interrupted
    case _ => false
  }

  /** Why the statement takes the row to another status. */
  ghost predicate Moves(db: DB, op: Op, now: Instant, id: JobId, to: JobStatus)
    requires id in db.jobs
  {
    if db.jobs[id].status == Queued then QueuedMoves(db, op, now, id, to)
    else Active(db.jobs[id].status) && LeasedMoves(db, op, id, to)
  }

  lemma TransitionMovesRow(db: DB, k: JobId, expected: seq<JobStatus>, to: JobStatus, u: Update, now: Instant, id: JobId)
    requires id in db.jobs && k != id
    ensures var db' := Settle(db, Transition(db, k, expected, to, u, now)); id in db'.jobs && db'.jobs[id] == db.jobs[id]
  {
  }

  lemma OneState(a: JobStatus, b: JobStatus)
    ensures b in [a] <==> a == b
  {
    assert [a][0] == a;
  }

  /** A job asks for approval while it runs and is not withdrawn. */
  lemma ApprovalBegins(db: DB, id: JobId, message: Message, now: Instant)
    requires id in db.jobs
    ensures var job := db.jobs[id]; var r := BeginApproval(db, id, message, now);
            && (r.Ok? <==> job.status == Running && !Withdrawn(db, job))
            && (r.Ok? ==> r.value.jobs[id] == job.(status := AwaitingApproval, message := message, exitCode := None, updated := now))
            && (r.Err? ==> r.error == TransitionConflict)
  {
    OneState(Running, db.jobs[id].status);
    assert [Running][0] == Running;
  }

  /** And it resumes while it awaits approval and is not withdrawn. */
  lemma ApprovalResumes(db: DB, id: JobId, message: Message, now: Instant)
    requires id in db.jobs
    ensures var job := db.jobs[id]; var r := ResumeApproved(db, id, message, now);
            && (r.Ok? <==> job.status == AwaitingApproval && !Withdrawn(db, job))
            && (r.Ok? ==> r.value.jobs[id] == job.(status := Running, message := message, exitCode := None, updated := now,
                                                   started := if job.started.Some? then job.started else Some(now)))
            && (r.Err? ==> r.error == TransitionConflict)
  {
    OneState(AwaitingApproval, db.jobs[id].status);
    assert [AwaitingApproval][0] == AwaitingApproval;
  }

  lemma ExpectedStates(status: JobStatus, was: JobStatus)
    requires Terminal(status)
    ensures was in FinishExpected(status) <==> was == Running || (was == AwaitingApproval && status != Succeeded)
    ensures FinishExpected(status) != [] && forall i :: 0 <= i < |FinishExpected(status)| ==> CanTransition(FinishExpected(status)[i], status)
  {
    assert FinishExpected(status)[0] == Running;
    if status != Succeeded {
      assert FinishExpected(status)[1] == AwaitingApproval;
    }
  }

  /** The row as the final write leaves it. */
  predicate EndedAs(job: Job, job': Job, status: JobStatus, message: Message, code: Option<int>, now: Instant) {
    job' == job.(status := status, message := message, exitCode := code, updated := now, finished := Some(now), owner := "")
  }

  predicate FinishedRow(job: Job, job': Job, withdrawn: bool, asked: JobStatus, message: Message, code: Option<int>, now: Instant) {
    if job.marker.Some? && asked != Succeeded then EndedAs(job, job', OutcomeUnknown, OutcomeIsUnknown, None, now)
    else if job.marker.None? && withdrawn then EndedAs(job, job', Cancelled, CancelRequestedOrDisabled, None, now)
    else EndedAs(job, job', asked, message, code, now)
  }

  lemma FinishRow(job: Job, active: bool, asked: JobStatus, message: Message, code: Option<int>, now: Instant)
    requires Terminal(asked)
    ensures FinishedRow(job, TransitionRow(job, active, asked, Update(message, code, false), now), job.cancel || !active, asked, message, code, now)
  {
  }

  predicate MayFinish(job: Job, asked: JobStatus) {
    Active(job.status) && !(asked == Succeeded && job.status == AwaitingApproval) && !(asked == OutcomeUnknown && job.marker.None?)
  }

  lemma FinishIs(db: DB, id: JobId, asked: JobStatus, message: Message, code: Option<int>, now: Instant)
    requires id in db.jobs && Terminal(asked)
    ensures var r := Finish(db, id, asked, message, code, now);
            && (r.Ok? <==> MayFinish(db.jobs[id], asked))
            && (r.Ok? ==> r.value.jobs == db.jobs[id := TransitionRow(db.jobs[id], IsActive(db, db.jobs[id].user), asked, Update(message, code, false), now)])
  {
    ExpectedStates(asked, db.jobs[id].status);
  }

  /** The final write: exactly when it is made, all it records, and that it touches no other row. */
  lemma FinishWrites(db: DB, id: JobId, asked: JobStatus, message: Message, code: Option<int>, now: Instant)
    requires id in db.jobs && Terminal(asked)
    ensures var r := Finish(db, id, asked, message, code, now);
            && (r.Ok? <==> MayFinish(db.jobs[id], asked))
            && (r.Ok? ==> r.value.jobs.Keys == db.jobs.Keys && FinishedRow(db.jobs[id], r.value.jobs[id], Withdrawn(db, db.jobs[id]), asked, message, code, now)
                          && forall k :: k in db.jobs && k != id ==> r.value.jobs[k] == db.jobs[k])
  {
    FinishIs(db, id, asked, message, code, now);
    FinishRow(db.jobs[id], IsActive(db, db.jobs[id].user), asked, message, code, now);
  }

  lemma BeginMoves(db: DB, k: JobId, message: Message, now: Instant, id: JobId, to: JobStatus)
    requires id in db.jobs && to != db.jobs[id].status
    ensures var db' := Settle(db, BeginApproval(db, k, message, now));
            id in db'.jobs && (db'.jobs[id].status == to <==> Moves(db, BeginApprovalOp(k, message), now, id, to))
  {
    if k == id {
      ApprovalBegins(db, id, message, now);
    } else {
      TransitionMovesRow(db, k, [Running], AwaitingApproval, Update(message, None, false), now, id);
    }
  }

  lemma ResumeMoves(db: DB, k: JobId, message: Message, now: Instant, id: JobId, to: JobStatus)
    requires id in db.jobs && to != db.jobs[id].status
    ensures var db' := Settle(db, ResumeApproved(db, k, message, now));
            id in db'.jobs && (db'.jobs[id].status == to <==> Moves(db, ResumeApprovedOp(k, message), now, id, to))
  {
    if k == id {
      ApprovalResumes(db, id, message, now);
    } else {
      TransitionMovesRow(db, k, [AwaitingApproval], Running, Update(message, None, false), now, id);
    }
  }

  lemma FinishedMoves(db: DB, k: JobId, asked: JobStatus, message: Message, code: Option<int>, now: Instant, id: JobId, to: JobStatus, db': DB)
    requires Terminal(asked) && id in db.jobs && id in db'.jobs && to != db.jobs[id].status
    requires k == id && MayFinish(db.jobs[id], asked) ==>
               FinishedRow(db.jobs[id], db'.jobs[id], Withdrawn(db, db.jobs[id]), asked, message, code, now)
    requires !(k == id && MayFinish(db.jobs[id], asked)) ==> db'.jobs[id] == db.jobs[id]
    ensures db'.jobs[id].status == to <==> Moves(db, FinishOp(k, asked, message, code), now, id, to)
  {
  }

  lemma FinalRow(db: DB, k: JobId, asked: JobStatus, message: Message, code: Option<int>, now: Instant, id: JobId)
    requires Terminal(asked) && id in db.jobs
    ensures var db' := Settle(db, Finish(db, k, asked, message, code, now));
            && id in db'.jobs
            && (k == id && MayFinish(db.jobs[id], asked) ==> FinishedRow(db.jobs[id], db'.jobs[id], Withdrawn(db, db.jobs[id]), asked, message, code, now))
            && (!(k == id && MayFinish(db.jobs[id], asked)) ==> db'.jobs[id] == db.jobs[id])
  {
    if k == id {
      FinishWrites(db, id, asked, message, code, now);
    } else {
      TransitionMovesRow(db, k, FinishExpected(asked), asked, Update(message, code, false), now, id);
    }
  }

  lemma FinalWriteMoves(db: DB, k: JobId, asked: JobStatus, message: Message, code: Option<int>, now: Instant, id: JobId, to: JobStatus)
    requires Terminal(asked) && id in db.jobs && to != db.jobs[id].status
    ensures var db' := Settle(db, Finish(db, k, asked, message, code, now));
            id in db'.jobs && (db'.jobs[id].status == to <==> Moves(db, FinishOp(k, asked, message, code), now, id, to))
  {
    FinalRow(db, k, asked, message, code, now, id);
    FinishedMoves(db, k, asked, message, code, now, id, to, Settle(db, Finish(db, k, asked, message, code, now)));
  }

  lemma JobOpMoves(db: DB, op: Op, now: Instant, id: JobId, to: JobStatus)
    requires op.BeginApprovalOp? || op.ResumeApprovedOp? || op.FinishOp?
    requires id in db.jobs && to != db.jobs[id].status
    ensures id in Apply(db, op, now).jobs && (Apply(db, op, now).jobs[id].status == to <==> Moves(db, op, now, id, to))
  {
    match op
    case BeginApprovalOp(k, message) => BeginMoves(db, k, message, now, id, to);
    case ResumeApprovedOp(k, message) => ResumeMoves(db, k, message, now, id, to);
    case FinishOp(k, asked, message, code) =>
      if Terminal(asked) {
        FinalWriteMoves(db, k, asked, message, code, now, id, to);
      }
  }

  lemma ClaimedMoves(db: DB, owner: string, now: Instant, id: JobId, to: JobStatus, job': Job)
    requires owner != "" && id in db.jobs && to != db.jobs[id].status
    requires NextToStart(db, id, now) ==> StartedBy(db.jobs[id], job', owner, now)
    requires !NextToStart(db, id, now) ==> job' == ExpireRow(db.jobs[id], now)
    ensures job'.status == to <==> Moves(db, ClaimOp(owner), now, id, to)
  {
  }

  lemma ClaimMoves(db: DB, owner: string, now: Instant, id: JobId, to: JobStatus)
    requires Wf(db) && id in db.jobs && to != db.jobs[id].status
    ensures var db' := Settle(db, Claim(db, owner, now)); id in db'.jobs && (db'.jobs[id].status == to <==> Moves(db, ClaimOp(owner), now, id, to))
  {
    if owner != "" {
      ClaimStartsTheNextReadyJob(db, owner, now, id);
      ClaimedMoves(db, owner, now, id, to, Claim(db, owner, now).value.jobs[id]);
    }
  }

  lemma SweepMoves(db: DB, op: Op, now: Instant, id: JobId, to: JobStatus)
    requires (op.ExpireOp? || op.RecoverOp?) && id in db.jobs && to != db.jobs[id].status
    ensures id in Apply(db, op, now).jobs && (Apply(db, op, now).jobs[id].status == to <==> Moves(db, op, now, id, to))
  {
  }

  lemma CancelMoves(db: DB, actor: UserId, k: JobId, now: Instant, id: JobId, to: JobStatus)
    requires id in db.jobs && to != db.jobs[id].status
    ensures var db' := Settle(db, RequestCancellation(db, actor, k, now));
            id in db'.jobs && (db'.jobs[id].status == to <==> Moves(db, CancelOp(actor, k), now, id, to))
  {
  }

  lemma AccountMoves(db: DB, u: UserId, active: bool, now: Instant, id: JobId, to: JobStatus)
    requires id in db.jobs && to != db.jobs[id].status
    ensures var db' := Settle(db, SetAccount(db, u, active, now));
            id in db'.jobs && (db'.jobs[id].status == to <==> Moves(db, SetAccountOp(u, active), now, id, to))
  {
  }

  /** The statements that move no row. */
  predicate MovesNothing(op: Op) {
    op.EnqueueOp? || op.MarkOp? || op.PruneOp? || op.RetentionTriggerOp? || op.PurgeGuardsOp? || op.DeleteMemberOp? || op.AddProfileOp? ||
    op.DeleteProfileOp? || op.DecideOp? || op.OtherTablesOp?
  }

  lemma EnqueueLeaves(db: DB, actor: UserId, p: Params, now: Instant, id: JobId)
    requires id in db.jobs && id < db.nextJob
    ensures var db' := Settle(db, Enqueue(db, actor, p, now)); id in db'.jobs ==> db'.jobs[id] == db.jobs[id]
  {
  }

  lemma DeletionLeaves(db: DB, op: Op, now: Instant, id: JobId)
    requires op.PruneOp? || op.RetentionTriggerOp? || op.DeleteMemberOp? || op.DeleteProfileOp?
    requires id in db.jobs && id in Apply(db, op, now).jobs
    ensures Apply(db, op, now).jobs[id] == db.jobs[id]
  {
  }

  lemma DecisionLeaves(db: DB, u: UserId, k: JobId, d: Decision)
    ensures RecordDecision(db, u, k, d).db.jobs == db.jobs
  {
  }

  lemma RestLeaves(db: DB, op: Op, now: Instant)
    requires op.PurgeGuardsOp? || op.AddProfileOp? || op.DecideOp? || op.OtherTablesOp?
    ensures Apply(db, op, now).jobs == db.jobs
  {
    if op.DecideOp? {
      DecisionLeaves(db, op.user, op.id, op.decision);
    }
  }

  lemma MarkLeaves(db: DB, k: JobId, now: Instant, id: JobId)
    requires id in db.jobs
    ensures var db' := Settle(db, MarkConfirmation(db, k, now)); id in db'.jobs && db'.jobs[id].status == db.jobs[id].status
  {
  }

  lemma OthersMoveNothing(db: DB, op: Op, now: Instant, id: JobId)
    requires MovesNothing(op) && id in db.jobs && id < db.nextJob && id in Apply(db, op, now).jobs
    ensures Apply(db, op, now).jobs[id].status == db.jobs[id].status
  {
    if op.EnqueueOp? {
      EnqueueLeaves(db, op.actor, op.params, now, id);
    } else if op.PruneOp? || op.RetentionTriggerOp? || op.DeleteMemberOp? || op.DeleteProfileOp? {
      DeletionLeaves(db, op, now, id);
    } else if op.MarkOp? {
      MarkLeaves(db, op.id, now, id);
    } else {
      RestLeaves(db, op, now);
    }
  }

  lemma OutsideMoves(db: DB, op: Op, now: Instant, id: JobId, to: JobStatus)
    requires (op.CancelOp? || op.SetAccountOp? || op.ExpireOp? || op.RecoverOp?) && id in db.jobs && to != db.jobs[id].status
    ensures id in Apply(db, op, now).jobs && (Apply(db, op, now).jobs[id].status == to <==> Moves(db, op, now, id, to))
  {
    if op.CancelOp? {
      CancelMoves(db, op.actor, op.id, now, id, to);
    } else if op.SetAccountOp? {
      AccountMoves(db, op.user, op.active, now, id, to);
    } else {
      SweepMoves(db, op, now, id, to);
    }
  }

  /** For every statement, every row that stays and every other status: the row goes there exactly for the reasons above. */
  lemma StatusChangesExactly(db: DB, op: Op, now: Instant, id: JobId, to: JobStatus)
    requires Wf(db) && id in db.jobs && id in Apply(db, op, now).jobs && to != db.jobs[id].status
    ensures Apply(db, op, now).jobs[id].status == to <==> Moves(db, op, now, id, to)
  {
    if op.ClaimOp? {
      ClaimMoves(db, op.owner, now, id, to);
    } else if op.CancelOp? || op.SetAccountOp? || op.ExpireOp? || op.RecoverOp? {
      OutsideMoves(db, op, now, id, to);
    } else if op.BeginApprovalOp? || op.ResumeApprovedOp? || op.FinishOp? {
      JobOpMoves(db, op, now, id, to);
    } else {
      OthersMoveNothing(db, op, now, id);
      assert MovesNothing(op);
    }
  }

  // ---------------------------------------------------------------- what an end records

  /** The message an ending statement leaves. */
  predicate EndMessage(db: DB, op: Op, job: Job, job': Job) {
    match op
    case ExpireOp => job'.message == WindowExpired && job'.exitCode == job.exitCode
    case ClaimOp(_) => job'.message == WindowExpired && job'.exitCode == job.exitCode
    case CancelOp(_, _) => job'.message == CancelledBeforeExecution && job'.exitCode == job.exitCode
    case SetAccountOp(_, _) => job'.message == AccountWasDisabled && job'.exitCode == job.exitCode
    case RecoverOp => job'.message == (if job.marker.Some? then RestartAfterConfirmation else RestartInterrupted) && job'.exitCode == job.exitCode
    case FinishOp(_, asked, message, code) =>
      if job.marker.Some? && asked != Succeeded then job'.message == OutcomeIsUnknown && job'.exitCode == None
      else if job.marker.None? && Withdrawn(db, job) then job'.message == CancelRequestedOrDisabled && job'.exitCode == None
      else job'.message == message && job'.exitCode == code
    case _ => false
  }

  predicate EndRecorded(db: DB, op: Op, now: Instant, job: Job, job': Job) {
    && job'.finished == Some(now) && job'.updated == now && job'.owner == "" && job'.marker == job.marker && job'.started == job.started
    && (job'.cancel <==> job.cancel || op.CancelOp? || op.SetAccountOp?)
    && SameIdentity(job, job') && EndMessage(db, op, job, job')
  }

  lemma ExpiredEnd(db: DB, op: Op, job: Job, now: Instant)
    requires (op.ClaimOp? || op.ExpireOp?) && RowOk(job) && job.status == Queued && Terminal(ExpireRow(job, now).status)
    ensures EndRecorded(db, op, now, job, ExpireRow(job, now))
  {
  }

  lemma ClaimEndIsRecorded(db: DB, owner: string, now: Instant, id: JobId)
    requires Wf(db) && id in db.jobs && Pending(db.jobs[id].status)
    requires var db' := Settle(db, Claim(db, owner, now)); id in db'.jobs && Terminal(db'.jobs[id].status)
    ensures EndRecorded(db, ClaimOp(owner), now, db.jobs[id], Settle(db, Claim(db, owner, now)).jobs[id])
  {
    if owner != "" {
      ClaimStartsTheNextReadyJob(db, owner, now, id);
      ExpiredEnd(db, ClaimOp(owner), db.jobs[id], now);
    }
  }

  lemma FinishedEnd(db: DB, op: Op, job: Job, job': Job, now: Instant)
    requires op.FinishOp? && Terminal(op.status) && FinishedRow(job, job', Withdrawn(db, job), op.status, op.message, op.exitCode, now)
    ensures EndRecorded(db, op, now, job, job')
  {
  }

  lemma FinalEndIsRecorded(db: DB, k: JobId, asked: JobStatus, message: Message, code: Option<int>, now: Instant, id: JobId)
    requires Terminal(asked) && id in db.jobs && Pending(db.jobs[id].status)
    requires var db' := Settle(db, Finish(db, k, asked, message, code, now)); id in db'.jobs && Terminal(db'.jobs[id].status)
    ensures EndRecorded(db, FinishOp(k, asked, message, code), now, db.jobs[id], Settle(db, Finish(db, k, asked, message, code, now)).jobs[id])
  {
    FinalRow(db, k, asked, message, code, now, id);
    FinishedEnd(db, FinishOp(k, asked, message, code), db.jobs[id], Settle(db, Finish(db, k, asked, message, code, now)).jobs[id], now);
  }

  lemma RecoveredEnd(db: DB, job: Job, now: Instant)
    requires Active(job.status)
    ensures EndRecorded(db, RecoverOp, now, job, RecoverRow(job, now))
  {
  }

  lemma SweepEndIsRecorded(db: DB, op: Op, now: Instant, id: JobId)
    requires (op.ExpireOp? || op.RecoverOp?) && Rows(db) && id in db.jobs && Pending(db.jobs[id].status) && Terminal(Apply(db, op, now).jobs[id].status)
    ensures EndRecorded(db, op, now, db.jobs[id], Apply(db, op, now).jobs[id])
  {
    if op.ExpireOp? {
      ExpiredEnd(db, op, db.jobs[id], now);
    } else {
      RecoveredEnd(db, db.jobs[id], now);
    }
  }

  lemma WithdrawnRow(db: DB, op: Op, job: Job, message: Message, now: Instant)
    requires RowOk(job) && job.status == Queued
    requires (op.CancelOp? && message == CancelledBeforeExecution) || (op.SetAccountOp? && message == AccountWasDisabled)
    ensures EndRecorded(db, op, now, job, CancelRow(job, message, now))
  {
  }

  lemma CancelIs(db: DB, actor: UserId, k: JobId, now: Instant)
    ensures var db' := Settle(db, RequestCancellation(db, actor, k, now));
            db'.jobs == db.jobs || (k in db.jobs && db'.jobs == db.jobs[k := CancelRow(db.jobs[k], CancelledBeforeExecution, now)])
  {
  }

  lemma CancelEndIsRecorded(db: DB, actor: UserId, k: JobId, now: Instant, id: JobId)
    requires Rows(db) && id in db.jobs && Pending(db.jobs[id].status)
    requires var db' := Settle(db, RequestCancellation(db, actor, k, now)); id in db'.jobs && Terminal(db'.jobs[id].status)
    ensures EndRecorded(db, CancelOp(actor, k), now, db.jobs[id], Settle(db, RequestCancellation(db, actor, k, now)).jobs[id])
  {
    CancelIs(db, actor, k, now);
    WithdrawnRow(db, CancelOp(actor, k), db.jobs[id], CancelledBeforeExecution, now);
  }

  lemma AccountEndIsRecorded(db: DB, u: UserId, active: bool, now: Instant, id: JobId)
    requires Rows(db) && id in db.jobs && Pending(db.jobs[id].status)
    requires var db' := Settle(db, SetAccount(db, u, active, now)); id in db'.jobs && Terminal(db'.jobs[id].status)
    ensures EndRecorded(db, SetAccountOp(u, active), now, db.jobs[id], Settle(db, SetAccount(db, u, active, now)).jobs[id])
  {
    assert Settle(db, SetAccount(db, u, active, now)).jobs[id] == CancelRow(db.jobs[id], AccountWasDisabled, now);
    WithdrawnRow(db, SetAccountOp(u, active), db.jobs[id], AccountWasDisabled, now);
  }

  lemma OthersDoNotEnd(db: DB, op: Op, now: Instant, id: JobId)
    requires Wf(db) && id in db.jobs && id in Apply(db, op, now).jobs && Pending(db.jobs[id].status)
    requires !op.ClaimOp? && !(op.FinishOp? && Terminal(op.status)) && !op.ExpireOp? && !op.RecoverOp? && !op.CancelOp? && !op.SetAccountOp?
    ensures !Terminal(Apply(db, op, now).jobs[id].status)
  {
    StatusChangesExactly(db, op, now, id, if Apply(db, op, now).jobs[id].status != db.jobs[id].status then Apply(db, op, now).jobs[id].status else OutcomeUnknown);
  }

  /** Whichever statement ends a job, the row says when and why, holds no lease, and is otherwise as it was. */
  lemma EveryEndIsRecorded(db: DB, op: Op, now: Instant, id: JobId)
    requires Wf(db) && id in db.jobs && id in Apply(db, op, now).jobs && Pending(db.jobs[id].status) && Terminal(Apply(db, op, now).jobs[id].status)
    ensures EndRecorded(db, op, now, db.jobs[id], Apply(db, op, now).jobs[id])
  {
    if op.ClaimOp? {
      ClaimEndIsRecorded(db, op.owner, now, id);
    } else if op.FinishOp? && Terminal(op.status) {
      FinalEndIsRecorded(db, op.id, op.status, op.message, op.exitCode, now, id);
    } else if op.ExpireOp? || op.RecoverOp? {
      SweepEndIsRecorded(db, op, now, id);
    } else if op.CancelOp? {
      CancelEndIsRecorded(db, op.actor, op.id, now, id);
    } else if op.SetAccountOp? {
      AccountEndIsRecorded(db, op.user, op.active, now, id);
    } else {
      OthersDoNotEnd(db, op, now, id);
    }
  }

  // ---------------------------------------------------------------- the other statements on a job

  /** A transition as asked: what it requires, what it refuses and why, and what it writes when it does not end the job. */
  lemma TransitionIsMade(db: DB, id: JobId, expected: seq<JobStatus>, to: JobStatus, u: Update, now: Instant)
    ensures var r := Transition(db, id, expected, to, u, now);
            && (r == Err(NotFound) ==> id !in db.jobs)
            && (r == Err(Invalid) ==>
                  || expected == [] || (exists s :: s in expected && !CanTransition(s, to))
                  || (id in db.jobs && to == OutcomeUnknown && db.jobs[id].marker.None? && !u.confirmationStarted))
            && (r == Err(TransitionConflict) ==> id in db.jobs && (db.jobs[id].status !in expected || (!Terminal(to) && Withdrawn(db, db.jobs[id]))))
            && (r.Err? ==> r.error in {NotFound, Invalid, TransitionConflict})
            && (r.Ok? <==>
                  && expected != [] && (forall s :: s in expected ==> CanTransition(s, to)) && id in db.jobs && db.jobs[id].status in expected
                  && (to == OutcomeUnknown ==> db.jobs[id].marker.Some? || u.confirmationStarted)
                  && (!Terminal(to) ==> !Withdrawn(db, db.jobs[id])))
  {
    if exists i :: 0 <= i < |expected| && !CanTransition(expected[i], to) {
      var i :| 0 <= i < |expected| && !CanTransition(expected[i], to);
      assert expected[i] in expected;
    }
  }

  /** The row after a transition: the outcome resolved, the marker written once, the first start kept. */
  lemma TransitionWritesRow(job: Job, active: bool, to: JobStatus, u: Update, now: Instant)
    ensures var job' := TransitionRow(job, active, to, u, now); var starting := u.confirmationStarted;
            && job'.updated == now && SameIdentity(job, job') && job'.cancel == job.cancel
            && job'.marker == (if starting && job.marker.None? then Some(now) else job.marker)
            && job'.started == (if to == Running && job.started.None? then Some(now) else job.started)
            && job'.finished == (if Terminal(to) then Some(now) else job.finished) && job'.owner == (if Terminal(to) then "" else job.owner)
            && (!Terminal(to) ==> job'.status == to && job'.message == u.message && job'.exitCode == u.exitCode)
            && (Terminal(to) && job'.marker.Some? ==> job'.status == if to == Succeeded then Succeeded else OutcomeUnknown)
            && (Terminal(to) && job'.marker.None? ==> job'.status == if job.cancel || !active then Cancelled else to)
            && (Terminal(to) && job'.marker.Some? && to != Succeeded ==> job'.message == OutcomeIsUnknown && job'.exitCode == None)
            && (Terminal(to) && job'.marker.None? && (job.cancel || !active) ==> job'.message == CancelRequestedOrDisabled && job'.exitCode == None)
            && (Terminal(to) && (if job'.marker.Some? then to == Succeeded else !job.cancel && active) ==> job'.message == u.message && job'.exitCode == u.exitCode)
  {
  }

  /** The marker is written exactly on a leased row that is not withdrawn, and an earlier one is kept. */
  lemma MarkerIsWritten(db: DB, id: JobId, now: Instant)
    ensures var r := MarkConfirmation(db, id, now);
            && (r.Ok? <==> id in db.jobs && db.jobs[id].status in {Running, AwaitingApproval} && !Withdrawn(db, db.jobs[id]))
            && (r.Ok? ==> id in r.value.jobs && r.value.reservations == db.reservations && r.value.jobs == db.jobs[id := r.value.jobs[id]])
            && (r.Ok? ==> r.value.jobs[id] == db.jobs[id].(updated := now, marker := if db.jobs[id].marker.Some? then db.jobs[id].marker else Some(now)))
            && (r.Err? ==> r.error == TransitionConflict)
  {
  }

  /** The first decision of the active owner on the awaiting job is kept; a later one is told whether it agrees. */
  lemma FirstDecisionCounts(db: DB, u: UserId, id: JobId, d: Decision)
    ensures var r := RecordDecision(db, u, id, d);
            var open := id in db.jobs && db.jobs[id].status == AwaitingApproval && db.jobs[id].user == u && u in db.users && db.users[u].active;
            && r.db == db.(decisions := r.db.decisions)
            && (forall k :: k != id ==> (k in r.db.decisions <==> k in db.decisions) && (k in db.decisions ==> r.db.decisions[k] == db.decisions[k]))
            && (id in db.decisions ==> id in r.db.decisions && r.db.decisions[id] == db.decisions[id])
            && (id !in db.decisions ==> (id in r.db.decisions <==> open) && (open ==> r.db.decisions[id] == (u, d)))
            && (r.answer == Ok(d) <==> id in r.db.decisions && r.db.decisions[id] == (u, d))
            && (r.answer == Err(DecisionConflict) <==> id in db.decisions && db.decisions[id].0 == u && db.decisions[id].1 != d)
            && (r.answer == Err(TransitionConflict) <==>
                  !(id in r.db.decisions && r.db.decisions[id].0 == u) && id in db.jobs && db.jobs[id].user == u)
            && (r.answer == Err(NotFound) <==> !(id in r.db.decisions && r.db.decisions[id].0 == u) && !(id in db.jobs && db.jobs[id].user == u))
  {
  }
}
