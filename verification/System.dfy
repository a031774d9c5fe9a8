/**
 The whole booking system: the durable tables, one product machine per claimed job, the decision path, the final write,
 the clock, and crashes that leave a worker running. Every interleaving is a run.
 */
module System {
  import opened Types
  import opened JobTable
  import opened JobInvariants
  import opened JobRuns
  import Worker
  import C = Coordinator
  import L = Link
  import E = Engine

  /** A claimed job: its row as it was leased, and its two processes. Runs are kept for the history they hold. */
  datatype Run = Run(job: Job, link: L.Link)

  datatype Sys = Sys(
    db: DB,
    now: Instant,
    up: bool,
    runs: map<JobId, Run>,
    deliveries: set<(JobId, Decision)>,   // recorded decisions on their way to the hub
    approved: set<JobId>)                 // jobs whose owner's approval was recorded durably

  function NewRun(job: Job): Run {
    Run(job, L.NewLink(Worker.Program(job.command, job.mode)))
  }

  datatype Step =
    | Tick(to: Instant)
    | Statement(op: Op)
    | ClaimNext(owner: string)
    | RunStep(id: JobId, step: L.Step, applied: bool, message: Message)
    | Decide(user: UserId, id: JobId, decision: Decision)
    | Deliver(id: JobId, decision: Decision)
    | FinishJob(id: JobId, sight: E.Sight, written: bool)
    | CrashAll
    | Restart

  /** Statements issued outside the running jobs: the web server, the CLI, the scheduler and the sweepers. */
  predicate Outside(op: Op) {
    op.EnqueueOp? || op.ExpireOp? || op.CancelOp? || op.PruneOp? || op.RetentionTriggerOp? || op.PurgeGuardsOp? ||
    op.SetAccountOp? || op.DeleteMemberOp? || op.AddProfileOp? || op.DeleteProfileOp? || op.OtherTablesOp?
  }

  /** New bookings are for a visit day that has not passed everywhere; module Timing shows the engine admits no other. */
  ghost predicate Admissible(db: DB, db': DB, now: Instant) {
    forall id :: id in db'.jobs && id !in db.jobs && db'.jobs[id].command == Book ==> db'.jobs[id].visit >= Today(now) - 1
  }

  /** The statement a step runs, if any. */
  function StoreCall(id: JobId, l: L.Link, s: L.Step, message: Message): Option<Op>
    requires L.Enabled(l, s)
  {
    match s
    case HandlesFrame(a) =>
      (match C.React(l.coord, l.toGo[0], a).call
       case NoCall => None
       case BeginApprovalCall => Some(BeginApprovalOp(id, message))
       case MarkCall => Some(MarkOp(id)))
    case HandlesApproval(_) => if l.approval.decision == Some(Approve) then Some(ResumeApprovedOp(id, message)) else None
    case _ => None
  }

  predicate Commits(db: DB, op: Op, now: Instant) {
    match op
    case BeginApprovalOp(id, message) => BeginApproval(db, id, message, now).Ok?
    case ResumeApprovedOp(id, message) => ResumeApproved(db, id, message, now).Ok?
    case MarkOp(id) => MarkConfirmation(db, id, now).Ok?
    case _ => true
  }

  /** What the coordinator is told about that call. */
  predicate ToldOk(s: L.Step) {
    match s
    case HandlesFrame(a) => a.hook
    case HandlesApproval(hook) => hook
    case _ => true
  }

  /** A call reported as done was done; one reported as failed may still have been committed. */
  function AfterCall(db: DB, now: Instant, call: Option<Op>, told: bool, applied: bool): DB {
    if call.Some? && (told || applied) then Apply(db, call.value, now) else db
  }

  ghost predicate Enabled(s: Sys, step: Step) {
    match step
    case Tick(to) => to >= s.now
    case Statement(op) => Outside(op) && Admissible(s.db, Apply(s.db, op, s.now), s.now)
    case ClaimNext(owner) => s.up && owner != ""
    case RunStep(id, l, _, message) =>
      && id in s.runs && L.Enabled(s.runs[id].link, l) && !l.HubReceives? && l != L.Crash
      && var call := StoreCall(id, s.runs[id].link, l, message);
         (call.Some? && ToldOk(l) ==> Commits(s.db, call.value, s.now))
    case Decide(_, _, _) => true
    case Deliver(id, d) => (id, d) in s.deliveries
    case FinishJob(id, sight, _) =>
      && id in s.runs && s.runs[id].link.phase.Ended?
      && (sight.marker ==> id in s.db.jobs && s.db.jobs[id].marker.Some?)
    case CrashAll => s.up
    case Restart => !s.up
  }

  function Leased(db: DB, owner: string, now: Instant): Option<JobId> {
    var swept := Expire(db, now);
    if Candidates(swept, now) == {} then None else Some(FirstDue(swept, Candidates(swept, now)))
  }

  function WithLink(s: Sys, id: JobId, l: L.Link): Sys
    requires id in s.runs
  {
    s.(runs := s.runs[id := s.runs[id].(link := l)])
  }

  function Crashed(runs: map<JobId, Run>): map<JobId, Run> {
    map id | id in runs :: runs[id].(link := L.Do(runs[id].link, L.Crash))
  }

  ghost function Do(s: Sys, step: Step): Sys
    requires Enabled(s, step)
  {
    match step
    case Tick(to) => s.(now := to)
    case Statement(op) => s.(db := Apply(s.db, op, s.now))
    case ClaimNext(owner) =>
      var db' := Apply(s.db, ClaimOp(owner), s.now);
      var leased := Leased(s.db, owner, s.now);
      if leased.None? then s.(db := db') else s.(db := db', runs := s.runs[leased.value := NewRun(db'.jobs[leased.value])])
    case RunStep(id, l, applied, message) =>
      var call := StoreCall(id, s.runs[id].link, l, message);
      WithLink(s, id, L.Do(s.runs[id].link, l)).(db := AfterCall(s.db, s.now, call, ToldOk(l), applied))
    case Decide(u, id, d) =>
      var r := RecordDecision(s.db, u, id, d);
      if r.answer.Err? then s.(db := r.db)
      else s.(db := r.db, deliveries := s.deliveries + {(id, d)}, approved := if d == Approve then s.approved + {id} else s.approved)
    case Deliver(id, d) =>
      var s' := s.(deliveries := s.deliveries - {(id, d)});
      if id in s.runs && L.Enabled(s.runs[id].link, L.HubReceives(d)) then WithLink(s', id, L.Do(s.runs[id].link, L.HubReceives(d))) else s'
    case FinishJob(id, sight, written) =>
      var c := E.Conclude(s.runs[id].link.phase.outcome, sight);
      if written then s.(db := Apply(s.db, FinishOp(id, c.status, c.message, c.exitCode), s.now)) else s
    case CrashAll => s.(up := false, runs := Crashed(s.runs), deliveries := {})
    case Restart => s.(up := true, db := Apply(s.db, RecoverOp, s.now))
  }

  // ---------------------------------------------------------------- the invariant

  /** A slot no later booking can take: guarded without a job, or its profile is gone for good, or its day has passed. */
  predicate Vacated(db: DB, now: Instant, s: Slot) {
    || (s in db.reservations && db.reservations[s].None?)
    || s.profile !in db.profiles
    || (s !in db.reservations && s.visit < Today(now) - 1)
  }

  /** The durable trace of a marker. */
  predicate Guarded(db: DB, now: Instant, id: JobId, job: Job) {
    if id in db.jobs then db.jobs[id].marker.Some? else job.command == Book ==> Vacated(db, now, SlotOf(job))
  }

  predicate Kept(db: DB, now: Instant, id: JobId, r: Run) {
    && id < db.nextJob && r.job.profile < db.nextProfile
    && (r.job.immediate ==> r.job.mode == Manual)
    && (id in db.jobs ==> SameIdentity(r.job, db.jobs[id]) && db.jobs[id].status != Queued)
    && (r.link.marked ==> Guarded(db, now, id, r.job))
  }

  /** What a row's status says about its run. */
  predicate Standing(db: DB, id: JobId, r: Run) {
    id in db.jobs ==>
      && (db.jobs[id].status == AwaitingApproval ==> Worker.Manually(r.link.coord.program) && r.link.asked && !r.link.resumed)
      && (db.jobs[id].status == Succeeded && r.job.command == Book ==> r.link.emittedCompletion)
  }

  /** An approval has reached the run. */
  predicate Approves(l: L.Link) {
    || l.resumed
    || (l.waiter.Waiter? && l.waiter.buffer == Some(Approve))
    || (l.approval.Answered? && l.approval.decision == Some(Approve))
  }

  ghost predicate LinkOk(approved: set<JobId>, id: JobId, r: Run) {
    && L.Inv(r.link)
    && r.link.coord.program == Worker.Program(r.job.command, r.job.mode)
    && (Approves(r.link) ==> id in approved)
    && (r.link.resumed ==> r.link.asked)
  }

  predicate Confirming(r: Run) { r.link.marked && r.job.command == Book }

  /** No two runs that may confirm share a slot. */
  ghost predicate Apart(runs: map<JobId, Run>) {
    forall a, b :: a in runs && b in runs && a != b && Confirming(runs[a]) && Confirming(runs[b]) ==>
                     SlotOf(runs[a].job) != SlotOf(runs[b].job)
  }

  ghost predicate RowsOk(db: DB, now: Instant, runs: map<JobId, Run>) {
    forall id :: id in runs ==> Kept(db, now, id, runs[id]) && Standing(db, id, runs[id])
  }

  ghost predicate LinksOk(approved: set<JobId>, runs: map<JobId, Run>) {
    forall id :: id in runs ==> LinkOk(approved, id, runs[id])
  }

  /** Only a claimed job can be leased or have succeeded. */
  ghost predicate Owned(db: DB, runs: map<JobId, Run>) {
    forall id :: id in db.jobs && (Active(db.jobs[id].status) || db.jobs[id].status == Succeeded) ==> id in runs
  }

  ghost predicate DeliveriesOk(s: Sys) {
    forall id :: (id, Approve) in s.deliveries ==> id in s.approved
  }

  ghost predicate Core(s: Sys) {
    Wf(s.db) && RowsOk(s.db, s.now, s.runs) && LinksOk(s.approved, s.runs) && Apart(s.runs) && DeliveriesOk(s)
  }

  // ---------------------------------------------------------------- what a change of the tables keeps

  lemma VacatedStays(db: DB, db': DB, now: Instant, s: Slot)
    requires Wf(db) && Wf(db') && Evolves(db, db', Today(now)) && Admissible(db, db', now)
    requires s.profile < db.nextProfile && Vacated(db, now, s)
    ensures Vacated(db', now, s)
  {
    if s in db.reservations {
      assert GuardKept(db, db', s, Today(now));
    }
  }

  /** Deleting a marked job's row leaves a guard on its slot. */
  lemma MarkedLeavesGuard(db: DB, db': DB, now: Instant, id: JobId)
    requires Wf(db) && Wf(db') && Evolves(db, db', Today(now))
    requires id in db.jobs && db.jobs[id].marker.Some? && db.jobs[id].command == Book && id !in db'.jobs
    ensures Vacated(db', now, SlotOf(db.jobs[id]))
  {
    assert Holds(db.jobs[id]);
    assert GuardKept(db, db', SlotOf(db.jobs[id]), Today(now));
  }

  lemma KeptStays(db: DB, db': DB, now: Instant, id: JobId, r: Run)
    requires Wf(db) && Wf(db') && Evolves(db, db', Today(now)) && Admissible(db, db', now) && Kept(db, now, id, r)
    ensures Kept(db', now, id, r)
  {
    if r.link.marked && id !in db'.jobs && r.job.command == Book {
      if id in db.jobs {
        MarkedLeavesGuard(db, db', now, id);
      } else {
        VacatedStays(db, db', now, SlotOf(r.job));
      }
    }
  }

  predicate NoGrant(was: JobStatus, st: JobStatus) {
    Active(st) || st == Succeeded ==> st == was
  }

  lemma CancelGrantsNothing(db: DB, actor: UserId, id: JobId, now: Instant, k: JobId)
    requires k in db.jobs
    ensures var db' := Settle(db, RequestCancellation(db, actor, id, now)); k in db'.jobs && NoGrant(db.jobs[k].status, db'.jobs[k].status)
  {
  }

  lemma RevokeGrantsNothing(db: DB, u: UserId, active: bool, now: Instant, k: JobId)
    requires k in db.jobs
    ensures var db' := Settle(db, SetAccount(db, u, active, now)); k in db'.jobs && NoGrant(db.jobs[k].status, db'.jobs[k].status)
  {
  }

  lemma ExpiryGrantsNothing(db: DB, now: Instant, k: JobId)
    requires k in db.jobs
    ensures k in Expire(db, now).jobs && NoGrant(db.jobs[k].status, Expire(db, now).jobs[k].status)
  {
  }

  lemma EnqueueLeavesRows(db: DB, actor: UserId, p: Params, now: Instant, k: JobId)
    requires Wf(db) && k in db.jobs
    ensures var db' := Settle(db, Enqueue(db, actor, p, now)); k in db'.jobs ==> db'.jobs[k] == db.jobs[k]
  {
  }

  lemma SweepLeavesRows(db: DB, op: Op, now: Instant, k: JobId)
    requires k in db.jobs && (op.PruneOp? || op.RetentionTriggerOp? || op.PurgeGuardsOp?)
    ensures var db' := Apply(db, op, now); k in db'.jobs ==> db'.jobs[k] == db.jobs[k]
  {
  }

  lemma DeletionLeavesRows(db: DB, op: Op, now: Instant, k: JobId)
    requires k in db.jobs && (op.DeleteMemberOp? || op.AddProfileOp? || op.DeleteProfileOp? || op.OtherTablesOp?)
    ensures var db' := Apply(db, op, now); k in db'.jobs ==> db'.jobs[k] == db.jobs[k]
  {
  }

  lemma EditGrantsNothing(db: DB, op: Op, now: Instant, id: JobId)
    requires Wf(db) && (op.EnqueueOp? || op.CancelOp? || op.SetAccountOp? || op.ExpireOp?) && id in db.jobs
    ensures id in Apply(db, op, now).jobs ==> NoGrant(db.jobs[id].status, Apply(db, op, now).jobs[id].status)
  {
    match op
    case EnqueueOp(actor, p) => EnqueueLeavesRows(db, actor, p, now, id);
    case CancelOp(actor, k) => CancelGrantsNothing(db, actor, k, now, id);
    case SetAccountOp(u, active) => RevokeGrantsNothing(db, u, active, now, id);
    case ExpireOp => ExpiryGrantsNothing(db, now, id);
  }

  /** No statement from outside moves a job to running, to awaiting approval or to success. */
  lemma OutsideGrantsNothing(db: DB, op: Op, now: Instant, id: JobId)
    requires Wf(db) && Outside(op) && id in db.jobs && id in Apply(db, op, now).jobs
    ensures NoGrant(db.jobs[id].status, Apply(db, op, now).jobs[id].status)
  {
    if op.EnqueueOp? || op.CancelOp? || op.SetAccountOp? || op.ExpireOp? {
      EditGrantsNothing(db, op, now, id);
    } else if op.PruneOp? || op.RetentionTriggerOp? || op.PurgeGuardsOp? {
      SweepLeavesRows(db, op, now, id);
    } else {
      DeletionLeavesRows(db, op, now, id);
    }
  }

  lemma TodayRises(a: Instant, b: Instant)
    requires a <= b
    ensures Today(a) <= Today(b)
  {
  }

  // ---------------------------------------------------------------- what a link's step can change

  lemma ControlApprovesNothing(l: L.Link, s: L.Step)
    requires L.Enabled(l, s) && !L.OfWorker(s) && !s.HandlesFrame? && s != L.HubReceives(Approve) && Approves(L.ControlDo(l, s))
    ensures Approves(l)
  {
  }

  lemma ApprovalsComeFromTheHub(l: L.Link, s: L.Step)
    requires L.Enabled(l, s) && !s.HandlesFrame? && s != L.HubReceives(Approve) && Approves(L.Do(l, s))
    ensures Approves(l)
  {
    if !L.OfWorker(s) {
      ControlApprovesNothing(l, s);
    }
  }

  lemma FrameFacts(l: L.Link, a: C.Answers)
    requires L.Enabled(l, L.HandlesFrame(a))
    ensures var l' := L.Handled(l, a); var call := C.React(l.coord, l.toGo[0], a).call;
            && (l.asked ==> l'.asked)
            && (l'.marked <==> l.marked || (call == C.MarkCall && a.hook))
            && l'.resumed == l.resumed && l'.emittedCompletion == l.emittedCompletion && l'.clicks == l.clicks && l'.pc == l.pc
            && (Approves(l') ==> Approves(l))
            && (call == C.BeginApprovalCall ==> l.toGo[0].ApprovalRequest? && Worker.Manually(l.coord.program) && l'.asked)
  {
  }

  // ---------------------------------------------------------------- steps

  lemma TickKeeps(db: DB, now: Instant, to: Instant, runs: map<JobId, Run>)
    requires RowsOk(db, now, runs) && to >= now
    ensures RowsOk(db, to, runs)
  {
    TodayRises(now, to);
    forall id | id in runs ensures Kept(db, to, id, runs[id]) && Standing(db, id, runs[id]) {
    }
  }

  lemma StatementKeeps(db: DB, now: Instant, runs: map<JobId, Run>, op: Op)
    requires Wf(db) && RowsOk(db, now, runs) && Outside(op) && Admissible(db, Apply(db, op, now), now)
    ensures Wf(Apply(db, op, now)) && RowsOk(Apply(db, op, now), now, runs)
  {
    var db' := Apply(db, op, now);
    ApplyKeeps(db, op, now);
    forall id | id in runs ensures Kept(db', now, id, runs[id]) && Standing(db', id, runs[id]) {
      KeptStays(db, db', now, id, runs[id]);
      if id in db.jobs && id in db'.jobs {
        OutsideGrantsNothing(db, op, now, id);
      }
    }
  }

  /** A statement that touches no row but `id`. */
  ghost predicate Touches(db: DB, db': DB, id: JobId) {
    db'.jobs.Keys == db.jobs.Keys && forall k :: k in db.jobs && k != id ==> db'.jobs[k] == db.jobs[k]
  }

  lemma OtherRunsKeep(db: DB, now: Instant, db': DB, id: JobId, k: JobId, r: Run)
    requires Wf(db) && Kept(db, now, k, r) && Standing(db, k, r)
    requires Wf(db') && Evolves(db, db', Today(now)) && Touches(db, db', id) && k != id
    ensures Kept(db', now, k, r) && Standing(db', k, r)
  {
    KeptStays(db, db', now, k, r);
  }

  /** One run and its own row move; the others stay as they are. */
  lemma OneRunKeepsRows(db: DB, now: Instant, runs: map<JobId, Run>, db': DB, id: JobId, r': Run)
    requires Wf(db) && RowsOk(db, now, runs)
    requires Wf(db') && Evolves(db, db', Today(now)) && Touches(db, db', id)
    requires Kept(db', now, id, r') && Standing(db', id, r')
    ensures RowsOk(db', now, runs[id := r'])
  {
    forall k | k in runs && k != id ensures Kept(db', now, k, runs[k]) && Standing(db', k, runs[k]) {
      OtherRunsKeep(db, now, db', id, k, runs[k]);
    }
  }

  lemma OneRunKeepsApart(db: DB, now: Instant, runs: map<JobId, Run>, id: JobId, r': Run)
    requires Wf(db) && RowsOk(db, now, runs[id := r']) && id in runs && Apart(runs) && r'.job == runs[id].job
    requires Confirming(r') ==> Confirming(runs[id]) || (id in db.jobs && db.jobs[id].marker.Some?)
    ensures Apart(runs[id := r'])
  {
    if Confirming(r') && !Confirming(runs[id]) {
      forall b | b in runs && b != id && Confirming(runs[b]) ensures SlotOf(r'.job) != SlotOf(runs[b].job) {
        assert runs[id := r'][b] == runs[b] && runs[id := r'][id] == r';
        MarkingIsAlone(db, now, id, r', b, runs[b]);
      }
    }
  }

  lemma TransitionTouches(db: DB, id: JobId, expected: seq<JobStatus>, to: JobStatus, u: Update, now: Instant)
    ensures Touches(db, Settle(db, Transition(db, id, expected, to, u, now)), id)
  {
  }

  predicate OwnOp(op: Op, id: JobId) {
    match op
    case BeginApprovalOp(k, _) => k == id
    case ResumeApprovedOp(k, _) => k == id
    case MarkOp(k) => k == id
    case FinishOp(k, _, _, _) => k == id
    case _ => false
  }

  lemma OwnOpTouches(db: DB, op: Op, now: Instant, id: JobId)
    requires OwnOp(op, id)
    ensures Touches(db, Apply(db, op, now), id)
  {
    match op
    case BeginApprovalOp(_, message) => TransitionTouches(db, id, [Running], AwaitingApproval, Update(message, None, false), now);
    case ResumeApprovedOp(_, message) => TransitionTouches(db, id, [AwaitingApproval], Running, Update(message, None, false), now);
    case MarkOp(_) =>
    case FinishOp(_, st, message, code) => TransitionTouches(db, id, FinishExpected(st), st, Update(message, code, false), now);
  }

  /** What a run's own statement does to its row. */
  lemma OwnOpStatus(db: DB, op: Op, now: Instant, id: JobId)
    requires OwnOp(op, id) && id in db.jobs
    ensures id in Apply(db, op, now).jobs
    ensures var st := Apply(db, op, now).jobs[id].status;
            match op
            case BeginApprovalOp(_, _) => (Commits(db, op, now) && st == AwaitingApproval) || st == db.jobs[id].status
            case ResumeApprovedOp(_, _) => if Commits(db, op, now) then st == Running else st == db.jobs[id].status
            case MarkOp(_) => st == db.jobs[id].status
            case FinishOp(_, to, _, _) => st == db.jobs[id].status || (Terminal(st) && (st == Succeeded ==> to == Succeeded))
            case _ => true
  {
  }

  lemma MarkWrites(db: DB, id: JobId, now: Instant)
    requires Commits(db, MarkOp(id), now)
    ensures id in db.jobs && Active(db.jobs[id].status) && !db.jobs[id].cancel && IsActive(db, db.jobs[id].user)
    ensures Apply(db, MarkOp(id), now).jobs[id].marker.Some?
  {
  }

  // ---------------------------------------------------------------- a run's own step

  lemma LinkStepKeeps(approved: set<JobId>, id: JobId, r: Run, step: L.Step)
    requires LinkOk(approved, id, r) && L.Enabled(r.link, step) && (step == L.HubReceives(Approve) ==> id in approved)
    ensures LinkOk(approved, id, r.(link := L.Do(r.link, step)))
  {
    L.StepKeepsInv(r.link, step);
    if step.HandlesFrame? {
      FrameFacts(r.link, step.answers);
    } else if Approves(L.Do(r.link, step)) && step != L.HubReceives(Approve) {
      ApprovalsComeFromTheHub(r.link, step);
    }
  }

  /** A run becomes marked only by its own committed marker write. */
  lemma NewlyMarked(id: JobId, l: L.Link, step: L.Step, message: Message)
    requires L.Enabled(l, step) && !l.marked && L.Do(l, step).marked
    ensures StoreCall(id, l, step, message) == Some(MarkOp(id)) && ToldOk(step)
  {
    if step.HandlesFrame? {
      FrameFacts(l, step.answers);
    }
  }

  lemma StepKeepsMarked(l: L.Link, step: L.Step)
    requires L.Enabled(l, step) && l.marked
    ensures L.Do(l, step).marked
  {
    if step.HandlesFrame? {
      FrameFacts(l, step.answers);
    }
  }

  ghost predicate CallOk(db: DB, now: Instant, id: JobId, l: L.Link, step: L.Step, message: Message)
    requires L.Enabled(l, step)
  {
    var call := StoreCall(id, l, step, message);
    call.Some? && ToldOk(step) ==> Commits(db, call.value, now)
  }

  lemma CallKeepsTables(db: DB, now: Instant, id: JobId, l: L.Link, step: L.Step, applied: bool, message: Message)
    requires Wf(db) && L.Enabled(l, step)
    ensures var db' := AfterCall(db, now, StoreCall(id, l, step, message), ToldOk(step), applied);
            Wf(db') && Evolves(db, db', Today(now)) && Touches(db, db', id)
  {
    var call := StoreCall(id, l, step, message);
    SelfEvolves(db, Today(now));
    if call.Some? {
      ApplyKeeps(db, call.value, now);
      OwnOpTouches(db, call.value, now, id);
    }
  }

  lemma KeptAfterStep(db: DB, now: Instant, id: JobId, r: Run, l': L.Link)
    requires Kept(db, now, id, r) && (l'.marked ==> r.link.marked || (id in db.jobs && db.jobs[id].marker.Some?))
    ensures Kept(db, now, id, r.(link := l'))
  {
  }

  lemma MarkIsInTheRow(db: DB, now: Instant, id: JobId, l: L.Link, step: L.Step, applied: bool, message: Message)
    requires L.Enabled(l, step) && CallOk(db, now, id, l, step, message) && !l.marked && L.Do(l, step).marked
    ensures var db' := AfterCall(db, now, StoreCall(id, l, step, message), ToldOk(step), applied); id in db'.jobs && db'.jobs[id].marker.Some?
  {
    NewlyMarked(id, l, step, message);
    MarkWrites(db, id, now);
  }

  lemma OwnKept(db: DB, now: Instant, id: JobId, r: Run, step: L.Step, applied: bool, message: Message)
    requires Wf(db) && Kept(db, now, id, r) && L.Enabled(r.link, step) && CallOk(db, now, id, r.link, step, message)
    ensures Kept(AfterCall(db, now, StoreCall(id, r.link, step, message), ToldOk(step), applied), now, id, r.(link := L.Do(r.link, step)))
  {
    var db' := AfterCall(db, now, StoreCall(id, r.link, step, message), ToldOk(step), applied);
    CallKeepsTables(db, now, id, r.link, step, applied, message);
    KeptStays(db, db', now, id, r);
    if !r.link.marked && L.Do(r.link, step).marked {
      MarkIsInTheRow(db, now, id, r.link, step, applied, message);
    }
    KeptAfterStep(db', now, id, r, L.Do(r.link, step));
  }

  /** The approval request being handled is the run's first. */
  lemma FirstApproval(l: L.Link, a: C.Answers)
    requires L.Inv(l) && L.Enabled(l, L.HandlesFrame(a)) && C.React(l.coord, l.toGo[0], a).call == C.BeginApprovalCall
    ensures !l.asked
  {
    FrameFacts(l, a);
    assert L.Legal(l.coord.program, L.ViewOf(l), l.toGo[0]);
  }

  /** How the row and the run may move together. */
  lemma StandingAfter(db: DB, db': DB, id: JobId, r: Run, l': L.Link)
    requires Standing(db, id, r) && id in db.jobs && id in db'.jobs && l'.coord.program == r.link.coord.program
    requires r.link.emittedCompletion ==> l'.emittedCompletion
    requires db'.jobs[id].status == Succeeded ==> db.jobs[id].status == Succeeded
    requires db'.jobs[id].status == AwaitingApproval ==>
               || (db.jobs[id].status == AwaitingApproval && (r.link.asked ==> l'.asked) && l'.resumed == r.link.resumed)
               || (Worker.Manually(l'.coord.program) && l'.asked && !l'.resumed)
    ensures Standing(db', id, r.(link := l'))
  {
  }

  lemma FrameStanding(db: DB, now: Instant, approved: set<JobId>, id: JobId, r: Run, a: C.Answers, applied: bool, message: Message)
    requires Standing(db, id, r) && LinkOk(approved, id, r) && L.Enabled(r.link, L.HandlesFrame(a)) && id in db.jobs
    ensures Standing(AfterCall(db, now, StoreCall(id, r.link, L.HandlesFrame(a), message), a.hook, applied), id, r.(link := L.Handled(r.link, a)))
  {
    var call := StoreCall(id, r.link, L.HandlesFrame(a), message);
    L.ReactKeepsProgram(r.link.coord, r.link.toGo[0], a);
    FrameFacts(r.link, a);
    if call.Some? {
      OwnOpStatus(db, call.value, now, id);
      if call.value.BeginApprovalOp? {
        FirstApproval(r.link, a);
      }
    }
    StandingAfter(db, AfterCall(db, now, call, a.hook, applied), id, r, L.Handled(r.link, a));
  }

  lemma ApprovalStanding(db: DB, now: Instant, id: JobId, r: Run, hook: bool, applied: bool, message: Message)
    requires Standing(db, id, r) && L.Enabled(r.link, L.HandlesApproval(hook)) && CallOk(db, now, id, r.link, L.HandlesApproval(hook), message) && id in db.jobs
    ensures Standing(AfterCall(db, now, StoreCall(id, r.link, L.HandlesApproval(hook), message), hook, applied), id, r.(link := L.Resolved(r.link, hook)))
  {
    var call := StoreCall(id, r.link, L.HandlesApproval(hook), message);
    if call.Some? {
      OwnOpStatus(db, call.value, now, id);
    }
    StandingAfter(db, AfterCall(db, now, call, hook, applied), id, r, L.Resolved(r.link, hook));
  }

  lemma QuietStanding(db: DB, id: JobId, r: Run, step: L.Step)
    requires Standing(db, id, r) && L.Enabled(r.link, step) && L.Books(r.link) && id in db.jobs && !step.HandlesFrame? && !step.HandlesApproval?
    ensures Standing(db, id, r.(link := L.Do(r.link, step)))
  {
    L.StepKeepsProgram(r.link, step);
    StandingAfter(db, db, id, r, L.Do(r.link, step));
  }

  lemma OwnStanding(db: DB, now: Instant, approved: set<JobId>, id: JobId, r: Run, step: L.Step, applied: bool, message: Message)
    requires Standing(db, id, r) && LinkOk(approved, id, r) && L.Enabled(r.link, step) && CallOk(db, now, id, r.link, step, message)
    requires Touches(db, AfterCall(db, now, StoreCall(id, r.link, step, message), ToldOk(step), applied), id)
    ensures Standing(AfterCall(db, now, StoreCall(id, r.link, step, message), ToldOk(step), applied), id, r.(link := L.Do(r.link, step)))
  {
    if id in db.jobs {
      if step.HandlesFrame? {
        FrameStanding(db, now, approved, id, r, step.answers, applied, message);
      } else if step.HandlesApproval? {
        ApprovalStanding(db, now, id, r, step.hook, applied, message);
      } else {
        QuietStanding(db, id, r, step);
      }
    }
  }

  /** A row that is being marked is the only claim on its slot. */
  lemma MarkingIsAlone(db: DB, now: Instant, a: JobId, ra: Run, b: JobId, rb: Run)
    requires Wf(db) && a != b && Kept(db, now, a, ra) && Kept(db, now, b, rb) && Confirming(ra) && Confirming(rb)
    requires a in db.jobs && db.jobs[a].marker.Some?
    ensures SlotOf(ra.job) != SlotOf(rb.job)
  {
    assert Holds(db.jobs[a]);
    if b in db.jobs {
      assert Holds(db.jobs[b]);
    }
  }

  lemma RunStepKeeps(db: DB, now: Instant, approved: set<JobId>, runs: map<JobId, Run>, id: JobId, step: L.Step, applied: bool, message: Message)
    requires Wf(db) && RowsOk(db, now, runs) && Apart(runs) && id in runs && LinkOk(approved, id, runs[id])
    requires L.Enabled(runs[id].link, step) && CallOk(db, now, id, runs[id].link, step, message)
    ensures var db' := AfterCall(db, now, StoreCall(id, runs[id].link, step, message), ToldOk(step), applied);
            var runs' := runs[id := runs[id].(link := L.Do(runs[id].link, step))];
            Wf(db') && RowsOk(db', now, runs') && Apart(runs')
  {
    var r := runs[id];
    var r' := r.(link := L.Do(r.link, step));
    var db' := AfterCall(db, now, StoreCall(id, r.link, step, message), ToldOk(step), applied);
    CallKeepsTables(db, now, id, r.link, step, applied, message);
    OwnKept(db, now, id, r, step, applied, message);
    OwnStanding(db, now, approved, id, r, step, applied, message);
    OneRunKeepsRows(db, now, runs, db', id, r');
    if !r.link.marked && r'.link.marked {
      NewlyMarked(id, r.link, step, message);
      MarkWrites(db, id, now);
    }
    OneRunKeepsApart(db', now, runs, id, r');
  }

  lemma OneLinkKeeps(approved: set<JobId>, runs: map<JobId, Run>, id: JobId, step: L.Step)
    requires LinksOk(approved, runs) && id in runs && L.Enabled(runs[id].link, step) && (step == L.HubReceives(Approve) ==> id in approved)
    ensures LinksOk(approved, runs[id := runs[id].(link := L.Do(runs[id].link, step))])
  {
    LinkStepKeeps(approved, id, runs[id], step);
  }

  // ---------------------------------------------------------------- claims, decisions, final writes, crashes

  lemma ClaimedWasQueued(db: DB, owner: string, now: Instant)
    requires owner != "" && Leased(db, owner, now).Some?
    ensures var id := Leased(db, owner, now).value;
            && id in db.jobs && db.jobs[id].status == Queued
            && id in Apply(db, ClaimOp(owner), now).jobs && Apply(db, ClaimOp(owner), now).jobs[id].status == Running
  {
  }

  lemma ClaimLeavesRunning(db: DB, owner: string, now: Instant, id: JobId)
    requires owner != "" && id in db.jobs && db.jobs[id].status != Queued
    ensures id in Apply(db, ClaimOp(owner), now).jobs && Apply(db, ClaimOp(owner), now).jobs[id] == db.jobs[id]
  {
  }

  lemma ClaimAddsNothing(db: DB, owner: string, now: Instant)
    requires owner != ""
    ensures Apply(db, ClaimOp(owner), now).jobs.Keys == db.jobs.Keys
  {
  }

  lemma ClaimKeepsRows(db: DB, now: Instant, runs: map<JobId, Run>, owner: string)
    requires Wf(db) && RowsOk(db, now, runs) && owner != ""
    ensures Wf(Apply(db, ClaimOp(owner), now)) && RowsOk(Apply(db, ClaimOp(owner), now), now, runs)
  {
    var db' := Apply(db, ClaimOp(owner), now);
    ApplyKeeps(db, ClaimOp(owner), now);
    ClaimAddsNothing(db, owner, now);
    forall k | k in runs ensures Kept(db', now, k, runs[k]) && Standing(db', k, runs[k]) {
      KeptStays(db, db', now, k, runs[k]);
      if k in db.jobs {
        ClaimLeavesRunning(db, owner, now, k);
      }
    }
  }

  lemma NewRunIsKept(db: DB, now: Instant, id: JobId)
    requires Wf(db) && id in db.jobs && db.jobs[id].status == Running
    ensures Kept(db, now, id, NewRun(db.jobs[id])) && Standing(db, id, NewRun(db.jobs[id])) && !Confirming(NewRun(db.jobs[id]))
  {
  }

  lemma NewRunIsLinked(approved: set<JobId>, id: JobId, job: Job)
    ensures LinkOk(approved, id, NewRun(job))
  {
    L.NewLinkHolds(Worker.Program(job.command, job.mode));
  }

  /** A claimed job has not run before. */
  lemma ClaimIsNew(db: DB, now: Instant, runs: map<JobId, Run>, owner: string)
    requires RowsOk(db, now, runs) && owner != "" && Leased(db, owner, now).Some?
    ensures Leased(db, owner, now).value !in runs
  {
    ClaimedWasQueued(db, owner, now);
  }

  lemma AddRun(db: DB, now: Instant, runs: map<JobId, Run>, id: JobId, r: Run)
    requires RowsOk(db, now, runs) && Apart(runs) && Kept(db, now, id, r) && Standing(db, id, r) && !Confirming(r)
    ensures RowsOk(db, now, runs[id := r]) && Apart(runs[id := r])
  {
  }

  lemma AddLink(approved: set<JobId>, runs: map<JobId, Run>, id: JobId, r: Run)
    requires LinksOk(approved, runs) && LinkOk(approved, id, r)
    ensures LinksOk(approved, runs[id := r])
  {
  }

  lemma ClaimKeepsInv(db: DB, now: Instant, approved: set<JobId>, runs: map<JobId, Run>, owner: string)
    requires Wf(db) && RowsOk(db, now, runs) && Apart(runs) && LinksOk(approved, runs)
    requires owner != "" && Leased(db, owner, now).Some?
    ensures var db' := Apply(db, ClaimOp(owner), now); var id := Leased(db, owner, now).value;
            && id in db'.jobs
            && var runs' := runs[id := NewRun(db'.jobs[id])];
               RowsOk(db', now, runs') && Apart(runs') && LinksOk(approved, runs')
  {
    ClaimKeepsRows(db, now, runs, owner);
    ClaimedWasQueued(db, owner, now);
    var id, db' := Leased(db, owner, now).value, Apply(db, ClaimOp(owner), now);
    NewRunIsKept(db', now, id);
    NewRunIsLinked(approved, id, db'.jobs[id]);
    AddRun(db', now, runs, id, NewRun(db'.jobs[id]));
    AddLink(approved, runs, id, NewRun(db'.jobs[id]));
  }

  lemma DecideKeepsRows(db: DB, now: Instant, runs: map<JobId, Run>, db': DB)
    requires RowsOk(db, now, runs) && db' == db.(decisions := db'.decisions)
    ensures RowsOk(db', now, runs)
  {
    forall k | k in runs ensures Kept(db', now, k, runs[k]) && Standing(db', k, runs[k]) {
    }
  }

  lemma MoreApprovals(approved: set<JobId>, more: set<JobId>, runs: map<JobId, Run>)
    requires LinksOk(approved, runs) && approved <= more
    ensures LinksOk(more, runs)
  {
  }

  lemma SuccessWasReported(l: L.Link, sight: E.Sight)
    requires L.Reports(l) && l.phase.Ended? && E.Conclude(l.phase.outcome, sight).status == Succeeded && l.coord.program.command == Book
    ensures l.emittedCompletion
  {
  }

  lemma FinishKeepsRows(db: DB, now: Instant, approved: set<JobId>, runs: map<JobId, Run>, id: JobId, op: Op)
    requires Wf(db) && RowsOk(db, now, runs) && id in runs && op.FinishOp? && op.id == id
    requires op.status == Succeeded && runs[id].job.command == Book ==> runs[id].link.emittedCompletion
    ensures Wf(Apply(db, op, now)) && RowsOk(Apply(db, op, now), now, runs)
  {
    var db' := Apply(db, op, now);
    ApplyKeeps(db, op, now);
    OwnOpTouches(db, op, now, id);
    KeptStays(db, db', now, id, runs[id]);
    if id in db.jobs {
      OwnOpStatus(db, op, now, id);
    }
    OneRunKeepsRows(db, now, runs, db', id, runs[id]);
    assert runs[id := runs[id]] == runs;
  }

  lemma RecoverGrantsNothing(db: DB, now: Instant, id: JobId)
    requires id in db.jobs
    ensures var st := Recover(db, now).jobs[id].status; !Active(st) && (st == Succeeded ==> db.jobs[id].status == Succeeded)
  {
  }

  lemma RecoveredStanding(db: DB, db': DB, now: Instant, k: JobId, r: Run)
    requires Standing(db, k, r) && db'.jobs.Keys == db.jobs.Keys
    requires k in db.jobs ==> !Active(db'.jobs[k].status) && (db'.jobs[k].status == Succeeded ==> db.jobs[k].status == Succeeded)
    ensures Standing(db', k, r)
  {
  }

  lemma RestartKeepsRows(db: DB, now: Instant, runs: map<JobId, Run>)
    requires Wf(db) && RowsOk(db, now, runs)
    ensures Wf(Recover(db, now)) && RowsOk(Recover(db, now), now, runs)
  {
    var db' := Recover(db, now);
    RecoverKeeps(db, now, Today(now));
    assert db'.jobs.Keys == db.jobs.Keys;
    forall k | k in runs ensures Kept(db', now, k, runs[k]) && Standing(db', k, runs[k]) {
      KeptStays(db, db', now, k, runs[k]);
      if k in db.jobs {
        RecoverGrantsNothing(db, now, k);
      }
      RecoveredStanding(db, db', now, k, runs[k]);
    }
  }

  lemma CrashKeepsLinks(approved: set<JobId>, runs: map<JobId, Run>)
    requires LinksOk(approved, runs)
    ensures LinksOk(approved, Crashed(runs))
  {
    forall id | id in runs ensures LinkOk(approved, id, Crashed(runs)[id]) {
      LinkStepKeeps(approved, id, runs[id], L.Crash);
    }
  }

  lemma CrashKeepsRows(db: DB, now: Instant, runs: map<JobId, Run>)
    requires RowsOk(db, now, runs) && Apart(runs)
    ensures RowsOk(db, now, Crashed(runs)) && Apart(Crashed(runs))
  {
    forall id | id in runs ensures Kept(db, now, id, Crashed(runs)[id]) && Standing(db, id, Crashed(runs)[id]) {
    }
  }

  // ---------------------------------------------------------------- every step

  lemma FinishKeepsInv(s: Sys, id: JobId, sight: E.Sight)
    requires Core(s) && id in s.runs && s.runs[id].link.phase.Ended?
    ensures var c := E.Conclude(s.runs[id].link.phase.outcome, sight);
            var db' := Apply(s.db, FinishOp(id, c.status, c.message, c.exitCode), s.now);
            Wf(db') && RowsOk(db', s.now, s.runs)
  {
    var c := E.Conclude(s.runs[id].link.phase.outcome, sight);
    if c.status == Succeeded && s.runs[id].job.command == Book {
      assert LinkOk(s.approved, id, s.runs[id]);
      SuccessWasReported(s.runs[id].link, sight);
    }
    FinishKeepsRows(s.db, s.now, s.approved, s.runs, id, FinishOp(id, c.status, c.message, c.exitCode));
  }

  lemma DeliverKeepsInv(s: Sys, id: JobId, d: Decision)
    requires Core(s) && (id, d) in s.deliveries && id in s.runs && L.Enabled(s.runs[id].link, L.HubReceives(d))
    ensures var runs' := s.runs[id := s.runs[id].(link := L.Do(s.runs[id].link, L.HubReceives(d)))];
            RowsOk(s.db, s.now, runs') && LinksOk(s.approved, runs') && Apart(runs')
  {
    OneLinkKeeps(s.approved, s.runs, id, L.HubReceives(d));
    assert LinkOk(s.approved, id, s.runs[id]);
    assert StoreCall(id, s.runs[id].link, L.HubReceives(d), NoMessage) == None;
    RunStepKeeps(s.db, s.now, s.approved, s.runs, id, L.HubReceives(d), false, NoMessage);
  }

  lemma ClaimStepKeeps(s: Sys, owner: string)
    requires Core(s) && Enabled(s, ClaimNext(owner))
    ensures Core(Do(s, ClaimNext(owner)))
  {
    ClaimKeepsRows(s.db, s.now, s.runs, owner);
    if Leased(s.db, owner, s.now).Some? {
      ClaimKeepsInv(s.db, s.now, s.approved, s.runs, owner);
    }
  }

  lemma RecordingKeeps(db: DB, u: UserId, id: JobId, d: Decision, now: Instant)
    requires Wf(db)
    ensures var db' := RecordDecision(db, u, id, d).db; Wf(db') && db' == db.(decisions := db'.decisions)
  {
    OtherTablesKeep(db, RecordDecision(db, u, id, d).db, Today(now));
  }

  lemma DecisionsKeepInv(s: Sys, db': DB, approved': set<JobId>, deliveries': set<(JobId, Decision)>)
    requires Core(s) && Wf(db') && db' == s.db.(decisions := db'.decisions) && s.approved <= approved'
    requires forall id :: (id, Approve) in deliveries' ==> id in approved'
    ensures Core(s.(db := db', approved := approved', deliveries := deliveries'))
  {
    DecideKeepsRows(s.db, s.now, s.runs, db');
    MoreApprovals(s.approved, approved', s.runs);
  }

  lemma DecideStepKeeps(s: Sys, u: UserId, id: JobId, d: Decision)
    requires Core(s)
    ensures Core(Do(s, Decide(u, id, d)))
  {
    RecordingKeeps(s.db, u, id, d, s.now);
    var db' := RecordDecision(s.db, u, id, d).db;
    DecisionsKeepInv(s, db', s.approved, s.deliveries);
    if RecordDecision(s.db, u, id, d).answer.Ok? {
      var approved' := if d == Approve then s.approved + {id} else s.approved;
      DecisionsKeepInv(s, db', approved', s.deliveries + {(id, d)});
    }
  }

  lemma StepKeepsCore(s: Sys, step: Step)
    requires Core(s) && Enabled(s, step)
    ensures Core(Do(s, step))
  {
    match step
    case Tick(to) => TickKeeps(s.db, s.now, to, s.runs);
    case Statement(op) => StatementKeeps(s.db, s.now, s.runs, op);
    case ClaimNext(owner) => ClaimStepKeeps(s, owner);
    case RunStep(id, l, applied, message) =>
      assert LinkOk(s.approved, id, s.runs[id]);
      RunStepKeeps(s.db, s.now, s.approved, s.runs, id, l, applied, message);
      OneLinkKeeps(s.approved, s.runs, id, l);
    case Decide(u, id, d) => DecideStepKeeps(s, u, id, d);
    case Deliver(id, d) =>
      if id in s.runs && L.Enabled(s.runs[id].link, L.HubReceives(d)) { DeliverKeepsInv(s, id, d); }
    case FinishJob(id, sight, written) => FinishKeepsInv(s, id, sight);
    case CrashAll =>
      CrashKeepsRows(s.db, s.now, s.runs);
      CrashKeepsLinks(s.approved, s.runs);
    case Restart => RestartKeepsRows(s.db, s.now, s.runs);
  }

  lemma StatementKeepsOwned(db: DB, now: Instant, runs: map<JobId, Run>, op: Op)
    requires Wf(db) && Owned(db, runs) && Outside(op)
    ensures Owned(Apply(db, op, now), runs)
  {
    var db' := Apply(db, op, now);
    ApplyKeeps(db, op, now);
    forall id | id in db'.jobs && (Active(db'.jobs[id].status) || db'.jobs[id].status == Succeeded) ensures id in runs {
      if id in db.jobs {
        OutsideGrantsNothing(db, op, now, id);
      }
    }
  }

  lemma ClaimLeasesOne(db: DB, owner: string, now: Instant, id: JobId)
    requires owner != "" && id in db.jobs && Leased(db, owner, now) != Some(id)
    ensures id in Apply(db, ClaimOp(owner), now).jobs && Apply(db, ClaimOp(owner), now).jobs[id] == ExpireRow(db.jobs[id], now)
  {
  }

  lemma ClaimKeepsOwned(db: DB, now: Instant, runs: map<JobId, Run>, runs': map<JobId, Run>, owner: string)
    requires Owned(db, runs) && owner != "" && runs.Keys <= runs'.Keys
    requires Leased(db, owner, now).Some? ==> Leased(db, owner, now).value in runs'
    ensures Owned(Apply(db, ClaimOp(owner), now), runs')
  {
    var db' := Apply(db, ClaimOp(owner), now);
    ClaimAddsNothing(db, owner, now);
    forall id | id in db'.jobs && (Active(db'.jobs[id].status) || db'.jobs[id].status == Succeeded) ensures id in runs' {
      assert id in db.jobs by { assert id in db'.jobs.Keys; }
      if Leased(db, owner, now) != Some(id) {
        ClaimLeasesOne(db, owner, now, id);
        assert id in runs.Keys;
      }
    }
  }

  lemma TouchKeepsOwned(db: DB, db': DB, runs: map<JobId, Run>, runs': map<JobId, Run>, id: JobId)
    requires Owned(db, runs) && Touches(db, db', id) && id in runs && runs'.Keys == runs.Keys
    ensures Owned(db', runs')
  {
    forall k | k in db'.jobs && (Active(db'.jobs[k].status) || db'.jobs[k].status == Succeeded) ensures k in runs' {
      assert k in db.jobs by { assert k in db'.jobs.Keys; }
      assert k in runs.Keys;
    }
  }

  lemma RestartKeepsOwned(db: DB, now: Instant, runs: map<JobId, Run>)
    requires Owned(db, runs)
    ensures Owned(Apply(db, RecoverOp, now), runs)
  {
    forall id | id in Recover(db, now).jobs && (Active(Recover(db, now).jobs[id].status) || Recover(db, now).jobs[id].status == Succeeded)
      ensures id in runs
    {
      RecoverGrantsNothing(db, now, id);
    }
  }

  lemma SameJobsOwned(db: DB, db': DB, runs: map<JobId, Run>, runs': map<JobId, Run>)
    requires Owned(db, runs) && db'.jobs == db.jobs && runs'.Keys == runs.Keys
    ensures Owned(db', runs')
  {
    forall id | id in db.jobs && (Active(db.jobs[id].status) || db.jobs[id].status == Succeeded) ensures id in runs' {
      assert id in runs.Keys;
    }
  }

  lemma RunStepKeepsOwned(s: Sys, id: JobId, l: L.Step, applied: bool, message: Message)
    requires Wf(s.db) && Owned(s.db, s.runs) && Enabled(s, RunStep(id, l, applied, message))
    ensures Owned(Do(s, RunStep(id, l, applied, message)).db, Do(s, RunStep(id, l, applied, message)).runs)
  {
    var s' := Do(s, RunStep(id, l, applied, message));
    CallKeepsTables(s.db, s.now, id, s.runs[id].link, l, applied, message);
    TouchKeepsOwned(s.db, s'.db, s.runs, s'.runs, id);
  }

  lemma StepKeepsOwned(s: Sys, step: Step)
    requires Wf(s.db) && Owned(s.db, s.runs) && Enabled(s, step)
    ensures Owned(Do(s, step).db, Do(s, step).runs)
  {
    var s' := Do(s, step);
    match step
    case Statement(op) => StatementKeepsOwned(s.db, s.now, s.runs, op);
    case ClaimNext(owner) => ClaimKeepsOwned(s.db, s.now, s.runs, s'.runs, owner);
    case RunStep(id, l, applied, message) => RunStepKeepsOwned(s, id, l, applied, message);
    case FinishJob(id, sight, written) =>
      if written {
        var c := E.Conclude(s.runs[id].link.phase.outcome, sight);
        OwnOpTouches(s.db, FinishOp(id, c.status, c.message, c.exitCode), s.now, id);
        TouchKeepsOwned(s.db, s'.db, s.runs, s.runs, id);
      }
    case Restart => RestartKeepsOwned(s.db, s.now, s.runs);
    case _ => SameJobsOwned(s.db, s'.db, s.runs, s'.runs);
  }

  ghost predicate Inv(s: Sys) { Core(s) && Owned(s.db, s.runs) }

  lemma StepKeepsInv(s: Sys, step: Step)
    requires Inv(s) && Enabled(s, step)
    ensures Inv(Do(s, step))
  {
    StepKeepsCore(s, step);
    StepKeepsOwned(s, step);
  }
}
