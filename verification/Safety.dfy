/** What every run of the whole system satisfies, from an empty database, under any schedule of steps and crashes. */
module Safety {
  import opened Types
  import opened JobTable
  import opened JobInvariants
  import opened JobRuns
  import Worker
  import L = Link
  import E = Engine
  import opened System

  function Boot(users: map<UserId, User>, now: Instant): Sys {
    Sys(EmptyDB(users), now, true, map[], {}, {})
  }

  ghost predicate Execution(states: seq<Sys>, steps: seq<Step>) {
    && |states| == |steps| + 1
    && (exists users, now :: states[0] == Boot(users, now))
    && forall i {:trigger At(i)} :: 0 <= i < |steps| && At(i) ==> Enabled(states[i], steps[i]) && states[i + 1] == Do(states[i], steps[i])
  }

  /** Names a moment, so that a proof looks into the steps it means and no others. */
  predicate At(i: nat) { true }

  lemma StepHolds(states: seq<Sys>, steps: seq<Step>, i: nat)
    requires Execution(states, steps) && i < |steps|
    ensures Enabled(states[i], steps[i]) && states[i + 1] == Do(states[i], steps[i])
  {
    assert At(i);
  }

  lemma {:induction false} ReachableInv(states: seq<Sys>, steps: seq<Step>, k: nat)
    requires Execution(states, steps) && k < |states|
    ensures Inv(states[k])
    decreases k
  {
    if k > 0 {
      ReachableInv(states, steps, k - 1);
      var step := steps[k - 1];
      StepHolds(states, steps, k - 1);
      StepKeepsInv(states[k - 1], step);
    }
  }

  // ---------------------------------------------------------------- what a step leaves of a run

  predicate IsClick(step: Step, id: JobId) {
    step.RunStep? && step.id == id && step.step == L.WorkerClicks
  }

  /** The clicks of a run count its click steps, and its job never changes. */
  predicate Continues(r: Run, r': Run) {
    r'.job == r.job && (r.link.marked ==> r'.link.marked) && r.link.clicks <= r'.link.clicks
  }

  lemma LinkContinues(r: Run, s: L.Step)
    requires L.Enabled(r.link, s)
    ensures Continues(r, r.(link := L.Do(r.link, s)))
  {
    if s.HandlesFrame? {
      FrameFacts(r.link, s.answers);
    }
    if r.link.marked {
      StepKeepsMarked(r.link, s);
    }
  }

  predicate Moved(r: Run, r': Run, l: L.Step) {
    L.Enabled(r.link, l) && r' == r.(link := L.Do(r.link, l))
  }

  /** How a run can come out of a step: untouched, moved by its own step, answered by the hub, crashed, or newly claimed. */
  ghost predicate RunMoved(s: Sys, step: Step, r': Run, id: JobId) {
    if id in s.runs then
      || r' == s.runs[id]
      || (step.RunStep? && step.id == id && Moved(s.runs[id], r', step.step))
      || (step.Deliver? && step.id == id && Moved(s.runs[id], r', L.HubReceives(step.decision)))
      || (step == CrashAll && Moved(s.runs[id], r', L.Crash))
    else step.ClaimNext? && r' == NewRun(r'.job)
  }

  lemma OwnStepMoves(s: Sys, step: Step, id: JobId)
    requires Enabled(s, step) && step.RunStep?
    ensures id in Do(s, step).runs <==> id in s.runs
    ensures id in s.runs ==> RunMoved(s, step, Do(s, step).runs[id], id)
  {
    assert Do(s, step).runs == s.runs[step.id := s.runs[step.id].(link := L.Do(s.runs[step.id].link, step.step))];
  }

  lemma HubMoves(s: Sys, step: Step, id: JobId)
    requires Enabled(s, step) && step.Deliver?
    ensures id in Do(s, step).runs <==> id in s.runs
    ensures id in s.runs ==> RunMoved(s, step, Do(s, step).runs[id], id)
  {
  }

  lemma ClaimMoves(s: Sys, step: Step, id: JobId)
    requires RowsOk(s.db, s.now, s.runs) && Enabled(s, step) && step.ClaimNext?
    ensures id in s.runs ==> id in Do(s, step).runs
    ensures id in Do(s, step).runs ==> RunMoved(s, step, Do(s, step).runs[id], id)
  {
    if Leased(s.db, step.owner, s.now).Some? {
      ClaimIsNew(s.db, s.now, s.runs, step.owner);
    }
  }

  lemma CrashMovesRun(runs: map<JobId, Run>, id: JobId)
    ensures id in Crashed(runs) <==> id in runs
    ensures id in runs ==> Moved(runs[id], Crashed(runs)[id], L.Crash)
  {
  }

  lemma CrashMoves(s: Sys, step: Step)
    requires Enabled(s, step) && step == CrashAll
    ensures Do(s, step).runs == Crashed(s.runs)
  {
  }

  lemma OtherStepsMoveNone(s: Sys, step: Step)
    requires Enabled(s, step) && !step.RunStep? && !step.Deliver? && !step.ClaimNext? && step != CrashAll
    ensures Do(s, step).runs == s.runs
  {
  }

  lemma StepMovesRuns(s: Sys, step: Step, id: JobId)
    requires RowsOk(s.db, s.now, s.runs) && Enabled(s, step)
    ensures id in s.runs ==> id in Do(s, step).runs
    ensures id in Do(s, step).runs ==> RunMoved(s, step, Do(s, step).runs[id], id)
  {
    if step.RunStep? {
      OwnStepMoves(s, step, id);
    } else if step.Deliver? {
      HubMoves(s, step, id);
    } else if step.ClaimNext? {
      ClaimMoves(s, step, id);
    } else if step == CrashAll {
      CrashMoves(s, step);
      CrashMovesRun(s.runs, id);
    } else {
      OtherStepsMoveNone(s, step);
    }
  }

  lemma TraceMovesRuns(states: seq<Sys>, steps: seq<Step>, k: nat, id: JobId)
    requires Execution(states, steps) && k < |steps|
    ensures id in states[k].runs ==> id in states[k + 1].runs
    ensures id in states[k + 1].runs ==> RunMoved(states[k], steps[k], states[k + 1].runs[id], id)
  {
    ReachableRows(states, steps, k);
    StepHolds(states, steps, k);
    StepMovesRuns(states[k], steps[k], id);
  }

  lemma MovedContinues(s: Sys, step: Step, r': Run, id: JobId)
    requires id in s.runs && RunMoved(s, step, r', id)
    ensures Continues(s.runs[id], r')
  {
    if r' != s.runs[id] {
      LinkContinues(s.runs[id], if step.RunStep? then step.step else if step.Deliver? then L.HubReceives(step.decision) else L.Crash);
    }
  }

  lemma {:induction false} RunLives(states: seq<Sys>, steps: seq<Step>, i: nat, j: nat, id: JobId)
    requires Execution(states, steps) && i <= j < |states| && id in states[i].runs
    ensures id in states[j].runs && Continues(states[i].runs[id], states[j].runs[id])
    decreases j - i
  {
    if i < j {
      RunLives(states, steps, i, j - 1, id);
      TraceMovesRuns(states, steps, j - 1, id);
      MovedContinues(states[j - 1], steps[j - 1], states[j].runs[id], id);
    }
  }

  // ---------------------------------------------------------------- never book twice

  lemma ClickCounts(s: Sys, step: Step, id: JobId)
    requires Enabled(s, step) && IsClick(step, id)
    ensures id in s.runs && id in Do(s, step).runs
    ensures Do(s, step).runs[id].link.clicks == s.runs[id].link.clicks + 1 && Do(s, step).runs[id].job == s.runs[id].job
  {
  }

  lemma TraceClicks(states: seq<Sys>, steps: seq<Step>, i: nat, id: JobId)
    requires Execution(states, steps) && i < |steps| && IsClick(steps[i], id)
    ensures id in states[i].runs && id in states[i + 1].runs
    ensures states[i + 1].runs[id].link.clicks == states[i].runs[id].link.clicks + 1 && states[i + 1].runs[id].job == states[i].runs[id].job
  {
    StepHolds(states, steps, i);
    ClickCounts(states[i], steps[i], id);
  }

  lemma ClickStays(states: seq<Sys>, steps: seq<Step>, i: nat, k: nat, id: JobId)
    requires Execution(states, steps) && i < k < |states| && IsClick(steps[i], id)
    ensures id in states[i].runs && id in states[k].runs && states[k].runs[id].link.clicks > 0 && states[k].runs[id].job == states[i].runs[id].job
  {
    TraceClicks(states, steps, i, id);
    RunLives(states, steps, i + 1, k, id);
  }

  lemma TraceSeparates(states: seq<Sys>, steps: seq<Step>, k: nat, a: JobId, b: JobId)
    requires Execution(states, steps) && k < |states| && a in states[k].runs && b in states[k].runs
    requires states[k].runs[a].link.clicks > 0 && states[k].runs[b].link.clicks > 0
    ensures a != b ==> SlotOf(states[k].runs[a].job) != SlotOf(states[k].runs[b].job)
    ensures states[k].runs[a].link.clicks <= 1
  {
    ReachableInv(states, steps, k);
    ClickedRuns(states[k], a, b);
  }

  /** No browser identity is ever clicked through to a second confirmation for the same day, by any job, across crashes and restarts. */
  lemma NeverBookTwice(states: seq<Sys>, steps: seq<Step>, i: nat, j: nat, a: JobId, b: JobId)
    requires Execution(states, steps) && i < j < |steps| && IsClick(steps[i], a) && IsClick(steps[j], b)
    ensures a != b && a in states[i].runs && b in states[j].runs
    ensures SlotOf(states[i].runs[a].job) != SlotOf(states[j].runs[b].job)
  {
    ClickStays(states, steps, i, j, a);
    ClickStays(states, steps, i, j + 1, a);
    TraceClicks(states, steps, j, b);
    TraceSeparates(states, steps, j + 1, a, b);
  }

  lemma ClickedRuns(s: Sys, a: JobId, b: JobId)
    requires Inv(s) && a in s.runs && b in s.runs && s.runs[a].link.clicks > 0 && s.runs[b].link.clicks > 0
    ensures a != b ==> SlotOf(s.runs[a].job) != SlotOf(s.runs[b].job)
    ensures s.runs[a].link.clicks <= 1
  {
    assert LinkOk(s.approved, a, s.runs[a]) && LinkOk(s.approved, b, s.runs[b]);
  }

  // ---------------------------------------------------------------- every click is authorized

  /** The step commits the job's marker, on a leased and uncancelled row of an active account. */
  ghost predicate WritesMarker(s: Sys, step: Step, s': Sys, id: JobId) {
    && step.RunStep? && step.id == id && id in s.runs && L.Enabled(s.runs[id].link, step.step)
    && StoreCall(id, s.runs[id].link, step.step, step.message) == Some(MarkOp(id))
    && id in s.db.jobs && Active(s.db.jobs[id].status) && !s.db.jobs[id].cancel && IsActive(s.db, s.db.jobs[id].user)
    && id in s'.db.jobs && s'.db.jobs[id].marker.Some?
  }

  lemma MarkedByItsOwnStep(s: Sys, step: Step, r': Run, id: JobId)
    requires RunMoved(s, step, r', id) && r'.link.marked && (id in s.runs ==> !s.runs[id].link.marked)
    ensures step.RunStep? && step.id == id && id in s.runs && L.Enabled(s.runs[id].link, step.step)
    ensures StoreCall(id, s.runs[id].link, step.step, step.message) == Some(MarkOp(id)) && ToldOk(step.step)
  {
    if step.RunStep? {
      NewlyMarked(id, s.runs[id].link, step.step, step.message);
    }
  }

  lemma MarkCallWrites(s: Sys, step: Step, id: JobId)
    requires Enabled(s, step) && step.RunStep? && step.id == id && ToldOk(step.step)
    requires StoreCall(id, s.runs[id].link, step.step, step.message) == Some(MarkOp(id))
    ensures WritesMarker(s, step, Do(s, step), id)
  {
    MarkWrites(s.db, id, s.now);
  }

  lemma ClickNeedsMarker(l: L.Link)
    requires L.Inv(l) && l.pc.ReadyToClick?
    ensures l.marked && (l.coord.program.mode == Manual ==> l.resumed)
  {
  }

  lemma ReadyRunIsMarked(s: Sys, id: JobId)
    requires Inv(s) && id in s.runs && s.runs[id].link.pc.ReadyToClick?
    ensures s.runs[id].link.marked && (s.runs[id].job.mode == Manual || s.runs[id].job.immediate ==> s.runs[id].link.resumed)
  {
    assert LinkOk(s.approved, id, s.runs[id]) && Kept(s.db, s.now, id, s.runs[id]);
    ClickNeedsMarker(s.runs[id].link);
  }

  lemma InvRows(s: Sys)
    requires Inv(s)
    ensures Wf(s.db) && RowsOk(s.db, s.now, s.runs)
  {
  }

  lemma {:induction false} MarkerWasWritten(states: seq<Sys>, steps: seq<Step>, k: nat, id: JobId) returns (i: nat)
    requires Execution(states, steps) && k < |states| && id in states[k].runs && states[k].runs[id].link.marked
    ensures i < k && WritesMarker(states[i], steps[i], states[i + 1], id)
    decreases k
  {
    if k == 0 {
      assert false;
    } else if id in states[k - 1].runs && states[k - 1].runs[id].link.marked {
      i := MarkerWasWritten(states, steps, k - 1, id);
    } else {
      i := k - 1;
      TraceMarks(states, steps, i, id);
    }
  }

  lemma TraceMarks(states: seq<Sys>, steps: seq<Step>, i: nat, id: JobId)
    requires Execution(states, steps) && i < |steps| && id in states[i + 1].runs && states[i + 1].runs[id].link.marked
    requires id in states[i].runs ==> !states[i].runs[id].link.marked
    ensures WritesMarker(states[i], steps[i], states[i + 1], id)
  {
    TraceMovesRuns(states, steps, i, id);
    MarkedByItsOwnStep(states[i], steps[i], states[i + 1].runs[id], id);
    StepHolds(states, steps, i);
    MarkCallWrites(states[i], steps[i], id);
  }

  lemma ReachableRows(states: seq<Sys>, steps: seq<Step>, k: nat)
    requires Execution(states, steps) && k < |states|
    ensures Wf(states[k].db) && RowsOk(states[k].db, states[k].now, states[k].runs)
  {
    ReachableInv(states, steps, k);
    InvRows(states[k]);
  }

  /**
   Every final click, even one by a worker orphaned by a crash, comes after a durable marker write made while the job
   was leased and uncancelled and its account active.
   */
  lemma ClickFollowsDurableMarker(states: seq<Sys>, steps: seq<Step>, k: nat, id: JobId) returns (i: nat)
    requires Execution(states, steps) && k < |steps| && IsClick(steps[k], id)
    ensures i < k && WritesMarker(states[i], steps[i], states[i + 1], id)
  {
    ClickedRunIsMarked(states, steps, k, id);
    i := MarkerWasWritten(states, steps, k, id);
  }

  // ---------------------------------------------------------------- manual clicks were approved

  /** The step records the owner's approval of an awaiting job, durably and for the first time. */
  ghost predicate RecordsApproval(s: Sys, step: Step, s': Sys, id: JobId) {
    && step.Decide? && step.id == id && step.decision == Approve
    && id in s.db.jobs && s.db.jobs[id].user == step.user && s.db.jobs[id].status == AwaitingApproval && IsActive(s.db, step.user)
    && id !in s.db.decisions && id in s'.db.decisions && s'.db.decisions[id] == (step.user, Approve)
  }

  /** The step commits the job's return from awaiting approval to running. */
  ghost predicate CommitsResume(s: Sys, step: Step, s': Sys, id: JobId) {
    && step.RunStep? && step.id == id && step.step == L.HandlesApproval(true)
    && id in s.db.jobs && s.db.jobs[id].status == AwaitingApproval && !s.db.jobs[id].cancel && IsActive(s.db, s.db.jobs[id].user)
    && id in s'.db.jobs && s'.db.jobs[id].status == Running
  }

  ghost predicate Recorded(s: Sys) {
    forall id :: id in s.db.decisions && s.db.decisions[id].1 == Approve ==> id in s.approved
  }

  lemma JobOpLeavesDecisions(db: DB, op: Op, now: Instant, id: JobId)
    requires JobOp(op) && id in Apply(db, op, now).decisions
    ensures id in db.decisions && Apply(db, op, now).decisions[id] == db.decisions[id]
  {
  }

  lemma SweepOnlyDropsDecisions(db: DB, op: Op, now: Instant, id: JobId)
    requires SweepOp(op) && id in Apply(db, op, now).decisions
    ensures id in db.decisions && Apply(db, op, now).decisions[id] == db.decisions[id]
  {
  }

  lemma OtherOpOnlyDropsDecisions(db: DB, op: Op, now: Instant, id: JobId)
    requires !JobOp(op) && !SweepOp(op) && !op.DecideOp? && id in Apply(db, op, now).decisions
    ensures id in db.decisions && Apply(db, op, now).decisions[id] == db.decisions[id]
  {
  }

  lemma DecisionsOnlyShrink(db: DB, op: Op, now: Instant, id: JobId)
    requires !op.DecideOp? && id in Apply(db, op, now).decisions
    ensures id in db.decisions && Apply(db, op, now).decisions[id] == db.decisions[id]
  {
    if JobOp(op) {
      JobOpLeavesDecisions(db, op, now, id);
    } else if SweepOp(op) {
      SweepOnlyDropsDecisions(db, op, now, id);
    } else {
      OtherOpOnlyDropsDecisions(db, op, now, id);
    }
  }

  lemma StepKeepsDecision(s: Sys, step: Step, id: JobId)
    requires Enabled(s, step) && !step.Decide? && id in Do(s, step).db.decisions
    ensures id in s.db.decisions && Do(s, step).db.decisions[id] == s.db.decisions[id]
  {
    match step
    case Statement(op) => DecisionsOnlyShrink(s.db, op, s.now, id);
    case ClaimNext(owner) => DecisionsOnlyShrink(s.db, ClaimOp(owner), s.now, id);
    case RunStep(k, l, applied, message) =>
      var call := StoreCall(k, s.runs[k].link, l, message);
      if call.Some? && (ToldOk(l) || applied) {
        DecisionsOnlyShrink(s.db, call.value, s.now, id);
      }
    case FinishJob(k, sight, written) =>
      var c := E.Conclude(s.runs[k].link.phase.outcome, sight);
      if written {
        DecisionsOnlyShrink(s.db, FinishOp(k, c.status, c.message, c.exitCode), s.now, id);
      }
    case Restart => DecisionsOnlyShrink(s.db, RecoverOp, s.now, id);
    case _ =>
  }

  lemma DecideRecords(s: Sys, step: Step, id: JobId)
    requires Recorded(s) && step.Decide? && id in Do(s, step).db.decisions && Do(s, step).db.decisions[id].1 == Approve
    ensures id in Do(s, step).approved
  {
  }

  lemma ApprovedStays(s: Sys, step: Step, id: JobId)
    requires Enabled(s, step) && id in s.approved
    ensures id in Do(s, step).approved
  {
  }

  lemma StepKeepsRecorded(s: Sys, step: Step)
    requires Recorded(s) && Enabled(s, step)
    ensures Recorded(Do(s, step))
  {
    forall id | id in Do(s, step).db.decisions && Do(s, step).db.decisions[id].1 == Approve ensures id in Do(s, step).approved {
      if step.Decide? {
        DecideRecords(s, step, id);
      } else {
        StepKeepsDecision(s, step, id);
        ApprovedStays(s, step, id);
      }
    }
  }

  lemma {:induction false} ReachableRecorded(states: seq<Sys>, steps: seq<Step>, k: nat)
    requires Execution(states, steps) && k < |states|
    ensures Recorded(states[k])
    decreases k
  {
    if k > 0 {
      ReachableRecorded(states, steps, k - 1);
      var step := steps[k - 1];
      StepHolds(states, steps, k - 1);
      StepKeepsRecorded(states[k - 1], step);
    }
  }

  lemma NewlyApproved(s: Sys, step: Step, id: JobId)
    requires Recorded(s) && Enabled(s, step) && id !in s.approved && id in Do(s, step).approved
    ensures RecordsApproval(s, step, Do(s, step), id)
  {
  }

  lemma {:induction false} ApprovalWasRecorded(states: seq<Sys>, steps: seq<Step>, k: nat, id: JobId) returns (i: nat)
    requires Execution(states, steps) && k < |states| && id in states[k].approved
    ensures i < k && RecordsApproval(states[i], steps[i], states[i + 1], id)
    decreases k
  {
    if k == 0 {
      assert false;
    } else if id in states[k - 1].approved {
      i := ApprovalWasRecorded(states, steps, k - 1, id);
    } else {
      i := k - 1;
      ReachableRecorded(states, steps, i);
      var step := steps[i];
      StepHolds(states, steps, i);
      NewlyApproved(states[i], step, id);
    }
  }

  lemma ResumeCommits(db: DB, id: JobId, message: Message, now: Instant)
    requires Commits(db, ResumeApprovedOp(id, message), now)
    ensures id in db.jobs && db.jobs[id].status == AwaitingApproval && !db.jobs[id].cancel && IsActive(db, db.jobs[id].user)
    ensures id in Apply(db, ResumeApprovedOp(id, message), now).jobs && Apply(db, ResumeApprovedOp(id, message), now).jobs[id].status == Running
  {
  }

  lemma NewlyResumed(s: Sys, step: Step, r': Run, id: JobId)
    requires RunMoved(s, step, r', id) && r'.link.resumed && (id in s.runs ==> !s.runs[id].link.resumed)
    ensures step.RunStep? && step.id == id && step.step == L.HandlesApproval(true) && id in s.runs && L.Enabled(s.runs[id].link, step.step)
    ensures s.runs[id].link.approval.decision == Some(Approve) && Approves(s.runs[id].link)
  {
    if step.RunStep? && step.step.HandlesFrame? {
      FrameFacts(s.runs[id].link, step.step.answers);
    }
  }

  lemma ResumeCallCommits(s: Sys, step: Step, id: JobId)
    requires Enabled(s, step) && step.RunStep? && step.id == id && step.step == L.HandlesApproval(true)
    requires s.runs[id].link.approval.Answered? && s.runs[id].link.approval.decision == Some(Approve)
    ensures CommitsResume(s, step, Do(s, step), id)
  {
    ResumeCommits(s.db, id, step.message, s.now);
  }

  lemma {:induction false} ResumeWasCommitted(states: seq<Sys>, steps: seq<Step>, k: nat, id: JobId) returns (m: nat)
    requires Execution(states, steps) && k < |states| && id in states[k].runs && states[k].runs[id].link.resumed
    ensures m < k && CommitsResume(states[m], steps[m], states[m + 1], id) && id in states[m].runs && Approves(states[m].runs[id].link)
    decreases k
  {
    if k == 0 {
      assert false;
    } else if id in states[k - 1].runs && states[k - 1].runs[id].link.resumed {
      m := ResumeWasCommitted(states, steps, k - 1, id);
    } else {
      m := k - 1;
      TraceResumes(states, steps, m, id);
    }
  }

  lemma TraceResumes(states: seq<Sys>, steps: seq<Step>, m: nat, id: JobId)
    requires Execution(states, steps) && m < |steps| && id in states[m + 1].runs && states[m + 1].runs[id].link.resumed
    requires id in states[m].runs ==> !states[m].runs[id].link.resumed
    ensures CommitsResume(states[m], steps[m], states[m + 1], id) && id in states[m].runs && Approves(states[m].runs[id].link)
  {
    TraceMovesRuns(states, steps, m, id);
    NewlyResumed(states[m], steps[m], states[m + 1].runs[id], id);
    StepHolds(states, steps, m);
    ResumeCallCommits(states[m], steps[m], id);
  }

  lemma ApprovingRunIsApproved(s: Sys, id: JobId)
    requires Inv(s) && id in s.runs && Approves(s.runs[id].link)
    ensures id in s.approved
  {
    assert LinkOk(s.approved, id, s.runs[id]);
  }

  /** A click of a manual booking follows the owner's recorded approval and then the committed return to running. */
  lemma ManualClickWasApproved(states: seq<Sys>, steps: seq<Step>, k: nat, id: JobId) returns (i: nat, m: nat)
    requires Execution(states, steps) && k < |steps| && IsClick(steps[k], id)
    requires id in states[k].runs && (states[k].runs[id].job.mode == Manual || states[k].runs[id].job.immediate)
    ensures i < m < k && RecordsApproval(states[i], steps[i], states[i + 1], id) && CommitsResume(states[m], steps[m], states[m + 1], id)
  {
    ClickedRunIsMarked(states, steps, k, id);
    m := ResumeWasCommitted(states, steps, k, id);
    ReachableInv(states, steps, m);
    ApprovingRunIsApproved(states[m], id);
    i := ApprovalWasRecorded(states, steps, m, id);
  }

  // ---------------------------------------------------------------- committed cancellation means no click

  /** A cancellation is committed and no marker was written. */
  predicate Withdrawn(s: Sys, id: JobId) {
    && id < s.db.nextJob
    && (id in s.db.jobs ==> s.db.jobs[id].cancel && s.db.jobs[id].marker.None?)
    && (id in s.runs ==> !s.runs[id].link.marked)
  }

  /** The one statement a step of the system runs on the tables, if any. */
  ghost function TableOp(s: Sys, step: Step): Option<Op>
    requires Enabled(s, step)
  {
    match step
    case Statement(op) => Some(op)
    case ClaimNext(owner) => Some(ClaimOp(owner))
    case RunStep(id, l, applied, message) => if ToldOk(l) || applied then StoreCall(id, s.runs[id].link, l, message) else None
    case Decide(u, id, d) => Some(DecideOp(u, id, d))
    case FinishJob(id, sight, written) =>
      var c := E.Conclude(s.runs[id].link.phase.outcome, sight);
      if written then Some(FinishOp(id, c.status, c.message, c.exitCode)) else None
    case Restart => Some(RecoverOp)
    case _ => None
  }

  lemma StepRunsItsOp(s: Sys, step: Step)
    requires Enabled(s, step)
    ensures Do(s, step).db == match TableOp(s, step) case None => s.db case Some(op) => Apply(s.db, op, s.now)
  {
  }

  lemma TablesEvolve(s: Sys, step: Step)
    requires Wf(s.db) && Enabled(s, step)
    ensures Evolves(s.db, Do(s, step).db, Today(s.now))
  {
    StepRunsItsOp(s, step);
    SelfEvolves(s.db, Today(s.now));
    if TableOp(s, step).Some? {
      ApplyKeeps(s.db, TableOp(s, step).value, s.now);
    }
  }

  lemma StepKeepsWithdrawn(s: Sys, step: Step, id: JobId)
    requires Wf(s.db) && RowsOk(s.db, s.now, s.runs) && Enabled(s, step) && Withdrawn(s, id)
    ensures Withdrawn(Do(s, step), id)
  {
    TablesEvolve(s, step);
    var s' := Do(s, step);
    StepMovesRuns(s, step, id);
    if id in s'.runs && s'.runs[id].link.marked {
      MarkedByItsOwnStep(s, step, s'.runs[id], id);
      MarkCallWrites(s, step, id);
    }
  }

  lemma {:induction false} StaysWithdrawn(states: seq<Sys>, steps: seq<Step>, i: nat, k: nat, id: JobId)
    requires Execution(states, steps) && i <= k < |states| && Withdrawn(states[i], id)
    ensures Withdrawn(states[k], id)
    decreases k - i
  {
    if i < k {
      StaysWithdrawn(states, steps, i, k - 1, id);
      TraceKeepsWithdrawn(states, steps, k - 1, id);
    }
  }

  lemma TraceKeepsWithdrawn(states: seq<Sys>, steps: seq<Step>, k: nat, id: JobId)
    requires Execution(states, steps) && k < |steps| && Withdrawn(states[k], id)
    ensures Withdrawn(states[k + 1], id)
  {
    ReachableRows(states, steps, k);
    var step := steps[k];
    StepHolds(states, steps, k);
    StepKeepsWithdrawn(states[k], step, id);
  }

  lemma ClickedRunIsMarked(states: seq<Sys>, steps: seq<Step>, k: nat, id: JobId)
    requires Execution(states, steps) && k < |steps| && IsClick(steps[k], id)
    ensures id in states[k].runs && states[k].runs[id].link.marked && states[k].runs[id].link.pc.ReadyToClick?
    ensures states[k].runs[id].job.mode == Manual || states[k].runs[id].job.immediate ==> states[k].runs[id].link.resumed
  {
    ReachableInv(states, steps, k);
    StepHolds(states, steps, k);
    ReadyRunIsMarked(states[k], id);
  }

  lemma UnmarkedRowUnmarkedRun(states: seq<Sys>, steps: seq<Step>, i: nat, id: JobId)
    requires Execution(states, steps) && i < |states| && id in states[i].db.jobs && states[i].db.jobs[id].marker.None?
    ensures id < states[i].db.nextJob && (id in states[i].runs ==> !states[i].runs[id].link.marked)
  {
    ReachableRows(states, steps, i);
    if id in states[i].runs {
      assert Kept(states[i].db, states[i].now, id, states[i].runs[id]);
    }
  }

  /** If a cancellation commits while the marker is unset, the job is never clicked through, whatever happens later. */
  lemma CancelledIsNeverClicked(states: seq<Sys>, steps: seq<Step>, i: nat, k: nat, id: JobId)
    requires Execution(states, steps) && i < |states| && k < |steps| && IsClick(steps[k], id)
    requires id in states[i].db.jobs && states[i].db.jobs[id].marker.None?
    ensures !states[i].db.jobs[id].cancel
  {
    ClickedRunIsMarked(states, steps, k, id);
    UnmarkedRowUnmarkedRun(states, steps, i, id);
    if k < i {
      RunLives(states, steps, k, i, id);
      assert false;
    } else if states[i].db.jobs[id].cancel {
      StaysWithdrawn(states, steps, i, k, id);
      assert false;
    }
  }

  // ---------------------------------------------------------------- outcomes

  /** The step emits the completed confirmation `n` of the job. */
  predicate Completes(step: Step, id: JobId, n: nat) {
    step.RunStep? && step.id == id && step.step.WorkerEmits? && step.step.frame.ConfirmationCompleted? && step.step.frame.id == n
  }

  lemma NewlyCompleted(s: Sys, step: Step, r': Run, id: JobId) returns (n: nat)
    requires RunMoved(s, step, r', id) && r'.link.emittedCompletion && (id in s.runs ==> !s.runs[id].link.emittedCompletion)
    ensures Completes(step, id, n) && id in s.runs && s.runs[id].link.pc.Clicked? && s.runs[id].link.pc.id == n
  {
    if step.RunStep? && step.step.HandlesFrame? {
      FrameFacts(s.runs[id].link, step.step.answers);
    }
    n := step.step.frame.id;
  }

  lemma {:induction false} CompletionWasEmitted(states: seq<Sys>, steps: seq<Step>, k: nat, id: JobId) returns (i: nat, n: nat)
    requires Execution(states, steps) && k < |states| && id in states[k].runs && states[k].runs[id].link.emittedCompletion
    ensures i < k && Completes(steps[i], id, n) && id in states[i].runs && states[i].runs[id].link.pc.Clicked? && states[i].runs[id].link.pc.id == n
    decreases k
  {
    if k == 0 {
      assert false;
    } else if id in states[k - 1].runs && states[k - 1].runs[id].link.emittedCompletion {
      i, n := CompletionWasEmitted(states, steps, k - 1, id);
    } else {
      i := k - 1;
      TraceMovesRuns(states, steps, i, id);
      n := NewlyCompleted(states[i], steps[i], states[k].runs[id], id);
    }
  }

  /** A run comes to the clicked point by its click, and to the point before it by the acknowledgement of the same confirmation. */
  lemma NewlyClicked(s: Sys, step: Step, r': Run, id: JobId)
    requires RunMoved(s, step, r', id) && r'.link.pc.Clicked? && (id in s.runs ==> !s.runs[id].link.pc.Clicked?)
    ensures IsClick(step, id) && id in s.runs && s.runs[id].link.pc.ReadyToClick? && s.runs[id].link.pc.id == r'.link.pc.id
  {
    PcMoves(s, step, r', id);
    L.TheWayToTheClick(s.runs[id].link, step.step);
  }

  /** The step takes the acknowledgement of confirmation `n` from the run's channel. */
  predicate Acknowledges(s: Sys, step: Step, id: JobId, n: nat) {
    && step.RunStep? && step.id == id && step.step == L.WorkerTakes
    && id in s.runs && s.runs[id].link.toPy != [] && s.runs[id].link.toPy[0].ConfirmationReady? && s.runs[id].link.toPy[0].id == n
  }

  lemma NewlyReady(s: Sys, step: Step, r': Run, id: JobId)
    requires RunMoved(s, step, r', id) && r'.link.pc.ReadyToClick? && (id in s.runs ==> !s.runs[id].link.pc.ReadyToClick?)
    ensures Acknowledges(s, step, id, r'.link.pc.id)
  {
    PcMoves(s, step, r', id);
    L.TheWayToTheClick(s.runs[id].link, step.step);
  }

  /** A run's control point moves only by its own worker's steps. */
  lemma PcMoves(s: Sys, step: Step, r': Run, id: JobId)
    requires RunMoved(s, step, r', id) && (if id in s.runs then r'.link.pc != s.runs[id].link.pc else r'.link.pc != Worker.Boot)
    ensures step.RunStep? && step.id == id && id in s.runs && L.Enabled(s.runs[id].link, step.step) && L.OfWorker(step.step)
    ensures r'.link.pc == L.WorkerDo(s.runs[id].link, step.step).pc
  {
    if step.RunStep? && step.step.HandlesFrame? {
      FrameFacts(s.runs[id].link, step.step.answers);
    }
  }

  /** No step replaces the confirmation a run is clicking for. */
  lemma StaysAtItsId(s: Sys, step: Step, r': Run, id: JobId)
    requires id in s.runs && RunMoved(s, step, r', id)
    requires (s.runs[id].link.pc.Clicked? && r'.link.pc.Clicked?) || (s.runs[id].link.pc.ReadyToClick? && r'.link.pc.ReadyToClick?)
    ensures r'.link.pc == s.runs[id].link.pc
  {
    if r'.link.pc != s.runs[id].link.pc {
      PcMoves(s, step, r', id);
      L.TheWayToTheClick(s.runs[id].link, step.step);
    }
  }

  lemma TraceToClicked(states: seq<Sys>, steps: seq<Step>, k: nat, id: JobId)
    requires Execution(states, steps) && k < |steps| && id in states[k + 1].runs && states[k + 1].runs[id].link.pc.Clicked?
    ensures id in states[k].runs
    ensures var pc, pc' := states[k].runs[id].link.pc, states[k + 1].runs[id].link.pc;
            pc == pc' || (IsClick(steps[k], id) && pc.ReadyToClick? && pc.id == pc'.id)
  {
    TraceMovesRuns(states, steps, k, id);
    if id in states[k].runs && states[k].runs[id].link.pc.Clicked? {
      StaysAtItsId(states[k], steps[k], states[k + 1].runs[id], id);
    } else {
      NewlyClicked(states[k], steps[k], states[k + 1].runs[id], id);
    }
  }

  lemma TraceToReady(states: seq<Sys>, steps: seq<Step>, k: nat, id: JobId)
    requires Execution(states, steps) && k < |steps| && id in states[k + 1].runs && states[k + 1].runs[id].link.pc.ReadyToClick?
    ensures id in states[k].runs
    ensures var pc' := states[k + 1].runs[id].link.pc; states[k].runs[id].link.pc == pc' || Acknowledges(states[k], steps[k], id, pc'.id)
  {
    TraceMovesRuns(states, steps, k, id);
    if id in states[k].runs && states[k].runs[id].link.pc.ReadyToClick? {
      StaysAtItsId(states[k], steps[k], states[k + 1].runs[id], id);
    } else {
      NewlyReady(states[k], steps[k], states[k + 1].runs[id], id);
    }
  }

  lemma {:induction false} ClickWasMade(states: seq<Sys>, steps: seq<Step>, k: nat, id: JobId) returns (j: nat)
    requires Execution(states, steps) && k < |states| && id in states[k].runs && states[k].runs[id].link.pc.Clicked?
    ensures j < k && IsClick(steps[j], id) && id in states[j].runs && states[j].runs[id].link.pc.ReadyToClick?
    ensures states[j].runs[id].link.pc.id == states[k].runs[id].link.pc.id
    decreases k
  {
    if k == 0 {
      assert false;
    } else {
      j := k - 1;
      TraceToClicked(states, steps, j, id);
      if states[j].runs[id].link.pc == states[k].runs[id].link.pc {
        j := ClickWasMade(states, steps, k - 1, id);
      }
    }
  }

  lemma {:induction false} AcknowledgementWasTaken(states: seq<Sys>, steps: seq<Step>, k: nat, id: JobId) returns (h: nat)
    requires Execution(states, steps) && k < |states| && id in states[k].runs && states[k].runs[id].link.pc.ReadyToClick?
    ensures h < k && Acknowledges(states[h], steps[h], id, states[k].runs[id].link.pc.id)
    decreases k
  {
    if k == 0 {
      assert false;
    } else {
      h := k - 1;
      TraceToReady(states, steps, h, id);
      if states[h].runs[id].link.pc == states[k].runs[id].link.pc {
        h := AcknowledgementWasTaken(states, steps, k - 1, id);
      }
    }
  }

  lemma SucceededIsCompleted(s: Sys, id: JobId)
    requires Inv(s) && id in s.db.jobs && s.db.jobs[id].command == Book && s.db.jobs[id].status == Succeeded
    ensures id in s.runs && s.runs[id].link.emittedCompletion
  {
    assert Owned(s.db, s.runs);
    assert Kept(s.db, s.now, id, s.runs[id]) && Standing(s.db, id, s.runs[id]);
  }

  /**
   A booking is stored as succeeded only after its worker took the acknowledgement of a confirmation, clicked, and then
   reported that same confirmation as completed.
   */
  lemma BookedWasConfirmed(states: seq<Sys>, steps: seq<Step>, k: nat, id: JobId) returns (h: nat, j: nat, i: nat, n: nat)
    requires Execution(states, steps) && k < |states|
    requires id in states[k].db.jobs && states[k].db.jobs[id].command == Book && states[k].db.jobs[id].status == Succeeded
    ensures h < j < i < k && Acknowledges(states[h], steps[h], id, n) && IsClick(steps[j], id) && Completes(steps[i], id, n)
  {
    ReachableInv(states, steps, k);
    SucceededIsCompleted(states[k], id);
    i, n := CompletionWasEmitted(states, steps, k, id);
    j := ClickWasMade(states, steps, i, id);
    h := AcknowledgementWasTaken(states, steps, j, id);
  }

  /** A booking that was clicked through is never stored as failed, cancelled or interrupted. */
  lemma ClickedEndsSucceededOrUnknown(states: seq<Sys>, steps: seq<Step>, k: nat, j: nat, id: JobId)
    requires Execution(states, steps) && k < |steps| && j < |states| && IsClick(steps[k], id)
    requires id in states[j].db.jobs && Terminal(states[j].db.jobs[id].status)
    ensures states[j].db.jobs[id].status in {Succeeded, OutcomeUnknown}
  {
    ReachableRows(states, steps, j);
    var i := ClickFollowsDurableMarker(states, steps, k, id);
    if i + 1 <= j {
      RowStays(states, steps, i + 1, j, id);
    } else {
      RowStays(states, steps, j, i, id);
      assert false;
    }
  }

  lemma TraceEvolves(states: seq<Sys>, steps: seq<Step>, k: nat)
    requires Execution(states, steps) && k < |steps|
    ensures Evolves(states[k].db, states[k + 1].db, Today(states[k].now))
  {
    ReachableRows(states, steps, k);
    var step := steps[k];
    StepHolds(states, steps, k);
    TablesEvolve(states[k], step);
  }

  /** The row's history over a run of the whole system. */
  lemma {:induction false} RowStays(states: seq<Sys>, steps: seq<Step>, i: nat, j: nat, id: JobId)
    requires Execution(states, steps) && i <= j < |states| && id in states[i].db.jobs
    ensures id < states[j].db.nextJob && (id in states[j].db.jobs ==> LaterRow(states[i].db.jobs[id], states[j].db.jobs[id]))
    decreases j - i
  {
    if i == j {
      ReachableRows(states, steps, i);
      RowStartsItself(states[i].db, id);
    } else {
      RowStays(states, steps, i, j - 1, id);
      TraceEvolves(states, steps, j - 1);
      RowEvolves(states[j - 1].db, states[j].db, Today(states[j - 1].now), id, states[i].db.jobs[id]);
    }
  }

  /** With this worker the final write always ends the job. */
  lemma FinishAlwaysTerminates(states: seq<Sys>, steps: seq<Step>, k: nat, id: JobId, sight: E.Sight)
    requires Execution(states, steps) && k < |steps| && steps[k] == FinishJob(id, sight, true) && id in states[k].db.jobs
    ensures id in states[k + 1].db.jobs && Terminal(states[k + 1].db.jobs[id].status)
  {
    ReachableInv(states, steps, k);
    var step := steps[k];
    StepHolds(states, steps, k);
    FinishEndsTheRow(states[k], id, sight);
  }

  lemma FinishEndsTheRow(s: Sys, id: JobId, sight: E.Sight)
    requires Inv(s) && Enabled(s, FinishJob(id, sight, true)) && id in s.db.jobs
    ensures id in Do(s, FinishJob(id, sight, true)).db.jobs && Terminal(Do(s, FinishJob(id, sight, true)).db.jobs[id].status)
  {
    var r := s.runs[id];
    assert LinkOk(s.approved, id, r) && Kept(s.db, s.now, id, r) && Standing(s.db, id, r);
    LinkReports(r.link, sight);
    ConclusionEndsTheRow(s.db, s.now, id, E.Conclude(r.link.phase.outcome, sight));
  }

  /** What a run's conclusion implies of its history. */
  lemma LinkReports(l: L.Link, sight: E.Sight)
    requires L.History(l) && L.Reports(l) && l.phase.Ended?
    ensures var c := E.Conclude(l.phase.outcome, sight);
            && Terminal(c.status)
            && (c.status == OutcomeUnknown ==> sight.marker || l.marked)
            && (c.status == Succeeded && Worker.Manually(l.coord.program) ==> l.resumed)
  {
    E.ConclusionIsTerminal(l.phase.outcome, sight);
  }

  lemma ConclusionEndsTheRow(db: DB, now: Instant, id: JobId, c: E.Conclusion)
    requires Terminal(c.status) && id in db.jobs && db.jobs[id].status != Queued
    requires c.status == OutcomeUnknown ==> db.jobs[id].marker.Some?
    requires c.status == Succeeded ==> db.jobs[id].status != AwaitingApproval
    ensures var db' := Apply(db, FinishOp(id, c.status, c.message, c.exitCode), now); id in db'.jobs && Terminal(db'.jobs[id].status)
  {
    if Active(db.jobs[id].status) {
      E.FinishFailsExactly(db, id, c, now);
      E.FinishedIsTerminal(db, id, c, now);
    }
  }
}
