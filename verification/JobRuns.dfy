/** Every run of the store: any sequence of the statements the engine, the web server and the CLI issue. */
module JobRuns {
  import opened Types
  import opened JobTable
  import opened JobInvariants

  const DAY: int := 24 * 60 * 60 * 1_000_000_000

  function Today(now: Instant): Day {
    now / DAY
  }

  datatype Op =
    | EnqueueOp(actor: UserId, params: Params)
    | ExpireOp
    | ClaimOp(owner: string)
    | BeginApprovalOp(id: JobId, message: Message)
    | ResumeApprovedOp(id: JobId, message: Message)
    | MarkOp(id: JobId)
    | FinishOp(id: JobId, status: JobStatus, message: Message, exitCode: Option<int>)
    | CancelOp(actor: UserId, id: JobId)
    | RecoverOp
    | PruneOp(user: UserId)
    | RetentionTriggerOp(ids: set<JobId>)
    | PurgeGuardsOp
    | SetAccountOp(user: UserId, active: bool)
    | DeleteMemberOp(user: UserId, confirmed: string)
    | AddProfileOp(profile: Profile)
    | DeleteProfileOp(user: UserId, profileId: ProfileId)
    | DecideOp(user: UserId, id: JobId, decision: Decision)
    | OtherTablesOp(tables: DB)

  function Settle(db: DB, r: Result<DB>): DB {
    if r.Ok? then r.value else db
  }

  /** A rejected statement leaves the tables as they were. */
  function Apply(db: DB, op: Op, now: Instant): DB {
    match op
    case EnqueueOp(actor, p) => Settle(db, Enqueue(db, actor, p, now))
    case ExpireOp => Expire(db, now)
    case ClaimOp(owner) => Settle(db, Claim(db, owner, now))
    case BeginApprovalOp(id, message) => Settle(db, BeginApproval(db, id, message, now))
    case ResumeApprovedOp(id, message) => Settle(db, ResumeApproved(db, id, message, now))
    case MarkOp(id) => Settle(db, MarkConfirmation(db, id, now))
    case FinishOp(id, status, message, code) =>
      if Terminal(status) then Settle(db, Finish(db, id, status, message, code, now)) else db
    case CancelOp(actor, id) => Settle(db, RequestCancellation(db, actor, id, now))
    case RecoverOp => Recover(db, now)
    case PruneOp(u) => Prune(db, u, now)
    // the AFTER UPDATE retention trigger removes some prunable rows; which ones does not matter here
    case RetentionTriggerOp(ids) =>
      if forall id :: id in ids ==> id in db.jobs && Prunable(db.jobs[id], now) then WithoutRows(db, ids) else db
    case PurgeGuardsOp => PurgeGuards(db, Today(now))
    case SetAccountOp(u, active) => Settle(db, SetAccount(db, u, active, now))
    case DeleteMemberOp(u, name) => Settle(db, DeleteMember(db, u, name))
    case AddProfileOp(profile) => AddProfile(db, profile)
    case DeleteProfileOp(u, p) => Settle(db, DeleteProfile(db, u, p))
    case DecideOp(u, id, d) => RecordDecision(db, u, id, d).db
    // settings, sources, saved requests and profile edits touch no job, account status or reservation
    case OtherTablesOp(t) =>
      if t.profiles.Keys == db.profiles.Keys then
        db.(profiles := t.profiles, sources := t.sources, preferences := t.preferences, bookings := t.bookings)
      else db
  }

  // ---------------------------------------------------------------- what one statement keeps

  lemma ClaimKeeps(db: DB, owner: string, now: Instant, today: Day)
    requires Wf(db)
    ensures var r := Claim(db, owner, now); r.Ok? ==> Wf(r.value) && Evolves(db, r.value, today)
  {
    if owner != "" {
      var swept := Expire(db, now);
      ExpireKeeps(db, now, today);
      if Candidates(swept, now) != {} {
        var id := FirstDue(swept, Candidates(swept, now));
        LeaseKeepsWf(swept, id, owner, now);
        assert swept.jobs[id] == db.jobs[id];
        LeaseEvolves(db, swept, id, owner, now, today);
      }
    }
  }

  lemma LeaseEvolves(db: DB, mid: DB, id: JobId, owner: string, now: Instant, today: Day)
    requires Evolves(db, mid, today) && id in db.jobs && id in mid.jobs && mid.jobs[id] == db.jobs[id]
    requires RowOk(db.jobs[id]) && db.jobs[id].status == Queued && owner != ""
    ensures Evolves(db, Lease(mid, id, owner, now), today)
  {
    var db' := Lease(mid, id, owner, now);
    assert LegalEdit(db.jobs[id], db'.jobs[id], IsActive(db, db.jobs[id].user));
    forall s | s in db.reservations ensures GuardKept(db, db', s, today) {
      assert GuardKept(db, mid, s, today);
    }
  }

  /** No job and no reservation is touched, and new profiles get new ids. */
  predicate JobsUntouched(db: DB, db': DB) {
    && db'.jobs == db.jobs && db'.reservations == db.reservations && db'.nextJob == db.nextJob
    && db.nextProfile <= db'.nextProfile && (forall p :: p in db.profiles ==> p in db'.profiles)
    && (forall p :: p in db'.profiles ==> p < db'.nextProfile && (p in db.profiles || p >= db.nextProfile))
  }

  lemma UntouchedEvolves(db: DB, db': DB, today: Day)
    requires Rows(db) && JobsUntouched(db, db')
    ensures Evolves(db, db', today)
  {
    forall s | s in db.reservations ensures GuardKept(db, db', s, today) {
    }
  }

  lemma UntouchedKeeps(db: DB, db': DB, today: Day)
    requires Wf(db) && JobsUntouched(db, db')
    ensures Wf(db') && Evolves(db, db', today)
  {
    UntouchedEvolves(db, db', today);
  }

  lemma OtherTablesKeep(db: DB, db': DB, today: Day)
    requires Wf(db) && db'.profiles.Keys == db.profiles.Keys
    requires db' == db.(profiles := db'.profiles, sources := db'.sources, preferences := db'.preferences,
                        bookings := db'.bookings, decisions := db'.decisions)
    ensures Wf(db') && Evolves(db, db', today)
  {
    forall p | p in db'.profiles ensures p in db.profiles {
      assert p in db'.profiles.Keys;
    }
    forall p | p in db.profiles ensures p in db'.profiles {
      assert p in db.profiles.Keys;
    }
    UntouchedKeeps(db, db', today);
  }

  lemma AddProfileKeeps(db: DB, profile: Profile, today: Day)
    requires Wf(db)
    ensures Wf(AddProfile(db, profile)) && Evolves(db, AddProfile(db, profile), today)
  {
    UntouchedKeeps(db, AddProfile(db, profile), today);
  }

  /** A rejected statement changes nothing, so it keeps everything. */
  lemma SettleKeeps(db: DB, r: Result<DB>, today: Day)
    requires Wf(db) && (r.Ok? ==> Wf(r.value) && Evolves(db, r.value, today))
    ensures Wf(Settle(db, r)) && Evolves(db, Settle(db, r), today)
  {
    SelfEvolves(db, today);
  }

  /** The statements issued for a running job. */
  predicate JobOp(op: Op) {
    op.EnqueueOp? || op.ClaimOp? || op.BeginApprovalOp? || op.ResumeApprovedOp? || op.MarkOp? || op.FinishOp? || op.CancelOp?
  }

  lemma JobOpKeeps(db: DB, op: Op, now: Instant)
    requires Wf(db) && JobOp(op)
    ensures Wf(Apply(db, op, now)) && Evolves(db, Apply(db, op, now), Today(now))
  {
    var today := Today(now);
    match op
    case EnqueueOp(actor, p) =>
      EnqueueKeeps(db, actor, p, now, today);
      SettleKeeps(db, Enqueue(db, actor, p, now), today);
    case ClaimOp(owner) =>
      ClaimKeeps(db, owner, now, today);
      SettleKeeps(db, Claim(db, owner, now), today);
    case BeginApprovalOp(id, message) =>
      BeginApprovalKeeps(db, id, message, now, today);
      SettleKeeps(db, BeginApproval(db, id, message, now), today);
    case ResumeApprovedOp(id, message) =>
      ResumeApprovedKeeps(db, id, message, now, today);
      SettleKeeps(db, ResumeApproved(db, id, message, now), today);
    case MarkOp(id) =>
      MarkKeeps(db, id, now, today);
      SettleKeeps(db, MarkConfirmation(db, id, now), today);
    case FinishOp(id, status, message, code) =>
      SelfEvolves(db, today);
      if Terminal(status) {
        FinishKeeps(db, id, status, message, code, now, today);
        SettleKeeps(db, Finish(db, id, status, message, code, now), today);
      }
    case CancelOp(actor, id) =>
      CancelKeeps(db, actor, id, now, today);
      SettleKeeps(db, RequestCancellation(db, actor, id, now), today);
  }

  /** The sweeps over the job table. */
  predicate SweepOp(op: Op) {
    op.ExpireOp? || op.RecoverOp? || op.PruneOp? || op.RetentionTriggerOp? || op.PurgeGuardsOp?
  }

  lemma SweepOpKeeps(db: DB, op: Op, now: Instant)
    requires Wf(db) && SweepOp(op)
    ensures Wf(Apply(db, op, now)) && Evolves(db, Apply(db, op, now), Today(now))
  {
    var today := Today(now);
    match op
    case ExpireOp => ExpireKeeps(db, now, today);
    case RecoverOp => RecoverKeeps(db, now, today);
    case PruneOp(u) => PruneKeeps(db, u, now, today);
    case RetentionTriggerOp(ids) =>
      if forall id :: id in ids ==> id in db.jobs && Prunable(db.jobs[id], now) { DeleteKeeps(db, ids, today); } else { SelfEvolves(db, today); }
    case PurgeGuardsOp => PurgeKeeps(db, today);
  }

  lemma AccountOpKeeps(db: DB, op: Op, now: Instant)
    requires Wf(db) && (op.SetAccountOp? || op.DeleteMemberOp? || op.AddProfileOp? || op.DeleteProfileOp?)
    ensures Wf(Apply(db, op, now)) && Evolves(db, Apply(db, op, now), Today(now))
  {
    var today := Today(now);
    match op
    case SetAccountOp(u, active) =>
      SetAccountKeeps(db, u, active, now, today);
      SettleKeeps(db, SetAccount(db, u, active, now), today);
    case DeleteMemberOp(u, name) =>
      DeleteMemberKeeps(db, u, name, today);
      SettleKeeps(db, DeleteMember(db, u, name), today);
    case AddProfileOp(profile) => AddProfileKeeps(db, profile, today);
    case DeleteProfileOp(u, p) =>
      DeleteProfileKeeps(db, u, p, today);
      SettleKeeps(db, DeleteProfile(db, u, p), today);
  }

  lemma DecisionKeeps(db: DB, u: UserId, id: JobId, d: Decision, today: Day)
    requires Wf(db)
    ensures var db' := RecordDecision(db, u, id, d).db; Wf(db') && Evolves(db, db', today)
  {
    OtherTablesKeep(db, RecordDecision(db, u, id, d).db, today);
  }

  lemma OtherOpKeeps(db: DB, op: Op, now: Instant)
    requires Wf(db) && (op.DecideOp? || op.OtherTablesOp?)
    ensures Wf(Apply(db, op, now)) && Evolves(db, Apply(db, op, now), Today(now))
  {
    if op.DecideOp? {
      DecisionKeeps(db, op.user, op.id, op.decision, Today(now));
    } else if op.tables.profiles.Keys == db.profiles.Keys {
      OtherTablesKeep(db, Apply(db, op, now), Today(now));
    } else {
      SelfEvolves(db, Today(now));
    }
  }

  lemma ApplyKeeps(db: DB, op: Op, now: Instant)
    requires Wf(db)
    ensures Wf(Apply(db, op, now)) && Evolves(db, Apply(db, op, now), Today(now))
  {
    if JobOp(op) {
      JobOpKeeps(db, op, now);
    } else if SweepOp(op) {
      SweepOpKeeps(db, op, now);
    } else if op.DecideOp? || op.OtherTablesOp? {
      OtherOpKeeps(db, op, now);
    } else {
      AccountOpKeeps(db, op, now);
    }
  }

  // ---------------------------------------------------------------- the one edge outside the transition graph

  predicate OffGraph(a: JobStatus, b: JobStatus) {
    a != b && !CanTransition(a, b)
  }

  /** The statements that sweep expired rows. */
  predicate SweepsExpired(op: Op) {
    op.ExpireOp? || (op.ClaimOp? && op.owner != "")
  }

  lemma ClaimSweeps(db: DB, owner: string, now: Instant, id: JobId)
    requires id in db.jobs && db.jobs[id].status == Queued
    ensures var r := Claim(db, owner, now);
            id in Settle(db, r).jobs && (Settle(db, r).jobs[id].status == Failed <==> owner != "" && Stale(db.jobs[id], now))
  {
    if owner != "" {
      var swept := Expire(db, now);
      assert swept.jobs[id] == ExpireRow(db.jobs[id], now);
      if Candidates(swept, now) != {} {
        var first := FirstDue(swept, Candidates(swept, now));
        assert Claimable(swept, first, now);
      }
    }
  }

  lemma TransitionSparesQueued(db: DB, k: JobId, expected: seq<JobStatus>, to: JobStatus, u: Update, now: Instant, id: JobId)
    requires id in db.jobs && db.jobs[id].status == Queued && Queued !in expected
    ensures var db' := Settle(db, Transition(db, k, expected, to, u, now)); id in db'.jobs && db'.jobs[id] == db.jobs[id]
  {
  }

  lemma CancelSparesQueued(db: DB, actor: UserId, k: JobId, now: Instant, id: JobId)
    requires id in db.jobs && db.jobs[id].status == Queued
    ensures var db' := Settle(db, RequestCancellation(db, actor, k, now)); id in db'.jobs && db'.jobs[id].status != Failed
  {
  }

  lemma EnqueueSparesQueued(db: DB, actor: UserId, p: Params, now: Instant, id: JobId)
    requires id in db.jobs && id < db.nextJob && db.jobs[id].status == Queued
    ensures var db' := Settle(db, Enqueue(db, actor, p, now)); id in db'.jobs && db'.jobs[id] == db.jobs[id]
  {
  }

  lemma SetAccountSparesQueued(db: DB, u: UserId, active: bool, now: Instant, id: JobId)
    requires id in db.jobs && db.jobs[id].status == Queued
    ensures var db' := Settle(db, SetAccount(db, u, active, now)); id in db'.jobs && db'.jobs[id].status != Failed
  {
  }

  lemma DeletionSparesQueued(db: DB, op: Op, now: Instant, id: JobId)
    requires op.DeleteMemberOp? || op.DeleteProfileOp? || op.PruneOp? || op.RetentionTriggerOp?
    requires id in db.jobs && db.jobs[id].status == Queued
    ensures id in Apply(db, op, now).jobs ==> Apply(db, op, now).jobs[id] == db.jobs[id]
  {
  }

  lemma JobOpSparesQueued(db: DB, op: Op, now: Instant, id: JobId)
    requires JobOp(op) && !op.ClaimOp? && id in db.jobs && id < db.nextJob && db.jobs[id].status == Queued
    ensures id in Apply(db, op, now).jobs && Apply(db, op, now).jobs[id].status != Failed
  {
    match op
    case EnqueueOp(actor, p) => EnqueueSparesQueued(db, actor, p, now, id);
    case BeginApprovalOp(k, message) => TransitionSparesQueued(db, k, [Running], AwaitingApproval, Update(message, None, false), now, id);
    case ResumeApprovedOp(k, message) => TransitionSparesQueued(db, k, [AwaitingApproval], Running, Update(message, None, false), now, id);
    case MarkOp(_) =>
    case FinishOp(k, status, message, code) => TransitionSparesQueued(db, k, FinishExpected(status), status, Update(message, code, false), now, id);
    case CancelOp(actor, k) => CancelSparesQueued(db, actor, k, now, id);
  }

  lemma RestSparesQueued(db: DB, op: Op, now: Instant, id: JobId)
    requires op.RecoverOp? || op.PurgeGuardsOp? || op.AddProfileOp? || op.DecideOp? || op.OtherTablesOp?
    requires id in db.jobs && db.jobs[id].status == Queued
    ensures id in Apply(db, op, now).jobs && Apply(db, op, now).jobs[id] == db.jobs[id]
  {
  }

  /** Only a sweep moves a queued row to failed. */
  lemma QueuedFailsOnlySwept(db: DB, op: Op, now: Instant, id: JobId)
    requires id in db.jobs && id < db.nextJob && db.jobs[id].status == Queued && !op.ExpireOp? && !op.ClaimOp?
    ensures id in Apply(db, op, now).jobs ==> Apply(db, op, now).jobs[id].status != Failed
  {
    if JobOp(op) {
      JobOpSparesQueued(db, op, now, id);
    } else if op.SetAccountOp? {
      SetAccountSparesQueued(db, op.user, op.active, now, id);
    } else if op.DeleteMemberOp? || op.DeleteProfileOp? || op.PruneOp? || op.RetentionTriggerOp? {
      DeletionSparesQueued(db, op, now, id);
    } else {
      RestSparesQueued(db, op, now, id);
    }
  }

  lemma SweptExactly(db: DB, op: Op, now: Instant, id: JobId)
    requires id in db.jobs && id < db.nextJob && db.jobs[id].status == Queued && id in Apply(db, op, now).jobs
    ensures Apply(db, op, now).jobs[id].status == Failed <==> SweepsExpired(op) && Stale(db.jobs[id], now)
  {
    if op.ClaimOp? {
      ClaimSweeps(db, op.owner, now, id);
    } else if !op.ExpireOp? {
      QueuedFailsOnlySwept(db, op, now, id);
    }
  }

  lemma EdgeOf(db: DB, db': DB, today: Day, id: JobId)
    requires Evolves(db, db', today) && id in db.jobs && id in db'.jobs
    ensures OffGraph(db.jobs[id].status, db'.jobs[id].status) <==> db.jobs[id].status == Queued && db'.jobs[id].status == Failed
  {
  }

  /** A row that stays leaves the transition graph exactly when a sweep finds it queued past its expiry. */
  lemma LeavesTheGraphExactly(db: DB, op: Op, now: Instant, id: JobId)
    requires Wf(db) && id in db.jobs && id in Apply(db, op, now).jobs
    ensures OffGraph(db.jobs[id].status, Apply(db, op, now).jobs[id].status) <==> SweepsExpired(op) && Stale(db.jobs[id], now)
  {
    ApplyKeeps(db, op, now);
    EdgeOf(db, Apply(db, op, now), Today(now), id);
    if db.jobs[id].status == Queued {
      SweptExactly(db, op, now, id);
    }
  }

  /** A sign-in check that was due at 0 and expired at 1, still queued at 2: the sweep moves it from queued to failed. */
  lemma ExpiryLeavesTheGraph()
    ensures var row := Job(1, None, 1, 1, AuthCheck, Manual, false, 0, Queued, 0, Some(1), "", "", false, NoMessage, None, None, 0, None, None);
            var db := DB(map[], map[1 := Profile(1, true, 1)], map[], map[], map[], map[1 := row], map[], map[], 2, 2);
            && Wf(db) && Apply(db, ExpireOp, 2).jobs[1].status == Failed && !CanTransition(Queued, Failed)
  {
    var row := Job(1, None, 1, 1, AuthCheck, Manual, false, 0, Queued, 0, Some(1), "", "", false, NoMessage, None, None, 0, None, None);
    assert RowOk(row);
  }

  // ---------------------------------------------------------------- runs

  datatype Event = Event(op: Op, now: Instant)

  ghost predicate IsRun(run: seq<DB>, events: seq<Event>) {
    && |run| == |events| + 1
    && forall i {:trigger events[i]} :: 0 <= i < |events| ==> run[i + 1] == Apply(run[i], events[i].op, events[i].now)
  }

  function EmptyDB(users: map<UserId, User>): DB {
    DB(users, map[], map[], map[], map[], map[], map[], map[], 1, 1)
  }

  lemma {:induction false} RunKeepsWf(run: seq<DB>, events: seq<Event>, i: nat)
    requires IsRun(run, events) && Wf(run[0]) && i < |run|
    ensures Wf(run[i])
  {
    if i > 0 {
      RunKeepsWf(run, events, i - 1);
      ApplyKeeps(run[i - 1], events[i - 1].op, events[i - 1].now);
    }
  }

  /** In every state reachable from an empty database, every row is well formed and every lease is exclusive. */
  lemma ReachableTablesAreWellFormed(run: seq<DB>, events: seq<Event>, users: map<UserId, User>, i: nat)
    requires IsRun(run, events) && run[0] == EmptyDB(users) && i < |run|
    ensures forall id :: id in run[i].jobs ==> RowOk(run[i].jobs[id])
    ensures forall a, b :: a in run[i].jobs && b in run[i].jobs && a != b && Active(run[i].jobs[a].status) && Active(run[i].jobs[b].status) ==>
                             run[i].jobs[a].profile != run[i].jobs[b].profile && run[i].jobs[a].source != run[i].jobs[b].source
  {
    RunKeepsWf(run, events, i);
  }

  /** What stays true of a row from one state of a run to any later one. */
  predicate LaterRow(a: Job, b: Job) {
    && SameIdentity(a, b)
    && (Terminal(a.status) ==> b.status == a.status && b.marker == a.marker && b.finished == a.finished)
    && (a.marker.Some? ==> b.marker == a.marker)
    && (a.cancel ==> b.cancel)
    && (a.cancel && a.marker.None? ==> b.marker.None? && b.status in {a.status, Cancelled, Interrupted})
    && (b.status == Queued ==> a.status == Queued)
    && RowOk(b)
  }

  lemma RowEvolves(db: DB, db': DB, today: Day, id: JobId, first: Job)
    requires Evolves(db, db', today) && id < db.nextJob && (id in db.jobs ==> LaterRow(first, db.jobs[id]))
    ensures id < db'.nextJob && (id in db'.jobs && id in db.jobs ==> LaterRow(first, db'.jobs[id]))
    ensures id in db'.jobs ==> id in db.jobs
  {
  }

  lemma RowStartsItself(db: DB, id: JobId)
    requires Wf(db) && id in db.jobs
    ensures id < db.nextJob && LaterRow(db.jobs[id], db.jobs[id])
  {
  }

  /** A row keeps its history, is never deleted before it ends, and never comes back. */
  lemma {:induction false} RowHistory(run: seq<DB>, events: seq<Event>, i: nat, j: nat, id: JobId)
    requires IsRun(run, events) && Wf(run[0]) && i <= j < |run| && id in run[i].jobs
    ensures id < run[j].nextJob
    ensures id in run[j].jobs ==> LaterRow(run[i].jobs[id], run[j].jobs[id])
    decreases j - i
  {
    if i == j {
      RunKeepsWf(run, events, i);
      RowStartsItself(run[i], id);
    } else {
      RowHistory(run, events, i, j - 1, id);
      var today := RunEvolves(run, events, j - 1);
      RowEvolves(run[j - 1], run[j], today, id, run[i].jobs[id]);
    }
  }

  lemma RunEvolves(run: seq<DB>, events: seq<Event>, k: nat) returns (today: Day)
    requires IsRun(run, events) && Wf(run[0]) && k < |events|
    ensures Evolves(run[k], run[k + 1], today)
  {
    RunKeepsWf(run, events, k);
    today := Today(events[k].now);
    ApplyKeeps(run[k], events[k].op, events[k].now);
  }

  lemma {:induction false} DeletedStaysDeleted(run: seq<DB>, events: seq<Event>, i: nat, j: nat, id: JobId)
    requires IsRun(run, events) && Wf(run[0]) && i <= j < |run| && id < run[i].nextJob && id !in run[i].jobs
    ensures id !in run[j].jobs && id < run[j].nextJob
    decreases j - i
  {
    if i < j {
      DeletedStaysDeleted(run, events, i, j - 1, id);
      RunKeepsWf(run, events, j - 1);
      ApplyKeeps(run[j - 1], events[j - 1].op, events[j - 1].now);
    }
  }

  /** A cancellation committed before the marker wins in every continuation. */
  lemma CommittedCancellationWins(run: seq<DB>, events: seq<Event>, i: nat, j: nat, id: JobId)
    requires IsRun(run, events) && Wf(run[0]) && i <= j < |run|
    requires id in run[i].jobs && run[i].jobs[id].cancel && run[i].jobs[id].marker.None?
    requires id in run[j].jobs
    ensures run[j].jobs[id].cancel && run[j].jobs[id].marker.None?
    ensures Terminal(run[j].jobs[id].status) ==> run[j].jobs[id].status in {Cancelled, Interrupted}
  {
    RunKeepsWf(run, events, i);
    RowHistory(run, events, i, j, id);
  }

  /** The marker is durable, and from then on the job can only end succeeded or unknown. */
  lemma MarkedJobsEndSucceededOrUnknown(run: seq<DB>, events: seq<Event>, i: nat, j: nat, id: JobId)
    requires IsRun(run, events) && Wf(run[0]) && i <= j < |run|
    requires id in run[i].jobs && run[i].jobs[id].marker.Some? && id in run[j].jobs
    ensures run[j].jobs[id].marker == run[i].jobs[id].marker
    ensures Terminal(run[j].jobs[id].status) ==> run[j].jobs[id].status in {Succeeded, OutcomeUnknown}
  {
    RowHistory(run, events, i, j, id);
  }

  /** Disabling an account revokes all its pending work, and enabling it again gives none of it back. */
  lemma DisableRevokes(run: seq<DB>, events: seq<Event>, i: nat, j: nat, u: UserId, id: JobId)
    requires IsRun(run, events) && Wf(run[0]) && i < j < |run|
    requires events[i].op == SetAccountOp(u, false) && u in run[i].users && !run[i].users[u].admin
    requires id in run[i].jobs && run[i].jobs[id].user == u && Pending(run[i].jobs[id].status) && run[i].jobs[id].marker.None?
    requires id in run[j].jobs
    ensures run[j].jobs[id].marker.None?
    ensures Terminal(run[j].jobs[id].status) ==> run[j].jobs[id].status in {Cancelled, Interrupted}
  {
    assert run[i + 1] == Apply(run[i], events[i].op, events[i].now);
    CommittedCancellationWins(run, events, i + 1, j, id);
  }

  // ---------------------------------------------------------------- claims

  /** Expiring stale work first changes nothing about who can be claimed. */
  lemma ExpiryKeepsCandidates(db: DB, now: Instant)
    ensures Candidates(Expire(db, now), now) == Candidates(db, now)
  {
    var swept := Expire(db, now);
    forall id | id in db.jobs ensures Claimable(swept, id, now) <==> Claimable(db, id, now) {
      SameClaimable(db, now, id);
    }
  }

  lemma SameClaimable(db: DB, now: Instant, id: JobId)
    requires id in db.jobs
    ensures Claimable(Expire(db, now), id, now) <==> Claimable(db, id, now)
  {
    var swept := Expire(db, now);
    forall k | k in db.jobs
      ensures Active(swept.jobs[k].status) <==> Active(db.jobs[k].status)
      ensures swept.jobs[k].profile == db.jobs[k].profile && swept.jobs[k].source == db.jobs[k].source
    {
    }
    if !Stale(db.jobs[id], now) {
      assert swept.jobs[id] == db.jobs[id];
      forall s ensures (s in swept.reservations && swept.reservations[s] == Some(id)) <==> (s in db.reservations && db.reservations[s] == Some(id)) {
      }
    }
  }

  /** A claim leases the least (due, id) claimable job, and leases nothing exactly when none is claimable. */
  lemma ClaimTakesTheFirstDueJob(db: DB, owner: string, now: Instant)
    requires owner != ""
    ensures var db' := Claim(db, owner, now).value;
            if Candidates(db, now) == {} then forall id :: id in db.jobs ==> db'.jobs[id] == ExpireRow(db.jobs[id], now)
            else exists id ::
                && id in Candidates(db, now) && (forall k :: k in Candidates(db, now) ==> DueBefore(db, id, k))
                && db'.jobs[id] == ClaimRow(db.jobs[id], owner, now)
                && (forall k :: k in db.jobs && k != id ==> db'.jobs[k] == ExpireRow(db.jobs[k], now))
  {
    ExpiryKeepsCandidates(db, now);
    var swept := Expire(db, now);
    if Candidates(db, now) != {} {
      var id := FirstDue(swept, Candidates(swept, now));
      forall k | k in Candidates(db, now) ensures DueBefore(db, id, k) {
        assert DueBefore(swept, id, k);
      }
    }
  }
}
