/** What every statement keeps: row shape, leases, reservations, and the two-state contract of a row. */
module JobInvariants {
  import opened Types
  import opened JobTable

  // ---------------------------------------------------------------- one-state invariants

  predicate RowOk(job: Job) {
    && (job.status == OutcomeUnknown ==> job.marker.Some?)
    && (job.status == Queued ==> job.marker.None? && !job.cancel)
    && (job.finished.Some? <==> Terminal(job.status))
    && (job.owner != "" <==> Active(job.status))
    && (Terminal(job.status) && job.marker.Some? ==> job.status in {Succeeded, OutcomeUnknown})
    && (Terminal(job.status) && job.cancel && job.marker.None? ==> job.status in {Cancelled, Interrupted})
    && (job.immediate ==> job.command == Book && job.mode == Manual)
  }

  ghost predicate Rows(db: DB) {
    forall id :: id in db.jobs ==> RowOk(db.jobs[id])
  }

  /** Two leased jobs share neither a browser profile nor an OTP source. */
  ghost predicate Leases(db: DB) {
    forall a, b :: a in db.jobs && b in db.jobs && a != b && Active(db.jobs[a].status) && Active(db.jobs[b].status) ==>
                     db.jobs[a].profile != db.jobs[b].profile && db.jobs[a].source != db.jobs[b].source
  }

  /** A book job that may still confirm, or may already have, must hold its slot. */
  predicate Holds(job: Job) {
    job.command == Book && (Pending(job.status) || job.marker.Some? || job.status == Succeeded)
  }

  ghost predicate Reserved(db: DB) {
    && (forall id :: id in db.jobs && Holds(db.jobs[id]) ==>
                       SlotOf(db.jobs[id]) in db.reservations && db.reservations[SlotOf(db.jobs[id])] == Some(id))
    && (forall s :: s in db.reservations && db.reservations[s].Some? ==>
                      var id := db.reservations[s].value;
                      id in db.jobs && Holds(db.jobs[id]) && SlotOf(db.jobs[id]) == s)
  }

  /** Foreign keys, and AUTOINCREMENT ids that are never reused. */
  ghost predicate Keys(db: DB) {
    && (forall id :: id in db.jobs ==> id < db.nextJob && db.jobs[id].profile in db.profiles)
    && (forall p :: p in db.profiles ==> p < db.nextProfile)
    && (forall s :: s in db.reservations ==> s.profile in db.profiles)
  }

  ghost predicate Wf(db: DB) {
    Rows(db) && Leases(db) && Reserved(db) && Keys(db)
  }

  ghost predicate Quotas(db: DB) {
    forall u: UserId :: |PendingJobs(db, u)| <= MAX_PENDING && |RetainedJobs(db, u)| <= MAX_RETAINED
  }

  // ---------------------------------------------------------------- the two-state contract

  predicate SameIdentity(a: Job, b: Job) {
    && a.user == b.user && a.booking == b.booking && a.profile == b.profile && a.source == b.source
    && a.command == b.command && a.mode == b.mode && a.immediate == b.immediate && a.visit == b.visit
    && a.due == b.due && a.expires == b.expires && a.dedup == b.dedup
  }

  /** The transition graph, with the one extra edge that expiry adds to it. */
  predicate Edge(a: JobStatus, b: JobStatus) {
    a == b || CanTransition(a, b) || (a == Queued && b == Failed)
  }

  /** How one statement may change a row whose account is `active`. */
  predicate LegalEdit(a: Job, b: Job, active: bool) {
    && SameIdentity(a, b)
    && Edge(a.status, b.status)
    // terminal status is absorbing
    && (Terminal(a.status) ==> b.status == a.status && b.marker == a.marker && b.finished == a.finished)
    // the marker is written once, on an uncancelled leased row of an active account
    && (a.marker.Some? ==> b.marker == a.marker)
    && (a.marker.None? && b.marker.Some? ==> Active(a.status) && b.status == a.status && !a.cancel && active)
    // a committed cancellation stays, and wins while the marker is unset
    && (a.cancel ==> b.cancel)
    && (a.cancel && a.marker.None? ==> b.marker.None? && b.status in {a.status, Cancelled, Interrupted})
    && RowOk(b)
  }

  /** A row as enqueue inserts it. */
  predicate NewRow(job: Job) {
    job.status == Queued && job.marker.None? && !job.cancel && RowOk(job)
  }

  /** What becomes of one reservation in a step; `today` is the day of the step. */
  predicate GuardKept(db: DB, db': DB, s: Slot, today: Day)
    requires s in db.reservations
  {
    match db.reservations[s]
    case None => (s in db'.reservations && db'.reservations[s].None?) || s.profile !in db'.profiles || (s !in db'.reservations && s.visit < today - 1)
    case Some(id) =>
      || (s in db'.reservations && (db'.reservations[s] == Some(id) || (db'.reservations[s].None? && id !in db'.jobs)))
      || s.profile !in db'.profiles
      || (s !in db'.reservations && id in db'.jobs && Unconfirmed(db'.jobs[id]))
  }

  /** What every statement of the store keeps. */
  ghost predicate Evolves(db: DB, db': DB, today: Day) {
    && db.nextJob <= db'.nextJob && db.nextProfile <= db'.nextProfile
    && (forall id :: id in db.jobs && id in db'.jobs ==> LegalEdit(db.jobs[id], db'.jobs[id], IsActive(db, db.jobs[id].user)))
    && (forall id :: id in db.jobs && id !in db'.jobs ==> Terminal(db.jobs[id].status))
    && (forall id :: id in db'.jobs && id !in db.jobs ==> id >= db.nextJob && NewRow(db'.jobs[id])
                                                          && (db'.jobs[id].command == Book ==> SlotOf(db'.jobs[id]) !in db.reservations))
    && (forall p :: p in db'.profiles && p !in db.profiles ==> p >= db.nextProfile)
    && (forall s :: s in db.reservations ==> GuardKept(db, db', s, today))
    && (forall s :: s in db'.reservations && s !in db.reservations ==>
          db'.reservations[s].Some? && db'.reservations[s].value >= db.nextJob)
  }

  // ---------------------------------------------------------------- updates

  /** The rows `ids` are rewritten, legally and without granting a new lease. */
  ghost predicate Edits(db: DB, jobs: map<JobId, Job>, ids: set<JobId>) {
    && jobs.Keys == db.jobs.Keys
    && (forall id :: id in jobs && id !in ids ==> jobs[id] == db.jobs[id])
    && (forall id :: id in jobs && id in ids ==>
          LegalEdit(db.jobs[id], jobs[id], IsActive(db, db.jobs[id].user)) && (Active(jobs[id].status) ==> Active(db.jobs[id].status)))
  }

  lemma EditedRow(db: DB, jobs: map<JobId, Job>, ids: set<JobId>, id: JobId)
    requires Rows(db) && Edits(db, jobs, ids) && id in jobs
    ensures LegalEdit(db.jobs[id], jobs[id], IsActive(db, db.jobs[id].user))
    ensures Active(jobs[id].status) ==> Active(db.jobs[id].status)
    ensures Holds(jobs[id]) ==> Holds(db.jobs[id])
    ensures SlotOf(jobs[id]) == SlotOf(db.jobs[id])
  {
  }

  lemma EditKeepsReserved(db: DB, jobs: map<JobId, Job>, ids: set<JobId>)
    requires Wf(db) && Edits(db, jobs, ids)
    ensures Reserved(WithRows(db, jobs, ids))
  {
    var db' := WithRows(db, jobs, ids);
    forall id | id in jobs && Holds(jobs[id])
      ensures SlotOf(jobs[id]) in db'.reservations && db'.reservations[SlotOf(jobs[id])] == Some(id)
    {
      EditedRow(db, jobs, ids, id);
    }
    forall s | s in db'.reservations && db'.reservations[s].Some?
      ensures var id := db'.reservations[s].value; id in jobs && Holds(jobs[id]) && SlotOf(jobs[id]) == s
    {
      EditedRow(db, jobs, ids, db.reservations[s].value);
    }
  }

  lemma EditKeepsLeases(db: DB, jobs: map<JobId, Job>, ids: set<JobId>)
    requires Wf(db) && Edits(db, jobs, ids)
    ensures Leases(db.(jobs := jobs))
  {
    forall a, b | a in jobs && b in jobs && a != b && Active(jobs[a].status) && Active(jobs[b].status)
      ensures jobs[a].profile != jobs[b].profile && jobs[a].source != jobs[b].source
    {
      EditedRow(db, jobs, ids, a);
      EditedRow(db, jobs, ids, b);
    }
  }

  lemma EditKeepsGuard(db: DB, jobs: map<JobId, Job>, ids: set<JobId>, s: Slot, today: Day)
    requires Wf(db) && Edits(db, jobs, ids) && s in db.reservations
    ensures GuardKept(db, WithRows(db, jobs, ids), s, today)
  {
    if db.reservations[s].Some? {
      EditedRow(db, jobs, ids, db.reservations[s].value);
    }
  }

  /** The one argument for every UPDATE statement that grants no new lease. */
  lemma EditKeeps(db: DB, jobs: map<JobId, Job>, ids: set<JobId>, today: Day)
    requires Wf(db) && Edits(db, jobs, ids)
    ensures Wf(WithRows(db, jobs, ids)) && Evolves(db, WithRows(db, jobs, ids), today)
  {
    forall id | id in jobs
      ensures LegalEdit(db.jobs[id], jobs[id], IsActive(db, db.jobs[id].user)) && jobs[id].profile in db.profiles
    {
      EditedRow(db, jobs, ids, id);
    }
    EditKeepsReserved(db, jobs, ids);
    EditKeepsLeases(db, jobs, ids);
    forall s | s in db.reservations ensures GuardKept(db, WithRows(db, jobs, ids), s, today) {
      EditKeepsGuard(db, jobs, ids, s, today);
    }
  }

  // ---------------------------------------------------------------- single-row statements

  lemma RowEditKeeps(db: DB, id: JobId, row: Job, today: Day)
    requires Wf(db) && id in db.jobs
    requires LegalEdit(db.jobs[id], row, IsActive(db, db.jobs[id].user)) && (Active(row.status) ==> Active(db.jobs[id].status))
    ensures Wf(WithRows(db, db.jobs[id := row], {id})) && Evolves(db, WithRows(db, db.jobs[id := row], {id}), today)
  {
    EditKeeps(db, db.jobs[id := row], {id}, today);
  }

  lemma FinishRow(job: Job, active: bool, to: JobStatus, u: Update, now: Instant)
    requires RowOk(job) && job.status in FinishExpected(to) && Terminal(to) && !u.confirmationStarted
    requires to == OutcomeUnknown ==> job.marker.Some?
    ensures LegalEdit(job, TransitionRow(job, active, to, u, now), active)
    ensures Terminal(TransitionRow(job, active, to, u, now).status)
  {
  }

  lemma FinishKeeps(db: DB, id: JobId, status: JobStatus, message: Message, code: Option<int>, now: Instant, today: Day)
    requires Wf(db) && Terminal(status)
    ensures var r := Finish(db, id, status, message, code, now); r.Ok? ==> Wf(r.value) && Evolves(db, r.value, today)
  {
    if Finish(db, id, status, message, code, now).Ok? {
      var u := Update(message, code, false);
      var job := db.jobs[id];
      FinishRow(job, IsActive(db, job.user), status, u, now);
      RowEditKeeps(db, id, TransitionRow(job, IsActive(db, job.user), status, u, now), today);
    }
  }

  lemma BeginApprovalKeeps(db: DB, id: JobId, message: Message, now: Instant, today: Day)
    requires Wf(db)
    ensures var r := BeginApproval(db, id, message, now); r.Ok? ==> Wf(r.value) && Evolves(db, r.value, today)
  {
    if BeginApproval(db, id, message, now).Ok? {
      RowEditKeeps(db, id, TransitionRow(db.jobs[id], true, AwaitingApproval, Update(message, None, false), now), today);
    }
  }

  lemma ResumeApprovedKeeps(db: DB, id: JobId, message: Message, now: Instant, today: Day)
    requires Wf(db)
    ensures var r := ResumeApproved(db, id, message, now); r.Ok? ==> Wf(r.value) && Evolves(db, r.value, today)
  {
    if ResumeApproved(db, id, message, now).Ok? {
      RowEditKeeps(db, id, TransitionRow(db.jobs[id], true, Running, Update(message, None, false), now), today);
    }
  }

  lemma MarkKeeps(db: DB, id: JobId, now: Instant, today: Day)
    requires Wf(db)
    ensures var r := MarkConfirmation(db, id, now); r.Ok? ==> Wf(r.value) && Evolves(db, r.value, today)
  {
    if MarkConfirmation(db, id, now).Ok? {
      var row := db.jobs[id].(marker := Mark(db.jobs[id].marker, now), updated := now);
      RowEditKeeps(db, id, row, today);
      assert Release(db.reservations, db.jobs[id := row], {id}) == db.reservations;
    }
  }

  lemma CancelKeeps(db: DB, actor: UserId, id: JobId, now: Instant, today: Day)
    requires Wf(db)
    ensures var r := RequestCancellation(db, actor, id, now); r.Ok? ==> Wf(r.value) && Evolves(db, r.value, today)
  {
    if RequestCancellation(db, actor, id, now).Ok? {
      RowEditKeeps(db, id, CancelRow(db.jobs[id], CancelledBeforeExecution, now), today);
    }
  }

  // ---------------------------------------------------------------- set-at-a-time statements

  lemma RecoverEdit(job: Job, active: bool, now: Instant)
    requires RowOk(job) && Active(job.status)
    ensures LegalEdit(job, RecoverRow(job, now), active) && !Active(RecoverRow(job, now).status)
  {
  }

  lemma RecoverEdits(db: DB, now: Instant)
    requires Rows(db)
    ensures Edits(db, map id | id in db.jobs :: RecoverRow(db.jobs[id], now), ActiveJobs(db))
  {
    forall id | id in ActiveJobs(db)
      ensures LegalEdit(db.jobs[id], RecoverRow(db.jobs[id], now), IsActive(db, db.jobs[id].user))
              && !Active(RecoverRow(db.jobs[id], now).status)
    {
      RecoverEdit(db.jobs[id], IsActive(db, db.jobs[id].user), now);
    }
  }

  lemma RecoverKeeps(db: DB, now: Instant, today: Day)
    requires Wf(db)
    ensures Wf(Recover(db, now)) && Evolves(db, Recover(db, now), today)
  {
    RecoverEdits(db, now);
    EditKeeps(db, map id | id in db.jobs :: RecoverRow(db.jobs[id], now), ActiveJobs(db), today);
  }

  lemma ExpireEdits(db: DB, now: Instant)
    requires Rows(db)
    ensures Edits(db, map id | id in db.jobs :: ExpireRow(db.jobs[id], now), StaleJobs(db, now))
  {
  }

  lemma ExpireKeeps(db: DB, now: Instant, today: Day)
    requires Wf(db)
    ensures Wf(Expire(db, now)) && Evolves(db, Expire(db, now), today)
  {
    ExpireEdits(db, now);
    EditKeeps(db, map id | id in db.jobs :: ExpireRow(db.jobs[id], now), StaleJobs(db, now), today);
  }

  /** A cancellation is accepted exactly for the owner's pending or cancelled job; it ends a queued job, flags a leased one, and touches no other. */
  lemma CancellationCommits(db: DB, actor: UserId, id: JobId, now: Instant)
    ensures var r := RequestCancellation(db, actor, id, now);
            && (r.Ok? <==> id in db.jobs && (actor == 0 || db.jobs[id].user == actor) && (Pending(db.jobs[id].status) || db.jobs[id].status == Cancelled))
            && (r.Ok? ==>
                  && r.value.jobs.Keys == db.jobs.Keys && (forall k :: k in db.jobs && k != id ==> r.value.jobs[k] == db.jobs[k])
                  && r.value.jobs[id].cancel && r.value.jobs[id].marker == db.jobs[id].marker
                  && r.value.jobs[id].status == (if db.jobs[id].status == Queued then Cancelled else db.jobs[id].status))
  {
  }

  lemma CancelEdit(job: Job, message: Message, now: Instant, active: bool)
    requires RowOk(job) && Pending(job.status)
    ensures LegalEdit(job, CancelRow(job, message, now), active) && (Active(CancelRow(job, message, now).status) ==> Active(job.status))
  {
  }

  lemma RevokeEdits(db: DB, u: UserId, now: Instant)
    requires Rows(db)
    ensures Edits(db, Revoked(db, u, now), PendingJobs(db, u))
  {
    forall id | id in PendingJobs(db, u)
      ensures LegalEdit(db.jobs[id], Revoked(db, u, now)[id], IsActive(db, db.jobs[id].user))
      ensures Active(Revoked(db, u, now)[id].status) ==> Active(db.jobs[id].status)
    {
      CancelEdit(db.jobs[id], AccountWasDisabled, now, IsActive(db, db.jobs[id].user));
    }
  }

  lemma SetAccountKeeps(db: DB, u: UserId, active: bool, now: Instant, today: Day)
    requires Wf(db)
    ensures var r := SetAccount(db, u, active, now); r.Ok? ==> Wf(r.value) && Evolves(db, r.value, today)
  {
    if SetAccount(db, u, active, now).Ok? {
      var users := db.users[u := db.users[u].(active := active)];
      if active {
        EditKeeps(db, db.jobs, {}, today);
        assert Release(db.reservations, db.jobs, {}) == db.reservations;
        UsersDoNotMatter(db, db, users, today);
      } else {
        RevokeEdits(db, u, now);
        EditKeeps(db, Revoked(db, u, now), PendingJobs(db, u), today);
        UsersDoNotMatter(db, WithRows(db, Revoked(db, u, now), PendingJobs(db, u)), users, today);
      }
    }
  }

  lemma UsersDoNotMatter(db: DB, db': DB, users: map<UserId, User>, today: Day)
    requires Wf(db') && Evolves(db, db', today)
    ensures Wf(db'.(users := users)) && Evolves(db, db'.(users := users), today)
  {
    forall s | s in db.reservations ensures GuardKept(db, db'.(users := users), s, today) {
      assert GuardKept(db, db', s, today);
    }
  }

  // ---------------------------------------------------------------- claims

  lemma LeaseKeepsLeases(db: DB, id: JobId, owner: string, now: Instant)
    requires Leases(db) && id in db.jobs && Claimable(db, id, now)
    ensures Leases(Lease(db, id, owner, now))
  {
  }

  lemma LeaseKeepsReserved(db: DB, id: JobId, owner: string, now: Instant)
    requires Reserved(db) && id in db.jobs && Claimable(db, id, now)
    ensures Reserved(Lease(db, id, owner, now))
  {
    var db' := Lease(db, id, owner, now);
    forall k | k in db'.jobs && Holds(db'.jobs[k]) ensures Holds(db.jobs[k]) && SlotOf(db'.jobs[k]) == SlotOf(db.jobs[k]) {
    }
  }

  lemma LeaseKeepsWf(db: DB, id: JobId, owner: string, now: Instant)
    requires Wf(db) && id in db.jobs && Claimable(db, id, now) && owner != ""
    ensures Wf(Lease(db, id, owner, now))
  {
    LeaseKeepsLeases(db, id, owner, now);
    LeaseKeepsReserved(db, id, owner, now);
    assert RowOk(ClaimRow(db.jobs[id], owner, now));
  }

  // ---------------------------------------------------------------- deletions

  lemma DeleteKeepsReserved(db: DB, ids: set<JobId>)
    requires Reserved(db)
    ensures Reserved(WithoutRows(db, ids))
  {
  }

  lemma DeleteKeepsGuard(db: DB, ids: set<JobId>, s: Slot, today: Day)
    requires Rows(db) && Reserved(db) && s in db.reservations
    requires forall id :: id in ids ==> id in db.jobs && Terminal(db.jobs[id].status)
    ensures GuardKept(db, WithoutRows(db, ids), s, today)
  {
  }

  lemma DeleteKeeps(db: DB, ids: set<JobId>, today: Day)
    requires Wf(db) && forall id :: id in ids ==> id in db.jobs && Terminal(db.jobs[id].status)
    ensures Wf(WithoutRows(db, ids)) && Evolves(db, WithoutRows(db, ids), today)
  {
    DeleteKeepsReserved(db, ids);
    var db' := WithoutRows(db, ids);
    forall s | s in db.reservations ensures GuardKept(db, db', s, today) {
      DeleteKeepsGuard(db, ids, s, today);
    }
    forall k | k in db'.jobs ensures LegalEdit(db.jobs[k], db'.jobs[k], IsActive(db, db.jobs[k].user)) {
    }
  }

  lemma PruneKeeps(db: DB, u: UserId, now: Instant, today: Day)
    requires Wf(db)
    ensures Wf(Prune(db, u, now)) && Evolves(db, Prune(db, u, now), today)
  {
    DeleteKeeps(db, Excess(db, u, now), today);
  }

  lemma PurgeKeepsReserved(db: DB, today: Day)
    requires Reserved(db)
    ensures Reserved(PurgeGuards(db, today))
  {
    var db' := PurgeGuards(db, today);
    forall id | id in db.jobs && Holds(db.jobs[id])
      ensures SlotOf(db.jobs[id]) in db'.reservations && db'.reservations[SlotOf(db.jobs[id])] == Some(id)
    {
      assert db.reservations[SlotOf(db.jobs[id])] == Some(id);
    }
  }

  /** Only reservations change, and only as a guard may. */
  lemma GuardsEvolve(db: DB, db': DB, today: Day)
    requires Wf(db) && db' == db.(reservations := db'.reservations) && Reserved(db')
    requires db'.reservations.Keys <= db.reservations.Keys && forall s :: s in db.reservations ==> GuardKept(db, db', s, today)
    ensures Wf(db') && Evolves(db, db', today)
  {
    forall s | s in db'.reservations ensures s in db.reservations {
      assert s in db'.reservations.Keys;
    }
  }

  lemma PurgeKeeps(db: DB, today: Day)
    requires Wf(db)
    ensures Wf(PurgeGuards(db, today)) && Evolves(db, PurgeGuards(db, today), today)
  {
    PurgeKeepsReserved(db, today);
    GuardsEvolve(db, PurgeGuards(db, today), today);
  }

  /** Dropping profiles that no job names, together with their guards. */
  lemma DropProfilesKeeps(db: DB, db': DB, gone: set<ProfileId>, today: Day)
    requires Wf(db') && Evolves(db, db', today) && db'.profiles == db.profiles
    requires forall id :: id in db'.jobs ==> db'.jobs[id].profile !in gone
    ensures Wf(WithoutProfiles(db', gone)) && Evolves(db, WithoutProfiles(db', gone), today)
  {
    var db'' := WithoutProfiles(db', gone);
    forall s | s in db.reservations ensures GuardKept(db, db'', s, today) {
      assert GuardKept(db, db', s, today);
    }
    assert Reserved(db'') by {
      forall id | id in db''.jobs && Holds(db''.jobs[id]) ensures SlotOf(db''.jobs[id]) in db''.reservations {
        assert SlotOf(db'.jobs[id]) in db'.reservations;
      }
    }
  }

  lemma SelfEvolves(db: DB, today: Day)
    requires Wf(db)
    ensures Evolves(db, db, today)
  {
  }

  lemma DeleteProfileKeeps(db: DB, u: UserId, p: ProfileId, today: Day)
    requires Wf(db)
    ensures var r := DeleteProfile(db, u, p); r.Ok? ==> Wf(r.value) && Evolves(db, r.value, today)
  {
    if DeleteProfile(db, u, p).Ok? {
      SelfEvolves(db, today);
      DropProfilesKeeps(db, db, {p}, today);
    }
  }

  lemma DeleteMemberKeeps(db: DB, u: UserId, name: string, today: Day)
    requires Wf(db)
    ensures var r := DeleteMember(db, u, name); r.Ok? ==> Wf(r.value) && Evolves(db, r.value, today)
  {
    var r := DeleteMember(db, u, name);
    if r.Ok? {
      DeleteKeeps(db, RetainedJobs(db, u), today);
      var without := WithoutRows(db, RetainedJobs(db, u));
      DropProfilesKeeps(db, without, ProfilesOf(db, u), today);
      var dropped := WithoutProfiles(without, ProfilesOf(db, u));
      OwnedTablesDoNotMatter(db, dropped, r.value, today);
    }
  }

  lemma OwnedTablesDoNotMatter(db: DB, a: DB, b: DB, today: Day)
    requires Wf(a) && Evolves(db, a, today)
    requires b == a.(users := b.users, bookings := b.bookings, sources := b.sources, preferences := b.preferences)
    ensures Wf(b) && Evolves(db, b, today)
  {
    forall s | s in db.reservations ensures GuardKept(db, b, s, today) {
      assert GuardKept(db, a, s, today);
    }
  }

  // ---------------------------------------------------------------- insertions

  lemma InsertKeepsWf(db: DB, job: Job)
    requires Wf(db) && NewRow(job) && job.profile in db.profiles && (job.command == Book ==> SlotOf(job) !in db.reservations)
    ensures Wf(WithNewRow(db, job))
  {
    var db' := WithNewRow(db, job);
    assert Reserved(db') by {
      forall id | id in db'.jobs && Holds(db'.jobs[id])
        ensures SlotOf(db'.jobs[id]) in db'.reservations && db'.reservations[SlotOf(db'.jobs[id])] == Some(id)
      {
        assert id == db.nextJob || (id in db.jobs && SlotOf(db.jobs[id]) in db.reservations);
      }
    }
  }

  lemma InsertKeepsGuard(db: DB, db': DB, job: Job, today: Day, s: Slot)
    requires Keys(db) && Reserved(db) && db.nextJob <= db'.nextJob && s in db.reservations && GuardKept(db, db', s, today)
    requires job.command == Book ==> SlotOf(job) !in db.reservations
    ensures GuardKept(db, WithNewRow(db', job), s, today)
  {
  }

  lemma InsertEvolves(db: DB, db': DB, job: Job, today: Day)
    requires Keys(db) && Reserved(db) && Evolves(db, db', today)
    requires NewRow(job) && (job.command == Book ==> SlotOf(job) !in db.reservations)
    ensures Evolves(db, WithNewRow(db', job), today)
  {
    forall s | s in db.reservations ensures GuardKept(db, WithNewRow(db', job), s, today) {
      InsertKeepsGuard(db, db', job, today, s);
    }
  }

  lemma AdmittedRow(db: DB, actor: UserId, p: Params, now: Instant)
    requires Admit(db, actor, p, now).Ok?
    ensures var job := Admit(db, actor, p, now).value; NewRow(job) && job.profile in db.profiles
  {
  }

  /** Whatever is queued belongs together: profile, source and request have one owner, who is the actor if there is one, and all are enabled. */
  lemma AdmissionIsSound(db: DB, actor: UserId, p: Params, now: Instant)
    requires Admit(db, actor, p, now).Ok?
    ensures var job := Admit(db, actor, p, now).value;
            && job.profile in db.profiles && db.profiles[job.profile].enabled && db.profiles[job.profile].user == job.user
            && job.source in db.sources && db.sources[job.source] == job.user
            && (actor > 0 ==> job.user == actor)
            && (job.command != AuthCheck ==> job.booking.Some?)
            && (job.booking.Some? ==>
                  && job.booking.value in db.bookings && db.bookings[job.booking.value].enabled
                  && db.bookings[job.booking.value].user == job.user && db.bookings[job.booking.value].profile == job.profile
                  && db.bookings[job.booking.value].visit == job.visit)
            && (job.command == Book <==> job.mode == Auto || (job.mode == Manual && job.command != AuthCheck))
            && (job.command == DryRun <==> job.mode == ModeDryRun)
            && (job.expires.Some? ==> job.due < job.expires.value)
            && job.source == (if p.source != 0 then p.source
                              else if job.user in db.preferences then db.preferences[job.user]
                              else db.profiles[job.profile].source)
            && job.booking == p.booking && job.command == p.command && job.immediate == p.immediate && (p.profile != 0 ==> job.profile == p.profile)
            && job.due == (if p.due.Some? then p.due.value else now) && job.expires == p.expires && job.dedup == p.dedup
            && job.status == Queued && job.owner == "" && !job.cancel && job.marker.None? && job.updated == now
            && (job.immediate ==> job.command == Book && job.mode == Manual && job.due <= now < job.expires.value <= job.due + MAX_IMMEDIATE_LIFETIME)
  {
  }

  /** Pruning never frees a slot: the rows it removes hold one only as a guard. */
  lemma PruneFreesNoSlot(db: DB, u: UserId, now: Instant)
    requires Reserved(db)
    ensures Prune(db, u, now).reservations.Keys == db.reservations.Keys
  {
    var ids := Excess(db, u, now);
    assert Release(db.reservations, db.jobs, ids).Keys == db.reservations.Keys;
  }

  lemma EnqueueKeeps(db: DB, actor: UserId, p: Params, now: Instant, today: Day)
    requires Wf(db)
    ensures var r := Enqueue(db, actor, p, now); r.Ok? ==> Wf(r.value) && Evolves(db, r.value, today)
  {
    if Enqueue(db, actor, p, now).Ok? {
      AdmittedRow(db, actor, p, now);
      var job := Admit(db, actor, p, now).value;
      PruneKeeps(db, job.user, now, today);
      PruneFreesNoSlot(db, job.user, now);
      InsertKeepsWf(Prune(db, job.user, now), job);
      InsertEvolves(db, Prune(db, job.user, now), job, today);
    }
  }
}
